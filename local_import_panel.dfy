/**
 * The file import/export panel (src/components/LocalImportPanel.tsx): the
 * record-to-row mapping of the spreadsheet export and its empty check, and the
 * status messages of the JSON and spreadsheet imports.
 */
module LocalImport {
  import opened Wrappers
  import opened JsText
  import opened GameTypes
  import ExcelImport

  const CountSuffix: string := " registros)"
  const NoDataMessage: string := "No hay datos para exportar a Excel"
  const ExcelExportedPrefix: string := "Exportado a Excel ("
  const ExcelExportFailed: string := "No se pudo exportar a Excel"
  const FileExported: string := "Exportado a archivo local"
  const JsonImportedPrefix: string := "Importado correctamente ("
  const JsonImportFailed: string := "Error al importar"
  const ExcelImporting: string := "Importando Excel..."
  const ExcelImportedPrefix: string := "Importado desde Excel ("
  const ExcelImportFailed: string := "Error al importar Excel (usa el archivo original)"

  /** A message reporting a number of records: `${prefix}${n} registros)`. */
  function CountMessage(prefix: string, n: nat): string {
    prefix + NatToString(n) + CountSuffix
  }

  lemma Middle(a: string, x: string, b: string)
    ensures (a + x + b)[|a|..|a| + |x|] == x
  {
    assert forall i :: 0 <= i < |x| ==> (a + x + b)[|a|..|a| + |x|][i] == x[i];
  }

  /** The count can be read back from a count message: equal messages report equal counts. */
  lemma CountMessageInjective(prefix: string, n: nat, m: nat)
    requires CountMessage(prefix, n) == CountMessage(prefix, m)
    ensures n == m
  {
    var a := CountMessage(prefix, n);
    assert |NatToString(n)| == |NatToString(m)|;
    Middle(prefix, NatToString(n), CountSuffix);
    Middle(prefix, NatToString(m), CountSuffix);
    ParseNatToString(n);
    ParseNatToString(m);
  }

  /** What `onImportJson` answers. */
  datatype ImportResult = ImportResult(ok: bool, message: Option<string>, count: Option<nat>)

  /** The message after an import: the count (0 when missing) under `okPrefix` on success, else the result's message, or the default when it is missing or empty. */
  function ImportMessage(okPrefix: string, result: ImportResult): (m: string)
    ensures m != ""
    ensures result.ok ==> m == CountMessage(okPrefix, result.count.GetOr(0))
    ensures !result.ok ==> m == (if result.message.Some? && result.message.value != "" then result.message.value else JsonImportFailed)
  {
    if result.ok then CountMessage(okPrefix, result.count.GetOr(0))
    else if result.message.Some? && result.message.value != "" then result.message.value
    else JsonImportFailed
  }

  /** The columns of the exported sheet, in the order of the row object's keys. */
  datatype ExportColumn =
    | ColNombre | ColPlataforma | ColEstado | ColTier | ColNotas | ColFechaLanzamiento | ColPublisher
    | ColGeneros | ColFechaPrimera | ColFechaComienzo | ColFechaFin | ColHorasUltima | ColAnioCompletado
    | ColHorasTotales | ColCreadoEl

  const ExportColumns: seq<ExportColumn> := [
    ColNombre, ColPlataforma, ColEstado, ColTier, ColNotas, ColFechaLanzamiento, ColPublisher,
    ColGeneros, ColFechaPrimera, ColFechaComienzo, ColFechaFin, ColHorasUltima, ColAnioCompletado,
    ColHorasTotales, ColCreadoEl]

  /** The header text of each column. */
  function ColumnHeader(c: ExportColumn): string {
    match c
    case ColNombre => "Nombre"
    case ColPlataforma => "Plataforma"
    case ColEstado => "Estado"
    case ColTier => "Tier"
    case ColNotas => "Notas"
    case ColFechaLanzamiento => "Fecha de lanzamiento"
    case ColPublisher => "Publisher"
    case ColGeneros => "G\U{00E9}nero(s)"
    case ColFechaPrimera => "Fecha primera vez"
    case ColFechaComienzo => "Fecha de comienzo"
    case ColFechaFin => "Fecha de fin"
    case ColHorasUltima => "Horas jugadas (\U{00FA}ltima partida)"
    case ColAnioCompletado => "A\U{00F1}o completado"
    case ColHorasTotales => "Horas totales"
    case ColCreadoEl => "Creado el"
  }

  /** A cell of the exported sheet. */
  datatype ExportCell = Text(s: string) | Numeric(n: Number)

  /** `value ?? ""` for an optional text: absent becomes '', a present value is kept. */
  function OptionalText(o: Option<string>): (c: ExportCell)
    ensures c.Text?
    ensures o.Some? ==> c.s == o.value
    ensures o.None? ==> c.s == ""
  {
    Text(o.GetOr(""))
  }

  /** `hours ?? ""`: null or absent hours become '', a number is kept. */
  function HoursCell(h: Hours): (c: ExportCell)
    ensures c.Numeric? <==> h.Value?
    ensures h.Value? ==> c.n == h.n
    ensures !h.Value? ==> c == Text("")
  {
    if h.Value? then Numeric(h.n) else Text("")
  }

  /** The cell a record puts under a column. */
  function CellFor(g: Game, c: ExportColumn): ExportCell {
    match c
    case ColNombre => Text(g.title)
    case ColPlataforma => Text(g.platform)
    case ColEstado => Text(g.status)
    case ColTier => Text(g.ranking)
    case ColNotas => Text(g.comment)
    case ColFechaLanzamiento => OptionalText(g.releaseDate)
    case ColPublisher => OptionalText(g.publisher)
    case ColGeneros => OptionalText(g.genres)
    case ColFechaPrimera => OptionalText(g.firstPlayedAt)
    case ColFechaComienzo => OptionalText(g.startDate)
    case ColFechaFin => OptionalText(g.endDate)
    case ColHorasUltima => HoursCell(g.lastSessionHours)
    case ColAnioCompletado => OptionalText(g.yearsPlayed)
    case ColHorasTotales => HoursCell(g.totalHours)
    case ColCreadoEl => Text(g.createdAt)
  }

  /** The cells of a record under the given columns, in column order. */
  function CellsFor(g: Game, cols: seq<ExportColumn>): (r: seq<ExportCell>)
    ensures |r| == |cols|
    ensures forall i :: 0 <= i < |cols| ==> r[i] == CellFor(g, cols[i])
  {
    if cols == [] then [] else [CellFor(g, cols[0])] + CellsFor(g, cols[1..])
  }

  /** The row object of one record. */
  function ExportRow(g: Game): seq<ExportCell> {
    CellsFor(g, ExportColumns)
  }

  /** `data.map(...)`: one row per record, in list order. */
  function ExportRows(games: seq<Game>): (rows: seq<seq<ExportCell>>)
    ensures |rows| == |games|
    ensures forall i :: 0 <= i < |games| ==> rows[i] == ExportRow(games[i])
  {
    if games == [] then [] else [ExportRow(games[0])] + ExportRows(games[1..])
  }

  /** The cell of a record's row at a column position. */
  lemma CellAt(g: Game, i: nat)
    requires i < |ExportColumns|
    ensures |ExportRow(g)| == |ExportColumns| == 15
    ensures ExportRow(g)[i] == CellFor(g, ExportColumns[i])
  {
  }

  /** The required texts are copied verbatim into the row. */
  lemma ExportRowTexts(g: Game)
    ensures |ExportRow(g)| == 15
    ensures ExportRow(g)[0] == Text(g.title) && ExportRow(g)[1] == Text(g.platform)
    ensures ExportRow(g)[2] == Text(g.status) && ExportRow(g)[3] == Text(g.ranking)
    ensures ExportRow(g)[4] == Text(g.comment) && ExportRow(g)[14] == Text(g.createdAt)
  {
    CellAt(g, 0);
    CellAt(g, 1);
    CellAt(g, 2);
    CellAt(g, 3);
    CellAt(g, 4);
    CellAt(g, 14);
  }

  /** The optional dates are copied into the row, or '' when absent (as OptionalText states). */
  lemma ExportRowDates(g: Game)
    ensures |ExportRow(g)| == 15
    ensures ExportRow(g)[5] == OptionalText(g.releaseDate) && ExportRow(g)[8] == OptionalText(g.firstPlayedAt)
    ensures ExportRow(g)[9] == OptionalText(g.startDate) && ExportRow(g)[10] == OptionalText(g.endDate)
  {
    CellAt(g, 5);
    CellAt(g, 8);
    CellAt(g, 9);
    CellAt(g, 10);
  }

  /** The publisher, the genres and the year completed are copied into the row, or '' when absent. */
  lemma ExportRowDetails(g: Game)
    ensures |ExportRow(g)| == 15
    ensures ExportRow(g)[6] == OptionalText(g.publisher) && ExportRow(g)[7] == OptionalText(g.genres)
    ensures ExportRow(g)[12] == OptionalText(g.yearsPlayed)
  {
    CellAt(g, 6);
    CellAt(g, 7);
    CellAt(g, 12);
  }

  /** The hours are copied into the row as numbers, or '' when null or absent. */
  lemma ExportRowHours(g: Game)
    ensures |ExportRow(g)| == 15
    ensures ExportRow(g)[11] == if g.lastSessionHours.Value? then Numeric(g.lastSessionHours.n) else Text("")
    ensures ExportRow(g)[13] == if g.totalHours.Value? then Numeric(g.totalHours.n) else Text("")
  {
    CellAt(g, 11);
    CellAt(g, 13);
  }

  /** Two records with the same row have the same cell under every column. */
  lemma SameRowSameCell(g: Game, h: Game, i: nat)
    requires ExportRow(g) == ExportRow(h) && i < |ExportColumns|
    ensures CellFor(g, ExportColumns[i]) == CellFor(h, ExportColumns[i])
  {
    assert ExportRow(g)[i] == ExportRow(h)[i];
  }

  /** Two records with the same row agree on every field the row copies verbatim. */
  lemma ExportRowKeepsFields(g: Game, h: Game)
    requires ExportRow(g) == ExportRow(h)
    ensures g.title == h.title && g.platform == h.platform && g.status == h.status
    ensures g.ranking == h.ranking && g.comment == h.comment && g.createdAt == h.createdAt
  {
    SameRowSameCell(g, h, 0);
    SameRowSameCell(g, h, 1);
    SameRowSameCell(g, h, 2);
    SameRowSameCell(g, h, 3);
    SameRowSameCell(g, h, 4);
    SameRowSameCell(g, h, 14);
  }

  /** Two records with the same row agree on their hour numbers and on which are set. */
  lemma ExportRowKeepsHours(g: Game, h: Game)
    requires ExportRow(g) == ExportRow(h)
    ensures g.lastSessionHours.Value? <==> h.lastSessionHours.Value?
    ensures g.lastSessionHours.Value? ==> g.lastSessionHours.n == h.lastSessionHours.n
    ensures g.totalHours.Value? <==> h.totalHours.Value?
    ensures g.totalHours.Value? ==> g.totalHours.n == h.totalHours.n
  {
    SameRowSameCell(g, h, 11);
    SameRowSameCell(g, h, 13);
  }

  /** What `JSON.parse(onExportJson())` gives. */
  datatype ExportSource = Unparsable | NotAList | Records(games: seq<Game>)

  /** What the spreadsheet reader gives for a chosen file. */
  datatype SheetRead = Sheet(rows: seq<seq<ExcelImport.Cell>>) | ReadFailed(error: Option<string>)

  class LocalImportPanel {
    var message: string
    var loading: bool

    constructor()
      ensures message == "" && !loading
    {
      message := "";
      loading := false;
    }

    /** `handleDownloadFile`: the exported text is the file's content. */
    method DownloadFile(json: string) returns (content: string)
      modifies this`message
      ensures content == json && message == FileExported
    {
      content := json;
      message := FileExported;
    }

    /**
     * `handleDownloadExcel`: an empty or non-list export writes nothing; otherwise one row per
     * record is handed to the writer. `writeSucceeds` stands for the workbook writer not throwing.
     */
    method DownloadExcel(source: ExportSource, writeSucceeds: bool) returns (written: Option<seq<seq<ExportCell>>>)
      modifies this`message
      ensures source.Unparsable? ==> written == None && message == ExcelExportFailed
      ensures (source.NotAList? || source == Records([])) ==> written == None && message == NoDataMessage
      ensures source.Records? && source.games != [] ==>
        && written == Some(ExportRows(source.games))
        && message == (if writeSucceeds then CountMessage(ExcelExportedPrefix, |source.games|) else ExcelExportFailed)
    {
      if source.Unparsable? {
        message := ExcelExportFailed;
        return None;
      }
      if source.NotAList? || |source.games| == 0 {
        message := NoDataMessage;
        return None;
      }
      var rows := ExportRows(source.games);
      written := Some(rows);
      if writeSucceeds {
        message := CountMessage(ExcelExportedPrefix, |rows|);
      } else {
        message := ExcelExportFailed;
      }
    }

    /** `handleFileChange`: no file does nothing; otherwise the content goes to `importJson` and its answer sets the message. */
    method FileChange(file: Option<string>, importJson: string -> ImportResult)
      modifies this`message
      ensures file.None? ==> message == old(message)
      ensures file.Some? ==> message == ImportMessage(JsonImportedPrefix, importJson(file.value))
    {
      if file.None? {
        return;
      }
      var result := importJson(file.value);
      message := ImportMessage(JsonImportedPrefix, result);
    }

    /**
     * `handleExcelChange`: no file does nothing; a read sheet is parsed and its inputs are handed
     * over (the returned value) with their count reported; a failed read reports the error's
     * message, or the default when the thrown value is not an Error. Loading ends false either way.
     */
    method ExcelChange(file: Option<SheetRead>, p: ExcelImport.Platform) returns (imported: Option<seq<GameInput>>)
      modifies this`message, this`loading
      ensures file.None? ==> imported == None && message == old(message) && loading == old(loading)
      ensures file.Some? ==> !loading
      ensures file.Some? && file.value.Sheet? ==>
        var rows := file.value.rows;
        && imported == Some(ExcelImport.ImportRows(ExcelImport.DataRows(rows),
                              ExcelImport.LocateColumns(ExcelImport.HeaderRow(rows), p.lower), p))
        && message == CountMessage(ExcelImportedPrefix, |imported.value|)
      ensures file.Some? && file.value.ReadFailed? ==>
        imported == None && message == file.value.error.GetOr(ExcelImportFailed)
    {
      if file.None? {
        return None;
      }
      loading := true;
      message := ExcelImporting;
      match file.value {
        case Sheet(rows) =>
          var parsed := ExcelImport.ParseRows(rows, p);
          imported := Some(parsed);
          message := CountMessage(ExcelImportedPrefix, |parsed|);
        case ReadFailed(error) =>
          imported := None;
          message := error.GetOr(ExcelImportFailed);
      }
      loading := false;
    }
  }
}
