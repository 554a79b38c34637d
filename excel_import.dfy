/**
 * The spreadsheet import (src/utils/excelImport.ts): rows already read from the
 * first sheet become record inputs. The header is the third row; columns are
 * found by a lower-cased prefix of their header; cells are coerced to the
 * record's fields with fixed defaults.
 */
module ExcelImport {
  import opened Wrappers
  import opened JsText
  import opened GameTypes

  /** A date as a JavaScript Date reports it: `getFullYear()`, `getMonth() + 1`, `getDate()`. */
  datatype CalendarDate = CalendarDate(year: int, month: int, day: int)

  /** A cell of a row read with `header: 1, raw: true` and `cellDates` on. */
  datatype Cell = Undefined | Null | Bool(b: bool) | Num(n: Number) | Str(s: string) | DateCell(date: CalendarDate)

  /** The platform conversions the parser relies on, left abstract. */
  datatype Platform = Platform(
    lower: string -> string,                     // toLowerCase
    numberText: Number -> string,                // String(number)
    dateText: CalendarDate -> string,            // String(date)
    parseDate: string -> Option<CalendarDate>,   // new Date(text); None when invalid
    serialDate: Number -> Option<CalendarDate>,  // XLSX.SSF.parse_date_code, then new Date(y, m - 1, d)
    toNumber: Cell -> Number)                    // Number(cell)

  const DefaultStatus: string := "Probado"
  const DefaultRanking: string := "G"

  /** The header is the third row; data starts on the fourth. */
  const HeaderRowIndex: nat := 2
  const FirstDataRow: nat := 3

  const TitleColumn: string := "nombre"
  const PlatformColumn: string := "plataforma"
  const StatusColumn: string := "estado"
  const TierColumn: string := "tier"
  const NotesColumn: string := "nota"
  const ReleaseColumn: string := "fecha de lanzamiento"
  const PublisherColumn: string := "publisher"
  const GenreColumn: string := "g\U{00E9}nero"
  const FirstPlayedColumn: string := "fecha primera"
  const StartColumn: string := "fecha de comienzo"
  const EndColumn: string := "fecha de fin"
  const LastHoursColumn: string := "horas jugadas"
  const YearsColumn: string := "a\U{00F1}o completado"
  const LegacyYearsColumn: string := "a\U{00F1}os pasado"
  const TotalHoursColumn: string := "horas totales"

  /** `String(value ?? '')`: the text of a cell, with null and undefined as the empty text. */
  function CellText(v: Cell, p: Platform): string {
    match v
    case Undefined => ""
    case Null => ""
    case Bool(b) => if b then "true" else "false"
    case Num(n) => p.numberText(n)
    case Str(s) => s
    case DateCell(d) => p.dateText(d)
  }

  /** `trimString`: the trimmed text of a cell; the result never has surrounding space. */
  function TrimString(v: Cell, p: Platform): (r: string)
    ensures (v.Undefined? || v.Null?) ==> r == ""
    ensures v.Str? ==> r == Trim(v.s)
    ensures r == [] || (!IsSpace(r[0]) && !IsSpace(r[|r| - 1]))
  {
    // `String(value ?? '')` is '' for both missing values, and ''.trim() is ''.
    if v.Undefined? || v.Null? then "" else Trim(CellText(v, p))
  }

  /** `normalizeCell`: string cells are trimmed, others kept. */
  function NormalizeCell(v: Cell): Cell {
    if v.Str? then Str(Trim(v.s)) else v
  }

  /** JavaScript truthiness of a cell. */
  predicate IsTruthy(v: Cell) {
    match v
    case Undefined => false
    case Null => false
    case Bool(b) => b
    case Num(n) => !(n.NaN? || n == Finite(0.0))
    case Str(s) => s != ""
    case DateCell(_) => true
  }

  /** `toStatus`: the trimmed text when it is one of the eight statuses, otherwise 'Probado'. */
  function ToStatus(v: Cell, p: Platform): (r: string)
    ensures r in StatusValues
    ensures r == TrimString(v, p) || r == DefaultStatus
  {
    var s := TrimString(v, p);
    if s in StatusValues then s else DefaultStatus
  }

  /** `toRanking`: the trimmed text when it is one of the nine tiers, otherwise 'G'. */
  function ToRanking(v: Cell, p: Platform): (r: string)
    ensures r in RankingOrder
    ensures r == TrimString(v, p) || r == DefaultRanking
  {
    var s := TrimString(v, p);
    if s in RankingOrder then s else DefaultRanking
  }

  /** A status written in a cell, with or without surrounding space, is imported as that status. */
  lemma StatusCellImports(s: GameStatus, pad: string, pad2: string, p: Platform)
    requires AllSpace(pad) && AllSpace(pad2)
    ensures ToStatus(Str(pad + StatusName(s) + pad2), p) == StatusName(s)
  {
    StatusNameBounded(s);
    TrimAround(pad, StatusName(s), pad2);
    StatusNameRoundTrip(s);
  }

  /** A tier written in a cell, with or without surrounding space, is imported as that tier. */
  lemma TierCellImports(r: GameRanking, pad: string, pad2: string, p: Platform)
    requires AllSpace(pad) && AllSpace(pad2)
    ensures ToRanking(Str(pad + RankingName(r) + pad2), p) == RankingName(r)
  {
    RankingNameBounded(r);
    TrimAround(pad, RankingName(r), pad2);
    RankingNameRoundTrip(r);
  }

  /** No cell that is not a status name, once trimmed, keeps its text: it becomes 'Probado'. */
  lemma UnknownStatusDefaults(v: Cell, p: Platform)
    requires forall s: GameStatus :: TrimString(v, p) != StatusName(s)
    ensures ToStatus(v, p) == DefaultStatus
  {
    if TrimString(v, p) in StatusValues {
      GameTypes.StatusSetClosed();
    }
  }

  lemma StatusNameBounded(s: GameStatus)
    ensures StatusName(s) != [] && !IsSpace(StatusName(s)[0]) && !IsSpace(StatusName(s)[|StatusName(s)| - 1])
  {
    match s
    case Platino =>
    case Completado =>
    case Pasado =>
    case Empezado =>
    case SinProbar =>
    case Abandonado =>
    case Probado =>
    case NoAplica =>
  }

  lemma RankingNameBounded(r: GameRanking)
    ensures RankingName(r) != [] && !IsSpace(RankingName(r)[0]) && !IsSpace(RankingName(r)[|RankingName(r)| - 1])
  {
    match r
    case SPlus =>
    case S =>
    case A =>
    case B =>
    case C =>
    case D =>
    case E =>
    case F =>
    case G =>
  }

  /** `formatDate`: dd/mm/yyyy with day and month padded to two digits. */
  function FormatDate(d: CalendarDate): string {
    PadStart2(IntToString(d.day)) + "/" + PadStart2(IntToString(d.month)) + "/" + IntToString(d.year)
  }

  /** Reads a dd/mm/yyyy text back; the partner of FormatDate. */
  function ParseFormattedDate(s: string): Option<CalendarDate> {
    if |s| >= 7 && s[2] == '/' && s[5] == '/' && AllDigits(s[..2]) && AllDigits(s[3..5]) && AllDigits(s[6..]) then
      Some(CalendarDate(ParseDigits(s[6..]), ParseDigits(s[3..5]), ParseDigits(s[..2])))
    else
      None
  }

  lemma TwoDigits(n: nat)
    requires n < 100
    ensures var t := PadStart2(IntToString(n)); |t| == 2 && AllDigits(t) && ParseDigits(t) == n
  {
    ParseNatToString(n);
    if n < 10 {
      ParseLeadingZero(NatToString(n));
    }
  }

  /** A text made of two digits, '/', two digits, '/' and at least one digit reads back as those three numbers. */
  lemma ParseFormattedParts(dd: string, mm: string, yy: string)
    requires |dd| == 2 && |mm| == 2 && |yy| >= 1
    requires AllDigits(dd) && AllDigits(mm) && AllDigits(yy)
    ensures ParseFormattedDate(dd + "/" + mm + "/" + yy) == Some(CalendarDate(ParseDigits(yy), ParseDigits(mm), ParseDigits(dd)))
  {
    var s := dd + "/" + mm + "/" + yy;
    assert s == dd + ("/" + mm + "/" + yy);
    assert s[..2] == dd && s[2] == '/';
    var rest := s[3..];
    assert rest == mm + "/" + yy;
    assert rest[..2] == mm && rest[2] == '/' && rest[3..] == yy;
    assert s[3..5] == mm && s[5] == '/' && s[6..] == yy;
  }

  /** A formatted date of a day and month below 100 and a year of at least 0 reads back as the same date. */
  lemma FormatDateRoundTrip(d: CalendarDate)
    requires 0 <= d.day < 100 && 0 <= d.month < 100 && d.year >= 0
    ensures ParseFormattedDate(FormatDate(d)) == Some(d)
  {
    TwoDigits(d.day);
    TwoDigits(d.month);
    ParseNatToString(d.year);
    ParseFormattedParts(PadStart2(IntToString(d.day)), PadStart2(IntToString(d.month)), NatToString(d.year));
  }

  /** Whether a text is a formatted date. */
  ghost predicate IsFormattedDate(r: string) {
    exists d :: r == FormatDate(d)
  }

  /** `toDateString`: '' for blank or non-date values, a formatted date when one is recognised, else the trimmed text. */
  function ToDateString(v: Cell, p: Platform): (r: string)
    ensures (v.Undefined? || v.Null? || v.Bool?) ==> r == ""
    ensures v.DateCell? ==> r == FormatDate(v.date)
    ensures v.Str? && Trim(v.s) == "" ==> r == ""
    ensures v.Str? && Trim(v.s) != "" && p.parseDate(Trim(v.s)).None? ==> r == Trim(v.s)
    ensures v.Str? && Trim(v.s) != "" && p.parseDate(Trim(v.s)).Some? ==> r == FormatDate(p.parseDate(Trim(v.s)).value)
    ensures v.Num? && p.serialDate(v.n).Some? ==> r == FormatDate(p.serialDate(v.n).value)
    ensures v.Num? && p.serialDate(v.n).None? ==> r == ""
    ensures r == "" || IsFormattedDate(r) || (v.Str? && r == Trim(v.s))
  {
    match v
    case DateCell(d) => FormatDate(d)
    case Num(n) =>
      (match p.serialDate(n)
       case Some(d) => FormatDate(d)
       case None => "")
    case Str(s) =>
      var clean := Trim(s);
      if clean == "" then ""
      else
        (match p.parseDate(clean)
         case Some(d) => FormatDate(d)
         case None => clean)
    case _ => ""
  }

  /** A header cell that is text whose trimmed, lower-cased form starts with `name`. */
  predicate HeaderMatches(c: Cell, name: string, lower: string -> string) {
    c.Str? && StartsWith(lower(Trim(c.s)), name)
  }

  /** `header.findIndex(...)` from position `k` on: the first matching header cell, or -1. */
  function FindHeaderFrom(header: seq<Cell>, name: string, lower: string -> string, k: nat): (i: int)
    requires k <= |header|
    ensures i == -1 || k <= i < |header|
    decreases |header| - k
  {
    if k == |header| then -1
    else if HeaderMatches(header[k], name, lower) then k
    else FindHeaderFrom(header, name, lower, k + 1)
  }

  lemma {:induction false} FindHeaderFromSpec(header: seq<Cell>, name: string, lower: string -> string, k: nat)
    requires k <= |header|
    ensures var i := FindHeaderFrom(header, name, lower, k);
      && (i >= 0 ==> HeaderMatches(header[i], name, lower))
      && forall j :: k <= j < |header| && (i == -1 || j < i) ==> !HeaderMatches(header[j], name, lower)
    decreases |header| - k
  {
    if k < |header| && !HeaderMatches(header[k], name, lower) {
      var i := FindHeaderFrom(header, name, lower, k + 1);
      assert FindHeaderFrom(header, name, lower, k) == i;
      FindHeaderFromSpec(header, name, lower, k + 1);
      forall j | k <= j < |header| && (i == -1 || j < i)
        ensures !HeaderMatches(header[j], name, lower)
      {
        if j > k {
          assert k + 1 <= j;
        }
      }
    }
  }

  /** `indexOf(name)`: the first header cell that is text and starts with `name` once trimmed and lower-cased, or -1. */
  function FindHeader(header: seq<Cell>, name: string, lower: string -> string): (i: int)
    ensures -1 <= i < |header|
  {
    FindHeaderFrom(header, name, lower, 0)
  }

  /** The column found is the first matching one; -1 means no header cell matches. */
  lemma FindHeaderSpec(header: seq<Cell>, name: string, lower: string -> string)
    ensures var i := FindHeader(header, name, lower);
      && (i >= 0 ==> HeaderMatches(header[i], name, lower))
      && forall j :: 0 <= j < |header| && (i == -1 || j < i) ==> !HeaderMatches(header[j], name, lower)
  {
    FindHeaderFromSpec(header, name, lower, 0);
  }

  /** The column of each field, -1 when missing. */
  datatype Columns = Columns(
    title: int, platform: int, status: int, tier: int, notes: int, release: int,
    publisher: int, genre: int, firstPlayed: int, start: int, end: int, lastHours: int,
    years: int, totalHours: int)

  /** The column lookup; the year column prefers the current header name over the legacy one. */
  function LocateColumns(header: seq<Cell>, lower: string -> string): (c: Columns)
    ensures -1 <= c.title < |header| && -1 <= c.years < |header|
  {
    var years := if FindHeader(header, YearsColumn, lower) >= 0 then FindHeader(header, YearsColumn, lower)
                 else FindHeader(header, LegacyYearsColumn, lower);
    Columns(
      FindHeader(header, TitleColumn, lower), FindHeader(header, PlatformColumn, lower),
      FindHeader(header, StatusColumn, lower), FindHeader(header, TierColumn, lower),
      FindHeader(header, NotesColumn, lower), FindHeader(header, ReleaseColumn, lower),
      FindHeader(header, PublisherColumn, lower), FindHeader(header, GenreColumn, lower),
      FindHeader(header, FirstPlayedColumn, lower), FindHeader(header, StartColumn, lower),
      FindHeader(header, EndColumn, lower), FindHeader(header, LastHoursColumn, lower),
      years, FindHeader(header, TotalHoursColumn, lower))
  }

  /** The title column is found exactly when some header cell names it. */
  lemma TitleColumnFound(header: seq<Cell>, lower: string -> string)
    ensures LocateColumns(header, lower).title >= 0 <==>
      exists k :: 0 <= k < |header| && HeaderMatches(header[k], TitleColumn, lower)
  {
    FindHeaderSpec(header, TitleColumn, lower);
  }

  /** The year column is the current header name when present, else the legacy one. */
  lemma YearsColumnFallback(header: seq<Cell>, lower: string -> string)
    ensures var c := LocateColumns(header, lower);
      && ((exists k :: 0 <= k < |header| && HeaderMatches(header[k], YearsColumn, lower)) ==>
            && c.years == FindHeader(header, YearsColumn, lower)
            && 0 <= c.years && HeaderMatches(header[c.years], YearsColumn, lower)
            && forall j :: 0 <= j < c.years ==> !HeaderMatches(header[j], YearsColumn, lower))
      && ((forall k :: 0 <= k < |header| ==> !HeaderMatches(header[k], YearsColumn, lower)) ==>
            c.years == FindHeader(header, LegacyYearsColumn, lower))
  {
    FindHeaderSpec(header, YearsColumn, lower);
  }

  /** `rows[2] || []`. */
  function HeaderRow(rows: seq<seq<Cell>>): seq<Cell> {
    if |rows| > HeaderRowIndex then rows[HeaderRowIndex] else []
  }

  /** `rows.slice(3)`. */
  function DataRows(rows: seq<seq<Cell>>): seq<seq<Cell>> {
    if |rows| > FirstDataRow then rows[FirstDataRow..] else []
  }

  /** `normalizedRow[i]`: undefined outside the row. */
  function CellAt(row: seq<Cell>, i: int): Cell {
    if 0 <= i < |row| then NormalizeCell(row[i]) else Undefined
  }

  /** The empty text is neither a status name nor a tier name. */
  lemma EmptyIsNoName()
    ensures "" !in StatusValues && "" !in RankingOrder
  {
    if "" in StatusValues {
      var s := ParseStatus("").value;
      StatusNameBounded(s);
    }
    if "" in RankingOrder {
      var r := ParseRanking("").value;
      RankingNameBounded(r);
    }
  }

  /** A text field: '' when the column is missing. */
  function TextField(row: seq<Cell>, i: int, p: Platform): (r: string)
    ensures i < 0 ==> r == ""
    ensures i >= 0 ==> r == TrimString(CellAt(row, i), p)
  {
    if i >= 0 then TrimString(CellAt(row, i), p) else ""
  }

  /** The status field: 'Probado' when the column is missing. */
  function StatusField(row: seq<Cell>, i: int, p: Platform): (r: string)
    ensures r in StatusValues
    ensures i < 0 ==> r == DefaultStatus
  {
    EmptyIsNoName();
    ToStatus(if i >= 0 then CellAt(row, i) else Str(""), p)
  }

  /** The tier field: 'G' when the column is missing. */
  function TierField(row: seq<Cell>, i: int, p: Platform): (r: string)
    ensures r in RankingOrder
    ensures i < 0 ==> r == DefaultRanking
  {
    EmptyIsNoName();
    ToRanking(if i >= 0 then CellAt(row, i) else Str(""), p)
  }

  /** A date field: '' when the column is missing. */
  function DateField(row: seq<Cell>, i: int, p: Platform): (r: string)
    ensures i < 0 ==> r == ""
  {
    ToDateString(if i >= 0 then CellAt(row, i) else Str(""), p)
  }

  /** An hours field: null when the column is missing or the cell is undefined or null, else `Number(cell)`. */
  function HoursField(row: seq<Cell>, i: int, p: Platform): (h: Hours)
    ensures !h.Absent?
    ensures h == Hours.Null <==> (i < 0 || CellAt(row, i).Undefined? || CellAt(row, i).Null?)
    ensures h.Value? ==> h.n == p.toNumber(CellAt(row, i))
  {
    if i >= 0 && !CellAt(row, i).Undefined? && !CellAt(row, i).Null? then Value(p.toNumber(CellAt(row, i))) else Hours.Null
  }

  /** The record input built from a kept row: every field is present and status and tier are valid names; each field helper gives its default for a missing column. */
  function RowToInput(row: seq<Cell>, c: Columns, p: Platform): (g: GameInput)
    ensures Complete(g) && g.status in StatusValues && g.ranking in RankingOrder
    ensures g.title == TrimString(CellAt(row, c.title), p)
  {
    GameInput(
      TrimString(CellAt(row, c.title), p),
      TextField(row, c.platform, p),
      StatusField(row, c.status, p),
      TierField(row, c.tier, p),
      TextField(row, c.notes, p),
      Some(DateField(row, c.release, p)),
      Some(TextField(row, c.publisher, p)),
      Some(TextField(row, c.genre, p)),
      Some(DateField(row, c.firstPlayed, p)),
      Some(DateField(row, c.start, p)),
      Some(DateField(row, c.end, p)),
      HoursField(row, c.lastHours, p),
      Some(TextField(row, c.years, p)),
      HoursField(row, c.totalHours, p))
  }

  /** One pass of the row loop: empty rows and rows whose title cell is falsy are skipped. */
  function ImportRow(row: seq<Cell>, c: Columns, p: Platform): seq<GameInput> {
    if |row| == 0 || !IsTruthy(CellAt(row, c.title)) then [] else [RowToInput(row, c, p)]
  }

  /** The inputs the loop collects from the data rows, in row order. */
  function ImportRows(rows: seq<seq<Cell>>, c: Columns, p: Platform): (r: seq<GameInput>)
    ensures |r| <= |rows|
  {
    if rows == [] then [] else ImportRow(rows[0], c, p) + ImportRows(rows[1..], c, p)
  }

  /** Without a title column nothing is imported. */
  lemma {:induction false} NoTitleColumnNoImports(rows: seq<seq<Cell>>, c: Columns, p: Platform)
    requires c.title < 0
    ensures ImportRows(rows, c, p) == []
  {
    if rows != [] {
      NoTitleColumnNoImports(rows[1..], c, p);
    }
  }

  /** Every imported input is complete, with a valid status and tier. */
  lemma {:induction false} ImportedInputsValid(rows: seq<seq<Cell>>, c: Columns, p: Platform)
    ensures forall g | g in ImportRows(rows, c, p) :: Complete(g) && g.status in StatusValues && g.ranking in RankingOrder
  {
    if rows != [] {
      ImportedInputsValid(rows[1..], c, p);
    }
  }

  lemma {:induction false} ImportRowsSnoc(rows: seq<seq<Cell>>, row: seq<Cell>, c: Columns, p: Platform)
    ensures ImportRows(rows + [row], c, p) == ImportRows(rows, c, p) + ImportRow(row, c, p)
  {
    if rows != [] {
      assert (rows + [row])[1..] == rows[1..] + [row];
      ImportRowsSnoc(rows[1..], row, c, p);
    }
  }

  /** One more row of the prefix adds exactly that row's import. */
  lemma ImportRowsStep(rows: seq<seq<Cell>>, k: nat, c: Columns, p: Platform)
    requires k < |rows|
    ensures ImportRows(rows[..k + 1], c, p) == ImportRows(rows[..k], c, p) + ImportRow(rows[k], c, p)
  {
    assert rows[..k + 1] == rows[..k] + [rows[k]];
    ImportRowsSnoc(rows[..k], rows[k], c, p);
  }

  /** The row loop of `parseExcelFile`: skips empty rows and rows without a title, collects the rest in order. */
  method CollectRows(dataRows: seq<seq<Cell>>, c: Columns, p: Platform) returns (games: seq<GameInput>)
    ensures games == ImportRows(dataRows, c, p)
  {
    games := [];
    for k := 0 to |dataRows|
      invariant games == ImportRows(dataRows[..k], c, p)
    {
      var row := dataRows[k];
      ImportRowsStep(dataRows, k, c, p);
      if |row| == 0 {
        continue;
      }
      var title := CellAt(row, c.title);
      if !IsTruthy(title) {
        continue;
      }
      games := games + [RowToInput(row, c, p)];
    }
    assert dataRows[..|dataRows|] == dataRows;
  }

  /** `parseExcelFile` once the first sheet has been read into rows: the header lookup, then the row loop. */
  method ParseRows(rows: seq<seq<Cell>>, p: Platform) returns (games: seq<GameInput>)
    ensures games == ImportRows(DataRows(rows), LocateColumns(HeaderRow(rows), p.lower), p)
  {
    var header := if |rows| > HeaderRowIndex then rows[HeaderRowIndex] else [];
    var c := LocateColumns(header, p.lower);
    var dataRows := if |rows| > FirstDataRow then rows[FirstDataRow..] else [];
    games := CollectRows(dataRows, c, p);
  }
}
