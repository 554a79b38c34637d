# Game backlog tracker — a verified model

This project models the logic of a small client-side tracker of a personal video-game backlog.
It covers:

- the record store, which loads records from a browser storage slot, adds, updates and deletes
  them, and mirrors the list back after every change;
- the list view, which searches, filters by status and tier, sorts stably by tier or by title,
  and shows pages of nine;
- the record form, with its defaults, edit state, per-field updates and submit guard;
- the spreadsheet import, which reads the header from the third row, finds columns by header
  prefix, coerces cells with fixed defaults, and skips empty or untitled rows;
- the spreadsheet export rows and the import/export status messages;
- the Google Drive backup panel, with its bounded status log, session guard, cached backup-file
  id, upload and download actions, and a sign-in hint shown once per signed-out period.

Each file is one module:

| file | module | models |
|---|---|---|
| `wrappers.dfy` | `Wrappers` | `Option` |
| `js_text.dfy` | `JsText` | `String.prototype.trim`, `startsWith`/`includes`, `indexOf`, decimal digits, `padStart(2, '0')` |
| `game_types.dfy` | `GameTypes` | `src/types/Game.ts`: the status and tier enumerations, the record, the input, `{ ...game, ...input }` |
| `game_storage.dfy` | `GameStorage` | `src/hooks/useGameStorage.ts` |
| `sorting.dfy` | `Sorting` | `Array.prototype.sort` as a stable insertion sort over a total preorder |
| `app_view.dfy` | `AppView` | the filtering, sorting, paging and handlers of `src/App.tsx` |
| `excel_import.dfy` | `ExcelImport` | `src/utils/excelImport.ts` |
| `game_form.dfy` | `GameFormModel` | `src/components/GameForm.tsx` |
| `local_import_panel.dfy` | `LocalImport` | `src/components/LocalImportPanel.tsx` |
| `backup_panel.dfy` | `DriveBackup` | the Drive logic of `src/components/BackupPanel.tsx` |

State that the source updates in place becomes a class: `GameStore`, `AppState`, `GameForm`,
`LocalImportPanel` and `BackupPanel`. Their methods state the whole new state in terms of the
old one. The pure parts are functions, with lemmas for the properties that relate several calls.
The spreadsheet row loop is a `for` loop with `continue`, proved against `ImportRows`.

Everything the program takes from the browser or from libraries is a parameter. This covers the
storage slot contents, the parsed sheet rows, lower-casing, the locale collation, `Number()`,
date parsing, the current time, fresh ids, Drive responses and the sign-in state.

Where the code and its design description disagree, the model follows the code. The design
describes status and tier as always valid in memory. `loadGames` only defaults a missing ranking
to 'F'; it never checks a stored status or tier. So `Game.status` and `Game.ranking` are
strings, and validity is proved only where the code enforces it: spreadsheet import and the
form defaults.

## Model

| member | source | states |
|---|---|---|
| JsText.Trim | src/utils/excelImport.ts:19 | the trimmed text is empty exactly when the text is all whitespace, and otherwise starts and ends with a non-space character |
| JsText.TrimIdempotent | src/App.tsx:70 | trimming an already trimmed search text changes nothing |
| JsText.TrimAround | src/utils/excelImport.ts:19 | a text with non-space ends, padded by whitespace on both sides, trims back to itself |
| JsText.IndexOf | src/App.tsx:45 | `indexOf` is -1 exactly when the value is absent, else the position of its first occurrence |
| JsText.ParseNatToString | src/components/LocalImportPanel.tsx:66 | the decimal text of a count reads back as that count |
| JsText.PadStart2 | src/utils/excelImport.ts:60 | `padStart(2, '0')` gives at least two characters, ends with the text and fills the front with '0' |
| GameTypes.Tier | src/App.tsx:16 | a tier's position in the tier order names that tier |
| GameTypes.ParseStatus | src/types/Game.ts:1-9 | a text names a status exactly when it is one of the eight status names, and then names it back |
| GameTypes.ParseRanking | src/types/Game.ts:11 | a text names a tier exactly when it is one of the nine tier names, and then names it back |
| GameTypes.StatusNameRoundTrip | src/types/Game.ts:1-9 | every status's name is listed and reads back as that status |
| GameTypes.StatusSetClosed | src/types/Game.ts:1-9 | the statuses are a closed set of eight, one distinct name each, and every listed name is a status |
| GameTypes.RankingNameRoundTrip | src/types/Game.ts:11 | every tier's name is listed and reads back as that tier |
| GameTypes.RankingOrderEntry | src/App.tsx:16 | the i-th entry of the tier order is the i-th tier, best first |
| GameTypes.TierIsIndex | src/App.tsx:16 | `rankingOrder.indexOf(name)` is the tier's position |
| GameTypes.RankingSetClosed | src/types/Game.ts:11 | the tiers are a closed set of nine distinct names, and the tier order is S+ to G |
| GameTypes.NewGame | src/hooks/useGameStorage.ts:43-47 | a new record has the fresh id and timestamp, and its other fields are the input's |
| GameTypes.Merge | src/hooks/useGameStorage.ts:53 | an update keeps id and createdAt, takes the input's required fields, and takes each optional field from the input when the input has it, otherwise keeps the record's |
| GameTypes.MergeComplete | src/hooks/useGameStorage.ts:53 | merging an input with every field present replaces all fields except id and createdAt |
| GameTypes.MergeIdempotent | src/hooks/useGameStorage.ts:53 | merging twice is merging once, and merging a record's own fields changes nothing |
| GameStorage.Restore | src/hooks/useGameStorage.ts:26-29 | a loaded record is the stored entry with a null or missing ranking set to 'F'; serialising it again gives the entry back, with any NaN hours as null |
| GameStorage.RestoreSerialize | src/hooks/useGameStorage.ts:26-29 | restoring a serialised record gives the record back, except that NaN hours come back as null; a record without NaN hours comes back unchanged |
| GameStorage.JsonHours | src/hooks/useGameStorage.ts:39 | `JSON.stringify` writes NaN hours as null and keeps every other hours value |
| GameStorage.LoadItems | src/hooks/useGameStorage.ts:17-29 | the loaded list holds exactly the restored entries that are objects with id, title and createdAt |
| GameStorage.LoadGames | src/hooks/useGameStorage.ts:10-33 | a missing, unparseable or non-array slot loads as [], an array loads its kept entries |
| GameStorage.LoadItemsConcat | src/hooks/useGameStorage.ts:17-29 | loading filters entry by entry and keeps their order |
| GameStorage.LoadSingle | src/hooks/useGameStorage.ts:18-28 | an entry survives exactly when it passes the filter, with its ranking defaulted and its status untouched |
| GameStorage.StoreItems | src/hooks/useGameStorage.ts:39 | the persisted array has one serialised record per list element, in order |
| GameStorage.LoadPersist | src/hooks/useGameStorage.ts:10-40 | reloading what the persist effect wrote gives back the list, record by record, with NaN hours turned to null |
| GameStorage.ReloadAll | src/hooks/useGameStorage.ts:10-40 | the reloaded list has the same length, and each record is the original after the JSON round trip |
| GameStorage.LoadPersistNaNFree | src/hooks/useGameStorage.ts:10-40 | a list without NaN hours reloads exactly as it was |
| GameStorage.NaNHoursReloadNull | src/hooks/useGameStorage.ts:39 | a record's NaN hours reload as null |
| GameStorage.UpdateAll | src/hooks/useGameStorage.ts:52-54 | records with the id get the input merged in, all others are unchanged, and ids and timestamps are kept |
| GameStorage.UpdateOne | src/hooks/useGameStorage.ts:53 | one record after the update keeps its id and its creation timestamp |
| GameStorage.RemoveId | src/hooks/useGameStorage.ts:56-58 | a record remains exactly when it was there and its id differs |
| GameStorage.UnknownIdNoOp | src/hooks/useGameStorage.ts:52-58 | updating or deleting an id that no record has changes nothing |
| GameStorage.RemoveIdConcat | src/hooks/useGameStorage.ts:56-58 | deleting keeps the order of the remaining records |
| GameStorage.UpdateRemoveIdempotent | src/hooks/useGameStorage.ts:52-58 | updating or deleting the same id twice is the same as once |
| GameStorage.AddKeepsDistinct | src/hooks/useGameStorage.ts:42-50 | adding with a fresh id keeps ids distinct |
| GameStorage.UpdateKeepsDistinct | src/hooks/useGameStorage.ts:52-54 | updating keeps ids distinct |
| GameStorage.RemoveKeepsDistinct | src/hooks/useGameStorage.ts:56-58 | deleting keeps ids distinct and leaves no record with the deleted id |
| GameStorage.GameStore.constructor | src/hooks/useGameStorage.ts:36-40 | the store starts with the loaded list, and the slot mirrors it |
| GameStorage.GameStore.SaveToStorage | src/hooks/useGameStorage.ts:38-40 | the slot holds the serialisation of the whole current list |
| GameStorage.GameStore.AddGame | src/hooks/useGameStorage.ts:42-50 | the new record is appended, and the slot mirrors the list |
| GameStorage.GameStore.UpdateGame | src/hooks/useGameStorage.ts:52-54 | the list becomes the update of the old list, and the slot mirrors it |
| GameStorage.GameStore.DeleteGame | src/hooks/useGameStorage.ts:56-58 | the list becomes the old list without the id, and the slot mirrors it |
| Sorting.Insert | src/App.tsx:45 | inserting adds exactly one element: the result is a permutation of the list plus it |
| Sorting.Sort | src/App.tsx:44-48 | the sorted copy is a permutation of the list |
| Sorting.InsertSorted | src/App.tsx:44-48 | inserting into a sorted list keeps it sorted |
| Sorting.SortSorted | src/App.tsx:44-48 | the sort orders its result for any consistent comparator |
| Sorting.SortTwo | src/App.tsx:44-48 | two elements stay in place when the first is ordered before the second, and are swapped otherwise |
| Sorting.InsertPeers | src/App.tsx:44-48 | inserting an element into a sorted list puts it ahead of the elements equal to it, which keep their order |
| Sorting.SortStable | src/App.tsx:44-48 | the sort is stable: elements that compare equal keep their list order |
| AppView.Keep | src/App.tsx:36-42 | a filter keeps exactly the passing games in order, and returns the list itself when all pass |
| AppView.KeepBase | src/App.tsx:36-42 | filtering the empty list gives []; filtering one game gives it exactly when it passes |
| AppView.KeepConcat | src/App.tsx:36-42 | filtering a concatenation is the concatenation of the filtered parts, so order and repeats are kept |
| AppView.RankIndex | src/App.tsx:45 | a game's sort key is its tier position, or -1 exactly when its tier is not one of the nine |
| AppView.FilteredIsSelection | src/App.tsx:35-49 | the view is a permutation of the games matching the search, status and tier filters |
| AppView.NoFilterKeepsAll | src/App.tsx:36-42 | an empty search with both filters at "todos" keeps the whole list |
| AppView.RankLeTotalPreorder | src/App.tsx:45 | the tier comparator is a consistent total preorder |
| AppView.ByTitleTotalPreorder | src/App.tsx:48 | the title comparator is a total preorder whenever the collation is |
| AppView.RankingViewOrdered | src/App.tsx:44-46 | sorting by "ranking" orders by tier and keeps equal tiers in list order |
| AppView.TitleViewOrdered | src/App.tsx:48 | any other sort value orders by title and keeps equal titles in list order |
| AppView.RankingSortPair | src/App.tsx:45 | of two games, the better tier comes first whatever their list order |
| AppView.RankingSortExample | src/App.tsx:45 | a game ranked B listed before one ranked S comes after it |
| AppView.PageCount | src/App.tsx:51 | the page count is the fewest pages of nine holding the view, and at least 1 |
| AppView.PagedGames | src/App.tsx:63-66 | a page holds at most nine games; it is non-empty up to the page count and empty beyond it |
| AppView.PageSlice | src/App.tsx:63-66 | page k is the stretch of the view from 9(k - 1) to 9k, both cut at the view's end |
| AppView.PagesUpToPrefix | src/App.tsx:63-66 | the first k pages laid end to end are the first 9k games |
| AppView.PagesPartition | src/App.tsx:51-66 | pages 1 to the page count are together exactly the view, in order |
| AppView.PageOfView | src/App.tsx:63-66 | every game on a page is a game of the view |
| AppView.PageOfSelection | src/App.tsx:36-66 | every game on a page is a game of the list that passes the search, status and tier filters |
| AppView.AppState.Shown | src/App.tsx:63-66 | the games on screen are at most nine, each a stored game that passes the current search, status and tier filters |
| AppView.AppState.constructor | src/App.tsx:26-32 | the screen starts on page 1 with empty search, "todos" filters, title sort and no edit |
| AppView.AppState.SetStatusFilter | src/App.tsx:59-61 | a changed status filter returns to page 1 |
| AppView.AppState.SetRankingFilter | src/App.tsx:59-61 | a changed tier filter returns to page 1 |
| AppView.AppState.SetSortBy | src/App.tsx:59-61 | a changed sort option returns to page 1 |
| AppView.AppState.SetSearchInput | src/App.tsx:32 | typing only changes the search input |
| AppView.AppState.SubmitSearch | src/App.tsx:68-72 | submitting makes the trimmed input the search and returns to page 1 |
| AppView.AppState.SetPage | src/App.tsx:30 | a page button sets the page |
| AppView.AppState.ClampPage | src/App.tsx:53-57 | a page beyond the page count is lowered to it, any other page is kept |
| AppView.AppState.HandleSubmit | src/App.tsx:74-82 | a non-empty existing id updates that record and ends editing, otherwise the input is added |
| AppView.AppState.HandleEdit | src/App.tsx:84-86 | editing remembers the record |
| AppView.AppState.HandleCancelEdit | src/App.tsx:88 | cancelling clears the edited record |
| AppView.AppState.HandleDeleteAll | src/App.tsx:90-97 | nothing happens on an empty list; a confirmed clear returns to page 1; a declined one changes nothing |
| ExcelImport.TrimString | src/utils/excelImport.ts:19 | null and undefined become '', text is trimmed, and no result has surrounding space |
| ExcelImport.ToStatus | src/utils/excelImport.ts:26-29 | the imported status is always one of the eight, either the trimmed cell text or 'Probado' |
| ExcelImport.ToRanking | src/utils/excelImport.ts:31-34 | the imported tier is always one of the nine, either the trimmed cell text or 'G' |
| ExcelImport.StatusCellImports | src/utils/excelImport.ts:26-29 | a status name in a cell, with any surrounding whitespace, imports as that status |
| ExcelImport.TierCellImports | src/utils/excelImport.ts:31-34 | a tier name in a cell, with any surrounding whitespace, imports as that tier |
| ExcelImport.UnknownStatusDefaults | src/utils/excelImport.ts:26-29 | a cell that is not a status name once trimmed imports as 'Probado' |
| ExcelImport.FormatDateRoundTrip | src/utils/excelImport.ts:59-60 | a dd/mm/yyyy date reads back as the same day, month and year |
| ExcelImport.ToDateString | src/utils/excelImport.ts:36-57 | blank and boolean cells give ''; a date cell, a serial number the date code reads and text `new Date` parses are the formatted date; any other number gives ''; other text is kept trimmed |
| ExcelImport.FindHeaderFrom | src/utils/excelImport.ts:70-71 | the search from a position gives -1 or a column at or after it |
| ExcelImport.FindHeaderFromSpec | src/utils/excelImport.ts:70-71 | the column found matches, and no earlier column from that position does |
| ExcelImport.FindHeader | src/utils/excelImport.ts:70-71 | a header lookup gives -1 or a column of the header row |
| ExcelImport.FindHeaderSpec | src/utils/excelImport.ts:70-71 | the column found is the first whose trimmed, lower-cased text starts with the name; -1 means none does |
| ExcelImport.LocateColumns | src/utils/excelImport.ts:73-88 | the title and year columns are -1 or columns of the header row |
| ExcelImport.TitleColumnFound | src/utils/excelImport.ts:73 | the title column is found exactly when some header cell starts with "nombre" |
| ExcelImport.YearsColumnFallback | src/utils/excelImport.ts:86-87 | the year column is the first "año completado" header if there is one, else the legacy "años pasado" lookup |
| ExcelImport.EmptyIsNoName | src/utils/excelImport.ts:102-103 | the empty text is neither a status nor a tier, so a missing column falls back to the default |
| ExcelImport.TextField | src/utils/excelImport.ts:101-107 | a text field is '' without its column, else the trimmed cell |
| ExcelImport.StatusField | src/utils/excelImport.ts:102 | the status is a valid name, and 'Probado' without its column |
| ExcelImport.TierField | src/utils/excelImport.ts:103 | the tier is a valid name, and 'G' without its column |
| ExcelImport.DateField | src/utils/excelImport.ts:105-110 | a date field is '' without its column |
| ExcelImport.HoursField | src/utils/excelImport.ts:111-119 | hours are null exactly when the column is missing or the cell is undefined or null, else `Number(cell)` |
| ExcelImport.RowToInput | src/utils/excelImport.ts:99-120 | an imported input has every field present, a valid status and tier, and the trimmed title cell as title |
| ExcelImport.ImportRows | src/utils/excelImport.ts:90-125 | the loop never yields more inputs than data rows |
| ExcelImport.NoTitleColumnNoImports | src/utils/excelImport.ts:96-97 | without a title column no row is imported |
| ExcelImport.ImportedInputsValid | src/utils/excelImport.ts:99-122 | every imported input is complete, with a valid status and tier |
| ExcelImport.ImportRowsSnoc | src/utils/excelImport.ts:93-123 | one more data row adds exactly that row's import at the end |
| ExcelImport.ImportRowsStep | src/utils/excelImport.ts:93-123 | each pass of the loop adds exactly the current row's import |
| ExcelImport.CollectRows | src/utils/excelImport.ts:91-125 | the loop skips empty and untitled rows and collects the rest in row order |
| ExcelImport.ParseRows | src/utils/excelImport.ts:69-125 | the header comes from the third row, data from the fourth on, and the result is the loop's collection |
| GameFormModel.KeysDetermineState | src/components/GameForm.tsx:54-69 | a form state is determined by the values of its text and number keys |
| GameFormModel.WithText | src/components/GameForm.tsx:54-59 | a text change stores the value verbatim under its key and changes no other key |
| GameFormModel.WithHours | src/components/GameForm.tsx:61-69 | a number change stores under its key only, and changes no other key |
| GameFormModel.NumberInput | src/components/GameForm.tsx:67 | a number field is null exactly for '', else `Number(value)` |
| GameFormModel.InitialFormState | src/components/GameForm.tsx:30-49 | a new form has the defaults; an edit form copies the fields, with absent text as '' and absent hours as null |
| GameFormModel.DefaultFormValid | src/components/GameForm.tsx:12-27 | the defaults have an empty title, 'Empezado', 'G' and every field present |
| GameFormModel.SaveUntouchedEdit | src/components/GameForm.tsx:30-47 | saving an untouched edit form keeps id and timestamp, and a record with every field present comes back unchanged |
| GameFormModel.GameForm.constructor | src/components/GameForm.tsx:30-52 | the form starts from its initial state, with no error and the advanced fields hidden |
| GameFormModel.GameForm.HandleChange | src/components/GameForm.tsx:54-59 | the state becomes the old state with that text key replaced |
| GameFormModel.GameForm.HandleNumberChange | src/components/GameForm.tsx:61-69 | the state becomes the old state with that hours key replaced |
| GameFormModel.GameForm.HandleSubmit | src/components/GameForm.tsx:71-81 | a blank title only sets the error; otherwise the error clears, the untrimmed state and edited id are submitted once, and the form resets |
| GameFormModel.GameForm.ToggleAdvanced | src/components/GameForm.tsx:141 | the toggle flips the advanced flag |
| LocalImport.CountMessageInjective | src/components/LocalImportPanel.tsx:66 | the number in a "(n registros)" message determines the count |
| LocalImport.ImportMessage | src/components/LocalImportPanel.tsx:83-87 | an import reports the count (0 when missing) on success, else the result's non-empty message or 'Error al importar'; the message is never empty |
| LocalImport.OptionalText | src/components/LocalImportPanel.tsx:50-57 | an absent optional text exports as '', a present one verbatim |
| LocalImport.HoursCell | src/components/LocalImportPanel.tsx:56-58 | hours export as their number exactly when set, else as '' |
| LocalImport.CellsFor | src/components/LocalImportPanel.tsx:44-60 | a record gives one cell per column, in column order |
| LocalImport.ExportRows | src/components/LocalImportPanel.tsx:44 | the export has one row per record, in list order |
| LocalImport.SameRowSameCell | src/components/LocalImportPanel.tsx:44-60 | records with the same row have the same cell in every column |
| LocalImport.ExportRowTexts | src/components/LocalImportPanel.tsx:45-59 | Nombre, Plataforma, Estado, Tier, Notas and "Creado el" hold title, platform, status, ranking, comment and createdAt verbatim |
| LocalImport.ExportRowDates | src/components/LocalImportPanel.tsx:50-55 | the four date columns hold the record's dates, or '' when absent |
| LocalImport.ExportRowDetails | src/components/LocalImportPanel.tsx:51-57 | Publisher, "Género(s)" and "Año completado" hold the record's values, or '' when absent |
| LocalImport.ExportRowHours | src/components/LocalImportPanel.tsx:56-58 | the hour columns hold the number when set, and '' when null or absent |
| LocalImport.ExportRowKeepsFields | src/components/LocalImportPanel.tsx:45-49 | two records with the same row have the same title, platform, status, ranking, comment and createdAt |
| LocalImport.ExportRowKeepsHours | src/components/LocalImportPanel.tsx:56-58 | two records with the same row agree on which hours are set and on their numbers |
| LocalImport.LocalImportPanel.constructor | src/components/LocalImportPanel.tsx:15-16 | the panel starts with no message and not loading |
| LocalImport.LocalImportPanel.DownloadFile | src/components/LocalImportPanel.tsx:18-28 | the downloaded file holds the exported text, and the message confirms it |
| LocalImport.LocalImportPanel.DownloadExcel | src/components/LocalImportPanel.tsx:34-70 | a non-list or empty export writes nothing with 'No hay datos…'; otherwise one row per record is written and the count reported, and a failure gives 'No se pudo exportar a Excel' |
| LocalImport.LocalImportPanel.FileChange | src/components/LocalImportPanel.tsx:76-91 | no file changes nothing; otherwise the file's content is imported and the import message shown |
| LocalImport.LocalImportPanel.ExcelChange | src/components/LocalImportPanel.tsx:93-110 | the parsed inputs are handed over and counted; a failure shows the error's message or the default; loading ends false |
| DriveBackup.EntryParts | src/components/BackupPanel.tsx:47 | a log entry is the bracketed time followed by the unchanged message |
| DriveBackup.Entries | src/components/BackupPanel.tsx:47 | each message logged becomes one entry, in order |
| DriveBackup.KeepLast | src/components/BackupPanel.tsx:48 | `slice(-n)` keeps the last n elements, or all of them when there are fewer or when n is 0 |
| DriveBackup.AppendLog | src/components/BackupPanel.tsx:48 | the log never exceeds 80 entries |
| DriveBackup.KeepLastCompose | src/components/BackupPanel.tsx:48 | trimming after every push is trimming once after all pushes |
| DriveBackup.AppendLogTwice | src/components/BackupPanel.tsx:48 | two pushes in sequence are one push of both entries |
| DriveBackup.PushLog | src/components/BackupPanel.tsx:48 | logging one more message during a handler extends the handler's entries by exactly that message |
| DriveBackup.PushDropsOldest | src/components/BackupPanel.tsx:48 | a push appends the entry and drops the oldest only when the log is full |
| DriveBackup.AppendNothing | src/components/BackupPanel.tsx:48 | a run that logs nothing leaves a log of at most 80 entries unchanged |
| DriveBackup.SessionToken | src/components/BackupPanel.tsx:69-75 | the token is non-empty exactly when there is a user and a token |
| DriveBackup.NoSessionNoRemote | src/components/BackupPanel.tsx:69-75 | without a session the sign-in message is the only effect: no remote call and no file id |
| DriveBackup.CachedFileIdReused | src/components/BackupPanel.tsx:137 | a cached file id is used without any remote lookup |
| DriveBackup.EnsureFileOnce | src/components/BackupPanel.tsx:137-138 | without a cached id exactly one file lookup is made, and a failed one stops the action |
| DriveBackup.HintLog | src/components/BackupPanel.tsx:185-193 | one run of the hint effect adds one hint entry when signed out, settled and not yet shown, and leaves the log alone otherwise |
| DriveBackup.HintOncePerSignedOutPeriod | src/components/BackupPanel.tsx:185-193 | while signed out the hint is logged at most once, and not at all once shown |
| DriveBackup.HintRearmed | src/components/BackupPanel.tsx:185-193 | a session re-arms the hint, so the next settled sign-out logs it again |
| DriveBackup.BackupPanel.constructor | src/components/BackupPanel.tsx:40-44 | the panel starts with an empty log, no file id, not loading and the hint armed |
| DriveBackup.BackupPanel.PushStatus | src/components/BackupPanel.tsx:46-49 | the log becomes the old log plus the stamped entry, trimmed to the last 80 |
| DriveBackup.BackupPanel.EnsureDriveSession | src/components/BackupPanel.tsx:69-75 | signed in gives the token and logs nothing; otherwise '' after the sign-in message |
| DriveBackup.BackupPanel.EnsureFile | src/components/BackupPanel.tsx:51-67 | one lookup is made while loading; on success the id is cached and returned, on failure '' is returned with the error or default message; loading ends false |
| DriveBackup.BackupPanel.ResolveFile | src/components/BackupPanel.tsx:134-138 | the session guard, then the cached id or one lookup, with the logs and calls this takes |
| DriveBackup.BackupPanel.UploadDrive | src/components/BackupPanel.tsx:133-151 | with a session and a file id, exactly the exported text is sent to that file and the outcome logged; otherwise it stops first |
| DriveBackup.BackupPanel.SendUpload | src/components/BackupPanel.tsx:140-150 | the upload goes out while loading and logs success or the error or default message |
| DriveBackup.BackupPanel.DownloadDrive | src/components/BackupPanel.tsx:153-177 | with a session and a file id, the fetched content is imported and the import message logged; otherwise it stops first |
| DriveBackup.BackupPanel.SendDownload | src/components/BackupPanel.tsx:160-176 | the download goes out while loading; its content is handed to the import and reported, or the error logged |
| DriveBackup.BackupPanel.AutoEnsureFile | src/components/BackupPanel.tsx:179-183 | with a token, no cached id and nothing loading, the file is prepared; otherwise nothing changes |
| DriveBackup.BackupPanel.DriveHintEffect | src/components/BackupPanel.tsx:185-193 | signed out and settled, the hint is logged once and marked shown; a session re-arms it |

## Left out

- Browser and library I/O are not modelled. The storage slot is a parsed `StoredValue`; the
  parsed sheet is `seq<seq<Cell>>`. `FileReader`, `Blob`, object URLs and `writeFile` are left
  out; the exported text, the written rows and the data handed to callbacks are returned values.
- The Google Drive client and Firebase sign-in are not modelled: their answers are `Outcome`
  parameters and a `Session` value.
- `toLowerCase`, `localeCompare`, `Number()`, `new Date(text)`, spreadsheet serial dates,
  `String(number)`, `toLocaleTimeString`, `crypto.randomUUID` and `new Date().toISOString()`
  are parameters, not definitions.
- JavaScript numbers are stored, never computed with: `Number` is `Finite(real) | NaN`, with no
  IEEE-754 detail. In particular there are no infinities, which `JSON.stringify` would write as
  null the way `JsonHours` writes NaN.
- `addMany`, `clearGames`, `exportJson` and `importJson` are called by the screen but missing
  from the store's source, so their behaviour is not modelled. The handlers return what they
  would pass, and the JSON import's answer is a parameter.
- Async timing and React's effect scheduling are not modelled: each handler or effect is one
  sequential step.
- LocalImport.LocalImportPanel.ExcelChange: the intermediate 'Importando Excel...' message,
  with loading on while the file is read, is set and then overwritten in the same step. No
  contract states it.
- DriveBackup.BackupPanel.PushStatus: all entries of one handler share one `time` text. The
  source reads the clock for each entry.
- The local-file handlers of the backup panel (src/components/BackupPanel.tsx:77-131) are not
  modelled. The screen mounts that panel with local actions hidden, and the same logic is
  modelled in `LocalImport`.
- LocalImport.LocalImportPanel.DownloadExcel: an exported array is taken to hold records. Other
  JSON elements are not modelled.
- The count in a JSON import's answer is taken to be a non-negative integer.
- In a stored entry, properties other than id, title, createdAt and ranking are
  taken to hold values of their declared types.
- GameStorage.LoadItems: an `id`, `title` or `createdAt` key is either missing or holds a
  string. The source's `'id' in item` test also keeps an entry whose key holds null or a
  non-string value; `StoredGame` cannot represent such an entry, so the model does not say what
  loading does with it.
- The model does not claim that a spreadsheet export reads back through the import. The source
  does not promise it: the export writes its header in the first row, but the import reads the
  header from the third.
- ExcelImport.ToStatus: its ensures says only that the result is the trimmed text or
  'Probado'. The exact cases are stated by `StatusCellImports` and `UnknownStatusDefaults`.
- ExcelImport.ToRanking: its ensures says only that the result is the trimmed text or 'G'. A
  listed tier is kept, as `TierCellImports` states.
- ExcelImport.RowToInput: its ensures covers completeness, validity and the title. The
  per-field defaults are stated by `TextField`, `StatusField`, `TierField`, `DateField` and
  `HoursField`.
- ExcelImport.DateField: its ensures states only the missing-column default. The cell cases are
  stated by `ToDateString`.
- ExcelImport.FindHeader: its ensures states only the range. The first-match property is
  `FindHeaderSpec`.
- ExcelImport.FormatDateRoundTrip: holds for years of at least 0 and for days and months below
  100.
- ExcelImport.ToDateString: Date cells are calendar dates as the Date getters report them.
  Time zones are not modelled.
- The statistics counters and all rendering in src/App.tsx are not modelled.
- src/components/GameFilters.tsx is not part of this model. It is a stale option table whose
  labels are outside the declared enumerations.
- Localisation tables, the language switcher, the legend, the list rendering, the entry point
  and the build configuration are not modelled: they have no logic to state.
