# Yandal Patrol report front end — a Dafny model

Yandal Patrol is a small React front end. Field officers of seven service
units (ULP) use it to file patrol-inspection reports, and admins use it to
review those reports and edit each unit's master data: its officers
(*petugas*), feeders (*penyulang*) and each feeder's keypoints. This project
models the logic of the front end in Dafny and proves what that logic
promises. The rendering and the network calls are not modelled.

One module per source file:

- **Types** (`types.ts`): roles, views, the `ULPName` enum with its string
  values, unit master data, reports and the login session. JavaScript `a || b`
  on nullable strings is written with `Option<string>` and `Truthy`.
- **Text**: the JavaScript string operations the screens use.
  - String `<=` is modelled as lexicographic order on characters.
  - `trim` uses the ECMAScript WhiteSpace and LineTerminator characters.
  - `startsWith`, `split('T')[0]` and a first-occurrence `replace` are modelled too.
- **Sorting**: `Array.prototype.sort` with a comparator, modelled as an
  in-place insertion sort over an `array`. It is proved to produce a sorted
  permutation for any total-preorder comparator.
- **Constants** (`constants.ts`): the default unit catalog, the month names
  and the photo sections, with the catalog's invariants.
- **App** (`App.tsx`): a class holding the application state (`role`,
  `view`, `reports`, `masterData`) and its handlers. The master-data edits
  are built by pure functions.
- **AdminSettings** (`components/AdminSettings.tsx`):
  - the free-text name parser, proved against a join/parse round trip;
  - the settings form, whose submit handlers gate, hand on and clear their inputs.
- **AdminRekap** (`components/AdminRekap.tsx`): the officer summary.
  - Reports are filtered by date.
  - One row is pushed per registered officer by two nested loops, with the
    officer's report count.
  - Rows are ranked in an array and numbered from 1.
- **InputForm** (`components/InputForm.tsx`): the report form.
  - Its state is a class.
  - The keypoint reset, the photo-slot update and the fallback chains of the
    submitted report are modelled.
- **Counting**: `filter(p).length`, the count shared by the dashboard and
  the officer summary.
- **Dashboard** (`components/Dashboard.tsx`): the counts, the per-unit fold
  and the chart.
- **DataTable** (`components/DataTable.tsx`): the photo-link classifier, the
  numbered slot links and the "Tidak ada foto" notice.
- **LoginConfig** (`components/LoginConfig.tsx`): when a session may be
  confirmed, what it contains, and the unit-change reset.

The code has no reconciler of pending writes, no deduplication of reports by
id, no notification badges and no offline store:

- A fetch replaces the report list wholesale (App.tsx:36-40).
- A save prepends the new report without deduplicating (App.tsx:109).

In the code, `App` renders `InputForm` without a `sessionData` prop
(App.tsx:356-360). It also renders `AdminSettings` without the keypoint
callbacks (App.tsx:346-353), and it never renders `AdminRekap` or
`LoginConfig`. Each component is modelled with the props it declares. Read
as wired, without those props, two handlers would fail:

- `InputForm` reads `sessionData.ulp` on every render (InputForm.tsx:27),
  which throws a TypeError when `sessionData` is undefined.
- The keypoint submit of `AdminSettings` calls `onAddKeypoint`
  (AdminSettings.tsx:60), which `App` does not pass, so it throws before the
  input is cleared.

## Model

| member | source | states |
|---|---|---|
| Types.UnitNameRoundTrip | types.ts:8-16 | reading a unit back from its enum string gives that unit, and only the seven enum strings read back as units |
| Types.UnitNamesDistinct | types.ts:8-16 | distinct units have distinct string values |
| Types.EveryUnitListed | components/Dashboard.tsx:22 | the enum's value list holds every unit |
| Text.LexLeTotal | components/AdminRekap.tsx:19-20 | any two strings are comparable with `<=` |
| Text.LexLeTransitive | components/AdminRekap.tsx:19-20 | string `<=` is transitive |
| Text.LexLeAntisymmetric | components/AdminRekap.tsx:19-20 | strings that are `<=` each other are equal |
| Text.TrimStartIsSuffix | components/AdminSettings.tsx:36 | dropping leading whitespace keeps a suffix, removes only whitespace and stops at the first other character |
| Text.TrimEndIsPrefix | components/AdminSettings.tsx:36 | dropping trailing whitespace keeps a prefix, removes only whitespace and stops at the last other character |
| Text.TrimIsSlice | components/AdminSettings.tsx:36 | `trim` returns a slice of its input with only whitespace cut from either side, and the result neither starts nor ends with whitespace |
| Text.TrimIdempotent | components/AdminSettings.tsx:36 | trimming twice is trimming once |
| Text.TrimEmptyIffWhitespace | components/AdminSettings.tsx:35 | a string trims to "" exactly when it is all whitespace |
| Text.BeforeFirstT | components/AdminRekap.tsx:18 | `split('T')[0]` is a prefix without 'T', followed in the input by a 'T' when shorter |
| Text.RemoveFirst | components/Dashboard.tsx:23 | `replace` with a string pattern removes the pattern from a string that starts with it |
| Sorting.InsertionSort | App.tsx:37-39 | sorting leaves the array ordered by the comparator and a permutation of its old contents |
| Constants.MonthsCoverEveryMonth | constants.ts:78-81 | there are 12 month names, so every month index finds one |
| Constants.PhotoSectionsMatchSlots | constants.ts:83 | the photo sections are 1..6, one per slot of the six-slot empty photo row |
| Constants.DefaultUnitNamed | constants.ts:7-75 | each default entry carries its unit's name |
| Constants.CatalogKeys | constants.ts:6-76 | the catalog's keys are exactly the seven enum strings |
| Constants.CatalogEntries | constants.ts:6-76 | under each unit's name the catalog holds that unit's default entry |
| Constants.CatalogKeysAreNames | constants.ts:7-75 | every catalog key equals the name of its entry |
| Constants.FeedersHaveKeypoints | constants.ts:7-75 | every feeder of a default entry has a non-empty keypoint list |
| Constants.EveryFeederHasKeypoints | constants.ts:7-75 | every feeder listed in the catalog has a non-empty keypoint list |
| App.NewestFirstIsTotalPreorder | App.tsx:37-39 | the newest-first comparator is total and transitive |
| App.AdoptedMasterData | App.tsx:44-59 | server master data is adopted only when it has a unit, otherwise the defaults are; either way the result has a unit |
| App.Without | App.tsx:146 | filtering a name out removes every occurrence and keeps the other occurrences of every other name |
| App.WithoutAppend | App.tsx:146 | filtering works piece by piece, so the rest keeps its order |
| App.WithoutAbsent | App.tsx:146 | filtering out an absent name changes nothing |
| App.Appended | App.tsx:128-135 | adding names appends them in order to that unit's list, without dropping duplicates; the unit's other fields and every other unit are unchanged |
| App.Removed | App.tsx:141-148 | deleting a name removes all its occurrences from that unit's list; the unit's other fields and every other unit are unchanged |
| App.DeleteUndoesAdd | App.tsx:128-150 | deleting a name right after adding it, when it was absent, restores the master data |
| App.AppState.constructor | App.tsx:15-23 | the app starts logged out on the login view, with no reports and the default catalog |
| App.AppState.ApplyFetch | App.tsx:35-60 | a report array replaces the list as a newest-first permutation of it; without one the list is unchanged; master data follows `AdoptedMasterData` whatever the push result; a failed or empty response changes nothing |
| App.AppState.Login | App.tsx:88-95 | the admin goes to the dashboard, every other role to the input form |
| App.AppState.Logout | App.tsx:97-100 | the role is cleared and the login view shown |
| App.AppState.SaveReport | App.tsx:102-125 | a successful save yields `[data] + previous reports` and sends a field officer to the table; a failed save changes nothing |
| App.AppState.AddNames | App.tsx:128-138 | with the unit present, the master data becomes `Appended(...)`; with it absent, the handler fails and nothing changes |
| App.AppState.DeleteName | App.tsx:141-175 | with the unit present, the master data becomes `Removed(...)`; with it absent, the handler fails and nothing changes |
| App.AppState.InitDefault | App.tsx:178-190 | the defaults replace the master data only after a successful push |
| AdminSettings.SplitAtSeparators | components/AdminSettings.tsx:36 | splitting gives at least one piece and no piece holds a separator |
| AdminSettings.NonEmpty | components/AdminSettings.tsx:36 | `filter(Boolean)` keeps exactly the non-empty strings |
| AdminSettings.TrimAll | components/AdminSettings.tsx:36 | `map(trim)` trims each piece in place |
| AdminSettings.ParsedNamesWellFormed | components/AdminSettings.tsx:36 | every parsed name is non-empty, has no comma or newline and is already trimmed |
| AdminSettings.RunPiecesArePieces | components/AdminSettings.tsx:36 | no piece of the run-split holds a separator |
| AdminSettings.TrimmedPieceWellFormed | components/AdminSettings.tsx:36 | trimming a separator-free piece keeps it separator-free and trimmed |
| AdminSettings.NonEmptyAppend | components/AdminSettings.tsx:36 | dropping empty pieces works piece by piece |
| AdminSettings.TrimAllAppend | components/AdminSettings.tsx:36 | trimming works piece by piece |
| AdminSettings.NonEmptyBeforeTrim | components/AdminSettings.tsx:36 | dropping empty pieces before trimming does not change the names |
| AdminSettings.ParseNamesBySingleSeparators | components/AdminSettings.tsx:36 | splitting on runs of separators gives the same names as splitting at every separator |
| AdminSettings.SplitAtSeparator | components/AdminSettings.tsx:36 | a separator cuts the pieces into those of its left and those of its right |
| AdminSettings.SplitWithoutSeparator | components/AdminSettings.tsx:36 | text without a separator is one piece |
| AdminSettings.ParseJoinedNames | components/AdminSettings.tsx:36 | parsing well-formed names joined by a comma or newline gives those names back, in order |
| AdminSettings.SplitJoined | components/AdminSettings.tsx:36 | splitting joined separator-free names gives them back |
| AdminSettings.KeepWellFormed | components/AdminSettings.tsx:36 | trimming and filtering leave well-formed names as they are |
| AdminSettings.ParseNamesConcat | components/AdminSettings.tsx:36 | parsing keeps input order across a separator |
| AdminSettings.BlankTextHasNoNames | components/AdminSettings.tsx:35-37 | text that trims to nothing parses to no names |
| AdminSettings.BlankPieces | components/AdminSettings.tsx:36 | every piece of blank text is blank |
| AdminSettings.BlankPiecesVanish | components/AdminSettings.tsx:36 | blank pieces all disappear after trimming and filtering |
| AdminSettings.SubmitsIffNamesSurvive | components/AdminSettings.tsx:35-40 | a submission happens exactly when the form is ready and some name survives parsing, and it hands on exactly the parsed names |
| AdminSettings.SettingsForm.constructor | components/AdminSettings.tsx:26-31 | every input and selection starts empty |
| AdminSettings.SettingsForm.SelectUnit | components/AdminSettings.tsx:95-98 | choosing a unit clears the active feeder and keeps the inputs |
| AdminSettings.SettingsForm.SubmitPetugas | components/AdminSettings.tsx:33-42 | the officer names are handed on, and the input cleared, exactly when a unit is selected and some name survives parsing |
| AdminSettings.SettingsForm.SubmitPenyulang | components/AdminSettings.tsx:44-53 | the same for the feeder input |
| AdminSettings.SettingsForm.SubmitKeypoints | components/AdminSettings.tsx:55-64 | the keypoints are handed on, with the active feeder, exactly when a unit and a feeder are selected and some name survives |
| AdminRekap.FilterByPeriod | components/AdminRekap.tsx:17-22 | a report survives the date filter exactly when its date is within the bounds that are set |
| AdminRekap.FilterByPeriodAppend | components/AdminRekap.tsx:17-22 | the filter works piece by piece, so every occurrence of a report in the period is kept, in order |
| AdminRekap.FilterByPeriodCount | components/AdminRekap.tsx:17-22 | the filter keeps exactly as many reports as there are positions holding a report in the period |
| AdminRekap.NoBoundsKeepsAll | components/AdminRekap.tsx:19-20 | with no bounds set every report survives, in order |
| AdminRekap.Realisasi | components/AdminRekap.tsx:34-37 | an officer's total is the number of reports of the officer's unit that name them, each report counted once even if it names them twice |
| AdminRekap.PeriodLabel | components/AdminRekap.tsx:40-47 | with no start date the label is "Semua"; with only a start it is "Sejak" and the start month; with equal formatted bounds it is that one month, with different ones the range "start - end" |
| AdminRekap.RowsAreIncludedOfficers | components/AdminRekap.tsx:27-54 | every row belongs to an officer of an included unit and carries that officer's total |
| AdminRekap.IncludedOfficersHaveRows | components/AdminRekap.tsx:27-54 | every officer of every included unit gets a row |
| AdminRekap.CollectRows | components/AdminRekap.tsx:24-56 | the loops push exactly the rows of the included units' officers, unit by unit, in officer order |
| AdminRekap.RankingIsTotalPreorder | components/AdminRekap.tsx:60-65 | ranking by total descending, then by name, is a total preorder when the name collation is one |
| AdminRekap.Numbered | components/AdminRekap.tsx:68-71 | row `i` is numbered `i + 1` and keeps its content |
| AdminRekap.Unnumbered | components/AdminRekap.tsx:68-71 | dropping the numbers keeps each row's content in place |
| AdminRekap.UnnumberedNumbered | components/AdminRekap.tsx:68-71 | numbering only adds the position |
| AdminRekap.Rekap | components/AdminRekap.tsx:15-72 | the table is a permutation of the collected rows, ranked by total then name, numbered 1..n; each total is at most the number of filtered reports; with no start date every label is "Semua"; with a unit filter only that unit appears |
| InputForm.CurrentUlp | components/InputForm.tsx:27 | the unit is the session's, else the edited report's, and it is absent when neither is a non-empty string |
| InputForm.UnitData | components/InputForm.tsx:28 | unit data exists exactly when the unit is known and in the master data |
| InputForm.AvailableKeypoints | components/InputForm.tsx:39 | the keypoints are the feeder's list in the unit's data, or empty without unit data, without a feeder or without an entry |
| InputForm.CatalogFeedersOfferKeypoints | components/InputForm.tsx:39 | with the default catalog every listed feeder offers a keypoint |
| InputForm.KeypointResetIffFeederMoved | components/InputForm.tsx:31-37 | the effect clears the keypoint exactly when the feeder differs from the edited report's feeder (or from none) |
| InputForm.WithSlot | components/InputForm.tsx:72-73 | only slot `index` changes and it holds the image; writing past the end leaves empty slots |
| InputForm.WithSlotKeepsSixSlots | components/InputForm.tsx:24-25 | updating a slot of a six-slot row keeps six slots |
| InputForm.WithSlotLastWins | components/InputForm.tsx:72-73 | writing one slot twice keeps the second image |
| InputForm.WithSlotCommutes | components/InputForm.tsx:72-78 | updates of two different slots commute |
| InputForm.OfficerName | components/InputForm.tsx:105-106 | an officer is the session's, else the edited report's, else "N/A", and is never empty |
| InputForm.BuildReport | components/InputForm.tsx:86-115 | no report exists without a unit; otherwise it has the current unit, the reused or fresh id, the submission time, the month's name, the officer fallbacks and the form's fields |
| InputForm.BuiltReportIsComplete | components/InputForm.tsx:99-115 | a built report names a unit and two officers, keeps an edited report's id, gives a new report the fresh id, and its month is a month name |
| InputForm.ReportForm.constructor | components/InputForm.tsx:16-37 | a new report starts blank with six empty slots per photo row; an edited report is loaded; the effect on mount keeps the loaded keypoint |
| InputForm.ReportForm.ChangeFeeder | components/InputForm.tsx:31-37 | the feeder is set, and a change runs the reset effect on the keypoint; nothing else changes |
| InputForm.ReportForm.ChangePhoto | components/InputForm.tsx:68-84 | only the chosen row changes, by `WithSlot`; a failed resize changes nothing |
| InputForm.ReportForm.Submit | components/InputForm.tsx:86-115 | the submitted report is `BuildReport` of the form's current fields |
| Counting.CountWhere | components/Dashboard.tsx:14 | a filtered count is the number of positions whose report meets the predicate, so at most the number of reports |
| Counting.CountWhereSnoc | components/Dashboard.tsx:14 | a count grows by one exactly for a matching report |
| Dashboard.ThisMonthCount | components/Dashboard.tsx:13-14 | the this-month count is the number of reports whose month name is the current month |
| Dashboard.UnitCount | components/Dashboard.tsx:17-20 | a unit's count is the number of reports whose unit is that unit |
| Dashboard.DataMapCounts | components/Dashboard.tsx:17-20 | the fold gives a unit an entry exactly when it has reports, and the entry is its number of reports |
| Dashboard.BarsFor | components/Dashboard.tsx:22-25 | there is one bar per listed unit |
| Dashboard.ChartData | components/Dashboard.tsx:22-25 | the chart has one bar per enum value |
| Dashboard.NameHasPrefix | components/Dashboard.tsx:23 | every unit name starts with "ULP " |
| Dashboard.ChartBars | components/Dashboard.tsx:22-25 | bar `i` is labelled with unit `i`'s name minus "ULP " and counts that unit's reports, 0 when it has none |
| Dashboard.BarsSum | components/Dashboard.tsx:17-25 | the bars add up to the reports, each weighed by how many listed units carry its unit name |
| Dashboard.NoReportsNoCounts | components/Dashboard.tsx:17-25 | without reports every bar is 0 |
| Dashboard.BarsSnoc | components/Dashboard.tsx:17-25 | a further report raises the bar sum by the number of listed units it names |
| Dashboard.DistinctUnitsNamed | components/Dashboard.tsx:22 | among distinct units a name is carried by at most one |
| Dashboard.EnumNamesOnce | components/Dashboard.tsx:22 | each enum string occurs once among the enum values and no other string occurs |
| Dashboard.ChartSumsToTotal | components/Dashboard.tsx:12-25 | when every report's unit is an enum value, the bars add up to the total |
| Dashboard.ReportsCountedOnce | components/Dashboard.tsx:17-25 | when every report's unit is an enum value, each report is counted by exactly one unit |
| DataTable.LinkType | components/DataTable.tsx:22-27 | null or "" is no link; "http..." is Drive (tested first); "data:image..." not starting with "http" is local; anything else is no link |
| DataTable.SlotLinksSound | components/DataTable.tsx:79-98 | every link comes from a classified slot, labelled with its index + 1 and carrying the slot's reference and kind |
| DataTable.SlotLinksComplete | components/DataTable.tsx:79-98 | every classified slot gets its link |
| DataTable.SlotLinksOrdered | components/DataTable.tsx:79-98 | the links appear in slot order |
| DataTable.NoLinksIffNoneClassified | components/DataTable.tsx:79-121 | a row renders no link exactly when none of its slots is classified |
| DataTable.NoticeIffNoLinks | components/DataTable.tsx:121-123 | "Tidak ada foto" is shown exactly when neither row renders a link |
| DataTable.EmptyRowsShowNotice | components/DataTable.tsx:121-123 | all-empty photo rows show the notice |
| LoginConfig.Confirm | components/LoginConfig.tsx:21-31 | no session without a unit or, for a non-guest, without both officers; a guest's session has no officers, anyone else's the chosen ones |
| LoginConfig.SubmitEnabledIffConfirms | components/LoginConfig.tsx:104 | the submit button is enabled exactly when confirming would give a session |
| LoginConfig.ConfirmedSessionFeedsForm | components/LoginConfig.tsx:26-30 | a confirmed session gives the report form its unit and, for officers, both officer names |
| LoginConfig.LoginForm.constructor | components/LoginConfig.tsx:14-16 | nothing is selected at first |
| LoginConfig.LoginForm.SelectUnit | components/LoginConfig.tsx:51-55 | choosing a unit clears both officers |
| LoginConfig.LoginForm.SelectPetugas1 | components/LoginConfig.tsx:15 | choosing the first officer changes only that selection |
| LoginConfig.LoginForm.SelectPetugas2 | components/LoginConfig.tsx:16 | choosing the second officer changes only that selection |
| LoginConfig.LoginForm.Submit | components/LoginConfig.tsx:21-31 | submitting yields `Confirm` of the current selection, present exactly when the button is enabled |

## Left out

- services/api.ts: network I/O. A fetch arrives as `App.FetchResult`, and whether a save or push succeeded arrives as a boolean.
- sw.js and index.tsx: service worker, notifications and DOM mounting.
- components/PhotoUpload.tsx: overlay toggles and file-input plumbing.
- `resizeImage` (InputForm.tsx:41-66): canvas drawing and JPEG encoding. Its result is a parameter of `ChangePhoto`, absent when resizing failed.
- Asynchrony:
  - the interleaving of awaits;
  - the background re-fetch after a save (App.tsx:118);
  - the loading, status and syncing flags;
  - alerts and console output;
  - the `isSubmitting` flag of the report form.
- Rendering: the JSX, the Recharts chart and the colours.
- Plain input setters (`noPenugasan`, `keypoint`, `titikStart`, `titikFinish`) of the report form and the settings inputs: each sets one field.
- Dates:
  - Timestamps are modelled as ISO-8601 strings in the form `toISOString` writes. Comparing them as strings (`App.NewestFirst`) is taken to be the millisecond comparison of App.tsx:38.
  - The date of a timestamp is its text before the first 'T'. An unparseable timestamp, which makes `toISOString` throw at AdminRekap.tsx:18, is not modelled.
- The current time, its month index and the fresh report id (`crypto.randomUUID`) are parameters of `InputForm.BuildReport`.
- The current month name is a parameter of `Dashboard.ThisMonthCount`.
- `localeCompare` is an abstract total preorder `collate` passed to `AdminRekap.Rekap`.
- The `toLocaleString` month formatting of the period label is passed as two functions. Only the label's structure is modelled.
- The iteration order of `Object.values(masterData)` is the `units` parameter of `AdminRekap.Rekap`.
- Strings are sequences of characters, not of UTF-16 code units. Order and `trim` agree with JavaScript for text in the Basic Multilingual Plane.
- App.AppState.AddNames: a unit missing from the master data makes the handler throw. This is modelled as `ok == false` with no state change; the TypeError itself is not modelled.
- The server push in `updateMasterDataState` (App.tsx:75-85) is not modelled: its failure only raises an alert, and local state is kept either way.
- App.AppState.ApplyFetch: the `reports` field counts as present only when it is an array, and `masterData` only when it is a truthy object. Any other shape of the response is not modelled.
- Sorting.InsertionSort: stands in for the engine's sort algorithm. The contract promises sortedness and permutation, not the engine's order among equal elements.
