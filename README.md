# Allure report ingestion of the `reports` app, in Dafny

This project models how the `reports` Django app fills its three tables:
`Build`, `TestRun` and `TestCaseRun`. It covers four parts.

- **`auto_import_allure`**: the main management command. It reads the
  report catalog of an Allure server. For every entry with a uuid it
  downloads the suites CSV, dates the report by the latest row time and
  classifies its label by an ordered prefix table. Only then does it skip
  the report if its uuid is already recorded. Otherwise it writes one
  Build, one TestRun and one TestCaseRun per CSV row, all inside one atomic
  block. The loop counts imported and skipped reports and honours `--limit`
  and `--dry-run`.
- **`import_suites_csv`**: the single-file importer. It looks up or creates
  a Build by number, creates a TestRun, and creates one TestCaseRun per
  row. It tallies only the exact statuses `passed`, `failed` and
  `skipped`.
- **Migration 0002**: it adds `Build.build_type` and fills it in place with
  a second, case-sensitive prefix table. Its reverse resets every build to
  `Other`.
- **`models.py`**: the tables and their constraints. These are the unique
  nullable uuid, the foreign keys with `on_delete=CASCADE`, and the
  defaults.

Layout of the modules:

- `Models` holds the rows as datatypes and the database content as a `Db`
  value. The class `Store` is the database as the ORM exposes it:
  `objects.create`, `get_or_create`, `save`, queryset `update`, `delete`
  and the rollback of an atomic block.
- Each command is written twice.
  - Pure functions say what the command does to a `Db`: `AutoImport.Command`
    and `ImportSuites.Imported`.
  - Methods on a `Store` follow the command's code step by step:
    `AutoImport.Handle`, `ImportSuites.HandleFixed` and
    `BuildTypeMigration.PopulateBuildType`. Each method's postcondition ties
    the store it leaves to the pure function.
- The properties are proved about the pure functions in `AutoImportProofs`,
  `ImportSuitesProofs` and `BuildTypeMigration`.
- Outside input is passed in as parameters. HTTP answers (`fetch`) and
  date parsing (`parse`) are function-valued parameters. Today's date
  (`today`) and the catalog response are plain values.

The code has three defects, listed under "## Findings". Each is modelled
as written, next to a corrected version that carries the intended
property.

## Model

| member | source | states |
|---|---|---|
| Models.Filter | reports/models.py:14-18 | a filtered table holds exactly the rows that pass the test and is no longer than the original |
| Models.FilterConcat | reports/models.py:14-18 | filtering keeps order: the kept rows of `a + b` are the kept rows of `a` followed by those of `b` |
| Models.FilterKeepsDistinct | reports/models.py:14-18 | removing rows keeps the primary keys and the uuid unique |
| Models.Cascade | reports/models.py:14-18 | `Build.delete()` with both cascades does not change the next primary key |
| Models.CascadeRemovesExactlyTheOwnedRows | reports/models.py:13-35 | after a delete, a build, run or case row remains exactly when it existed and did not belong to the deleted build, directly or through its run |
| Models.CascadeKeepsWellFormed | reports/models.py:13-35 | the cascade leaves no dangling foreign key and keeps every key and the uuid unique |
| Models.WithBuildType | reports/migrations/0002_add_build_type_to_build.py:26 | `update(build_type=t)` gives every build type `t` and changes nothing else |
| Models.RetypeKeepsWellFormed | reports/models.py:3-8 | changing only `build_type` of existing builds keeps the database well formed |
| Models.FindBuild | reports/management/import_suites_csv.py:30-33 | the lookup by build number is `Absent` exactly when no build has the number, and `Found(k)` only for the one build with it; `Ambiguous` means two builds share the number |
| Models.Store.constructor | reports/models.py:3-39 | an empty, migrated database is well formed |
| Models.Store.CreateBuild | reports/models.py:3-8 | a build with a uuid that is already recorded is rejected and nothing is written; otherwise the build gets the next id and `build_type` defaults to "Other" |
| Models.Store.GetOrCreateBuild | reports/management/import_suites_csv.py:30-33 | returns the id of the one build with the number, or creates a build with the given date, no uuid and type "Other"; fails with nothing written when several builds match |
| Models.Store.CreateTestRun | reports/models.py:13-25 | a new run belongs to an existing build and its four counters start at 0 |
| Models.Store.CreateTestCaseRun | reports/models.py:30-39 | a new case belongs to an existing run, has a required execution date, and its architecture defaults to "Other" |
| Models.Store.SaveCounters | reports/management/commands/auto_import_allure.py:168-172 | writing the four counters changes that one run and nothing else |
| Models.Store.SaveBuildType | reports/migrations/0002_add_build_type_to_build.py:21 | saving one build's type changes only that field of that build |
| Models.Store.UpdateAllBuildTypes | reports/migrations/0002_add_build_type_to_build.py:26 | one UPDATE sets the type of every build and keeps the database well formed |
| Models.Store.Rollback | reports/management/commands/auto_import_allure.py:121 | leaving an atomic block by an exception restores the state at its start |
| Models.Store.DeleteBuild | reports/models.py:13-35 | deleting a build leaves exactly the state `Cascade` describes |
| Models.RunCascadeRemovesExactlyTheOwnedRows | reports/models.py:31-35 | after a run is deleted, a run remains exactly when it existed and is not that run, and a case remains exactly when it existed and did not point to that run |
| Models.RunCascadeKeepsWellFormed | reports/models.py:30-35 | deleting a run leaves no case pointing to a missing run and keeps keys unique |
| Models.Store.DeleteTestRun | reports/models.py:31-35 | deleting a run leaves exactly the state `RunCascade` describes and keeps the store valid |
| Text.Upper | reports/management/commands/auto_import_allure.py:68 | `upper()` keeps the length and leaves no lower-case letter; each lower-case letter becomes the capital whose small letter it is, and every other character stays |
| Text.Lower | reports/management/commands/auto_import_allure.py:143 | `lower()` keeps the length and leaves no upper-case letter; each capital becomes the small letter whose capital it is, and every other character stays |
| Text.CaseMappingIsIdempotent | reports/management/commands/auto_import_allure.py:68 | `upper()` and `lower()` change nothing the second time |
| Text.CaseMappingForgetsEarlierOne | reports/management/commands/auto_import_allure.py:68 | `s.lower().upper()` is `s.upper()`, and `s.upper().lower()` is `s.lower()` |
| Text.Strip | reports/management/commands/auto_import_allure.py:151 | the stripped string is a slice `s[i:j]` of `s` with only white space before `i` and after `j`, and it neither starts nor ends with white space |
| Text.StripEmptyIffAllSpace | reports/management/commands/auto_import_allure.py:151-154 | stripping leaves nothing exactly when the string is all white space |
| Text.Take | reports/management/commands/auto_import_allure.py:124 | `s[:n]` is the prefix of `s` of length `n`, or all of `s` when `s` is shorter |
| Text.UpperKeepsUpperPrefix | reports/management/commands/auto_import_allure.py:68-74 | an upper-case prefix of a label is still a prefix after `upper()` |
| PrefixRules.FirstMatch | reports/management/commands/auto_import_allure.py:69-75 | finds the first rule of the chain whose prefix starts the string, or reports that none does |
| PrefixRules.Classify | reports/management/commands/auto_import_allure.py:69-75 | the result is the category of a matching rule, or the default when no rule matches |
| PrefixRules.ClassifyInLabels | reports/migrations/0002_add_build_type_to_build.py:9-20 | every result is a label of the table or the default |
| PrefixRules.ExclusiveRuleDecides | reports/management/commands/auto_import_allure.py:69-74 | when no prefix starts another, the one rule that matches decides, wherever it sits in the chain |
| AutoImport.FirstTruthy | reports/management/commands/auto_import_allure.py:145-150 | an `a or b or ...` chain of `get`s gives the first non-empty value, and `None` exactly when there is none |
| AutoImport.DownloadFrom | reports/management/commands/auto_import_allure.py:28-42 | the first layout whose URL answers 200 gives the body and file name; `None` exactly when no URL answers 200 |
| AutoImport.DownloadCsv | reports/management/commands/auto_import_allure.py:26-42 | the loop over the two URLs returns the same as `Download` |
| AutoImport.Dates | reports/management/commands/auto_import_allure.py:49-61 | a date is in the list exactly when some row gives it |
| AutoImport.Max | reports/management/commands/auto_import_allure.py:63 | `max` is an element of the list and no element is larger |
| AutoImport.BuildDate | reports/management/commands/auto_import_allure.py:44-63 | empty text gives no date; otherwise the result is a date from a non-empty table, or the `NameError` of `Null` |
| AutoImport.GetBuildDate | reports/management/commands/auto_import_allure.py:44-63 | the loop that collects `dates` computes `BuildDate` |
| AutoImport.TypeAndArch | reports/management/commands/auto_import_allure.py:67-75 | the type and the architecture are always equal and are one of the seven labels |
| AutoImport.TestName | reports/management/commands/auto_import_allure.py:145-154 | the name is never empty and has at most 500 characters; it is "empty_name" exactly when the chosen alias is all white space, and otherwise the stripped alias, cut to 500 characters |
| AutoImport.Limited | reports/management/commands/auto_import_allure.py:90 | `reports[:limit or None]` is a prefix of the catalog; 0 means all, a positive limit keeps that many, a negative one drops that many from the end |
| AutoImport.LabelOf | reports/management/commands/auto_import_allure.py:92 | the build label is `path` when that is a non-empty string, else `name` when that is, else "unknown"; it is never empty |
| AutoImport.AddCaseRuns | reports/management/commands/auto_import_allure.py:139-166 | the row loop appends `CaseRuns` of the rows and returns the three outcome counts |
| AutoImport.AddCaseRun | reports/management/commands/auto_import_allure.py:141-166 | one iteration adds that row's TestCaseRun and bumps exactly its outcome's counter |
| AutoImport.ImportReport | reports/management/commands/auto_import_allure.py:120-178 | the atomic block leaves `Committed` when the counters are bound and otherwise rolls back to the state before the block |
| AutoImport.ProcessReport | reports/management/commands/auto_import_allure.py:91-105 | one loop pass is `Step`: no uuid changes nothing; an undated CSV raises before anything is written |
| AutoImport.AdmitReport | reports/management/commands/auto_import_allure.py:111-178 | the skip, dry-run and import branches are `Admit` |
| AutoImport.Handle | reports/management/commands/auto_import_allure.py:77-180 | the command leaves the database and summary that `Command` gives |
| AutoImportProofs.DownloadPrefersSuitesCsv | reports/management/commands/auto_import_allure.py:28-40 | `data/suites.csv` wins when it answers 200; `data_suites.csv` is used only when the first URL did not answer; with neither the text is empty |
| AutoImportProofs.BuildDateIsLatestRowDate | reports/management/commands/auto_import_allure.py:49-63 | a report's date is given by some row and no row gives a later one |
| AutoImportProofs.BuildDateRaisesIffNoRowDate | reports/management/commands/auto_import_allure.py:63 | reading the date raises exactly when the text is non-empty and no row gives a date |
| AutoImportProofs.StopTimeWins | reports/management/commands/auto_import_allure.py:52-55 | a row with a stop time is dated by it, whatever its start time |
| AutoImportProofs.NullTimeGivesNoDate | reports/management/commands/auto_import_allure.py:56 | a time reading "null" in any case gives no date |
| AutoImportProofs.TypeAndArchIgnoresCase | reports/management/commands/auto_import_allure.py:68 | classification gives the same result for the lower-case and upper-case forms of a label |
| AutoImportProofs.CommandRulesExclusive | reports/management/commands/auto_import_allure.py:69-74 | no prefix of the command's table starts another |
| AutoImportProofs.TypeAndArchByPrefix | reports/management/commands/auto_import_allure.py:69-74 | a label whose upper-case form starts with a rule's prefix gets that rule's type and architecture |
| AutoImportProofs.TypeAndArchOther | reports/management/commands/auto_import_allure.py:75 | a label not starting with "SMK-" in any case is ("Other", "Other") |
| AutoImportProofs.StatusTextRoundTrip | reports/management/commands/auto_import_allure.py:156-158 | the stored status reads back as the same bucket and fits `max_length=20` |
| AutoImportProofs.StatusTextInjective | reports/management/commands/auto_import_allure.py:156-158 | the three buckets are stored as three different texts |
| AutoImportProofs.MissingStatusIsSkipped | reports/management/commands/auto_import_allure.py:142 | a row without Status or STATUS is counted as skipped |
| AutoImportProofs.StatusIgnoresCase | reports/management/commands/auto_import_allure.py:142-143 | the status is bucketed after `lower()` |
| AutoImportProofs.UnnamedRowIsUnknown | reports/management/commands/auto_import_allure.py:145-150 | a row with no name column is recorded as "unknown" |
| AutoImportProofs.CountsCoverEveryRow | reports/management/commands/auto_import_allure.py:156-158 | every row is counted in exactly one of `p`, `f`, `s` |
| AutoImportProofs.CaseRunsLength | reports/management/commands/auto_import_allure.py:141-166 | no row is dropped: one TestCaseRun per row |
| AutoImportProofs.CaseRunsAt | reports/management/commands/auto_import_allure.py:160-166 | the k-th created TestCaseRun is built from the k-th row |
| AutoImportProofs.TallyOfCaseRuns | reports/management/commands/auto_import_allure.py:156-166 | the created cases with a bucket's text are exactly the rows counted in that bucket |
| AutoImportProofs.CaseRunsOwnedAndFresh | reports/management/commands/auto_import_allure.py:160-166 | every created case belongs to the new run and has a distinct fresh id |
| AutoImportProofs.CommittedAppends | reports/management/commands/auto_import_allure.py:123-172 | a committed report appends the build (label cut to 200 characters, uuid, date, type), its run with the counters, and its cases |
| AutoImportProofs.CommittedRunMatchesItsCases | reports/management/commands/auto_import_allure.py:140-172 | each counter of the new run is the number of its cases with that status, and the total is the number of rows |
| AutoImportProofs.CommittedKeepsWellFormed | reports/management/commands/auto_import_allure.py:121-172 | a committed report keeps keys and uuid unique, foreign keys valid, and `total = p + f + s` for every run |
| AutoImportProofs.AppendKeepsWellFormed | reports/models.py:3-39 | appending a build, a run under it and cases under that run, all with fresh ids and a new uuid, keeps the database well formed |
| AutoImportProofs.StepRaisesExactlyWhenDateRaises | reports/management/commands/auto_import_allure.py:104 | a loop pass raises exactly when the report's date raises, with that report's uuid |
| AutoImportProofs.EntryWithoutUuidIsDropped | reports/management/commands/auto_import_allure.py:91-95 | an entry without a uuid is counted in neither counter and writes nothing |
| AutoImportProofs.RecordedReportIsSkipped | reports/management/commands/auto_import_allure.py:111-114 | a report whose uuid is recorded increments `skipped` and writes nothing |
| AutoImportProofs.CommittedRecordsReport | reports/management/commands/auto_import_allure.py:123-166 | a committed report records its uuid and adds one build, one run and one case per row |
| AutoImportProofs.NewReportIsStored | reports/management/commands/auto_import_allure.py:120-174 | a new, dated, non-empty report is stored, counted as imported, and binds the counters |
| AutoImportProofs.EmptyReportBeforeCountersIsLost | reports/management/commands/auto_import_allure.py:138-178 | a new report without CSV text, met before any report bound `p`, `f`, `s`, is counted as imported but not stored |
| AutoImportProofs.EmptyReportAfterCountersIsStored | reports/management/commands/auto_import_allure.py:138-175 | the same report met after the counters were bound is stored with a zero-test run |
| AutoImportProofs.AdmitKeepsConsistent | reports/management/commands/auto_import_allure.py:111-178 | one report keeps the schema's invariants and counters that add up |
| AutoImportProofs.RunKeepsConsistent | reports/management/commands/auto_import_allure.py:90-178 | the loop keeps them |
| AutoImportProofs.CommandKeepsConsistent | reports/management/commands/auto_import_allure.py:77-180 | the whole command keeps them |
| AutoImportProofs.DryRunKeepsDb | reports/management/commands/auto_import_allure.py:116-118 | a dry-run loop writes nothing |
| AutoImportProofs.DryRunWritesNothing | reports/management/commands/auto_import_allure.py:116-118 | `--dry-run` leaves the database as it was |
| AutoImportProofs.UndatedFirstReportStopsCommand | reports/management/commands/auto_import_allure.py:104 | an undated first report stops the command before anything is written |
| AutoImportProofs.AdmitKeepsUuids | reports/management/commands/auto_import_allure.py:111-178 | a recorded uuid stays recorded after a report is processed |
| AutoImportProofs.RunKeepsUuids | reports/management/commands/auto_import_allure.py:90-178 | a recorded uuid stays recorded for the rest of the loop |
| AutoImportProofs.RunSettles | reports/management/commands/auto_import_allure.py:111-174 | after the loop every storable report it reached is recorded |
| AutoImportProofs.AdmitOnSettledKeepsDb | reports/management/commands/auto_import_allure.py:111-114 | with the counters still unbound, a report that is recorded or has no CSV text writes nothing and leaves them unbound |
| AutoImportProofs.SettledRunKeepsDb | reports/management/commands/auto_import_allure.py:90-114 | with the counters unbound, a loop over reports that are all recorded, or that stop at a raising one, writes nothing |
| AutoImportProofs.CommandIsIdempotent | reports/management/commands/auto_import_allure.py:111-114 | running the command twice on the same catalog and answers writes nothing the second time |
| AutoImportFixed.BuildDateFixed | reports/management/commands/auto_import_allure.py:63 | the corrected date of an empty text is `None` |
| AutoImportFixed.BuildDateFixedAgrees | reports/management/commands/auto_import_allure.py:44-63 | the corrected date equals the date as written wherever that one is defined, and is `None` exactly where that one raises or the text is empty |
| AutoImportFixed.StepFixedAgreesOnStoredReports | reports/management/commands/auto_import_allure.py:100-178 | on every report the code stores, the corrected pass does the same |
| AutoImportFixed.StepFixedImportsExactlyWhatItStores | reports/management/commands/auto_import_allure.py:138-175 | corrected: a report is counted as imported exactly when its uuid was new and is now recorded, with one more build |
| AutoImportFixed.RunFixedImportsAreBuilds | reports/management/commands/auto_import_allure.py:88-180 | corrected: `imported` is exactly the number of builds the run added |
| AutoImportFixed.AdmitFixedKeepsConsistent | reports/management/commands/auto_import_allure.py:120-178 | corrected: one report keeps the schema's invariants |
| AutoImportFixed.RunFixedKeepsConsistent | reports/management/commands/auto_import_allure.py:90-178 | corrected: the loop keeps them |
| ImportSuites.Outcome | reports/management/import_suites_csv.py:18-43 | as written the database is always left unchanged; a missing file gives `FileNotFound` and every other call fails |
| ImportSuites.Handle | reports/management/import_suites_csv.py:18-43 | the command as written, on the store, gives `Outcome` |
| ImportSuites.Imported | reports/management/import_suites_csv.py:18-80 | corrected: an error leaves the database unchanged (one transaction), and a success reports `total = passed + failed + skipped` |
| ImportSuites.FirstErrorStands | reports/management/import_suites_csv.py:47-53 | a row that raises makes the whole file raise with its error |
| ImportSuites.ImportRow | reports/management/import_suites_csv.py:61-73 | one iteration appends that row's TestCaseRun and bumps only the counter of its exact status |
| ImportSuites.ImportRows | reports/management/import_suites_csv.py:47-73 | the row loop fails exactly when some row raises, with the first such error; otherwise it appends one case per row and returns the exact-status counts |
| ImportSuites.AddRun | reports/management/import_suites_csv.py:36-80 | the run, its cases and its saved counters are `AddedRun`, or the first row error |
| ImportSuites.HandleFixed | reports/management/import_suites_csv.py:18-80 | the corrected command, on the store, gives `Imported` |
| ImportSuitesProofs.RowReadsIffColumnsPresent | reports/management/import_suites_csv.py:50-53 | a row reads exactly when the four indexed columns exist, `Status` has a value and the chosen name has one |
| ImportSuitesProofs.RowFieldsAreRawValues | reports/management/import_suites_csv.py:50-63 | the stored status is the raw status lower-cased; the name is `Test Method`, or `Name` when that is empty, stripped |
| ImportSuitesProofs.StartTimeOrBuildDate | reports/management/import_suites_csv.py:53-59 | the execution date is the parsed start time, or the build date when there is none or it does not parse |
| ImportSuitesProofs.ReadRowsRowByRow | reports/management/import_suites_csv.py:47-66 | the file reads exactly when every row does, giving one entry per row in order |
| ImportSuitesProofs.CaseRunsOfAt | reports/management/import_suites_csv.py:61-66 | the k-th case carries the k-th row's name, status and date under the new run, with the default architecture |
| ImportSuitesProofs.StatusCountIsTally | reports/management/import_suites_csv.py:61-73 | a status's counter is the number of created cases with exactly that status |
| ImportSuitesProofs.TalliedAtMostRows | reports/management/import_suites_csv.py:68-76 | the counters never exceed the rows, and cover them exactly when every status is passed, failed or skipped |
| ImportSuitesProofs.NewRunCounts | reports/management/import_suites_csv.py:68-80 | cases of older runs do not change the new run's counters |
| ImportSuitesProofs.AddedRunRecords | reports/management/import_suites_csv.py:36-80 | a successful import records the run with its fields and counters and one case per row |
| ImportSuitesProofs.ImportRecordsEveryRow | reports/management/import_suites_csv.py:36-80 | corrected: a successful import keeps the old runs and cases and appends one run with the summary's counters and one case per row, in order, with the row's name, status and date; each counter is the number of the run's cases with that exact status, and `total` equals the number of rows exactly when every status is passed, failed or skipped |
| ImportSuitesProofs.BuildIsLookedUpOrCreated | reports/management/import_suites_csv.py:29-33 | the run goes to the existing build with the number, left unchanged, or to a new build dated today |
| ImportSuitesProofs.FindNewBuild | reports/management/import_suites_csv.py:30-33 | a newly created build is the one build found by its number |
| ImportSuitesProofs.RerunAddsAnotherRun | reports/management/import_suites_csv.py:29-43 | importing again with the same number adds a second run to the same build, so the command is not idempotent |
| ImportSuitesProofs.OsVersionDiscardsEveryImport | reports/management/import_suites_csv.py:36-43 | as written a readable file still fails with nothing stored, where the corrected command stores one run and one case per row |
| BuildTypeMigration.BuildTypeOf | reports/migrations/0002_add_build_type_to_build.py:8-20 | the type is one of Mobile, Run18, Run17, Init18, Benchmark, Other |
| BuildTypeMigration.Populated | reports/migrations/0002_add_build_type_to_build.py:7-21 | each build is retyped from its own number and keeps its place |
| BuildTypeMigration.PopulateBuildType | reports/migrations/0002_add_build_type_to_build.py:5-21 | the in-place loop leaves exactly the `Populated` builds and changes no run or case |
| BuildTypeMigration.ReversePopulate | reports/migrations/0002_add_build_type_to_build.py:24-26 | the reverse sets every build's type to "Other" and changes nothing else |
| BuildTypeMigration.MigrationRulesExclusive | reports/migrations/0002_add_build_type_to_build.py:9-20 | no prefix of the migration's table starts another |
| BuildTypeMigration.BuildTypeByPrefix | reports/migrations/0002_add_build_type_to_build.py:9-18 | a number starting with a rule's prefix, case as written, gets that rule's type |
| BuildTypeMigration.BuildTypeNamesItsPrefix | reports/migrations/0002_add_build_type_to_build.py:9-20 | a type other than "Other" comes only from its own prefix |
| BuildTypeMigration.EmptyNumberIsOther | reports/migrations/0002_add_build_type_to_build.py:8 | the empty number, and so a null one, is "Other" |
| BuildTypeMigration.PopulateKeepsOtherFields | reports/migrations/0002_add_build_type_to_build.py:7-21 | no field other than `build_type` changes |
| BuildTypeMigration.PopulateIsIdempotent | reports/migrations/0002_add_build_type_to_build.py:7-21 | populating twice is populating once |
| BuildTypeMigration.ReverseThenPopulate | reports/migrations/0002_add_build_type_to_build.py:5-26 | migrating back and forth again gives every build the type it first got |
| BuildTypeMigration.PopulateKeepsWellFormed | reports/migrations/0002_add_build_type_to_build.py:7-21 | the migration keeps the database well formed |
| BuildTypeMigration.BothTables | reports/migrations/0002_add_build_type_to_build.py:9-20 | a number matching a rule of each table gets each rule's type from each classifier |
| BuildTypeMigration.Run18LabelsDiffer | reports/migrations/0002_add_build_type_to_build.py:11-12 | "SMK-RUN18-" numbers are "Run18" here and "ALSE 18" for the command |
| BuildTypeMigration.Run17LabelsDiffer | reports/migrations/0002_add_build_type_to_build.py:13-14 | "SMK-RUN17-" numbers are "Run17" here and "ALSE 17" for the command |
| BuildTypeMigration.MobileLabelsDiffer | reports/migrations/0002_add_build_type_to_build.py:9-10 | every "SMK-MOB-" number is "Mobile" here, but "Mobile 17", "Mobile 18" or "Other" for the command |
| BuildTypeMigration.LowerCaseNumbersDiffer | reports/migrations/0002_add_build_type_to_build.py:9-20 | every number that starts with "SMK-RUN18-" only after `upper()` is "Other" here but "ALSE 18" for the command, which upper-cases first |
| BuildTypeMigration.AgreementNeedsSharedRule | reports/migrations/0002_add_build_type_to_build.py:15-18 | where the two tables agree on a type other than "Other", the number starts with "SMK-INIT18-" or "SMK-BNCH-" |
| BuildTypeMigration.ClassifiersAgreeOnlyOnInitBenchmarkOther | reports/migrations/0002_add_build_type_to_build.py:9-20 | the two classifiers agree exactly on Init18 and Benchmark numbers and on numbers both call "Other" |

## Left out

- HTTP is not modelled. `requests.get` becomes `fetch: string -> Response`, where a response is an exception or a status code with a body. The catalog is a `CatalogResponse`: an error, a JSON list, or a JSON object with or without `items`. A catalog entry whose `uuid` or `path` is not a string is not modelled.
- Date parsing (`dateutil`, `strptime`) becomes `parse: string -> Option<Date>`. Dates are day numbers. `datetime.now().date()` becomes the parameter `today`.
- CSV tokenisation by `csv.DictReader` is not modelled. A CSV text is `Empty` or a `Table` of rows, and a row is a map from column to value. `None` stands for the value of a short row.
- Opening the file in `import_suites_csv` is modelled only as present (`Some(rows)`) or missing (`None`). Decoding errors and a path that exists but cannot be read are not modelled.
- Console output (`self.stdout.write`) and `created_at` (`auto_now_add`) are not modelled.
- Case mapping and `strip` cover ASCII case only, and the white-space set of Python's `str.isspace`. Other Unicode case mappings are not modelled.
- Declared `max_length`s are constants only. The store does not enforce them, and `build_number[:200]` is stored as given even though its field is declared with 50.
- Models.Store: the ORM is an in-memory store with one counter for all primary keys. Real tables number their keys separately. `Rollback` also rewinds that counter, where a database sequence does not rewind, so after a rolled-back report the real ids skip values the model reuses. None of the properties depends on exact key values.
- AutoImport.Command: an exception inside the atomic block other than the unbound counters is not modelled; the model has no other source of one. One consequence is that the NOT NULL `execution_date` failure of a report that has rows but no date cannot arise in the code as written, because such a report raises at line 63 first.
- AutoImport.Reader and ImportSuites.RowReader: the spec functions take the row readers as function values (`Suites`, `RowReader(today, parse)`). The lemmas about a single row state what those readers return.
- Models.Store.DeleteBuild and Models.Store.DeleteTestRun model the cascades that reports/models.py declares. None of the modelled commands deletes anything, so no property of a command involves them.
- reports/views.py, reports/urls.py and reports/allure_import.py are not part of this model.
- AutoImport.Command: the command keeps two counters, `imported` and `skipped`. The `NameError` of line 63 is raised by the call at line 104, outside the `try` of lines 120-178, so it ends the command. The model reads the catalog field `uuid` and uses the labels "ALSE 18" and "ALSE 17", as the code does.
- ImportSuites.HandleFixed: command-line parsing is not modelled. `--arch` is a parameter, and its default "Astra 1.8" (reports/management/import_suites_csv.py:16) is not part of the model.
- `import_suites_csv.py` lives in `reports/management/`, not in `reports/management/commands/`, so Django would not find it as a command. It is modelled as if it were registered.

## Findings

| source | as written | input that shows it | evidently intended | confidence | as-written member | corrected member |
|---|---|---|---|---|---|---|
| reports/management/commands/auto_import_allure.py:63 | evaluates the undefined name `Null` when no row gives a date, outside the `try`, so the `NameError` ends the whole command | a first catalog entry whose CSV has rows but no parseable Stop or Start Time | return `None`, as the empty-text branch does | high; not executed | AutoImportProofs.UndatedFirstReportStopsCommand | AutoImportFixed.BuildDateFixedAgrees |
| reports/management/commands/auto_import_allure.py:138-175 | `p`, `f`, `s` are bound only inside `if csv_content`, so a report without CSV text reads unbound locals after `imported += 1`; the block rolls back, and the report counts as imported but is not stored | a run whose first new report has no CSV at either URL | store the build with a zero-test run, as the comment at line 102 says, and count only what was stored | high; not executed | AutoImportProofs.EmptyReportBeforeCountersIsLost | AutoImportFixed.StepFixedImportsExactlyWhatItStores |
| reports/management/import_suites_csv.py:39 | passes `os_version` to `TestRun.objects.create`, but `TestRun` has no such field, so every import raises `TypeError` and the atomic `handle` rolls back | any existing CSV file and a build number shared by at most one build | create the TestRun without `os_version` | high; not executed | ImportSuitesProofs.OsVersionDiscardsEveryImport | ImportSuitesProofs.ImportRecordsEveryRow |
