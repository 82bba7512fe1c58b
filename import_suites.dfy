/**
  The single-file importer `import_suites_csv`: one `suites.csv` file
  becomes one TestRun of the build with the given number, created if no
  build has that number yet. The whole command is one transaction.

  `Outcome` and `Handle` model the code as written: the TestRun is created
  with a keyword `os_version` that TestRun does not have, so every call
  that gets that far raises `TypeError` and rolls back. `Imported` and
  `HandleFixed` model the command without that keyword; the properties
  about rows and counters are proved of them.
*/
module ImportSuites {
  import opened Wrappers
  import opened Text
  import opened Models
  import AutoImport

  /** One row of `csv.DictReader`: a missing key raises `KeyError`, a short row gives `None`. */
  type Record = AutoImport.Record

  const ReportBase: string := "http://10.177.140.34:8080/allure/reports/"

  function ReportUrl(buildNumber: string): string {
    ReportBase + buildNumber + "/"
  }

  datatype ImportError =
    | FileNotFound                    // the path does not exist; nothing is attempted
    | MultipleBuilds                  // `get_or_create` meets two builds with the number
    | UnexpectedKeyword(name: string) // `TestRun(...)` given a field it does not have
    | MissingColumn(column: string)   // `row[column]` on a header without that column
    | NullValue(column: string)       // `.lower()` or `.strip()` on the `None` of a short row

  datatype Summary = Summary(total: nat, passed: nat, failed: nat, skipped: nat)

  // ---------------------------------------------------------------- the code as written

  /**
    The command as written: whatever the file holds, the database is left
    as it was, and the error says how far the command got.
  */
  function Outcome(db: Db, file: Option<seq<Record>>, buildNumber: string): (r: (Db, Result<Summary, ImportError>))
    ensures r.0 == db && r.1.Err?
    ensures r.1 == Err(FileNotFound) <==> file.None?
  {
    if file.None? then (db, Err(FileNotFound))
    else if FindBuild(db.builds, buildNumber).Ambiguous? then (db, Err(MultipleBuilds))
    else (db, Err(UnexpectedKeyword("os_version")))
  }

  /**
    `handle` as written. The get-or-create runs, then `TestRun.objects.create`
    raises and `@transaction.atomic` undoes the build it may have created.
  */
  method Handle(store: Store, file: Option<seq<Record>>, buildNumber: string, arch: string, today: Date)
    returns (r: Result<Summary, ImportError>)
    requires store.Valid()
    modifies store
    ensures store.Valid()
    ensures (store.State(), r) == Outcome(old(store.State()), file, buildNumber)
  {
    var snapshot := store.State();
    if file.None? {
      return Err(FileNotFound);
    }
    var buildId := store.GetOrCreateBuild(buildNumber, Some(today));
    if buildId.None? {
      return Err(MultipleBuilds);
    }
    store.Rollback(snapshot);
    return Err(UnexpectedKeyword("os_version"));
  }

  // ---------------------------------------------------------------- one row

  /** `row[column]` */
  function Column(row: Record, column: string): Result<Option<string>, ImportError> {
    if column in row then Ok(row[column]) else Err(MissingColumn(column))
  }

  /** What one row contributes: the test name, the status and the execution date. */
  datatype Fields = Fields(name: string, status: string, date: Date)

  /**
    The `strptime` of `Start Time`; any failure, including the `TypeError`
    of a `None`, is caught by the bare `except` and gives the build date.
  */
  function ExecutionDate(start: Option<string>, today: Date, parse: string -> Option<Date>): Date {
    match start
    case None => today
    case Some(t) => parse(t).GetOr(today)
  }

  /**
    The body of the row loop up to the create: the lowered `Status`, the
    stripped `Test Method or Name`, the parsed start time, with the columns
    read in the order the code reads them.
  */
  function ReadRow(row: Record, today: Date, parse: string -> Option<Date>): Result<Fields, ImportError> {
    var status := Column(row, "Status");
    if status.Err? then Err(status.error)
    else if status.value.None? then Err(NullValue("Status"))
    else
      var testMethod := Column(row, "Test Method");
      if testMethod.Err? then Err(testMethod.error)
      else
        var testName := if testMethod.value.Some? && testMethod.value.value != "" then testMethod else Column(row, "Name");
        var fullName := Column(row, "Name");
        var start := Column(row, "Start Time");
        if testName.Err? then Err(testName.error)
        else if fullName.Err? then Err(fullName.error)
        else if start.Err? then Err(start.error)
        else if testName.value.None? then Err(NullValue("Name"))
        else Ok(Fields(Strip(testName.value.value), Lower(status.value.value),
                       ExecutionDate(start.value, today, parse)))
  }

  /** `ReadRow` with the clock and the parser fixed, as a function of the row. */
  function RowReader(today: Date, parse: string -> Option<Date>): Record -> Result<Fields, ImportError> {
    row => ReadRow(row, today, parse)
  }

  // ---------------------------------------------------------------- the corrected command

  /** The rows read in order: their fields, or the error of the first row that raises. */
  function ReadRows(rows: seq<Record>, read: Record -> Result<Fields, ImportError>): Result<seq<Fields>, ImportError> {
    if rows == [] then Ok([])
    else match ReadRows(rows[..|rows| - 1], read)
      case Err(e) => Err(e)
      case Ok(fs) =>
        match read(rows[|rows| - 1])
        case Err(e) => Err(e)
        case Ok(f) => Ok(fs + [f])
  }

  /** The TestCaseRuns created for `fs`, in row order, with consecutive ids from `firstId`. */
  function CaseRunsOf(fs: seq<Fields>, firstId: nat, runId: nat): seq<TestCaseRun> {
    if fs == [] then []
    else
      var last := fs[|fs| - 1];
      CaseRunsOf(fs[..|fs| - 1], firstId, runId)
      + [TestCaseRun(firstId + |fs| - 1, runId, last.name, last.status, last.date, DefaultArchitecture)]
  }

  /** How many rows carry exactly `status`. */
  function StatusCount(fs: seq<Fields>, status: string): nat {
    if fs == [] then 0
    else StatusCount(fs[..|fs| - 1], status) + (if fs[|fs| - 1].status == status then 1 else 0)
  }

  /** The build that gets the run: the one numbered `buildNumber`, or a new one dated `today`. */
  function Resolved(db: Db, buildNumber: string, today: Date): (r: (Db, nat))
    requires !FindBuild(db.builds, buildNumber).Ambiguous?
  {
    match FindBuild(db.builds, buildNumber)
    case Found(k) => (db, db.builds[k].id)
    case Absent =>
      (db.(builds := db.builds + [Build(db.nextId, buildNumber, Some(today), None, DefaultBuildType)],
           nextId := db.nextId + 1), db.nextId)
  }

  /**
    What a file whose rows all read adds under build `buildId`: a TestRun
    with the exact-status counters, then one TestCaseRun per row.
  */
  function AddedRun(db: Db, buildId: nat, fs: seq<Fields>, buildNumber: string, arch: string, today: Date)
    : (Db, Summary)
  {
    var runId := db.nextId;
    var p, f, s := StatusCount(fs, "passed"), StatusCount(fs, "failed"), StatusCount(fs, "skipped");
    (Db(db.builds,
        db.runs + [TestRun(runId, buildId, arch, Some(today), ReportUrl(buildNumber), p + f + s, p, f, s)],
        db.cases + CaseRunsOf(fs, runId + 1, runId),
        runId + 1 + |fs|),
     Summary(p + f + s, p, f, s))
  }

  /**
    The command without `os_version`: the database it leaves and what it
    reports. Any error leaves the database as it was, since the whole
    command is one transaction.
  */
  function Imported(db: Db, file: Option<seq<Record>>, buildNumber: string, arch: string, today: Date,
                    read: Record -> Result<Fields, ImportError>): (r: (Db, Result<Summary, ImportError>))
    ensures r.1.Err? ==> r.0 == db
    ensures r.1.Ok? ==> r.1.value.total == r.1.value.passed + r.1.value.failed + r.1.value.skipped
  {
    match file
    case None => (db, Err(FileNotFound))
    case Some(rows) =>
      if FindBuild(db.builds, buildNumber).Ambiguous? then (db, Err(MultipleBuilds))
      else
        var (withBuild, buildId) := Resolved(db, buildNumber, today);
        match ReadRows(rows, read)
        case Err(e) => (db, Err(e))
        case Ok(fs) =>
          var (after, summary) := AddedRun(withBuild, buildId, fs, buildNumber, arch, today);
          (after, Ok(summary))
  }

  /** A row that raises makes the whole file raise with its error, whatever follows it. */
  lemma {:induction false} FirstErrorStands(rows: seq<Record>, read: Record -> Result<Fields, ImportError>, j: nat)
    requires j <= |rows| && ReadRows(rows[..j], read).Err?
    ensures ReadRows(rows, read) == ReadRows(rows[..j], read)
    decreases |rows| - j
  {
    if j < |rows| {
      var init := rows[..|rows| - 1];
      assert init[..j] == rows[..j];
      FirstErrorStands(init, read, j);
    } else {
      assert rows[..j] == rows;
    }
  }

  /** Reading one more row: its error, or its fields appended. */
  lemma ReadOneMore(rows: seq<Record>, read: Record -> Result<Fields, ImportError>, i: nat)
    requires i < |rows| && ReadRows(rows[..i], read).Ok?
    ensures read(rows[i]).Err? ==> ReadRows(rows[..i + 1], read) == Err(read(rows[i]).error)
    ensures read(rows[i]).Ok? ==>
      ReadRows(rows[..i + 1], read) == Ok(ReadRows(rows[..i], read).value + [read(rows[i]).value])
  {
    assert rows[..i + 1][..i] == rows[..i];
  }

  /** One more row's case and counters. */
  lemma CreateOneMore(fs: seq<Fields>, f: Fields, firstId: nat, runId: nat)
    ensures CaseRunsOf(fs + [f], firstId, runId)
         == CaseRunsOf(fs, firstId, runId) + [TestCaseRun(firstId + |fs|, runId, f.name, f.status, f.date,
                                                          DefaultArchitecture)]
    ensures forall status :: StatusCount(fs + [f], status) == StatusCount(fs, status) + (if f.status == status then 1 else 0)
  {
    assert (fs + [f])[..|fs|] == fs;
  }

  /** `TestCaseRun.objects.create` for one row that was read, then its status tallied. */
  method ImportRow(store: Store, fields: Fields, runId: nat, passed: nat, failed: nat, skipped: nat,
                   ghost fs: seq<Fields>, ghost base: seq<TestCaseRun>, ghost firstId: nat)
    returns (passed': nat, failed': nat, skipped': nat)
    requires store.Valid() && runId in RunIds(store.runs)
    requires store.cases == base + CaseRunsOf(fs, firstId, runId) && store.nextId == firstId + |fs|
    requires passed == StatusCount(fs, "passed") && failed == StatusCount(fs, "failed")
    requires skipped == StatusCount(fs, "skipped")
    modifies store
    ensures store.Valid()
    ensures store.builds == old(store.builds) && store.runs == old(store.runs)
    ensures store.cases == base + CaseRunsOf(fs + [fields], firstId, runId)
    ensures store.nextId == firstId + |fs + [fields]|
    ensures passed' == StatusCount(fs + [fields], "passed") && failed' == StatusCount(fs + [fields], "failed")
    ensures skipped' == StatusCount(fs + [fields], "skipped")
  {
    var _ := store.CreateTestCaseRun(runId, fields.name, fields.status, fields.date, None);
    passed', failed', skipped' := passed, failed, skipped;
    if fields.status == "passed" {
      passed' := passed + 1;
    } else if fields.status == "failed" {
      failed' := failed + 1;
    } else if fields.status == "skipped" {
      skipped' := skipped + 1;
    }
    ghost var created := TestCaseRun(firstId + |fs|, runId, fields.name, fields.status, fields.date,
                                     DefaultArchitecture);
    CreateOneMore(fs, fields, firstId, runId);
    AutoImport.AppendAssoc(base, CaseRunsOf(fs, firstId, runId), [created]);
  }

  /**
    The row loop: creates one TestCaseRun per row of `rows` under `runId`
    and counts the exact statuses. On a row that raises it stops with that
    row's error and leaves the rollback to its caller.
  */
  method ImportRows(store: Store, rows: seq<Record>, read: Record -> Result<Fields, ImportError>, runId: nat)
    returns (err: Option<ImportError>, passed: nat, failed: nat, skipped: nat, ghost fs: seq<Fields>)
    requires store.Valid() && runId in RunIds(store.runs)
    modifies store
    ensures store.Valid()
    ensures err.Some? <==> ReadRows(rows, read).Err?
    ensures err.Some? ==> ReadRows(rows, read) == Err(err.value)
    ensures err.None? ==> ReadRows(rows, read) == Ok(fs)
    ensures err.None? ==>
      && store.State() == old(store.State()).(cases := old(store.cases) + CaseRunsOf(fs, old(store.nextId), runId),
                                              nextId := old(store.nextId) + |fs|)
      && passed == StatusCount(fs, "passed") && failed == StatusCount(fs, "failed")
      && skipped == StatusCount(fs, "skipped")
  {
    passed, failed, skipped := 0, 0, 0;
    fs := [];
    var i := 0;
    while i < |rows|
      invariant 0 <= i <= |rows| && |fs| == i
      invariant store.Valid() && runId in RunIds(store.runs)
      invariant ReadRows(rows[..i], read) == Ok(fs)
      invariant store.builds == old(store.builds) && store.runs == old(store.runs)
      invariant store.cases == old(store.cases) + CaseRunsOf(fs, old(store.nextId), runId)
      invariant store.nextId == old(store.nextId) + i
      invariant passed == StatusCount(fs, "passed") && failed == StatusCount(fs, "failed")
      invariant skipped == StatusCount(fs, "skipped")
    {
      ReadOneMore(rows, read, i);
      var row := read(rows[i]);
      if row.Err? {
        FirstErrorStands(rows, read, i + 1);
        return Some(row.error), passed, failed, skipped, fs;
      }
      var fields := row.value;
      passed, failed, skipped :=
        ImportRow(store, fields, runId, passed, failed, skipped, fs, old(store.cases), old(store.nextId));
      fs := fs + [fields];
      i := i + 1;
    }
    assert rows[..i] == rows;
    return None, passed, failed, skipped, fs;
  }

  /**
    From `TestRun.objects.create` to `test_run.save()`. On a row that
    raises it returns that row's error and leaves the rollback to its caller.
  */
  method AddRun(store: Store, buildId: nat, rows: seq<Record>, read: Record -> Result<Fields, ImportError>,
                buildNumber: string, arch: string, today: Date)
    returns (err: Option<ImportError>, summary: Summary)
    requires store.Valid() && buildId in BuildIds(store.builds)
    modifies store
    ensures store.Valid()
    ensures ReadRows(rows, read).Err? ==> err == Some(ReadRows(rows, read).error)
    ensures ReadRows(rows, read).Ok? ==>
      err.None? && (store.State(), summary) == AddedRun(old(store.State()), buildId, ReadRows(rows, read).value,
                                                        buildNumber, arch, today)
  {
    var before := store.runs;
    var runId := store.CreateTestRun(buildId, arch, Some(today), ReportUrl(buildNumber));
    ghost var run := TestRun(runId, buildId, arch, Some(today), ReportUrl(buildNumber), 0, 0, 0, 0);
    var p, f, s;
    ghost var fs;
    err, p, f, s, fs := ImportRows(store, rows, read, runId);
    if err.Some? {
      return err, Summary(0, 0, 0, 0);
    }
    assert store.runs == before + [run];
    store.SaveCounters(|before|, p + f + s, p, f, s);
    AutoImport.ReplaceLast(before, run, run.(total := p + f + s, passed := p, failed := f, skipped := s));
    summary := Summary(p + f + s, p, f, s);
  }

  /** `handle` without `os_version`, as one transaction. */
  method HandleFixed(store: Store, file: Option<seq<Record>>, buildNumber: string, arch: string, today: Date,
                     parse: string -> Option<Date>)
    returns (r: Result<Summary, ImportError>)
    requires store.Valid()
    modifies store
    ensures store.Valid()
    ensures (store.State(), r) == Imported(old(store.State()), file, buildNumber, arch, today, RowReader(today, parse))
  {
    var snapshot := store.State();
    if file.None? {
      return Err(FileNotFound);
    }
    var buildId := store.GetOrCreateBuild(buildNumber, Some(today));
    if buildId.None? {
      return Err(MultipleBuilds);
    }
    assert (store.State(), buildId.value) == Resolved(snapshot, buildNumber, today);
    var err, summary := AddRun(store, buildId.value, file.value, RowReader(today, parse), buildNumber, arch, today);
    if err.Some? {
      store.Rollback(snapshot);
      return Err(err.value);
    }
    return Ok(summary);
  }
}
