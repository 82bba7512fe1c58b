/**
  Properties of the `import_suites_csv` model: how one row is read, what
  a successful import writes, how its counters relate to the rows, and
  that the command is not idempotent. `OsVersionDiscardsEveryImport`
  contrasts the code as written with the corrected command.
*/
module ImportSuitesProofs {
  import opened Wrappers
  import opened Text
  import opened Models
  import opened ImportSuites
  import AutoImport

  // ---------------------------------------------------------------- one row

  /** `row[k]` would not raise, and its value is a non-empty string. */
  predicate Indexed(row: Record, k: string) {
    k in row && AutoImport.Truthy(row, k)
  }

  /**
    A row reads without raising exactly when the four columns the loop
    indexes exist, `Status` has a value, and the name it picks has one.
  */
  lemma RowReadsIffColumnsPresent(row: Record, today: Date, parse: string -> Option<Date>)
    ensures ReadRow(row, today, parse).Ok? <==>
      && "Status" in row && "Test Method" in row && "Name" in row && "Start Time" in row
      && row["Status"].Some?
      && (Indexed(row, "Test Method") || row["Name"].Some?)
  {
  }

  /**
    A row that reads stores its raw status lower-cased and its
    `Test Method`, or `Name` when that is empty or missing, stripped.
  */
  lemma RowFieldsAreRawValues(row: Record, today: Date, parse: string -> Option<Date>)
    requires ReadRow(row, today, parse).Ok?
    ensures ReadRow(row, today, parse).value.status == Lower(row["Status"].value)
    ensures Indexed(row, "Test Method") ==> ReadRow(row, today, parse).value.name == Strip(row["Test Method"].value)
    ensures !Indexed(row, "Test Method") ==> ReadRow(row, today, parse).value.name == Strip(row["Name"].value)
  {
  }

  /** The execution date is the parsed `Start Time`, or the build date when there is none or it does not parse. */
  lemma StartTimeOrBuildDate(row: Record, today: Date, parse: string -> Option<Date>)
    requires ReadRow(row, today, parse).Ok?
    ensures var d := ReadRow(row, today, parse).value.date;
      && (row["Start Time"].Some? && parse(row["Start Time"].value).Some? ==> d == parse(row["Start Time"].value).value)
      && (row["Start Time"].None? || parse(row["Start Time"].value).None? ==> d == today)
  {
  }

  // ---------------------------------------------------------------- all rows

  /** The file reads when every row does, and then gives one entry per row, in order. */
  lemma {:induction false} ReadRowsRowByRow(rows: seq<Record>, read: Record -> Result<Fields, ImportError>)
    ensures ReadRows(rows, read).Ok? <==> forall k :: 0 <= k < |rows| ==> read(rows[k]).Ok?
    ensures ReadRows(rows, read).Ok? ==>
      |ReadRows(rows, read).value| == |rows|
      && forall k :: 0 <= k < |rows| ==> ReadRows(rows, read).value[k] == read(rows[k]).value
  {
    if rows != [] {
      var init := rows[..|rows| - 1];
      ReadRowsRowByRow(init, read);
      assert forall k :: 0 <= k < |init| ==> init[k] == rows[k];
    }
  }

  lemma {:induction false} CaseRunsOfAt(fs: seq<Fields>, firstId: nat, runId: nat)
    ensures |CaseRunsOf(fs, firstId, runId)| == |fs|
    ensures forall k :: 0 <= k < |fs| ==>
      CaseRunsOf(fs, firstId, runId)[k] == TestCaseRun(firstId + k, runId, fs[k].name, fs[k].status, fs[k].date,
                                                       DefaultArchitecture)
  {
    if fs != [] {
      var init := fs[..|fs| - 1];
      CaseRunsOfAt(init, firstId, runId);
      assert forall k :: 0 <= k < |init| ==> init[k] == fs[k];
    }
  }

  /** The counter of a status is the number of created TestCaseRuns with exactly that status. */
  lemma {:induction false} StatusCountIsTally(fs: seq<Fields>, firstId: nat, runId: nat, status: string)
    ensures Tally(CaseRunsOf(fs, firstId, runId), runId, status) == StatusCount(fs, status)
  {
    if fs != [] {
      var cs := CaseRunsOf(fs, firstId, runId);
      assert cs[..|cs| - 1] == CaseRunsOf(fs[..|fs| - 1], firstId, runId);
      StatusCountIsTally(fs[..|fs| - 1], firstId, runId, status);
    }
  }

  predicate Tallied(status: string) {
    status == "passed" || status == "failed" || status == "skipped"
  }

  /**
    The three counters never exceed the rows, and cover them all exactly
    when every status is one of the three tallied words.
  */
  lemma {:induction false} TalliedAtMostRows(fs: seq<Fields>)
    ensures StatusCount(fs, "passed") + StatusCount(fs, "failed") + StatusCount(fs, "skipped") <= |fs|
    ensures StatusCount(fs, "passed") + StatusCount(fs, "failed") + StatusCount(fs, "skipped") == |fs|
      <==> forall k :: 0 <= k < |fs| ==> Tallied(fs[k].status)
  {
    if fs != [] {
      var init := fs[..|fs| - 1];
      TalliedAtMostRows(init);
      assert forall k :: 0 <= k < |init| ==> init[k] == fs[k];
    }
  }

  // ---------------------------------------------------------------- one import

  /**
    A new run's counters over the database's cases: the cases already
    there belong to older runs, so only the new ones count.
  */
  lemma NewRunCounts(cases: seq<TestCaseRun>, fs: seq<Fields>, runId: nat, status: string)
    requires forall c :: c in cases ==> c.runId < runId
    ensures Tally(cases + CaseRunsOf(fs, runId + 1, runId), runId, status) == StatusCount(fs, status)
  {
    TallyOfOtherRuns(cases, runId, status);
    TallyAppend(cases, CaseRunsOf(fs, runId + 1, runId), runId, status);
    StatusCountIsTally(fs, runId + 1, runId, status);
  }

  /**
    What a successful import of rows read as `fs` writes over the `runs`
    and `cases` it found: the run with its counters and one case per row.
  */
  predicate Recorded(runs: seq<TestRun>, cases: seq<TestCaseRun>, after: Db, s: Summary, fs: seq<Fields>,
                     buildNumber: string, arch: string, today: Date)
  {
    && RunRecorded(runs, after, s, buildNumber, arch, today)
    && CasesRecorded(runs, cases, after, fs)
    && CountersRecorded(runs, after, fs)
  }

  /** The old runs are kept and one run with the summary's counters follows them. */
  predicate RunRecorded(runs: seq<TestRun>, after: Db, s: Summary, buildNumber: string, arch: string, today: Date) {
    && |after.runs| == |runs| + 1 && after.runs[..|runs|] == runs
    && var run := after.runs[|runs|];
    && run.architecture == arch && run.runDate == Some(today) && run.reportUrl == ReportUrl(buildNumber)
    && (run.total, run.passed, run.failed, run.skipped) == (s.total, s.passed, s.failed, s.skipped)
  }

  /** The old cases are kept and one case per row of `fs` follows them, in order, under the new run. */
  predicate CasesRecorded(runs: seq<TestRun>, cases: seq<TestCaseRun>, after: Db, fs: seq<Fields>) {
    && |after.runs| == |runs| + 1
    && |after.cases| == |cases| + |fs| && after.cases[..|cases|] == cases
    && forall k :: 0 <= k < |fs| ==>
         var c := after.cases[|cases| + k];
         c.runId == after.runs[|runs|].id && c.architecture == DefaultArchitecture
         && (c.testName, c.status, c.executionDate) == (fs[k].name, fs[k].status, fs[k].date)
  }

  /** Each counter of the new run is the number of its cases with that exact status. */
  predicate CountersRecorded(runs: seq<TestRun>, after: Db, fs: seq<Fields>) {
    && |after.runs| == |runs| + 1
    && var run := after.runs[|runs|];
    && run.passed == Tally(after.cases, run.id, "passed")
    && run.failed == Tally(after.cases, run.id, "failed")
    && run.skipped == Tally(after.cases, run.id, "skipped")
    && run.total <= |fs|
    && (run.total == |fs| <==> forall k :: 0 <= k < |fs| ==> Tallied(fs[k].status))
  }

  lemma AddedRunRecordsRun(db: Db, buildId: nat, fs: seq<Fields>, buildNumber: string, arch: string, today: Date)
    ensures var (after, s) := AddedRun(db, buildId, fs, buildNumber, arch, today);
      RunRecorded(db.runs, after, s, buildNumber, arch, today)
  {
    var (after, s) := AddedRun(db, buildId, fs, buildNumber, arch, today);
    assert after.runs[..|db.runs|] == db.runs;
  }

  lemma AddedRunRecordsCases(db: Db, buildId: nat, fs: seq<Fields>, buildNumber: string, arch: string, today: Date)
    ensures var (after, s) := AddedRun(db, buildId, fs, buildNumber, arch, today);
      CasesRecorded(db.runs, db.cases, after, fs)
  {
    var (after, s) := AddedRun(db, buildId, fs, buildNumber, arch, today);
    var added := CaseRunsOf(fs, db.nextId + 1, db.nextId);
    CaseRunsOfAt(fs, db.nextId + 1, db.nextId);
    assert after.cases == db.cases + added;
    assert after.cases[..|db.cases|] == db.cases;
    assert forall k :: 0 <= k < |fs| ==> after.cases[|db.cases| + k] == added[k];
  }

  lemma AddedRunRecordsCounters(db: Db, buildId: nat, fs: seq<Fields>, buildNumber: string, arch: string, today: Date)
    requires forall c :: c in db.cases ==> c.runId < db.nextId
    ensures var (after, s) := AddedRun(db, buildId, fs, buildNumber, arch, today);
      CountersRecorded(db.runs, after, fs)
  {
    var runId := db.nextId;
    TalliedAtMostRows(fs);
    NewRunCounts(db.cases, fs, runId, "passed");
    NewRunCounts(db.cases, fs, runId, "failed");
    NewRunCounts(db.cases, fs, runId, "skipped");
  }

  lemma AddedRunRecords(db: Db, buildId: nat, fs: seq<Fields>, buildNumber: string, arch: string, today: Date)
    requires forall c :: c in db.cases ==> c.runId < db.nextId
    ensures var (after, s) := AddedRun(db, buildId, fs, buildNumber, arch, today);
      Recorded(db.runs, db.cases, after, s, fs, buildNumber, arch, today)
  {
    AddedRunRecordsRun(db, buildId, fs, buildNumber, arch, today);
    AddedRunRecordsCases(db, buildId, fs, buildNumber, arch, today);
    AddedRunRecordsCounters(db, buildId, fs, buildNumber, arch, today);
  }

  /**
    An import that succeeds adds one TestRun and, per row, one TestCaseRun
    with that row's name, status and date (`ReadRowsRowByRow` gives the
    row of each entry); each counter is the number of those cases with
    that exact status, so rows with any other status are stored but not
    counted.
  */
  lemma ImportRecordsEveryRow(db: Db, rows: seq<Record>, buildNumber: string, arch: string, today: Date,
                              read: Record -> Result<Fields, ImportError>)
    requires WellFormed(db)
    requires Imported(db, Some(rows), buildNumber, arch, today, read).1.Ok?
    ensures ReadRows(rows, read).Ok?
    ensures var (after, r) := Imported(db, Some(rows), buildNumber, arch, today, read);
      Recorded(db.runs, db.cases, after, r.value, ReadRows(rows, read).value, buildNumber, arch, today)
  {
    var (withBuild, buildId) := Resolved(db, buildNumber, today);
    KeysBelowNextId(db);
    AddedRunRecords(withBuild, buildId, ReadRows(rows, read).value, buildNumber, arch, today);
  }

  /**
    The run goes to the one build with the given number when there is
    one, which is left as it was; otherwise to a new build with that
    number, today's date, no uuid and the default type.
  */
  lemma BuildIsLookedUpOrCreated(db: Db, rows: seq<Record>, buildNumber: string, arch: string, today: Date,
                                 read: Record -> Result<Fields, ImportError>)
    requires Imported(db, Some(rows), buildNumber, arch, today, read).1.Ok?
    ensures var after := Imported(db, Some(rows), buildNumber, arch, today, read).0;
      && |after.runs| == |db.runs| + 1
      && match FindBuild(db.builds, buildNumber)
         case Found(k) => after.builds == db.builds && after.runs[|db.runs|].buildId == db.builds[k].id
         case Absent =>
           && after.builds == db.builds + [Build(db.nextId, buildNumber, Some(today), None, DefaultBuildType)]
           && after.runs[|db.runs|].buildId == db.nextId
         case Ambiguous => false
  {
  }

  /** Adding a build with a number no build had makes it the one build with that number. */
  lemma FindNewBuild(builds: seq<Build>, b: Build)
    requires FindBuild(builds, b.buildNumber).Absent?
    ensures FindBuild(builds + [b], b.buildNumber) == Found(|builds|)
  {
    var all := builds + [b];
    assert all[|builds|].buildNumber == b.buildNumber;
  }

  /**
    After a successful import the number names exactly one build, so
    importing a file again with the same number adds a second TestRun to
    that same build: the command is not idempotent.
  */
  lemma RerunAddsAnotherRun(db: Db, rows: seq<Record>, again: seq<Record>, buildNumber: string, arch: string,
                            today: Date, later: Date, read: Record -> Result<Fields, ImportError>,
                            readAgain: Record -> Result<Fields, ImportError>)
    requires Imported(db, Some(rows), buildNumber, arch, today, read).1.Ok?
    requires ReadRows(again, readAgain).Ok?
    ensures var first := Imported(db, Some(rows), buildNumber, arch, today, read).0;
      var second := Imported(first, Some(again), buildNumber, arch, later, readAgain);
      && second.1.Ok?
      && second.0.builds == first.builds
      && |second.0.runs| == |first.runs| + 1
      && second.0.runs[|first.runs|].buildId == first.runs[|db.runs|].buildId
  {
    var first := Imported(db, Some(rows), buildNumber, arch, today, read).0;
    BuildIsLookedUpOrCreated(db, rows, buildNumber, arch, today, read);
    match FindBuild(db.builds, buildNumber)
    case Found(k) =>
      assert FindBuild(first.builds, buildNumber) == Found(k);
    case Absent =>
      FindNewBuild(db.builds, Build(db.nextId, buildNumber, Some(today), None, DefaultBuildType));
  }

  // ---------------------------------------------------------------- the code as written

  /**
    As written, a file whose rows all read and a number naming at most one
    build still leave the database unchanged with a `TypeError`, where the
    command without `os_version` records one run and one case per row.
  */
  lemma OsVersionDiscardsEveryImport(db: Db, rows: seq<Record>, buildNumber: string, arch: string, today: Date,
                                     read: Record -> Result<Fields, ImportError>)
    requires !FindBuild(db.builds, buildNumber).Ambiguous? && ReadRows(rows, read).Ok?
    ensures Outcome(db, Some(rows), buildNumber) == (db, Err(UnexpectedKeyword("os_version")))
    ensures var fixed := Imported(db, Some(rows), buildNumber, arch, today, read);
      && fixed.1.Ok?
      && |fixed.0.runs| == |db.runs| + 1
      && |fixed.0.cases| == |db.cases| + |rows|
  {
    ReadRowsRowByRow(rows, read);
    var (withBuild, buildId) := Resolved(db, buildNumber, today);
    var fs := ReadRows(rows, read).value;
    CaseRunsOfAt(fs, withBuild.nextId + 1, withBuild.nextId);
    assert Imported(db, Some(rows), buildNumber, arch, today, read).0
        == AddedRun(withBuild, buildId, fs, buildNumber, arch, today).0;
  }
}
