/**
  Properties of the `auto_import_allure` model: the date a report gets,
  how a label is classified and a row is read, what one committed report
  writes, and what the whole command does to the database.
*/
module AutoImportProofs {
  import opened Wrappers
  import opened Text
  import PrefixRules
  import opened Models
  import opened AutoImport

  // ---------------------------------------------------------------- download

  /** `suites.csv` is preferred; `data_suites.csv` is used only when the first URL did not answer 200. */
  lemma DownloadPrefersSuitesCsv(uuid: string, fetch: string -> Response)
    ensures var first := fetch(ArtifactUrl(uuid, Layouts[0]));
      Answered(first) ==> Download(uuid, fetch) == Some((first.body, "suites.csv"))
    ensures var first, second := fetch(ArtifactUrl(uuid, Layouts[0])), fetch(ArtifactUrl(uuid, Layouts[1]));
      !Answered(first) && Answered(second) ==> Download(uuid, fetch) == Some((second.body, "data_suites.csv"))
    ensures var first, second := fetch(ArtifactUrl(uuid, Layouts[0])), fetch(ArtifactUrl(uuid, Layouts[1]));
      !Answered(first) && !Answered(second) ==> Artifact(uuid, fetch) == Empty
  {
    var r := Download(uuid, fetch);
    if r.Some? {
      var j :| 0 <= j < |Layouts| && Answered(fetch(ArtifactUrl(uuid, Layouts[j])))
        && r.value == (fetch(ArtifactUrl(uuid, Layouts[j])).body, Layouts[j].source)
        && forall i :: 0 <= i < j ==> !Answered(fetch(ArtifactUrl(uuid, Layouts[i])));
      assert j == 0 || j == 1;
    }
  }

  // ---------------------------------------------------------------- build date

  /**
    A dated report's date is the latest date among its rows: some row gives
    exactly that date and no row gives a later one.
  */
  lemma BuildDateIsLatestRowDate(content: Content, dateOf: Record -> Option<Date>, d: Date)
    requires BuildDate(content, dateOf) == Ok(Some(d))
    ensures content.Table?
    ensures exists k :: 0 <= k < |content.rows| && dateOf(content.rows[k]) == Some(d)
    ensures forall k, e :: 0 <= k < |content.rows| && dateOf(content.rows[k]) == Some(e) ==> e <= d
  {
    var ds := Dates(content.rows, dateOf);
    assert d == Max(ds) && d in ds;
    forall k, e | 0 <= k < |content.rows| && dateOf(content.rows[k]) == Some(e) ensures e <= d {
      assert e in ds;
    }
  }

  /** Reading the date raises exactly when the text is non-empty and no row gives a date. */
  lemma BuildDateRaisesIffNoRowDate(content: Content, dateOf: Record -> Option<Date>)
    ensures BuildDate(content, dateOf).Err? <==>
      content.Table? && forall k :: 0 <= k < |content.rows| ==> dateOf(content.rows[k]).None?
  {
    if content.Table? {
      var rows := content.rows;
      var ds := Dates(rows, dateOf);
      assert forall k :: 0 <= k < |rows| && dateOf(rows[k]).Some? ==> dateOf(rows[k]).value in ds;
      if ds != [] {
        assert ds[0] in ds;
      }
    }
  }

  /** A row with a stop time is dated by it: its start time is never read. */
  lemma StopTimeWins(row: Record, parse: string -> Option<Date>, start: Option<string>)
    requires Truthy(row, "Stop Time")
    ensures RowDate(row["Start Time" := start], parse) == RowDate(row, parse)
  {
    var other := row["Start Time" := start];
    assert Get(other, "Stop Time") == Get(row, "Stop Time");
    assert FirstTruthy(other, TimeKeys) == Get(row, "Stop Time") == FirstTruthy(row, TimeKeys);
  }

  /** A time column holding "null" in any case gives no date, whatever the parser says. */
  lemma NullTimeGivesNoDate(row: Record, parse: string -> Option<Date>)
    requires FirstTruthy(row, TimeKeys).Some? && Lower(FirstTruthy(row, TimeKeys).value) == "null"
    ensures RowDate(row, parse) == None
  {
  }

  // ---------------------------------------------------------------- classification

  /** The classification ignores the case of the label. */
  lemma TypeAndArchIgnoresCase(name: string)
    ensures TypeAndArch(Lower(name)) == TypeAndArch(name)
    ensures TypeAndArch(Upper(name)) == TypeAndArch(name)
  {
    CaseMappingForgetsEarlierOne(name);
    CaseMappingIsIdempotent(name);
  }

  /** No prefix of the command's table starts another. */
  lemma CommandRulesExclusive()
    ensures PrefixRules.Exclusive(CommandRules)
  {
    forall i, j | 0 <= i < |CommandRules| && 0 <= j < |CommandRules| && i != j
      ensures !StartsWith(CommandRules[j].prefix, CommandRules[i].prefix)
    {
      var p, q := CommandRules[i].prefix, CommandRules[j].prefix;
      assert p[4] != q[4] || p[8] != q[8] || (|p| > 10 && p[10] != q[10]);
    }
  }

  /**
    The command's prefixes exclude one another, so a label whose upper-cased
    form starts with a rule's prefix gets that rule's build type and
    architecture, whatever follows the prefix and wherever the rule sits in
    the table.
  */
  lemma TypeAndArchByPrefix(name: string, k: nat)
    requires k < |CommandRules| && StartsWith(Upper(name), CommandRules[k].prefix)
    ensures TypeAndArch(name) == (CommandRules[k].category, CommandRules[k].category)
  {
    CommandRulesExclusive();
    PrefixRules.ExclusiveRuleDecides(CommandRules, Upper(name), "Other", k);
  }

  /** A label that does not start with "SMK-", in any case, is "Other". */
  lemma TypeAndArchOther(name: string)
    requires !StartsWith(Upper(name), "SMK-")
    ensures TypeAndArch(name) == ("Other", "Other")
  {
    forall k | 0 <= k < |CommandRules| ensures !StartsWith(Upper(name), CommandRules[k].prefix) {
      assert CommandRules[k].prefix[..4] == "SMK-";
    }
  }

  // ---------------------------------------------------------------- rows

  /** The stored status text reads back as the same outcome. */
  lemma StatusTextRoundTrip(o: Outcome)
    ensures Bucket(StatusText(o)) == o
    ensures 0 < |StatusText(o)| <= MaxStatusLength
  {
  }

  /** Distinct outcomes are stored as distinct texts. */
  lemma StatusTextInjective(a: Outcome, b: Outcome)
    ensures StatusText(a) == StatusText(b) <==> a == b
  {
  }

  /** A row without a status column is recorded as skipped. */
  lemma MissingStatusIsSkipped(row: Record)
    requires !Truthy(row, "Status") && !Truthy(row, "STATUS")
    ensures StatusOf(row) == Skipped
  {
    assert FirstTruthy(row, ["Status", "STATUS"]) == None;
    assert Lower("skipped") == "skipped";
  }

  /** The status is read case-insensitively: "PASSED", "Pass", "BROKEN" are buckets like their lower-case forms. */
  lemma StatusIgnoresCase(row: Record, s: string)
    requires Truthy(row, "Status") && Get(row, "Status") == Some(s)
    ensures StatusOf(row) == Bucket(Lower(s))
  {
  }

  /** A row without a name column is recorded under "unknown". */
  lemma UnnamedRowIsUnknown(row: Record)
    requires forall k :: 0 <= k < |NameKeys| ==> !Truthy(row, NameKeys[k])
    ensures TestName(row) == "unknown"
  {
    assert FirstTruthy(row, NameKeys) == None;
    StripKeepsTrimmed("unknown");
    assert !AllSpace("unknown") by { assert !IsSpace("unknown"[0]); }
    assert Take("unknown", NameLimit) == "unknown";
  }

  /** Every row falls in exactly one of the three counters. */
  lemma {:induction false} CountsCoverEveryRow(rows: seq<Record>, reader: Reader)
    ensures Count(rows, reader, Passed) + Count(rows, reader, Failed) + Count(rows, reader, Skipped) == |rows|
  {
    if rows != [] {
      CountsCoverEveryRow(rows[..|rows| - 1], reader);
    }
  }

  /** One TestCaseRun is created per row. */
  lemma {:induction false} CaseRunsLength(rows: seq<Record>, reader: Reader, firstId: nat, runId: nat, date: Date, arch: string)
    ensures |CaseRuns(rows, reader, firstId, runId, date, arch)| == |rows|
  {
    if rows != [] {
      CaseRunsLength(rows[..|rows| - 1], reader, firstId, runId, date, arch);
    }
  }

  /** Row k of the text becomes the k-th created TestCaseRun, with id `firstId + k`. */
  lemma {:induction false} CaseRunsAt(rows: seq<Record>, reader: Reader, firstId: nat, runId: nat, date: Date, arch: string)
    ensures |CaseRuns(rows, reader, firstId, runId, date, arch)| == |rows|
    ensures forall k :: 0 <= k < |rows| ==>
      CaseRuns(rows, reader, firstId, runId, date, arch)[k] == CaseRun(rows[k], reader, firstId + k, runId, date, arch)
  {
    CaseRunsLength(rows, reader, firstId, runId, date, arch);
    if rows != [] {
      var init := rows[..|rows| - 1];
      CaseRunsAt(init, reader, firstId, runId, date, arch);
      assert forall k :: 0 <= k < |init| ==> init[k] == rows[k];
    }
  }

  // ---------------------------------------------------------------- one committed report

  /** Among the created TestCaseRuns, those with a status's text are exactly the rows counted under it. */
  lemma {:induction false} TallyOfCaseRuns(rows: seq<Record>, reader: Reader, firstId: nat, runId: nat, date: Date,
                                           arch: string, o: Outcome)
    ensures Tally(CaseRuns(rows, reader, firstId, runId, date, arch), runId, StatusText(o)) == Count(rows, reader, o)
  {
    if rows != [] {
      var init := rows[..|rows| - 1];
      var cs := CaseRuns(rows, reader, firstId, runId, date, arch);
      assert cs[..|cs| - 1] == CaseRuns(init, reader, firstId, runId, date, arch);
      TallyOfCaseRuns(init, reader, firstId, runId, date, arch, o);
      StatusTextInjective(reader.outcomeOf(rows[|rows| - 1]), o);
    }
  }

  /** Every case run created for one report belongs to its run and has a fresh id. */
  lemma CaseRunsOwnedAndFresh(rows: seq<Record>, reader: Reader, firstId: nat, runId: nat, date: Date, arch: string)
    ensures var cs := CaseRuns(rows, reader, firstId, runId, date, arch);
      && (forall c :: c in cs ==> c.runId == runId && firstId <= c.id < firstId + |rows|)
      && DistinctBy(cs, CaseKey)
  {
    CaseRunsAt(rows, reader, firstId, runId, date, arch);
  }

  /** The case runs a committed report adds after the rows already in the database. */
  function AddedCases(db: Db, rows: seq<Record>, reader: Reader, date: Option<Date>, arch: string): seq<TestCaseRun>
    requires rows != [] ==> date.Some?
  {
    if rows == [] then [] else CaseRuns(rows, reader, db.nextId + 2, db.nextId + 1, date.value, arch)
  }

  /** What a committed report appends to each table. */
  lemma CommittedAppends(db: Db, uuid: string, buildLabel: string, rows: seq<Record>, reader: Reader,
                         date: Option<Date>, buildType: string, arch: string)
    requires rows != [] ==> date.Some?
    ensures var after := Committed(db, uuid, buildLabel, rows, reader, date, buildType, arch);
      var p, f, s := Count(rows, reader, Passed), Count(rows, reader, Failed), Count(rows, reader, Skipped);
      && after.builds == db.builds + [Build(db.nextId, Take(buildLabel, 200), date, Some(uuid), buildType)]
      && after.runs == db.runs + [TestRun(db.nextId + 1, db.nextId, arch, date, ReportUrl(uuid), p + f + s, p, f, s)]
      && after.cases == db.cases + AddedCases(db, rows, reader, date, arch)
      && after.nextId == db.nextId + 2 + |rows|
  {
  }

  /**
    The TestRun of a committed report agrees with its case runs: each
    counter is the number of its case runs with that status, and the total
    is the number of rows.
  */
  lemma CommittedRunMatchesItsCases(db: Db, uuid: string, buildLabel: string, rows: seq<Record>, reader: Reader,
                                    date: Option<Date>, buildType: string, arch: string)
    requires WellFormed(db) && (rows != [] ==> date.Some?)
    ensures var after := Committed(db, uuid, buildLabel, rows, reader, date, buildType, arch);
      var run := after.runs[|db.runs|];
      && run.id == db.nextId + 1 && run.buildId == db.nextId
      && after.builds[|db.builds|].uuid == Some(uuid)
      && run.passed == Tally(after.cases, run.id, "passed")
      && run.failed == Tally(after.cases, run.id, "failed")
      && run.skipped == Tally(after.cases, run.id, "skipped")
      && run.total == |rows|
  {
    var runId := db.nextId + 1;
    var added := AddedCases(db, rows, reader, date, arch);
    CommittedAppends(db, uuid, buildLabel, rows, reader, date, buildType, arch);
    CountsCoverEveryRow(rows, reader);
    KeysBelowNextId(db);
    AddedCasesTally(db, rows, reader, date, arch, Passed);
    TallyBehindOlderRuns(db.cases, added, runId, "passed");
    AddedCasesTally(db, rows, reader, date, arch, Failed);
    TallyBehindOlderRuns(db.cases, added, runId, "failed");
    AddedCasesTally(db, rows, reader, date, arch, Skipped);
    TallyBehindOlderRuns(db.cases, added, runId, "skipped");
  }

  /** The new run's case runs with one outcome number that outcome's rows. */
  lemma AddedCasesTally(db: Db, rows: seq<Record>, reader: Reader, date: Option<Date>, arch: string, o: Outcome)
    requires rows != [] ==> date.Some?
    ensures Tally(AddedCases(db, rows, reader, date, arch), db.nextId + 1, StatusText(o)) == Count(rows, reader, o)
  {
    if rows != [] {
      TallyOfCaseRuns(rows, reader, db.nextId + 2, db.nextId + 1, date.value, arch, o);
    }
  }

  /** Case runs of older runs add nothing to a new run's tally. */
  lemma TallyBehindOlderRuns(cases: seq<TestCaseRun>, added: seq<TestCaseRun>, runId: nat, status: string)
    requires forall c :: c in cases ==> c.runId < runId
    ensures Tally(cases + added, runId, status) == Tally(added, runId, status)
  {
    TallyOfOtherRuns(cases, runId, status);
    TallyAppend(cases, added, runId, status);
  }

  /** Two duplicate-free sequences whose keys do not meet stay duplicate-free when joined. */
  lemma DistinctAppend<T, K>(a: seq<T>, b: seq<T>, key: T -> Option<K>)
    requires DistinctBy(a, key) && DistinctBy(b, key)
    requires forall x, y :: x in a && y in b && key(x).Some? ==> key(x) != key(y)
    ensures DistinctBy(a + b, key)
  {
    var ab := a + b;
    forall i, j | 0 <= i < j < |ab| && key(ab[i]).Some? ensures key(ab[i]) != key(ab[j]) {
      if j < |a| {
        assert ab[i] == a[i] && ab[j] == a[j];
      } else if i < |a| {
        assert ab[i] in a && ab[j] in b;
      } else {
        assert ab[i] == b[i - |a|] && ab[j] == b[j - |a|];
      }
    }
  }

  /**
    Committing a report whose uuid is not yet recorded keeps the database
    well formed: fresh ids, a unique uuid, foreign keys that resolve, and
    counters that add up.
  */
  lemma CommittedKeepsWellFormed(db: Db, uuid: string, buildLabel: string, rows: seq<Record>, reader: Reader,
                                 date: Option<Date>, buildType: string, arch: string)
    requires WellFormed(db) && !HasUuid(db, uuid) && (rows != [] ==> date.Some?)
    ensures WellFormed(Committed(db, uuid, buildLabel, rows, reader, date, buildType, arch))
    ensures CountersAddUp(db) ==> CountersAddUp(Committed(db, uuid, buildLabel, rows, reader, date, buildType, arch))
  {
    var after := Committed(db, uuid, buildLabel, rows, reader, date, buildType, arch);
    CommittedAppends(db, uuid, buildLabel, rows, reader, date, buildType, arch);
    var added := AddedCases(db, rows, reader, date, arch);
    assert DistinctBy(added, CaseKey)
      && forall c :: c in added ==> c.runId == db.nextId + 1 && db.nextId + 2 <= c.id < after.nextId by {
      if rows != [] {
        CaseRunsOwnedAndFresh(rows, reader, db.nextId + 2, db.nextId + 1, date.value, arch);
      }
    }
    AppendKeepsWellFormed(db, after.builds[|db.builds|], after.runs[|db.runs|], added, after.nextId);
  }

  /**
    Appending one new Build, one TestRun under it and case runs under that
    run, all with fresh ids, keeps the database well formed.
  */
  lemma AppendKeepsWellFormed(db: Db, b: Build, t: TestRun, added: seq<TestCaseRun>, nextId: nat)
    requires WellFormed(db)
    requires b.id == db.nextId && t.id == db.nextId + 1 && t.buildId == b.id && db.nextId + 2 <= nextId
    requires b.uuid.Some? ==> !HasUuid(db, b.uuid.value)
    requires forall c :: c in added ==> c.runId == t.id && db.nextId + 2 <= c.id < nextId
    requires DistinctBy(added, CaseKey)
    ensures WellFormed(Db(db.builds + [b], db.runs + [t], db.cases + added, nextId))
  {
    var after := Db(db.builds + [b], db.runs + [t], db.cases + added, nextId);
    assert BuildIds(after.builds) == BuildIds(db.builds) + {b.id};
    assert RunIds(after.runs) == RunIds(db.runs) + {t.id};
    DistinctAppend(db.builds, [b], BuildKey);
    DistinctAppend(db.builds, [b], UuidKey);
    DistinctAppend(db.runs, [t], RunKey);
    DistinctAppend(db.cases, added, CaseKey);
  }

  // ---------------------------------------------------------------- one report, the loop, the command

  /** The `NameError` of the date depends only on the entry and the environment, never on the database. */
  predicate Raises(rep: Record, env: Env) {
    UuidOf(rep).Some? && BuildDate(Artifact(UuidOf(rep).value, env.fetch), DateOfRow(env.parse)).Err?
  }

  /** An entry the command stores when its uuid is new: a uuid, a non-empty CSV text, and a date. */
  predicate Storable(rep: Record, env: Env) {
    UuidOf(rep).Some? && !Raises(rep, env) && Artifact(UuidOf(rep).value, env.fetch).Table?
  }

  /** The schema's invariants, and counters that add up. */
  predicate Consistent(db: Db) {
    WellFormed(db) && CountersAddUp(db)
  }

  lemma StepRaisesExactlyWhenDateRaises(st: Progress, rep: Record, env: Env)
    ensures Step(st, rep, env).Err? <==> Raises(rep, env)
    ensures Raises(rep, env) ==> Step(st, rep, env) == Err(UndefinedNameNull(UuidOf(rep).value))
  {
  }

  /** An entry without a uuid is passed over: counted in neither counter, nothing written. */
  lemma EntryWithoutUuidIsDropped(st: Progress, rep: Record, env: Env)
    requires !Truthy(rep, "uuid")
    ensures Step(st, rep, env) == Ok(st)
  {
  }

  /** An entry whose uuid is recorded is counted as skipped and writes nothing, whatever its CSV holds. */
  lemma RecordedReportIsSkipped(st: Progress, rep: Record, env: Env)
    requires UuidOf(rep).Some? && HasUuid(st.db, UuidOf(rep).value) && !Raises(rep, env)
    ensures Step(st, rep, env) == Ok(st.(skipped := st.skipped + 1))
  {
    var uuid := UuidOf(rep).value;
    var content := Artifact(uuid, env.fetch);
    var date := BuildDate(content, DateOfRow(env.parse));
    assert date.Ok?;
    assert Step(st, rep, env) == Ok(Admit(st, uuid, LabelOf(rep), content, date.value, env.dryRun));
  }

  /** A committed report records its uuid and adds one Build, one TestRun and one TestCaseRun per row. */
  lemma CommittedRecordsReport(db: Db, uuid: string, buildLabel: string, rows: seq<Record>, reader: Reader,
                               date: Option<Date>, buildType: string, arch: string)
    requires rows != [] ==> date.Some?
    ensures var after := Committed(db, uuid, buildLabel, rows, reader, date, buildType, arch);
      && HasUuid(after, uuid)
      && |after.builds| == |db.builds| + 1 && |after.runs| == |db.runs| + 1
      && |after.cases| == |db.cases| + |rows|
  {
    var after := Committed(db, uuid, buildLabel, rows, reader, date, buildType, arch);
    CommittedAppends(db, uuid, buildLabel, rows, reader, date, buildType, arch);
    if rows != [] {
      CaseRunsLength(rows, reader, db.nextId + 2, db.nextId + 1, date.value, arch);
    }
    assert after.builds[|db.builds|] in after.builds;
  }

  /**
    A new entry with a non-empty, dated CSV text is committed and counted
    as imported, and binds the counters for the entries after it.
  */
  lemma NewReportIsStored(st: Progress, uuid: string, buildLabel: string, content: Content, date: Option<Date>)
    requires content.Table? && content.rows != [] && date.Some? && !HasUuid(st.db, uuid)
    ensures var next := Admit(st, uuid, buildLabel, content, date, false);
      && HasUuid(next.db, uuid)
      && |next.db.cases| == |st.db.cases| + |content.rows|
      && next.countersBound && next.imported == st.imported + 1 && next.skipped == st.skipped
  {
    var kind := TypeAndArch(buildLabel);
    CommittedRecordsReport(st.db, uuid, buildLabel, content.rows, Suites, date, kind.0, kind.1);
  }

  /**
    A new entry with no CSV text, met before any entry bound the counters,
    is counted as imported but not stored: reading the unbound counters
    raises inside the atomic block, which is rolled back.
  */
  lemma EmptyReportBeforeCountersIsLost(st: Progress, rep: Record, env: Env)
    requires UuidOf(rep).Some? && Artifact(UuidOf(rep).value, env.fetch) == Empty
    requires !HasUuid(st.db, UuidOf(rep).value) && !env.dryRun && !st.countersBound
    ensures Step(st, rep, env) == Ok(st.(imported := st.imported + 1))
    ensures !HasUuid(Step(st, rep, env).value.db, UuidOf(rep).value)
  {
  }

  /** The same entry met after the counters were bound is stored, with a TestRun of zero tests. */
  lemma EmptyReportAfterCountersIsStored(st: Progress, rep: Record, env: Env)
    requires UuidOf(rep).Some? && Artifact(UuidOf(rep).value, env.fetch) == Empty
    requires !HasUuid(st.db, UuidOf(rep).value) && !env.dryRun && st.countersBound
    ensures Step(st, rep, env).Ok?
    ensures var after := Step(st, rep, env).value.db;
      && HasUuid(after, UuidOf(rep).value)
      && after.runs[|st.db.runs|].total == 0
      && after.cases == st.db.cases
  {
    var uuid := UuidOf(rep).value;
    var kind := TypeAndArch(LabelOf(rep));
    CommittedAppends(st.db, uuid, LabelOf(rep), [], Suites, None, kind.0, kind.1);
    var after := Step(st, rep, env).value.db;
    assert after.builds[|st.db.builds|] in after.builds;
  }

  lemma AdmitKeepsConsistent(st: Progress, uuid: string, buildLabel: string, content: Content, date: Option<Date>,
                             dryRun: bool)
    requires Consistent(st.db) && (content.Table? ==> content.rows != [] && date.Some?)
    ensures Consistent(Admit(st, uuid, buildLabel, content, date, dryRun).db)
  {
    if !HasUuid(st.db, uuid) && !dryRun && (st.countersBound || content.Table?) {
      var kind := TypeAndArch(buildLabel);
      CommittedKeepsWellFormed(st.db, uuid, buildLabel, RowsOf(content), Suites, date, kind.0, kind.1);
    }
  }

  lemma {:induction false} RunKeepsConsistent(st: Progress, reps: seq<Record>, env: Env)
    requires Consistent(st.db)
    ensures Consistent(Run(st, reps, env).0.db)
    decreases |reps|
  {
    if reps != [] {
      var r := Step(st, reps[0], env);
      if r.Ok? {
        var uuid := UuidOf(reps[0]);
        if uuid.Some? {
          var content := Artifact(uuid.value, env.fetch);
          AdmitKeepsConsistent(st, uuid.value, LabelOf(reps[0]), content,
                               BuildDate(content, DateOfRow(env.parse)).value, env.dryRun);
        }
        RunKeepsConsistent(r.value, reps[1..], env);
      }
    }
  }

  /** The command keeps the schema's invariants and leaves every TestRun's counters adding up. */
  lemma CommandKeepsConsistent(db: Db, resp: CatalogResponse, limit: int, env: Env)
    requires Consistent(db)
    ensures Consistent(Command(db, resp, limit, env).0)
  {
    if Reports(resp).Some? {
      RunKeepsConsistent(Progress(db, false, 0, 0), Limited(Reports(resp).value, limit), env);
    }
  }

  lemma {:induction false} DryRunKeepsDb(st: Progress, reps: seq<Record>, env: Env)
    requires env.dryRun
    ensures Run(st, reps, env).0.db == st.db
    decreases |reps|
  {
    if reps != [] && Step(st, reps[0], env).Ok? {
      DryRunKeepsDb(Step(st, reps[0], env).value, reps[1..], env);
    }
  }

  /** `--dry-run` writes nothing. */
  lemma DryRunWritesNothing(db: Db, resp: CatalogResponse, limit: int, env: Env)
    requires env.dryRun
    ensures Command(db, resp, limit, env).0 == db
  {
    if Reports(resp).Some? {
      DryRunKeepsDb(Progress(db, false, 0, 0), Limited(Reports(resp).value, limit), env);
    }
  }

  /** An undated first entry stops the command before anything is written. */
  lemma UndatedFirstReportStopsCommand(db: Db, resp: CatalogResponse, limit: int, env: Env)
    requires Reports(resp).Some? && Limited(Reports(resp).value, limit) != []
    requires Raises(Limited(Reports(resp).value, limit)[0], env)
    ensures Command(db, resp, limit, env)
         == (db, Err(UndefinedNameNull(UuidOf(Limited(Reports(resp).value, limit)[0]).value)))
  {
  }

  // ---------------------------------------------------------------- running the command twice

  /** Every storable entry before the first one that raises is already recorded in `db`. */
  predicate Settled(db: Db, reps: seq<Record>, env: Env)
    decreases |reps|
  {
    || reps == []
    || Raises(reps[0], env)
    || ((Storable(reps[0], env) ==> HasUuid(db, UuidOf(reps[0]).value)) && Settled(db, reps[1..], env))
  }

  lemma AdmitKeepsUuids(st: Progress, uuid: string, buildLabel: string, content: Content, date: Option<Date>,
                        dryRun: bool, u: string)
    requires (content.Table? ==> content.rows != [] && date.Some?) && HasUuid(st.db, u)
    ensures HasUuid(Admit(st, uuid, buildLabel, content, date, dryRun).db, u)
  {
    if !HasUuid(st.db, uuid) && !dryRun && (st.countersBound || content.Table?) {
      var kind := TypeAndArch(buildLabel);
      CommittedAppends(st.db, uuid, buildLabel, RowsOf(content), Suites, date, kind.0, kind.1);
      var b :| b in st.db.builds && b.uuid == Some(u);
      assert b in Admit(st, uuid, buildLabel, content, date, dryRun).db.builds;
    }
  }

  /** The database only grows: a recorded uuid stays recorded for the rest of the loop. */
  lemma {:induction false} RunKeepsUuids(st: Progress, reps: seq<Record>, env: Env, u: string)
    requires HasUuid(st.db, u)
    ensures HasUuid(Run(st, reps, env).0.db, u)
    decreases |reps|
  {
    if reps != [] && Step(st, reps[0], env).Ok? {
      var uuid := UuidOf(reps[0]);
      if uuid.Some? {
        var content := Artifact(uuid.value, env.fetch);
        AdmitKeepsUuids(st, uuid.value, LabelOf(reps[0]), content,
                        BuildDate(content, DateOfRow(env.parse)).value, env.dryRun, u);
      }
      RunKeepsUuids(Step(st, reps[0], env).value, reps[1..], env, u);
    }
  }

  /** After the loop, every storable entry it reached is recorded. */
  lemma {:induction false} RunSettles(st: Progress, reps: seq<Record>, env: Env)
    requires !env.dryRun
    ensures Settled(Run(st, reps, env).0.db, reps, env)
    decreases |reps|
  {
    if reps != [] && !Raises(reps[0], env) {
      var next := Step(st, reps[0], env).value;
      var last := Run(st, reps, env).0;
      assert last == Run(next, reps[1..], env).0;
      RunSettles(next, reps[1..], env);
      if Storable(reps[0], env) {
        var uuid := UuidOf(reps[0]).value;
        var content := Artifact(uuid, env.fetch);
        var date := BuildDate(content, DateOfRow(env.parse)).value;
        if !HasUuid(st.db, uuid) {
          NewReportIsStored(st, uuid, LabelOf(reps[0]), content, date);
        }
        RunKeepsUuids(next, reps[1..], env, uuid);
      }
    }
  }

  /** Before any counters are bound, an entry whose CSV text would be stored only if new leaves a settled database alone. */
  lemma AdmitOnSettledKeepsDb(st: Progress, uuid: string, buildLabel: string, content: Content, date: Option<Date>,
                              dryRun: bool)
    requires (content.Table? ==> content.rows != [] && date.Some? && HasUuid(st.db, uuid)) && !st.countersBound
    ensures Admit(st, uuid, buildLabel, content, date, dryRun).db == st.db
    ensures !Admit(st, uuid, buildLabel, content, date, dryRun).countersBound
  {
  }

  lemma {:induction false} SettledRunKeepsDb(st: Progress, reps: seq<Record>, env: Env)
    requires Settled(st.db, reps, env) && !st.countersBound
    ensures Run(st, reps, env).0.db == st.db
    decreases |reps|
  {
    if reps != [] && !Raises(reps[0], env) {
      var uuid := UuidOf(reps[0]);
      if uuid.Some? {
        var content := Artifact(uuid.value, env.fetch);
        AdmitOnSettledKeepsDb(st, uuid.value, LabelOf(reps[0]), content,
                              BuildDate(content, DateOfRow(env.parse)).value, env.dryRun);
      }
      SettledRunKeepsDb(Step(st, reps[0], env).value, reps[1..], env);
    }
  }

  /**
    Running the command a second time with the same catalog and the same
    answers from the server writes nothing more.
  */
  lemma CommandIsIdempotent(db: Db, resp: CatalogResponse, limit: int, env: Env)
    ensures Command(Command(db, resp, limit, env).0, resp, limit, env).0 == Command(db, resp, limit, env).0
  {
    var once := Command(db, resp, limit, env).0;
    if env.dryRun {
      DryRunWritesNothing(db, resp, limit, env);
      DryRunWritesNothing(once, resp, limit, env);
    } else if Reports(resp).Some? {
      var reps := Limited(Reports(resp).value, limit);
      RunSettles(Progress(db, false, 0, 0), reps, env);
      SettledRunKeepsDb(Progress(once, false, 0, 0), reps, env);
    }
  }
}
