/**
  The `auto_import_allure` management command: fetch the report catalog,
  and for each report download its suites CSV, date it, classify it, and
  record it as one Build, one TestRun and one TestCaseRun per CSV row,
  skipping reports whose uuid is already recorded.

  The pure functions `Step`, `Run` and `Command` say what one report, a
  list of reports and the whole command do to the database and to the
  counters; the methods `Handle`, `ImportReport`, `GetBuildDate` and
  `DownloadCsv` are the command's code and are proved to do just that.
*/
module AutoImport {
  import opened Wrappers
  import opened Text
  import PrefixRules
  import opened Models

  /**
    A CSV row as `csv.DictReader` yields it, or a catalog entry as the JSON
    decoder yields it: field name to value, `None` where the reader fills
    in a missing trailing field or the JSON holds `null`.
  */
  type Record = map<string, Option<string>>

  /** `d.get(k)` */
  function Get(d: Record, k: string): Option<string> {
    if k in d then d[k] else None
  }

  /** `d.get(k)` is a non-empty string. */
  predicate Truthy(d: Record, k: string) {
    Get(d, k).Some? && Get(d, k).value != ""
  }

  /** `d.get(k1) or d.get(k2) or ...`, `None` when every alternative is falsy. */
  function FirstTruthy(d: Record, keys: seq<string>): (r: Option<string>)
    ensures r.None? <==> forall i :: 0 <= i < |keys| ==> !Truthy(d, keys[i])
    ensures r.Some? ==> exists i :: 0 <= i < |keys| && Truthy(d, keys[i]) && r == Get(d, keys[i])
                          && forall j :: 0 <= j < i ==> !Truthy(d, keys[j])
  {
    if keys == [] then None
    else if Truthy(d, keys[0]) then Get(d, keys[0])
    else
      var r := FirstTruthy(d, keys[1..]);
      assert r.Some? ==> exists i :: 1 <= i < |keys| && Truthy(d, keys[i]) && r == Get(d, keys[i])
                          && forall j :: 0 <= j < i ==> !Truthy(d, keys[j]) by {
        if r.Some? {
          var i :| 0 <= i < |keys[1..]| && Truthy(d, keys[1..][i]) && r == Get(d, keys[1..][i])
                   && forall j :: 0 <= j < i ==> !Truthy(d, keys[1..][j]);
          assert forall j :: 0 <= j < i + 1 ==> !Truthy(d, keys[j]) by {
            forall j | 0 <= j < i + 1 ensures !Truthy(d, keys[j]) {
              if j > 0 { assert keys[j] == keys[1..][j - 1]; }
            }
          }
        }
      }
      r
  }

  // ---------------------------------------------------------------- endpoints

  const BaseUrl: string := "http://10.177.140.34:8080"

  /** What `requests.get` gave for one URL: an exception, or a status code and the body. */
  datatype Response = Raised | Response(status: int, body: Content)

  /**
    The text of a suites CSV: the empty string, or a non-empty text that
    `csv.DictReader` reads as a header and the data rows below it.
  */
  datatype Content = Empty | Table(rows: seq<Record>)

  /** The two places a report's CSV can be, tried in this order, with the file name reported as the source. */
  datatype Layout = Layout(path: string, source: string)

  const Layouts: seq<Layout> := [Layout("/data/suites.csv", "suites.csv"), Layout("/data_suites.csv", "data_suites.csv")]

  function ArtifactUrl(uuid: string, layout: Layout): string {
    BaseUrl + "/allure/reports/" + uuid + layout.path
  }

  function ReportUrl(uuid: string): string {
    BaseUrl + "/allure/reports/" + uuid + "/"
  }

  predicate Answered(r: Response) {
    r.Response? && r.status == 200
  }

  /** The body and source of the first layout, from position `k` on, whose URL answered 200. */
  function DownloadFrom(uuid: string, fetch: string -> Response, k: nat): (r: Option<(Content, string)>)
    requires k <= |Layouts|
    decreases |Layouts| - k
    ensures r.None? <==> forall j :: k <= j < |Layouts| ==> !Answered(fetch(ArtifactUrl(uuid, Layouts[j])))
    ensures r.Some? ==> exists j :: (
      && k <= j < |Layouts| && Answered(fetch(ArtifactUrl(uuid, Layouts[j])))
      && r.value == (fetch(ArtifactUrl(uuid, Layouts[j])).body, Layouts[j].source)
      && forall i :: k <= i < j ==> !Answered(fetch(ArtifactUrl(uuid, Layouts[i]))))
  {
    if k == |Layouts| then None
    else
      var resp := fetch(ArtifactUrl(uuid, Layouts[k]));
      if Answered(resp) then Some((resp.body, Layouts[k].source))
      else DownloadFrom(uuid, fetch, k + 1)
  }

  function Download(uuid: string, fetch: string -> Response): Option<(Content, string)> {
    DownloadFrom(uuid, fetch, 0)
  }

  /** `download_csv`: try each layout in turn; an exception or a status other than 200 moves on. */
  method DownloadCsv(uuid: string, fetch: string -> Response) returns (r: Option<(Content, string)>)
    ensures r == Download(uuid, fetch)
  {
    for k := 0 to |Layouts|
      invariant DownloadFrom(uuid, fetch, k) == Download(uuid, fetch)
    {
      var resp := fetch(ArtifactUrl(uuid, Layouts[k]));
      if resp.Response? && resp.status == 200 {
        return Some((resp.body, Layouts[k].source));
      }
    }
    return None;
  }

  /** The CSV text after `if not csv_content: csv_content = ""`. */
  function Artifact(uuid: string, fetch: string -> Response): Content {
    match Download(uuid, fetch)
    case None => Empty
    case Some(found) => found.0
  }

  // ---------------------------------------------------------------- build date

  const TimeKeys: seq<string> := ["Stop Time", "STOP TIME", "Start Time", "START TIME"]

  /**
    The date one row contributes: its stop time, or else its start time,
    unless blank or "null" (any case) or rejected by the date parser.
  */
  function RowDate(row: Record, parse: string -> Option<Date>): Option<Date> {
    match FirstTruthy(row, TimeKeys)
    case None => None
    case Some(t) => if Strip(t) == "" || Lower(t) == "null" then None else parse(t)
  }

  /** `RowDate` with the parser fixed, as a function of the row. */
  function DateOfRow(parse: string -> Option<Date>): Record -> Option<Date> {
    row => RowDate(row, parse)
  }

  /** The `dates` list: the dates the rows contribute, in row order. */
  function Dates(rows: seq<Record>, dateOf: Record -> Option<Date>): (r: seq<Date>)
    ensures forall d :: d in r <==> exists k :: 0 <= k < |rows| && dateOf(rows[k]) == Some(d)
  {
    if rows == [] then []
    else
      var init := rows[..|rows| - 1];
      var r := Dates(init, dateOf) + (match dateOf(rows[|rows| - 1]) case Some(d) => [d] case None => []);
      assert forall k :: 0 <= k < |init| ==> init[k] == rows[k];
      r
  }

  /** Python's `max` of a non-empty list. */
  function Max(s: seq<Date>): (m: Date)
    requires s != []
    ensures m in s && forall d :: d in s ==> d <= m
  {
    if |s| == 1 then s[0]
    else
      var m := Max(s[1..]);
      assert forall d :: d in s ==> d == s[0] || d in s[1..];
      if s[0] < m then m else s[0]
  }

  /** The `NameError` raised by `Null` at the end of `get_build_date_from_csv`. */
  datatype DateError = UndefinedNull

  /**
    `get_build_date_from_csv`: no date for an empty text, otherwise the
    latest date over the rows; when no row gives a date the undefined name
    `Null` is evaluated and the call raises.
  */
  function BuildDate(content: Content, dateOf: Record -> Option<Date>): (r: Result<Option<Date>, DateError>)
    ensures content.Empty? ==> r == Ok(None)
    ensures content.Table? && r.Ok? ==> r.value.Some? && content.rows != []
  {
    match content
    case Empty => Ok(None)
    case Table(rows) =>
      var ds := Dates(rows, dateOf);
      if ds == [] then Err(UndefinedNull) else Ok(Some(Max(ds)))
  }

  /** `get_build_date_from_csv`, with the date of one row read by `dateOf`. */
  method GetBuildDate(content: Content, dateOf: Record -> Option<Date>) returns (r: Result<Option<Date>, DateError>)
    ensures r == BuildDate(content, dateOf)
  {
    if content.Empty? {
      return Ok(None);
    }
    var rows := content.rows;
    var dates: seq<Date> := [];
    for i := 0 to |rows|
      invariant dates == Dates(rows[..i], dateOf)
    {
      var d := dateOf(rows[i]);
      if d.Some? {
        dates := dates + [d.value];
      }
      assert rows[..i + 1][..i] == rows[..i];
    }
    assert rows[..|rows|] == rows;
    if dates == [] {
      return Err(UndefinedNull);
    }
    return Ok(Some(Max(dates)));
  }

  // ---------------------------------------------------------------- classification

  const CommandRules: seq<PrefixRules.Rule> := [
    PrefixRules.Rule("SMK-MOB-T17", "Mobile 17"),
    PrefixRules.Rule("SMK-MOB-T18", "Mobile 18"),
    PrefixRules.Rule("SMK-RUN18-", "ALSE 18"),
    PrefixRules.Rule("SMK-RUN17-", "ALSE 17"),
    PrefixRules.Rule("SMK-INIT18-", "Init18"),
    PrefixRules.Rule("SMK-BNCH-", "Benchmark")
  ]

  /** `get_type_and_arch`: build type and architecture of a report label; the two are always equal. */
  function TypeAndArch(name: string): (r: (string, string))
    ensures r.0 == r.1
    ensures r.0 in {"Mobile 17", "Mobile 18", "ALSE 18", "ALSE 17", "Init18", "Benchmark", "Other"}
  {
    var c := PrefixRules.Classify(CommandRules, Upper(name), "Other");
    (c, c)
  }

  // ---------------------------------------------------------------- rows

  datatype Outcome = Passed | Failed | Skipped

  /** The bucket of a lower-cased status. */
  function Bucket(status: string): Outcome {
    if status == "passed" || status == "pass" then Passed
    else if status == "failed" || status == "failure" || status == "broken" then Failed
    else Skipped
  }

  /** The status a row is recorded with: Status, else STATUS, else "skipped", lower-cased and bucketed. */
  function StatusOf(row: Record): Outcome {
    Bucket(Lower(FirstTruthy(row, ["Status", "STATUS"]).GetOr("skipped")))
  }

  /** The text stored in `TestCaseRun.status`. */
  function StatusText(o: Outcome): string {
    match o
    case Passed => "passed"
    case Failed => "failed"
    case Skipped => "skipped"
  }

  const NameKeys: seq<string> := ["Test Method", "Name", "TEST METHOD", "NAME"]
  const NameLimit: nat := 500

  /** The first truthy name column, else "unknown"; stripped, cut to 500 characters, "empty_name" if nothing is left. */
  function TestName(row: Record): (r: string)
    ensures 0 < |r| <= MaxTestNameLength
    ensures var v := FirstTruthy(row, NameKeys).GetOr("unknown");
      && (AllSpace(v) ==> r == "empty_name")
      && (!AllSpace(v) ==> r == Take(Strip(v), NameLimit))
  {
    var v := FirstTruthy(row, NameKeys).GetOr("unknown");
    var t := Strip(v);
    StripEmptyIffAllSpace(v);
    var n := Take(t, NameLimit);
    assert n == "" <==> t == "";
    if n == "" then "empty_name" else n
  }

  /**
    How a suites row is read: the name and the outcome of its test case.
    The command reads rows with `Suites`; the code that walks the rows and
    writes the database takes the reader as a value.
  */
  datatype Reader = Reader(nameOf: Record -> string, outcomeOf: Record -> Outcome)

  const Suites: Reader := Reader(TestName, StatusOf)

  /** How many rows have outcome `o`. */
  function Count(rows: seq<Record>, reader: Reader, o: Outcome): nat {
    if rows == [] then 0
    else Count(rows[..|rows| - 1], reader, o) + (if reader.outcomeOf(rows[|rows| - 1]) == o then 1 else 0)
  }

  /** The TestCaseRun created for one row. */
  function CaseRun(row: Record, reader: Reader, id: nat, runId: nat, date: Date, arch: string): TestCaseRun {
    TestCaseRun(id, runId, reader.nameOf(row), StatusText(reader.outcomeOf(row)), date, arch)
  }

  /** The TestCaseRuns created for `rows`, in row order, with consecutive ids from `firstId`. */
  function CaseRuns(rows: seq<Record>, reader: Reader, firstId: nat, runId: nat, date: Date, arch: string)
    : seq<TestCaseRun>
  {
    if rows == [] then []
    else CaseRuns(rows[..|rows| - 1], reader, firstId, runId, date, arch)
         + [CaseRun(rows[|rows| - 1], reader, firstId + |rows| - 1, runId, date, arch)]
  }

  function RowsOf(content: Content): seq<Record> {
    if content.Table? then content.rows else []
  }

  /**
    The database after the atomic block commits: the Build, then its
    TestRun with the tallied counters, then one TestCaseRun per row.
  */
  function Committed(db: Db, uuid: string, buildLabel: string, rows: seq<Record>, reader: Reader,
                     date: Option<Date>, buildType: string, arch: string): Db
    requires rows != [] ==> date.Some?
  {
    var buildId, runId := db.nextId, db.nextId + 1;
    var p, f, s := Count(rows, reader, Passed), Count(rows, reader, Failed), Count(rows, reader, Skipped);
    Db(db.builds + [Build(buildId, Take(buildLabel, 200), date, Some(uuid), buildType)],
       db.runs + [TestRun(runId, buildId, arch, date, ReportUrl(uuid), p + f + s, p, f, s)],
       db.cases + (if rows == [] then [] else CaseRuns(rows, reader, db.nextId + 2, runId, date.value, arch)),
       db.nextId + 2 + |rows|)
  }

  // ---------------------------------------------------------------- catalog and loop

  /** The catalog request: failed (exception or error status), a JSON list, or a JSON object with or without `items`. */
  datatype CatalogResponse = Unavailable | ListBody(entries: seq<Record>) | ObjectBody(items: Option<seq<Record>>)

  function Reports(resp: CatalogResponse): Option<seq<Record>> {
    match resp
    case Unavailable => None
    case ListBody(entries) => Some(entries)
    case ObjectBody(items) => Some(items.GetOr([]))
  }

  /** `reports[:limit or None]` */
  function Limited(reports: seq<Record>, limit: int): (r: seq<Record>)
    ensures r <= reports
    ensures limit == 0 ==> r == reports
    ensures limit > 0 ==> |r| == if limit < |reports| then limit else |reports|
    ensures limit < 0 ==> |r| == if -limit < |reports| then |reports| + limit else 0
  {
    if limit == 0 then reports
    else if limit > 0 then reports[..if limit < |reports| then limit else |reports|]
    else reports[..if -limit < |reports| then |reports| + limit else 0]
  }

  /** The entry's uuid when it is a non-empty string. */
  function UuidOf(rep: Record): Option<string> {
    if Truthy(rep, "uuid") then Get(rep, "uuid") else None
  }

  /** `rep.get('path') or rep.get('name') or 'unknown'` */
  function LabelOf(rep: Record): (r: string)
    ensures r != ""
    ensures Truthy(rep, "path") ==> Some(r) == Get(rep, "path")
    ensures !Truthy(rep, "path") && Truthy(rep, "name") ==> Some(r) == Get(rep, "name")
    ensures !Truthy(rep, "path") && !Truthy(rep, "name") ==> r == "unknown"
  {
    var keys := ["path", "name"];
    assert keys[0] == "path" && keys[1] == "name";
    FirstTruthy(rep, keys).GetOr("unknown")
  }

  /** Why the whole command stops: the catalog could not be read, or a report's date raised. */
  datatype RunError = CatalogUnavailable | UndefinedNameNull(uuid: string)

  datatype Env = Env(dryRun: bool, fetch: string -> Response, parse: string -> Option<Date>)

  /**
    The loop's state: the database, whether the locals `p`, `f`, `s` have
    been bound by an earlier report, and the two counters.
  */
  datatype Progress = Progress(db: Db, countersBound: bool, imported: nat, skipped: nat)

  /**
    The rest of the loop body once a report's CSV is read and dated:
    skipped when its uuid is recorded, only counted on a dry run, else
    imported.
  */
  function Admit(st: Progress, uuid: string, buildLabel: string, content: Content, date: Option<Date>,
                 dryRun: bool): Progress
    requires content.Table? ==> content.rows != [] && date.Some?
  {
    if HasUuid(st.db, uuid) then st.(skipped := st.skipped + 1)
    else if dryRun then st.(imported := st.imported + 1)
    else
      var bound := st.countersBound || content.Table?;
      var kind := TypeAndArch(buildLabel);
      var db := if bound then Committed(st.db, uuid, buildLabel, RowsOf(content), Suites, date, kind.0, kind.1)
                else st.db;
      Progress(db, bound, st.imported + 1, st.skipped)
  }

  /** One pass of the loop body for one catalog entry. */
  function Step(st: Progress, rep: Record, env: Env): Result<Progress, RunError> {
    match UuidOf(rep)
    case None => Ok(st)
    case Some(uuid) =>
      var content := Artifact(uuid, env.fetch);
      match BuildDate(content, DateOfRow(env.parse))
      case Err(_) => Err(UndefinedNameNull(uuid))
      case Ok(date) => Ok(Admit(st, uuid, LabelOf(rep), content, date, env.dryRun))
  }

  /** The loop over `reps`: the state it ends in, and the error that stopped it early, if any. */
  function Run(st: Progress, reps: seq<Record>, env: Env): (Progress, Option<RunError>)
    decreases |reps|
  {
    if reps == [] then (st, None)
    else match Step(st, reps[0], env)
      case Err(e) => (st, Some(e))
      case Ok(next) => Run(next, reps[1..], env)
  }

  datatype Summary = Summary(imported: nat, skipped: nat)

  /** The whole command: the database it leaves and the summary it prints, or the error it stops with. */
  function Command(db: Db, resp: CatalogResponse, limit: int, env: Env): (Db, Result<Summary, RunError>) {
    match Reports(resp)
    case None => (db, Err(CatalogUnavailable))
    case Some(reports) =>
      var (last, err) := Run(Progress(db, false, 0, 0), Limited(reports, limit), env);
      (last.db, if err.Some? then Err(err.value) else Ok(Summary(last.imported, last.skipped)))
  }

  // ---------------------------------------------------------------- the command's code

  lemma AppendAssoc<T>(a: seq<T>, b: seq<T>, c: seq<T>)
    ensures a + b + c == a + (b + c)
  {
  }

  lemma ReplaceLast<T>(s: seq<T>, x: T, y: T)
    ensures (s + [x])[|s| := y] == s + [y]
  {
  }

  /**
    The `for row in reader:` loop of the atomic block: one TestCaseRun per
    row, in row order, and the three counters.
  */
  method AddCaseRuns(store: Store, rows: seq<Record>, reader: Reader, runId: nat, date: Date, arch: string)
    returns (p: nat, f: nat, s: nat)
    requires store.Valid() && runId in RunIds(store.runs)
    modifies store
    ensures store.Valid()
    ensures store.State() == old(store.State()).(
      cases := old(store.cases) + CaseRuns(rows, reader, old(store.nextId), runId, date, arch),
      nextId := old(store.nextId) + |rows|)
    ensures p == Count(rows, reader, Passed) && f == Count(rows, reader, Failed) && s == Count(rows, reader, Skipped)
  {
    p, f, s := 0, 0, 0;
    for i := 0 to |rows|
      invariant store.Valid() && runId in RunIds(store.runs)
      invariant store.builds == old(store.builds) && store.runs == old(store.runs)
      invariant store.cases == old(store.cases) + CaseRuns(rows[..i], reader, old(store.nextId), runId, date, arch)
      invariant store.nextId == old(store.nextId) + i
      invariant p == Count(rows[..i], reader, Passed) && f == Count(rows[..i], reader, Failed)
        && s == Count(rows[..i], reader, Skipped)
    {
      p, f, s := AddCaseRun(store, rows, i, reader, runId, date, arch, p, f, s, old(store.cases), old(store.nextId));
    }
    assert rows[..|rows|] == rows;
  }

  /** The loop body of `AddCaseRuns` for `rows[i]`: tally its outcome, create its TestCaseRun. */
  method AddCaseRun(store: Store, rows: seq<Record>, i: nat, reader: Reader, runId: nat, date: Date, arch: string,
                    p: nat, f: nat, s: nat, ghost base: seq<TestCaseRun>, ghost firstId: nat)
    returns (p': nat, f': nat, s': nat)
    requires i < |rows| && store.Valid() && runId in RunIds(store.runs)
    requires store.cases == base + CaseRuns(rows[..i], reader, firstId, runId, date, arch)
    requires store.nextId == firstId + i
    requires p == Count(rows[..i], reader, Passed) && f == Count(rows[..i], reader, Failed)
    requires s == Count(rows[..i], reader, Skipped)
    modifies store
    ensures store.Valid()
    ensures store.builds == old(store.builds) && store.runs == old(store.runs)
    ensures store.cases == base + CaseRuns(rows[..i + 1], reader, firstId, runId, date, arch)
    ensures store.nextId == firstId + i + 1
    ensures p' == Count(rows[..i + 1], reader, Passed) && f' == Count(rows[..i + 1], reader, Failed)
    ensures s' == Count(rows[..i + 1], reader, Skipped)
  {
    var row := rows[i];
    var outcome := reader.outcomeOf(row);
    var name := reader.nameOf(row);
    p', f', s' := p, f, s;
    if outcome == Passed {
      p' := p + 1;
    } else if outcome == Failed {
      f' := f + 1;
    } else {
      s' := s + 1;
    }
    var _ := store.CreateTestCaseRun(runId, name, StatusText(outcome), date, Some(arch));
    ghost var created := CaseRun(row, reader, firstId + i, runId, date, arch);
    assert rows[..i + 1][..i] == rows[..i];
    AppendAssoc(base, CaseRuns(rows[..i], reader, firstId, runId, date, arch), [created]);
  }

  /**
    The `try: with transaction.atomic():` block for one new report. If the
    text is empty and no earlier report bound `p`, `f`, `s`, reading them
    raises after the Build and TestRun were created, and the block is
    rolled back.
  */
  method ImportReport(store: Store, uuid: string, buildLabel: string, content: Content, reader: Reader,
                      date: Option<Date>, buildType: string, arch: string, bound: bool)
    returns (nowBound: bool)
    requires store.Valid() && !HasUuid(store.State(), uuid)
    requires content.Table? ==> content.rows != [] && date.Some?
    modifies store
    ensures store.Valid()
    ensures nowBound == (bound || content.Table?)
    ensures store.State() == if nowBound then Committed(old(store.State()), uuid, buildLabel, RowsOf(content), reader, date, buildType, arch)
                             else old(store.State())
  {
    var snapshot := store.State();
    var created := store.CreateBuild(Take(buildLabel, 200), date, Some(uuid), Some(buildType));
    if created.None? {
      assert false;
    }
    var buildId := created.value;
    var runId := store.CreateTestRun(buildId, arch, date, ReportUrl(uuid));
    nowBound := bound;
    if content.Table? {
      nowBound := true;
      var p, f, s := AddCaseRuns(store, content.rows, reader, runId, date.value, arch);
      ghost var run := TestRun(runId, buildId, arch, date, ReportUrl(uuid), 0, 0, 0, 0);
      assert store.runs == snapshot.runs + [run];
      store.SaveCounters(|snapshot.runs|, p + f + s, p, f, s);
      ReplaceLast(snapshot.runs, run, run.(total := p + f + s, passed := p, failed := f, skipped := s));
    }
    if !nowBound {
      store.Rollback(snapshot);
    }
  }

  /**
    One pass of `handle`'s loop body for the catalog entry `rep`, with the
    loop's locals passed in and handed back; `err` is the exception that
    ends the command. Nothing is written when it is raised.
  */
  method ProcessReport(store: Store, rep: Record, env: Env, bound: bool, imported: nat, skipped: nat)
    returns (err: Option<RunError>, bound': bool, imported': nat, skipped': nat)
    requires store.Valid()
    modifies store
    ensures store.Valid()
    ensures err.Some? ==> store.State() == old(store.State())
    ensures Step(Progress(old(store.State()), bound, imported, skipped), rep, env)
         == if err.Some? then Err(err.value) else Ok(Progress(store.State(), bound', imported', skipped'))
  {
    err, bound', imported', skipped' := None, bound, imported, skipped;
    var uuid := UuidOf(rep);
    var buildLabel := LabelOf(rep);
    if uuid.None? {
      return;
    }
    var downloaded := DownloadCsv(uuid.value, env.fetch);
    var content := if downloaded.None? then Empty else downloaded.value.0;
    assert content == Artifact(uuid.value, env.fetch);
    var date := GetBuildDate(content, DateOfRow(env.parse));
    if date.Err? {
      err := Some(UndefinedNameNull(uuid.value));
      return;
    }
    bound', imported', skipped' := AdmitReport(store, uuid.value, buildLabel, content, date.value, env.dryRun,
                                               bound, imported, skipped);
  }

  /** The part of `handle`'s loop body after `get_build_date_from_csv`. */
  method AdmitReport(store: Store, uuid: string, buildLabel: string, content: Content, date: Option<Date>,
                     dryRun: bool, bound: bool, imported: nat, skipped: nat)
    returns (bound': bool, imported': nat, skipped': nat)
    requires store.Valid()
    requires content.Table? ==> content.rows != [] && date.Some?
    modifies store
    ensures store.Valid()
    ensures Progress(store.State(), bound', imported', skipped')
         == Admit(Progress(old(store.State()), bound, imported, skipped), uuid, buildLabel, content, date, dryRun)
  {
    bound', imported', skipped' := bound, imported, skipped;
    var kind := TypeAndArch(buildLabel);
    if HasUuid(store.State(), uuid) {
      skipped' := skipped + 1;
      return;
    }
    if dryRun {
      imported' := imported + 1;
      return;
    }
    bound' := ImportReport(store, uuid, buildLabel, content, Suites, date, kind.0, kind.1, bound);
    imported' := imported + 1;
  }

  /** `handle`: the catalog, then the loop over its first `limit` entries. */
  method Handle(store: Store, resp: CatalogResponse, dryRun: bool, limit: int,
                fetch: string -> Response, parse: string -> Option<Date>)
    returns (r: Result<Summary, RunError>)
    requires store.Valid()
    modifies store
    ensures store.Valid()
    ensures (store.State(), r) == Command(old(store.State()), resp, limit, Env(dryRun, fetch, parse))
  {
    var env := Env(dryRun, fetch, parse);
    var catalog := Reports(resp);
    if catalog.None? {
      return Err(CatalogUnavailable);
    }
    var todo := Limited(catalog.value, limit);
    var imported, skipped := 0, 0;
    var bound := false;
    for i := 0 to |todo|
      invariant store.Valid()
      invariant Run(Progress(store.State(), bound, imported, skipped), todo[i..], env)
             == Run(Progress(old(store.State()), false, 0, 0), todo, env)
    {
      assert todo[i..][0] == todo[i] && todo[i..][1..] == todo[i + 1..];
      var err;
      err, bound, imported, skipped := ProcessReport(store, todo[i], env, bound, imported, skipped);
      if err.Some? {
        return Err(err.value);
      }
    }
    return Ok(Summary(imported, skipped));
  }
}
