/**
  The three tables of reports/models.py and the database that holds them.

  A `Db` value is the content of the database: the rows of each table in
  insertion order and the next primary key to hand out. The class `Store`
  is the database as the importers see it through the ORM: every
  `objects.create`, `save`, queryset `update`, `delete` and transaction
  rollback is one of its methods.
*/
module Models {
  import opened Wrappers

  /** A calendar date, as a day number. */
  type Date = int

  const DefaultBuildType: string := "Other"
  const DefaultArchitecture: string := "Other"

  // Declared `max_length`s. The store does not enforce them (see README).
  const MaxBuildNumberLength: nat := 50
  const MaxUuidLength: nat := 50
  const MaxBuildTypeLength: nat := 59
  const MaxArchitectureLength: nat := 50
  const MaxTestNameLength: nat := 500
  const MaxStatusLength: nat := 20

  /** `created_at` (set from the clock) is not modelled. */
  datatype Build = Build(id: nat, buildNumber: string, date: Option<Date>, uuid: Option<string>, buildType: string)

  datatype TestRun = TestRun(
    id: nat, buildId: nat, architecture: string, runDate: Option<Date>, reportUrl: string,
    total: int, passed: int, failed: int, skipped: int)

  datatype TestCaseRun = TestCaseRun(
    id: nat, runId: nat, testName: string, status: string, executionDate: Date, architecture: string)

  datatype Db = Db(builds: seq<Build>, runs: seq<TestRun>, cases: seq<TestCaseRun>, nextId: nat)

  const EmptyDb: Db := Db([], [], [], 0)

  function BuildKey(b: Build): Option<nat> { Some(b.id) }
  function UuidKey(b: Build): Option<string> { b.uuid }
  function RunKey(r: TestRun): Option<nat> { Some(r.id) }
  function CaseKey(c: TestCaseRun): Option<nat> { Some(c.id) }

  /** No two rows carry the same non-null key. */
  predicate DistinctBy<T, K(==)>(s: seq<T>, key: T -> Option<K>) {
    forall i, j :: 0 <= i < j < |s| && key(s[i]).Some? ==> key(s[i]) != key(s[j])
  }

  function BuildIds(builds: seq<Build>): set<nat> {
    set b | b in builds :: b.id
  }

  function RunIds(runs: seq<TestRun>): set<nat> {
    set r | r in runs :: r.id
  }

  /** `Build.objects.filter(uuid=u).exists()` */
  predicate HasUuid(db: Db, u: string) {
    exists b :: b in db.builds && b.uuid == Some(u)
  }

  /**
    What the schema guarantees of every state of the database: primary keys
    are distinct and below the next key, `uuid` is unique among non-null
    values, and every foreign key names an existing row.
  */
  predicate WellFormed(db: Db) {
    && (forall b :: b in db.builds ==> b.id < db.nextId)
    && (forall r :: r in db.runs ==> r.id < db.nextId && r.buildId in BuildIds(db.builds))
    && (forall c :: c in db.cases ==> c.id < db.nextId && c.runId in RunIds(db.runs))
    && DistinctBy(db.builds, BuildKey)
    && DistinctBy(db.runs, RunKey)
    && DistinctBy(db.cases, CaseKey)
    && DistinctBy(db.builds, UuidKey)
  }

  /** Every TestRun's total is the sum of its three outcome counters. */
  predicate CountersAddUp(db: Db) {
    forall r :: r in db.runs ==> r.total == r.passed + r.failed + r.skipped
  }

  /** The rows of `s` that `keep` accepts, in order. */
  function Filter<T(!new)>(s: seq<T>, keep: T -> bool): (r: seq<T>)
    ensures |r| <= |s|
    ensures forall x :: x in r <==> x in s && keep(x)
  {
    if s == [] then []
    else Filter(s[..|s| - 1], keep) + (if keep(s[|s| - 1]) then [s[|s| - 1]] else [])
  }

  /** Filtering keeps order: the kept rows of `a + b` are those of `a` followed by those of `b`. */
  lemma {:induction false} FilterConcat<T(!new)>(a: seq<T>, b: seq<T>, keep: T -> bool)
    ensures Filter(a + b, keep) == Filter(a, keep) + Filter(b, keep)
  {
    if b == [] {
      assert a + b == a;
    } else {
      var init, last := b[..|b| - 1], b[|b| - 1];
      assert (a + b)[..|a + b| - 1] == a + init;
      assert (a + b)[|a + b| - 1] == last;
      FilterConcat(a, init, keep);
    }
  }

  lemma {:induction false} FilterKeepsDistinct<T(!new), K>(s: seq<T>, keep: T -> bool, key: T -> Option<K>)
    requires DistinctBy(s, key)
    ensures DistinctBy(Filter(s, keep), key)
  {
    if s != [] {
      var init, last := s[..|s| - 1], s[|s| - 1];
      assert DistinctBy(init, key) by {
        forall i, j | 0 <= i < j < |init| && key(init[i]).Some? ensures key(init[i]) != key(init[j]) {
          assert init[i] == s[i] && init[j] == s[j];
        }
      }
      FilterKeepsDistinct(init, keep, key);
      var f := Filter(init, keep);
      if keep(last) {
        forall i | 0 <= i < |f| && key(f[i]).Some? ensures key(f[i]) != key(last) {
          assert f[i] in init;
          var m :| 0 <= m < |init| && init[m] == f[i];
          assert s[m] == f[i];
        }
        assert Filter(s, keep) == f + [last];
      }
    }
  }

  /**
    `Build.delete()`: `on_delete=CASCADE` on TestRun.build and on
    TestCaseRun.test_run removes the build's runs and their case runs.
  */
  function Cascade(db: Db, buildId: nat): (r: Db)
    ensures r.nextId == db.nextId
  {
    var doomed := set t | t in db.runs && t.buildId == buildId :: t.id;
    Db(Filter(db.builds, (b: Build) => b.id != buildId),
       Filter(db.runs, (t: TestRun) => t.buildId != buildId),
       Filter(db.cases, (c: TestCaseRun) => c.runId !in doomed),
       db.nextId)
  }

  /** Deleting a build leaves no row that belonged to it and keeps every other row. */
  lemma CascadeRemovesExactlyTheOwnedRows(db: Db, buildId: nat)
    requires WellFormed(db)
    ensures var r := Cascade(db, buildId);
      && (forall b :: b in r.builds <==> b in db.builds && b.id != buildId)
      && (forall t :: t in r.runs <==> t in db.runs && t.buildId != buildId)
      && (forall c :: c in r.cases <==>
            c in db.cases && !(exists t :: t in db.runs && t.id == c.runId && t.buildId == buildId))
  {
    var r := Cascade(db, buildId);
    forall c ensures c in r.cases <==>
        c in db.cases && !(exists t :: t in db.runs && t.id == c.runId && t.buildId == buildId)
    {
      if c in db.cases && (exists t :: t in db.runs && t.id == c.runId && t.buildId == buildId) {
        var t :| t in db.runs && t.id == c.runId && t.buildId == buildId;
        assert c.runId in (set t | t in db.runs && t.buildId == buildId :: t.id);
      }
    }
  }

  lemma {:induction false} CascadeKeepsWellFormed(db: Db, buildId: nat)
    requires WellFormed(db)
    ensures WellFormed(Cascade(db, buildId))
  {
    var r := Cascade(db, buildId);
    var doomed := set t | t in db.runs && t.buildId == buildId :: t.id;
    FilterKeepsDistinct(db.builds, (b: Build) => b.id != buildId, BuildKey);
    FilterKeepsDistinct(db.builds, (b: Build) => b.id != buildId, UuidKey);
    FilterKeepsDistinct(db.runs, (t: TestRun) => t.buildId != buildId, RunKey);
    FilterKeepsDistinct(db.cases, (c: TestCaseRun) => c.runId !in doomed, CaseKey);
    forall t | t in r.runs ensures t.buildId in BuildIds(r.builds) {
      var b :| b in db.builds && b.id == t.buildId;
      assert b in r.builds;
    }
    forall c | c in r.cases ensures c.runId in RunIds(r.runs) {
      var t :| t in db.runs && t.id == c.runId;
      assert t in r.runs;
    }
  }

  /**
    `TestRun.delete()`: `on_delete=CASCADE` on TestCaseRun.test_run removes
    the run's case runs; no build changes.
  */
  function RunCascade(db: Db, runId: nat): (r: Db)
    ensures r.builds == db.builds && r.nextId == db.nextId
  {
    Db(db.builds,
       Filter(db.runs, (t: TestRun) => t.id != runId),
       Filter(db.cases, (c: TestCaseRun) => c.runId != runId),
       db.nextId)
  }

  /** Deleting a run removes exactly that run and the case runs that point to it. */
  lemma RunCascadeRemovesExactlyTheOwnedRows(db: Db, runId: nat)
    ensures var r := RunCascade(db, runId);
      && (forall t :: t in r.runs <==> t in db.runs && t.id != runId)
      && (forall c :: c in r.cases <==> c in db.cases && c.runId != runId)
  {
  }

  lemma RunCascadeKeepsWellFormed(db: Db, runId: nat)
    requires WellFormed(db)
    ensures WellFormed(RunCascade(db, runId))
  {
    var r := RunCascade(db, runId);
    FilterKeepsDistinct(db.runs, (t: TestRun) => t.id != runId, RunKey);
    FilterKeepsDistinct(db.cases, (c: TestCaseRun) => c.runId != runId, CaseKey);
    forall c | c in r.cases ensures c.runId in RunIds(r.runs) {
      var t :| t in db.runs && t.id == c.runId;
      assert t in r.runs;
    }
  }

  /** Every build with its `build_type` set to `t`. */
  function WithBuildType(builds: seq<Build>, t: string): (r: seq<Build>)
    ensures |r| == |builds|
    ensures forall i :: 0 <= i < |r| ==> r[i] == builds[i].(buildType := t)
  {
    seq(|builds|, i requires 0 <= i < |builds| => builds[i].(buildType := t))
  }

  /** Changing only `build_type` of existing builds keeps the database well formed. */
  lemma RetypeKeepsWellFormed(db: Db, builds: seq<Build>)
    requires WellFormed(db)
    requires |builds| == |db.builds|
    requires forall i :: 0 <= i < |builds| ==> builds[i] == db.builds[i].(buildType := builds[i].buildType)
    ensures WellFormed(db.(builds := builds))
  {
    assert BuildIds(builds) == BuildIds(db.builds) by {
      forall x | x in BuildIds(db.builds) ensures x in BuildIds(builds) {
        var b :| b in db.builds && b.id == x;
        var m :| 0 <= m < |db.builds| && db.builds[m] == b;
        assert builds[m].id == x;
      }
      forall x | x in BuildIds(builds) ensures x in BuildIds(db.builds) {
        var b :| b in builds && b.id == x;
        var m :| 0 <= m < |builds| && builds[m] == b;
        assert db.builds[m].id == x;
      }
    }
    forall b | b in builds ensures b.id < db.nextId {
      var m :| 0 <= m < |builds| && builds[m] == b;
      assert db.builds[m] in db.builds;
    }
    assert DistinctBy(builds, BuildKey) by {
      forall i, j | 0 <= i < j < |builds| ensures builds[i].id != builds[j].id {
        assert db.builds[i].id != db.builds[j].id;
      }
    }
    assert DistinctBy(builds, UuidKey) by {
      forall i, j | 0 <= i < j < |builds| && builds[i].uuid.Some? ensures builds[i].uuid != builds[j].uuid {
        assert UuidKey(db.builds[i]) != UuidKey(db.builds[j]);
      }
    }
  }

  /** How many of `cases` belong to run `runId` and carry status `status`: `run.cases.filter(status=...).count()`. */
  function Tally(cases: seq<TestCaseRun>, runId: nat, status: string): nat {
    if cases == [] then 0
    else Tally(cases[..|cases| - 1], runId, status)
         + (if cases[|cases| - 1].runId == runId && cases[|cases| - 1].status == status then 1 else 0)
  }

  lemma {:induction false} TallyAppend(a: seq<TestCaseRun>, b: seq<TestCaseRun>, runId: nat, status: string)
    ensures Tally(a + b, runId, status) == Tally(a, runId, status) + Tally(b, runId, status)
  {
    if b == [] {
      assert a + b == a;
    } else {
      assert (a + b)[..|a + b| - 1] == a + b[..|b| - 1];
      TallyAppend(a, b[..|b| - 1], runId, status);
    }
  }

  lemma {:induction false} TallyOfOtherRuns(cases: seq<TestCaseRun>, runId: nat, status: string)
    requires forall c :: c in cases ==> c.runId != runId
    ensures Tally(cases, runId, status) == 0
  {
    if cases != [] {
      TallyOfOtherRuns(cases[..|cases| - 1], runId, status);
    }
  }

  /** In a well-formed database every foreign key is below the next id. */
  lemma KeysBelowNextId(db: Db)
    requires WellFormed(db)
    ensures forall c :: c in db.cases ==> c.runId < db.nextId
    ensures forall t :: t in db.runs ==> t.buildId < db.nextId
  {
    forall c | c in db.cases ensures c.runId < db.nextId {
      var t :| t in db.runs && t.id == c.runId;
    }
    forall t | t in db.runs ensures t.buildId < db.nextId {
      var b :| b in db.builds && b.id == t.buildId;
    }
  }

  /** What `Build.objects.get(build_number=n)` finds: no build, exactly one, or more than one. */
  datatype Lookup = Absent | Found(index: nat) | Ambiguous

  function FindBuild(builds: seq<Build>, buildNumber: string): (r: Lookup)
    ensures r.Absent? <==> forall j :: 0 <= j < |builds| ==> builds[j].buildNumber != buildNumber
    ensures r.Found? ==> r.index < |builds| && builds[r.index].buildNumber == buildNumber
    ensures r.Found? ==> forall j :: 0 <= j < |builds| && j != r.index ==> builds[j].buildNumber != buildNumber
    ensures r.Ambiguous? ==> exists i, j :: 0 <= i < j < |builds| && builds[i].buildNumber == buildNumber
                                                               && builds[j].buildNumber == buildNumber
  {
    if builds == [] then Absent
    else
      var rest := FindBuild(builds[1..], buildNumber);
      if builds[0].buildNumber != buildNumber then
        match rest
        case Absent => Absent
        case Found(k) => Found(k + 1)
        case Ambiguous => Ambiguous
      else if rest.Absent? then Found(0)
      else Ambiguous
  }

  class Store {
    var builds: seq<Build>
    var runs: seq<TestRun>
    var cases: seq<TestCaseRun>
    var nextId: nat

    function State(): Db
      reads this
    {
      Db(builds, runs, cases, nextId)
    }

    predicate Valid()
      reads this
    {
      WellFormed(State())
    }

    /** An empty, migrated database. */
    constructor ()
      ensures Valid() && State() == EmptyDb
    {
      builds, runs, cases, nextId := [], [], [], 0;
    }

    /**
      `Build.objects.create(...)`. The unique index on `uuid` rejects a
      second build with the same non-null uuid; nothing is written then.
      An omitted `build_type` takes its default.
    */
    method CreateBuild(buildNumber: string, date: Option<Date>, uuid: Option<string>, buildType: Option<string>)
      returns (id: Option<nat>)
      requires Valid()
      modifies this
      ensures Valid()
      ensures id.None? <==> uuid.Some? && HasUuid(old(State()), uuid.value)
      ensures id.None? ==> State() == old(State())
      ensures id.Some? ==> id.value == old(nextId) && State() == old(State()).(
        builds := old(builds) + [Build(old(nextId), buildNumber, date, uuid, buildType.GetOr(DefaultBuildType))],
        nextId := old(nextId) + 1)
    {
      if uuid.Some? && HasUuid(State(), uuid.value) {
        return None;
      }
      var b := Build(nextId, buildNumber, date, uuid, buildType.GetOr(DefaultBuildType));
      builds := builds + [b];
      id := Some(nextId);
      nextId := nextId + 1;
      assert forall x :: x in old(builds) ==> x.uuid != b.uuid || x.uuid.None?;
    }

    /**
      `Build.objects.get_or_create(build_number=n, defaults={'date': d})`:
      the id of the one build numbered `n`, or of a new build numbered `n`
      with date `d`, no uuid and the default type; `None` when several
      builds carry that number (`MultipleObjectsReturned`).
    */
    method GetOrCreateBuild(buildNumber: string, date: Option<Date>) returns (id: Option<nat>)
      requires Valid()
      modifies this
      ensures Valid()
      ensures match FindBuild(old(builds), buildNumber)
        case Ambiguous => id.None? && State() == old(State())
        case Found(k) => id == Some(old(builds)[k].id) && State() == old(State())
        case Absent => id == Some(old(nextId)) && State() == old(State()).(
          builds := old(builds) + [Build(old(nextId), buildNumber, date, None, DefaultBuildType)],
          nextId := old(nextId) + 1)
    {
      match FindBuild(builds, buildNumber)
      case Ambiguous => id := None;
      case Found(k) => id := Some(builds[k].id);
      case Absent => id := CreateBuild(buildNumber, date, None, None);
    }

    /** `TestRun.objects.create(build=..., ...)` with the four counters at their default 0. */
    method CreateTestRun(buildId: nat, architecture: string, runDate: Option<Date>, reportUrl: string)
      returns (id: nat)
      requires Valid() && buildId in BuildIds(builds)
      modifies this
      ensures Valid()
      ensures id == old(nextId) && State() == old(State()).(
        runs := old(runs) + [TestRun(id, buildId, architecture, runDate, reportUrl, 0, 0, 0, 0)],
        nextId := id + 1)
    {
      id := nextId;
      runs := runs + [TestRun(id, buildId, architecture, runDate, reportUrl, 0, 0, 0, 0)];
      nextId := nextId + 1;
    }

    /** `TestCaseRun.objects.create(test_run=..., ...)`; an omitted architecture takes its default. */
    method CreateTestCaseRun(runId: nat, testName: string, status: string, executionDate: Date,
                             architecture: Option<string>)
      returns (id: nat)
      requires Valid() && runId in RunIds(runs)
      modifies this
      ensures Valid()
      ensures id == old(nextId) && State() == old(State()).(
        cases := old(cases) + [TestCaseRun(id, runId, testName, status, executionDate,
                                           architecture.GetOr(DefaultArchitecture))],
        nextId := id + 1)
      ensures builds == old(builds) && runs == old(runs) && nextId == old(nextId) + 1
      ensures cases == old(cases) + [TestCaseRun(id, runId, testName, status, executionDate,
                                                 architecture.GetOr(DefaultArchitecture))]
    {
      id := nextId;
      cases := cases + [TestCaseRun(id, runId, testName, status, executionDate, architecture.GetOr(DefaultArchitecture))];
      nextId := nextId + 1;
    }

    /** Assigning the four counters of the k-th TestRun and calling `save()`. */
    method SaveCounters(k: nat, total: int, passed: int, failed: int, skipped: int)
      requires Valid() && k < |runs|
      modifies this
      ensures Valid()
      ensures State() == old(State()).(runs := old(runs)[k := old(runs)[k].(
        total := total, passed := passed, failed := failed, skipped := skipped)])
    {
      runs := runs[k := runs[k].(total := total, passed := passed, failed := failed, skipped := skipped)];
      assert RunIds(runs) == RunIds(old(runs)) by {
        forall x | x in RunIds(old(runs)) ensures x in RunIds(runs) {
          var t :| t in old(runs) && t.id == x;
          var m :| 0 <= m < |old(runs)| && old(runs)[m] == t;
          assert runs[m].id == x;
        }
      }
    }

    /** Assigning `build_type` of the k-th Build and calling `save()`. */
    method SaveBuildType(k: nat, buildType: string)
      requires Valid() && k < |builds|
      modifies this
      ensures Valid()
      ensures State() == old(State()).(builds := old(builds)[k := old(builds)[k].(buildType := buildType)])
    {
      RetypeKeepsWellFormed(State(), builds[k := builds[k].(buildType := buildType)]);
      builds := builds[k := builds[k].(buildType := buildType)];
    }

    /** `Build.objects.update(build_type=t)`: one UPDATE over every row. */
    method UpdateAllBuildTypes(buildType: string)
      requires Valid()
      modifies this
      ensures Valid()
      ensures State() == old(State()).(builds := WithBuildType(old(builds), buildType))
    {
      var retyped := WithBuildType(builds, buildType);
      RetypeKeepsWellFormed(State(), retyped);
      builds := retyped;
    }

    /** Leaving a `transaction.atomic()` block by an exception: the state at its start comes back. */
    method Rollback(snapshot: Db)
      requires WellFormed(snapshot)
      modifies this
      ensures Valid() && State() == snapshot
    {
      builds, runs, cases, nextId := snapshot.builds, snapshot.runs, snapshot.cases, snapshot.nextId;
    }

    /** `build.delete()`, with the cascades declared on the two foreign keys. */
    method DeleteBuild(buildId: nat)
      requires Valid()
      modifies this
      ensures Valid() && State() == Cascade(old(State()), buildId)
    {
      CascadeKeepsWellFormed(State(), buildId);
      var r := Cascade(State(), buildId);
      builds, runs, cases := r.builds, r.runs, r.cases;
    }

    /** `test_run.delete()`, with the cascade declared on TestCaseRun.test_run. */
    method DeleteTestRun(runId: nat)
      requires Valid()
      modifies this
      ensures Valid() && State() == RunCascade(old(State()), runId)
    {
      RunCascadeKeepsWellFormed(State(), runId);
      var r := RunCascade(State(), runId);
      runs, cases := r.runs, r.cases;
    }
  }
}
