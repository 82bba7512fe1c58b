/**
  The auto-import command with its two defects corrected, beside the
  model of the code as written (module AutoImport):

  - `get_build_date_from_csv` ends with `None` where it evaluates the
    undefined name `Null`, so a CSV text without a usable date no longer
    stops the whole command;
  - the counters `p`, `f`, `s` start at 0 for every report, so a report
    without CSV text is stored as a Build with a TestRun of zero tests,
    as the comment at the download promises, instead of depending on
    whether an earlier report bound them.

  Everything else is the command as written: an undated report with rows
  still fails inside its atomic block, because `execution_date` may not be
  null, and is then counted in neither counter.
*/
module AutoImportFixed {
  import opened Wrappers
  import opened Models
  import opened AutoImport
  import opened AutoImportProofs

  /** `get_build_date_from_csv` ending in `return max(dates) if dates else None`. */
  function BuildDateFixed(content: Content, dateOf: Record -> Option<Date>): (r: Option<Date>)
    ensures content.Empty? ==> r.None?
  {
    match content
    case Empty => None
    case Table(rows) =>
      var ds := Dates(rows, dateOf);
      if ds == [] then None else Some(Max(ds))
  }

  /**
    The corrected date agrees with the date as written wherever that one is
    defined, and is `None` exactly where that one raises or the text is empty.
  */
  lemma BuildDateFixedAgrees(content: Content, dateOf: Record -> Option<Date>)
    ensures BuildDate(content, dateOf).Ok? ==> BuildDateFixed(content, dateOf) == BuildDate(content, dateOf).value
    ensures BuildDate(content, dateOf).Err? <==> content.Table? && BuildDateFixed(content, dateOf).None?
    ensures BuildDateFixed(content, dateOf).None? <==>
      content.Empty? || forall k :: 0 <= k < |content.rows| ==> dateOf(content.rows[k]).None?
  {
    BuildDateRaisesIffNoRowDate(content, dateOf);
  }

  /**
    One report with a new or recorded uuid, with the counters bound for
    every report. A report with rows but no date cannot create its
    TestCaseRuns (`execution_date` is required): its block rolls back
    before `imported += 1`, and the state is unchanged.
  */
  function AdmitFixed(st: Progress, uuid: string, buildLabel: string, content: Content, date: Option<Date>,
                      dryRun: bool): Progress
  {
    if HasUuid(st.db, uuid) then st.(skipped := st.skipped + 1)
    else if dryRun then st.(imported := st.imported + 1)
    else if RowsOf(content) != [] && date.None? then st
    else
      var kind := TypeAndArch(buildLabel);
      Progress(Committed(st.db, uuid, buildLabel, RowsOf(content), Suites, date, kind.0, kind.1),
               true, st.imported + 1, st.skipped)
  }

  /** One catalog entry, with both corrections. No entry stops the loop any more. */
  function StepFixed(st: Progress, rep: Record, env: Env): Progress {
    match UuidOf(rep)
    case None => st
    case Some(uuid) =>
      var content := Artifact(uuid, env.fetch);
      AdmitFixed(st, uuid, LabelOf(rep), content, BuildDateFixed(content, DateOfRow(env.parse)), env.dryRun)
  }

  function RunFixed(st: Progress, reps: seq<Record>, env: Env): Progress
    decreases |reps|
  {
    if reps == [] then st else RunFixed(StepFixed(st, reps[0], env), reps[1..], env)
  }

  /** On every entry the code as written stores, the corrected step does the same. */
  lemma StepFixedAgreesOnStoredReports(st: Progress, rep: Record, env: Env)
    requires Storable(rep, env)
    ensures Step(st, rep, env) == Ok(StepFixed(st, rep, env))
  {
    var uuid := UuidOf(rep).value;
    var content := Artifact(uuid, env.fetch);
    BuildDateFixedAgrees(content, DateOfRow(env.parse));
  }

  /**
    Outside a dry run, an entry is counted as imported exactly when its
    uuid was new and is now recorded, and it then adds exactly one Build.
    The code as written breaks this (see `EmptyReportBeforeCountersIsLost`).
  */
  lemma StepFixedImportsExactlyWhatItStores(st: Progress, rep: Record, env: Env)
    requires !env.dryRun
    ensures var next := StepFixed(st, rep, env);
      && (next.imported == st.imported + 1 <==>
            UuidOf(rep).Some? && !HasUuid(st.db, UuidOf(rep).value) && HasUuid(next.db, UuidOf(rep).value))
      && (next.imported == st.imported + 1 ==> |next.db.builds| == |st.db.builds| + 1)
      && (next.imported == st.imported ==> next.db == st.db)
      && next.imported <= st.imported + 1
  {
    if UuidOf(rep).Some? {
      var uuid := UuidOf(rep).value;
      var content := Artifact(uuid, env.fetch);
      var date := BuildDateFixed(content, DateOfRow(env.parse));
      if !HasUuid(st.db, uuid) && !(RowsOf(content) != [] && date.None?) {
        var kind := TypeAndArch(LabelOf(rep));
        CommittedRecordsReport(st.db, uuid, LabelOf(rep), RowsOf(content), Suites, date, kind.0, kind.1);
      }
    }
  }

  /** With both corrections the summary's `imported` is exactly the number of Builds the run added. */
  lemma {:induction false} RunFixedImportsAreBuilds(st: Progress, reps: seq<Record>, env: Env)
    requires !env.dryRun
    ensures var last := RunFixed(st, reps, env);
      && last.imported >= st.imported
      && |last.db.builds| - |st.db.builds| == last.imported - st.imported
    decreases |reps|
  {
    if reps != [] {
      StepFixedImportsExactlyWhatItStores(st, reps[0], env);
      RunFixedImportsAreBuilds(StepFixed(st, reps[0], env), reps[1..], env);
    }
  }

  lemma AdmitFixedKeepsConsistent(st: Progress, uuid: string, buildLabel: string, content: Content,
                                  date: Option<Date>, dryRun: bool)
    requires Consistent(st.db)
    ensures Consistent(AdmitFixed(st, uuid, buildLabel, content, date, dryRun).db)
  {
    if !HasUuid(st.db, uuid) && !dryRun && !(RowsOf(content) != [] && date.None?) {
      var kind := TypeAndArch(buildLabel);
      CommittedKeepsWellFormed(st.db, uuid, buildLabel, RowsOf(content), Suites, date, kind.0, kind.1);
    }
  }

  /** The corrected loop keeps the schema's invariants and counters that add up. */
  lemma {:induction false} RunFixedKeepsConsistent(st: Progress, reps: seq<Record>, env: Env)
    requires Consistent(st.db)
    ensures Consistent(RunFixed(st, reps, env).db)
    decreases |reps|
  {
    if reps != [] {
      var uuid := UuidOf(reps[0]);
      if uuid.Some? {
        var content := Artifact(uuid.value, env.fetch);
        AdmitFixedKeepsConsistent(st, uuid.value, LabelOf(reps[0]), content,
                                  BuildDateFixed(content, DateOfRow(env.parse)), env.dryRun);
      }
      RunFixedKeepsConsistent(StepFixed(st, reps[0], env), reps[1..], env);
    }
  }
}
