/**
  Migration 0002 of the reports app: adds `Build.build_type` (default
  "Other") and fills it from each build's number with a second,
  case-sensitive prefix table; its reverse sets every build back to
  "Other".
*/
module BuildTypeMigration {
  import opened Text
  import opened PrefixRules
  import opened Models
  import AutoImport
  import AutoImportProofs

  const MigrationRules: seq<Rule> := [
    Rule("SMK-MOB-", "Mobile"),
    Rule("SMK-RUN18-", "Run18"),
    Rule("SMK-RUN17-", "Run17"),
    Rule("SMK-INIT18-", "Init18"),
    Rule("SMK-BNCH-", "Benchmark")
  ]

  /**
    The if-chain of `populate_build_type` on `build.build_number or ""`.
    A build number is never null here, and "" matches no rule.
  */
  function BuildTypeOf(buildNumber: string): (r: string)
    ensures r in {"Mobile", "Run18", "Run17", "Init18", "Benchmark", DefaultBuildType}
  {
    ClassifyInLabels(MigrationRules, buildNumber, DefaultBuildType);
    Classify(MigrationRules, buildNumber, DefaultBuildType)
  }

  /** The builds after `populate_build_type`: each retyped from its own number. */
  function Populated(builds: seq<Build>): (r: seq<Build>)
    ensures |r| == |builds|
    ensures forall i :: 0 <= i < |builds| ==> r[i] == builds[i].(buildType := BuildTypeOf(builds[i].buildNumber))
  {
    seq(|builds|, i requires 0 <= i < |builds| => builds[i].(buildType := BuildTypeOf(builds[i].buildNumber)))
  }

  /** `populate_build_type`: for each build, assign `build_type` and `save()`. */
  method PopulateBuildType(store: Store)
    requires store.Valid()
    modifies store
    ensures store.Valid()
    ensures store.State() == old(store.State()).(builds := Populated(old(store.builds)))
  {
    ghost var before := store.builds;
    ghost var after := Populated(before);
    for k := 0 to |store.builds|
      invariant store.Valid() && |store.builds| == |before|
      invariant forall i :: 0 <= i < k ==> store.builds[i] == after[i]
      invariant forall i :: k <= i < |before| ==> store.builds[i] == before[i]
      invariant store.State() == old(store.State()).(builds := store.builds)
    {
      store.SaveBuildType(k, BuildTypeOf(store.builds[k].buildNumber));
    }
    assert store.builds == after;
  }

  /** `reverse_populate`: one `update(build_type='Other')` over all builds. */
  method ReversePopulate(store: Store)
    requires store.Valid()
    modifies store
    ensures store.Valid()
    ensures store.State() == old(store.State()).(builds := WithBuildType(old(store.builds), DefaultBuildType))
  {
    store.UpdateAllBuildTypes(DefaultBuildType);
  }

  // ---------------------------------------------------------------- properties

  /** No prefix of the migration's table starts another. */
  lemma MigrationRulesExclusive()
    ensures Exclusive(MigrationRules)
  {
    forall i, j | 0 <= i < |MigrationRules| && 0 <= j < |MigrationRules| && i != j
      ensures !StartsWith(MigrationRules[j].prefix, MigrationRules[i].prefix)
    {
      var p, q := MigrationRules[i].prefix, MigrationRules[j].prefix;
      assert p[4] != q[4] || (|p| > 8 && |q| > 8 && p[8] != q[8]);
    }
  }

  /** A number that starts with a rule's prefix, exactly as written, gets that rule's type. */
  lemma BuildTypeByPrefix(buildNumber: string, k: nat)
    requires k < |MigrationRules| && StartsWith(buildNumber, MigrationRules[k].prefix)
    ensures BuildTypeOf(buildNumber) == MigrationRules[k].category
  {
    MigrationRulesExclusive();
    ExclusiveRuleDecides(MigrationRules, buildNumber, DefaultBuildType, k);
  }

  /** A type other than "Other" comes only from the number starting with that type's prefix. */
  lemma BuildTypeNamesItsPrefix(buildNumber: string, k: nat)
    requires k < |MigrationRules| && BuildTypeOf(buildNumber) == MigrationRules[k].category
    ensures StartsWith(buildNumber, MigrationRules[k].prefix)
  {
  }

  /** The empty number, which `build_number or ""` also gives for a null one, is "Other". */
  lemma EmptyNumberIsOther()
    ensures BuildTypeOf("") == DefaultBuildType
  {
    assert forall k :: 0 <= k < |MigrationRules| ==> !StartsWith("", MigrationRules[k].prefix);
  }

  /** Populating changes `build_type` and nothing else of any build. */
  lemma PopulateKeepsOtherFields(builds: seq<Build>)
    ensures forall i :: 0 <= i < |builds| ==>
      Populated(builds)[i].(buildType := builds[i].buildType) == builds[i]
  {
  }

  /** `build_type` depends on the number only, so populating twice is populating once. */
  lemma PopulateIsIdempotent(builds: seq<Build>)
    ensures Populated(Populated(builds)) == Populated(builds)
  {
  }

  /** Migrating back and forth again gives every build the type it first got. */
  lemma ReverseThenPopulate(builds: seq<Build>)
    ensures Populated(WithBuildType(builds, DefaultBuildType)) == Populated(builds)
    ensures WithBuildType(Populated(builds), DefaultBuildType) == WithBuildType(builds, DefaultBuildType)
  {
  }

  /** The migration keeps the database well formed, and changes no TestRun and no TestCaseRun. */
  lemma PopulateKeepsWellFormed(db: Db)
    requires WellFormed(db)
    ensures WellFormed(db.(builds := Populated(db.builds)))
  {
    RetypeKeepsWellFormed(db, Populated(db.builds));
  }

  // ---------------------------------------------------------------- against the command's table

  /** A number the migration calls `MigrationRules[k].category` and whose upper-cased form starts with `CommandRules[j].prefix`. */
  lemma BothTables(buildNumber: string, k: nat, j: nat)
    requires k < |MigrationRules| && j < |AutoImport.CommandRules|
    requires StartsWith(buildNumber, MigrationRules[k].prefix) && StartsWith(buildNumber, AutoImport.CommandRules[j].prefix)
    ensures BuildTypeOf(buildNumber) == MigrationRules[k].category
    ensures AutoImport.TypeAndArch(buildNumber).0 == AutoImport.CommandRules[j].category
  {
    BuildTypeByPrefix(buildNumber, k);
    CommandPrefixIsUpperCase(j);
    UpperKeepsUpperPrefix(buildNumber, AutoImport.CommandRules[j].prefix);
    AutoImportProofs.TypeAndArchByPrefix(buildNumber, j);
  }

  /** The command's prefixes are written in upper case, so they survive its `upper()`. */
  lemma CommandPrefixIsUpperCase(j: nat)
    requires j < |AutoImport.CommandRules|
    ensures IsUpperCase(AutoImport.CommandRules[j].prefix)
  {
  }

  /** "SMK-RUN18-" numbers are "Run18" here and "ALSE 18" for the command. */
  lemma Run18LabelsDiffer(buildNumber: string)
    requires StartsWith(buildNumber, "SMK-RUN18-")
    ensures BuildTypeOf(buildNumber) == "Run18" && AutoImport.TypeAndArch(buildNumber).0 == "ALSE 18"
  {
    BothTables(buildNumber, 1, 2);
  }

  /** "SMK-RUN17-" numbers are "Run17" here and "ALSE 17" for the command. */
  lemma Run17LabelsDiffer(buildNumber: string)
    requires StartsWith(buildNumber, "SMK-RUN17-")
    ensures BuildTypeOf(buildNumber) == "Run17" && AutoImport.TypeAndArch(buildNumber).0 == "ALSE 17"
  {
    BothTables(buildNumber, 2, 3);
  }

  /**
    Every "SMK-MOB-" number is "Mobile" here; the command splits it into
    "Mobile 17" and "Mobile 18" by the next three characters, and calls
    every other "SMK-MOB-" number "Other".
  */
  lemma MobileLabelsDiffer(buildNumber: string)
    requires StartsWith(buildNumber, "SMK-MOB-")
    ensures BuildTypeOf(buildNumber) == "Mobile"
    ensures AutoImport.TypeAndArch(buildNumber).0 in {"Mobile 17", "Mobile 18", "Other"}
  {
    BuildTypeByPrefix(buildNumber, 0);
    UpperKeepsUpperPrefix(buildNumber, "SMK-MOB-");
    var u := Upper(buildNumber);
    assert u[4] == 'M';
    forall j | 2 <= j < |AutoImport.CommandRules| ensures !StartsWith(u, AutoImport.CommandRules[j].prefix) {
      assert AutoImport.CommandRules[j].prefix[4] != 'M';
    }
  }

  /**
    A number that starts with "SMK-RUN18-" only once upper-cased (a
    lower-case or mixed-case label) matches no rule here, while the
    command, which upper-cases first, classifies it as "ALSE 18".
  */
  lemma LowerCaseNumbersDiffer(buildNumber: string)
    requires StartsWith(Upper(buildNumber), "SMK-RUN18-") && !StartsWith(buildNumber, "SMK-RUN18-")
    ensures BuildTypeOf(buildNumber) == DefaultBuildType
    ensures AutoImport.TypeAndArch(buildNumber).0 == "ALSE 18"
  {
    forall k | 0 <= k < |MigrationRules| ensures !StartsWith(buildNumber, MigrationRules[k].prefix) {
      var p := MigrationRules[k].prefix;
      if k != 1 && StartsWith(buildNumber, p) {
        MigrationPrefixIsUpperCase(k);
        UpperKeepsUpperPrefix(buildNumber, p);
        assert false;
      }
    }
    AutoImportProofs.TypeAndArchByPrefix(buildNumber, 2);
  }

  lemma MigrationPrefixIsUpperCase(k: nat)
    requires k < |MigrationRules|
    ensures IsUpperCase(MigrationRules[k].prefix)
  { }

  /** Where the two tables agree on a type other than "Other", the number starts with that rule's prefix. */
  lemma AgreementNeedsSharedRule(buildNumber: string)
    requires BuildTypeOf(buildNumber) == AutoImport.TypeAndArch(buildNumber).0 != DefaultBuildType
    ensures StartsWith(buildNumber, "SMK-INIT18-") || StartsWith(buildNumber, "SMK-BNCH-")
  {
    if BuildTypeOf(buildNumber) == "Init18" {
      BuildTypeNamesItsPrefix(buildNumber, 3);
    } else {
      BuildTypeNamesItsPrefix(buildNumber, 4);
    }
  }

  /**
    The two tables give the same type exactly for numbers starting with
    "SMK-INIT18-" or "SMK-BNCH-" as written, and for numbers both call "Other".
  */
  lemma ClassifiersAgreeOnlyOnInitBenchmarkOther(buildNumber: string)
    ensures BuildTypeOf(buildNumber) == AutoImport.TypeAndArch(buildNumber).0 <==>
      || StartsWith(buildNumber, "SMK-INIT18-")
      || StartsWith(buildNumber, "SMK-BNCH-")
      || (BuildTypeOf(buildNumber) == DefaultBuildType && AutoImport.TypeAndArch(buildNumber).0 == DefaultBuildType)
  {
    if StartsWith(buildNumber, "SMK-INIT18-") {
      BothTables(buildNumber, 3, 4);
    } else if StartsWith(buildNumber, "SMK-BNCH-") {
      BothTables(buildNumber, 4, 5);
    } else if BuildTypeOf(buildNumber) == AutoImport.TypeAndArch(buildNumber).0 != DefaultBuildType {
      AgreementNeedsSharedRule(buildNumber);
    }
  }
}
