/**
  An ordered table of prefix rules, read first match first. Both build
  classifiers of the repository are chains of `startswith` tests of this
  shape: the auto-import command's (on the upper-cased label) and the
  0002 migration's (on the label as stored).
*/
module PrefixRules {
  import opened Wrappers
  import opened Text

  datatype Rule = Rule(prefix: string, category: string)

  /** The position of the first rule whose prefix starts `s`, if any. */
  function FirstMatch(rules: seq<Rule>, s: string): (r: Option<nat>)
    ensures r.Some? ==> r.value < |rules| && StartsWith(s, rules[r.value].prefix)
    ensures r.Some? ==> forall j :: 0 <= j < r.value ==> !StartsWith(s, rules[j].prefix)
    ensures r.None? <==> forall j :: 0 <= j < |rules| ==> !StartsWith(s, rules[j].prefix)
  {
    if rules == [] then None
    else if StartsWith(s, rules[0].prefix) then Some(0)
    else match FirstMatch(rules[1..], s)
      case None => None
      case Some(k) => Some(k + 1)
  }

  /** The category of the first matching rule, or `default` when no rule matches. */
  function Classify(rules: seq<Rule>, s: string, default: string): (r: string)
    ensures (exists k :: 0 <= k < |rules| && StartsWith(s, rules[k].prefix) && r == rules[k].category)
         || (r == default && forall j :: 0 <= j < |rules| ==> !StartsWith(s, rules[j].prefix))
  {
    match FirstMatch(rules, s)
    case Some(k) => rules[k].category
    case None => default
  }

  /** Every result is one of the table's labels or the default. */
  function Labels(rules: seq<Rule>, default: string): (r: set<string>)
    ensures default in r
    ensures forall k :: 0 <= k < |rules| ==> rules[k].category in r
  {
    (set k | 0 <= k < |rules| :: rules[k].category) + {default}
  }

  lemma ClassifyInLabels(rules: seq<Rule>, s: string, default: string)
    ensures Classify(rules, s, default) in Labels(rules, default)
  {
  }

  /** No rule's prefix starts another rule's prefix, so at most one rule can match any string. */
  predicate Exclusive(rules: seq<Rule>) {
    forall i, j :: 0 <= i < |rules| && 0 <= j < |rules| && i != j ==> !StartsWith(rules[j].prefix, rules[i].prefix)
  }

  /** Two prefixes of one string: the shorter starts the longer. */
  lemma PrefixesOfOneString(p: string, q: string, s: string)
    requires StartsWith(s, p) && StartsWith(s, q) && |p| <= |q|
    ensures StartsWith(q, p)
  {
    assert q == s[..|q|];
    assert p == s[..|p|] == q[..|p|];
  }

  /** In an exclusive table the order of the rules does not matter: the one rule that matches decides. */
  lemma ExclusiveRuleDecides(rules: seq<Rule>, s: string, default: string, k: nat)
    requires Exclusive(rules) && k < |rules| && StartsWith(s, rules[k].prefix)
    ensures Classify(rules, s, default) == rules[k].category
  {
    var m := FirstMatch(rules, s);
    var j := m.value;
    if j != k {
      if |rules[j].prefix| <= |rules[k].prefix| {
        PrefixesOfOneString(rules[j].prefix, rules[k].prefix, s);
      } else {
        PrefixesOfOneString(rules[k].prefix, rules[j].prefix, s);
      }
    }
  }
}
