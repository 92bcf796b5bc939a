/**
 * A classifier is a chain of guarded returns evaluated top-down, the
 * first guard that holds deciding the category, with a final return
 * when none holds. Here such a chain is a sequence of rules in source
 * order; the fallback is reached at index |rules|.
 */
module Rules {
  import opened Tables

  datatype Rule = Rule(guard: bool, verdict: Category)

  /** The index of the first rule whose guard holds, or |rules| when none does. */
  function FirstMatch(rules: seq<Rule>): (k: nat)
    ensures k <= |rules|
    ensures k < |rules| ==> rules[k].guard
    ensures forall i :: 0 <= i < k ==> !rules[i].guard
  {
    if |rules| == 0 then 0
    else if rules[0].guard then 0
    else 1 + FirstMatch(rules[1..])
  }

  /** The category the chain returns, `fallback` when no guard holds. */
  function Decide(rules: seq<Rule>, fallback: Category): (r: Category)
  {
    var k := FirstMatch(rules);
    if k < |rules| then rules[k].verdict else fallback
  }

  /** No two guards of the chain hold together. */
  predicate Exclusive(rules: seq<Rule>)
  {
    forall i, j :: 0 <= i < j < |rules| ==> !(rules[i].guard && rules[j].guard)
  }

  /** In an exclusive chain the rule that holds is the one that decides. */
  lemma ExclusiveDecides(rules: seq<Rule>, i: nat, fallback: Category)
    requires Exclusive(rules)
    requires i < |rules| && rules[i].guard
    ensures FirstMatch(rules) == i
    ensures Decide(rules, fallback) == rules[i].verdict
  {
  }
}
