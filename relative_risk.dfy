/**
 * The relative-risk classifier: a first-match chain over the zero-cell
 * pattern. It takes the row totals nt and nc but no rule reads them.
 * The chain is kept in source order, including the rules that an earlier
 * rule shadows.
 */
module RelativeRisk {
  import opened Tables
  import opened Rules

  /** The fifteen guarded returns of the relative-risk chain, in source order. */
  function RrRules(a: int, b: int, c: int, d: int): seq<Rule>
  {
    [ Rule(a == 0 && b * c * d > 0, if d > b + c then Moderate else Mild),
      Rule(c == 0 && a * b * d > 0, if b <= d + a then Moderate else Mild),
      Rule(b == 0 && d == 0, if a == c then Mild else Severe),
      Rule(b == 0 && a * c * d > 0, Mild),
      Rule(d == 0 && a * b * c > 0, Mild),
      Rule(a == 0 && b == 0, Mild),
      Rule(a == 0 && c == 0, Mild),
      Rule(a == 0 && d == 0, Mild),
      Rule(b == 0 && c == 0, Mild),
      Rule(c == 0 && d == 0, Mild),
      Rule(a == 0 && b == 0 && c == 0 && d > 0, Mild),
      Rule(a == 0 && b == 0 && d == 0 && c > 0, Mild),
      Rule(a == 0 && c == 0 && d == 0 && b > 0, Mild),
      Rule(b == 0 && c == 0 && d == 0 && a > 0, Mild),
      Rule(a == b && b == c && c == d && d == 0, Mild) ]
  }

  /** The uncollapsed category of the chain; Mild when no rule matches. */
  function RrTree(a: int, b: int, c: int, d: int, nt: int, nc: int): Category
  {
    Decide(RrRules(a, b, c, d), Mild)
  }

  /** The relative-risk classification: the sparseness check first, then the chain, then the collapse. */
  function ClassifyRr(a: int, b: int, c: int, d: int, nt: int, nc: int, levels: int): (r: Verdict)
    ensures r.Err? <==> a > 0 && b > 0 && c > 0 && d > 0
    ensures levels == 2 ==> r != Ok(Moderate)
    ensures r.Ok? ==> r.category == Collapse(RrTree(a, b, c, d, nt, nc), levels)
  {
    match CheckSparse(a, b, c, d)
    case Some(e) => Err(e)
    case None => Ok(Collapse(RrTree(a, b, c, d, nt, nc), levels))
  }

  /** On non-negative cells the product guards of the chain say "all positive". */
  lemma RrGuardProducts(a: int, b: int, c: int, d: int)
    requires NonNegative(a, b, c, d)
    ensures var r := RrRules(a, b, c, d);
      && (r[0].guard <==> a == 0 && b > 0 && c > 0 && d > 0)
      && (r[1].guard <==> c == 0 && a > 0 && b > 0 && d > 0)
      && (r[3].guard <==> b == 0 && a > 0 && c > 0 && d > 0)
      && (r[4].guard <==> d == 0 && a > 0 && b > 0 && c > 0)
  {
    GuardProducts(a, b, c, d);
  }

  /** The row totals never change the classification. */
  lemma RrIgnoresTotals(a: int, b: int, c: int, d: int, nt: int, nc: int, nt': int, nc': int, levels: int)
    ensures ClassifyRr(a, b, c, d, nt, nc, levels) == ClassifyRr(a, b, c, d, nt', nc', levels)
  {
  }

  /**
   * For any integer cells the five three-or-four-zero rules at the end of
   * the chain are shadowed by earlier rules; for non-negative cells with a
   * zero some rule before them decides, so the final return is not reached.
   */
  lemma RrShadowedRules(a: int, b: int, c: int, d: int)
    ensures FirstMatch(RrRules(a, b, c, d)) < 10 || FirstMatch(RrRules(a, b, c, d)) == 15
    ensures NonNegative(a, b, c, d) && ZeroCount(a, b, c, d) >= 1 ==> FirstMatch(RrRules(a, b, c, d)) < 10
  {
    var rules := RrRules(a, b, c, d);
    var k := FirstMatch(rules);
    assert k != 10 && k != 11 && k != 12 && k != 13 && k != 14 by {
      assert rules[5].guard || rules[6].guard || rules[2].guard || !(rules[10].guard || rules[11].guard || rules[12].guard || rules[13].guard || rules[14].guard);
    }
    if NonNegative(a, b, c, d) && ZeroCount(a, b, c, d) >= 1 {
      RrGuardProducts(a, b, c, d);
      var i :=
        if rules[0].guard then 0 else if rules[1].guard then 1 else if rules[2].guard then 2
        else if rules[3].guard then 3 else if rules[4].guard then 4 else if rules[5].guard then 5
        else if rules[6].guard then 6 else if rules[7].guard then 7 else if rules[8].guard then 8
        else 9;
      assert rules[i].guard;
    }
  }

  /** Moderate arises only from the first two rules, with their inequalities in opposite directions. */
  lemma RrModerate(a: int, b: int, c: int, d: int, nt: int, nc: int)
    requires NonNegative(a, b, c, d)
    ensures RrTree(a, b, c, d, nt, nc) == Moderate <==>
      || (a == 0 && b > 0 && c > 0 && d > 0 && d > b + c)
      || (c == 0 && a > 0 && b > 0 && d > 0 && b <= d + a)
  {
    RrGuardProducts(a, b, c, d);
  }

  /** Severe arises exactly when both right-hand cells are zero and the left-hand cells differ. */
  lemma RrSevere(a: int, b: int, c: int, d: int, nt: int, nc: int)
    requires NonNegative(a, b, c, d)
    ensures RrTree(a, b, c, d, nt, nc) == Severe <==> b == 0 && d == 0 && a != c
  {
    var rules := RrRules(a, b, c, d);
    RrGuardProducts(a, b, c, d);
    assert forall i :: 0 <= i < |rules| && i != 2 ==> rules[i].verdict != Severe;
    if b == 0 && d == 0 {
      assert !rules[0].guard && !rules[1].guard && rules[2].guard;
    }
  }
}
