/**
 * The risk-difference classifier: a first-match chain over the zero-cell
 * pattern. Two of its rules compare the row totals nt and nc.
 */
module RiskDifference {
  import opened Tables
  import opened Rules

  /** The fifteen guarded returns of the risk-difference chain, in source order. */
  function RdRules(a: int, b: int, c: int, d: int, nt: int, nc: int): seq<Rule>
  {
    [ Rule(a == 0 && c == 0 && b * d > 0, if nt == nc then Mild else Severe),
      Rule(b == 0 && d == 0 && a * c > 0, if nt == nc then Mild else Severe),
      Rule(a == 0 && b * c * d > 0, Mild),
      Rule(b == 0 && a * c * d > 0, Mild),
      Rule(c == 0 && a * b * d > 0, Mild),
      Rule(d == 0 && a * b * c > 0, Mild),
      Rule(a == 0 && d == 0 && b * c > 0, Mild),
      Rule(a == 0 && b == 0 && c * d > 0, Mild),
      Rule(b == 0 && c == 0 && a * d > 0, Mild),
      Rule(c == 0 && d == 0 && a * b > 0, Mild),
      Rule(a == 0 && b == 0 && c == 0 && d > 0, Severe),
      Rule(a == 0 && b == 0 && d == 0 && c > 0, Severe),
      Rule(a == 0 && c == 0 && d == 0 && b > 0, Severe),
      Rule(b == 0 && c == 0 && d == 0 && a > 0, Severe),
      Rule(a == b && b == c && c == d && d == 0, Mild) ]
  }

  /** The uncollapsed category of the chain; Mild when no rule matches. */
  function RdTree(a: int, b: int, c: int, d: int, nt: int, nc: int): Category
  {
    Decide(RdRules(a, b, c, d, nt, nc), Mild)
  }

  /** The risk-difference classification: the sparseness check first, then the chain, then the collapse. */
  function ClassifyRd(a: int, b: int, c: int, d: int, nt: int, nc: int, levels: int): (r: Verdict)
    ensures r.Err? <==> a > 0 && b > 0 && c > 0 && d > 0
    ensures r.Ok? ==> r.category != Moderate
    ensures r.Ok? ==> r.category == Collapse(RdTree(a, b, c, d, nt, nc), levels)
  {
    match CheckSparse(a, b, c, d)
    case Some(e) => Err(e)
    case None =>
      RdNeverModerate(a, b, c, d, nt, nc);
      Ok(Collapse(RdTree(a, b, c, d, nt, nc), levels))
  }

  /** No rule of the chain, nor its final return, yields Moderate. */
  lemma RdNeverModerate(a: int, b: int, c: int, d: int, nt: int, nc: int)
    ensures RdTree(a, b, c, d, nt, nc) != Moderate
  {
    var rules := RdRules(a, b, c, d, nt, nc);
    assert forall i :: 0 <= i < |rules| ==> rules[i].verdict != Moderate;
  }

  /** On non-negative cells each guard holds exactly for one pattern of zero cells. */
  lemma RdGuardPatterns(a: int, b: int, c: int, d: int, nt: int, nc: int)
    requires NonNegative(a, b, c, d)
    ensures var r := RdRules(a, b, c, d, nt, nc);
      && (r[0].guard <==> a == 0 && c == 0 && b > 0 && d > 0)
      && (r[1].guard <==> b == 0 && d == 0 && a > 0 && c > 0)
      && (r[2].guard <==> a == 0 && b > 0 && c > 0 && d > 0)
      && (r[3].guard <==> b == 0 && a > 0 && c > 0 && d > 0)
      && (r[4].guard <==> c == 0 && a > 0 && b > 0 && d > 0)
      && (r[5].guard <==> d == 0 && a > 0 && b > 0 && c > 0)
      && (r[6].guard <==> a == 0 && d == 0 && b > 0 && c > 0)
      && (r[7].guard <==> a == 0 && b == 0 && c > 0 && d > 0)
      && (r[8].guard <==> b == 0 && c == 0 && a > 0 && d > 0)
      && (r[9].guard <==> c == 0 && d == 0 && a > 0 && b > 0)
      && (r[10].guard <==> a == 0 && b == 0 && c == 0 && d > 0)
      && (r[11].guard <==> a == 0 && b == 0 && d == 0 && c > 0)
      && (r[12].guard <==> a == 0 && c == 0 && d == 0 && b > 0)
      && (r[13].guard <==> b == 0 && c == 0 && d == 0 && a > 0)
      && (r[14].guard <==> a == 0 && b == 0 && c == 0 && d == 0)
  {
    GuardProducts(a, b, c, d);
  }

  /**
   * On non-negative cells no two guards hold together, and when some cell
   * is zero one of them holds, so the final return is never reached.
   */
  lemma RdRulesExactlyOne(a: int, b: int, c: int, d: int, nt: int, nc: int)
    requires NonNegative(a, b, c, d)
    ensures Exclusive(RdRules(a, b, c, d, nt, nc))
    ensures ZeroCount(a, b, c, d) >= 1 ==> FirstMatch(RdRules(a, b, c, d, nt, nc)) < 15
  {
    var rules := RdRules(a, b, c, d, nt, nc);
    RdGuardPatterns(a, b, c, d, nt, nc);
    forall i, j | 0 <= i < j < 15
      ensures !(rules[i].guard && rules[j].guard)
    {
    }
  }

  /**
   * Severe arises exactly for three zero cells, or for a zero column whose
   * row totals differ; the all-zero table is Mild.
   */
  lemma RdSevere(a: int, b: int, c: int, d: int, nt: int, nc: int)
    requires NonNegative(a, b, c, d)
    ensures RdTree(a, b, c, d, nt, nc) == Severe <==>
      || ZeroCount(a, b, c, d) == 3
      || (a == 0 && c == 0 && b > 0 && d > 0 && nt != nc)
      || (b == 0 && d == 0 && a > 0 && c > 0 && nt != nc)
    ensures a == 0 && b == 0 && c == 0 && d == 0 ==> RdTree(a, b, c, d, nt, nc) == Mild
  {
    var rules := RdRules(a, b, c, d, nt, nc);
    RdRulesExactlyOne(a, b, c, d, nt, nc);
    RdGuardPatterns(a, b, c, d, nt, nc);
    if ZeroCount(a, b, c, d) >= 1 {
      ExclusiveDecides(rules, FirstMatch(rules), Mild);
    }
  }
}
