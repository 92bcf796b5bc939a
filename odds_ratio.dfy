/**
 * The odds-ratio classifier: a first-match chain over the zero-cell
 * pattern of the table (a, b; c, d), with the threshold m = 1/ε for
 * tables with exactly one zero cell. ε and m are exact reals.
 */
module OddsRatio {
  import opened Tables
  import opened Rules

  /** The Moderate/Severe boundary x + y + m·x·y for the two neighbours x, y of the zero cell. */
  function Threshold(x: int, y: int, m: real): real
  {
    (x + y) as real + m * (x as real) * (y as real)
  }

  /** The grading of a table with one zero cell, from the cell opposite it and its two neighbours. */
  function OneZeroVerdict(opposite: int, x: int, y: int, m: real): Category
  {
    if opposite <= x + y then Mild
    else if opposite as real <= Threshold(x, y, m) then Moderate
    else Severe
  }

  /** The grading of a table with two zero cells in one row or column. */
  function PairVerdict(large: int, k: int): Category
  {
    if large <= 2 * k * (k + 1) then Mild else Severe
  }

  /** What "graded by opposite against x, y" means, as three intervals of the opposite cell. */
  predicate GradedBy(r: Category, opposite: int, x: int, y: int, m: real)
  {
    && (r == Mild <==> opposite <= x + y)
    && (r == Moderate <==> x + y < opposite && opposite as real <= Threshold(x, y, m))
    && (r == Severe <==> x + y < opposite && Threshold(x, y, m) < opposite as real)
  }

  /** The fifteen guarded returns of the odds-ratio chain, in source order. */
  function OrRules(a: int, b: int, c: int, d: int, m: real): seq<Rule>
  {
    [ Rule(a == 0 && b * c * d > 0, OneZeroVerdict(d, b, c, m)),
      Rule(b == 0 && a * c * d > 0, OneZeroVerdict(c, a, d, m)),
      Rule(c == 0 && a * b * d > 0, OneZeroVerdict(b, a, d, m)),
      Rule(d == 0 && a * b * c > 0, OneZeroVerdict(a, b, c, m)),
      Rule(a == 0 && b == 0 && c * d > 0, PairVerdict(d, c)),
      Rule(a == 0 && c == 0 && b * d > 0, PairVerdict(d, b)),
      Rule(a == 0 && d == 0 && b * c > 0, Moderate),
      Rule(b == 0 && c == 0 && a * d > 0, Mild),
      Rule(b == 0 && d == 0 && a * c > 0, PairVerdict(a, c)),
      Rule(c == 0 && d == 0 && a * b > 0, PairVerdict(a, b)),
      Rule(a == 0 && b == 0 && c == 0 && d > 0, Severe),
      Rule(a == 0 && b == 0 && d == 0 && c > 0, Moderate),
      Rule(a == 0 && c == 0 && d == 0 && b > 0, Severe),
      Rule(b == 0 && c == 0 && d == 0 && a > 0, Moderate),
      Rule(a == b && b == c && c == d && d == 0, Severe) ]
  }

  /** The uncollapsed category of the chain; Mild when no rule matches. */
  function OrTree(a: int, b: int, c: int, d: int, m: real): Category
  {
    Decide(OrRules(a, b, c, d, m), Mild)
  }

  /**
   * The odds-ratio classification: the sparseness check first, then the
   * chain with m = 1/ε, then the collapse. ε is only divided by once the
   * table is known to be sparse, so ε = 0 is harmless on a full table.
   */
  function ClassifyOr(a: int, b: int, c: int, d: int, epsilon: real, levels: int): (r: Verdict)
    requires epsilon != 0.0 || (a > 0 && b > 0 && c > 0 && d > 0)
    ensures r.Err? <==> a > 0 && b > 0 && c > 0 && d > 0
    ensures levels == 2 ==> r != Ok(Moderate)
    ensures r.Ok? ==> r.category == Collapse(OrTree(a, b, c, d, 1.0 / epsilon), levels)
  {
    match CheckSparse(a, b, c, d)
    case Some(e) => Err(e)
    case None =>
      var m := 1.0 / epsilon;
      Ok(Collapse(OrTree(a, b, c, d, m), levels))
  }

  lemma OneZeroVerdictGraded(opposite: int, x: int, y: int, m: real)
    ensures GradedBy(OneZeroVerdict(opposite, x, y, m), opposite, x, y, m)
  {
  }

  /**
   * On non-negative cells no two guards of the chain hold together, and
   * when some cell is zero one of them holds, so the final `return Mild`
   * is never reached.
   */
  lemma OrRulesExactlyOne(a: int, b: int, c: int, d: int, m: real)
    requires NonNegative(a, b, c, d)
    ensures Exclusive(OrRules(a, b, c, d, m))
    ensures ZeroCount(a, b, c, d) >= 1 ==> FirstMatch(OrRules(a, b, c, d, m)) < 15
  {
    var rules := OrRules(a, b, c, d, m);
    OrGuardPatterns(a, b, c, d, m);
    forall i, j | 0 <= i < j < 15
      ensures !(rules[i].guard && rules[j].guard)
    {
    }
  }

  /** On non-negative cells each guard holds exactly for one pattern of zero cells. */
  lemma OrGuardPatterns(a: int, b: int, c: int, d: int, m: real)
    requires NonNegative(a, b, c, d)
    ensures var r := OrRules(a, b, c, d, m);
      && (r[0].guard <==> a == 0 && b > 0 && c > 0 && d > 0)
      && (r[1].guard <==> b == 0 && a > 0 && c > 0 && d > 0)
      && (r[2].guard <==> c == 0 && a > 0 && b > 0 && d > 0)
      && (r[3].guard <==> d == 0 && a > 0 && b > 0 && c > 0)
      && (r[4].guard <==> a == 0 && b == 0 && c > 0 && d > 0)
      && (r[5].guard <==> a == 0 && c == 0 && b > 0 && d > 0)
      && (r[6].guard <==> a == 0 && d == 0 && b > 0 && c > 0)
      && (r[7].guard <==> b == 0 && c == 0 && a > 0 && d > 0)
      && (r[8].guard <==> b == 0 && d == 0 && a > 0 && c > 0)
      && (r[9].guard <==> c == 0 && d == 0 && a > 0 && b > 0)
      && (r[10].guard <==> a == 0 && b == 0 && c == 0 && d > 0)
      && (r[11].guard <==> a == 0 && b == 0 && d == 0 && c > 0)
      && (r[12].guard <==> a == 0 && c == 0 && d == 0 && b > 0)
      && (r[13].guard <==> b == 0 && c == 0 && d == 0 && a > 0)
      && (r[14].guard <==> a == 0 && b == 0 && c == 0 && d == 0)
  {
    GuardProducts(a, b, c, d);
  }

  /** With exactly one zero cell the chain applies the one-zero grading to that cell. */
  lemma OrOneZeroRule(a: int, b: int, c: int, d: int, m: real)
    requires NonNegative(a, b, c, d) && ZeroCount(a, b, c, d) == 1
    ensures a == 0 ==> OrTree(a, b, c, d, m) == OneZeroVerdict(d, b, c, m)
    ensures b == 0 ==> OrTree(a, b, c, d, m) == OneZeroVerdict(c, a, d, m)
    ensures c == 0 ==> OrTree(a, b, c, d, m) == OneZeroVerdict(b, a, d, m)
    ensures d == 0 ==> OrTree(a, b, c, d, m) == OneZeroVerdict(a, b, c, m)
  {
    OrRulesExactlyOne(a, b, c, d, m);
    OrGuardPatterns(a, b, c, d, m);
    var i := if a == 0 then 0 else if b == 0 then 1 else if c == 0 then 2 else 3;
    ExclusiveDecides(OrRules(a, b, c, d, m), i, Mild);
  }

  /** With exactly one zero cell the category grades the opposite cell against its two neighbours. */
  lemma OrOneZero(a: int, b: int, c: int, d: int, m: real)
    requires NonNegative(a, b, c, d) && ZeroCount(a, b, c, d) == 1
    ensures a == 0 ==> GradedBy(OrTree(a, b, c, d, m), d, b, c, m)
    ensures b == 0 ==> GradedBy(OrTree(a, b, c, d, m), c, a, d, m)
    ensures c == 0 ==> GradedBy(OrTree(a, b, c, d, m), b, a, d, m)
    ensures d == 0 ==> GradedBy(OrTree(a, b, c, d, m), a, b, c, m)
  {
    OrOneZeroRule(a, b, c, d, m);
    OneZeroVerdictGraded(d, b, c, m);
    OneZeroVerdictGraded(c, a, d, m);
    OneZeroVerdictGraded(b, a, d, m);
    OneZeroVerdictGraded(a, b, c, m);
  }

  /** The one-zero grading never lowers the category when the opposite cell grows. */
  lemma OneZeroMonotone(opposite: int, opposite': int, x: int, y: int, m: real)
    requires opposite <= opposite'
    ensures Rank(OneZeroVerdict(opposite, x, y, m)) <= Rank(OneZeroVerdict(opposite', x, y, m))
  {
    assert opposite as real <= opposite' as real;
  }

  /**
   * Table (a', b'; c', d') is table (a, b; c, d), which has one zero cell,
   * with the cell opposite that zero raised or kept.
   */
  predicate OppositeRaised(a: int, b: int, c: int, d: int, a': int, b': int, c': int, d': int)
  {
    && (a == 0 ==> a' == 0 && b' == b && c' == c && d <= d')
    && (b == 0 ==> b' == 0 && a' == a && d' == d && c <= c')
    && (c == 0 ==> c' == 0 && a' == a && d' == d && b <= b')
    && (d == 0 ==> d' == 0 && b' == b && c' == c && a <= a')
  }

  /** With one zero cell, raising the cell opposite it never lowers the category. */
  lemma OrMonotoneInOpposite(a: int, b: int, c: int, d: int, a': int, b': int, c': int, d': int, m: real)
    requires NonNegative(a, b, c, d) && ZeroCount(a, b, c, d) == 1
    requires OppositeRaised(a, b, c, d, a', b', c', d')
    ensures Rank(OrTree(a, b, c, d, m)) <= Rank(OrTree(a', b', c', d', m))
  {
    OrOneZeroRule(a, b, c, d, m);
    OrOneZeroRule(a', b', c', d', m);
    if a == 0 {
      OneZeroMonotone(d, d', b, c, m);
    } else if b == 0 {
      OneZeroMonotone(c, c', a, d, m);
    } else if c == 0 {
      OneZeroMonotone(b, b', a, d, m);
    } else {
      OneZeroMonotone(a, a', b, c, m);
    }
  }

  /** The category of every table with two or more zero cells. */
  lemma OrManyZeros(a: int, b: int, c: int, d: int, m: real)
    requires NonNegative(a, b, c, d) && ZeroCount(a, b, c, d) >= 2
    ensures a == 0 && b == 0 && c > 0 && d > 0 ==>
      (OrTree(a, b, c, d, m) == Mild <==> d <= 2 * c * (c + 1)) && OrTree(a, b, c, d, m) != Moderate
    ensures a == 0 && c == 0 && b > 0 && d > 0 ==>
      (OrTree(a, b, c, d, m) == Mild <==> d <= 2 * b * (b + 1)) && OrTree(a, b, c, d, m) != Moderate
    ensures a == 0 && d == 0 && b > 0 && c > 0 ==> OrTree(a, b, c, d, m) == Moderate
    ensures b == 0 && c == 0 && a > 0 && d > 0 ==> OrTree(a, b, c, d, m) == Mild
    ensures b == 0 && d == 0 && a > 0 && c > 0 ==>
      (OrTree(a, b, c, d, m) == Mild <==> a <= 2 * c * (c + 1)) && OrTree(a, b, c, d, m) != Moderate
    ensures c == 0 && d == 0 && a > 0 && b > 0 ==>
      (OrTree(a, b, c, d, m) == Mild <==> a <= 2 * b * (b + 1)) && OrTree(a, b, c, d, m) != Moderate
    ensures a == 0 && b == 0 && c == 0 && d > 0 ==> OrTree(a, b, c, d, m) == Severe
    ensures a == 0 && b == 0 && d == 0 && c > 0 ==> OrTree(a, b, c, d, m) == Moderate
    ensures a == 0 && c == 0 && d == 0 && b > 0 ==> OrTree(a, b, c, d, m) == Severe
    ensures b == 0 && c == 0 && d == 0 && a > 0 ==> OrTree(a, b, c, d, m) == Moderate
    ensures a == 0 && b == 0 && c == 0 && d == 0 ==> OrTree(a, b, c, d, m) == Severe
  {
    var rules := OrRules(a, b, c, d, m);
    OrRulesExactlyOne(a, b, c, d, m);
    ExclusiveDecides(rules, FirstMatch(rules), Mild);
  }

  /** With two or more zero cells the category does not depend on ε. */
  lemma OrManyZerosIgnoresEpsilon(a: int, b: int, c: int, d: int, m: real, m': real)
    requires NonNegative(a, b, c, d) && ZeroCount(a, b, c, d) >= 2
    ensures OrTree(a, b, c, d, m) == OrTree(a, b, c, d, m')
  {
    OrManyZeros(a, b, c, d, m);
    OrManyZeros(a, b, c, d, m');
  }
}
