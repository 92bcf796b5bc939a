/**
 * The classification entry point of the single-table and batch pages:
 * pick the classifier for the chosen measure, passing the row totals
 * nt = a + b and nc = c + d to the relative-risk and risk-difference
 * classifiers.
 */
module Dispatch {
  import opened Tables
  import opened Rules
  import opened OddsRatio
  import opened RelativeRisk
  import opened RiskDifference

  /** The summary measure the user selects. */
  datatype Measure = OR | RR | RD

  function Classify(measure: Measure, a: int, b: int, c: int, d: int, epsilon: real, levels: int): (r: Verdict)
    requires measure == OR ==> epsilon != 0.0 || (a > 0 && b > 0 && c > 0 && d > 0)
    ensures r.Err? <==> a > 0 && b > 0 && c > 0 && d > 0
    ensures levels == 2 ==> r != Ok(Moderate)
    ensures measure == RD ==> r != Ok(Moderate)
    ensures measure == OR ==> r == ClassifyOr(a, b, c, d, epsilon, levels)
    ensures measure == RR ==> r == ClassifyRr(a, b, c, d, a + b, c + d, levels)
    ensures measure == RD ==> r == ClassifyRd(a, b, c, d, a + b, c + d, levels)
  {
    var nt, nc := a + b, c + d;
    match measure
    case OR => ClassifyOr(a, b, c, d, epsilon, levels)
    case RR => ClassifyRr(a, b, c, d, nt, nc, levels)
    case RD => ClassifyRd(a, b, c, d, nt, nc, levels)
  }

  /**
   * With the totals the callers compute, the risk-difference test nt == nc
   * becomes b == d for a zero left column and a == c for a zero right column.
   */
  lemma ClassifyRdWithRowTotals(a: int, b: int, c: int, d: int, epsilon: real, levels: int)
    requires NonNegative(a, b, c, d)
    ensures Classify(RD, a, b, c, d, epsilon, levels) == Ok(Severe) <==>
      || ZeroCount(a, b, c, d) == 3
      || (a == 0 && c == 0 && b > 0 && d > 0 && b != d)
      || (b == 0 && d == 0 && a > 0 && c > 0 && a != c)
  {
    var tree := RdTree(a, b, c, d, a + b, c + d);
    RdSevere(a, b, c, d, a + b, c + d);
    RdNeverModerate(a, b, c, d, a + b, c + d);
    assert Collapse(tree, levels) == tree;
    if ZeroCount(a, b, c, d) == 0 {
      assert a > 0 && b > 0 && c > 0 && d > 0;
    } else {
      assert Classify(RD, a, b, c, d, epsilon, levels) == Ok(tree);
    }
  }

  /**
   * Through the whole odds-ratio path, a table with one zero cell is graded
   * by its opposite cell against the zero's two neighbours x and y:
   * Mild up to x + y, Moderate up to x + y + m·x·y, Severe above (with two
   * levels the last two merge into Severe).
   */
  lemma ClassifyOrOneZero(a: int, b: int, c: int, d: int, epsilon: real, levels: int)
    requires NonNegative(a, b, c, d) && ZeroCount(a, b, c, d) == 1 && epsilon != 0.0
    ensures Classify(OR, a, b, c, d, epsilon, levels).Ok?
    ensures levels != 2 && a == 0 ==> GradedBy(Classify(OR, a, b, c, d, epsilon, levels).category, d, b, c, 1.0 / epsilon)
    ensures levels != 2 && b == 0 ==> GradedBy(Classify(OR, a, b, c, d, epsilon, levels).category, c, a, d, 1.0 / epsilon)
    ensures levels != 2 && c == 0 ==> GradedBy(Classify(OR, a, b, c, d, epsilon, levels).category, b, a, d, 1.0 / epsilon)
    ensures levels != 2 && d == 0 ==> GradedBy(Classify(OR, a, b, c, d, epsilon, levels).category, a, b, c, 1.0 / epsilon)
    ensures levels == 2 && a == 0 ==> (Classify(OR, a, b, c, d, epsilon, levels) == Ok(Mild) <==> d <= b + c)
    ensures levels == 2 && b == 0 ==> (Classify(OR, a, b, c, d, epsilon, levels) == Ok(Mild) <==> c <= a + d)
    ensures levels == 2 && c == 0 ==> (Classify(OR, a, b, c, d, epsilon, levels) == Ok(Mild) <==> b <= a + d)
    ensures levels == 2 && d == 0 ==> (Classify(OR, a, b, c, d, epsilon, levels) == Ok(Mild) <==> a <= b + c)
  {
    var m := 1.0 / epsilon;
    var tree := OrTree(a, b, c, d, m);
    OrOneZero(a, b, c, d, m);
    assert Classify(OR, a, b, c, d, epsilon, levels) == Ok(Collapse(tree, levels));
  }

  /**
   * Through the whole odds-ratio path, the category of every table with two
   * or more zero cells, for any ε: Mild or Severe by the 2k(k+1) test for a
   * zero row or column, Moderate for the other patterns that give it (Severe
   * with two levels), Mild for zeros at b and c, Severe for all zeros.
   */
  lemma ClassifyOrManyZeros(a: int, b: int, c: int, d: int, epsilon: real, levels: int)
    requires NonNegative(a, b, c, d) && ZeroCount(a, b, c, d) >= 2 && epsilon != 0.0
    ensures var moderate := if levels == 2 then Severe else Moderate;
      && (a == 0 && b == 0 && c > 0 && d > 0 ==>
           Classify(OR, a, b, c, d, epsilon, levels) == Ok(if d <= 2 * c * (c + 1) then Mild else Severe))
      && (a == 0 && c == 0 && b > 0 && d > 0 ==>
           Classify(OR, a, b, c, d, epsilon, levels) == Ok(if d <= 2 * b * (b + 1) then Mild else Severe))
      && (a == 0 && d == 0 && b > 0 && c > 0 ==> Classify(OR, a, b, c, d, epsilon, levels) == Ok(moderate))
      && (b == 0 && c == 0 && a > 0 && d > 0 ==> Classify(OR, a, b, c, d, epsilon, levels) == Ok(Mild))
      && (b == 0 && d == 0 && a > 0 && c > 0 ==>
           Classify(OR, a, b, c, d, epsilon, levels) == Ok(if a <= 2 * c * (c + 1) then Mild else Severe))
      && (c == 0 && d == 0 && a > 0 && b > 0 ==>
           Classify(OR, a, b, c, d, epsilon, levels) == Ok(if a <= 2 * b * (b + 1) then Mild else Severe))
      && (a == 0 && b == 0 && c == 0 && d > 0 ==> Classify(OR, a, b, c, d, epsilon, levels) == Ok(Severe))
      && (a == 0 && b == 0 && d == 0 && c > 0 ==> Classify(OR, a, b, c, d, epsilon, levels) == Ok(moderate))
      && (a == 0 && c == 0 && d == 0 && b > 0 ==> Classify(OR, a, b, c, d, epsilon, levels) == Ok(Severe))
      && (b == 0 && c == 0 && d == 0 && a > 0 ==> Classify(OR, a, b, c, d, epsilon, levels) == Ok(moderate))
      && (a == 0 && b == 0 && c == 0 && d == 0 ==> Classify(OR, a, b, c, d, epsilon, levels) == Ok(Severe))
  {
    var tree := OrTree(a, b, c, d, 1.0 / epsilon);
    OrManyZeros(a, b, c, d, 1.0 / epsilon);
    assert Classify(OR, a, b, c, d, epsilon, levels) == Ok(Collapse(tree, levels));
  }

  /**
   * Through the whole odds-ratio path, raising the cell opposite the single
   * zero never lowers the category, at any level count.
   */
  lemma ClassifyOrMonotoneInOpposite(a: int, b: int, c: int, d: int, a': int, b': int, c': int, d': int, epsilon: real, levels: int)
    requires NonNegative(a, b, c, d) && ZeroCount(a, b, c, d) == 1 && epsilon != 0.0
    requires OppositeRaised(a, b, c, d, a', b', c', d')
    ensures Classify(OR, a, b, c, d, epsilon, levels).Ok? && Classify(OR, a', b', c', d', epsilon, levels).Ok?
    ensures Rank(Classify(OR, a, b, c, d, epsilon, levels).category) <= Rank(Classify(OR, a', b', c', d', epsilon, levels).category)
  {
    var m := 1.0 / epsilon;
    OrMonotoneInOpposite(a, b, c, d, a', b', c', d', m);
    CollapseMonotone(OrTree(a, b, c, d, m), OrTree(a', b', c', d', m), levels);
  }

  /**
   * Through the whole relative-risk path: with three levels, Moderate comes
   * only from the first two rules and Severe only from b = d = 0 with a ≠ c;
   * with two levels, Severe is the union of both.
   */
  lemma ClassifyRrCategories(a: int, b: int, c: int, d: int, epsilon: real, levels: int)
    requires NonNegative(a, b, c, d)
    ensures levels != 2 ==> (Classify(RR, a, b, c, d, epsilon, levels) == Ok(Moderate) <==>
      || (a == 0 && b > 0 && c > 0 && d > 0 && d > b + c)
      || (c == 0 && a > 0 && b > 0 && d > 0 && b <= d + a))
    ensures levels != 2 ==> (Classify(RR, a, b, c, d, epsilon, levels) == Ok(Severe) <==> b == 0 && d == 0 && a != c)
    ensures levels == 2 ==> (Classify(RR, a, b, c, d, epsilon, levels) == Ok(Severe) <==>
      || (a == 0 && b > 0 && c > 0 && d > 0 && d > b + c)
      || (c == 0 && a > 0 && b > 0 && d > 0 && b <= d + a)
      || (b == 0 && d == 0 && a != c))
  {
    var tree := RrTree(a, b, c, d, a + b, c + d);
    RrModerate(a, b, c, d, a + b, c + d);
    RrSevere(a, b, c, d, a + b, c + d);
    if a > 0 && b > 0 && c > 0 && d > 0 {
      assert Classify(RR, a, b, c, d, epsilon, levels).Err?;
    } else {
      assert Classify(RR, a, b, c, d, epsilon, levels) == Ok(Collapse(tree, levels));
    }
  }

  /**
   * Concrete tables, starting with the single-table page's default input
   * (5, 1, 0, 10); ε = 0.5 throughout, so m = 2.
   */
  lemma WorkedExamples()
    ensures Classify(OR, 5, 1, 0, 10, 0.5, 3) == Ok(Mild)
    ensures Classify(OR, 0, 1, 2, 5, 0.5, 3) == Ok(Moderate)
    ensures Classify(OR, 0, 1, 2, 5, 0.5, 2) == Ok(Severe)
    ensures Classify(RR, 0, 5, 3, 1, 0.5, 3) == Ok(Mild)
    ensures Classify(RD, 0, 3, 0, 4, 0.5, 3) == Ok(Severe)
    ensures Classify(OR, 0, 0, 0, 0, 0.5, 3) == Ok(Severe)
  {
    OrOneZeroRule(5, 1, 0, 10, 2.0);
    OrOneZeroRule(0, 1, 2, 5, 2.0);
    RrModerate(0, 5, 3, 1, 5, 4);
    RrSevere(0, 5, 3, 1, 5, 4);
    RdSevere(0, 3, 0, 4, 3, 4);
    OrManyZeros(0, 0, 0, 0, 2.0);
  }
}
