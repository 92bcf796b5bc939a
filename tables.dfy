/**
 * The vocabulary shared by the three classifiers: the sparseness
 * categories, the result of a classification, the sparseness check
 * and the collapse of three levels into two.
 */
module Tables {

  /** The sparseness category a table is classified into. */
  datatype Category = Mild | Moderate | Severe

  /** The one error the classifiers report: the table has no zero cell. */
  datatype SparseError = NotSparse

  datatype Option<T> = None | Some(value: T)

  /** What a classifier returns: the error, or a category. */
  datatype Verdict = Err(error: SparseError) | Ok(category: Category)

  /** The order Mild < Moderate < Severe, used to state monotonicity. */
  function Rank(c: Category): nat
  {
    match c
    case Mild => 0
    case Moderate => 1
    case Severe => 2
  }

  /** The cell counts a caller is expected to supply. */
  predicate NonNegative(a: int, b: int, c: int, d: int)
  {
    a >= 0 && b >= 0 && c >= 0 && d >= 0
  }

  /** How many of the four cells are zero. */
  function ZeroCount(a: int, b: int, c: int, d: int): nat
  {
    (if a == 0 then 1 else 0) + (if b == 0 then 1 else 0) +
    (if c == 0 then 1 else 0) + (if d == 0 then 1 else 0)
  }

  /** Whether every element of `s` is strictly positive, element by element. */
  function AllPositive(s: seq<int>): (r: bool)
    ensures r <==> forall i :: 0 <= i < |s| ==> s[i] > 0
  {
    if |s| == 0 then true else s[0] > 0 && AllPositive(s[1..])
  }

  /** The sparseness check: an error exactly when all four cells are positive. */
  function CheckSparse(a: int, b: int, c: int, d: int): (err: Option<SparseError>)
    ensures err.Some? <==> a > 0 && b > 0 && c > 0 && d > 0
    ensures err.Some? ==> ZeroCount(a, b, c, d) == 0
  {
    var cells := [a, b, c, d];
    assert cells[0] == a && cells[1] == b && cells[2] == c && cells[3] == d;
    if AllPositive(cells) then Some(NotSparse) else None
  }

  /** Two-level mode merges Moderate into Severe; any other level count keeps the category. */
  function Collapse(result: Category, levels: int): (r: Category)
    ensures levels == 2 ==> r != Moderate
    ensures levels != 2 || result != Moderate ==> r == result
    ensures Rank(result) <= Rank(r)
  {
    if levels == 2 && result == Moderate then Severe else result
  }

  lemma CollapseIdempotent(result: Category, levels: int)
    ensures Collapse(Collapse(result, levels), levels) == Collapse(result, levels)
  {
  }

  /** Collapsing keeps the order of categories. */
  lemma CollapseMonotone(x: Category, y: Category, levels: int)
    requires Rank(x) <= Rank(y)
    ensures Rank(Collapse(x, levels)) <= Rank(Collapse(y, levels))
  {
  }

  lemma PositiveProduct(x: int, y: int)
    requires x >= 0 && y >= 0
    ensures x * y >= 0
    ensures x * y > 0 <==> x > 0 && y > 0
  {
    if x > 0 && y > 0 {
      assert x * y >= y;
    }
  }

  /**
   * For non-negative cells a product guard such as `b * c * d > 0`
   * holds exactly when every factor is positive.
   */
  lemma GuardProducts(a: int, b: int, c: int, d: int)
    requires NonNegative(a, b, c, d)
    ensures (b * c * d > 0 <==> b > 0 && c > 0 && d > 0)
    ensures (a * c * d > 0 <==> a > 0 && c > 0 && d > 0)
    ensures (a * b * d > 0 <==> a > 0 && b > 0 && d > 0)
    ensures (a * b * c > 0 <==> a > 0 && b > 0 && c > 0)
    ensures (a * b > 0 <==> a > 0 && b > 0)
    ensures (a * c > 0 <==> a > 0 && c > 0)
    ensures (a * d > 0 <==> a > 0 && d > 0)
    ensures (b * c > 0 <==> b > 0 && c > 0)
    ensures (b * d > 0 <==> b > 0 && d > 0)
    ensures (c * d > 0 <==> c > 0 && d > 0)
  {
    PositiveProduct(a, b);
    PositiveProduct(a, c);
    PositiveProduct(a, d);
    PositiveProduct(b, c);
    PositiveProduct(b, d);
    PositiveProduct(c, d);
    PositiveProduct(b * c, d);
    PositiveProduct(a * c, d);
    PositiveProduct(a * b, d);
    PositiveProduct(a * b, c);
  }
}
