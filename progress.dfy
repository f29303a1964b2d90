/**
 * The percentage the budget and goal rows show in their progress bars:
 * `(int) ((part / whole) * 100)` when `whole > 0`, else 0. The quotient is taken
 * exactly; the cast truncates toward zero and clamps to the 32-bit `int` range.
 */
module Progress {
  const INT_MIN: int := -0x8000_0000
  const INT_MAX: int := 0x7FFF_FFFF

  /** Division truncating toward zero, as Java's cast of a quotient does (Dafny's `/` is Euclidean). */
  function TruncDiv(a: int, b: int): (q: int)
    requires b > 0
    ensures a >= 0 ==> q * b <= a < q * b + b
    ensures a < 0 ==> q * b - b < a <= q * b
    ensures a >= 0 ==> q >= 0
    ensures a < 0 ==> q <= 0
  {
    if a >= 0 then a / b else -((-a) / b)
  }

  /** The cast's clamping to the `int` range. */
  function Saturate(x: int): (r: int)
    ensures INT_MIN <= r <= INT_MAX
    ensures INT_MIN <= x <= INT_MAX ==> r == x
  {
    if x < INT_MIN then INT_MIN else if x > INT_MAX then INT_MAX else x
  }

  /** The bar's value for `part` out of `whole`, both in cents. */
  function Percent(part: int, whole: int): (p: int)
    ensures whole <= 0 ==> p == 0
    ensures INT_MIN <= p <= INT_MAX
  {
    if whole > 0 then Saturate(TruncDiv(part * 100, whole)) else 0
  }

  /** For a positive factor, comparing products compares the other factors. */
  lemma MulCompare(x: int, y: int, w: int)
    requires w > 0
    ensures x * w <= y * w <==> x <= y
  {
    assert y * w - x * w == (y - x) * w;
  }

  /**
   * Above 100 exactly when the part reaches 101 percent of the whole: the truncation
   * hides any excess under one percent.
   */
  lemma PercentAbove100(part: int, whole: int)
    ensures Percent(part, whole) > 100 <==> whole > 0 && part * 100 >= 101 * whole
  {
    if whole > 0 {
      var q := TruncDiv(part * 100, whole);
      MulCompare(q, 100, whole);
      MulCompare(101, q, whole);
    }
  }

  /** A part no larger than the whole never shows more than 100, and a non-negative one never less than 0. */
  lemma PercentWithinWhole(part: int, whole: int)
    requires whole > 0 && 0 <= part <= whole
    ensures 0 <= Percent(part, whole) <= 100
  {
    var q := TruncDiv(part * 100, whole);
    MulCompare(part, whole, 100);
    MulCompare(q, 100, whole);
  }

  /** A negative part, as a decremented spent amount can be, shows a bar of at most 0. */
  lemma NegativePartNotPositive(part: int, whole: int)
    requires whole > 0 && part < 0
    ensures Percent(part, whole) <= 0
  {
  }
}
