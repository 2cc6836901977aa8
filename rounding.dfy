/**
 * The rounding used wherever the source finalises a kPa value or a
 * percentage: `Math.round(x * 10) / 10`.  JavaScript's `Math.round` rounds
 * halves up (towards +infinity), so it is `Floor(x + 1/2)`.
 */
module Rounding {

  /** `Math.round(x)`: the integer n with n - 1/2 <= x < n + 1/2. */
  function MathRound(x: real): (n: int)
    ensures n as real - 0.5 <= x < n as real + 0.5
  {
    (x + 0.5).Floor
  }

  /** A value that already has at most one decimal. */
  predicate OneDecimal(x: real) {
    (x * 10.0).Floor as real == x * 10.0
  }

  /** `Math.round(x * 10) / 10`. */
  function Round1(x: real): (r: real)
    ensures OneDecimal(r)
    ensures r - 0.05 <= x < r + 0.05
  {
    var n := MathRound(x * 10.0);
    assert (n as real / 10.0) * 10.0 == n as real;
    n as real / 10.0
  }

  /** Rounding leaves a one-decimal value unchanged. */
  lemma Round1Fixes(x: real)
    requires OneDecimal(x)
    ensures Round1(x) == x
  {
    var k := (x * 10.0).Floor;
    assert MathRound(x * 10.0) == k;
  }

  /** Rounding is monotone. */
  lemma Round1Monotone(x: real, y: real)
    requires x <= y
    ensures Round1(x) <= Round1(y)
  {
    var a, b := MathRound(x * 10.0), MathRound(y * 10.0);
    assert a as real <= y * 10.0 + 0.5 < b as real + 1.0;
    assert a <= b;
    assert a as real / 10.0 <= b as real / 10.0;
  }

  /** Rounding a value in [lo, hi] with one-decimal bounds stays in [lo, hi]. */
  lemma Round1Within(x: real, lo: real, hi: real)
    requires OneDecimal(lo) && OneDecimal(hi)
    requires lo <= x <= hi
    ensures lo <= Round1(x) <= hi
  {
    Round1Monotone(lo, x);
    Round1Monotone(x, hi);
    Round1Fixes(lo);
    Round1Fixes(hi);
  }
}
