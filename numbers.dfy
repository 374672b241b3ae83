/** The integer arithmetic the pages do with JavaScript numbers. */
module Numbers {

  /**
   * `Math.round(n / d)`: the nearest integer to the quotient, halves rounded up
   * (towards positive infinity, as `Math.round` does).
   */
  function RoundHalfUp(n: int, d: int): (r: int)
    requires d != 0
    ensures d > 0 ==> 2 * r * d - d <= 2 * n < 2 * r * d + d
    ensures d < 0 ==> 2 * r * d - d >= 2 * n > 2 * r * d + d
  {
    var num, den := if d > 0 then n else -n, if d > 0 then d else -d;
    var q := (2 * num + den) / (2 * den);
    assert 2 * den * q <= 2 * num + den < 2 * den * q + 2 * den;
    q
  }

  /** A product with a positive factor is at most zero only when the other factor is. */
  lemma PositiveFactor(a: int, d: int)
    requires d > 0 && a * d <= 0
    ensures a <= 0
  {
  }

  /** A quotient of at most `bound` rounds to at most `bound`. */
  lemma RoundHalfUpAtMost(n: int, d: int, bound: int)
    requires d > 0 && n <= bound * d
    ensures RoundHalfUp(n, d) <= bound
  {
    var r := RoundHalfUp(n, d);
    assert (2 * r - 1 - 2 * bound) * d <= 0;
    PositiveFactor(2 * r - 1 - 2 * bound, d);
  }

  /** A non-negative quotient rounds to a non-negative integer. */
  lemma RoundHalfUpNonNegative(n: int, d: int)
    requires d > 0 && n >= 0
    ensures RoundHalfUp(n, d) >= 0
  {
    var r := RoundHalfUp(n, d);
    assert (2 * r + 1) * d > 0;
    PositiveFactor(-(2 * r + 1), d);
  }

  /** Rounding keeps the order of numerators over the same positive denominator. */
  lemma RoundHalfUpMonotone(a: int, b: int, d: int)
    requires d > 0 && a <= b
    ensures RoundHalfUp(a, d) <= RoundHalfUp(b, d)
  {
    var r, s := RoundHalfUp(a, d), RoundHalfUp(b, d);
    assert 2 * r * d - 2 * s * d < 2 * d;
    assert (r - s - 1) * d == r * d - s * d - d;
    NegativeFactor(r - s - 1, d);
  }

  /** A product with a positive factor is negative only when the other factor is. */
  lemma NegativeFactor(a: int, d: int)
    requires d > 0 && a * d < 0
    ensures a < 0
  {
  }

  /** An exact quotient rounds to itself. */
  lemma RoundHalfUpExact(k: int, d: int)
    requires d > 0
    ensures RoundHalfUp(k * d, d) == k
  {
    RoundHalfUpAtMost(k * d, d, k);
    var r := RoundHalfUp(k * d, d);
    assert (2 * k - 2 * r - 1) * d < 0;
    PositiveFactor(2 * k - 2 * r - 1, d);
  }
}
