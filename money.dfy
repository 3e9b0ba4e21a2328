/**
 * Money is held in integer cents and ratings in tenths, so that `toFixed(2)` and
 * `toFixed(1)` become one explicit rounding step: a non-negative rational n/d
 * rounded to the nearest integer, halves going up (what `toFixed` does for
 * non-negative exact values).
 */
module Money {

  /** round(n / d), halves up. */
  function RoundHalfUp(n: nat, d: nat): (r: nat)
    requires d > 0
  {
    (2 * n + d) / (2 * d)
  }

  /**
   * `+x.toFixed(k)` for a value x = n/d of either sign: JavaScript rounds the
   * magnitude, halves away from zero.
   */
  function Round(n: int, d: nat): (r: int)
    requires d > 0
    ensures n >= 0 ==> r >= 0
    ensures n <= 0 ==> r <= 0
  {
    if n >= 0 then RoundHalfUp(n, d) else -(RoundHalfUp(-n, d) as int)
  }

  /** The rounded value is the nearest integer: its distance to n/d is at most one half. */
  lemma RoundHalfUpNearest(n: nat, d: nat)
    requires d > 0
    ensures 2 * n - d < 2 * d * RoundHalfUp(n, d) <= 2 * n + d
  {
    var q := RoundHalfUp(n, d);
    assert 2 * d * q <= 2 * n + d < 2 * d * q + 2 * d;
  }

  /** An exact quotient is left unchanged. */
  lemma RoundHalfUpExact(q: nat, d: nat)
    requires d > 0
    ensures RoundHalfUp(q * d, d) == q
  {
    RoundHalfUpNearest(q * d, d);
    var r := RoundHalfUp(q * d, d);
    assert 2 * d * (q - 1) < 2 * d * r <= 2 * d * q + d;
    assert 2 * d * r < 2 * d * (q + 1);
    MulLessCancel(2 * d, q - 1, r);
    MulLessCancel(2 * d, r, q + 1);
  }

  /** Rounding is monotone in the numerator. */
  lemma RoundHalfUpMonotone(n: nat, m: nat, d: nat)
    requires d > 0 && n <= m
    ensures RoundHalfUp(n, d) <= RoundHalfUp(m, d)
  {
    DivMonotone(2 * n + d, 2 * m + d, 2 * d);
  }

  lemma MulLessCancel(k: int, a: int, b: int)
    requires k > 0 && k * a < k * b
    ensures a < b
  {
    assert k * (b - a) > 0;
  }

  lemma DivMonotone(a: nat, b: nat, d: nat)
    requires d > 0 && a <= b
    ensures a / d <= b / d
  {
    var qa, qb := a / d, b / d;
    assert d * qa <= a <= b < d * (qb + 1);
    MulLessCancel(d, qa, qb + 1);
  }
}
