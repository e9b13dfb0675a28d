/**
 * Scalar helpers shared by the three lidar widgets: the `clamp` every
 * parameter setter goes through, and JavaScript's `Math.round`.
 * Numbers are modelled as mathematical reals, not IEEE doubles.
 */
module Numeric {

  function Min(a: real, b: real): real {
    if a <= b then a else b
  }

  function Max(a: real, b: real): real {
    if a >= b then a else b
  }

  function MinInt(a: int, b: int): int {
    if a <= b then a else b
  }

  function MaxInt(a: int, b: int): int {
    if a >= b then a else b
  }

  /** `clamp(value, min, max)`, i.e. `Math.min(max, Math.max(min, value))`. */
  function Clamp(value: real, lo: real, hi: real): (r: real)
    ensures lo <= hi ==> lo <= r <= hi
    ensures lo <= value <= hi ==> r == value
    ensures value < lo && lo <= hi ==> r == lo
    ensures hi < value ==> r == hi
    // with the bounds the wrong way round the outer `Math.min` wins
    ensures hi < lo ==> r == hi
  {
    Min(hi, Max(lo, value))
  }

  /** `Math.round`: the nearest integer, halves rounded up (towards +infinity). */
  function Round(x: real): (r: int)
    ensures (r as real) - 0.5 <= x < (r as real) + 0.5
  {
    (x + 0.5).Floor
  }

  /** A real that denotes a whole number. */
  predicate IsWhole(x: real) {
    x == x.Floor as real
  }

  /** Multiplying by a non-negative factor preserves order. */
  lemma MulMonotone(a: real, b: real, c: real)
    requires a <= b && 0.0 <= c
    ensures a * c <= b * c
  {
  }

  /** The product of two bounded non-negative factors lies between the products of the bounds. */
  lemma ProductBetween(x: real, xLo: real, xHi: real, y: real, yLo: real, yHi: real)
    requires 0.0 <= xLo <= x <= xHi && 0.0 <= yLo <= y <= yHi
    ensures xLo * yLo <= x * y <= xHi * yHi
  {
    MulMonotone(xLo, x, yLo);
    MulMonotone(yLo, y, x);
    MulMonotone(x, xHi, y);
    MulMonotone(y, yHi, xHi);
  }

  /** Scaling both sides by a positive factor preserves and reflects order. */
  lemma ScaledAtMost(t: real, d: real, k: real)
    requires 0.0 < d
    ensures t <= k <==> t * d <= k * d
  {
    if t <= k {
      MulMonotone(t, k, d);
    } else {
      MulMonotone(k, t, d);
      assert k * d != t * d;
    }
  }

  lemma QuotientAtMost(n: real, d: real, k: real)
    requires 0.0 < d
    ensures n / d <= k <==> n <= k * d
  {
    ScaledAtMost(n / d, d, k);
  }
}
