/** The JavaScript `Math` functions the dashboards rely on, over exact reals. */
module Numeric {

  /** `Math.min` of two numbers. */
  function Min(a: real, b: real): (r: real)
    ensures r <= a && r <= b
    ensures r == a || r == b
  {
    if a <= b then a else b
  }

  /** `Math.max` of two numbers. */
  function Max(a: real, b: real): (r: real)
    ensures r >= a && r >= b
    ensures r == a || r == b
  {
    if a >= b then a else b
  }

  /** `Math.round`: the nearest integer, a half rounded towards +infinity. */
  function Round(x: real): (n: int)
    ensures n as real - 0.5 <= x < n as real + 0.5
  {
    (x + 0.5).Floor
  }

  /** Rounding preserves order. */
  lemma RoundMonotone(x: real, y: real)
    requires x <= y
    ensures Round(x) <= Round(y)
  {
  }

  /** A value that is already an integer rounds to itself. */
  lemma RoundExact(n: int)
    ensures Round(n as real) == n
  {
  }

  /** The product of two positive reals is positive. */
  lemma MulPositive(a: real, b: real)
    requires 0.0 < a && 0.0 < b
    ensures 0.0 < a * b
  {
  }

  /** Scaling by a positive factor keeps a strict order. */
  lemma MulStrictlyIncreasing(w: real, a: real, b: real)
    requires 0.0 < w && a < b
    ensures w * a < w * b
  {
    assert w * b - w * a == w * (b - a);
    MulPositive(w, b - a);
  }

  /** Scaling a non-negative real by a factor in [0, 1] does not enlarge it. */
  lemma MulAtMostOne(a: real, t: real)
    requires 0.0 <= a && 0.0 <= t <= 1.0
    ensures a * t <= a
  {
    assert a - a * t == a * (1.0 - t);
    if a > 0.0 && t < 1.0 {
      MulPositive(a, 1.0 - t);
    }
  }
}
