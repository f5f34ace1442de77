/**
 * The handful of JavaScript `Math` operations the application uses, stated over
 * Dafny's unbounded `real` and `int`.  IEEE-754 effects (NaN, infinities, -0,
 * rounding of binary fractions) are not part of this model.
 */
module Numeric {

  function Abs(x: real): (r: real)
    ensures r >= 0.0
  {
    if x < 0.0 then -x else x
  }

  /** `Math.min` on two numbers. */
  function Min(a: real, b: real): (r: real)
    ensures r <= a && r <= b
    ensures r == a || r == b
  {
    if a <= b then a else b
  }

  /** `Math.max` on two numbers. */
  function Max(a: real, b: real): (r: real)
    ensures r >= a && r >= b
    ensures r == a || r == b
  {
    if a >= b then a else b
  }

  /** The idiom `Math.max(lo, Math.min(hi, x))`. */
  function Clamp(x: real, lo: real, hi: real): (r: real)
    requires lo <= hi
    ensures lo <= r <= hi
    ensures lo <= x <= hi ==> r == x
    ensures x < lo ==> r == lo
    ensures x > hi ==> r == hi
  {
    Max(lo, Min(hi, x))
  }

  /** `Math.floor`. */
  function Floor(x: real): (r: int)
    ensures r as real <= x < r as real + 1.0
  {
    x.Floor
  }

  /** `Math.ceil`. */
  function Ceil(x: real): (r: int)
    ensures r as real - 1.0 < x <= r as real
  {
    -((-x).Floor)
  }

  /** Truncation toward zero, as done by `x | 0` on values inside the 32-bit range. */
  function Trunc(x: real): (r: int)
    ensures x >= 0.0 ==> 0 <= r && r as real <= x < r as real + 1.0
    ensures x < 0.0 ==> r <= 0 && r as real - 1.0 < x <= r as real
  {
    if x >= 0.0 then x.Floor else -((-x).Floor)
  }

  /** `Math.round`: the nearest integer, halves rounded up (toward +infinity). */
  function JsRound(x: real): (r: int)
    ensures r as real - 0.5 <= x < r as real + 0.5
  {
    (x + 0.5).Floor
  }

  lemma {:induction false} TruncMonotone(x: real, y: real)
    requires x <= y
    ensures Trunc(x) <= Trunc(y)
  {
    if x >= 0.0 {
      assert x.Floor <= y.Floor;
    } else if y < 0.0 {
      assert (-y).Floor <= (-x).Floor;
    }
  }

  /** A multiple of `m` divides exactly: the quotient is the multiplier, the remainder 0. */
  lemma MulDivExact(n: int, m: int)
    requires m > 0
    ensures (n * m) % m == 0 && (n * m) / m == n
  {
    var x := n * m;
    var q := x / m;
    var r := x % m;
    assert x == m * q + r && 0 <= r < m;
    assert m * (n - q) == r;
    MulAwayFromZero(n - q, m);
  }

  lemma MulAwayFromZero(a: int, m: int)
    requires m > 0
    ensures a >= 1 ==> m * a >= m
    ensures a <= -1 ==> m * a <= -m
  {
    if a >= 1 {
      assert m * a == m * (a - 1) + m;
    } else if a <= -1 {
      assert m * a == m * (a + 1) - m;
    }
  }

  /** Dividing by a positive number keeps order. */
  lemma DivMonotone(a: real, b: real, t: real)
    requires t > 0.0 && a <= b
    ensures a / t <= b / t
  {
    var qa := a / t;
    var qb := b / t;
    assert qa * t == a;
    assert qb * t == b;
    assert (qb - qa) * t == b - a;
    PositiveFactor(qb - qa, t);
  }

  lemma PositiveFactor(x: real, t: real)
    requires t > 0.0 && x * t >= 0.0
    ensures x >= 0.0
  {
  }

  /**
   * The fraction `q` of `whole`, `q * whole`.  Products of two variables are
   * kept behind this name so that their bounds are proved once, below.
   */
  function Part(q: real, whole: real): real {
    q * whole
  }

  lemma PartBounds(q: real, whole: real)
    requires 0.0 <= q <= 1.0 && whole >= 0.0
    ensures 0.0 <= Part(q, whole) <= whole
  {
    assert whole - q * whole == (1.0 - q) * whole;
  }

  lemma PartMonotone(q1: real, q2: real, whole: real)
    requires q1 <= q2 && whole >= 0.0
    ensures Part(q1, whole) <= Part(q2, whole)
  {
    assert q2 * whole - q1 * whole == (q2 - q1) * whole;
  }

  /** A quantity between zero and `d` is a fraction of `d` between zero and one. */
  lemma UnitFraction(t: real, d: real)
    ensures d > 0.0 && 0.0 <= t <= d ==> 0.0 <= t / d <= 1.0
    ensures d > 0.0 ==> d / d == 1.0
  {
    if d > 0.0 {
      var q := d / d;
      assert q * d == d;
      assert (q - 1.0) * d == 0.0;
      PositiveFactor(q - 1.0, d);
      PositiveFactor(1.0 - q, d);
    }
    if d > 0.0 && 0.0 <= t <= d {
      DivMonotone(0.0, t, d);
      DivMonotone(t, d, d);
    }
  }

  /** Dividing by a positive number keeps strict order. */
  lemma DivStrict(a: real, b: real, t: real)
    requires t > 0.0 && a < b
    ensures a / t < b / t
  {
    var qa := a / t;
    var qb := b / t;
    assert qa * t == a;
    assert qb * t == b;
    assert (qb - qa) * t == b - a;
  }
}
