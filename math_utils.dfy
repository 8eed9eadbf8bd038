/**
 * The numeric helpers every animation and view computation uses
 * (imagura/math_utils.py), over exact reals.
 */
module MathUtils {

  /** `a` if `v < a`, `b` if `v > b`, otherwise `v`. */
  function Clamp(v: real, a: real, b: real): (r: real)
    ensures a <= b ==> a <= r <= b
    ensures a <= v <= b ==> r == v
    ensures v < a ==> r == a
    ensures a <= v && v > b ==> r == b
  {
    if v < a then a else if v > b then b else v
  }

  function Min(x: real, y: real): (r: real)
    ensures r <= x && r <= y && (r == x || r == y)
  {
    if x <= y then x else y
  }

  function Max(x: real, y: real): (r: real)
    ensures r >= x && r >= y && (r == x || r == y)
  {
    if x >= y then x else y
  }

  function Abs(x: real): (r: real)
    ensures r >= 0.0 && (r == x || r == -x)
  {
    if x < 0.0 then -x else x
  }

  /** Python's `int(x)` on a float: truncation toward zero. */
  function Trunc(x: real): (r: int)
    ensures x >= 0.0 ==> r as real <= x < r as real + 1.0
    ensures x < 0.0 ==> r as real - 1.0 < x <= r as real
  {
    if x >= 0.0 then x.Floor else -((-x).Floor)
  }

  /** Linear interpolation from `a` to `b`, with `t` clamped to [0, 1] first. */
  function Lerp(a: real, b: real, t: real): (r: real)
    ensures t <= 0.0 ==> r == a
    ensures t >= 1.0 ==> r == b
    ensures a <= b ==> a <= r <= b
    ensures b <= a ==> b <= r <= a
  {
    Interpolate(a, b, Clamp(t, 0.0, 1.0))
  }

  /** The point a fraction `u` of the way from `a` to `b`. */
  function Interpolate(a: real, b: real, u: real): (r: real)
    requires 0.0 <= u <= 1.0
    ensures u == 0.0 ==> r == a
    ensures u == 1.0 ==> r == b
    ensures a <= b ==> a <= r <= b
    ensures b <= a ==> b <= r <= a
  {
    var r := a + (b - a) * u;
    InterpolateBounds(a, b, u, r);
    r
  }

  lemma ProductNonNeg(a: real, b: real)
    requires 0.0 <= a && 0.0 <= b
    ensures 0.0 <= a * b
  {
  }

  lemma InterpolateBounds(a: real, b: real, u: real, r: real)
    requires 0.0 <= u <= 1.0 && r == a + (b - a) * u
    ensures u == 0.0 ==> r == a
    ensures u == 1.0 ==> r == b
    ensures a <= b ==> a <= r <= b
    ensures b <= a ==> b <= r <= a
  {
    var d := b - a;
    assert d * u + d * (1.0 - u) == d;
    if a <= b {
      ProductNonNeg(d, u);
      ProductNonNeg(d, 1.0 - u);
    } else {
      ProductNonNeg(-d, u);
      ProductNonNeg(-d, 1.0 - u);
      assert (-d) * u == -(d * u) && (-d) * (1.0 - u) == -(d * (1.0 - u));
    }
  }

  lemma QuadBounds(t: real)
    requires 0.0 < t < 1.0
    ensures 0.0 <= 1.0 - (1.0 - t) * (1.0 - t) <= 1.0
  {
  }

  lemma QuadStep(s: real, t: real)
    requires 0.0 < s <= t < 1.0
    ensures 1.0 - (1.0 - s) * (1.0 - s) <= 1.0 - (1.0 - t) * (1.0 - t)
  {
    SquareMonotone(1.0 - t, 1.0 - s);
  }

  lemma SquareMonotone(x: real, y: real)
    requires 0.0 <= x <= y
    ensures x * x <= y * y
  {
  }

  /** Quadratic ease-out: 0 before the start, 1 after the end. */
  function EaseOutQuad(t: real): (r: real)
    ensures t <= 0.0 ==> r == 0.0
    ensures t >= 1.0 ==> r == 1.0
    ensures 0.0 <= r <= 1.0
  {
    if t <= 0.0 then 0.0
    else if t >= 1.0 then 1.0
    else
      QuadBounds(t);
      1.0 - (1.0 - t) * (1.0 - t)
  }

  /** Easing never moves backwards in time. */
  lemma EaseOutQuadMonotone(s: real, t: real)
    requires s <= t
    ensures EaseOutQuad(s) <= EaseOutQuad(t)
  {
    if 0.0 < s && t < 1.0 {
      QuadStep(s, t);
    }
  }

  lemma CubeMonotone(x: real, y: real)
    requires x <= y
    ensures x * x * x <= y * y * y
  {
    if 0.0 <= x {
      CubeMonotoneNonNeg(x, y);
    } else if y <= 0.0 {
      CubeMonotoneNonPos(x, y);
    } else {
      CubeSign(x);
      CubeSign(y);
    }
  }

  lemma CubeMonotoneNonNeg(x: real, y: real)
    requires 0.0 <= x <= y
    ensures x * x * x <= y * y * y
  {
  }

  lemma CubeMonotoneNonPos(x: real, y: real)
    requires x <= y <= 0.0
    ensures x * x * x <= y * y * y
  {
  }

  lemma CubeSign(x: real)
    ensures x < 0.0 ==> x * x * x < 0.0
    ensures x > 0.0 ==> x * x * x > 0.0
  {
  }

  lemma CubicLowBounds(t: real)
    requires 0.0 < t < 0.5
    ensures 0.0 <= 4.0 * t * t * t <= 0.5
  {
    CubeMonotone(t, 0.5);
    CubeSign(t);
  }

  lemma CubicHighBounds(p: real)
    requires -1.0 <= p < 0.0
    ensures 0.5 <= 1.0 + 0.5 * p * p * p <= 1.0
  {
    CubeMonotone(-1.0, p);
    CubeSign(p);
  }

  /** Cubic ease-in-out: accelerating up to t = 0.5, decelerating after. */
  function EaseInOutCubic(t: real): (r: real)
    ensures t <= 0.0 ==> r == 0.0
    ensures t >= 1.0 ==> r == 1.0
    ensures 0.0 < t < 0.5 ==> r <= 0.5
    ensures 0.5 <= t ==> 0.5 <= r
    ensures 0.0 <= r <= 1.0
  {
    if t <= 0.0 then 0.0
    else if t >= 1.0 then 1.0
    else if t < 0.5 then
      CubicLowBounds(t);
      4.0 * t * t * t
    else
      var p := 2.0 * t - 2.0;
      CubicHighBounds(p);
      1.0 + 0.5 * p * p * p
  }

  /** Easing never moves backwards in time. */
  lemma EaseInOutCubicMonotone(s: real, t: real)
    requires s <= t
    ensures EaseInOutCubic(s) <= EaseInOutCubic(t)
  {
    if s <= 0.0 || t >= 1.0 {
    } else if t < 0.5 {
      CubeMonotone(s, t);
    } else if s >= 0.5 {
      var p, q := 2.0 * s - 2.0, 2.0 * t - 2.0;
      CubeMonotone(p, q);
    }
  }

  /** Squared Euclidean distance between two points. */
  function DistanceSquared(x1: real, y1: real, x2: real, y2: real): (r: real)
    ensures 0.0 <= r
    ensures x1 == x2 && y1 == y2 ==> r == 0.0
  {
    var dx := x2 - x1;
    var dy := y2 - y1;
    SquaresNonNeg(dx, dy);
    dx * dx + dy * dy
  }

  lemma SquaresNonNeg(dx: real, dy: real)
    ensures 0.0 <= dx * dx + dy * dy
  {
  }

  /** The distance from p to q is the distance from q to p. */
  lemma DistanceSquaredSymmetric(x1: real, y1: real, x2: real, y2: real)
    ensures DistanceSquared(x1, y1, x2, y2) == DistanceSquared(x2, y2, x1, y1)
  {
    NegSquare(x2 - x1);
    NegSquare(y2 - y1);
  }

  lemma NegSquare(d: real)
    ensures (-d) * (-d) == d * d
  {
  }
}
