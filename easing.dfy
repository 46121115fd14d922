/** The two interpolation primitives of the render loop: the linear interpolation step that
    every panel and camera coordinate uses (three.js `MathUtils.lerp`), and the cubic in/out
    easing curve `smoothEasing` that the frame callback defines but never calls. */
module Easing {
  import opened Common

  /** `THREE.MathUtils.lerp(x, y, t)`, which three.js defines as `(1 - t) * x + t * y`. */
  function Lerp(x: real, y: real, t: real): real
  {
    (1.0 - t) * x + t * y
  }

  /** `r` lies on the closed segment between `a` and `b`, whichever is larger. */
  predicate Between(r: real, a: real, b: real)
  {
    (a <= r <= b) || (b <= r <= a)
  }

  /** One lerp step covers the fraction `t` of the way: the remaining gap to the target is
      the old gap scaled by `1 - t`, and the distance moved is the old gap scaled by `t`. */
  lemma LerpGap(x: real, y: real, t: real)
    ensures y - Lerp(x, y, t) == (1.0 - t) * (y - x)
    ensures Lerp(x, y, t) - x == t * (y - x)
  {
  }

  /** A lerp factor in [0, 1] never overshoots: the result lies between the current value and
      the target, and its distance to the target is the old distance times `1 - t`. */
  lemma LerpNoOvershoot(x: real, y: real, t: real)
    requires 0.0 <= t <= 1.0
    ensures Between(Lerp(x, y, t), x, y)
    ensures Abs(y - Lerp(x, y, t)) == (1.0 - t) * Abs(y - x)
    ensures Abs(Lerp(x, y, t) - x) == t * Abs(y - x)
    ensures Abs(y - Lerp(x, y, t)) <= Abs(y - x)
  {
    LerpGap(x, y, t);
    var g := y - x;
    MulNonneg(1.0 - t, Abs(g));
    MulNonneg(t, Abs(g));
    if g >= 0.0 {
      assert Abs(g) == g;
    } else {
      assert Abs(g) == -g;
      assert (1.0 - t) * g == -((1.0 - t) * Abs(g));
      assert t * g == -(t * Abs(g));
    }
  }

  lemma MulNonneg(a: real, b: real)
    requires a >= 0.0 && b >= 0.0
    ensures a * b >= 0.0
  {
  }

  /** At rest (the value already equals its target) a lerp step leaves it unchanged, whatever
      the factor. */
  lemma LerpAtRest(y: real, t: real)
    ensures Lerp(y, y, t) == y
  {
  }

  function Cube(x: real): real
  {
    x * x * x
  }

  /** `smoothEasing(t)`: `4 t^3` below one half, `1 - (-2 t + 2)^3 / 2` from one half on. */
  function SmoothEasing(t: real): real
  {
    if t < 0.5 then 4.0 * Cube(t) else 1.0 - Cube(-2.0 * t + 2.0) / 2.0
  }

  /** The curve fixes 0, 1/2 and 1, and its two branches meet at 1/2. */
  lemma SmoothEasingFixedPoints()
    ensures SmoothEasing(0.0) == 0.0
    ensures SmoothEasing(0.5) == 0.5 && 4.0 * Cube(0.5) == 0.5
    ensures SmoothEasing(1.0) == 1.0
  {
    assert Cube(0.0) == 0.0;
    assert Cube(1.0) == 1.0;
    assert Cube(0.5) == 0.125;
    assert SmoothEasing(0.0) == 4.0 * Cube(0.0);
    assert SmoothEasing(0.5) == 1.0 - Cube(1.0) / 2.0;
    assert SmoothEasing(1.0) == 1.0 - Cube(0.0) / 2.0;
  }

  lemma CubeMonotone(a: real, b: real)
    requires 0.0 <= a <= b
    ensures 0.0 <= Cube(a) <= Cube(b)
  {
    assert a * a <= b * b by {
      assert a * a <= a * b;
      assert a * b <= b * b;
    }
    assert a * a * a <= b * b * a;
    assert b * b * a <= b * b * b;
  }

  lemma CubeOfDouble(a: real)
    ensures Cube(2.0 * a) == 8.0 * Cube(a)
  {
  }

  /** The curve is symmetric about (1/2, 1/2): easing in mirrors easing out. */
  lemma SmoothEasingSymmetric(t: real)
    requires 0.0 <= t <= 1.0
    ensures SmoothEasing(1.0 - t) == 1.0 - SmoothEasing(t)
  {
    if t < 0.5 {
      assert -2.0 * (1.0 - t) + 2.0 == 2.0 * t;
      CubeOfDouble(t);
    } else if t > 0.5 {
      assert -2.0 * t + 2.0 == 2.0 * (1.0 - t);
      CubeOfDouble(1.0 - t);
    }
  }

  /** On [0, 1] the curve stays within [0, 1]. */
  lemma SmoothEasingRange(t: real)
    requires 0.0 <= t <= 1.0
    ensures 0.0 <= SmoothEasing(t) <= 1.0
  {
    if t < 0.5 {
      CubeMonotone(t, 0.5);
    } else {
      CubeMonotone(-2.0 * t + 2.0, 1.0);
    }
  }

  /** On [0, 1] the curve is non-decreasing. */
  lemma SmoothEasingMonotone(s: real, t: real)
    requires 0.0 <= s <= t <= 1.0
    ensures SmoothEasing(s) <= SmoothEasing(t)
  {
    if t < 0.5 {
      CubeMonotone(s, t);
    } else if s >= 0.5 {
      CubeMonotone(-2.0 * t + 2.0, -2.0 * s + 2.0);
    } else {
      CubeMonotone(s, 0.5);
      CubeMonotone(-2.0 * t + 2.0, 1.0);
    }
  }
}
