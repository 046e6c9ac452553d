/**
 Linear interpolation, the one numeric primitive of the slider (AndroidSlider.py:9-11).
 The slider uses it in both directions: from a value in [min, max] to a pixel on the
 track, and from a pixel on the track back to a value. The parameter `x` is not clamped,
 so values outside [0, 1] extrapolate along the same line.

 Python floats are modelled as exact `real`s.
 */
module Interp {

  /** `a + (b - a) * x`: the point a fraction `x` of the way from `a` to `b`. */
  function Lerp(a: real, b: real, x: real): (r: real)
    ensures x == 0.0 ==> r == a
    ensures x == 1.0 ==> r == b
    ensures a == b ==> r == a
  {
    a + (b - a) * x
  }

  /** With `a <= b` the interpolation never decreases as the fraction grows. */
  lemma LerpMonotone(a: real, b: real, x: real, y: real)
    requires a <= b && x <= y
    ensures Lerp(a, b, x) <= Lerp(a, b, y)
  {
    assert Lerp(a, b, y) - Lerp(a, b, x) == (b - a) * (y - x);
    ScaleSign(b - a, y - x);
  }

  /** The fraction is recovered from the interpolated point (value to pixel to value). */
  lemma LerpFraction(a: real, b: real, x: real)
    requires a != b
    ensures (Lerp(a, b, x) - a) / (b - a) == x
  {
  }

  /** The point is recovered from its fraction (pixel to value to pixel). */
  lemma LerpOfFraction(a: real, b: real, y: real)
    requires a != b
    ensures Lerp(a, b, (y - a) / (b - a)) == y
  {
  }

  /** For `a < b`, the interpolated point lies between the ends exactly when the
      fraction lies in [0, 1]. */
  lemma LerpWithin(a: real, b: real, x: real)
    requires a < b
    ensures a <= Lerp(a, b, x) <= b <==> 0.0 <= x <= 1.0
  {
    assert Lerp(a, b, x) - a == (b - a) * x;
    assert b - Lerp(a, b, x) == (b - a) * (1.0 - x);
    ScaleSign(b - a, x);
    ScaleSign(b - a, 1.0 - x);
  }

  /** Scaling by a positive factor keeps the sign; by a non-negative one, non-negativity. */
  lemma ScaleSign(p: real, q: real)
    requires p >= 0.0
    ensures q >= 0.0 ==> p * q >= 0.0
    ensures p > 0.0 ==> (p * q >= 0.0 <==> q >= 0.0)
  {
    if p > 0.0 && q < 0.0 {
      assert p * (-q) > 0.0;
    }
  }
}
