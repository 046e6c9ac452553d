/**
 The slider's geometry as values: the hit test, the pointer-to-value mapping and the
 positions that the layout recomputation gives the track, the progress bar and the
 handle (AndroidSlider.py:110-153). `area` is the widget's bounds, `lo`/`hi` its
 `min`/`max`, `h` the track height. No value is clamped: a value outside [lo, hi]
 puts the handle off the track, and a value picked with the pointer lies in [lo, hi]
 (`PointerValueInRange`).
 */
module SliderLayout {
  import opened Interp
  import opened Geometry

  /** Hit test: the pointer lies in the bounds, all four edges included. */
  function MouseIsOver(area: Rect, p: Pair): (r: bool)
    ensures r ==> area.size.0 >= 0.0 && area.size.1 >= 0.0
    ensures r ==> area.pos.0 <= p.0 && area.pos.1 <= p.1
    ensures r ==> p.0 <= area.pos.0 + area.size.0 && p.1 <= area.pos.1 + area.size.1
  {
    var inX := p.0 >= area.pos.0 && p.0 <= area.pos.0 + area.size.0;
    var inY := p.1 >= area.pos.1 && p.1 <= area.pos.1 + area.size.1;
    inX && inY
  }

  /** Every point of the four edges of a box is over it. */
  lemma EdgesAreOver(area: Rect, x: real, y: real)
    requires area.pos.0 <= x <= area.pos.0 + area.size.0
    requires area.pos.1 <= y <= area.pos.1 + area.size.1
    ensures MouseIsOver(area, (area.pos.0, y)) && MouseIsOver(area, (area.pos.0 + area.size.0, y))
    ensures MouseIsOver(area, (x, area.pos.1)) && MouseIsOver(area, (x, area.pos.1 + area.size.1))
  {
  }

  /** The value a pointer at horizontal position `px` selects. */
  function PointerValue(area: Rect, lo: real, hi: real, px: real): (v: real)
    requires area.size.0 != 0.0
    ensures px == area.pos.0 ==> v == lo
    ensures px == area.pos.0 + area.size.0 ==> v == hi
  {
    Lerp(lo, hi, (px - area.pos.0) / area.size.0)
  }

  /** The horizontal centre of the handle for value `v`. */
  function HandleX(area: Rect, lo: real, hi: real, v: real): (x: real)
    requires hi != lo
    ensures v == lo ==> x == area.pos.0
    ensures v == hi ==> x == area.pos.0 + area.size.0
  {
    Lerp(area.pos.0, area.pos.0 + area.size.0, (v - lo) / (hi - lo))
  }

  /** The background track: full width, height `h`, centred vertically in the bounds. */
  function TrackRect(area: Rect, h: real): (r: Rect)
    ensures r.size == (area.size.0, h) && r.pos.0 == area.pos.0
    ensures r.pos.1 + h / 2.0 == area.pos.1 + area.size.1 / 2.0
  {
    Rect((area.pos.0, area.pos.1 + area.size.1 / 2.0 - h / 2.0), (area.size.0, h))
  }

  /** A track no taller than the bounds lies inside them vertically, and it spans them
      horizontally. */
  lemma TrackInBounds(area: Rect, h: real)
    requires 0.0 <= h <= area.size.1
    ensures area.pos.1 <= TrackRect(area, h).pos.1
    ensures TrackRect(area, h).pos.1 + h <= area.pos.1 + area.size.1
    ensures TrackRect(area, h).pos.0 + TrackRect(area, h).size.0 == area.pos.0 + area.size.0
  {
  }

  /** The handle's vertical centre: the middle of the track, which is the middle of the bounds. */
  function HandleY(area: Rect, h: real): (y: real)
    ensures y == area.pos.1 + area.size.1 / 2.0
  {
    TrackRect(area, h).pos.1 + h / 2.0
  }

  /** With `lo < hi` and a track of non-negative width, a larger value never moves the
      handle left. */
  lemma HandleMonotone(area: Rect, lo: real, hi: real, v: real, w: real)
    requires lo < hi && area.size.0 >= 0.0 && v <= w
    ensures HandleX(area, lo, hi, v) <= HandleX(area, lo, hi, w)
  {
    FractionMonotone(lo, hi, v, w);
    LerpMonotone(area.pos.0, area.pos.0 + area.size.0, (v - lo) / (hi - lo), (w - lo) / (hi - lo));
  }

  /** With `lo < hi` and a track of positive width, the handle is on the track exactly
      when the value is in [lo, hi]; the value setter does not clamp, so it can leave. */
  lemma HandleOnTrack(area: Rect, lo: real, hi: real, v: real)
    requires lo < hi && area.size.0 > 0.0
    ensures area.pos.0 <= HandleX(area, lo, hi, v) <= area.pos.0 + area.size.0 <==> lo <= v <= hi
  {
    LerpWithin(area.pos.0, area.pos.0 + area.size.0, (v - lo) / (hi - lo));
    FractionWithin(lo, hi, v);
  }

  /** Pixel to value to pixel: the handle lands where the pointer selected. */
  lemma PointerRoundTrip(area: Rect, lo: real, hi: real, px: real)
    requires area.size.0 != 0.0 && lo != hi
    ensures HandleX(area, lo, hi, PointerValue(area, lo, hi, px)) == px
  {
    var t := (px - area.pos.0) / area.size.0;
    LerpFraction(lo, hi, t);
    LerpOfFraction(area.pos.0, area.pos.0 + area.size.0, px);
  }

  /** Value to pixel to value: a pointer at the handle selects the handle's value. */
  lemma ValueRoundTrip(area: Rect, lo: real, hi: real, v: real)
    requires area.size.0 != 0.0 && lo != hi
    ensures PointerValue(area, lo, hi, HandleX(area, lo, hi, v)) == v
  {
    var t := (v - lo) / (hi - lo);
    LerpFraction(area.pos.0, area.pos.0 + area.size.0, t);
    LerpOfFraction(lo, hi, v);
  }

  /** A pointer over the widget selects a value between `lo` and `hi`. */
  lemma PointerValueInRange(area: Rect, lo: real, hi: real, p: Pair)
    requires area.size.0 != 0.0 && lo <= hi && MouseIsOver(area, p)
    ensures lo <= PointerValue(area, lo, hi, p.0) <= hi
  {
    var t := (p.0 - area.pos.0) / area.size.0;
    assert area.size.0 > 0.0;
    FractionWithin(area.pos.0, area.pos.0 + area.size.0, p.0);
    assert (p.0 - area.pos.0) / (area.pos.0 + area.size.0 - area.pos.0) == t;
    if lo < hi {
      LerpWithin(lo, hi, t);
    }
  }

  /** Dividing by a positive span keeps the order of the offsets. */
  lemma FractionMonotone(lo: real, hi: real, v: real, w: real)
    requires lo < hi && v <= w
    ensures (v - lo) / (hi - lo) <= (w - lo) / (hi - lo)
  {
  }

  /** The fraction of a positive span lies in [0, 1] exactly for points of the span. */
  lemma FractionWithin(lo: real, hi: real, v: real)
    requires lo < hi
    ensures 0.0 <= (v - lo) / (hi - lo) <= 1.0 <==> lo <= v <= hi
  {
    var q := (v - lo) / (hi - lo);
    assert v - lo == (hi - lo) * q;
    assert hi - v == (hi - lo) * (1.0 - q);
    ScaleSign(hi - lo, q);
    ScaleSign(hi - lo, 1.0 - q);
  }
}
