/**
 The slider widget (AndroidSlider.py:80-192): bounds, a background track, a progress
 bar and a handle, with `min`, `max` and `value` stored as given. Every change of
 bounds, `min`, `max`, `value` or track height is followed by a full recomputation of
 the layout, and pointer-down and pointer-move events inside the bounds set the value
 from the pointer's horizontal position.
 */
module Slider {
  import opened Interp
  import opened Geometry
  import opened Shapes
  import opened SliderLayout

  /** Radius the widget gives its handle, and track height it starts with. */
  const HandleRadius: real := 5.0
  const InitialBgHeight: real := 3.0

  class AndroidSlider {
    var min: real
    var max: real
    var value: real
    /** Only records the bounds the layout reports. */
    const widgetArea: Rectangle
    const circle: SliderCenter
    const bgLine: Rectangle
    const progressLine: Rectangle

    /** The track height is stored as the background track's height. */
    function BgHeight(): real
      reads bgLine
    {
      bgLine.size.1
    }

    /** The parts are separate objects and the handle's halo is in place. */
    ghost predicate Wired()
      reads circle.disc, circle.outer
    {
      && widgetArea != bgLine && widgetArea != progressLine && bgLine != progressLine
      && circle.Valid()
    }

    /** Track, progress bar and handle sit where the bounds and the value put them. */
    ghost predicate LaidOut()
      reads this, widgetArea, bgLine, progressLine, circle.disc
    {
      var a := widgetArea.Shape();
      var h := BgHeight();
      && max != min
      && bgLine.Shape() == TrackRect(a, h)
      && circle.disc.X() == HandleX(a, min, max, value)
      && circle.disc.Y() == HandleY(a, h)
      && progressLine.Shape() == Rect(bgLine.pos, (circle.disc.X() - a.pos.0, h))
    }

    ghost predicate Valid()
      reads this, widgetArea, bgLine, progressLine, circle.disc, circle.outer
    {
      Wired() && LaidOut()
    }

    /** The parts start with the toolkit's default geometry; then the track height,
        `min`, `max` and `value` are set through their setters. */
    constructor (lo: real, hi: real, v: real)
      requires lo != hi
      ensures Valid()
      ensures min == lo && max == hi && value == v && BgHeight() == InitialBgHeight
      ensures widgetArea.Shape() == Rect(DefaultPos, DefaultSize)
      ensures circle.disc.Radius() == HandleRadius
      ensures circle.disc.size == (HandleRadius * 2.0, HandleRadius * 2.0)
      ensures fresh(widgetArea) && fresh(bgLine) && fresh(progressLine)
      ensures fresh(circle.disc) && fresh(circle.outer)
    {
      min, max, value := lo, hi, v;
      widgetArea := new Rectangle();
      circle := new SliderCenter(0.0, 0.0, HandleRadius);
      bgLine := new Rectangle();
      progressLine := new Rectangle();
      new;
      SetBgHeight(InitialBgHeight);
      SetMin(lo);
      SetMax(hi);
      SetValue(v);
    }

    /** Recomputes the track, the handle's centre and the progress bar from the bounds,
        `min`, `max`, `value` and the track height. */
    method UpdateSlider()
      requires Wired() && max != min
      modifies bgLine, progressLine, circle.disc, circle.outer
      ensures Valid()
      ensures BgHeight() == old(BgHeight()) && circle.disc.size == old(circle.disc.size)
      ensures bgLine.size == (widgetArea.size.0, old(BgHeight()))
      ensures circle.disc.X() == HandleX(widgetArea.Shape(), min, max, value)
      ensures circle.disc.Y() == widgetArea.pos.1 + widgetArea.size.1 / 2.0
      ensures progressLine.size.0 == circle.disc.X() - widgetArea.pos.0
      ensures progressLine.pos == bgLine.pos && progressLine.size.1 == BgHeight()
    {
      bgLine.size := (widgetArea.size.0, BgHeight());
      bgLine.pos := (widgetArea.pos.0, widgetArea.pos.1 + widgetArea.size.1 / 2.0 - BgHeight() / 2.0);
      circle.SetX(Lerp(widgetArea.pos.0, widgetArea.pos.0 + widgetArea.size.0, (value - min) / (max - min)));
      var size := (circle.disc.X() - widgetArea.pos.0, BgHeight());
      progressLine.size := size;
      circle.SetY(bgLine.pos.1 + BgHeight() / 2.0);
      circle.Update();
      progressLine.pos := bgLine.pos;
    }

    /** Stores `min` as given, then lays out again. */
    method SetMin(v: real)
      requires Wired() && v != max
      modifies this, bgLine, progressLine, circle.disc, circle.outer
      ensures Valid()
      ensures min == v && max == old(max) && value == old(value) && BgHeight() == old(BgHeight())
      ensures circle.disc.size == old(circle.disc.size)
    {
      min := v;
      UpdateSlider();
    }

    /** Stores `max` as given, then lays out again. */
    method SetMax(v: real)
      requires Wired() && v != min
      modifies this, bgLine, progressLine, circle.disc, circle.outer
      ensures Valid()
      ensures max == v && min == old(min) && value == old(value) && BgHeight() == old(BgHeight())
      ensures circle.disc.size == old(circle.disc.size)
    {
      max := v;
      UpdateSlider();
    }

    /** Stores `value` as given, without clamping it to [min, max], then lays out again. */
    method SetValue(v: real)
      requires Wired() && max != min
      modifies this, bgLine, progressLine, circle.disc, circle.outer
      ensures Valid()
      ensures value == v && min == old(min) && max == old(max) && BgHeight() == old(BgHeight())
      ensures circle.disc.size == old(circle.disc.size)
    {
      value := v;
      UpdateSlider();
    }

    /** Replaces the track's height, keeping its width, then lays out again. */
    method SetBgHeight(h: real)
      requires Wired() && max != min
      modifies bgLine, progressLine, circle.disc, circle.outer
      ensures Valid()
      ensures BgHeight() == h && circle.disc.size == old(circle.disc.size)
    {
      var size := bgLine.size;
      size := (size.0, h);
      bgLine.size := size;
      UpdateSlider();
    }

    /** The bounds moved: record the new anchor and lay out again. */
    method OnPos(pos: Pair)
      requires Wired() && max != min
      modifies widgetArea, bgLine, progressLine, circle.disc, circle.outer
      ensures Valid()
      ensures widgetArea.pos == pos && widgetArea.size == old(widgetArea.size)
      ensures BgHeight() == old(BgHeight()) && circle.disc.size == old(circle.disc.size)
    {
      widgetArea.pos := pos;
      UpdateSlider();
    }

    /** The bounds were resized: record the new size and lay out again. */
    method OnSize(size: Pair)
      requires Wired() && max != min
      modifies widgetArea, bgLine, progressLine, circle.disc, circle.outer
      ensures Valid()
      ensures widgetArea.size == size && widgetArea.pos == old(widgetArea.pos)
      ensures BgHeight() == old(BgHeight()) && circle.disc.size == old(circle.disc.size)
    {
      widgetArea.size := size;
      UpdateSlider();
    }

    /** Sets the value the pointer's horizontal position selects; the handle then sits
        under the pointer. */
    method SetValueByEvent(p: Pair)
      requires Wired() && max != min && widgetArea.size.0 != 0.0
      modifies this, bgLine, progressLine, circle.disc, circle.outer
      ensures Valid()
      ensures value == PointerValue(widgetArea.Shape(), min, max, p.0)
      ensures min == old(min) && max == old(max) && BgHeight() == old(BgHeight())
      ensures circle.disc.X() == p.0 && circle.disc.size == old(circle.disc.size)
    {
      SetValue(Lerp(min, max, (p.0 - widgetArea.pos.0) / widgetArea.size.0));
      PointerRoundTrip(widgetArea.Shape(), min, max, p.0);
    }

    /** A press inside the bounds sets the value from the pointer; a press outside
        changes nothing. */
    method OnTouchDown(p: Pair)
      requires Wired() && max != min
      requires MouseIsOver(widgetArea.Shape(), p) ==> widgetArea.size.0 != 0.0
      modifies this, bgLine, progressLine, circle.disc, circle.outer
      ensures min == old(min) && max == old(max) && BgHeight() == old(BgHeight())
      ensures circle.disc.size == old(circle.disc.size)
      ensures MouseIsOver(widgetArea.Shape(), p) ==>
        && Valid()
        && value == PointerValue(widgetArea.Shape(), min, max, p.0)
        && circle.disc.X() == p.0
        && (min <= max ==> min <= value <= max)
      ensures !MouseIsOver(widgetArea.Shape(), p) ==>
        unchanged(this, bgLine, progressLine, circle.disc, circle.outer)
    {
      if MouseIsOver(widgetArea.Shape(), p) {
        SetValueByEvent(p);
        if min <= max {
          PointerValueInRange(widgetArea.Shape(), min, max, p);
        }
      }
    }

    /** A drag is handled exactly like a press: there is no drag state, so a drag that
        leaves the bounds stops moving the handle. */
    method OnTouchMove(p: Pair)
      requires Wired() && max != min
      requires MouseIsOver(widgetArea.Shape(), p) ==> widgetArea.size.0 != 0.0
      modifies this, bgLine, progressLine, circle.disc, circle.outer
      ensures min == old(min) && max == old(max) && BgHeight() == old(BgHeight())
      ensures circle.disc.size == old(circle.disc.size)
      ensures MouseIsOver(widgetArea.Shape(), p) ==>
        && Valid()
        && value == PointerValue(widgetArea.Shape(), min, max, p.0)
        && circle.disc.X() == p.0
        && (min <= max ==> min <= value <= max)
      ensures !MouseIsOver(widgetArea.Shape(), p) ==>
        unchanged(this, bgLine, progressLine, circle.disc, circle.outer)
    {
      OnTouchDown(p);
    }
  }

  /** A slider over [0, 100] laid out in bounds of 200 by 20 at the origin. */
  method LaidOutSlider() returns (s: AndroidSlider)
    ensures s.Valid() && s.min == 0.0 && s.max == 100.0 && s.value == 50.0
    ensures s.BgHeight() == InitialBgHeight
    ensures s.widgetArea.Shape() == Rect((0.0, 0.0), (200.0, 20.0))
    ensures s.circle.disc.size == (HandleRadius * 2.0, HandleRadius * 2.0)
    ensures fresh(s) && fresh(s.widgetArea) && fresh(s.bgLine) && fresh(s.progressLine)
    ensures fresh(s.circle.disc) && fresh(s.circle.outer)
  {
    s := new AndroidSlider(0.0, 100.0, 50.0);
    s.OnPos((0.0, 0.0));
    s.OnSize((200.0, 20.0));
  }

  /** On the 200 by 20 slider the handle follows the value, off the track too. */
  method ValueScenario()
  {
    var s := LaidOutSlider();
    assert s.bgLine.Shape() == Rect((0.0, 8.5), (200.0, 3.0));
    assert s.progressLine.Shape() == Rect((0.0, 8.5), (100.0, 3.0));
    assert s.circle.disc.Shape() == Rect((95.0, 5.0), (10.0, 10.0));
    assert s.circle.disc.X() == 100.0;
    assert s.circle.outer.X() == 100.0 && s.circle.outer.Y() == 10.0;
    s.SetValue(0.0);
    assert s.circle.disc.X() == 0.0;
    s.SetValue(100.0);
    assert s.circle.disc.X() == 200.0 && s.progressLine.size.0 == 200.0;
    s.SetValue(120.0);
    assert s.circle.disc.X() == 240.0 && s.circle.disc.Radius() == 5.0;
  }

  /** On the 200 by 20 slider a press at x = 150 selects 75, and a drag beside the
      widget does nothing. */
  method TouchScenario()
  {
    var s := LaidOutSlider();
    s.OnTouchDown((150.0, 10.0));
    assert s.value == 75.0 && s.circle.disc.X() == 150.0;
    s.OnTouchMove((250.0, 10.0));
    assert s.value == 75.0 && s.circle.disc.Radius() == 5.0;
  }

  /** A circle centred at (50, 50) keeps its centre through two radius changes. */
  method CircleScenario()
  {
    var c := new FilledCircle(50.0, 50.0, 0.0);
    c.SetRadius(5.0);
    c.SetRadius(15.0);
    assert c.X() == 50.0 && c.Y() == 50.0 && c.size == (30.0, 30.0);
  }
}
