/**
 The drawing primitives as mutable objects: a plain rectangle, the filled circle
 (AndroidSlider.py:13-65) and the slider's handle, a circle with a halo that follows
 it (AndroidSlider.py:67-78). Each setter changes the stored anchor `pos` or `size`
 in place and is specified by the matching function of module Geometry.
 */
module Shapes {
  import opened Geometry

  /** Anchor and size the toolkit gives a rectangle or ellipse made without arguments. */
  const DefaultPos: Pair := (0.0, 0.0)
  const DefaultSize: Pair := (100.0, 100.0)

  /** Radius of the handle's halo, fixed when the handle is made. */
  const HaloRadius: real := 15.0

  /** A toolkit rectangle: only its geometry is modelled. */
  class Rectangle {
    var pos: Pair
    var size: Pair

    function Shape(): Rect
      reads this
    {
      Rect(pos, size)
    }

    constructor ()
      ensures pos == DefaultPos && size == DefaultSize
    {
      pos, size := DefaultPos, DefaultSize;
    }
  }

  /** An ellipse addressed by its centre and radius instead of its anchor and size. */
  class FilledCircle {
    var pos: Pair
    var size: Pair

    function Shape(): Rect
      reads this
    {
      Rect(pos, size)
    }

    function Radius(): real
      reads this
    {
      Geometry.Radius(Shape())
    }

    function X(): real
      reads this
    {
      CentreX(Shape())
    }

    function Y(): real
      reads this
    {
      CentreY(Shape())
    }

    /** Centre and radius are set one after the other, each through its setter. */
    constructor (x: real, y: real, radius: real)
      ensures X() == x && Y() == y && Radius() == radius
      ensures size == (radius * 2.0, radius * 2.0)
    {
      pos, size := DefaultPos, DefaultSize;
      new;
      SetX(x);
      SetY(y);
      SetRadius(radius);
    }

    /** Moves the anchor so that the horizontal centre becomes `v`. */
    method SetX(v: real)
      modifies this
      ensures Shape() == MovedX(old(Shape()), v)
    {
      var p := pos;
      p := (v - Radius(), p.1);
      pos := p;
    }

    /** Moves the anchor so that the vertical centre becomes `v`. */
    method SetY(v: real)
      modifies this
      ensures Shape() == MovedY(old(Shape()), v)
    {
      var p := pos;
      p := (p.0, v - Radius());
      pos := p;
    }

    /** Resizes to a square of side `2v`, then puts the old centre back. */
    method SetRadius(v: real)
      modifies this
      ensures Shape() == Resized(old(Shape()), v)
    {
      var x, y := X(), Y();
      size := (v * 2.0, v * 2.0);
      SetX(x);
      SetY(y);
    }
  }

  /**
   The slider handle: a filled circle `disc` and a larger halo `outer` that is
   re-centred on the disc after every change of the disc's centre or radius.
   The toolkit version makes the handle a subclass of the circle and overrides its
   update hook; here the handle holds the circle and calls the hook itself.
   */
  class SliderCenter {
    const disc: FilledCircle
    const outer: FilledCircle

    /** The disc's box is square; the halo keeps its radius and shares the disc's centre. */
    ghost predicate Valid()
      reads disc, outer
    {
      && disc != outer
      && disc.size.1 == disc.size.0
      && outer.size == (HaloRadius * 2.0, HaloRadius * 2.0)
      && outer.X() == disc.X()
      && outer.Y() == disc.Y()
    }

    constructor (x: real, y: real, radius: real)
      ensures Valid() && fresh(disc) && fresh(outer)
      ensures disc.X() == x && disc.Y() == y && disc.Radius() == radius
      ensures disc.size == (radius * 2.0, radius * 2.0)
    {
      outer := new FilledCircle(x, y, HaloRadius);
      disc := new FilledCircle(x, y, radius);
      new;
      Update();
    }

    /** The update hook: moves the halo's centre onto the disc's centre. */
    method Update()
      requires disc != outer
      modifies outer
      ensures outer.Shape() == MovedY(MovedX(old(outer.Shape()), disc.X()), disc.Y())
      ensures outer.X() == disc.X() && outer.Y() == disc.Y()
    {
      outer.SetX(disc.X());
      outer.SetY(disc.Y());
    }

    method SetX(v: real)
      requires Valid()
      modifies disc, outer
      ensures Valid()
      ensures disc.Shape() == MovedX(old(disc.Shape()), v)
    {
      disc.SetX(v);
      Update();
    }

    method SetY(v: real)
      requires Valid()
      modifies disc, outer
      ensures Valid()
      ensures disc.Shape() == MovedY(old(disc.Shape()), v)
    {
      disc.SetY(v);
      Update();
    }

    method SetRadius(v: real)
      requires Valid()
      modifies disc, outer
      ensures Valid()
      ensures disc.Shape() == Resized(old(disc.Shape()), v)
    {
      disc.SetRadius(v);
      Update();
    }
  }
}
