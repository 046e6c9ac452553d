/**
 Value-level geometry of the drawing primitives. A toolkit rectangle or ellipse is
 stored as an anchor corner `pos` (its lower-left, "south-west" point) and a `size`.
 A filled circle reads that box as a square: its radius is half the width and its
 centre lies one radius in from the anchor (AndroidSlider.py:26-65).

 These functions are the specification of the in-place setters in module Shapes.
 */
module Geometry {

  type Pair = (real, real)

  /** Anchor corner and size of a drawing primitive. */
  datatype Rect = Rect(pos: Pair, size: Pair)

  /** Radius of the circle drawn in `b`, taking the box to be square. */
  function Radius(b: Rect): (r: real)
    ensures r + r == b.size.0
    ensures b.size.1 == b.size.0 ==> r + r == b.size.1
  {
    b.size.0 / 2.0
  }

  /** Horizontal centre of the circle drawn in `b`. */
  function CentreX(b: Rect): (x: real)
    ensures x + x == b.pos.0 + (b.pos.0 + b.size.0)
  {
    b.pos.0 + Radius(b)
  }

  /** Vertical centre of the circle drawn in `b` (it uses the width's radius too). */
  function CentreY(b: Rect): (y: real)
    ensures b.size.1 == b.size.0 ==> y + y == b.pos.1 + (b.pos.1 + b.size.1)
  {
    b.pos.1 + Radius(b)
  }

  /** A square box of non-negative side holds its circle: the radius is non-negative and
      the centre lies inside the box. */
  lemma CentreInBox(b: Rect)
    requires b.size.0 >= 0.0 && b.size.1 == b.size.0
    ensures Radius(b) >= 0.0
    ensures b.pos.0 <= CentreX(b) <= b.pos.0 + b.size.0
    ensures b.pos.1 <= CentreY(b) <= b.pos.1 + b.size.1
  {
  }

  /** The box after setting the circle's horizontal centre to `v`. */
  function MovedX(b: Rect, v: real): (r: Rect)
    ensures CentreX(r) == v
    ensures CentreY(r) == CentreY(b) && Radius(r) == Radius(b)
    ensures r.size == b.size && r.pos.1 == b.pos.1
  {
    Rect((v - Radius(b), b.pos.1), b.size)
  }

  /** The box after setting the circle's vertical centre to `v`. */
  function MovedY(b: Rect, v: real): (r: Rect)
    ensures CentreY(r) == v
    ensures CentreX(r) == CentreX(b) && Radius(r) == Radius(b)
    ensures r.size == b.size && r.pos.0 == b.pos.0
  {
    Rect((b.pos.0, v - Radius(b)), b.size)
  }

  /** The box after setting the radius to `v`: a square of side `2v` about the old centre. */
  function Resized(b: Rect, v: real): (r: Rect)
    ensures r.size == (v * 2.0, v * 2.0) && Radius(r) == v
    ensures CentreX(r) == CentreX(b) && CentreY(r) == CentreY(b)
  {
    var square := Rect(b.pos, (v * 2.0, v * 2.0));
    MovedY(MovedX(square, CentreX(b)), CentreY(b))
  }

  /** Only the last radius set matters: resizing twice is resizing once. */
  lemma ResizedTwice(b: Rect, v: real, w: real)
    ensures Resized(Resized(b, v), w) == Resized(b, w)
  {
  }
}
