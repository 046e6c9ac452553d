# AndroidSlider, modelled in Dafny

A model of the geometry and state logic of the `AndroidSlider` widget for Kivy: a horizontal
track with a progress bar and a round handle that has a translucent halo. The model covers
four parts.

- `lerp` is linear interpolation. It maps a value to a pixel and a pixel back to a value.
- `FilledCircle` is an ellipse addressed by its centre and radius. Its stored state is still
  the anchor corner `pos` and the `size`.
- `AndroidSliderCenter` is the handle. Its halo, of fixed radius 15, is re-centred on the
  handle after every change to the handle's centre or radius.
- The slider has an inclusive hit test and a pointer-to-value mapping. After every change to
  the bounds, `min`, `max`, `value` or the track height, it recomputes the layout of the
  track, the progress bar and the handle.

Python floats are modelled as exact `real`s. The files are as follows.

- `Lerp.dfy` (module `Interp`): `Lerp` and its endpoint, monotonicity, inverse and range
  lemmas.
- `Geometry.dfy` (module `Geometry`): the `Rect` value (anchor plus size) and the centre and
  radius reading of it. `MovedX`, `MovedY` and `Resized` give the box after each circle
  setter.
- `Shapes.dfy` (module `Shapes`): the mutable primitives. These are the classes `Rectangle`
  and `FilledCircle`, and `SliderCenter` (the handle). Each setter is proved to leave exactly
  the box that the matching `Geometry` function describes.
- `SliderLayout.dfy` (module `SliderLayout`): the hit test, the pointer-to-value mapping and
  the layout positions as functions. It also holds the lemmas about them: monotonicity, the
  handle being on the track exactly when the value is in range, and both round trips.
- `Slider.dfy` (module `Slider`): the `AndroidSlider` class. `Valid()` says that the layout
  matches the bounds and the value. Every method re-establishes it. Scenario methods check
  a 200 by 20 slider over [0, 100] (the handle at values 0, 50, 100 and 120, a press at
  x = 150 selecting 75, a drag beside the widget changing nothing) and a circle resized twice
  about (50, 50).

The code is followed where it leaves a choice open:

- The `value`, `min` and `max` setters store their argument unchanged. A value outside
  [min, max] puts the handle off the track (`HandleOnTrack`). The source marks clamping as
  not done (AndroidSlider.py:179).
- The two unguarded divisions are preconditions: `max != min` at AndroidSlider.py:145, and a
  non-zero width at AndroidSlider.py:118. A hit test at zero width can succeed, and the
  mapping then divides 0 by 0. So the touch handlers require a non-zero width whenever the
  pointer is over the widget.

## Model

| member | source | states |
|---|---|---|
| `Interp.Lerp` | AndroidSlider.py:9-11 | fraction 0 gives `a`, fraction 1 gives `b`, and a degenerate segment gives `a` for every fraction |
| `Interp.LerpMonotone` | AndroidSlider.py:9-11 | for `a <= b` the interpolation never decreases as the fraction grows |
| `Interp.LerpFraction` | AndroidSlider.py:9-11 | for `a != b`, `(lerp(a,b,x) - a) / (b - a)` recovers `x` |
| `Interp.LerpOfFraction` | AndroidSlider.py:9-11 | for `a != b`, interpolating at the fraction of `y` gives back `y` |
| `Interp.LerpWithin` | AndroidSlider.py:9-11 | for `a < b` the result lies in [a, b] if and only if the fraction lies in [0, 1], so there is no clamping |
| `Geometry.Radius` | AndroidSlider.py:26-31 | the radius getter gives half the box's width, which for the square box the getter assumes is also half its height |
| `Geometry.CentreY` | AndroidSlider.py:56-58 | for a square box, the y getter gives the midpoint of its bottom and top edges |
| `Geometry.CentreInBox` | AndroidSlider.py:26-58 | a square box of non-negative side has a non-negative radius and its centre inside the box |
| `Geometry.MovedX` | AndroidSlider.py:49-54 | after the x setter the centre x is the new value, and centre y, radius and size are as before |
| `Geometry.MovedY` | AndroidSlider.py:60-65 | after the y setter the centre y is the new value, and centre x, radius and size are as before |
| `Geometry.Resized` | AndroidSlider.py:33-43 | after the radius setter the size is `[2r, 2r]`, the radius getter gives `r`, and the centre is the one before the call |
| `Geometry.ResizedTwice` | AndroidSlider.py:33-43 | two radius changes in a row leave the same box as the last one alone |
| `Shapes.FilledCircle.constructor` | AndroidSlider.py:14-21 | a new circle has the requested centre and radius and a square `2r` box |
| `Shapes.FilledCircle.SetX` | AndroidSlider.py:49-54 | the stored box becomes `MovedX` of the old box, so only the anchor's x moves |
| `Shapes.FilledCircle.SetY` | AndroidSlider.py:60-65 | the stored box becomes `MovedY` of the old box, so only the anchor's y moves |
| `Shapes.FilledCircle.SetRadius` | AndroidSlider.py:33-43 | the stored box becomes `Resized` of the old box, keeping the centre |
| `Shapes.SliderCenter.constructor` | AndroidSlider.py:68-74 | the handle has the requested centre and radius, and its halo has radius 15 and the same centre |
| `Shapes.SliderCenter.Update` | AndroidSlider.py:76-78 | the halo's centre becomes the handle's centre, and only its anchor moves |
| `Shapes.SliderCenter.SetX` | AndroidSlider.py:49-54 | the handle moves as `MovedX`, and the halo keeps radius 15 and the handle's centre (hook at lines 76-78) |
| `Shapes.SliderCenter.SetY` | AndroidSlider.py:60-65 | the handle moves as `MovedY`, and the halo keeps radius 15 and the handle's centre (hook at lines 76-78) |
| `Shapes.SliderCenter.SetRadius` | AndroidSlider.py:33-43 | the handle is resized about its centre, and the halo keeps radius 15 and the handle's centre |
| `SliderLayout.MouseIsOver` | AndroidSlider.py:110-114 | a pointer over the widget lies between the left and right edges and between the bottom and top edges, and the widget then has non-negative width and height |
| `SliderLayout.EdgesAreOver` | AndroidSlider.py:110-114 | a pointer on any of the four edges of the bounds is over the widget |
| `SliderLayout.TrackInBounds` | AndroidSlider.py:137-141 | a track no taller than the bounds lies vertically inside them and ends at the bounds' right edge |
| `SliderLayout.PointerValue` | AndroidSlider.py:116-118 | a pointer at the left edge selects `min`, and one at the right edge selects `max` |
| `SliderLayout.PointerValueInRange` | AndroidSlider.py:110-118 | with `min <= max`, a pointer over the widget selects a value in [min, max] |
| `SliderLayout.PointerRoundTrip` | AndroidSlider.py:116-118 | the value a pointer selects puts the handle's centre back at the pointer's x |
| `SliderLayout.HandleX` | AndroidSlider.py:142-146 | at `value = min` the handle's centre is the left edge, and at `value = max` it is the right edge |
| `SliderLayout.HandleMonotone` | AndroidSlider.py:142-146 | with `min < max` and a non-negative width, a larger value never moves the handle left |
| `SliderLayout.HandleOnTrack` | AndroidSlider.py:142-146 | with `min < max` and a positive width, the handle is on the track if and only if `min <= value <= max` |
| `SliderLayout.ValueRoundTrip` | AndroidSlider.py:142-146 | a pointer at the handle's centre selects the handle's value |
| `SliderLayout.HandleY` | AndroidSlider.py:150 | the handle's centre y is the vertical middle of the bounds |
| `Slider.AndroidSlider.constructor` | AndroidSlider.py:81-107 | the new widget stores `min`, `max` and `value`, has track height 3 and a handle whose box is the 10 by 10 square of radius 5, and is laid out |
| `Slider.AndroidSlider.UpdateSlider` | AndroidSlider.py:136-153 | the track is `[width, height]`, the handle's x follows the value, the handle's y is the middle of the bounds, and the progress bar spans from the left edge to the handle at the track's position; the track height and the handle's box size are kept |
| `Slider.AndroidSlider.SetMin` | AndroidSlider.py:159-162 | `min` is stored exactly, `max`, `value`, the track height and the handle's box size are kept, and the widget is laid out |
| `Slider.AndroidSlider.SetMax` | AndroidSlider.py:168-171 | `max` is stored exactly, `min`, `value`, the track height and the handle's box size are kept, and the widget is laid out |
| `Slider.AndroidSlider.SetValue` | AndroidSlider.py:177-181 | `value` is stored exactly with no clamping, `min`, `max`, the track height and the handle's box size are kept, and the widget is laid out |
| `Slider.AndroidSlider.SetBgHeight` | AndroidSlider.py:187-192 | the track height becomes the argument, the handle's box size is kept, and the widget is laid out |
| `Slider.AndroidSlider.OnPos` | AndroidSlider.py:128-130 | the bounds' anchor becomes the new position, the size, the track height and the handle's box size are kept, and the widget is laid out |
| `Slider.AndroidSlider.OnSize` | AndroidSlider.py:132-134 | the bounds' size becomes the new size, the anchor, the track height and the handle's box size are kept, and the widget is laid out |
| `Slider.AndroidSlider.SetValueByEvent` | AndroidSlider.py:116-118 | the value becomes the one the pointer selects, and the handle's centre lands on the pointer's x with its box size kept |
| `Slider.AndroidSlider.OnTouchDown` | AndroidSlider.py:124-126 | inside the bounds, the value comes from the pointer and stays in [min, max] when `min <= max`; the handle's box size is kept; outside, nothing changes |
| `Slider.AndroidSlider.OnTouchMove` | AndroidSlider.py:120-122 | the same as a press, since there is no drag state |

`Geometry.CentreX` (the x getter, AndroidSlider.py:45-47) and `SliderLayout.TrackRect`
(the track's box, AndroidSlider.py:137-141) are plain definitions. What they mean is
stated by `Geometry.CentreInBox`, `Geometry.MovedX`, `SliderLayout.TrackInBounds` and
`Slider.AndroidSlider.UpdateSlider`.

## Left out

- Drawing is not modelled. This covers the canvas, the `Color` instructions and their RGBA
  constants (AndroidSlider.py:89, 94-103). These calls only hand primitives to the toolkit.
- Kivy's `Widget`, `ButtonBehavior`, `Rectangle` and `Ellipse` are not part of this model.
  Only the `pos` and `size` of the primitives are modelled. Event dispatch is replaced by
  plain methods: the touch handlers take the pointer position, and `on_pos`/`on_size` take
  the new position or size.
- Primitives made without arguments start at the toolkit's default anchor (0, 0) with size
  100 by 100. The bounds keep this default until both `on_pos` and `on_size` have reported
  them: the track's width and the handle's x are computed from the default size until then
  (AndroidSlider.py:137, 144). A circle's constructor ends in the same state whatever the
  default is.
- The source's default arguments are required parameters here. These are `FilledCircle`'s
  `x=0, y=0, radius=0` (AndroidSlider.py:15-17) and `AndroidSlider`'s `_min=0, _max=100,
  value=50` (AndroidSlider.py:81). Passing those values gives the same behaviour.
- The application bootstrap in `__main__` (AndroidSlider.py:194-204) is left out. It is not
  part of the widget.
- Float rounding and the `float(...)` coercions (AndroidSlider.py:161, 170, 180) are not
  modelled, because arithmetic is on exact reals. This also makes the getter `circle.x`
  return exactly the value just set.
- `ZeroDivisionError` is not modelled. When `max == min` or the width is 0, the source raises
  it. In the model these cases are excluded by `requires` instead.
- `Shapes.SliderCenter.SetRadius`: the handle holds its circle rather than subclassing it.
  So the halo is re-centred once, after the resize. The source re-centres it at each inner
  `x`/`y` assignment as well. The final state is the same, but the intermediate halo
  positions are not modelled.
