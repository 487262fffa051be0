/**
  The value types the SmoothBorder control computes with: points, vectors,
  sizes, rectangles, edge thicknesses and corner radii. Device-independent
  units are `real`s (the control uses doubles; rounding is not modelled).
 */
module Primitives {

  /** Math.PI, as a fixed positive constant. */
  const Pi: real := 3.141592653589793

  datatype Option<+T> = None | Some(value: T)

  datatype Point = Point(x: real, y: real)

  datatype Vector = Vector(x: real, y: real)

  /** A layout size; the framework never hands out a negative one. */
  datatype Size = Size(width: real, height: real)

  datatype Rect = Rect(left: real, top: real, width: real, height: real)
  {
    function TopLeft(): Point {
      Point(left, top)
    }
  }

  /** Stroke thickness consumed on each side of the rectangle. */
  datatype Thickness = Thickness(left: real, top: real, right: real, bottom: real)

  /** Nominal radius requested for each corner. */
  datatype CornerRadius = CornerRadius(topLeft: real, topRight: real, bottomRight: real, bottomLeft: real)

  predicate ValidSize(size: Size) {
    size.width >= 0.0 && size.height >= 0.0
  }

  predicate NonNegativeThickness(t: Thickness) {
    t.left >= 0.0 && t.top >= 0.0 && t.right >= 0.0 && t.bottom >= 0.0
  }

  predicate NonNegativeCorners(c: CornerRadius) {
    c.topLeft >= 0.0 && c.topRight >= 0.0 && c.bottomRight >= 0.0 && c.bottomLeft >= 0.0
  }

  /** Math.Max on two (non-NaN) doubles. */
  function Max(a: real, b: real): (m: real)
    ensures m >= a && m >= b
    ensures m == a || m == b
  {
    if a >= b then a else b
  }

  /** Point + Vector. */
  function Translate(p: Point, v: Vector): Point {
    Point(p.x + v.x, p.y + v.y)
  }

  /** `new Rect(size)`: the rectangle of that size placed at the origin. */
  function RectOfSize(size: Size): (r: Rect)
    ensures r.TopLeft() == Point(0.0, 0.0)
    ensures r.width == size.width && r.height == size.height
  {
    Rect(0.0, 0.0, size.width, size.height)
  }
}
