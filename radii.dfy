/**
  The radius resolver: from the nominal corner radii, the per-edge border
  thickness and an outer/inner flag, the eight directional radii, two per
  corner, one along each adjoining edge.
 */
module CornerRadii {
  import opened Primitives

  /**
    The eight directional radii. Each is a corner's extent along one of its
    edges, named second, measured from its other edge, named first, and it
    grows with the thickness of that first edge: `leftTop` is the top-left
    corner's extent along the top edge, measured from the left edge, and
    grows with the left thickness; `topLeft` is the same corner's extent
    along the left edge, measured from the top edge, and grows with the top
    thickness.
   */
  datatype Radii = Radii(
    leftTop: real, topLeft: real,
    topRight: real, rightTop: real,
    rightBottom: real, bottomRight: real,
    bottomLeft: real, leftBottom: real)

  predicate NonNegativeRadii(r: Radii) {
    r.leftTop >= 0.0 && r.topLeft >= 0.0 && r.topRight >= 0.0 && r.rightTop >= 0.0 &&
    r.rightBottom >= 0.0 && r.bottomRight >= 0.0 && r.bottomLeft >= 0.0 && r.leftBottom >= 0.0
  }

  /**
    The `Radii` constructor. In outer mode a corner whose nominal radius is
    exactly zero stays square; any other corner value grows by half the
    thickness of the edge it is measured from. In inner mode each value
    shrinks by that half thickness, never below zero.
   */
  function Resolve(radii: CornerRadius, borders: Thickness, outer: bool): (r: Radii)
    ensures !outer ==> NonNegativeRadii(r)
    ensures NonNegativeCorners(radii) && NonNegativeThickness(borders) ==> NonNegativeRadii(r)
    ensures outer && radii.topLeft == 0.0 ==> r.leftTop == 0.0 && r.topLeft == 0.0
    ensures outer && radii.topRight == 0.0 ==> r.topRight == 0.0 && r.rightTop == 0.0
    ensures outer && radii.bottomRight == 0.0 ==> r.rightBottom == 0.0 && r.bottomRight == 0.0
    ensures outer && radii.bottomLeft == 0.0 ==> r.bottomLeft == 0.0 && r.leftBottom == 0.0
  {
    var num1 := 0.5 * borders.left;
    var num2 := 0.5 * borders.top;
    var num3 := 0.5 * borders.right;
    var num4 := 0.5 * borders.bottom;
    if outer then
      var (leftTop, topLeft) :=
        if radii.topLeft == 0.0 then (0.0, 0.0)
        else (radii.topLeft + num1, radii.topLeft + num2);
      var (topRight, rightTop) :=
        if radii.topRight == 0.0 then (0.0, 0.0)
        else (radii.topRight + num2, radii.topRight + num3);
      var (rightBottom, bottomRight) :=
        if radii.bottomRight == 0.0 then (0.0, 0.0)
        else (radii.bottomRight + num3, radii.bottomRight + num4);
      var (bottomLeft, leftBottom) :=
        if radii.bottomLeft == 0.0 then (0.0, 0.0)
        else (radii.bottomLeft + num4, radii.bottomLeft + num1);
      Radii(leftTop, topLeft, topRight, rightTop, rightBottom, bottomRight, bottomLeft, leftBottom)
    else
      Radii(
        Max(0.0, radii.topLeft - num1), Max(0.0, radii.topLeft - num2),
        Max(0.0, radii.topRight - num2), Max(0.0, radii.topRight - num3),
        Max(0.0, radii.bottomRight - num3), Max(0.0, radii.bottomRight - num4),
        Max(0.0, radii.bottomLeft - num4), Max(0.0, radii.bottomLeft - num1))
  }

  // ---------------------------------------------------------------------
  // A corner-by-edge view of the same eight values, and the rule for one
  // half-corner stated once.

  datatype Corner = TopLeft | TopRight | BottomRight | BottomLeft

  datatype Edge = Left | Top | Right | Bottom

  /** Edge `e` is one of the two edges meeting at corner `c`. */
  predicate Adjoins(c: Corner, e: Edge) {
    match c
    case TopLeft => e == Left || e == Top
    case TopRight => e == Top || e == Right
    case BottomRight => e == Right || e == Bottom
    case BottomLeft => e == Bottom || e == Left
  }

  function Nominal(radii: CornerRadius, c: Corner): real {
    match c
    case TopLeft => radii.topLeft
    case TopRight => radii.topRight
    case BottomRight => radii.bottomRight
    case BottomLeft => radii.bottomLeft
  }

  function HalfThickness(borders: Thickness, e: Edge): real {
    match e
    case Left => 0.5 * borders.left
    case Top => 0.5 * borders.top
    case Right => 0.5 * borders.right
    case Bottom => 0.5 * borders.bottom
  }

  /** The directional radius of corner `c` that grows or shrinks with the thickness of edge `e`. */
  function GrowingWith(r: Radii, c: Corner, e: Edge): real
    requires Adjoins(c, e)
  {
    match (c, e)
    case (TopLeft, Left) => r.leftTop
    case (TopLeft, Top) => r.topLeft
    case (TopRight, Top) => r.topRight
    case (TopRight, Right) => r.rightTop
    case (BottomRight, Right) => r.rightBottom
    case (BottomRight, Bottom) => r.bottomRight
    case (BottomLeft, Bottom) => r.bottomLeft
    case (BottomLeft, Left) => r.leftBottom
  }

  /**
    The rule for one half-corner: the outer boundary of a stroke of half
    width `half` around a curve of radius `nominal`, or its inner boundary.
   */
  function Directional(nominal: real, half: real, outer: bool): real {
    if outer then (if nominal == 0.0 then 0.0 else nominal + half)
    else Max(0.0, nominal - half)
  }

  /** Every one of the eight values follows the one half-corner rule. */
  lemma ResolveFollowsRule(radii: CornerRadius, borders: Thickness, outer: bool, c: Corner, e: Edge)
    requires Adjoins(c, e)
    ensures GrowingWith(Resolve(radii, borders, outer), c, e)
         == Directional(Nominal(radii, c), HalfThickness(borders, e), outer)
  {
  }

  /** Outer mode: a square corner stays square whatever the thicknesses. */
  lemma OuterZeroCornerStaysSquare(radii: CornerRadius, borders: Thickness, c: Corner)
    requires Nominal(radii, c) == 0.0
    ensures forall e | Adjoins(c, e) :: GrowingWith(Resolve(radii, borders, true), c, e) == 0.0
  {
    forall e | Adjoins(c, e) ensures GrowingWith(Resolve(radii, borders, true), c, e) == 0.0 {
      ResolveFollowsRule(radii, borders, true, c, e);
    }
  }

  /** Outer mode: a rounded corner's value that grows with an edge's thickness is the nominal radius plus half that thickness. */
  lemma OuterAddsHalfThickness(radii: CornerRadius, borders: Thickness, c: Corner, e: Edge)
    requires Adjoins(c, e) && Nominal(radii, c) != 0.0
    ensures GrowingWith(Resolve(radii, borders, true), c, e) == Nominal(radii, c) + HalfThickness(borders, e)
  {
    ResolveFollowsRule(radii, borders, true, c, e);
  }

  /**
    Inner mode: a value is never negative, never exceeds a non-negative
    nominal radius, and is exactly zero once the half thickness reaches the
    nominal radius; otherwise it is the radius less the half thickness.
   */
  lemma InnerBounds(radii: CornerRadius, borders: Thickness, c: Corner, e: Edge)
    requires Adjoins(c, e)
    ensures var v := GrowingWith(Resolve(radii, borders, false), c, e);
      var n := Nominal(radii, c);
      var h := HalfThickness(borders, e);
      && v >= 0.0
      && (n >= 0.0 && h >= 0.0 ==> v <= n)
      && (v == 0.0 <==> h >= n)
      && (h < n ==> v == n - h)
  {
    ResolveFollowsRule(radii, borders, false, c, e);
  }

  /** Inner mode: a thicker border never gives a larger inner radius. */
  lemma InnerNonIncreasingInThickness(radii: CornerRadius, thin: Thickness, thick: Thickness, c: Corner, e: Edge)
    requires Adjoins(c, e)
    requires HalfThickness(thin, e) <= HalfThickness(thick, e)
    ensures GrowingWith(Resolve(radii, thick, false), c, e) <= GrowingWith(Resolve(radii, thin, false), c, e)
  {
    ResolveFollowsRule(radii, thin, false, c, e);
    ResolveFollowsRule(radii, thick, false, c, e);
  }

  /**
    Outer mode never shrinks a corner and inner mode never grows one, so for
    non-negative thickness the inner value never exceeds the outer one.
   */
  lemma InnerWithinOuter(radii: CornerRadius, borders: Thickness, c: Corner, e: Edge)
    requires Adjoins(c, e) && NonNegativeCorners(radii) && NonNegativeThickness(borders)
    ensures GrowingWith(Resolve(radii, borders, false), c, e) <= GrowingWith(Resolve(radii, borders, true), c, e)
  {
    ResolveFollowsRule(radii, borders, false, c, e);
    ResolveFollowsRule(radii, borders, true, c, e);
  }

  /** Uniform example: radius 10 and thickness 2 everywhere give 11 outside and 9 inside. */
  lemma UniformExample()
    ensures Resolve(CornerRadius(10.0, 10.0, 10.0, 10.0), Thickness(2.0, 2.0, 2.0, 2.0), true)
         == Radii(11.0, 11.0, 11.0, 11.0, 11.0, 11.0, 11.0, 11.0)
    ensures Resolve(CornerRadius(10.0, 10.0, 10.0, 10.0), Thickness(2.0, 2.0, 2.0, 2.0), false)
         == Radii(9.0, 9.0, 9.0, 9.0, 9.0, 9.0, 9.0, 9.0)
  {
  }

  /**
    Asymmetric example: with no left or top thickness the top-left corner
    keeps radius 10 on both sides, while right and bottom thickness 4 grow
    the bottom-right corner to 12 on both sides.
   */
  lemma AsymmetricExample()
    ensures var r := Resolve(CornerRadius(10.0, 10.0, 10.0, 10.0), Thickness(0.0, 0.0, 4.0, 4.0), true);
      r.leftTop == 10.0 && r.topLeft == 10.0 && r.rightBottom == 12.0 && r.bottomRight == 12.0
  {
  }
}
