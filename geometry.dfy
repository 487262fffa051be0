/**
  The path generator: from a rectangle, its eight directional radii and the
  smoothing factor, a closed contour of four straight edges and four cubic
  Bézier corners. Where two corner curves would cross on a short edge their
  anchors are pulled to one shared point.

  The drawing context the contour is written to is replaced by the sequence
  of segments it would receive.
 */
module PathGeometry {
  import opened Primitives
  import opened CornerRadii

  const BezierControlPointCoef: real := 1.10
  const BezierCoef: real := 0.95

  /** One call on the drawing context: start a figure, a straight line, or a cubic Bézier. */
  datatype Segment =
    | Begin(start: Point)
    | Line(to: Point)
    | Bezier(control1: Point, control2: Point, to: Point)

  function EndPoint(seg: Segment): Point {
    match seg
    case Begin(p) => p
    case Line(p) => p
    case Bezier(_, _, p) => p
  }

  /** What the generator needs of its inputs: the smoothing factor is a divisor. */
  predicate Admissible(rect: Rect, r: Radii, s: real) {
    s > 0.0 && rect.width >= 0.0 && rect.height >= 0.0 && NonNegativeRadii(r)
  }

  predicate InBox(p: Point, width: real, height: real) {
    0.0 <= p.x <= width && 0.0 <= p.y <= height
  }

  predicate InRect(p: Point, rect: Rect) {
    rect.left <= p.x <= rect.left + rect.width && rect.top <= p.y <= rect.top + rect.height
  }

  // ---------------------------------------------------------------------
  // Offsets

  /** `bc`: how far each Bézier control point sits from its rectangle corner. */
  function ControlOffset(r: Radii, s: real): (bc: real)
    ensures s == 1.0 ==> bc == 0.0
    ensures r.leftTop >= 0.0 && s <= 1.0 ==> bc >= 0.0
    ensures r.leftTop > 0.0 && s > 1.0 ==> bc < 0.0
  {
    r.leftTop * (1.0 - s) * Pi / 2.0 * BezierControlPointCoef
  }

  /** How far along its edge an anchor sits from the nearest rectangle corner. */
  function AnchorOffset(radius: real, s: real): (d: real)
    requires s > 0.0
    ensures radius == 0.0 ==> d == 0.0
    ensures d * s == radius * Pi / 2.0 * BezierCoef
  {
    radius / s * Pi / 2.0 * BezierCoef
  }

  /** The factor by which a directional radius becomes an anchor offset. */
  function AnchorScale(s: real): (k: real)
    requires s > 0.0
    ensures k > 0.0
    ensures s <= 1.0 ==> k > 1.0
  {
    var k := Pi / 2.0 * BezierCoef / s;
    assert k * s == Pi / 2.0 * BezierCoef;
    k
  }

  lemma AnchorOffsetIsScaled(radius: real, s: real)
    requires s > 0.0
    ensures AnchorOffset(radius, s) == radius * AnchorScale(s)
    ensures radius >= 0.0 ==> AnchorOffset(radius, s) >= 0.0
  {
    var k := AnchorScale(s);
    assert k * s == Pi / 2.0 * BezierCoef;
    assert AnchorOffset(radius, s) * s == radius * Pi / 2.0 * BezierCoef;
  }

  /** Where the two anchors of an overlapping edge meet: in proportion to their radii. */
  function Share(near: real, far: real, length: real): (m: real)
    requires near + far != 0.0
    ensures m * (near + far) == near * length
    ensures near == far ==> m == length / 2.0
  {
    near / (near + far) * length
  }

  lemma FractionInUnit(n: real, d: real)
    requires 0.0 <= n <= d && d > 0.0
    ensures 0.0 <= n / d <= 1.0
  {
  }

  lemma ShareInRange(near: real, far: real, length: real)
    requires near >= 0.0 && far >= 0.0 && near + far > 0.0 && length >= 0.0
    ensures 0.0 <= Share(near, far, length) <= length
  {
    var q := near / (near + far);
    FractionInUnit(near, near + far);
    assert q * length <= 1.0 * length;
    assert Share(near, far, length) == q * length;
  }

  /**
    Two points on each edge line, clockwise from the top: 0 and 1 on the
    top edge, 2 and 3 on the right, 4 and 5 on the bottom, 6 and 7 on the
    left, in the rectangle's own coordinates.
   */
  predicate OnEdges(p: seq<Point>, rect: Rect)
    requires |p| == 8
  {
    && p[0].y == 0.0 && p[1].y == 0.0
    && p[2].x == rect.width && p[3].x == rect.width
    && p[4].y == rect.height && p[5].y == rect.height
    && p[6].x == 0.0 && p[7].x == 0.0
  }

  // ---------------------------------------------------------------------
  // The points, before overlap correction

  /**
    The 8 anchors, clockwise from the top edge near the top-left corner:
    two on the top edge, two on the right, two on the bottom, two on the
    left, in the rectangle's own coordinates.
   */
  function RawAnchors(rect: Rect, r: Radii, s: real): (p: seq<Point>)
    requires s > 0.0
    ensures |p| == 8 && OnEdges(p, rect)
  {
    [ Point(AnchorOffset(r.leftTop, s), 0.0),
      Point(rect.width - AnchorOffset(r.rightTop, s), 0.0),
      Point(rect.width, AnchorOffset(r.topRight, s)),
      Point(rect.width, rect.height - AnchorOffset(r.bottomRight, s)),
      Point(rect.width - AnchorOffset(r.rightBottom, s), rect.height),
      Point(AnchorOffset(r.leftBottom, s), rect.height),
      Point(0.0, rect.height - AnchorOffset(r.bottomLeft, s)),
      Point(0.0, AnchorOffset(r.topLeft, s)) ]
  }

  /** The 8 Bézier control points, each `bc` from a corner along one of its edges. */
  function ControlPoints(rect: Rect, bc: real): (b: seq<Point>)
    ensures |b| == 8
    ensures b[7].y == 0.0 && b[0].y == 0.0 && b[1].x == rect.width && b[2].x == rect.width
    ensures b[3].y == rect.height && b[4].y == rect.height && b[5].x == 0.0 && b[6].x == 0.0
    ensures bc == 0.0 ==> b[0] == b[1] && b[2] == b[3] && b[4] == b[5] && b[6] == b[7]
  {
    [ Point(rect.width - bc, 0.0),
      Point(rect.width, bc),
      Point(rect.width, rect.height - bc),
      Point(rect.width - bc, rect.height),
      Point(bc, rect.height),
      Point(0.0, rect.height - bc),
      Point(0.0, bc),
      Point(bc, 0.0) ]
  }

  // ---------------------------------------------------------------------
  // Overlap correction

  /** Each correction that would fire divides by a nonzero sum of radii. */
  predicate CorrectionDefined(p: seq<Point>, r: Radii)
    requires |p| == 8
  {
    && (p[0].x > p[1].x ==> r.leftTop + r.rightTop != 0.0)
    && (p[2].y > p[3].y ==> r.topRight + r.bottomRight != 0.0)
    && (p[4].x < p[5].x ==> r.leftBottom + r.rightBottom != 0.0)
    && (p[6].y < p[7].y ==> r.topLeft + r.bottomLeft != 0.0)
  }

  /** The top edge: anchors 0 and 1 merge when 0 lies right of 1. */
  function CorrectTop(p: seq<Point>, rect: Rect, r: Radii): (q: seq<Point>)
    requires |p| == 8 && (p[0].x > p[1].x ==> r.leftTop + r.rightTop != 0.0)
    ensures |q| == 8 && q[2..] == p[2..]
    ensures q[0].y == p[0].y && q[1].y == p[1].y
    ensures p[0].x > p[1].x ==> q[0].x == q[1].x
    ensures p[0].x <= p[1].x ==> q == p
  {
    if p[0].x > p[1].x then
      var m := Share(r.leftTop, r.rightTop, rect.width);
      p[0 := p[0].(x := m)][1 := p[1].(x := m)]
    else p
  }

  /** The right edge: anchors 2 and 3 merge when 2 lies below 3. */
  function CorrectRight(p: seq<Point>, rect: Rect, r: Radii): (q: seq<Point>)
    requires |p| == 8 && (p[2].y > p[3].y ==> r.topRight + r.bottomRight != 0.0)
    ensures |q| == 8 && q[..2] == p[..2] && q[4..] == p[4..]
    ensures q[2].x == p[2].x && q[3].x == p[3].x
    ensures p[2].y > p[3].y ==> q[2].y == q[3].y
    ensures p[2].y <= p[3].y ==> q == p
  {
    if p[2].y > p[3].y then
      var m := Share(r.topRight, r.bottomRight, rect.height);
      p[2 := p[2].(y := m)][3 := p[3].(y := m)]
    else p
  }

  /** The bottom edge: anchors 4 and 5 merge when 4 lies left of 5. */
  function CorrectBottom(p: seq<Point>, rect: Rect, r: Radii): (q: seq<Point>)
    requires |p| == 8 && (p[4].x < p[5].x ==> r.leftBottom + r.rightBottom != 0.0)
    ensures |q| == 8 && q[..4] == p[..4] && q[6..] == p[6..]
    ensures q[4].y == p[4].y && q[5].y == p[5].y
    ensures p[4].x < p[5].x ==> q[4].x == q[5].x
    ensures p[4].x >= p[5].x ==> q == p
  {
    if p[4].x < p[5].x then
      var m := Share(r.leftBottom, r.rightBottom, rect.width);
      p[4 := p[4].(x := m)][5 := p[5].(x := m)]
    else p
  }

  /** The left edge: anchors 6 and 7 merge when 6 lies above 7. */
  function CorrectLeft(p: seq<Point>, rect: Rect, r: Radii): (q: seq<Point>)
    requires |p| == 8 && (p[6].y < p[7].y ==> r.topLeft + r.bottomLeft != 0.0)
    ensures |q| == 8 && q[..6] == p[..6]
    ensures q[6].x == p[6].x && q[7].x == p[7].x
    ensures p[6].y < p[7].y ==> q[6].y == q[7].y
    ensures p[6].y >= p[7].y ==> q == p
  {
    if p[6].y < p[7].y then
      var m := Share(r.topLeft, r.bottomLeft, rect.height);
      p[6 := p[6].(y := m)][7 := p[7].(y := m)]
    else p
  }

  /** The four corrections, one edge after the other, in the order GenerateGeometry applies them. */
  function CorrectOverlaps(p: seq<Point>, rect: Rect, r: Radii): (q: seq<Point>)
    requires |p| == 8 && CorrectionDefined(p, r)
    ensures |q| == 8
    ensures OnEdges(p, rect) ==> OnEdges(q, rect)
    ensures p[0].x > p[1].x ==> q[0].x == q[1].x
    ensures p[0].x <= p[1].x ==> q[0] == p[0] && q[1] == p[1]
    ensures p[2].y > p[3].y ==> q[2].y == q[3].y
    ensures p[2].y <= p[3].y ==> q[2] == p[2] && q[3] == p[3]
    ensures p[4].x < p[5].x ==> q[4].x == q[5].x
    ensures p[4].x >= p[5].x ==> q[4] == p[4] && q[5] == p[5]
    ensures p[6].y < p[7].y ==> q[6].y == q[7].y
    ensures p[6].y >= p[7].y ==> q[6] == p[6] && q[7] == p[7]
  {
    var p1 := CorrectTop(p, rect, r);
    assert p1[2] == p[2] && p1[3] == p[3];
    var p2 := CorrectRight(p1, rect, r);
    assert p2[4] == p[4] && p2[5] == p[5];
    var p3 := CorrectBottom(p2, rect, r);
    assert p3[6] == p[6] && p3[7] == p[7];
    var q := CorrectLeft(p3, rect, r);
    assert p2[..2] == p1[..2] && p3[..4] == p2[..4] && q[..6] == p3[..6];
    assert q[0] == p1[0] && q[1] == p1[1];
    assert q[2] == p2[2] && q[3] == p2[3];
    assert q[4] == p3[4] && q[5] == p3[5];
    q
  }

  /**
    One edge, abstracted: the anchor nearer its start sits `AnchorOffset(near)`
    in, the other `AnchorOffset(far)` short of `length`. If they cross, the
    radii cannot both be zero and the shared point lies on the edge; if not,
    both anchors already lie on the edge.
   */
  lemma EdgeStaysOnEdge(near: real, far: real, length: real, s: real)
    requires near >= 0.0 && far >= 0.0 && length >= 0.0 && s > 0.0
    ensures var lo := AnchorOffset(near, s);
      var hi := length - AnchorOffset(far, s);
      && (lo > hi ==> near + far > 0.0 && 0.0 <= Share(near, far, length) <= length)
      && (lo <= hi ==> 0.0 <= lo && hi <= length)
  {
    AnchorOffsetIsScaled(near, s);
    AnchorOffsetIsScaled(far, s);
    var k := AnchorScale(s);
    if AnchorOffset(near, s) > length - AnchorOffset(far, s) {
      assert (near + far) * k > 0.0;
      ShareInRange(near, far, length);
    }
  }

  lemma RawCorrectionDefined(rect: Rect, r: Radii, s: real)
    requires Admissible(rect, r, s)
    ensures CorrectionDefined(RawAnchors(rect, r, s), r)
  {
    EdgeStaysOnEdge(r.leftTop, r.rightTop, rect.width, s);
    EdgeStaysOnEdge(r.topRight, r.bottomRight, rect.height, s);
    EdgeStaysOnEdge(r.leftBottom, r.rightBottom, rect.width, s);
    EdgeStaysOnEdge(r.topLeft, r.bottomLeft, rect.height, s);
  }

  /** The anchors after overlap correction, before translation. */
  function Anchors(rect: Rect, r: Radii, s: real): (q: seq<Point>)
    requires Admissible(rect, r, s)
    ensures |q| == 8 && OnEdges(q, rect)
  {
    RawCorrectionDefined(rect, r, s);
    CorrectOverlaps(RawAnchors(rect, r, s), rect, r)
  }

  /**
    After correction the two anchors of every edge are in order along it:
    the top and right pairs run forward, the bottom and left pairs backward.
   */
  lemma AnchorsOrdered(rect: Rect, r: Radii, s: real)
    requires Admissible(rect, r, s)
    ensures var a := Anchors(rect, r, s);
      a[0].x <= a[1].x && a[2].y <= a[3].y && a[4].x >= a[5].x && a[6].y >= a[7].y
  {
  }

  /** After correction, and before translation, every anchor lies in the rectangle. */
  lemma AnchorsInBounds(rect: Rect, r: Radii, s: real)
    requires Admissible(rect, r, s)
    ensures forall i :: 0 <= i < 8 ==> InBox(Anchors(rect, r, s)[i], rect.width, rect.height)
  {
    EdgeStaysOnEdge(r.leftTop, r.rightTop, rect.width, s);
    EdgeStaysOnEdge(r.topRight, r.bottomRight, rect.height, s);
    EdgeStaysOnEdge(r.leftBottom, r.rightBottom, rect.width, s);
    EdgeStaysOnEdge(r.topLeft, r.bottomLeft, rect.height, s);
  }

  /**
    A correction fires exactly when the raw anchors of its edge cross; then
    its denominator is positive and both anchors become the one shared point;
    otherwise both keep their raw positions.
   */
  lemma CorrectionMergesCrossingAnchors(rect: Rect, r: Radii, s: real)
    requires Admissible(rect, r, s)
    ensures var p := RawAnchors(rect, r, s);
      var a := Anchors(rect, r, s);
      && (p[0].x > p[1].x ==>
            r.leftTop + r.rightTop > 0.0 && a[0] == a[1] == Point(Share(r.leftTop, r.rightTop, rect.width), 0.0))
      && (p[0].x <= p[1].x ==> a[0] == p[0] && a[1] == p[1])
      && (p[2].y > p[3].y ==>
            r.topRight + r.bottomRight > 0.0 && a[2] == a[3] == Point(rect.width, Share(r.topRight, r.bottomRight, rect.height)))
      && (p[2].y <= p[3].y ==> a[2] == p[2] && a[3] == p[3])
      && (p[4].x < p[5].x ==>
            r.leftBottom + r.rightBottom > 0.0 && a[4] == a[5] == Point(Share(r.leftBottom, r.rightBottom, rect.width), rect.height))
      && (p[4].x >= p[5].x ==> a[4] == p[4] && a[5] == p[5])
      && (p[6].y < p[7].y ==>
            r.topLeft + r.bottomLeft > 0.0 && a[6] == a[7] == Point(0.0, Share(r.topLeft, r.bottomLeft, rect.height)))
      && (p[6].y >= p[7].y ==> a[6] == p[6] && a[7] == p[7])
  {
    EdgeStaysOnEdge(r.leftTop, r.rightTop, rect.width, s);
    EdgeStaysOnEdge(r.topRight, r.bottomRight, rect.height, s);
    EdgeStaysOnEdge(r.leftBottom, r.rightBottom, rect.width, s);
    EdgeStaysOnEdge(r.topLeft, r.bottomLeft, rect.height, s);
  }

  /**
    A square of side `side` whose eight directional radii all equal some
    `radius` of at least half the side, at smoothing at most 1: every edge
    collapses to one shared anchor at its midpoint.
   */
  lemma SquareCollapsesToMidpoints(side: real, radius: real, s: real)
    requires side > 0.0 && 2.0 * radius >= side && 0.0 < s <= 1.0
    ensures var a := Anchors(Rect(0.0, 0.0, side, side), UniformRadii(radius), s);
      var h := side / 2.0;
      a == [Point(h, 0.0), Point(h, 0.0), Point(side, h), Point(side, h),
            Point(h, side), Point(h, side), Point(0.0, h), Point(0.0, h)]
  {
    var rect := Rect(0.0, 0.0, side, side);
    var r := UniformRadii(radius);
    AnchorOffsetIsScaled(radius, s);
    var k := AnchorScale(s);
    assert 2.0 * radius * k > side;
    assert Share(radius, radius, side) == side / 2.0;
    CorrectionMergesCrossingAnchors(rect, r, s);
  }

  function UniformRadii(radius: real): Radii {
    Radii(radius, radius, radius, radius, radius, radius, radius, radius)
  }

  /** Reflection in the diagonal through the top-left corner. */
  function Mirror(p: Point): Point {
    Point(p.y, p.x)
  }

  /** Reflection in the diagonal through the top-right corner of a square of side `side`. */
  function AntiMirror(p: Point, side: real): Point {
    Point(side - p.y, side - p.x)
  }

  /**
    Eight anchors of a square of side `side` that each diagonal reflection
    maps onto one another: the main diagonal swaps the top and left edges and
    the right and bottom edges, the other diagonal swaps the top and right
    edges and the bottom and left edges.
   */
  predicate DiagonallySymmetric(a: seq<Point>, side: real)
    requires |a| == 8
  {
    && a[0] == Mirror(a[7]) && a[1] == Mirror(a[6]) && a[2] == Mirror(a[5]) && a[3] == Mirror(a[4])
    && a[0] == AntiMirror(a[3], side) && a[1] == AntiMirror(a[2], side)
    && a[4] == AntiMirror(a[7], side) && a[5] == AntiMirror(a[6], side)
  }

  /**
    A square with the same directional radius everywhere has anchors, after
    correction, that are symmetric under both diagonal reflections.
   */
  lemma UniformSquareAnchorsSymmetric(rect: Rect, radius: real, s: real)
    requires Admissible(rect, UniformRadii(radius), s) && rect.width == rect.height
    ensures DiagonallySymmetric(Anchors(rect, UniformRadii(radius), s), rect.width)
  {
    CorrectionMergesCrossingAnchors(rect, UniformRadii(radius), s);
  }

  // ---------------------------------------------------------------------
  // Control offset

  /** At smoothing 1 the control offset vanishes and every control point is a rectangle corner. */
  lemma ControlPointsAtCornersWhenUnsmoothed(rect: Rect, r: Radii)
    ensures ControlOffset(r, 1.0) == 0.0
    ensures var w := rect.width;
      var h := rect.height;
      ControlPoints(rect, ControlOffset(r, 1.0))
        == [Point(w, 0.0), Point(w, 0.0), Point(w, h), Point(w, h),
            Point(0.0, h), Point(0.0, h), Point(0.0, 0.0), Point(0.0, 0.0)]
  {
  }

  /**
    Above smoothing 1 the control points leave the rectangle: the first one
    lies beyond its right edge.
   */
  lemma ControlPointLeavesRectAboveOne(rect: Rect, r: Radii, s: real)
    requires r.leftTop > 0.0 && s > 1.0
    ensures ControlPoints(rect, ControlOffset(r, s))[0].x > rect.width
  {
  }

  /** For a positive radius, raising the smoothing factor strictly shrinks the control offset. */
  lemma ControlOffsetDecreasing(r: Radii, s1: real, s2: real)
    requires r.leftTop > 0.0 && s1 < s2
    ensures ControlOffset(r, s1) > ControlOffset(r, s2)
  {
    var c := Pi / 2.0 * BezierControlPointCoef;
    assert ControlOffset(r, s1) == r.leftTop * (1.0 - s1) * c;
    assert ControlOffset(r, s2) == r.leftTop * (1.0 - s2) * c;
    assert ControlOffset(r, s1) - ControlOffset(r, s2) == r.leftTop * (s2 - s1) * c;
    assert r.leftTop * (s2 - s1) > 0.0;
  }

  // ---------------------------------------------------------------------
  // Translation and emission

  /** Every point moved by `v`, in the same order. */
  function Shift(ps: seq<Point>, v: Vector): (q: seq<Point>)
    ensures |q| == |ps|
    ensures forall i :: 0 <= i < |ps| ==> q[i] == Translate(ps[i], v)
  {
    if ps == [] then [] else [Translate(ps[0], v)] + Shift(ps[1..], v)
  }

  /**
    The segments, in the order the drawing context receives them: begin at
    anchor 0, then for each edge a line to its second anchor and a Bézier,
    through that corner's two control points, to the next edge's first anchor.
   */
  function Contour(p: seq<Point>, b: seq<Point>): (c: seq<Segment>)
    requires |p| == 8 && |b| == 8
    ensures |c| == 9 && c[0] == Begin(p[0])
    ensures forall i :: 1 <= i < 9 && i % 2 == 1 ==> c[i] == Line(p[i])
    ensures forall i :: 1 <= i < 9 && i % 2 == 0 ==> c[i] == Bezier(b[i - 2], b[i - 1], p[i % 8])
  {
    [ Begin(p[0]),
      Line(p[1]), Bezier(b[0], b[1], p[2]),
      Line(p[3]), Bezier(b[2], b[3], p[4]),
      Line(p[5]), Bezier(b[4], b[5], p[6]),
      Line(p[7]), Bezier(b[6], b[7], p[0]) ]
  }

  /** One figure of four lines and four Béziers, alternating, that ends where it began. */
  predicate IsClosedContour(c: seq<Segment>) {
    && |c| == 9
    && c[0].Begin?
    && (forall i :: 1 <= i < 9 ==> (c[i].Line? <==> i % 2 == 1) && !c[i].Begin?)
    && EndPoint(c[8]) == c[0].start
  }

  lemma ContourIsClosed(p: seq<Point>, b: seq<Point>)
    requires |p| == 8 && |b| == 8
    ensures IsClosedContour(Contour(p, b))
  {
  }

  /** The whole path for one rectangle: corrected anchors and control points, translated, emitted. */
  function Geometry(rect: Rect, r: Radii, s: real): (c: seq<Segment>)
    requires Admissible(rect, r, s)
    ensures IsClosedContour(c)
    ensures c[0] == Begin(Translate(Anchors(rect, r, s)[0], Vector(rect.left, rect.top)))
  {
    var v := Vector(rect.left, rect.top);
    Contour(Shift(Anchors(rect, r, s), v), Shift(ControlPoints(rect, ControlOffset(r, s)), v))
  }

  /**
    The path is closed, and every segment endpoint (each anchor) lies in the
    rectangle. Control points need not: for smoothing above 1 the control
    offset is negative and they fall outside.
   */
  lemma GeometryClosedAndContained(rect: Rect, r: Radii, s: real)
    requires Admissible(rect, r, s)
    ensures IsClosedContour(Geometry(rect, r, s))
    ensures forall i :: 0 <= i < 9 ==> InRect(EndPoint(Geometry(rect, r, s)[i]), rect)
  {
    var v := Vector(rect.left, rect.top);
    var a := Anchors(rect, r, s);
    var c := Geometry(rect, r, s);
    ContourIsClosed(Shift(a, v), Shift(ControlPoints(rect, ControlOffset(r, s)), v));
    AnchorsInBounds(rect, r, s);
    forall i | 0 <= i < 9 ensures InRect(EndPoint(c[i]), rect) {
      assert EndPoint(c[i]) == Translate(a[i % 8], v);
      assert InBox(a[i % 8], rect.width, rect.height);
    }
  }

  /** The top-edge step of the overlap correction: merge anchors 0 and 1 in place when they cross. */
  method CorrectTopInPlace(points: array<Point>, rect: Rect, radii: Radii)
    requires points.Length == 8 && (points[0].x > points[1].x ==> radii.leftTop + radii.rightTop != 0.0)
    modifies points
    ensures points[..] == CorrectTop(old(points[..]), rect, radii)
  {
    if points[0].x > points[1].x {
      var m := radii.leftTop / (radii.leftTop + radii.rightTop) * rect.width;
      assert m == Share(radii.leftTop, radii.rightTop, rect.width);
      points[0] := points[0].(x := m);
      points[1] := points[1].(x := m);
    }
  }

  /** The right-edge step of the overlap correction: merge anchors 2 and 3 in place when they cross. */
  method CorrectRightInPlace(points: array<Point>, rect: Rect, radii: Radii)
    requires points.Length == 8 && (points[2].y > points[3].y ==> radii.topRight + radii.bottomRight != 0.0)
    modifies points
    ensures points[..] == CorrectRight(old(points[..]), rect, radii)
  {
    if points[2].y > points[3].y {
      var m := radii.topRight / (radii.topRight + radii.bottomRight) * rect.height;
      assert m == Share(radii.topRight, radii.bottomRight, rect.height);
      points[2] := points[2].(y := m);
      points[3] := points[3].(y := m);
    }
  }

  /** The bottom-edge step of the overlap correction: merge anchors 4 and 5 in place when they cross. */
  method CorrectBottomInPlace(points: array<Point>, rect: Rect, radii: Radii)
    requires points.Length == 8 && (points[4].x < points[5].x ==> radii.leftBottom + radii.rightBottom != 0.0)
    modifies points
    ensures points[..] == CorrectBottom(old(points[..]), rect, radii)
  {
    if points[4].x < points[5].x {
      var m := radii.leftBottom / (radii.leftBottom + radii.rightBottom) * rect.width;
      assert m == Share(radii.leftBottom, radii.rightBottom, rect.width);
      points[4] := points[4].(x := m);
      points[5] := points[5].(x := m);
    }
  }

  /** The left-edge step of the overlap correction: merge anchors 6 and 7 in place when they cross. */
  method CorrectLeftInPlace(points: array<Point>, rect: Rect, radii: Radii)
    requires points.Length == 8 && (points[6].y < points[7].y ==> radii.topLeft + radii.bottomLeft != 0.0)
    modifies points
    ensures points[..] == CorrectLeft(old(points[..]), rect, radii)
  {
    if points[6].y < points[7].y {
      var m := radii.topLeft / (radii.topLeft + radii.bottomLeft) * rect.height;
      assert m == Share(radii.topLeft, radii.bottomLeft, rect.height);
      points[6] := points[6].(y := m);
      points[7] := points[7].(y := m);
    }
  }

  /** The overlap correction of GenerateGeometry, on the anchor array in place. */
  method CorrectOverlapsInPlace(points: array<Point>, rect: Rect, radii: Radii)
    requires points.Length == 8 && CorrectionDefined(points[..], radii)
    modifies points
    ensures points[..] == CorrectOverlaps(old(points[..]), rect, radii)
  {
    ghost var raw := points[..];
    CorrectTopInPlace(points, rect, radii);
    assert points[2] == raw[2] && points[3] == raw[3];
    CorrectRightInPlace(points, rect, radii);
    assert points[4] == raw[4] && points[5] == raw[5];
    CorrectBottomInPlace(points, rect, radii);
    assert points[6] == raw[6] && points[7] == raw[7];
    CorrectLeftInPlace(points, rect, radii);
  }

  /** The translation loop of GenerateGeometry: every anchor and control point moves by `v`. */
  method TranslateAll(points: array<Point>, bPoints: array<Point>, v: Vector)
    requires points.Length == 8 && bPoints.Length == 8 && points != bPoints
    modifies points, bPoints
    ensures points[..] == Shift(old(points[..]), v)
    ensures bPoints[..] == Shift(old(bPoints[..]), v)
  {
    for i := 0 to 8
      invariant forall j :: 0 <= j < i ==> points[j] == Translate(old(points[j]), v)
      invariant forall j :: i <= j < 8 ==> points[j] == old(points[j])
      invariant forall j :: 0 <= j < i ==> bPoints[j] == Translate(old(bPoints[j]), v)
      invariant forall j :: i <= j < 8 ==> bPoints[j] == old(bPoints[j])
    {
      points[i] := Translate(points[i], v);
      bPoints[i] := Translate(bPoints[i], v);
    }
  }

  /** The calls on the drawing context, in order, as segments. */
  method Emit(points: array<Point>, bPoints: array<Point>) returns (path: seq<Segment>)
    requires points.Length == 8 && bPoints.Length == 8
    ensures path == Contour(points[..], bPoints[..])
  {
    path := [Begin(points[0])];
    path := path + [Line(points[1])];
    path := path + [Bezier(bPoints[0], bPoints[1], points[2])];
    path := path + [Line(points[3])];
    path := path + [Bezier(bPoints[2], bPoints[3], points[4])];
    path := path + [Line(points[5])];
    path := path + [Bezier(bPoints[4], bPoints[5], points[6])];
    path := path + [Line(points[7])];
    path := path + [Bezier(bPoints[6], bPoints[7], points[0])];
  }

  /**
    GenerateGeometry: the points and control points are built in two arrays,
    the crossing anchors of each edge are merged in place, all 16 points are
    shifted by the rectangle's origin, and the figure is emitted.
   */
  method GenerateGeometry(rect: Rect, radii: Radii, s: real) returns (path: seq<Segment>)
    requires Admissible(rect, radii, s)
    ensures path == Geometry(rect, radii, s)
    ensures IsClosedContour(path)
    ensures path[0].start == Translate(Anchors(rect, radii, s)[0], Vector(rect.left, rect.top))
    ensures forall i :: 0 <= i < 9 ==> InRect(EndPoint(path[i]), rect)
  {
    var bc := ControlOffset(radii, s);

    var points := new Point[] [
      Point(AnchorOffset(radii.leftTop, s), 0.0),
      Point(rect.width - AnchorOffset(radii.rightTop, s), 0.0),
      Point(rect.width, AnchorOffset(radii.topRight, s)),
      Point(rect.width, rect.height - AnchorOffset(radii.bottomRight, s)),
      Point(rect.width - AnchorOffset(radii.rightBottom, s), rect.height),
      Point(AnchorOffset(radii.leftBottom, s), rect.height),
      Point(0.0, rect.height - AnchorOffset(radii.bottomLeft, s)),
      Point(0.0, AnchorOffset(radii.topLeft, s))];

    var bPoints := new Point[] [
      Point(rect.width - bc, 0.0),
      Point(rect.width, bc),
      Point(rect.width, rect.height - bc),
      Point(rect.width - bc, rect.height),
      Point(bc, rect.height),
      Point(0.0, rect.height - bc),
      Point(0.0, bc),
      Point(bc, 0.0)];

    assert points[..] == RawAnchors(rect, radii, s);
    assert bPoints[..] == ControlPoints(rect, bc);
    RawCorrectionDefined(rect, radii, s);
    CorrectOverlapsInPlace(points, rect, radii);
    assert points[..] == Anchors(rect, radii, s);

    var v := Vector(rect.TopLeft().x, rect.TopLeft().y);
    ghost var anchors := points[..];
    TranslateAll(points, bPoints, v);
    assert points[..] == Shift(anchors, v);
    assert bPoints[..] == Shift(ControlPoints(rect, bc), v);

    path := Emit(points, bPoints);

    GeometryClosedAndContained(rect, radii, s);
  }
}
