# SmoothBorder geometry, modelled in Dafny

`SmoothBorder` is a WPF border control that draws its rectangle with
smoothed ("squircle"-like) rounded corners. It does this at arrange time:

- It deflates its rectangle by the border thickness.
- It resolves eight directional corner radii, two per corner. The
  background path uses the inner radii, which shrink by half the
  thickness. The border path uses the outer radii, which grow by half the
  thickness.
- It generates a closed path for each rectangle and caches both paths.
  The path is made of four straight edges and four cubic Bézier corners.
  When two corner curves would cross on a short edge, their anchors merge
  into one shared point.

This project models that geometry core and proves properties of it:

- the radius rules;
- that the deflated size is never negative;
- that overlap correction keeps each edge's anchors in order and inside
  the rectangle;
- that the contour is closed;
- when each cache is present.

Files, one module each:

- `primitives.dfy` (`Primitives`): the value types (point, vector, size,
  rectangle, thickness, corner radius), `Math.Max`, and π as a constant.
- `radii.dfy` (`CornerRadii`): the `Radii` resolver. It also gives a
  corner-by-edge view of the eight values and the half-corner rule, stated
  once.
- `geometry.dfy` (`PathGeometry`): `GenerateGeometry`, written as methods
  over arrays. Pure functions specify each stage: the raw anchors, the
  control points, the four edge corrections, translation and emission.
- `smooth_border.dfy` (`Control`): `HelperDeflateRect` and the
  `SmoothBorder` class. The class holds the configuration and the two
  cached paths that `ArrangeOverride` assigns.

Modelling choices:

- Doubles are `real`s.
- `Math.PI` is the constant `Pi`. The proofs use only that it is positive,
  and, for the collapsed-square example, that `Pi / 2 * 0.95 > 1`.
- The drawing context is replaced by the returned sequence of segments:
  `Begin(p)`, `Line(p)` and `Bezier(c1, c2, p)`. A null cache is `None`.
- The inputs are preconditions:
  - the smoothing factor is positive, because the code divides by it;
  - corner radii and thicknesses are non-negative, because the base
    border control validates them;
  - sizes are non-negative, which the layout size type guarantees.

Points of the code worth knowing:

- **No clamping.** The code does not clamp the anchors.
  `PathGeometry.AnchorsInBounds` proves that each one lies in the
  rectangle after overlap correction. Control points are not contained in
  general: for smoothing above 1 the control offset is negative.
- **Line 113.** The code assigns the fresh inner geometry to both caches.
  The border cache is then always overwritten at lines 129 or 133.
  `ArrangeOverride` keeps that assignment. Its postcondition shows that
  the final border cache depends only on the full rectangle.
- **Initial caches.** Before the first arrange, both caches hold an empty
  geometry, not null. The constructor models them as `Some([])`.

## Model

| member | source | states |
|---|---|---|
| Primitives.Max | SmoothBorder.cs:219-220 | The result is at least each argument and equals one of them. |
| Primitives.RectOfSize | SmoothBorder.cs:99 | The rectangle has its origin at (0, 0) and the width and height of the size. |
| CornerRadii.Resolve | SmoothBorder.cs:21-78 | Inner values are never negative. With non-negative inputs, every value is non-negative. In outer mode, a corner whose nominal radius is exactly 0 gets 0 on both of its sides. |
| CornerRadii.ResolveFollowsRule | SmoothBorder.cs:21-78 | For each corner and each adjoining edge, the resolved value that grows with that edge's thickness equals one half-corner rule. Outer: 0 if the nominal radius is 0, otherwise the nominal radius plus half that edge's thickness. Inner: max(0, nominal − half thickness). |
| CornerRadii.OuterZeroCornerStaysSquare | SmoothBorder.cs:30-59 | In outer mode, a zero nominal radius gives exactly 0 along both adjoining edges, whatever the thicknesses. |
| CornerRadii.OuterAddsHalfThickness | SmoothBorder.cs:23-65 | In outer mode, for a nonzero corner, the value that grows with an edge's thickness is the nominal radius plus half that thickness. |
| CornerRadii.InnerBounds | SmoothBorder.cs:67-77 | An inner value is ≥ 0. It is ≤ the nominal radius when both inputs are non-negative. It is exactly 0 iff the half thickness reaches the radius; otherwise it is radius − half thickness. |
| CornerRadii.InnerNonIncreasingInThickness | SmoothBorder.cs:69-76 | A thicker edge never gives a larger inner value. |
| CornerRadii.InnerWithinOuter | SmoothBorder.cs:21-77 | With non-negative inputs, each inner value is ≤ the matching outer value. |
| CornerRadii.UniformExample | SmoothBorder.cs:21-78 | Radius 10 and thickness 2 everywhere give outer values of 11 and inner values of 9. |
| CornerRadii.AsymmetricExample | SmoothBorder.cs:36-55 | With left/top thickness 0 and right/bottom thickness 4, the top-left corner stays 10 on both sides and the bottom-right corner becomes 12 on both sides. |
| PathGeometry.ControlOffset | SmoothBorder.cs:142 | The control offset is 0 at smoothing 1. It is ≥ 0 for a non-negative LeftTop at smoothing ≤ 1. It is negative for a positive LeftTop at smoothing above 1. |
| PathGeometry.AnchorOffset | SmoothBorder.cs:147-154 | A zero radius gives a zero offset. The offset times the smoothing factor is radius · π/2 · 0.95. |
| PathGeometry.AnchorScale | SmoothBorder.cs:147-154 | The factor that turns a radius into an anchor offset is positive. It exceeds 1 when the smoothing factor is ≤ 1. |
| PathGeometry.AnchorOffsetIsScaled | SmoothBorder.cs:147-154 | An anchor offset is the radius times that positive factor, so a non-negative radius gives a non-negative offset. |
| PathGeometry.Share | SmoothBorder.cs:172-184 | The shared point m satisfies m · (r1 + r2) = r1 · length, so it divides the edge in the ratio of the two radii. Equal radii give the midpoint. |
| PathGeometry.ShareInRange | SmoothBorder.cs:172-184 | The shared point r1/(r1+r2)·length lies in [0, length] when the radii are non-negative with a positive sum. |
| PathGeometry.RawAnchors | SmoothBorder.cs:145-155 | There are 8 anchors, two on each edge line, in the rectangle's own coordinates. Anchors 0 and 1 have y = 0, 2 and 3 have x = width, 4 and 5 have y = height, 6 and 7 have x = 0. |
| PathGeometry.ControlPoints | SmoothBorder.cs:158-168 | There are 8 control points, two per corner. Points 7 and 0 have y = 0, 1 and 2 have x = width, 3 and 4 have y = height, 5 and 6 have x = 0. With a zero offset, the two points of each corner coincide. |
| PathGeometry.EdgeStaysOnEdge | SmoothBorder.cs:147-154 | On one edge, crossing anchors imply a positive radius sum and a shared point on the edge. Anchors that do not cross already lie on the edge. |
| PathGeometry.RawCorrectionDefined | SmoothBorder.cs:170-185 | For admissible inputs, every correction that fires has a nonzero denominator. |
| PathGeometry.CorrectOverlaps | SmoothBorder.cs:170-185 | Points on the edge lines stay on them. A crossing pair on an edge gets one common coordinate along that edge. A pair that does not cross is unchanged. |
| PathGeometry.Anchors | SmoothBorder.cs:145-185 | The corrected anchors are 8 points, still two on each edge line. |
| PathGeometry.AnchorsOrdered | SmoothBorder.cs:170-185 | After correction, points[0].X ≤ points[1].X, points[2].Y ≤ points[3].Y, points[4].X ≥ points[5].X and points[6].Y ≥ points[7].Y. |
| PathGeometry.AnchorsInBounds | SmoothBorder.cs:145-185 | After correction and before translation, every anchor lies in [0, width] × [0, height]. |
| PathGeometry.CorrectionMergesCrossingAnchors | SmoothBorder.cs:170-185 | Each correction fires exactly when its raw anchors cross. It then has a positive denominator and makes both anchors the shared point. When it does not fire, both anchors keep their raw positions. |
| PathGeometry.SquareCollapsesToMidpoints | SmoothBorder.cs:145-185 | For a square whose eight directional radii all equal one value of at least half its side, with smoothing ≤ 1, each edge has exactly one anchor at the edge's midpoint. |
| PathGeometry.UniformSquareAnchorsSymmetric | SmoothBorder.cs:145-185 | For a square with one directional radius everywhere, the corrected anchors are symmetric under both diagonal reflections. The main diagonal swaps the top and left pairs and the right and bottom pairs. The other diagonal swaps the top and right pairs and the bottom and left pairs. |
| PathGeometry.ControlPointsAtCornersWhenUnsmoothed | SmoothBorder.cs:142-168 | At smoothing 1 the control offset is 0 and all 8 control points are rectangle corners. |
| PathGeometry.ControlPointLeavesRectAboveOne | SmoothBorder.cs:142-160 | For a positive LeftTop at smoothing above 1, the first control point lies beyond the right edge, so control points are not contained in general. |
| PathGeometry.ControlOffsetDecreasing | SmoothBorder.cs:142 | For a positive LeftTop, a larger smoothing factor gives a strictly smaller control offset. |
| PathGeometry.Shift | SmoothBorder.cs:187-193 | Translation keeps the number and order of the points and moves each one by the vector. |
| PathGeometry.Contour | SmoothBorder.cs:195-204 | The 9 segments begin at points[0]. Odd positions are lines to points[i]. Each even position is a Bézier with control points bPoints[i−2] and bPoints[i−1], ending at points[i mod 8]. |
| PathGeometry.ContourIsClosed | SmoothBorder.cs:196-204 | The emitted figure is one Begin followed by Line and Bezier alternating four times, and it ends at its start. |
| PathGeometry.Geometry | SmoothBorder.cs:139-205 | The path for one rectangle is a closed contour. It begins at the first corrected anchor moved by the rectangle's origin. |
| PathGeometry.GeometryClosedAndContained | SmoothBorder.cs:139-205 | The generated path is closed, and every segment endpoint (each anchor) lies in the rectangle. |
| PathGeometry.CorrectTop | SmoothBorder.cs:170-173 | The top-edge correction changes only anchors 0 and 1. It keeps their y coordinates. When 0 lies right of 1, they get one common position along the edge; otherwise nothing changes. |
| PathGeometry.CorrectRight | SmoothBorder.cs:174-177 | The right-edge correction changes only anchors 2 and 3. It keeps their x coordinates. When 2 lies below 3, they get one common position along the edge; otherwise nothing changes. |
| PathGeometry.CorrectBottom | SmoothBorder.cs:178-181 | The bottom-edge correction changes only anchors 4 and 5. It keeps their y coordinates. When 4 lies left of 5, they get one common position along the edge; otherwise nothing changes. |
| PathGeometry.CorrectLeft | SmoothBorder.cs:182-185 | The left-edge correction changes only anchors 6 and 7. It keeps their x coordinates. When 6 lies above 7, they get one common position along the edge; otherwise nothing changes. |
| PathGeometry.CorrectTopInPlace | SmoothBorder.cs:170-173 | Updating the array in place gives exactly the top-edge correction of its old contents. |
| PathGeometry.CorrectRightInPlace | SmoothBorder.cs:174-177 | Updating the array in place gives exactly the right-edge correction of its old contents. |
| PathGeometry.CorrectBottomInPlace | SmoothBorder.cs:178-181 | Updating the array in place gives exactly the bottom-edge correction of its old contents. |
| PathGeometry.CorrectLeftInPlace | SmoothBorder.cs:182-185 | Updating the array in place gives exactly the left-edge correction of its old contents. |
| PathGeometry.CorrectOverlapsInPlace | SmoothBorder.cs:170-185 | The in-place correction of the anchor array leaves it equal to the four edge corrections applied in order. |
| PathGeometry.TranslateAll | SmoothBorder.cs:187-193 | The 8-step loop moves every anchor and control point by the origin vector and changes nothing else. |
| PathGeometry.Emit | SmoothBorder.cs:195-204 | The nine context calls, read from the two arrays, form exactly the specified contour of those points. |
| PathGeometry.GenerateGeometry | SmoothBorder.cs:139-205 | The emitted path equals the specified geometry. It is a closed contour, it starts at the translated first anchor, and every segment endpoint (each anchor) lies in the rectangle. |
| Control.DeflateRect | SmoothBorder.cs:216-221 | Width and height are ≥ 0. The origin is the input origin plus (left, top). A side is 0 iff the thicknesses consume it; otherwise it is the input side minus both thicknesses. With non-negative inputs it never exceeds the input side. |
| Control.DeflatedInside | SmoothBorder.cs:216-221 | When the thicknesses fit, the deflated rectangle lies inside the original. |
| Control.ResolvedRadiiAdmissible | SmoothBorder.cs:109-125 | With valid settings and a non-negative rectangle, both resolved radii sets are admissible inputs to the generator. |
| Control.BackgroundPath | SmoothBorder.cs:104-118 | The background path is present iff the width exceeds left + right thickness and the height exceeds top + bottom thickness. When present, it is a closed contour. |
| Control.BorderPath | SmoothBorder.cs:120-134 | The border path is present iff the size has positive width and height. When present, it is a closed contour. |
| Control.BackgroundPresence | SmoothBorder.cs:104-118 | The background path exists iff the thickness leaves positive width and height. When it exists, it is closed and every segment endpoint (each anchor) lies in the deflated rectangle. |
| Control.BorderPresence | SmoothBorder.cs:120-134 | The border path exists iff the size has width ≠ 0 and height ≠ 0. When it exists, it is closed and every segment endpoint (each anchor) lies in the full rectangle. |
| Control.ThickBorderKeepsOnlyBorderPath | SmoothBorder.cs:104-134 | The two decisions are independent: a border that consumes the whole width removes the background path but keeps the border path. |
| Control.UniformControlExample | SmoothBorder.cs:97-137 | For 100×100 with thickness 2 and radius 10 at smoothing 1, the interior is {2, 2, 96, 96}, the radii are 11 outside and 9 inside, and both paths exist. |
| Control.UniformControlAnchorsSymmetric | SmoothBorder.cs:104-134 | For a square control with one corner radius and one thickness on every side, the anchors of both the background path and the border path are symmetric under both diagonal reflections. |
| Control.UniformControlExampleSymmetric | SmoothBorder.cs:97-137 | In the 100×100 example, the anchors of both paths are symmetric under both diagonal reflections. |
| Control.SmoothBorder.constructor | SmoothBorder.cs:81-92 | Both caches start as empty geometries. Smoothing defaults to 1, and radii and thickness default to 0. |
| Control.SmoothBorder.SetSmoothing | SmoothBorder.cs:84-92 | Setting Smoothing changes only that value and keeps the settings valid. |
| Control.SmoothBorder.ArrangeOverride | SmoothBorder.cs:97-137 | The size is returned unchanged. The background cache is the inner path of the deflated rectangle when it has positive area, otherwise None. The border cache is the outer path of the full rectangle when neither side is 0, otherwise None. |

## Left out

- `Child?.Arrange` with `Padding` (line 102): this arranges a child element, which is framework layout outside the geometry.
- `OnRender` (lines 207-214): this is the draw calls. They paint the border path and then the background path, each only when present and when its brush is set. These are foreign drawing calls.
- `StreamGeometry`, `Open` and `Freeze`, and the `isFilled`, `isClosed`, `isStroked` and `smoothJoin` flags of the context calls: these are drawing-library details. A path is its segment sequence.
- Dependency-property registration, change notification, and the setters of the base control's `CornerRadius` and `BorderThickness`: these are framework plumbing. `SetSmoothing` stands for the one property this control declares.
- `Point + Vector` and `Rect.TopLeft` (lines 187-192) are framework value-type operators. They are modelled as `Primitives.Translate` and `Rect.TopLeft`, whose bodies are the definitions, so they have no row of their own. `Shift` and `RectOfSize` carry the facts the model needs about them.
- IEEE-754 behaviour is not modelled: rounding, NaN, infinities, `CompareTo` on NaN, and the exact binary value of `Math.PI`.
- A smoothing factor of 0 or less, and negative radii, thicknesses or sizes, are not modelled. The source does not guard against them. Here they are excluded by preconditions.
- Curve smoothness and the visual squircle shape are not modelled. The code states nothing about them beyond the formulas.
- The source writes the in-place correction, the translation loop and the emission inline in `GenerateGeometry`. The model puts them in helper methods: one per edge correction (composed by `CorrectOverlapsInPlace`), `TranslateAll` and `Emit`. The effect on the arrays and on the output is the same.
