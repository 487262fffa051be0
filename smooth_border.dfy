/**
  The SmoothBorder control at arrange time: the full rectangle is deflated
  by the border thickness, and the two cached paths are recomputed or
  cleared, the background path from the deflated rectangle with inner
  radii and the border path from the full rectangle with outer radii.
 */
module Control {
  import opened Primitives
  import opened CornerRadii
  import opened PathGeometry

  /**
    HelperDeflateRect: the origin moves in by the left and top thickness;
    width and height lose both opposite thicknesses and stop at zero.
   */
  function DeflateRect(rt: Rect, thick: Thickness): (r: Rect)
    ensures r.width >= 0.0 && r.height >= 0.0
    ensures r.TopLeft() == Point(rt.left + thick.left, rt.top + thick.top)
    ensures r.width == 0.0 <==> rt.width <= thick.left + thick.right
    ensures r.height == 0.0 <==> rt.height <= thick.top + thick.bottom
    ensures r.width > 0.0 ==> r.width + thick.left + thick.right == rt.width
    ensures r.height > 0.0 ==> r.height + thick.top + thick.bottom == rt.height
    ensures rt.width >= 0.0 && thick.left >= 0.0 && thick.right >= 0.0 ==> r.width <= rt.width
    ensures rt.height >= 0.0 && thick.top >= 0.0 && thick.bottom >= 0.0 ==> r.height <= rt.height
  {
    Rect(rt.left + thick.left, rt.top + thick.top,
      Max(0.0, rt.width - thick.left - thick.right),
      Max(0.0, rt.height - thick.top - thick.bottom))
  }

  /**
    When the thicknesses fit, the deflated rectangle lies inside the one it
    was deflated from. (When they do not, its origin can lie beyond the
    original's far edge: only its size is clamped.)
   */
  lemma DeflatedInside(rt: Rect, thick: Thickness)
    requires NonNegativeThickness(thick)
    requires thick.left + thick.right <= rt.width && thick.top + thick.bottom <= rt.height
    ensures var r := DeflateRect(rt, thick);
      && rt.left <= r.left && r.left + r.width <= rt.left + rt.width
      && rt.top <= r.top && r.top + r.height <= rt.top + rt.height
  {
  }

  /** The configuration Arrange reads: corner radii, border thickness, smoothing. */
  predicate ValidSettings(cornerRadius: CornerRadius, borderThickness: Thickness, smoothing: real) {
    NonNegativeCorners(cornerRadius) && NonNegativeThickness(borderThickness) && smoothing > 0.0
  }

  /** Valid settings make both the outer and the inner radii fit inputs for the generator. */
  lemma ResolvedRadiiAdmissible(rect: Rect, cornerRadius: CornerRadius, borderThickness: Thickness, smoothing: real)
    requires ValidSettings(cornerRadius, borderThickness, smoothing)
    requires rect.width >= 0.0 && rect.height >= 0.0
    ensures Admissible(rect, Resolve(cornerRadius, borderThickness, true), smoothing)
    ensures Admissible(rect, Resolve(cornerRadius, borderThickness, false), smoothing)
  {
  }

  /** The background path Arrange caches: present only for a deflated rectangle of positive area. */
  function BackgroundPath(size: Size, cornerRadius: CornerRadius, borderThickness: Thickness, smoothing: real): (bg: Option<seq<Segment>>)
    requires ValidSize(size) && ValidSettings(cornerRadius, borderThickness, smoothing)
    ensures bg.Some? <==> size.width > borderThickness.left + borderThickness.right
                          && size.height > borderThickness.top + borderThickness.bottom
    ensures bg.Some? ==> IsClosedContour(bg.value)
  {
    var inner := DeflateRect(RectOfSize(size), borderThickness);
    if inner.width > 0.0 && inner.height > 0.0 then
      ResolvedRadiiAdmissible(inner, cornerRadius, borderThickness, smoothing);
      Some(Geometry(inner, Resolve(cornerRadius, borderThickness, false), smoothing))
    else None
  }

  /** The border path Arrange caches: present only when neither side of the full rectangle is zero. */
  function BorderPath(size: Size, cornerRadius: CornerRadius, borderThickness: Thickness, smoothing: real): (border: Option<seq<Segment>>)
    requires ValidSize(size) && ValidSettings(cornerRadius, borderThickness, smoothing)
    ensures border.Some? <==> size.width > 0.0 && size.height > 0.0
    ensures border.Some? ==> IsClosedContour(border.value)
  {
    var outer := RectOfSize(size);
    if outer.width != 0.0 && outer.height != 0.0 then
      ResolvedRadiiAdmissible(outer, cornerRadius, borderThickness, smoothing);
      Some(Geometry(outer, Resolve(cornerRadius, borderThickness, true), smoothing))
    else None
  }

  /**
    The background path exists exactly when the border leaves room on both
    axes; when it exists it is a closed contour whose segment endpoints (its
    anchors) lie in the deflated rectangle.
   */
  lemma BackgroundPresence(size: Size, cornerRadius: CornerRadius, borderThickness: Thickness, smoothing: real)
    requires ValidSize(size) && ValidSettings(cornerRadius, borderThickness, smoothing)
    ensures var bg := BackgroundPath(size, cornerRadius, borderThickness, smoothing);
      var inner := DeflateRect(RectOfSize(size), borderThickness);
      && (bg.Some? <==> size.width > borderThickness.left + borderThickness.right
                        && size.height > borderThickness.top + borderThickness.bottom)
      && (bg.Some? ==>
            IsClosedContour(bg.value) && forall i :: 0 <= i < 9 ==> InRect(EndPoint(bg.value[i]), inner))
  {
    var inner := DeflateRect(RectOfSize(size), borderThickness);
    if inner.width > 0.0 && inner.height > 0.0 {
      ResolvedRadiiAdmissible(inner, cornerRadius, borderThickness, smoothing);
      GeometryClosedAndContained(inner, Resolve(cornerRadius, borderThickness, false), smoothing);
    }
  }

  /**
    The border path exists exactly when the full rectangle has positive
    area; when it exists it is a closed contour whose segment endpoints (its
    anchors) lie in the full rectangle.
   */
  lemma BorderPresence(size: Size, cornerRadius: CornerRadius, borderThickness: Thickness, smoothing: real)
    requires ValidSize(size) && ValidSettings(cornerRadius, borderThickness, smoothing)
    ensures var border := BorderPath(size, cornerRadius, borderThickness, smoothing);
      && (border.Some? <==> size.width > 0.0 && size.height > 0.0)
      && (border.Some? ==>
            IsClosedContour(border.value) && forall i :: 0 <= i < 9 ==> InRect(EndPoint(border.value[i]), RectOfSize(size)))
  {
    var outer := RectOfSize(size);
    if outer.width != 0.0 && outer.height != 0.0 {
      ResolvedRadiiAdmissible(outer, cornerRadius, borderThickness, smoothing);
      GeometryClosedAndContained(outer, Resolve(cornerRadius, borderThickness, true), smoothing);
    }
  }

  /**
    The two decisions are independent: a border thick enough to leave no
    interior removes the background path but not the border path.
   */
  lemma ThickBorderKeepsOnlyBorderPath(size: Size, cornerRadius: CornerRadius, borderThickness: Thickness, smoothing: real)
    requires ValidSize(size) && ValidSettings(cornerRadius, borderThickness, smoothing)
    requires size.width > 0.0 && size.height > 0.0
    requires size.width <= borderThickness.left + borderThickness.right
    ensures BackgroundPath(size, cornerRadius, borderThickness, smoothing).None?
    ensures BorderPath(size, cornerRadius, borderThickness, smoothing).Some?
  {
  }

  /**
    A 100 by 100 control with border 2 and corner radius 10 on every side,
    unsmoothed: the interior is the 96 by 96 square at (2, 2), both paths
    exist, and the outer and inner directional radii are all 11 and all 9.
   */
  lemma UniformControlExample()
    ensures var size := Size(100.0, 100.0);
      var radius := CornerRadius(10.0, 10.0, 10.0, 10.0);
      var thickness := Thickness(2.0, 2.0, 2.0, 2.0);
      && DeflateRect(RectOfSize(size), thickness) == Rect(2.0, 2.0, 96.0, 96.0)
      && Resolve(radius, thickness, true) == UniformRadii(11.0)
      && Resolve(radius, thickness, false) == UniformRadii(9.0)
      && BackgroundPath(size, radius, thickness, 1.0).Some?
      && BorderPath(size, radius, thickness, 1.0).Some?
  {
    var size := Size(100.0, 100.0);
    var radius := CornerRadius(10.0, 10.0, 10.0, 10.0);
    var thickness := Thickness(2.0, 2.0, 2.0, 2.0);
    BackgroundPresence(size, radius, thickness, 1.0);
    BorderPresence(size, radius, thickness, 1.0);
  }

  /**
    A square control with one corner radius and one border thickness on
    every side: the anchors of the background path and of the border path,
    before translation, are symmetric under both diagonal reflections.
   */
  lemma UniformControlAnchorsSymmetric(side: real, radius: real, thickness: real, smoothing: real)
    requires side >= 0.0 && radius >= 0.0 && thickness >= 0.0 && smoothing > 0.0
    ensures var size := Size(side, side);
      var cornerRadius := CornerRadius(radius, radius, radius, radius);
      var borderThickness := Thickness(thickness, thickness, thickness, thickness);
      var inner := DeflateRect(RectOfSize(size), borderThickness);
      && DiagonallySymmetric(Anchors(inner, Resolve(cornerRadius, borderThickness, false), smoothing), inner.width)
      && DiagonallySymmetric(Anchors(RectOfSize(size), Resolve(cornerRadius, borderThickness, true), smoothing), side)
  {
    var size := Size(side, side);
    var cornerRadius := CornerRadius(radius, radius, radius, radius);
    var borderThickness := Thickness(thickness, thickness, thickness, thickness);
    var inner := DeflateRect(RectOfSize(size), borderThickness);
    var innerRadius := Max(0.0, radius - 0.5 * thickness);
    var outerRadius := if radius == 0.0 then 0.0 else radius + 0.5 * thickness;
    assert Resolve(cornerRadius, borderThickness, false) == UniformRadii(innerRadius);
    assert Resolve(cornerRadius, borderThickness, true) == UniformRadii(outerRadius);
    UniformSquareAnchorsSymmetric(inner, innerRadius, smoothing);
    UniformSquareAnchorsSymmetric(RectOfSize(size), outerRadius, smoothing);
  }

  /** The 100 by 100 example above: both paths' anchors are symmetric under the diagonal reflections. */
  lemma UniformControlExampleSymmetric()
    ensures var size := Size(100.0, 100.0);
      var radius := CornerRadius(10.0, 10.0, 10.0, 10.0);
      var thickness := Thickness(2.0, 2.0, 2.0, 2.0);
      var inner := DeflateRect(RectOfSize(size), thickness);
      && DiagonallySymmetric(Anchors(inner, Resolve(radius, thickness, false), 1.0), 96.0)
      && DiagonallySymmetric(Anchors(RectOfSize(size), Resolve(radius, thickness, true), 1.0), 100.0)
  {
    UniformControlAnchorsSymmetric(100.0, 10.0, 2.0, 1.0);
  }
  /**
    The control. `CornerRadius` and `BorderThickness` belong to the base
    border, `Smoothing` (default 1.0) to this control; the two caches hold
    the last paths computed at arrange time, `None` where the control holds
    null.
   */
  class SmoothBorder {
    var cornerRadius: CornerRadius
    var borderThickness: Thickness
    var smoothing: real
    var backgroundGeometryCache: Option<seq<Segment>>
    var borderGeometryCache: Option<seq<Segment>>

    ghost predicate Valid()
      reads this
    {
      ValidSettings(cornerRadius, borderThickness, smoothing)
    }

    /** Both caches start as empty geometries; radii and thickness default to zero, smoothing to 1. */
    constructor ()
      ensures Valid()
      ensures cornerRadius == CornerRadius(0.0, 0.0, 0.0, 0.0)
      ensures borderThickness == Thickness(0.0, 0.0, 0.0, 0.0)
      ensures smoothing == 1.0
      ensures backgroundGeometryCache == Some([]) && borderGeometryCache == Some([])
    {
      cornerRadius := CornerRadius(0.0, 0.0, 0.0, 0.0);
      borderThickness := Thickness(0.0, 0.0, 0.0, 0.0);
      smoothing := 1.0;
      backgroundGeometryCache := Some([]);
      borderGeometryCache := Some([]);
    }

    /** Setting `Smoothing` changes only that value; the caches wait for the next arrange. */
    method SetSmoothing(value: real)
      requires Valid() && value > 0.0
      modifies this`smoothing
      ensures Valid() && smoothing == value
    {
      smoothing := value;
    }

    /**
      ArrangeOverride: the background cache is recomputed or cleared from the
      deflated rectangle, then, independently, the border cache from the full
      rectangle; the size handed in is handed back.
     */
    method ArrangeOverride(finalSize: Size) returns (arranged: Size)
      requires Valid() && ValidSize(finalSize)
      modifies this`backgroundGeometryCache, this`borderGeometryCache
      ensures Valid() && arranged == finalSize
      ensures backgroundGeometryCache == BackgroundPath(finalSize, cornerRadius, borderThickness, smoothing)
      ensures borderGeometryCache == BorderPath(finalSize, cornerRadius, borderThickness, smoothing)
      ensures backgroundGeometryCache.Some? <==>
                DeflateRect(RectOfSize(finalSize), borderThickness).width > 0.0
                && DeflateRect(RectOfSize(finalSize), borderThickness).height > 0.0
      ensures borderGeometryCache.Some? <==> finalSize.width != 0.0 && finalSize.height != 0.0
    {
      var rect1 := RectOfSize(finalSize);
      var rect2 := DeflateRect(rect1, borderThickness);
      ResolvedRadiiAdmissible(rect1, cornerRadius, borderThickness, smoothing);
      ResolvedRadiiAdmissible(rect2, cornerRadius, borderThickness, smoothing);

      if rect2.width > 0.0 && rect2.height > 0.0 {
        var geometry := GenerateGeometry(rect2, Resolve(cornerRadius, borderThickness, false), smoothing);
        backgroundGeometryCache, borderGeometryCache := Some(geometry), Some(geometry);
      } else {
        backgroundGeometryCache := None;
      }

      if rect1.width != 0.0 && rect1.height != 0.0 {
        var geometry := GenerateGeometry(rect1, Resolve(cornerRadius, borderThickness, true), smoothing);
        borderGeometryCache := Some(geometry);
      } else {
        borderGeometryCache := None;
      }

      arranged := finalSize;
    }
  }
}
