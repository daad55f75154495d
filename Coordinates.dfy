/** `CachedCoordinateConverter`: the affine map between screen space and the
    overlay's local space. The origin is the top-left of the tree root's
    bounding rectangle and the scale is fixed at 1.5; neither changes after
    construction, so the converter is a value. */
module Coordinates {
  import opened Common
  import opened Geometry
  import opened Elements

  const ScaleFactor: real := 1.5

  datatype CachedCoordinateConverter = CachedCoordinateConverter(uiTree: UiTreeNode) {

    /** The origin is only a finite point when the root has a non-empty
        bounding rectangle. */
    predicate Valid() {
      uiTree.elementProperties.boundingRect.Rect?
    }

    /** The screen position of the tree root: the top-left corner of its
        bounding rectangle. */
    function RootPosition(): (origin: Point)
      requires Valid()
      ensures origin.x == uiTree.elementProperties.boundingRect.x
      ensures origin.y == uiTree.elementProperties.boundingRect.y
    {
      uiTree.elementProperties.boundingRect.TopLeft()
    }

    /** `(screenPoint - RootPosition) / ScaleFactor`, component-wise. */
    function PointFromScreen(screenPoint: Point): (localPoint: Point)
      requires Valid()
      ensures PointToScreen(localPoint) == screenPoint
    {
      Point((screenPoint.x - RootPosition().x) / ScaleFactor, (screenPoint.y - RootPosition().y) / ScaleFactor)
    }

    /** `localPoint * ScaleFactor + RootPosition`, component-wise. */
    function PointToScreen(localPoint: Point): (screenPoint: Point)
      requires Valid()
      ensures (screenPoint.x - RootPosition().x) / ScaleFactor == localPoint.x
      ensures (screenPoint.y - RootPosition().y) / ScaleFactor == localPoint.y
    {
      Point(localPoint.x * ScaleFactor + RootPosition().x, localPoint.y * ScaleFactor + RootPosition().y)
    }

    /** Sizes are divided by the scale and ignore the origin; `new Size`
        throws on `Size.Empty`, whose extents are negative infinity. */
    function SizeFromScreen(screenSize: Size): (localSize: Result<Size>)
      ensures localSize.Ok? <==> !screenSize.IsEmpty() && screenSize.Valid()
      ensures localSize.Err? ==> localSize.error == ArgumentException
      ensures localSize.Ok? ==> SizeToScreen(localSize.value) == Ok(screenSize)
    {
      match screenSize
      case EmptySize => Err(ArgumentException)
      case Size(w, h) => NewSize(w / ScaleFactor, h / ScaleFactor)
    }

    function SizeToScreen(localSize: Size): (screenSize: Result<Size>)
      ensures screenSize.Ok? <==> !localSize.IsEmpty() && localSize.Valid()
      ensures screenSize.Err? ==> screenSize.error == ArgumentException
      ensures screenSize.Ok? ==>
        && localSize.Size? && screenSize.value.Size?
        && screenSize.value.width / ScaleFactor == localSize.width
        && screenSize.value.height / ScaleFactor == localSize.height
    {
      match localSize
      case EmptySize => Err(ArgumentException)
      case Size(w, h) => NewSize(w * ScaleFactor, h * ScaleFactor)
    }

    /** The top-left is converted as a point and the size as a size,
        independently; `Rect.Empty` has the empty size, so it throws. */
    function RectFromScreen(screenRect: Rect): (localRect: Result<Rect>)
      requires Valid()
      ensures localRect.Ok? <==> !screenRect.IsEmpty() && screenRect.Valid()
      ensures localRect.Err? ==> localRect.error == ArgumentException
      ensures localRect.Ok? ==> localRect.value.Rect? && RectToScreen(localRect.value) == Ok(screenRect)
    {
      match SizeFromScreen(screenRect.Extent())
      case Err(e) => Err(e)
      case Ok(localSize) => Ok(NewRect(PointFromScreen(screenRect.TopLeft()), localSize))
    }

    function RectToScreen(localRect: Rect): (screenRect: Result<Rect>)
      requires Valid()
      ensures screenRect.Ok? <==> !localRect.IsEmpty() && localRect.Valid()
      ensures screenRect.Err? ==> screenRect.error == ArgumentException
      ensures screenRect.Ok? ==> screenRect.value.Rect? && screenRect.value.TopLeft() == PointToScreen(localRect.TopLeft())
      ensures screenRect.Ok? ==> screenRect.value.Extent() == SizeToScreen(localRect.Extent()).value
    {
      match SizeToScreen(localRect.Extent())
      case Err(e) => Err(e)
      case Ok(screenSize) => Ok(NewRect(PointToScreen(localRect.TopLeft()), screenSize))
    }
  }

  /** `new CachedCoordinateConverter(uiTree)`. */
  function NewCachedCoordinateConverter(uiTree: UiTreeNode): (c: CachedCoordinateConverter)
    ensures c.uiTree == uiTree
  {
    CachedCoordinateConverter(uiTree)
  }

  /** The root's top-left corner is the local origin, and the root's
      rectangle converts to one whose top-left is that origin. */
  lemma RootIsLocalOrigin(c: CachedCoordinateConverter)
    requires c.Valid()
    ensures c.PointFromScreen(c.RootPosition()) == Point(0.0, 0.0)
    ensures c.PointToScreen(Point(0.0, 0.0)) == c.RootPosition()
    ensures var root := c.uiTree.elementProperties.boundingRect;
      root.Valid() ==> c.RectFromScreen(root).Ok? && c.RectFromScreen(root).value.TopLeft() == Point(0.0, 0.0)
  {
  }

  lemma PointRoundTrips(c: CachedCoordinateConverter, p: Point)
    requires c.Valid()
    ensures c.PointToScreen(c.PointFromScreen(p)) == p
    ensures c.PointFromScreen(c.PointToScreen(p)) == p
  {
  }

  lemma SizeRoundTrips(c: CachedCoordinateConverter, s: Size)
    requires s.Size? && s.Valid()
    ensures c.SizeFromScreen(s).Ok? && c.SizeToScreen(c.SizeFromScreen(s).value) == Ok(s)
    ensures c.SizeToScreen(s).Ok? && c.SizeFromScreen(c.SizeToScreen(s).value) == Ok(s)
  {
  }

  lemma RectRoundTrips(c: CachedCoordinateConverter, r: Rect)
    requires c.Valid() && r.Rect? && r.Valid()
    ensures c.RectFromScreen(r).Ok? && c.RectToScreen(c.RectFromScreen(r).value) == Ok(r)
    ensures c.RectToScreen(r).Ok? && c.RectFromScreen(c.RectToScreen(r).value) == Ok(r)
  {
  }

  /** The conversion preserves hit testing: a screen rect contains a screen
      point exactly when the converted rect contains the converted point. */
  lemma ContainmentPreserved(c: CachedCoordinateConverter, r: Rect, p: Point)
    requires c.Valid() && r.Rect? && r.Valid()
    ensures c.RectFromScreen(r).Ok?
    ensures r.Contains(p) <==> c.RectFromScreen(r).value.Contains(c.PointFromScreen(p))
  {
  }

  /** Converting the top-left and the size independently still maps the
      bottom-right corner as a point. */
  lemma CornersConvertAsPoints(c: CachedCoordinateConverter, r: Rect)
    requires c.Valid() && r.Rect? && r.Valid()
    ensures c.RectFromScreen(r).Ok?
    ensures var l := c.RectFromScreen(r).value;
      l.Rect? && Point(l.x + l.width, l.y + l.height) == c.PointFromScreen(Point(r.x + r.width, r.y + r.height))
  {
  }
}
