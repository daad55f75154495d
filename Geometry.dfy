/** The WPF value types `System.Windows.Point`, `Size` and `Rect`, over `real`.
    `Rect.Empty` and `Size.Empty` are their own constructors: WPF encodes them
    with infinite coordinates, which `real` cannot hold. */
module Geometry {
  import opened Common

  datatype Point = Point(x: real, y: real)

  /** `Size.Empty` is `EmptySize`; every other size has a width and a height. */
  datatype Size = Size(width: real, height: real) | EmptySize {
    predicate IsEmpty() { EmptySize? }

    /** WPF's constructor refuses negative extents, so no such size exists. */
    predicate Valid() { Size? ==> width >= 0.0 && height >= 0.0 }
  }

  /** `new Size(width, height)`: throws an ArgumentException on a negative extent. */
  function NewSize(width: real, height: real): (r: Result<Size>)
    ensures r.Ok? <==> width >= 0.0 && height >= 0.0
    ensures r.Ok? ==> r.value == Size(width, height) && r.value.Valid()
    ensures r.Err? ==> r.error == ArgumentException
  {
    if width < 0.0 || height < 0.0 then Err(ArgumentException) else Ok(Size(width, height))
  }

  /** `Rect.Empty` is `EmptyRect`; every other rect has a location and an extent. */
  datatype Rect = Rect(x: real, y: real, width: real, height: real) | EmptyRect {
    predicate IsEmpty() { EmptyRect? }

    predicate Valid() { Rect? ==> width >= 0.0 && height >= 0.0 }

    function TopLeft(): Point
      requires Rect?
    {
      Point(x, y)
    }

    /** `Rect.Size`: the extent, or `Size.Empty` for the empty rect. */
    function Extent(): Size {
      if EmptyRect? then EmptySize else Size(width, height)
    }

    function Bottom(): real
      requires Rect?
    {
      y + height
    }

    /** `Rect.Contains(Point)`: an empty rect contains nothing, otherwise all
        four edges are inclusive. */
    predicate Contains(p: Point)
      ensures Contains(p) <==> Rect? && x <= p.x <= x + width && y <= p.y <= y + height
    {
      Rect? && p.x >= x && p.x - width <= x && p.y >= y && p.y - height <= y
    }
  }

  /** `new Rect(Point location, Size size)`: an empty size gives the empty rect. */
  function NewRect(location: Point, size: Size): (r: Rect)
    ensures r.IsEmpty() <==> size.IsEmpty()
    ensures r.Rect? ==> r.TopLeft() == location && r.Extent() == size
    ensures size.Valid() ==> r.Valid()
  {
    if size.IsEmpty() then EmptyRect else Rect(location.x, location.y, size.width, size.height)
  }
}
