/** `DistanceOutline`: a guide line between two points, computed once. */
module Distances {
  import opened Geometry

  /** `length` is the Euclidean length of the vector (dx, dy). */
  predicate IsLengthOf(length: real, dx: real, dy: real) {
    length >= 0.0 && length * length == dx * dx + dy * dy
  }

  datatype DistanceOutline = DistanceOutline(
    startPoint: Point,
    endPoint: Point,
    midPoint: Point,
    distance: real,
    isDistanceLine: bool,
    isAlignmentLine: bool)
  {
    /** `StartPoint.X == EndPoint.X`, with exact equality: the end point
        lies on the vertical line through the start point. */
    predicate IsVertical(): (vertical: bool)
      ensures vertical <==> endPoint == Point(startPoint.x, endPoint.y)
    {
      startPoint.x == endPoint.x
    }
  }

  /** The constructor. `Vector.Length` is a square root, which the library
      computes; it arrives here as `length`. */
  function NewDistanceOutline(startPoint: Point, endPoint: Point, isDistanceLine: bool, isAlignmentLine: bool, length: real): (o: DistanceOutline)
    requires IsLengthOf(length, endPoint.x - startPoint.x, endPoint.y - startPoint.y)
    ensures o.startPoint == startPoint && o.endPoint == endPoint
    ensures o.isDistanceLine == isDistanceLine && o.isAlignmentLine == isAlignmentLine
    ensures o.midPoint.x - startPoint.x == endPoint.x - o.midPoint.x
    ensures o.midPoint.y - startPoint.y == endPoint.y - o.midPoint.y
    ensures o.distance >= 0.0
    ensures o.distance * o.distance == (endPoint.x - startPoint.x) * (endPoint.x - startPoint.x) + (endPoint.y - startPoint.y) * (endPoint.y - startPoint.y)
  {
    var dx, dy := endPoint.x - startPoint.x, endPoint.y - startPoint.y;
    DistanceOutline(startPoint, endPoint, Point(startPoint.x + dx / 2.0, startPoint.y + dy / 2.0), length, isDistanceLine, isAlignmentLine)
  }

  /** The length is determined by the two points: two non-negative reals
      with the same square are equal. */
  lemma LengthIsUnique(a: real, b: real, dx: real, dy: real)
    requires IsLengthOf(a, dx, dy) && IsLengthOf(b, dx, dy)
    ensures a == b
  {
    if a < b {
      SquareGrows(a, b);
    } else if b < a {
      SquareGrows(b, a);
    }
  }

  lemma SquareGrows(x: real, y: real)
    requires 0.0 <= x < y
    ensures x * x < y * y
  {
    var low, mid, high := x * x, x * y, y * y;
    assert low <= mid < high;
  }

  /** The role flags have no effect on the geometry. */
  lemma RoleFlagsDoNotAffectGeometry(s: Point, e: Point, d1: bool, a1: bool, d2: bool, a2: bool, l1: real, l2: real)
    requires IsLengthOf(l1, e.x - s.x, e.y - s.y) && IsLengthOf(l2, e.x - s.x, e.y - s.y)
    ensures var o1, o2 := NewDistanceOutline(s, e, d1, a1, l1), NewDistanceOutline(s, e, d2, a2, l2);
      o1.midPoint == o2.midPoint && o1.distance == o2.distance && o1.IsVertical() == o2.IsVertical()
  {
    LengthIsUnique(l1, l2, e.x - s.x, e.y - s.y);
  }

  /** A vertical line's midpoint lies on the same vertical. */
  lemma VerticalMidPoint(s: Point, e: Point, d: bool, a: bool, l: real)
    requires IsLengthOf(l, e.x - s.x, e.y - s.y)
    ensures var o := NewDistanceOutline(s, e, d, a, l); o.IsVertical() <==> o.midPoint.x == s.x
  {
  }

  /** (0,0) to (0,6) is vertical with midpoint (0,3); (0,0) to (4,0) has
      length 4 and is not vertical. */
  lemma Examples(d: bool, a: bool, l: real)
    requires IsLengthOf(l, 4.0, 0.0)
    ensures var v := NewDistanceOutline(Point(0.0, 0.0), Point(0.0, 6.0), d, a, 6.0);
      v.IsVertical() && v.midPoint == Point(0.0, 3.0)
    ensures var h := NewDistanceOutline(Point(0.0, 0.0), Point(4.0, 0.0), d, a, l);
      h.distance == 4.0 && !h.IsVertical()
  {
    LengthIsUnique(l, 4.0, 4.0, 0.0);
  }
}
