/** The two drawing primitives the game items are made of. */
module Geometry {

  /** An integer screen position, as `android.graphics.Point` holds it.  The
      view only ever replaces its points with new ones, so a point is a value. */
  datatype Point = Point(x: int, y: int)

  /** The point a no-argument `Point()` starts at. */
  const Origin := Point(0, 0)

  /** A segment as a value: its start and end point, in order. */
  datatype Segment = Segment(start: Point, end: Point) {
    /** Both endpoints share one x coordinate. */
    predicate IsVertical() {
      start.x == end.x
    }
  }

  /** A line segment whose two endpoints are assigned in place.  The blocker
      and the target are each one `Line` object owned by the view. */
  class Line {
    var start: Point
    var end: Point

    constructor ()
      ensures start == Origin && end == Origin
    {
      start := Origin;
      end := Origin;
    }

    /** The segment this line currently holds. */
    function AsSegment(): Segment
      reads this
    {
      Segment(start, end)
    }
  }
}
