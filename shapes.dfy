/** The tools of the whiteboard and the geometry of the shapes it previews
    (src/components/Whiteboard.jsx:5-15, src/hooks/useCanvas.js:134-173). */
module Shapes {
  import opened Optional

  /** A position in logical (CSS pixel) coordinates. */
  datatype Point = Point(x: real, y: real)

  function Midpoint(a: Point, b: Point): Point {
    Point((a.x + b.x) / 2.0, (a.y + b.y) / 2.0)
  }

  /** The tool modes the toolbar can select. */
  datatype Tool = Pen | Eraser | Rectangle | Circle | Line | Triangle | Diamond | Arrow | Star

  /** Tools that draw a freehand path instead of a previewed shape. */
  predicate IsFreehand(t: Tool) {
    t == Pen || t == Eraser
  }

  /** Tools that have a case of their own in the shape switch; the others fall
      through to its `default` branch, which draws nothing. */
  predicate HasShapeCase(t: Tool) {
    t.Rectangle? || t.Circle? || t.Line? || t.Triangle? || t.Diamond?
  }

  /** What one stroke call rasterises. A circle keeps the square of its radius,
      so that no square root is needed. */
  datatype Figure =
    | Polyline(points: seq<Point>, closed: bool)
    | Rect(corner: Point, width: real, height: real)
    | Arc(center: Point, radiusSquared: real)

  function Square(d: real): real { d * d }

  /** The shape a drag from `start` to `pos` previews in mode `tool`, or None
      when the switch has no case for the tool. */
  function ShapeFigure(tool: Tool, start: Point, pos: Point): (r: Option<Figure>)
    ensures r.Some? <==> HasShapeCase(tool)
    // a rectangle spans the drag: corner at the start, opposite corner at the pointer
    ensures tool == Rectangle ==>
      && r.value.Rect? && r.value.corner == start
      && r.value.corner.x + r.value.width == pos.x
      && r.value.corner.y + r.value.height == pos.y
    // a circle is centred on the start and passes through the pointer
    ensures tool == Circle ==>
      && r.value.Arc? && r.value.center == start
      && Square(pos.x - start.x) + Square(pos.y - start.y) == r.value.radiusSquared
      && r.value.radiusSquared >= 0.0
    ensures tool == Line ==> r.value == Polyline([start, pos], false)
    // a triangle: apex at the middle of the top edge of the drag box, base along its bottom edge
    ensures tool == Triangle ==>
      && r.value.Polyline? && r.value.closed && |r.value.points| == 3
      && r.value.points[0] == Midpoint(start, Point(pos.x, start.y))
      && r.value.points[1] == pos
      && r.value.points[2] == Point(start.x, pos.y)
    // a diamond: the midpoints of the top, right, bottom and left edges of the drag box
    ensures tool == Diamond ==>
      && r.value.Polyline? && r.value.closed && |r.value.points| == 4
      && r.value.points[0] == Midpoint(start, Point(pos.x, start.y))
      && r.value.points[1] == Midpoint(Point(pos.x, start.y), pos)
      && r.value.points[2] == Midpoint(pos, Point(start.x, pos.y))
      && r.value.points[3] == Midpoint(Point(start.x, pos.y), start)
  {
    match tool
    case Rectangle =>
      Some(Rect(start, pos.x - start.x, pos.y - start.y))
    case Circle =>
      var dx, dy := pos.x - start.x, pos.y - start.y;
      Some(Arc(start, dx * dx + dy * dy))
    case Line =>
      Some(Polyline([start, pos], false))
    case Triangle =>
      Some(Polyline([Point(start.x + (pos.x - start.x) / 2.0, start.y), pos, Point(start.x, pos.y)], true))
    case Diamond =>
      var centerX, centerY := (start.x + pos.x) / 2.0, (start.y + pos.y) / 2.0;
      Some(Polyline([Point(centerX, start.y), Point(pos.x, centerY),
                     Point(centerX, pos.y), Point(start.x, centerY)], true))
    case _ => None
  }

  /** The context's current path after a shape has been drawn: the vertices of a
      polyline; a rectangle is stroked without touching the path, and an arc is
      not a list of points. */
  function Outline(f: Figure): seq<Point> {
    if f.Polyline? then f.points else []
  }
}
