/** Whole gestures: a pointer down, a run of moves and a release, composed from
    the handler steps of DrawingSurface (src/hooks/useCanvas.js:77-196). */
module Gestures {
  import opened Optional
  import opened Shapes
  import opened Pointer
  import opened DrawingSurface

  /** The state after `draw` has handled each move in turn. */
  function DrawAll(s: Surface, moves: seq<PointerEvent>): (r: Surface)
    // moves touch only the stroke settings, the path and the buffer
    ensures r == s.(composite := r.composite, strokeStyle := r.strokeStyle,
                    path := r.path, buffer := r.buffer)
    decreases |moves|
  {
    if moves == [] then s else DrawAll(DrawStep(s, Some(moves[0])), moves[1..])
  }

  /** The canvas positions of a run of moves. */
  function Positions(moves: seq<PointerEvent>, origin: Point): (ps: seq<Point>)
    ensures |ps| == |moves|
    ensures forall i :: 0 <= i < |moves| ==> ps[i] == PointerPos(moves[i], origin)
  {
    if moves == [] then [] else [PointerPos(moves[0], origin)] + Positions(moves[1..], origin)
  }

  predicate AllPrimary(moves: seq<PointerEvent>) {
    forall i :: 0 <= i < |moves| ==> IsPrimary(Some(moves[i]))
  }

  function Last<T>(xs: seq<T>): T
    requires xs != []
  {
    xs[|xs| - 1]
  }

  /** The strokes a freehand gesture commits while its path grows from `base`
      through the points `ps`: one stroke per point, of the path so far. */
  function FreehandStrokes(base: seq<Point>, ps: seq<Point>, paint: Paint): (ops: seq<DrawOp>)
    ensures |ops| == |ps|
    ensures forall op :: op in ops ==> op.paint == paint
    ensures ps != [] ==> Last(ops) == DrawOp(Polyline(base + ps, false), paint)
    decreases |ps|
  {
    if ps == [] then []
    else
      var grown := base + [ps[0]];
      var rest := FreehandStrokes(grown, ps[1..], paint);
      assert grown + ps[1..] == base + ps;
      assert ps[1..] == [] ==> grown == base + ps;
      assert rest != [] ==> Last([DrawOp(Polyline(grown, false), paint)] + rest) == Last(rest);
      [DrawOp(Polyline(grown, false), paint)] + rest
  }

  lemma AllPrimaryTail(moves: seq<PointerEvent>)
    requires AllPrimary(moves) && moves != []
    ensures AllPrimary(moves[1..])
  {
    forall i | 0 <= i < |moves[1..]| ensures IsPrimary(Some(moves[1..][i])) {
      assert moves[1..][i] == moves[i + 1];
    }
  }

  /** One freehand move, as the induction below uses it. */
  lemma FreehandMove(s: Surface, e: PointerEvent)
    requires s.isDrawing && s.hasContext && IsFreehand(s.mode) && IsPrimary(Some(e))
    ensures DrawStep(s, Some(e)).path == s.path + [PointerPos(e, s.origin)]
    ensures DrawStep(s, Some(e)).buffer ==
      s.buffer + [DrawOp(Polyline(s.path + [PointerPos(e, s.origin)], false), FreehandPaint(s))]
    ensures FreehandPaint(DrawStep(s, Some(e))) == FreehandPaint(s)
  {
  }

  lemma PositionsCons(moves: seq<PointerEvent>, origin: Point)
    requires moves != []
    ensures Positions(moves, origin) == [PointerPos(moves[0], origin)] + Positions(moves[1..], origin)
  {
  }

  lemma FreehandStrokesCons(base: seq<Point>, p: Point, rest: seq<Point>, paint: Paint)
    ensures FreehandStrokes(base, [p] + rest, paint) ==
      [DrawOp(Polyline(base + [p], false), paint)] + FreehandStrokes(base + [p], rest, paint)
  {
    assert ([p] + rest)[1..] == rest;
  }

  /** During a freehand gesture every move appends its position to the path,
      in order, and strokes the path so far once with the tool's paint. */
  lemma {:induction false} FreehandMovesExtendPath(s: Surface, moves: seq<PointerEvent>)
    requires s.isDrawing && s.hasContext && IsFreehand(s.mode) && AllPrimary(moves)
    ensures DrawAll(s, moves).path == s.path + Positions(moves, s.origin)
    ensures DrawAll(s, moves).buffer ==
      s.buffer + FreehandStrokes(s.path, Positions(moves, s.origin), FreehandPaint(s))
    ensures FreehandPaint(DrawAll(s, moves)) == FreehandPaint(s)
    decreases |moves|
  {
    if moves != [] {
      var e, rest := moves[0], moves[1..];
      var next := DrawStep(s, Some(e));
      var p := PointerPos(e, s.origin);
      var paint := FreehandPaint(s);
      FreehandMove(s, e);
      AllPrimaryTail(moves);
      FreehandMovesExtendPath(next, rest);
      PositionsCons(moves, s.origin);
      FreehandStrokesCons(s.path, p, Positions(rest, s.origin), paint);
      assert DrawAll(s, moves) == DrawAll(next, rest);
      assert s.path + [p] + Positions(rest, s.origin) == s.path + ([p] + Positions(rest, s.origin));
    }
  }

  /** An eraser gesture only ever strokes with destination-out: it can make
      pixels transparent and never paints colour. */
  lemma EraserOnlyErases(s: Surface, moves: seq<PointerEvent>)
    requires s.isDrawing && s.hasContext && s.mode == Eraser && AllPrimary(moves)
    ensures |DrawAll(s, moves).buffer| == |s.buffer| + |moves|
    ensures DrawAll(s, moves).buffer[..|s.buffer|] == s.buffer
    ensures forall op :: op in DrawAll(s, moves).buffer[|s.buffer|..] ==>
      op.paint.composite == DestinationOut && op.paint.style == EraserMask
  {
    FreehandMovesExtendPath(s, moves);
    var r := DrawAll(s, moves);
    assert r.buffer[|s.buffer|..] == FreehandStrokes(s.path, Positions(moves, s.origin), FreehandPaint(s));
  }

  /** Shape previews never accumulate: after any run of moves the buffer is the
      snapshot plus at most one shape, the one from the start to the last move. */
  lemma {:induction false} ShapePreviewsDoNotAccumulate(s: Surface, moves: seq<PointerEvent>)
    requires s.isDrawing && s.hasContext && !IsFreehand(s.mode) && s.snapshot.Some?
    requires AllPrimary(moves) && moves != []
    ensures DrawAll(s, moves).buffer == s.snapshot.value +
      ShapeOps(s.mode, s.startPos, PointerPos(Last(moves), s.origin), Paint(s.composite, s.color, s.lineWidth))
    ensures |DrawAll(s, moves).buffer| <= |s.snapshot.value| + 1
    ensures DrawAll(s, moves) == s.(strokeStyle := s.color, path := DrawAll(s, moves).path,
      buffer := DrawAll(s, moves).buffer)
    decreases |moves|
  {
    var next := DrawStep(s, Some(moves[0]));
    if |moves| > 1 {
      AllPrimaryTail(moves);
      ShapePreviewsDoNotAccumulate(next, moves[1..]);
      assert Last(moves[1..]) == Last(moves);
      assert DrawAll(s, moves) == DrawAll(next, moves[1..]);
    } else {
      assert DrawAll(s, moves) == DrawAll(next, []);
    }
  }

  /** A shape gesture commits exactly one shape over the buffer it started on,
      drawn to the release point when the release comes from a primary pointer,
      else to the last move; a mouse click without a move commits nothing.
      Afterwards no gesture is active and no snapshot is kept. */
  lemma ShapeGestureCommitsOneShape(s: Surface, down: PointerEvent, moves: seq<PointerEvent>, up: PointerEvent)
    requires s.hasContext && !IsFreehand(s.mode) && StartAccepted(s, Some(down)) && AllPrimary(moves)
    ensures var r := StopStep(DrawAll(StartStep(s, Some(down)), moves), Some(up));
      && !r.isDrawing && r.snapshot.None? && r.composite == SourceOver && r.hasDrawing
      && (IsPrimary(Some(up)) ==>
            r.buffer == s.buffer + ShapeOps(s.mode, PointerPos(down, s.origin), PointerPos(up, s.origin), GesturePaint(s)))
      && (!IsPrimary(Some(up)) && moves != [] ==>
            r.buffer == s.buffer + ShapeOps(s.mode, PointerPos(down, s.origin), PointerPos(Last(moves), s.origin), GesturePaint(s)))
      && (!IsPrimary(Some(up)) && moves == [] ==> r.buffer == s.buffer)
  {
    var pressed := StartStep(s, Some(down));
    var moved := DrawAll(pressed, moves);
    if moves != [] {
      ShapePreviewsDoNotAccumulate(pressed, moves);
    } else {
      assert moved == pressed;
    }
    assert moved.snapshot == Some(s.buffer) && moved.isDrawing && moved.startPos == PointerPos(down, s.origin);
  }

  /** A freehand gesture leaves the path through the press and every move, one
      stroke of it per move with the tool's paint, and resets the compositing. */
  lemma FreehandGestureCommitsPath(s: Surface, down: PointerEvent, moves: seq<PointerEvent>, up: Option<PointerEvent>)
    requires s.hasContext && IsFreehand(s.mode) && StartAccepted(s, Some(down)) && AllPrimary(moves)
    ensures var r := StopStep(DrawAll(StartStep(s, Some(down)), moves), up);
      && !r.isDrawing && r.snapshot.None? && r.composite == SourceOver && r.hasDrawing
      && r.path == [PointerPos(down, s.origin)] + Positions(moves, s.origin)
      && r.buffer == s.buffer +
           FreehandStrokes([PointerPos(down, s.origin)], Positions(moves, s.origin), GesturePaint(s))
  {
    var pressed := StartStep(s, Some(down));
    FreehandMovesExtendPath(pressed, moves);
  }

  /** Rectangle tool: press at (10,10), move to (50,40), release. The buffer
      holds one rectangle with corner (10,10), width 40 and height 30. */
  lemma RectangleDragExample(s: Surface)
    requires s.canvasMounted && s.hasContext && s.mode == Rectangle && s.origin == Point(0.0, 0.0)
    ensures StopStep(DrawAll(StartStep(s, Some(Mouse(10.0, 10.0, 1))), [Mouse(50.0, 40.0, 1)]),
                     Some(Mouse(50.0, 40.0, 0))).buffer
            == s.buffer + [DrawOp(Rect(Point(10.0, 10.0), 40.0, 30.0), Paint(SourceOver, s.color, s.brushSize))]
  {
    ShapeGestureCommitsOneShape(s, Mouse(10.0, 10.0, 1), [Mouse(50.0, 40.0, 1)], Mouse(50.0, 40.0, 0));
  }

  /** Pen, brush 5, colour #ff0000: drag from (0,0) through (20,0) to (20,20).
      The committed path is that polyline, stroked red with width 5. */
  lemma PenDragExample(s: Surface)
    requires s.canvasMounted && s.hasContext && s.mode == Pen && s.origin == Point(0.0, 0.0)
    requires s.brushSize == 5 && s.color == "#ff0000"
    ensures var r := StopStep(DrawAll(StartStep(s, Some(Mouse(0.0, 0.0, 1))),
                                      [Mouse(20.0, 0.0, 1), Mouse(20.0, 20.0, 1)]),
                              Some(Mouse(20.0, 20.0, 0)));
      && r.path == [Point(0.0, 0.0), Point(20.0, 0.0), Point(20.0, 20.0)]
      && |r.buffer| == |s.buffer| + 2
      && Last(r.buffer) == DrawOp(Polyline(r.path, false), Paint(SourceOver, "#ff0000", 5))
  {
    var moves := [Mouse(20.0, 0.0, 1), Mouse(20.0, 20.0, 1)];
    FreehandGestureCommitsPath(s, Mouse(0.0, 0.0, 1), moves, Some(Mouse(20.0, 20.0, 0)));
    assert Positions(moves, s.origin) == [Point(20.0, 0.0), Point(20.0, 20.0)];
  }
}
