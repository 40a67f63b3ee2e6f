/** The state of the drawing controller and, for each pointer handler, the
    state it leaves behind (src/hooks/useCanvas.js:3-223). The pixel buffer is
    kept abstract: the sequence of stroke operations committed since the last
    clear, painted over the background. */
module DrawingSurface {
  import opened Optional
  import opened Shapes
  import opened Pointer

  /** The two `globalCompositeOperation` values the controller sets. */
  datatype Composite = SourceOver | DestinationOut

  /** The context's stroke settings in force when a stroke is rasterised. */
  datatype Paint = Paint(composite: Composite, style: string, width: int)

  /** One rasterisation committed to the buffer. */
  datatype DrawOp = DrawOp(figure: Figure, paint: Paint)

  /** The opaque mask colour the eraser strokes with under destination-out. */
  const EraserMask: string := "rgba(0,0,0,1)"
  const MinEraserWidth: int := 10
  const InitialColor: string := "#ffffff"
  const InitialBrushSize: int := 4
  /** The brush slider's range (src/components/Whiteboard.jsx:137-138). */
  const MinBrushSize: int := 1
  const MaxBrushSize: int := 50

  /** Everything the handlers read or write: the hook's React state, the
      canvas and context references, the context's stroke settings, its
      current path and the pixel buffer. */
  datatype Surface = Surface(
    mode: Tool,
    color: string,
    brushSize: int,
    isDrawing: bool,
    startPos: Point,
    snapshot: Option<seq<DrawOp>>,
    hasDrawing: bool,
    canvasMounted: bool,
    hasContext: bool,
    origin: Point,
    composite: Composite,
    strokeStyle: string,
    lineWidth: int,
    path: seq<Point>,
    buffer: seq<DrawOp>)

  function Max(a: int, b: int): int {
    if a >= b then a else b
  }

  /** The line width a gesture starts with. */
  function GestureWidth(mode: Tool, brushSize: int): (w: int)
    ensures mode == Eraser ==> w >= MinEraserWidth && w >= 2 * brushSize
    ensures mode == Eraser ==> w == MinEraserWidth || w == 2 * brushSize
    ensures mode != Eraser ==> w == brushSize
  {
    if mode == Eraser then Max(MinEraserWidth, brushSize * 2) else brushSize
  }

  /** Every stroke ever committed or saved has a positive width, and the brush
      stays within the slider's range. */
  predicate Valid(s: Surface) {
    && MinBrushSize <= s.brushSize <= MaxBrushSize
    && s.lineWidth >= 1
    && (s.hasContext ==> s.canvasMounted)
    && (forall op :: op in s.buffer ==> op.paint.width >= 1)
    && (s.snapshot.Some? ==> forall op :: op in s.snapshot.value ==> op.paint.width >= 1)
  }

  /** The state after mounting and the first `initCanvas`: a blank buffer, the
      pen selected, no gesture. The context exists only if the canvas is mounted
      and yields a 2D context. */
  function Initial(mounted: bool, contextAvailable: bool, origin: Point): (s: Surface)
    ensures Valid(s)
    ensures s.mode == Pen && !s.isDrawing && !s.hasDrawing && s.snapshot.None?
    ensures s.buffer == [] && s.path == []
    ensures s.hasContext <==> mounted && contextAvailable
  {
    Surface(Pen, InitialColor, InitialBrushSize, false, Point(0.0, 0.0), None, false,
            mounted, mounted && contextAvailable, origin,
            SourceOver, InitialColor, InitialBrushSize, [], [])
  }

  /** `startDrawing` gets past its guards: a primary pointer whose target is
      inside a mounted canvas. */
  predicate StartAccepted(s: Surface, e: Option<PointerEvent>) {
    IsPrimary(e) && s.canvasMounted && e.value.targetInCanvas
  }

  /** `draw` gets past its guards: a gesture is active, the pointer is primary
      and there is a context. */
  predicate DrawAccepted(s: Surface, e: Option<PointerEvent>) {
    s.isDrawing && IsPrimary(e) && s.hasContext
  }

  /** The paint a gesture started from `s` sets up: the eraser's mask under
      destination-out at the eraser width, else the colour at the brush size. */
  function GesturePaint(s: Surface): Paint {
    if s.mode == Eraser then Paint(DestinationOut, EraserMask, GestureWidth(s.mode, s.brushSize))
    else Paint(SourceOver, s.color, GestureWidth(s.mode, s.brushSize))
  }

  /** The paint a freehand stroke uses: the eraser re-asserts its mask. */
  function FreehandPaint(s: Surface): Paint {
    if s.mode == Eraser then Paint(DestinationOut, EraserMask, s.lineWidth)
    else Paint(s.composite, s.strokeStyle, s.lineWidth)
  }

  /** The operations a shape preview adds on top of the snapshot. */
  function ShapeOps(tool: Tool, start: Point, pos: Point, paint: Paint): (ops: seq<DrawOp>)
    ensures |ops| <= 1
    ensures ops != [] <==> HasShapeCase(tool)
    ensures ops != [] ==> ops[0].paint == paint
    ensures ops != [] ==> Some(ops[0].figure) == ShapeFigure(tool, start, pos)
  {
    match ShapeFigure(tool, start, pos)
    case Some(f) => [DrawOp(f, paint)]
    case None => []
  }

  /** Pointer down (src/hooks/useCanvas.js:77-110). A primary pointer with an
      unmounted canvas makes `contains` throw before any update: no change. */
  function StartStep(s: Surface, e: Option<PointerEvent>): (r: Surface)
    ensures !StartAccepted(s, e) ==> r == s
    ensures StartAccepted(s, e) ==> r.isDrawing && r.startPos == PointerPos(e.value, s.origin)
    ensures StartAccepted(s, e) && !s.hasContext ==>
      r == s.(isDrawing := true, startPos := PointerPos(e.value, s.origin))
    ensures r.hasDrawing <==> s.hasDrawing || (StartAccepted(s, e) && s.hasContext)
    // the tool, colour, brush, buffer and references are never touched
    ensures r == s.(isDrawing := r.isDrawing, startPos := r.startPos, snapshot := r.snapshot,
                    hasDrawing := r.hasDrawing, composite := r.composite,
                    strokeStyle := r.strokeStyle, lineWidth := r.lineWidth, path := r.path)
    ensures StartAccepted(s, e) && s.hasContext ==>
      && r.lineWidth == GestureWidth(s.mode, s.brushSize)
      && (s.mode == Eraser ==> r.composite == DestinationOut && r.strokeStyle == EraserMask)
      && (s.mode != Eraser ==> r.composite == SourceOver && r.strokeStyle == s.color)
      && Paint(r.composite, r.strokeStyle, r.lineWidth) == GesturePaint(s)
      && (IsFreehand(s.mode) ==> r.path == [r.startPos] && r.snapshot == s.snapshot)
      && (!IsFreehand(s.mode) ==> r.snapshot == Some(s.buffer) && r.path == s.path)
  {
    if !StartAccepted(s, e) then s
    else
      var pos := PointerPos(e.value, s.origin);
      var begun := s.(startPos := pos, isDrawing := true);
      if !s.hasContext then begun
      else
        var paint := GesturePaint(s);
        var styled := begun.(
          composite := paint.composite, strokeStyle := paint.style,
          lineWidth := paint.width, hasDrawing := true);
        if IsFreehand(s.mode) then styled.(path := [pos])
        else styled.(snapshot := Some(s.buffer))
  }

  /** Pointer move (src/hooks/useCanvas.js:112-175). */
  function DrawStep(s: Surface, e: Option<PointerEvent>): (r: Surface)
    ensures !DrawAccepted(s, e) ==> r == s
    // only the stroke settings, the path and the buffer can change
    ensures r == s.(composite := r.composite, strokeStyle := r.strokeStyle,
                    path := r.path, buffer := r.buffer)
    // a freehand move extends the path by the pointer and strokes it
    ensures DrawAccepted(s, e) && IsFreehand(s.mode) ==>
      && r.path == s.path + [PointerPos(e.value, s.origin)]
      && r.buffer == s.buffer + [DrawOp(Polyline(r.path, false), FreehandPaint(s))]
      && r.composite == FreehandPaint(s).composite
      && r.strokeStyle == FreehandPaint(s).style
    // a shape move with no snapshot does nothing
    ensures DrawAccepted(s, e) && !IsFreehand(s.mode) && s.snapshot.None? ==> r == s
    // a shape move: the snapshot plus at most one shape, from the start to the pointer
    ensures DrawAccepted(s, e) && !IsFreehand(s.mode) && s.snapshot.Some? ==>
      && r.buffer == s.snapshot.value +
           ShapeOps(s.mode, s.startPos, PointerPos(e.value, s.origin), Paint(s.composite, s.color, s.lineWidth))
      && r.strokeStyle == s.color && r.composite == s.composite
  {
    if !DrawAccepted(s, e) then s
    else
      var pos := PointerPos(e.value, s.origin);
      if IsFreehand(s.mode) then
        var paint := FreehandPaint(s);
        var path := s.path + [pos];
        s.(composite := paint.composite, strokeStyle := paint.style,
           path := path, buffer := s.buffer + [DrawOp(Polyline(path, false), paint)])
      else
        match s.snapshot
        case None => s
        case Some(saved) =>
          var restyled := s.(strokeStyle := s.color);
          match ShapeFigure(s.mode, s.startPos, pos)
          case None => restyled.(buffer := saved, path := [])
          case Some(f) =>
            restyled.(buffer := saved + [DrawOp(f, Paint(s.composite, s.color, s.lineWidth))],
                      path := Outline(f))
  }

  /** A mouse button release: no button is held any more. */
  predicate IsMouseRelease(e: Option<PointerEvent>) {
    e.Some? && e.value.pointerType == "mouse" && e.value.buttons == Some(0)
  }

  /** Pointer up, cancel or leave (src/hooks/useCanvas.js:177-196). The final
      `draw(e)` sees the gesture as it was before the handler. */
  function StopStep(s: Surface, e: Option<PointerEvent>): (r: Surface)
    ensures !r.isDrawing
    ensures !s.hasContext ==> r == s.(isDrawing := false)
    ensures s.hasContext ==> r.snapshot.None? && r.composite == SourceOver
    ensures r.mode == s.mode && r.color == s.color && r.brushSize == s.brushSize
    ensures r.startPos == s.startPos && r.hasDrawing == s.hasDrawing && r.lineWidth == s.lineWidth
    // only a shape gesture redraws, and only when `draw` would accept the event
    ensures IsFreehand(s.mode) || !DrawAccepted(s, e) ==>
      r.buffer == s.buffer && r.path == s.path && r.strokeStyle == s.strokeStyle
    ensures s.hasContext ==>
      r == s.(isDrawing := false, snapshot := None, composite := SourceOver,
              strokeStyle := r.strokeStyle, path := r.path, buffer := r.buffer)
    ensures s.hasContext && !IsFreehand(s.mode) && DrawAccepted(s, e) ==>
      && r.buffer == DrawStep(s, e).buffer && r.path == DrawStep(s, e).path
      && r.strokeStyle == DrawStep(s, e).strokeStyle
    // releasing the mouse button leaves the last preview as it is
    ensures IsMouseRelease(e) ==> r.buffer == s.buffer
  {
    if !s.hasContext then s.(isDrawing := false)
    else
      var finished := if !IsFreehand(s.mode) && e.Some? then DrawStep(s, e) else s;
      finished.(composite := SourceOver, isDrawing := false, snapshot := None)
  }

  /** The Clear button (src/hooks/useCanvas.js:198-207). */
  function ClearStep(s: Surface): (r: Surface)
    ensures !s.canvasMounted || !s.hasContext ==> r == s
    ensures s.canvasMounted && s.hasContext ==> !r.hasDrawing && r.buffer == []
    ensures r == s.(buffer := r.buffer, hasDrawing := r.hasDrawing)
  {
    if !s.canvasMounted || !s.hasContext then s
    else s.(buffer := [], hasDrawing := false)
  }

  /** Every handler keeps the controller's invariant. */
  lemma StepsPreserveValid(s: Surface, e: Option<PointerEvent>)
    requires Valid(s)
    ensures Valid(StartStep(s, e)) && Valid(DrawStep(s, e))
    ensures Valid(StopStep(s, e)) && Valid(ClearStep(s))
  {
  }

  /** A clear in the middle of a shape gesture does not survive the next
      preview: the move restores the snapshot taken before the clear. */
  lemma ClearIsUndoneByNextPreview(s: Surface, e: Option<PointerEvent>)
    requires s.canvasMounted && DrawAccepted(s, e)
    requires !IsFreehand(s.mode) && s.snapshot.Some?
    ensures ClearStep(s).buffer == []
    ensures DrawStep(ClearStep(s), e).buffer == DrawStep(s, e).buffer
  {
  }
}
