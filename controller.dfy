/** The `useCanvas` hook as an object: its React state, its canvas and
    context references, and the 2D context's stroke settings, current path and
    pixel buffer as fields that the pointer handlers update in place
    (src/hooks/useCanvas.js:3-223). Each handler runs to completion on the
    state it was called with; each method is proved to leave exactly the state
    its step function in DrawingSurface describes. */
module Controller {
  import opened Optional
  import opened Shapes
  import opened Pointer
  import opened DrawingSurface

  class CanvasController {
    var mode: Tool
    var color: string
    var brushSize: int
    var isDrawing: bool
    var startPos: Point
    var snapshot: Option<seq<DrawOp>>
    var hasDrawing: bool
    /** `canvasRef.current` is set, `ctxRef.current` is set, and where the
        canvas's top-left corner lies on the page. */
    const canvasMounted: bool
    const hasContext: bool
    const origin: Point
    /** `globalCompositeOperation`, `strokeStyle` and `lineWidth` of the context. */
    var composite: Composite
    var strokeStyle: string
    var lineWidth: int
    /** The context's current path and the pixels it has committed. */
    var path: seq<Point>
    var buffer: seq<DrawOp>

    ghost function State(): Surface
      reads this
    {
      Surface(mode, color, brushSize, isDrawing, startPos, snapshot, hasDrawing,
              canvasMounted, hasContext, origin, composite, strokeStyle, lineWidth,
              path, buffer)
    }

    ghost predicate Valid()
      reads this
    {
      DrawingSurface.Valid(State())
    }

    constructor (mounted: bool, contextAvailable: bool, canvasOrigin: Point)
      ensures Valid()
      ensures State() == Initial(mounted, contextAvailable, canvasOrigin)
    {
      mode, color, brushSize := Pen, InitialColor, InitialBrushSize;
      isDrawing, startPos, snapshot, hasDrawing := false, Point(0.0, 0.0), None, false;
      canvasMounted, hasContext, origin := mounted, mounted && contextAvailable, canvasOrigin;
      composite, strokeStyle, lineWidth := SourceOver, InitialColor, InitialBrushSize;
      path, buffer := [], [];
    }

    method SetColor(c: string)
      requires Valid()
      modifies this
      ensures Valid()
      ensures State() == old(State()).(color := c)
    {
      color := c;
    }

    method SetBrushSize(size: int)
      requires Valid()
      requires MinBrushSize <= size <= MaxBrushSize
      modifies this
      ensures Valid()
      ensures State() == old(State()).(brushSize := size)
    {
      brushSize := size;
    }

    method SetMode(m: Tool)
      requires Valid()
      modifies this
      ensures Valid()
      ensures State() == old(State()).(mode := m)
    {
      mode := m;
    }

    method StartDrawing(e: Option<PointerEvent>)
      requires Valid()
      modifies this
      ensures Valid()
      ensures State() == StartStep(old(State()), e)
    {
      if !IsPrimary(e) {
        return;
      }
      if !canvasMounted {
        // `canvasRef.current.contains` throws before anything is updated
        return;
      }
      if !e.value.targetInCanvas {
        return;
      }
      var pos := PointerPos(e.value, origin);
      startPos := pos;
      isDrawing := true;
      if !hasContext {
        return;
      }
      if mode == Eraser {
        composite := DestinationOut;
        strokeStyle := EraserMask;
      } else {
        composite := SourceOver;
        strokeStyle := color;
      }
      lineWidth := GestureWidth(mode, brushSize);
      if mode != Pen && mode != Eraser {
        snapshot := Some(buffer);
      } else {
        path := [pos];
      }
      if !hasDrawing {
        hasDrawing := true;
      }
    }

    method Draw(e: Option<PointerEvent>)
      requires Valid()
      modifies this
      ensures Valid()
      ensures State() == DrawStep(old(State()), e)
    {
      if !isDrawing || !IsPrimary(e) || !hasContext {
        return;
      }
      var pos := PointerPos(e.value, origin);
      if mode == Pen || mode == Eraser {
        if mode == Eraser {
          composite := DestinationOut;
          strokeStyle := EraserMask;
        }
        path := path + [pos];
        buffer := buffer + [DrawOp(Polyline(path, false), Paint(composite, strokeStyle, lineWidth))];
      } else if snapshot.Some? {
        buffer := snapshot.value;
        path := [];
        strokeStyle := color;
        var figure := ShapeFigure(mode, startPos, pos);
        if figure.Some? {
          buffer := buffer + [DrawOp(figure.value, Paint(composite, strokeStyle, lineWidth))];
          path := Outline(figure.value);
        }
      }
    }

    method StopDrawing(e: Option<PointerEvent>)
      requires Valid()
      modifies this
      ensures Valid()
      ensures State() == StopStep(old(State()), e)
    {
      if !hasContext {
        isDrawing := false;
        return;
      }
      if mode != Pen && mode != Eraser && e.Some? {
        Draw(e);
      }
      composite := SourceOver;
      isDrawing := false;
      snapshot := None;
    }

    method ClearCanvas()
      requires Valid()
      modifies this
      ensures Valid()
      ensures State() == ClearStep(old(State()))
    {
      if !canvasMounted || !hasContext {
        return;
      }
      buffer := [];
      hasDrawing := false;
    }
  }

  /** The rectangle drag of Gestures.RectangleDragExample, run on a fresh
      controller through its handlers. */
  method RectangleDragScenario() returns (committed: seq<DrawOp>)
    ensures committed == [DrawOp(Rect(Point(10.0, 10.0), 40.0, 30.0),
                                 Paint(SourceOver, InitialColor, InitialBrushSize))]
  {
    var c := new CanvasController(true, true, Point(0.0, 0.0));
    c.SetMode(Rectangle);
    c.StartDrawing(Some(Mouse(10.0, 10.0, 1)));
    c.Draw(Some(Mouse(50.0, 40.0, 1)));
    c.StopDrawing(Some(Mouse(50.0, 40.0, 0)));
    committed := c.buffer;
  }
}
