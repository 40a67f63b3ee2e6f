/** The drawing record kept by `CanvasProvider`: a state value and the pure
    `prevState => newState` updaters it exposes
    (src/context/CanvasContext.js:5-62). React applies queued updaters in order,
    so a run of calls is the composition of these functions. A drawing is an
    arbitrary value, so the state is generic in its type. */
module CanvasStore {
  import opened Optional

  datatype CanvasState<D> = CanvasState(
    drawings: seq<D>,
    currentDrawing: Option<D>,
    brushSize: int,
    eraserSize: int)

  function InitialState<D>(): (s: CanvasState<D>)
    ensures s.drawings == [] && s.currentDrawing.None?
    ensures s.brushSize == 5 && s.eraserSize == 10
  {
    CanvasState([], None, 5, 10)
  }

  /** Appends one drawing after the earlier ones. */
  function AddDrawing<D>(s: CanvasState<D>, drawing: D): (r: CanvasState<D>)
    ensures |r.drawings| == |s.drawings| + 1
    ensures r.drawings[..|s.drawings|] == s.drawings
    ensures r.drawings[|s.drawings|] == drawing
    ensures r.currentDrawing == s.currentDrawing
    ensures r.brushSize == s.brushSize && r.eraserSize == s.eraserSize
  {
    s.(drawings := s.drawings + [drawing])
  }

  function ClearCanvas<D>(s: CanvasState<D>): (r: CanvasState<D>)
    ensures |r.drawings| == 0
    ensures r.currentDrawing == s.currentDrawing
    ensures r.brushSize == s.brushSize && r.eraserSize == s.eraserSize
  {
    s.(drawings := [])
  }

  function SetCurrentDrawing<D>(s: CanvasState<D>, drawing: Option<D>): (r: CanvasState<D>)
    ensures r.currentDrawing == drawing
    ensures r.drawings == s.drawings && r.brushSize == s.brushSize && r.eraserSize == s.eraserSize
  {
    s.(currentDrawing := drawing)
  }

  function SetBrushSize<D>(s: CanvasState<D>, size: int): (r: CanvasState<D>)
    ensures r.brushSize == size
    ensures r.drawings == s.drawings && r.currentDrawing == s.currentDrawing && r.eraserSize == s.eraserSize
  {
    s.(brushSize := size)
  }

  function SetEraserSize<D>(s: CanvasState<D>, size: int): (r: CanvasState<D>)
    ensures r.eraserSize == size
    ensures r.drawings == s.drawings && r.currentDrawing == s.currentDrawing && r.brushSize == s.brushSize
  {
    s.(eraserSize := size)
  }

  /** Clearing twice is clearing once. */
  lemma ClearCanvasIdempotent<D>(s: CanvasState<D>)
    ensures ClearCanvas(ClearCanvas(s)) == ClearCanvas(s)
  {
  }

  /** The state after `addDrawing` has been called with each drawing in turn. */
  function AddDrawings<D>(s: CanvasState<D>, drawings: seq<D>): CanvasState<D>
    decreases |drawings|
  {
    if drawings == [] then s else AddDrawings(AddDrawing(s, drawings[0]), drawings[1..])
  }

  /** n calls of `addDrawing` append the n drawings in call order and touch no
      other field; a following clear empties the list. */
  lemma {:induction false} AddDrawingsAppends<D>(s: CanvasState<D>, drawings: seq<D>)
    ensures AddDrawings(s, drawings).drawings == s.drawings + drawings
    ensures |AddDrawings(s, drawings).drawings| == |s.drawings| + |drawings|
    ensures AddDrawings(s, drawings) == s.(drawings := s.drawings + drawings)
    ensures |ClearCanvas(AddDrawings(s, drawings)).drawings| == 0
    decreases |drawings|
  {
    if drawings != [] {
      var next := AddDrawing(s, drawings[0]);
      AddDrawingsAppends(next, drawings[1..]);
      assert next.drawings + drawings[1..] == s.drawings + drawings;
    }
  }

  /** The updaters of distinct fields commute with adding a drawing: the order
      of queued calls to them does not matter. */
  lemma SettersCommuteWithAddDrawing<D>(s: CanvasState<D>, drawing: D, current: Option<D>, size: int)
    ensures AddDrawing(SetCurrentDrawing(s, current), drawing) == SetCurrentDrawing(AddDrawing(s, drawing), current)
    ensures AddDrawing(SetBrushSize(s, size), drawing) == SetBrushSize(AddDrawing(s, drawing), size)
    ensures AddDrawing(SetEraserSize(s, size), drawing) == SetEraserSize(AddDrawing(s, drawing), size)
  {
  }
}
