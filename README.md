# Scribbly drawing surface, modelled in Dafny

Scribbly is a browser whiteboard. Its core is the `useCanvas` hook. The hook turns
pointer down, move and up events into freehand pen and eraser strokes, or into shape
previews. A shape preview is drawn over a pixel snapshot that was taken when the
gesture started. The project also models the `CanvasContext` provider's record of
drawings and its updaters.

The model has these parts:

- `optional.dfy`: `Option`, which stands for JavaScript's `null`.
- `shapes.dfy` (module `Shapes`): the tool set, points, the figures a stroke can
  rasterise, and the vertex arithmetic of the shape switch.
- `pointer.dfy` (module `Pointer`): pointer events, the primary-pointer test, a
  reference decoding of the `buttons` bitmask, and the pointer's position relative
  to the canvas.
- `surface.dfy` (module `DrawingSurface`): the controller's whole state as a value,
  `Surface`. It has one step function per handler, which states what that handler
  leaves behind. It also has the invariant `Valid` and the lemma that every handler
  keeps it.
- `controller.dfy` (module `Controller`): the hook as the class `CanvasController`.
  Its fields are the React state, the canvas and context references, the context's
  stroke settings, its current path and the pixel buffer. Each handler is a method
  that updates the fields in place. Each method is proved to end in exactly the state
  its step function gives.
- `gestures.dfy` (module `Gestures`): whole gestures. These are a press, a run of
  moves and a release. The module also holds two end-to-end drags: a rectangle and
  a red pen polyline.
- `canvas_store.dfy` (module `CanvasStore`): the `CanvasContext` state record and
  its pure updaters.

The pixel buffer is abstract. It is the sequence of stroke operations committed since
the last clear, painted over the background. Each `ctx.stroke()` commits the whole
current path once, with the composite operation, stroke style and line width in force
at that moment. `getImageData` copies this sequence into the snapshot, and
`putImageData` restores the buffer from the snapshot.

Each handler runs to completion on the state it was called with, as React closures
do. Inside `stopDrawing`, the nested `draw(e)` therefore still sees the gesture as
active and still sees the snapshot.

Two behaviours of the code are worth stating, because one might expect otherwise:

- A single click in a shape mode is meant to leave the canvas unchanged. It does
  so only for a mouse: the mouse's pointer-up has `buttons == 0`, so it is not
  primary. A touch or pen pointer-up is primary, so the final `draw(e)` commits a
  shape from the press point to the release point.
  `Gestures.ShapeGestureCommitsOneShape` states both cases.
- A clear resets "has drawn" only when both the canvas and its context exist. A
  gesture start likewise sets `hasDrawing` only when there is a context.

## Model

| member | source | states |
|---|---|---|
| `Pointer.IsPrimary` | src/hooks/useCanvas.js:62-69 | a null event is never primary |
| `Pointer.MousePrimaryIffMainButtonHeld` | src/hooks/useCanvas.js:62-69 | a mouse event with a numeric `buttons` is primary exactly when button 0 is among the buttons the bitmask reports as held |
| `Pointer.PointerPos` | src/hooks/useCanvas.js:71-75 | the position is the client point minus the canvas's top-left corner: adding the corner back gives the client point |
| `Shapes.ShapeFigure` | src/hooks/useCanvas.js:134-173 | a figure exists exactly for rectangle, circle, line, triangle and diamond. The rectangle spans the drag from start to pointer. The circle is centred on the start and passes through the pointer. The line runs from start to pointer. The triangle's apex is the midpoint of the drag box's top edge and its base is the bottom edge. The diamond's vertices are the midpoints of the four edges of the drag box |
| `DrawingSurface.GestureWidth` | src/hooks/useCanvas.js:97 | the eraser's width is at least 10 and at least twice the brush, and equals one of the two; every other tool uses the brush size |
| `DrawingSurface.Initial` | src/hooks/useCanvas.js:6-12 | the hook starts in pen mode with no gesture, no drawing, no snapshot and an empty buffer, and it satisfies the invariant; a context exists only on a mounted canvas that yields one |
| `DrawingSurface.ShapeOps` | src/hooks/useCanvas.js:128-173 | a preview adds at most one operation on top of the snapshot, none for tools without a case; that operation carries the given paint and draws exactly the figure `ShapeFigure` gives for the drag |
| `DrawingSurface.StartStep` | src/hooks/useCanvas.js:77-110 | a non-primary event, an unmounted canvas or a target outside the canvas changes nothing. Otherwise the gesture is active at the pointer position, even without a context. `hasDrawing` becomes true only with a context. The eraser gets destination-out, the mask colour and the eraser width; other tools get source-over, the colour and the brush size. A shape tool snapshots the buffer and leaves the path alone; pen and eraser start the path `[pos]`. The tool, colour, brush and buffer are untouched |
| `DrawingSurface.DrawStep` | src/hooks/useCanvas.js:112-175 | a move with no gesture, a non-primary pointer or no context changes nothing. Only the stroke settings, path and buffer can change. A freehand move appends the position to the path and strokes the path once; the eraser re-asserts destination-out. A shape move with a snapshot sets the buffer to the snapshot plus at most one shape from the start to the pointer; without a snapshot it changes nothing |
| `DrawingSurface.StopStep` | src/hooks/useCanvas.js:177-196 | the gesture always ends. Without a context only `isDrawing` changes and the snapshot survives. With a context the snapshot is dropped, compositing is source-over, and apart from the stroke style, path and buffer nothing else changes. Only a shape tool with an event that `draw` accepts redraws, leaving the buffer, path and stroke style exactly as a move would. A mouse button release leaves the buffer unchanged |
| `DrawingSurface.ClearStep` | src/hooks/useCanvas.js:198-207 | with no canvas or no context nothing changes; otherwise the buffer is emptied and `hasDrawing` is false. Nothing else ever changes, so mode, gesture and snapshot stay |
| `DrawingSurface.StepsPreserveValid` | src/hooks/useCanvas.js:77-207 | every handler keeps the brush in 1..50, the line width positive, a context only on a mounted canvas, and every committed or saved stroke of positive width |
| `DrawingSurface.ClearIsUndoneByNextPreview` | src/hooks/useCanvas.js:198-207 | a clear during a shape gesture empties the buffer, and the next preview restores the pre-clear snapshot as if no clear had happened |
| `Controller.CanvasController.constructor` | src/hooks/useCanvas.js:6-12 | the new controller is in the initial state |
| `Controller.CanvasController.SetColor` | src/hooks/useCanvas.js:7 | only the colour changes |
| `Controller.CanvasController.SetBrushSize` | src/hooks/useCanvas.js:8 | only the brush size changes, within the slider's range 1..50 |
| `Controller.CanvasController.SetMode` | src/hooks/useCanvas.js:9 | only the tool changes |
| `Controller.CanvasController.StartDrawing` | src/hooks/useCanvas.js:77-110 | the new state is `StartStep` of the old one, and the invariant holds |
| `Controller.CanvasController.Draw` | src/hooks/useCanvas.js:112-175 | the new state is `DrawStep` of the old one, and the invariant holds |
| `Controller.CanvasController.StopDrawing` | src/hooks/useCanvas.js:177-196 | the new state is `StopStep` of the old one; the nested `draw` runs on the pre-state |
| `Controller.CanvasController.ClearCanvas` | src/hooks/useCanvas.js:198-207 | the new state is `ClearStep` of the old one |
| `Controller.RectangleDragScenario` | src/hooks/useCanvas.js:135-138 | a fresh controller set to rectangle, pressed at (10,10), moved to (50,40) and released, holds exactly one rectangle with corner (10,10), width 40 and height 30 |
| `Gestures.DrawAll` | src/hooks/useCanvas.js:112-175 | a run of moves changes only the stroke settings, the path and the buffer |
| `Gestures.FreehandStrokes` | src/hooks/useCanvas.js:126-127 | a freehand gesture commits one stroke per point, all with the same paint, the last one being the whole path |
| `Gestures.FreehandMove` | src/hooks/useCanvas.js:121-127 | one freehand move appends the position to the path and strokes the grown path with the tool's paint |
| `Gestures.FreehandMovesExtendPath` | src/hooks/useCanvas.js:121-127 | after any run of primary moves in pen or eraser mode, the path is the old path followed by the move positions in order, and the buffer grows by one stroke of each successive path |
| `Gestures.EraserOnlyErases` | src/hooks/useCanvas.js:122-125 | every stroke of an eraser gesture uses destination-out with the mask colour, so it never paints colour |
| `Gestures.ShapePreviewsDoNotAccumulate` | src/hooks/useCanvas.js:128-173 | after any non-empty run of primary moves in a shape mode, the buffer is the snapshot plus the one shape to the last move, or just the snapshot for arrow and star |
| `Gestures.ShapeGestureCommitsOneShape` | src/hooks/useCanvas.js:77-196 | a shape gesture commits at most one shape over the buffer it started on. The shape ends at the release point for a primary release, else at the last move. A mouse click without a move commits nothing. Afterwards no gesture or snapshot remains |
| `Gestures.FreehandGestureCommitsPath` | src/hooks/useCanvas.js:77-196 | a freehand gesture leaves the path through the press and every move, one stroke per move with the tool's paint, and source-over compositing |
| `Gestures.RectangleDragExample` | src/hooks/useCanvas.js:135-138 | rectangle from (10,10) dragged to (50,40) and released commits one rectangle with corner (10,10), width 40 and height 30 |
| `Gestures.PenDragExample` | src/hooks/useCanvas.js:100-127 | pen with brush 5 and colour #ff0000 dragged from (0,0) through (20,0) to (20,20) leaves that polyline, stroked red at width 5 |
| `CanvasStore.InitialState` | src/context/CanvasContext.js:6-11 | no drawings, no current drawing, brush 5, eraser 10 |
| `CanvasStore.AddDrawing` | src/context/CanvasContext.js:13-18 | exactly one drawing is appended at the end, earlier drawings keep their order, and the other fields are unchanged |
| `CanvasStore.ClearCanvas` | src/context/CanvasContext.js:20-25 | drawings become empty and the other fields are unchanged |
| `CanvasStore.SetCurrentDrawing` | src/context/CanvasContext.js:27-32 | only the current drawing changes |
| `CanvasStore.SetBrushSize` | src/context/CanvasContext.js:34-39 | only the brush size changes |
| `CanvasStore.SetEraserSize` | src/context/CanvasContext.js:41-46 | only the eraser size changes |
| `CanvasStore.ClearCanvasIdempotent` | src/context/CanvasContext.js:20-25 | clearing twice equals clearing once |
| `CanvasStore.AddDrawingsAppends` | src/context/CanvasContext.js:13-25 | n `addDrawing` calls append the n drawings in call order, so the length grows by n, and nothing else changes; a following clear gives length 0 |
| `CanvasStore.SettersCommuteWithAddDrawing` | src/context/CanvasContext.js:13-46 | the updaters of the other fields commute with appending a drawing |

## Left out

- `initCanvas` and the resize listener: they measure the DOM, read `devicePixelRatio`, floor CSS sizes and configure the canvas. The constructor starts from the state after the first initialisation. Mounting, the context and the canvas position are fixed for the controller's lifetime.
- The `useEffect` that copies the colour and brush size into the context when they change: it is React scheduling. Until the next gesture start, `SetColor` and `SetBrushSize` do not change the context's stroke style and width.
- Rasterisation and pixel values (`stroke`, `strokeRect`, `arc`, `getImageData`, `putImageData`, `clearRect`, `fillRect`): the buffer is a sequence of operations, and a clear empties it.
- Coordinates are `real`, not JavaScript doubles: rounding is not modelled. For example, the triangle's apex `x0 + (x1 - x0) / 2` and the midpoint `(x0 + x1) / 2` are equal here but can round differently as doubles.
- Shapes.ShapeFigure: the circle keeps the square of its radius (`dx² + dy²`) instead of `Math.hypot`, because the square root is floating point.
- The context's `fillStyle`, `lineCap`, `lineJoin` and smoothing settings: nothing in the handlers reads them.
- `closePath`: the closing segment it adds to the current path is not modelled. After a circle preview, the current path is modelled as empty rather than as an arc. Every later freehand gesture begins a new path, so neither is stroked again.
- Pointer capture, `preventDefault` and the try/catch blocks around them: these are best-effort browser calls that change no modelled state.
- On an unmounted canvas, `startDrawing` throws a TypeError from `canvasRef.current.contains`. This happens before any state update, so the model treats it as no change.
- Non-integral numeric `buttons` values: the DOM always gives an integer bitmask.
- The second `Whiteboard` component in src/hooks/useCanvas.js:225-273: it is UI that reads fields the hook does not return.
- src/utils/storage.js (localStorage and JSON I/O), src/utils/drawing.js (thin wrappers over the canvas API), src/components/SortLayersControl.jsx (it reads `layers`, which the context never provides) and the remaining UI components. Whiteboard.jsx supplies only the tool set and the brush range.
