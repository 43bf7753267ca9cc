# Whiteboard canvas: viewport transform and stroke capture

This project models the drawing canvas of a collaborative whiteboard. The
`Canvas` component keeps a view made of a `scale` and a `translate` offset.
A world point `w` is drawn at the canvas-local position `translate + scale * w`.
A canvas-local position `c` shows the world point `(c - translate) / scale`.
The component supports these operations:

- wheel zoom about the cursor;
- `zoomIn` and `zoomOut` about the viewport centre;
- `reset` to the home view;
- drag-panning with the middle or right button, or with Shift or Meta held;
- left-button freehand strokes, captured as world points and committed on
  pointer-up.

The model has three modules:

- `Transform` (`transform.dfy`): the view arithmetic as pure functions over
  `real`, with the lemmas about it. These include the screen/world round trip,
  the fixed anchor under every zoom, the scale bounds, and the growth of
  repeated `zoomIn` up to its ceiling.
- `Render` (`render.dfy`): what a redraw strokes, as screen-space polylines,
  and the `Trace` method that walks one path as `moveTo`/`lineTo` do.
- `CanvasComponent` (`canvas.dfy`): the component as a class. Its fields are
  the source's refs and state (`scale`, `translate`, `isPanning`, `panStart`,
  `isDrawing`, `currentPath`, `paths`). Its methods are the event handlers and
  the imperative handle. Its invariant `Valid()` states three things:
  - the scale stays in [0.1, 10];
  - a stroke is in progress exactly while drawing;
  - no committed stroke is empty.

  Two scenario methods drive a fresh canvas through whole gestures.

The browser supplies several values, and the model takes each as a parameter:

- the canvas's page offset (`rect.left`, `rect.top`) is `origin`;
- its size (`rect.width`, `rect.height`) is `width` and `height`;
- the pointer position, button and modifier keys are parameters of the
  pointer methods;
- the wheel's `deltaY` is a parameter of the wheel method;
- the per-step wheel factor `Math.exp(0.1)` is `growth` (any value > 1). The
  zoom-out factor `Math.exp(-0.1)` is modelled as its reciprocal `1 / growth`.

Behaviours of the code that the model keeps as written:

- A left-button pointer-down while a stroke is in progress restarts the
  stroke with one point. It is not a no-op.
- A wheel event with `deltaY == 0` zooms out, because the code tests
  `-deltaY > 0`.
- `zoomIn` only caps the scale at 10 and `zoomOut` only floors it at 0.1. The
  wheel clamps both ways.
- The comment at components/canvas.js:6 (and the one at line 133) promises
  "hold space + drag" panning. The test at line 134 checks only buttons 1 and
  2 and the Shift and Meta keys, so holding space does not pan. `PansWith`
  follows the test.
- The component has no sync layer: it neither publishes nor receives strokes.

## Model

| member | source | states |
|---|---|---|
| Transform.ToScreen | components/canvas.js:56-59 | The draw transform puts a world point where the inverse formula (c - translate) / scale reads it back, for every scale > 0. |
| Transform.ToWorld | components/canvas.js:27-31 | The world point under a canvas-local position is the one that the draw transform maps back to that position. |
| Transform.WorldRoundTrip | components/canvas.js:56-59 | The reverse direction: reading back a drawn world point gives that point, so the two maps are inverse bijections for every scale > 0. |
| Transform.ScreenToCanvas | components/canvas.js:22-32 | The world point computed from a client position, after drawing and adding the canvas's page offset, gives the client position back. |
| Transform.ZoomAt | components/canvas.js:117-125 | Every zoom takes the new scale and keeps the anchor's world point exactly under the anchor. |
| Transform.ZoomAtSameScale | components/canvas.js:213-215 | A zoom to the current scale leaves the whole view unchanged, translation included. |
| Transform.ZoomScalesAboutAnchor | components/canvas.js:117-125 | After a zoom, every world point's screen position has moved along the ray from the anchor by newScale / scale. |
| Transform.WheelFactor | components/canvas.js:113-115 | The factor is positive. It is above 1 (zoom in) exactly when deltaY < 0; otherwise, including deltaY == 0, it is the reciprocal, below 1. |
| Transform.WheelScale | components/canvas.js:121 | The wheel's new scale always lies in [0.1, 10]. It is scale * factor when that is in range, and the nearer bound otherwise. |
| Transform.WheelView | components/canvas.js:106-127 | Wheel zoom keeps the cursor's world point under the cursor, with the clamped scale. |
| Transform.ZoomInScale | components/canvas.js:213 | zoomIn's scale is scale * factor up to the ceiling 10, and 10 above it. |
| Transform.ZoomOutScale | components/canvas.js:226 | zoomOut's scale is scale / factor down to the floor 0.1, and 0.1 below it. |
| Transform.ZoomInView | components/canvas.js:204-217 | zoomIn takes zoomIn's scale and keeps the viewport centre's world point fixed. |
| Transform.ZoomOutView | components/canvas.js:218-230 | zoomOut takes zoomOut's scale and keeps the viewport centre's world point fixed. |
| Transform.ZoomInScaleBounded | components/canvas.js:213 | With factor >= 1, zoomIn's scale stays in range, never falls, and is fixed at 10. |
| Transform.ZoomOutScaleBounded | components/canvas.js:226 | With factor >= 1, zoomOut's scale stays in range, never rises, and is fixed at 0.1. |
| Transform.ZoomInBounded | components/canvas.js:209-216 | With factor >= 1, zoomIn keeps the scale in range and never lowers it. At the ceiling it leaves the whole view unchanged. |
| Transform.ZoomOutBounded | components/canvas.js:222-229 | With factor >= 1, zoomOut keeps the scale in range and never raises it. At the floor it leaves the whole view unchanged. |
| Transform.ViewportCenter | components/canvas.js:209-210 | The zoom centre is the midpoint of the canvas: twice it is (width, height). |
| Transform.ZoomInRepeat | components/canvas.js:204-217 | After any number of zoomIn commands the scale is in range and no lower than at the start; it follows the per-step scale sequence, and the centre's world point is kept. |
| Transform.ZoomInRepeatMonotone | components/canvas.js:213 | Each further zoomIn never lowers the scale, and once the scale is 10 a further command leaves the whole view unchanged. |
| Transform.RepeatScaleGrowth | components/canvas.js:213 | With factor > 1 and d = s * (factor - 1) fixed from the starting scale s, the scale after n zoomIn commands is at least min(10, s + n * d). |
| Transform.ZoomInReachesCeiling | components/canvas.js:213 | Repeated zoomIn with factor > 1 reaches the ceiling 10 after finitely many commands. |
| Transform.PanStart | components/canvas.js:137 | The recorded pan offset is the pointer minus the translation, so the pointer minus the offset gives the translation back. |
| Transform.PanTo | components/canvas.js:152-153 | The new translation keeps the pointer at the offset recorded at pointer-down. |
| Transform.PanFollowsPointer | components/canvas.js:137-153 | After a pan move, translate is the translate at pointer-down plus the pointer's displacement since pointer-down. |
| Transform.PanShiftsPicture | components/canvas.js:150-155 | A pan move shifts every drawn world point on screen by exactly the pointer displacement. |
| Render.Polyline | components/canvas.js:66-71 | A path is stroked through one screen point per world point, in order, each mapped by the draw transform. |
| Render.DrawnIfNonEmpty | components/canvas.js:64-71 | An empty path draws nothing; any other path draws exactly one polyline, its own. |
| Render.Frame | components/canvas.js:61-72 | The committed paths draw at most one polyline each, and never an empty one. |
| Render.FrameAppend | components/canvas.js:64-72 | Drawing two runs of paths in turn is drawing their concatenation; with DrawnIfNonEmpty this gives the frame of any paths: every non-empty path's polyline, in order, empty ones skipped. |
| Render.Scene | components/canvas.js:61-83 | A redraw begins with the frame of the committed paths, has at most one polyline per committed path plus one, none empty; an in-progress path with points is drawn last, on top. |
| Render.SceneOfValid | components/canvas.js:61-83 | When no committed path is empty, the redraw is one polyline per committed path, in order, plus one for the in-progress path exactly when it has points. |
| Render.FrameOfNonEmpty | components/canvas.js:61-72 | When no path is empty, the redraw holds exactly one polyline per committed path, in order. |
| Render.PolylineReadsBack | components/canvas.js:57-70 | Under any view, reading a drawn polyline back through that view gives the stored world stroke. |
| Render.Captured | components/canvas.js:141-159 | The recorded stroke has one world point per pointer position, in order, each the point the view shows there and drawn back at that position. |
| Render.CapturedStrokeRedrawn | components/canvas.js:144-159 | Points captured through a view are drawn, under the same view, at the canvas-local positions they came from. |
| Render.HomeDrawsWorld | components/canvas.js:231-234 | Under the home view that reset restores, every path is drawn at its world coordinates. |
| Render.Trace | components/canvas.js:69-70 | moveTo the first point, then lineTo each later point, visits exactly the path's polyline. |
| CanvasComponent.PansWith | components/canvas.js:133-136 | Shift or Meta always pans; without them, exactly buttons 1 and 2 pan; a plain left-button press never does. |
| CanvasComponent.Canvas.constructor | components/canvas.js:13-19 | A new canvas has scale 1, translate (0,0), both flags off, and no strokes. |
| CanvasComponent.Canvas.HandleWheel | components/canvas.js:106-127 | Wheel zoom keeps the invariant and the cursor's world point; for deltaY < 0 it never lowers the scale and raises it strictly below 10, otherwise it never raises the scale and lowers it strictly above 0.1; the stroke state is left alone. |
| CanvasComponent.Canvas.PointerDown | components/canvas.js:130-148 | Pan buttons or modifiers enter pan mode and record client - translate, leaving the strokes alone. Otherwise button 0 starts a one-point stroke at the pointer's world point, and other buttons do nothing. |
| CanvasComponent.Canvas.PointerMove | components/canvas.js:150-162 | In pan mode translate becomes client - panStart. Otherwise, while drawing, exactly one world point is appended to the stroke and nothing else changes. |
| CanvasComponent.Canvas.PointerUp | components/canvas.js:164-178 | Pointer-up ends pan mode only. Otherwise, while drawing, it appends the in-progress stroke as the last committed path, keeps the earlier paths and clears the buffer. No empty path is ever committed. |
| CanvasComponent.Canvas.ZoomIn | components/canvas.js:204-217 | zoomIn about the viewport centre keeps the invariant, never lowers the scale, changes nothing at the ceiling, and leaves the strokes alone. |
| CanvasComponent.Canvas.ZoomOut | components/canvas.js:218-230 | zoomOut about the viewport centre keeps the invariant, never raises the scale, changes nothing at the floor, and leaves the strokes alone. |
| CanvasComponent.Canvas.Reset | components/canvas.js:231-234 | reset yields scale 1 and translate (0,0) from any state, and leaves paths, the in-progress stroke and the flags unchanged. |
| CanvasComponent.Canvas.Draw | components/canvas.js:48-86 | A redraw strokes each non-empty committed path in order, then the in-progress path if it has points, all under the current view. |
| Transform.WheelDirection | components/canvas.js:114-121 | A wheel factor above 1 never lowers the clamped scale; a factor below 1 never raises it. |
| Transform.WheelStrict | components/canvas.js:114-121 | Below the ceiling a wheel factor above 1 raises the clamped scale strictly; above the floor a factor below 1 lowers it strictly. |
| CanvasComponent.StrokeOnNewCanvas | components/canvas.js:130-178 | On a new canvas, a left-button stroke through two points commits one path holding their canvas-local positions and leaves nothing in progress. |
| CanvasComponent.PanZoomThenDraw | components/canvas.js:106-178 | After a pan drag and a wheel zoom, a two-point stroke is redrawn as one polyline through the canvas-local positions where it was drawn. |
| Render.CommittedStrokeRedrawn | components/canvas.js:61-72 | A non-empty stroke captured under a view and committed is redrawn, under that view, as exactly one polyline through the positions where it was drawn. |

## Left out

- React plumbing is not modelled: `useState`, `useRef`, `useEffect`,
  `forwardRef` and `useImperativeHandle`. Listener registration and
  re-registration on every scale change (components/canvas.js:89-103,
  185-200) and the context-menu handler (180-183) are also left out. The
  component's state is the class's fields, and its handlers are the class's
  methods.
- `setScale` is asynchronous in React. Two wheel events handled before a
  re-render would both read the old scale. The model applies every update at
  once, because event scheduling is outside the model.
- `resize`, `devicePixelRatio` and every Canvas 2D call (`clearRect`,
  `save`/`restore`, line styles, `stroke`) are left out as rendering side
  effects. `Draw` returns the polylines a redraw would stroke. The `draw()`
  calls inside the handlers are not modelled, because they change no state.
- The `if (!canvas) return` guards and `e.preventDefault()` are left out. The
  canvas is always mounted in the model.
- The `!p` check in `draw` (line 65) is left out, because paths are never
  null here. The empty-path check is modelled.
- `Math.exp` and IEEE floating point are left out. All arithmetic is exact
  `real` arithmetic, and the wheel factor is the parameter `growth` > 1 or its
  reciprocal.
- Render.Frame: its own contract states only counts and non-emptiness. Which
  polylines it holds, in which order, is stated by Render.FrameAppend with
  Render.DrawnIfNonEmpty for any paths, and by Render.FrameOfNonEmpty for
  paths with no empty entry.
- Render.Scene: its own contract states that the committed part is the frame
  and the in-progress path comes last. The exact content is stated by
  Render.SceneOfValid for committed paths with no empty entry, which the
  canvas invariant guarantees.
- `getBoundingClientRect` is left out. The canvas offset and size are
  parameters.
- CanvasComponent.Canvas.ZoomIn: requires factor >= 1. The source accepts any
  factor, but a factor below 1 could push the scale under 0.1 and break the
  invariant. The only caller (app/board/page.js) passes the default 1.2.
- CanvasComponent.Canvas.ZoomOut: requires factor >= 1, for the same reason;
  a factor below 1 could push the scale above 10.
- Transform.ZoomInView and Transform.ZoomOutView require factor > 0 and
  scale > 0. A zero factor in the source would divide by zero or produce
  scale 0.
- app/api/socket/route.js is not part of this model. It is a socket.io relay
  that rebroadcasts "draw" events, which is network I/O.
- components/toolbar.js and app/board/page.js are not part of this model. They
  hold UI markup and callback wiring only.
- No stroke synchronisation is modelled: no publishing, no remote strokes and
  no sender filtering. None of it exists in the component.
