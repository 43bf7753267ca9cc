/**
 * The `Canvas` component: its view state and stroke buffers as fields of a
 * class, and its event handlers and imperative commands (`zoomIn`,
 * `zoomOut`, `reset`) as methods. What the browser supplies — the canvas
 * rectangle's page offset and size, pointer positions, buttons and
 * modifier keys, the wheel delta — arrives as parameters.
 */
module CanvasComponent {
  import opened Transform
  import opened Render

  /**
   * Buttons 1 (middle) and 2 (right), or Shift or Meta held, pan; a plain
   * left-button press never does.
   */
  function PansWith(button: int, shift: bool, meta: bool): (pans: bool)
    ensures shift || meta ==> pans
    ensures !shift && !meta ==> (pans <==> button == 1 || button == 2)
    ensures button == 0 && !shift && !meta ==> !pans
  {
    button == 1 || button == 2 || shift || meta
  }

  class Canvas {
    var scale: real
    var translate: Point
    var isPanning: bool
    var panStart: Point
    var isDrawing: bool
    /** The stroke being drawn, in world coordinates. */
    var currentPath: seq<Point>
    /** The committed strokes, in world coordinates, oldest first. */
    var paths: seq<seq<Point>>

    /** The view state the fields `scale` and `translate` make up. */
    function ViewState(): (v: View)
      reads this
    {
      View(scale, translate)
    }

    /**
     * The component's invariant: the scale stays within [0.1, 10], so every
     * division by it is defined; a stroke is in progress exactly while
     * drawing; no committed stroke is empty.
     */
    ghost predicate Valid()
      reads this
    {
      InRange(scale)
      && (isDrawing <==> currentPath != [])
      && AllNonEmpty(paths)
    }

    constructor ()
      ensures Valid()
      ensures ViewState() == Home
      ensures !isPanning && !isDrawing && panStart == Point(0.0, 0.0)
      ensures currentPath == [] && paths == []
    {
      scale := 1.0;
      translate := Point(0.0, 0.0);
      isPanning := false;
      panStart := Point(0.0, 0.0);
      isDrawing := false;
      currentPath := [];
      paths := [];
    }

    /**
     * `handleWheel`: zoom about the cursor. `origin` is the canvas's page
     * offset (rect.left, rect.top); `growth` is the per-step factor.
     */
    method HandleWheel(client: Point, origin: Point, deltaY: real, growth: real)
      requires Valid() && growth > 1.0
      modifies this
      ensures Valid()
      ensures ViewState() == WheelView(old(ViewState()), Sub(client, origin), WheelFactor(deltaY, growth))
      ensures ToWorld(ViewState(), Sub(client, origin)) == ToWorld(old(ViewState()), Sub(client, origin))
      ensures deltaY < 0.0 ==> old(scale) <= scale
      ensures deltaY >= 0.0 ==> scale <= old(scale)
      ensures deltaY < 0.0 && old(scale) < MaxScale ==> old(scale) < scale
      ensures deltaY >= 0.0 && old(scale) > MinScale ==> scale < old(scale)
      ensures isPanning == old(isPanning) && panStart == old(panStart) && isDrawing == old(isDrawing)
      ensures currentPath == old(currentPath) && paths == old(paths)
    {
      var cursor := Sub(client, origin);
      var factor := WheelFactor(deltaY, growth);
      WheelDirection(scale, factor);
      WheelStrict(scale, factor);
      var v := WheelView(ViewState(), cursor, factor);
      translate := v.translate;
      scale := v.scale;
    }

    /** `handlePointerDown`: enter pan mode, or start a stroke with the left button. */
    method PointerDown(client: Point, origin: Point, button: int, shift: bool, meta: bool)
      requires Valid()
      modifies this
      ensures Valid()
      ensures scale == old(scale) && translate == old(translate) && paths == old(paths)
      ensures PansWith(button, shift, meta) ==>
        isPanning && panStart == PanStart(client, translate)
        && isDrawing == old(isDrawing) && currentPath == old(currentPath)
      ensures !PansWith(button, shift, meta) && button == 0 ==>
        isDrawing && currentPath == [ScreenToCanvas(ViewState(), origin, client)]
        && isPanning == old(isPanning) && panStart == old(panStart)
      ensures !PansWith(button, shift, meta) && button != 0 ==>
        isPanning == old(isPanning) && panStart == old(panStart)
        && isDrawing == old(isDrawing) && currentPath == old(currentPath)
    {
      if PansWith(button, shift, meta) {
        isPanning := true;
        panStart := PanStart(client, translate);
        return;
      }
      if button == 0 {
        isDrawing := true;
        var pt := ScreenToCanvas(ViewState(), origin, client);
        currentPath := [pt];
      }
    }

    /** `handlePointerMove`: pan, or extend the stroke by one world point. */
    method PointerMove(client: Point, origin: Point)
      requires Valid()
      modifies this
      ensures Valid()
      ensures scale == old(scale) && paths == old(paths)
      ensures isPanning == old(isPanning) && panStart == old(panStart) && isDrawing == old(isDrawing)
      ensures isPanning ==> translate == PanTo(panStart, client) && currentPath == old(currentPath)
      ensures !isPanning ==> translate == old(translate)
      ensures !isPanning && isDrawing ==>
        currentPath == old(currentPath) + [ScreenToCanvas(ViewState(), origin, client)]
      ensures !isPanning && !isDrawing ==> currentPath == old(currentPath)
    {
      if isPanning {
        translate := PanTo(panStart, client);
        return;
      }
      if isDrawing {
        var pt := ScreenToCanvas(ViewState(), origin, client);
        currentPath := currentPath + [pt];
      }
    }

    /** `handlePointerUp`: leave pan mode, or commit the stroke being drawn. */
    method PointerUp()
      requires Valid()
      modifies this
      ensures Valid()
      ensures scale == old(scale) && translate == old(translate) && panStart == old(panStart)
      ensures old(isPanning) ==>
        !isPanning && isDrawing == old(isDrawing)
        && currentPath == old(currentPath) && paths == old(paths)
      ensures !old(isPanning) && old(isDrawing) ==>
        !isPanning && !isDrawing && currentPath == []
        && paths == old(paths) + [old(currentPath)]
      ensures !old(isPanning) && !old(isDrawing) ==>
        !isPanning && !isDrawing && currentPath == old(currentPath) && paths == old(paths)
    {
      if isPanning {
        isPanning := false;
        return;
      }
      if isDrawing {
        isDrawing := false;
        if |currentPath| != 0 {
          paths := paths + [currentPath];
          currentPath := [];
        }
      }
    }

    /** `zoomIn(factor)`: zoom about the centre of a `width` by `height` canvas. */
    method ZoomIn(width: real, height: real, factor: real)
      requires Valid() && factor >= 1.0
      modifies this
      ensures Valid()
      ensures ViewState() == ZoomInView(old(ViewState()), ViewportCenter(width, height), factor)
      ensures old(scale) <= scale
      ensures old(scale) == MaxScale ==> ViewState() == old(ViewState())
      ensures isPanning == old(isPanning) && panStart == old(panStart) && isDrawing == old(isDrawing)
      ensures currentPath == old(currentPath) && paths == old(paths)
    {
      var v := ViewState();
      ZoomInBounded(v, ViewportCenter(width, height), factor);
      var zoomed := ZoomInView(v, ViewportCenter(width, height), factor);
      translate := zoomed.translate;
      scale := zoomed.scale;
    }

    /** `zoomOut(factor)`: zoom out about the centre of a `width` by `height` canvas. */
    method ZoomOut(width: real, height: real, factor: real)
      requires Valid() && factor >= 1.0
      modifies this
      ensures Valid()
      ensures ViewState() == ZoomOutView(old(ViewState()), ViewportCenter(width, height), factor)
      ensures scale <= old(scale)
      ensures old(scale) == MinScale ==> ViewState() == old(ViewState())
      ensures isPanning == old(isPanning) && panStart == old(panStart) && isDrawing == old(isDrawing)
      ensures currentPath == old(currentPath) && paths == old(paths)
    {
      var v := ViewState();
      ZoomOutBounded(v, ViewportCenter(width, height), factor);
      var zoomed := ZoomOutView(v, ViewportCenter(width, height), factor);
      translate := zoomed.translate;
      scale := zoomed.scale;
    }

    /** `reset`: back to the home view; strokes and pointer state are kept. */
    method Reset()
      requires Valid()
      modifies this
      ensures Valid()
      ensures ViewState() == Home
      ensures isPanning == old(isPanning) && panStart == old(panStart) && isDrawing == old(isDrawing)
      ensures currentPath == old(currentPath) && paths == old(paths)
    {
      translate := Point(0.0, 0.0);
      scale := 1.0;
    }

    /**
     * `draw`: the polylines a redraw strokes, in screen coordinates — each
     * non-empty committed path in order, then the path being drawn, if any.
     */
    method Draw() returns (frame: seq<seq<Point>>)
      ensures frame == Scene(ViewState(), paths, currentPath)
    {
      var v := ViewState();
      frame := [];
      var i := 0;
      while i < |paths|
        invariant 0 <= i <= |paths|
        invariant frame == Frame(v, paths[..i])
      {
        var p := paths[i];
        assert paths[..i + 1][..i] == paths[..i];
        if |p| != 0 {
          var line := Trace(v, p);
          frame := frame + [line];
        }
        i := i + 1;
      }
      assert paths[..i] == paths;
      if |currentPath| != 0 {
        var line := Trace(v, currentPath);
        frame := frame + [line];
      }
    }
  }

  /**
   * A left-button stroke from `a` through `b`, on a new canvas: it is
   * committed as one path holding the canvas-local positions (the home view
   * maps them to themselves), and nothing is left in progress.
   */
  method StrokeOnNewCanvas(origin: Point, a: Point, b: Point)
    returns (committed: seq<seq<Point>>, pending: seq<Point>)
    ensures committed == [[Sub(a, origin), Sub(b, origin)]]
    ensures pending == []
  {
    var canvas := new Canvas();
    assert ToWorld(Home, Sub(a, origin)) == Sub(a, origin);
    assert ToWorld(Home, Sub(b, origin)) == Sub(b, origin);
    canvas.PointerDown(a, origin, 0, false, false);
    assert canvas.currentPath == [Sub(a, origin)] && canvas.ViewState() == Home;
    canvas.PointerMove(b, origin);
    assert canvas.currentPath == [Sub(a, origin), Sub(b, origin)];
    canvas.PointerUp();
    committed, pending := canvas.paths, canvas.currentPath;
  }

  /**
   * Pan by dragging with the middle button, wheel-zoom at `cursor`, then draw
   * a stroke from `a` to `b`: the redraw strokes exactly one polyline, and it
   * passes through the canvas-local positions where the pointer was.
   */
  method PanZoomThenDraw(origin: Point, grab: Point, drop: Point, cursor: Point,
                         deltaY: real, growth: real, a: Point, b: Point)
    returns (frame: seq<seq<Point>>)
    requires growth > 1.0
    ensures frame == [[Sub(a, origin), Sub(b, origin)]]
  {
    var canvas := new Canvas();
    canvas.PointerDown(grab, origin, 1, false, false);
    canvas.PointerMove(drop, origin);
    canvas.PointerUp();
    canvas.HandleWheel(cursor, origin, deltaY, growth);
    assert !canvas.isPanning && !canvas.isDrawing && canvas.paths == [];
    var v := canvas.ViewState();
    var wa, wb := ScreenToCanvas(v, origin, a), ScreenToCanvas(v, origin, b);
    var local := [Sub(a, origin), Sub(b, origin)];
    assert Captured(v, local) == [wa, wb];
    canvas.PointerDown(a, origin, 0, false, false);
    assert canvas.currentPath == [wa] && canvas.ViewState() == v;
    canvas.PointerMove(b, origin);
    assert canvas.currentPath == [wa, wb] && canvas.ViewState() == v;
    canvas.PointerUp();
    assert canvas.paths == [[wa, wb]] && canvas.currentPath == [];
    frame := canvas.Draw();
    CommittedStrokeRedrawn(v, local);
  }
}
