/**
 * What `draw` puts on the canvas, as data: one screen-space polyline per
 * stroke, in the order the strokes are drawn. Line styles, clearing and the
 * device-pixel-ratio transform are not part of this model.
 */
module Render {
  import opened Transform

  /** A stroke's points mapped through the view, in drawing order. */
  function Polyline(v: View, p: seq<Point>): (line: seq<Point>)
    ensures |line| == |p|
    ensures forall k :: 0 <= k < |p| ==> line[k] == ToScreen(v, p[k])
  {
    seq(|p|, k requires 0 <= k < |p| => ToScreen(v, p[k]))
  }

  /**
   * `draw` strokes a path only when it has at least one point: an empty path
   * yields nothing, any other path exactly its polyline.
   */
  function DrawnIfNonEmpty(v: View, p: seq<Point>): (lines: seq<seq<Point>>)
    ensures |lines| <= 1
    ensures lines == [] <==> p == []
    ensures forall l :: l in lines ==> l == Polyline(v, p)
  {
    if p == [] then [] else [Polyline(v, p)]
  }

  /**
   * The committed paths, in order, each drawn unless it is empty: at most one
   * polyline per path, and never an empty one.
   */
  function Frame(v: View, paths: seq<seq<Point>>): (lines: seq<seq<Point>>)
    ensures |lines| <= |paths|
    ensures forall i :: 0 <= i < |lines| ==> lines[i] != []
    decreases |paths|
  {
    if paths == [] then []
    else Frame(v, paths[..|paths| - 1]) + DrawnIfNonEmpty(v, paths[|paths| - 1])
  }

  /**
   * A whole redraw: the frame of the committed paths comes first, then the
   * path being drawn, which, when it has points, is the last polyline, on
   * top of the others.
   */
  function Scene(v: View, paths: seq<seq<Point>>, current: seq<Point>): (lines: seq<seq<Point>>)
    ensures |lines| <= |paths| + 1
    ensures forall i :: 0 <= i < |lines| ==> lines[i] != []
    ensures |Frame(v, paths)| <= |lines| && lines[..|Frame(v, paths)|] == Frame(v, paths)
    ensures current != [] ==> |lines| > 0 && lines[|lines| - 1] == Polyline(v, current)
  {
    Frame(v, paths) + DrawnIfNonEmpty(v, current)
  }

  /** Every paths element is non-empty. */
  predicate AllNonEmpty(paths: seq<seq<Point>>)
  {
    forall i :: 0 <= i < |paths| ==> paths[i] != []
  }

  /**
   * When no committed path is empty (as the canvas guarantees), the frame
   * holds exactly one polyline per path, in the same order.
   */
  lemma {:induction false} FrameOfNonEmpty(v: View, paths: seq<seq<Point>>)
    requires AllNonEmpty(paths)
    ensures |Frame(v, paths)| == |paths|
    ensures forall i :: 0 <= i < |paths| ==> Frame(v, paths)[i] == Polyline(v, paths[i])
    decreases |paths|
  {
    if paths != [] {
      var init := paths[..|paths| - 1];
      assert AllNonEmpty(init) by {
        forall i | 0 <= i < |init| ensures init[i] != [] {
          assert init[i] == paths[i];
        }
      }
      FrameOfNonEmpty(v, init);
    }
  }

  /**
   * Drawing two runs of paths one after the other is drawing their
   * concatenation: with `DrawnIfNonEmpty`, this fixes the frame of any
   * paths, empty ones included, one path at a time.
   */
  lemma {:induction false} FrameAppend(v: View, a: seq<seq<Point>>, b: seq<seq<Point>>)
    ensures Frame(v, a + b) == Frame(v, a) + Frame(v, b)
    decreases |b|
  {
    if b == [] {
      assert a + b == a;
    } else {
      var init := b[..|b| - 1];
      assert (a + b)[..|a + b| - 1] == a + init;
      assert (a + b)[|a + b| - 1] == b[|b| - 1];
      FrameAppend(v, a, init);
    }
  }

  /**
   * On a valid canvas the redraw is the committed strokes, one polyline each
   * and in order, followed by the in-progress stroke when it has points.
   */
  lemma SceneOfValid(v: View, paths: seq<seq<Point>>, current: seq<Point>)
    requires AllNonEmpty(paths)
    ensures |Scene(v, paths, current)| == |paths| + (if current == [] then 0 else 1)
    ensures forall i :: 0 <= i < |paths| ==> Scene(v, paths, current)[i] == Polyline(v, paths[i])
  {
    FrameOfNonEmpty(v, paths);
  }

  /**
   * Strokes are stored in world coordinates: reading a drawn polyline back
   * through the same view gives the stored stroke, whatever the view.
   */
  lemma PolylineReadsBack(v: View, p: seq<Point>)
    requires v.scale > 0.0
    ensures forall k :: 0 <= k < |p| ==> ToWorld(v, Polyline(v, p)[k]) == p[k]
  {
    forall k | 0 <= k < |p| ensures ToWorld(v, Polyline(v, p)[k]) == p[k] {
      WorldRoundTrip(v, p[k]);
    }
  }

  /**
   * The world points `handlePointerDown` and `handlePointerMove` record for
   * the canvas-local positions `local`, one per position, in order: each is
   * the point the view shows there.
   */
  function Captured(v: View, local: seq<Point>): (p: seq<Point>)
    requires v.scale > 0.0
    ensures |p| == |local|
    ensures forall k :: 0 <= k < |local| ==> p[k] == ToWorld(v, local[k])
    ensures forall k :: 0 <= k < |local| ==> ToScreen(v, p[k]) == local[k]
  {
    seq(|local|, k requires 0 <= k < |local| => ToWorld(v, local[k]))
  }

  /** A stroke captured through a view is drawn, under that view, where it was drawn. */
  lemma CapturedStrokeRedrawn(v: View, local: seq<Point>)
    requires v.scale > 0.0
    ensures Polyline(v, Captured(v, local)) == local
  {
  }

  /**
   * A non-empty stroke captured through a view and committed is the whole
   * redraw, under that view, of a canvas holding only it: one polyline,
   * through exactly the canvas-local positions where it was drawn.
   */
  lemma CommittedStrokeRedrawn(v: View, local: seq<Point>)
    requires v.scale > 0.0 && local != []
    ensures Scene(v, [Captured(v, local)], []) == [local]
  {
    FrameOfNonEmpty(v, [Captured(v, local)]);
    CapturedStrokeRedrawn(v, local);
  }

  /** Under the home view that `reset` restores, world and screen coincide. */
  lemma HomeDrawsWorld(p: seq<Point>)
    ensures Polyline(Home, p) == p
  {
    forall k | 0 <= k < |p| ensures Polyline(Home, p)[k] == p[k] {
      assert ToScreen(Home, p[k]) == p[k];
    }
  }

  /**
   * Strokes a path as `draw` does: `moveTo` the first point, then `lineTo`
   * each later one, collecting the screen positions visited.
   */
  method Trace(v: View, p: seq<Point>) returns (line: seq<Point>)
    requires p != []
    ensures line == Polyline(v, p)
  {
    line := [ToScreen(v, p[0])];
    var i := 1;
    while i < |p|
      invariant 1 <= i <= |p|
      invariant line == Polyline(v, p[..i])
    {
      line := line + [ToScreen(v, p[i])];
      i := i + 1;
    }
    assert p[..i] == p;
  }
}
