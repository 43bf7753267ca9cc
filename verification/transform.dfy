/**
 * The viewport transform of the whiteboard canvas.
 *
 * A view is a scale and a translation. A world point w is drawn at the
 * canvas-local position translate + scale * w, and a canvas-local position c
 * shows the world point (c - translate) / scale. Every zoom rewrites the view
 * so that the world point under an anchor (the cursor, or the viewport
 * centre) stays under that anchor. Arithmetic is exact (`real`).
 */
module Transform {

  /** A point in the plane: canvas-local pixels or world units, by use. */
  datatype Point = Point(x: real, y: real)

  /** The view state: screen = translate + scale * world. */
  datatype View = View(scale: real, translate: Point)

  /** The bounds the zoom operations clamp the scale to. */
  const MinScale: real := 0.1
  const MaxScale: real := 10.0

  /** The view a canvas starts with and `reset` restores. */
  const Home: View := View(1.0, Point(0.0, 0.0))

  function Add(a: Point, b: Point): (p: Point)
  {
    Point(a.x + b.x, a.y + b.y)
  }

  function Sub(a: Point, b: Point): (p: Point)
  {
    Point(a.x - b.x, a.y - b.y)
  }

  function Min(a: real, b: real): (r: real)
  {
    if a <= b then a else b
  }

  function Max(a: real, b: real): (r: real)
  {
    if a >= b then a else b
  }

  /** The scale range every operation keeps the view in. */
  predicate InRange(s: real)
  {
    MinScale <= s <= MaxScale
  }

  /**
   * World to canvas-local: `ctx.translate(t)` followed by `ctx.scale(s)`. For
   * any scale > 0 the position it draws at reads back, through the inverse
   * formula `(c - translate) / scale`, to the world point itself.
   */
  function ToScreen(v: View, w: Point): (s: Point)
    ensures v.scale > 0.0 ==>
      (s.x - v.translate.x) / v.scale == w.x && (s.y - v.translate.y) / v.scale == w.y
  {
    Point(v.translate.x + v.scale * w.x, v.translate.y + v.scale * w.y)
  }

  /** Canvas-local to world: the point the view shows at canvas-local `c`. */
  function ToWorld(v: View, c: Point): (w: Point)
    requires v.scale > 0.0
    ensures ToScreen(v, w) == c
  {
    Point((c.x - v.translate.x) / v.scale, (c.y - v.translate.y) / v.scale)
  }

  /** The other half of the bijection: drawing a world point and reading it back. */
  lemma WorldRoundTrip(v: View, w: Point)
    requires v.scale > 0.0
    ensures ToWorld(v, ToScreen(v, w)) == w
  {
    var s := v.scale;
    assert (v.scale * w.x) / s == w.x;
    assert (v.scale * w.y) / s == w.y;
  }

  /**
   * `screenToCanvas`: a client (page) position minus the canvas origin on the
   * page gives the canvas-local position, which the view maps to the world.
   */
  function ScreenToCanvas(v: View, origin: Point, client: Point): (w: Point)
    requires v.scale > 0.0
    ensures Add(origin, ToScreen(v, w)) == client
  {
    ToWorld(v, Sub(client, origin))
  }

  /**
   * The single algorithm behind every zoom: take the world point under
   * `anchor`, adopt `newScale`, and solve for the translation that puts that
   * world point back under `anchor`.
   */
  function ZoomAt(v: View, anchor: Point, newScale: real): (r: View)
    requires v.scale > 0.0 && newScale > 0.0
    ensures r.scale == newScale
    ensures ToWorld(r, anchor) == ToWorld(v, anchor)
  {
    var w := ToWorld(v, anchor);
    var r := View(newScale, Point(anchor.x - w.x * newScale, anchor.y - w.y * newScale));
    assert ToScreen(r, w) == anchor;
    WorldRoundTrip(r, w);
    r
  }

  /** Zooming to the scale the view already has changes nothing. */
  lemma ZoomAtSameScale(v: View, anchor: Point)
    requires v.scale > 0.0
    ensures ZoomAt(v, anchor, v.scale) == v
  {
    var w := ToWorld(v, anchor);
    assert anchor.x - w.x * v.scale == v.translate.x;
    assert anchor.y - w.y * v.scale == v.translate.y;
  }

  /**
   * A zoom scales the whole picture about the anchor: every world point moves
   * on screen along the ray from the anchor by the ratio of the scales.
   */
  lemma ZoomScalesAboutAnchor(v: View, anchor: Point, newScale: real, w: Point)
    requires v.scale > 0.0 && newScale > 0.0
    ensures ToScreen(ZoomAt(v, anchor, newScale), w)
         == Point(anchor.x + (newScale / v.scale) * (ToScreen(v, w).x - anchor.x),
                  anchor.y + (newScale / v.scale) * (ToScreen(v, w).y - anchor.y))
  {
    var s, t := v.scale, v.translate;
    var k := newScale / s;
    var a := ToWorld(v, anchor);
    assert newScale == k * s;
    calc {
      ToScreen(ZoomAt(v, anchor, newScale), w).x;
      anchor.x - a.x * newScale + newScale * w.x;
      anchor.x + k * (s * w.x - s * a.x);
      { assert s * a.x == anchor.x - t.x; }
      anchor.x + k * (t.x + s * w.x - anchor.x);
    }
    calc {
      ToScreen(ZoomAt(v, anchor, newScale), w).y;
      anchor.y - a.y * newScale + newScale * w.y;
      anchor.y + k * (s * w.y - s * a.y);
      { assert s * a.y == anchor.y - t.y; }
      anchor.y + k * (t.y + s * w.y - anchor.y);
    }
  }

  /**
   * The wheel factor: a wheel movement away from the user (negative deltaY)
   * multiplies the scale by `growth` (the source's exp(0.1)); any other,
   * including deltaY == 0, divides it by `growth` (exp(-0.1)).
   */
  function WheelFactor(deltaY: real, growth: real): (f: real)
    requires growth > 1.0
    ensures f > 0.0
    ensures deltaY < 0.0 ==> f == growth && f > 1.0
    ensures deltaY >= 0.0 ==> f * growth == 1.0 && f < 1.0
  {
    var delta := -deltaY;
    if delta > 0.0 then growth else 1.0 / growth
  }

  /** The wheel's new scale: `scale * factor` clamped to [MinScale, MaxScale]. */
  function WheelScale(s: real, factor: real): (r: real)
    ensures InRange(r)
    ensures InRange(s * factor) ==> r == s * factor
    ensures s * factor < MinScale ==> r == MinScale
    ensures s * factor > MaxScale ==> r == MaxScale
  {
    Max(MinScale, Min(MaxScale, s * factor))
  }

  /** `zoomIn`'s new scale: `scale * factor`, capped at MaxScale only. */
  function ZoomInScale(s: real, factor: real): (r: real)
    ensures r <= MaxScale
    ensures s * factor <= MaxScale ==> r == s * factor
    ensures s * factor > MaxScale ==> r == MaxScale
  {
    Min(MaxScale, s * factor)
  }

  /** `zoomOut`'s new scale: `scale / factor`, floored at MinScale only. */
  function ZoomOutScale(s: real, factor: real): (r: real)
    requires factor > 0.0
    ensures r >= MinScale
    ensures s / factor >= MinScale ==> r == s / factor
    ensures s / factor < MinScale ==> r == MinScale
  {
    Max(MinScale, s / factor)
  }

  /** The product of non-negative numbers is non-negative. */
  lemma MulNonNeg(a: real, b: real)
    requires a >= 0.0 && b >= 0.0
    ensures a * b >= 0.0
  {
  }

  /** Multiplying by a non-negative number keeps an order. */
  lemma MulMono(a: real, b: real, c: real)
    requires a <= b && c >= 0.0
    ensures a * c <= b * c
  {
    assert b * c - a * c == (b - a) * c;
    MulNonNeg(b - a, c);
  }

  /** The product of positive numbers is positive. */
  lemma MulPos(a: real, b: real)
    requires a > 0.0 && b > 0.0
    ensures a * b > 0.0
  {
  }

  /** A non-negative number does not shrink when multiplied by at least 1. */
  lemma GrowsBy(s: real, factor: real)
    requires s >= 0.0 && factor >= 1.0
    ensures s <= s * factor
  {
    assert s * factor - s == s * (factor - 1.0);
    MulNonNeg(s, factor - 1.0);
  }

  /** A non-negative number does not grow when divided by at least 1. */
  lemma ShrinksBy(s: real, factor: real)
    requires s >= 0.0 && factor >= 1.0
    ensures s / factor <= s
  {
    var q := s / factor;
    assert q * factor == s;
    assert q >= 0.0;
    GrowsBy(q, factor);
  }

  /**
   * With a factor of at least 1, `zoomIn`'s scale never falls, stays in
   * range, and is fixed once at the ceiling.
   */
  lemma ZoomInScaleBounded(s: real, factor: real)
    requires InRange(s) && factor >= 1.0
    ensures InRange(ZoomInScale(s, factor)) && s <= ZoomInScale(s, factor)
    ensures s == MaxScale ==> ZoomInScale(s, factor) == s
  {
    GrowsBy(s, factor);
    var p := s * factor;
    assert s <= p;
    if p <= MaxScale {
      assert ZoomInScale(s, factor) == p;
    } else {
      assert ZoomInScale(s, factor) == MaxScale;
    }
  }

  /**
   * With a factor of at least 1, `zoomOut`'s scale never rises, stays in
   * range, and is fixed once at the floor.
   */
  lemma ZoomOutScaleBounded(s: real, factor: real)
    requires InRange(s) && factor >= 1.0
    ensures InRange(ZoomOutScale(s, factor)) && ZoomOutScale(s, factor) <= s
    ensures s == MinScale ==> ZoomOutScale(s, factor) == s
  {
    ShrinksBy(s, factor);
    var q := s / factor;
    assert q <= s;
    if q >= MinScale {
      assert ZoomOutScale(s, factor) == q;
    } else {
      assert ZoomOutScale(s, factor) == MinScale;
    }
  }

  /** A wheel factor above 1 never lowers the clamped scale; one below 1 never raises it. */
  lemma WheelDirection(s: real, factor: real)
    requires InRange(s) && factor > 0.0
    ensures factor > 1.0 ==> s <= WheelScale(s, factor)
    ensures factor < 1.0 ==> WheelScale(s, factor) <= s
  {
    if factor > 1.0 {
      GrowsBy(s, factor);
      assert s <= s * factor;
    } else if factor < 1.0 {
      MulMono(factor, 1.0, s);
      assert s * factor <= s;
    }
  }

  /**
   * Strictly: away from the ceiling a factor above 1 raises the clamped
   * scale, and away from the floor a factor below 1 lowers it.
   */
  lemma WheelStrict(s: real, factor: real)
    requires InRange(s) && factor > 0.0
    ensures factor > 1.0 && s < MaxScale ==> s < WheelScale(s, factor)
    ensures factor < 1.0 && s > MinScale ==> WheelScale(s, factor) < s
  {
    if factor > 1.0 && s < MaxScale {
      WheelRaises(s, factor);
    } else if factor < 1.0 && s > MinScale {
      WheelLowers(s, factor);
    }
  }

  /** Below the ceiling, a factor above 1 raises the clamped scale. */
  lemma WheelRaises(s: real, factor: real)
    requires InRange(s) && s < MaxScale && factor > 1.0
    ensures s < WheelScale(s, factor)
  {
    StrictGrowsBy(s, factor);
    var p :| p == s * factor && s < p;
    ClampAbove(s, p);
  }

  /** Above the floor, a factor below 1 lowers the clamped scale. */
  lemma WheelLowers(s: real, factor: real)
    requires InRange(s) && s > MinScale && 0.0 < factor < 1.0
    ensures WheelScale(s, factor) < s
  {
    StrictShrinksBy(s, factor);
    var p :| p == s * factor && p < s;
    ClampBelow(s, p);
  }

  /** Clamping a value above an in-range `s` stays above it, below the ceiling. */
  lemma ClampAbove(s: real, p: real)
    requires InRange(s) && s < MaxScale && s < p
    ensures s < Max(MinScale, Min(MaxScale, p))
  {
  }

  /** Clamping a value below an in-range `s` stays below it, above the floor. */
  lemma ClampBelow(s: real, p: real)
    requires InRange(s) && s > MinScale && p < s
    ensures Max(MinScale, Min(MaxScale, p)) < s
  {
  }

  /** A positive number grows when multiplied by more than 1. */
  lemma StrictGrowsBy(s: real, factor: real)
    requires s > 0.0 && factor > 1.0
    ensures s < s * factor
  {
    assert s * factor - s == s * (factor - 1.0);
    MulPos(s, factor - 1.0);
  }

  /** A positive number shrinks when multiplied by less than 1. */
  lemma StrictShrinksBy(s: real, factor: real)
    requires s > 0.0 && factor < 1.0
    ensures s * factor < s
  {
    assert s - s * factor == s * (1.0 - factor);
    MulPos(s, 1.0 - factor);
  }

  /** Wheel zoom at the cursor's canvas-local position. */
  function WheelView(v: View, cursor: Point, factor: real): (r: View)
    requires v.scale > 0.0 && factor > 0.0
    ensures InRange(r.scale)
    ensures r.scale == WheelScale(v.scale, factor)
    ensures ToWorld(r, cursor) == ToWorld(v, cursor)
  {
    ZoomAt(v, cursor, WheelScale(v.scale, factor))
  }

  /** The viewport centre from the canvas's CSS width and height. */
  function ViewportCenter(width: real, height: real): (c: Point)
    ensures Add(c, c) == Point(width, height)
  {
    Point(width / 2.0, height / 2.0)
  }

  /** `zoomIn(factor)` at the viewport centre. */
  function ZoomInView(v: View, center: Point, factor: real): (r: View)
    requires v.scale > 0.0 && factor > 0.0
    ensures r.scale == ZoomInScale(v.scale, factor)
    ensures ToWorld(r, center) == ToWorld(v, center)
  {
    var s := ZoomInScale(v.scale, factor);
    assert s > 0.0 by {
      assert v.scale * factor > 0.0;
    }
    ZoomAt(v, center, s)
  }

  /** `zoomOut(factor)` at the viewport centre. */
  function ZoomOutView(v: View, center: Point, factor: real): (r: View)
    requires v.scale > 0.0 && factor > 0.0
    ensures r.scale == ZoomOutScale(v.scale, factor)
    ensures ToWorld(r, center) == ToWorld(v, center)
  {
    ZoomAt(v, center, ZoomOutScale(v.scale, factor))
  }

  /**
   * With a factor of at least 1, `zoomIn` never lowers the scale, keeps it in
   * range, and at the ceiling leaves the whole view as it was.
   */
  lemma ZoomInBounded(v: View, center: Point, factor: real)
    requires InRange(v.scale) && factor >= 1.0
    ensures InRange(ZoomInView(v, center, factor).scale)
    ensures v.scale <= ZoomInView(v, center, factor).scale
    ensures v.scale == MaxScale ==> ZoomInView(v, center, factor) == v
  {
    ZoomInScaleBounded(v.scale, factor);
    if v.scale == MaxScale {
      ZoomAtSameScale(v, center);
    }
  }

  /**
   * With a factor of at least 1, `zoomOut` never raises the scale, keeps it in
   * range, and at the floor leaves the whole view as it was.
   */
  lemma ZoomOutBounded(v: View, center: Point, factor: real)
    requires InRange(v.scale) && factor >= 1.0
    ensures InRange(ZoomOutView(v, center, factor).scale)
    ensures ZoomOutView(v, center, factor).scale <= v.scale
    ensures v.scale == MinScale ==> ZoomOutView(v, center, factor) == v
  {
    ZoomOutScaleBounded(v.scale, factor);
    if v.scale == MinScale {
      ZoomAtSameScale(v, center);
    }
  }

  /** The scale after `n` successive `zoomIn(factor)` commands. */
  function RepeatScale(s: real, factor: real, n: nat): (r: real)
  {
    if n == 0 then s else ZoomInScale(RepeatScale(s, factor, n - 1), factor)
  }

  /** `n` successive `zoomIn(factor)` commands at the same centre. */
  function ZoomInRepeat(v: View, center: Point, factor: real, n: nat): (r: View)
    requires InRange(v.scale) && factor >= 1.0
    ensures InRange(r.scale) && v.scale <= r.scale
    ensures r.scale == RepeatScale(v.scale, factor, n)
    ensures ToWorld(r, center) == ToWorld(v, center)
    decreases n
  {
    if n == 0 then v
    else
      var prev := ZoomInRepeat(v, center, factor, n - 1);
      ZoomInBounded(prev, center, factor);
      ZoomInView(prev, center, factor)
  }

  /**
   * Each further `zoomIn` never lowers the scale, and once the ceiling is
   * reached further commands change nothing.
   */
  lemma ZoomInRepeatMonotone(v: View, center: Point, factor: real, n: nat)
    requires InRange(v.scale) && factor >= 1.0
    ensures ZoomInRepeat(v, center, factor, n).scale <= ZoomInRepeat(v, center, factor, n + 1).scale
    ensures ZoomInRepeat(v, center, factor, n).scale == MaxScale ==>
      ZoomInRepeat(v, center, factor, n + 1) == ZoomInRepeat(v, center, factor, n)
  {
    ZoomInBounded(ZoomInRepeat(v, center, factor, n), center, factor);
  }

  /** One `zoomIn` step of the growth bound below. */
  lemma GrowthStep(p: real, s: real, factor: real, d: real, before: real)
    requires 0.0 < s <= p && factor > 1.0 && d == s * (factor - 1.0)
    requires Min(MaxScale, before) <= p
    ensures ZoomInScale(p, factor) >= Min(MaxScale, before + d)
  {
    assert p * factor == p + p * (factor - 1.0);
    MulMono(s, p, factor - 1.0);
    assert p * factor >= p + d;
    if before <= MaxScale {
      assert before + d <= p * factor;
    } else {
      assert p * factor >= MaxScale;
    }
  }

  /**
   * Repeated `zoomIn` with a factor above 1 grows the scale by at least
   * d = scale * (factor - 1) per command until it meets the ceiling.
   */
  lemma {:induction false} RepeatScaleGrowth(s: real, factor: real, d: real, n: nat)
    requires InRange(s) && factor > 1.0 && d == s * (factor - 1.0)
    ensures RepeatScale(s, factor, n) >= Min(MaxScale, s + (n as real) * d)
  {
    if n > 0 {
      RepeatScaleGrowth(s, factor, d, n - 1);
      var m := (n - 1) as real;
      var p := RepeatScale(s, factor, n - 1);
      assert s <= p by {
        var v := View(s, Point(0.0, 0.0));
        assert p == ZoomInRepeat(v, v.translate, factor, n - 1).scale;
      }
      assert s + (n as real) * d == (s + m * d) + d by {
        assert (n as real) == m + 1.0;
        assert (m + 1.0) * d == m * d + d;
      }
      GrowthStep(p, s, factor, d, s + m * d);
    }
  }

  /**
   * Repeated `zoomIn` with a factor above 1 reaches the ceiling after
   * finitely many commands (and, by ZoomInBounded, stays there).
   */
  lemma ZoomInReachesCeiling(v: View, center: Point, factor: real)
    requires InRange(v.scale) && factor > 1.0
    ensures exists n: nat :: ZoomInRepeat(v, center, factor, n).scale == MaxScale
  {
    var s := v.scale;
    var d := s * (factor - 1.0);
    MulPos(s, factor - 1.0);
    var n := StepsToCover(MaxScale - s, d);
    RepeatScaleGrowth(s, factor, d, n);
    var r := ZoomInRepeat(v, center, factor, n);
    assert r.scale <= MaxScale && r.scale == RepeatScale(s, factor, n);
    assert r.scale == MaxScale;
  }

  /** Finitely many positive steps cover any distance. */
  lemma StepsToCover(gap: real, d: real) returns (n: nat)
    requires d > 0.0
    ensures (n as real) * d >= gap
  {
    var q := gap / d;
    assert q * d == gap;
    n := if q.Floor < 0 then 0 else q.Floor + 1;
    MulMono(q, n as real, d);
  }

  /**
   * Pointer-down in pan mode records `client - translate`: the pointer's
   * offset from the translation, which the pan then keeps.
   */
  function PanStart(client: Point, translate: Point): (offset: Point)
    ensures Sub(client, offset) == translate
  {
    Sub(client, translate)
  }

  /**
   * A pan move puts the translation at `client - panStart`, so the pointer
   * keeps the offset recorded at pointer-down.
   */
  function PanTo(panStart: Point, client: Point): (t: Point)
    ensures PanStart(client, t) == panStart
  {
    Sub(client, panStart)
  }

  /**
   * A pan moves the translation by exactly the pointer displacement since
   * pointer-down, however many moves came between.
   */
  lemma PanFollowsPointer(downClient: Point, downTranslate: Point, client: Point)
    ensures PanTo(PanStart(downClient, downTranslate), client)
         == Add(downTranslate, Sub(client, downClient))
  {
  }

  /** Panning shifts every drawn world point by the same screen displacement. */
  lemma PanShiftsPicture(v: View, downClient: Point, client: Point, w: Point)
    ensures ToScreen(View(v.scale, PanTo(PanStart(downClient, v.translate), client)), w)
         == Add(ToScreen(v, w), Sub(client, downClient))
  {
    var t := PanTo(PanStart(downClient, v.translate), client);
    assert t == Add(v.translate, Sub(client, downClient));
  }
}
