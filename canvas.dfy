/** The non-drawing state of `src/Canvas.js`: one bounded trail of past
    positions per body, and the viewport (scale and offset) that eases
    towards a target framing the bodies and their trails.

    The trails live in an array indexed like the bodies. The render effect
    visits the bodies in index order and creates a missing trail before
    pushing to it, so the array never has holes; it is modelled as a sequence
    whose missing entries are the indices at or past its end. */
module CanvasView {
  import opened Bodies

  /** The canvas element's size in pixels. */
  const Width: real := 600.0
  const Height: real := 400.0
  /** The smallest extent of the framed box on each axis. */
  const MinRange: real := 50.0
  /** Extra room on each side of the box, as a fraction of its extent. */
  const Padding: real := 0.2
  const MinScale: real := 0.01
  const MaxScale: real := 5.0
  /** The fraction of the way to the target that the viewport moves per render. */
  const SmoothFactor: real := 0.2

  datatype Point = Point(x: real, y: real)

  function PositionOf(b: Body): Point {
    Point(b.x, b.y)
  }

  // ---------------------------------------------------------------------
  // Trails

  /** One trail after `push(p)` and, when it is then longer than the limit,
      one `shift()`. */
  function PushPoint(trail: seq<Point>, p: Point, limit: real): (r: seq<Point>)
    // what is kept is a suffix of the old trail followed by the new point
    ensures |r| <= |trail| + 1 && r == (trail + [p])[|trail| + 1 - |r|..]
    // exactly one point is dropped, and only when the trail is over the limit
    ensures |r| == |trail| <==> (|trail| + 1) as real > limit
    ensures |r| == |trail| + 1 <==> (|trail| + 1) as real <= limit
    // a trail within the limit stays within it
    ensures |trail| as real <= limit ==> |r| as real <= limit
    // with room for at least one point, the newest point is the body's position
    ensures limit >= 1.0 ==> |r| > 0 && r[|r| - 1] == p
  {
    var pushed := trail + [p];
    if |pushed| as real > limit then pushed[1..] else pushed
  }

  /** The trail at an index, or the empty trail the update would create there. */
  function TrailAt(trails: seq<seq<Point>>, k: nat): seq<Point> {
    if k < |trails| then trails[k] else []
  }

  /** Trails 0 .. i-1 are those of `start` with body k's position pushed. */
  predicate PushedUpTo(trails: seq<seq<Point>>, start: seq<seq<Point>>, bodies: seq<Body>, i: nat, limit: real)
    requires i <= |trails| && i <= |bodies|
  {
    forall k :: 0 <= k < i ==> trails[k] == PushPoint(TrailAt(start, k), PositionOf(bodies[k]), limit)
  }

  /** Trails from index i on are those of `start`. */
  predicate KeptFrom(trails: seq<seq<Point>>, start: seq<seq<Point>>, i: nat)
    requires |trails| <= |start| || |trails| <= i
  {
    forall k :: i <= k < |trails| ==> trails[k] == start[k]
  }

  /** Pushing a sequence of points one after another. */
  function PushAll(trail: seq<Point>, ps: seq<Point>, limit: real): seq<Point>
    decreases |ps|
  {
    if |ps| == 0 then trail else PushAll(PushPoint(trail, ps[0], limit), ps[1..], limit)
  }

  /** The last `n` elements of `s`, or all of it if it is shorter. */
  function Last(s: seq<Point>, n: nat): (r: seq<Point>)
    ensures |r| <= n
  {
    if |s| <= n then s else s[|s| - n..]
  }

  lemma LastAppend(s: seq<Point>, t: seq<Point>, n: nat)
    ensures Last(Last(s, n) + t, n) == Last(s + t, n)
  {
    if |s| > n {
      var u := s[|s| - n..];
      assert (s + t)[|s| - n..] == u + t;
      if |u + t| > n {
        assert (s + t)[|s + t| - n..] == (u + t)[|u + t| - n..];
      }
    }
  }

  /** One push onto a trail within a whole-number limit keeps the last n points. */
  lemma PushPointIsWindow(trail: seq<Point>, p: Point, n: nat)
    requires |trail| <= n
    ensures PushPoint(trail, p, n as real) == Last(trail + [p], n)
  {
  }

  /** With a whole-number limit n, a trail that starts within it is a FIFO
      window: after any pushes it holds exactly the last n points, in order. */
  lemma {:induction false} PushAllIsWindow(trail: seq<Point>, ps: seq<Point>, n: nat)
    requires |trail| <= n
    ensures PushAll(trail, ps, n as real) == Last(trail + ps, n)
    decreases |ps|
  {
    if |ps| > 0 {
      var next := PushPoint(trail, ps[0], n as real);
      PushAllIsWindow(next, ps[1..], n);
      WindowStep(trail, ps[0], ps[1..], n);
      assert [ps[0]] + ps[1..] == ps;
    }
  }

  /** The window after one push, followed by more points, is the window of
      everything. */
  lemma WindowStep(trail: seq<Point>, p: Point, rest: seq<Point>, n: nat)
    requires |trail| <= n
    ensures Last(PushPoint(trail, p, n as real) + rest, n) == Last(trail + ([p] + rest), n)
  {
    PushPointIsWindow(trail, p, n);
    LastAppend(trail + [p], rest, n);
    assert trail + [p] + rest == trail + ([p] + rest);
  }

  // ---------------------------------------------------------------------
  // Viewport

  /** Every body's position followed by every trail's points, trail by trail. */
  function AllPoints(bodies: seq<Body>, trails: seq<seq<Point>>): (r: seq<Point>)
    ensures |r| >= |bodies|
    ensures forall k :: 0 <= k < |bodies| ==> r[k] == PositionOf(bodies[k])
  {
    seq(|bodies|, k requires 0 <= k < |bodies| => PositionOf(bodies[k])) + Concat(trails)
  }

  function Concat(trails: seq<seq<Point>>): seq<Point> {
    if |trails| == 0 then [] else trails[0] + Concat(trails[1..])
  }

  /** Every trail point is one of the concatenated points. */
  lemma {:induction false} ConcatHas(trails: seq<seq<Point>>, k: nat, j: nat)
    requires k < |trails| && j < |trails[k]|
    ensures trails[k][j] in Concat(trails)
  {
    if k > 0 {
      ConcatHas(trails[1..], k - 1, j);
    }
  }

  /** Every trail point is one of the points the box is computed over. */
  lemma AllPointsHasTrail(bodies: seq<Body>, trails: seq<seq<Point>>, k: nat, j: nat)
    requires k < |trails| && j < |trails[k]|
    ensures trails[k][j] in AllPoints(bodies, trails)
  {
    ConcatHas(trails, k, j);
  }

  /** The box `updateViewport` computes holds every body's position and every
      point of every trail. */
  lemma BoxHoldsBodiesAndTrails(bodies: seq<Body>, trails: seq<seq<Point>>)
    requires |bodies| > 0
    ensures forall k :: 0 <= k < |bodies| ==>
      InBox(BoundingBox(AllPoints(bodies, trails)), PositionOf(bodies[k]))
    ensures forall k, j :: 0 <= k < |trails| && 0 <= j < |trails[k]| ==>
      InBox(BoundingBox(AllPoints(bodies, trails)), trails[k][j])
  {
    var points := AllPoints(bodies, trails);
    forall k | 0 <= k < |bodies|
      ensures PositionOf(bodies[k]) in points
    {
      assert points[k] == PositionOf(bodies[k]);
    }
    forall k, j | 0 <= k < |trails| && 0 <= j < |trails[k]|
      ensures trails[k][j] in points
    {
      AllPointsHasTrail(bodies, trails, k, j);
    }
  }

  function Min(a: real, b: real): real { if a <= b then a else b }
  function Max(a: real, b: real): real { if a >= b then a else b }

  /** `Math.min(...xs)` for a non-empty list. */
  function MinOf(xs: seq<real>): (r: real)
    requires |xs| > 0
    ensures forall k :: 0 <= k < |xs| ==> r <= xs[k]
    ensures r in xs
  {
    if |xs| == 1 then xs[0] else Min(xs[0], MinOf(xs[1..]))
  }

  /** `Math.max(...xs)` for a non-empty list. */
  function MaxOf(xs: seq<real>): (r: real)
    requires |xs| > 0
    ensures forall k :: 0 <= k < |xs| ==> xs[k] <= r
    ensures r in xs
  {
    if |xs| == 1 then xs[0] else Max(xs[0], MaxOf(xs[1..]))
  }

  function Xs(points: seq<Point>): (r: seq<real>)
    ensures |r| == |points|
  {
    seq(|points|, k requires 0 <= k < |points| => points[k].x)
  }

  function Ys(points: seq<Point>): (r: seq<real>)
    ensures |r| == |points|
  {
    seq(|points|, k requires 0 <= k < |points| => points[k].y)
  }

  datatype Box = Box(minX: real, maxX: real, minY: real, maxY: real)

  predicate InBox(b: Box, p: Point) {
    b.minX <= p.x <= b.maxX && b.minY <= p.y <= b.maxY
  }

  /** The smallest box holding every point, with each side touching one. */
  function BoundingBox(points: seq<Point>): (b: Box)
    requires |points| > 0
    ensures forall p :: p in points ==> InBox(b, p)
    ensures b.minX in Xs(points) && b.maxX in Xs(points) && b.minY in Ys(points) && b.maxY in Ys(points)
  {
    var xs, ys := Xs(points), Ys(points);
    assert forall k :: 0 <= k < |points| ==> xs[k] == points[k].x && ys[k] == points[k].y;
    assert forall p :: p in points ==> p.x in xs && p.y in ys;
    Box(MinOf(xs), MaxOf(xs), MinOf(ys), MaxOf(ys))
  }

  /** The extent on one axis, never below `MinRange`. */
  function Range(lo: real, hi: real): (r: real)
    ensures r >= MinRange && r >= hi - lo
    ensures r == hi - lo || r == MinRange
  {
    Max(hi - lo, MinRange)
  }

  /** The scale at which an extent of `range`, padded on both sides, spans `size` pixels. */
  function FitFor(range: real, size: real): real
    requires range > 0.0
  {
    size / (range * (1.0 + 2.0 * Padding))
  }

  /** The offset that puts the midpoint of [lo, hi] in the middle of `size`
      pixels at scale `s`. */
  function CentreOffset(lo: real, hi: real, s: real, size: real): real
    requires s > 0.0
  {
    (size / s) / 2.0 - (lo + hi) / 2.0
  }

  /** The scale that fits the padded extents in the canvas, clamped to
      [MinScale, MaxScale]. */
  function FitScale(rangeX: real, rangeY: real): (s: real)
    requires rangeX > 0.0 && rangeY > 0.0
    ensures MinScale <= s <= MaxScale
    ensures s == MinScale || s <= FitFor(rangeX, Width)
    ensures s == MinScale || s <= FitFor(rangeY, Height)
  {
    var scaleX := FitFor(rangeX, Width);
    var scaleY := FitFor(rangeY, Height);
    Max(MinScale, Min(Min(scaleX, scaleY), MaxScale))
  }

  datatype Viewport = Viewport(scale: real, offsetX: real, offsetY: real)

  /** The framing of a box: the scale that fits its padded extent, and the
      offsets that put its centre in the middle of the canvas. */
  function Frame(b: Box): (v: Viewport)
    ensures MinScale <= v.scale <= MaxScale
  {
    var s := FitScale(Range(b.minX, b.maxX), Range(b.minY, b.maxY));
    Viewport(s, CentreOffset(b.minX, b.maxX, s, Width), CentreOffset(b.minY, b.maxY, s, Height))
  }

  /** The framing `updateViewport` aims for. */
  function Target(points: seq<Point>): Viewport
    requires |points| > 0
  {
    Frame(BoundingBox(points))
  }

  /** One step of the easing: a fifth of the way from `current` to `target`. */
  function Smooth(current: real, target: real): real {
    current + (target - current) * SmoothFactor
  }

  /** The easing applied to the scale and both offsets. */
  function Ease(current: Viewport, target: Viewport): Viewport {
    Viewport(Smooth(current.scale, target.scale), Smooth(current.offsetX, target.offsetX),
      Smooth(current.offsetY, target.offsetY))
  }

  /** Easing never overshoots and closes a fifth of the remaining gap. */
  lemma SmoothApproaches(current: real, target: real)
    ensures Min(current, target) <= Smooth(current, target) <= Max(current, target)
    ensures target - Smooth(current, target) == (target - current) * (1.0 - SmoothFactor)
  {
  }

  /** Easing keeps the scale within [MinScale, MaxScale] once it is there,
      because every target scale is. */
  lemma EaseKeepsScale(current: Viewport, points: seq<Point>)
    requires |points| > 0
    requires MinScale <= current.scale <= MaxScale
    ensures MinScale <= Ease(current, Target(points)).scale <= MaxScale
  {
    SmoothApproaches(current.scale, Target(points).scale);
  }

  /** A coordinate between `lo` and `hi`, taken relative to their midpoint and
      scaled by a factor that fits the padded extent into `size`, lands
      inside [0, size] once shifted by half the size. */
  lemma CentredFits(lo: real, hi: real, p: real, s: real, size: real)
    requires lo <= p <= hi && 0.0 < s && 0.0 < size
    requires s <= FitFor(Range(lo, hi), size)
    ensures 0.0 <= (p - (lo + hi) / 2.0) * s + size / 2.0 <= size
  {
    var range := Range(lo, hi);
    var half := (hi - lo) / 2.0;
    var d := p - (lo + hi) / 2.0;
    assert -half <= d <= half;
    assert s * range <= size / (1.0 + 2.0 * Padding) by {
      assert (size / (range * (1.0 + 2.0 * Padding))) * range == size / (1.0 + 2.0 * Padding);
    }
    assert half * s <= range * s / 2.0;
    assert size / (1.0 + 2.0 * Padding) <= size;
    var hs, ds := half * s, d * s;
    assert hs <= size / 2.0;
    assert -hs <= ds <= hs by {
      MulNonneg(half - d, s);
      MulNonneg(half + d, s);
      assert (half - d) * s == hs - ds && (half + d) * s == hs + ds;
    }
    assert (p - (lo + hi) / 2.0) * s == ds;
  }

  /** The product of two non-negative reals is non-negative. */
  lemma MulNonneg(a: real, b: real)
    requires 0.0 <= a && 0.0 <= b
    ensures 0.0 <= a * b
  {
  }

  /** Shifting by the offset `(size / s) / 2 - c` and scaling by `s` is
      scaling the distance from `c` and adding half the size. */
  lemma ShiftScale(p: real, c: real, s: real, size: real)
    requires s > 0.0
    ensures (p + ((size / s) / 2.0 - c)) * s == (p - c) * s + size / 2.0
  {
    var q := size / s;
    assert q * s == size;
    calc {
      (p + (q / 2.0 - c)) * s;
      (p - c) * s + (q * s) / 2.0;
    }
  }

  /** A world point drawn through a viewport lands on the canvas. */
  predicate OnScreen(v: Viewport, p: Point) {
    Shown(p.x, v.offsetX, v.scale, Width) && Shown(p.y, v.offsetY, v.scale, Height)
  }

  /** A coordinate, shifted by `offset` and scaled by `s`, lies in [0, size]. */
  predicate Shown(coord: real, offset: real, s: real, size: real) {
    0.0 <= (coord + offset) * s <= size
  }

  /** Unless its scale is clamped at the minimum, the framing of a box shows
      every point of the box inside [0, Width] × [0, Height] on screen. */
  lemma FrameShowsBox(b: Box, p: Point)
    requires InBox(b, p)
    requires Frame(b).scale > MinScale
    ensures OnScreen(Frame(b), p)
  {
    var v := Frame(b);
    AxisShown(b.minX, b.maxX, p.x, v.scale, Width, v.offsetX);
    AxisShown(b.minY, b.maxY, p.y, v.scale, Height, v.offsetY);
  }

  /** `FrameShowsBox` along one axis. */
  lemma AxisShown(lo: real, hi: real, p: real, s: real, size: real, offset: real)
    requires lo <= p <= hi && 0.0 < s && 0.0 < size
    requires s <= FitFor(Range(lo, hi), size)
    requires offset == CentreOffset(lo, hi, s, size)
    ensures Shown(p, offset, s, size)
  {
    CentredFits(lo, hi, p, s, size);
    ShiftScale(p, (lo + hi) / 2.0, s, size);
  }

  /** Unless the scale was clamped at its minimum, the target viewport shows
      every point it was computed from. */
  lemma TargetShowsAll(points: seq<Point>, k: nat)
    requires k < |points|
    requires Target(points).scale > MinScale
    ensures OnScreen(Target(points), points[k])
  {
    var b := BoundingBox(points);
    assert Target(points) == Frame(b);
    assert points[k] in points;
    FrameShowsBox(b, points[k]);
  }

  // ---------------------------------------------------------------------
  // The component's refs

  class Canvas {
    /** `trailsRef`: one trail per body index. */
    var trails: seq<seq<Point>>
    /** The parts of `viewportRef` that `updateViewport` changes. */
    var view: Viewport

    constructor()
      ensures trails == [] && view == Viewport(1.0, 0.0, 0.0)
    {
      trails := [];
      view := Viewport(1.0, 0.0, 0.0);
    }

    /** `updateTrails`: for each body in order, create its trail if missing,
        push its position and trim the oldest point if over the limit. */
    method UpdateTrails(bodies: seq<Body>, limit: real)
      modifies this`trails
      ensures |trails| == if |bodies| > |old(trails)| then |bodies| else |old(trails)|
      ensures forall k :: 0 <= k < |bodies| ==>
        trails[k] == PushPoint(TrailAt(old(trails), k), PositionOf(bodies[k]), limit)
      ensures forall k :: |bodies| <= k < |old(trails)| ==> trails[k] == old(trails)[k]
    {
      ghost var start := trails;
      var i := 0;
      while i < |bodies|
        invariant 0 <= i <= |bodies|
        invariant |trails| == if i > |start| then i else |start|
        invariant PushedUpTo(trails, start, bodies, i, limit)
        invariant KeptFrom(trails, start, i)
      {
        PushTrail(start, bodies, i, limit);
        i := i + 1;
      }
    }

    /** One step of `updateTrails`: create trail i if it is missing, push
        body i's position and trim the oldest point if over the limit. */
    method PushTrail(ghost start: seq<seq<Point>>, bodies: seq<Body>, i: nat, limit: real)
      requires i < |bodies| && |trails| == if i > |start| then i else |start|
      requires PushedUpTo(trails, start, bodies, i, limit) && KeptFrom(trails, start, i)
      modifies this`trails
      ensures |trails| == if i + 1 > |start| then i + 1 else |start|
      ensures PushedUpTo(trails, start, bodies, i + 1, limit) && KeptFrom(trails, start, i + 1)
    {
      ghost var before := trails;
      if i == |trails| {
        trails := trails + [[]];
      }
      assert trails[i] == TrailAt(start, i);
      trails := trails[i := PushPoint(trails[i], PositionOf(bodies[i]), limit)];
      assert forall k :: 0 <= k < i ==> trails[k] == before[k];
    }

    /** `updateViewport`: nothing for an empty list; otherwise ease the scale
        and offsets towards the target framing the bodies and the trails. */
    method UpdateViewport(bodies: seq<Body>)
      modifies this`view
      ensures view == if |bodies| == 0 then old(view) else Ease(old(view), Target(AllPoints(bodies, trails)))
    {
      if |bodies| == 0 {
        return;
      }
      var target := Target(AllPoints(bodies, trails));
      var smoothed := Viewport(
        view.scale + (target.scale - view.scale) * SmoothFactor,
        view.offsetX + (target.offsetX - view.offsetX) * SmoothFactor,
        view.offsetY + (target.offsetY - view.offsetY) * SmoothFactor);
      view := smoothed;
    }

    /** The render effect's non-drawing steps, in order: the viewport is
        computed from the trails as they were, then the trails are extended. */
    method Render(bodies: seq<Body>, limit: real)
      modifies this
      ensures view == if |bodies| == 0 then old(view) else Ease(old(view), Target(AllPoints(bodies, old(trails))))
      ensures |trails| == if |bodies| > |old(trails)| then |bodies| else |old(trails)|
      ensures forall k :: 0 <= k < |bodies| ==>
        trails[k] == PushPoint(TrailAt(old(trails), k), PositionOf(bodies[k]), limit)
      ensures forall k :: |bodies| <= k < |old(trails)| ==> trails[k] == old(trails)[k]
    {
      UpdateViewport(bodies);
      UpdateTrails(bodies, limit);
    }

    /** The "Clear Trails" button. */
    method ClearTrails()
      modifies this`trails
      ensures trails == []
    {
      trails := [];
    }

    /** The effect on a new `clearTrails` value: a non-zero counter clears. */
    method OnClearTrailsChange(trigger: int)
      modifies this`trails
      ensures trails == if trigger != 0 then [] else old(trails)
    {
      if trigger != 0 {
        trails := [];
      }
    }
  }
}
