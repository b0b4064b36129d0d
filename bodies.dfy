/** The body record shared by the integrator, the driver, the import validator
    and the canvas, together with the mass-weighted sums used to state that a
    step conserves momentum. Floats are modelled as `real`: every fact proved
    here holds in exact arithmetic. */
module Bodies {

  /** A point mass: an id, a position, a velocity, a mass and a display colour
      that the physics never reads. */
  datatype Body = Body(id: int, x: real, y: real, vx: real, vy: real, mass: real, color: string)

  /** The seven fields a body record carries, in the order the import check lists them. */
  datatype Field = Id | X | Y | Vx | Vy | Mass | Color
  {
    /** The JavaScript property name of the field. */
    function Key(): string {
      match this
      case Id => "id"
      case X => "x"
      case Y => "y"
      case Vx => "vx"
      case Vy => "vy"
      case Mass => "mass"
      case Color => "color"
    }

    /** The five fields that hold a number. */
    predicate IsNumeric() {
      this in {X, Y, Vx, Vy, Mass}
    }
  }

  /** The numeric value of a numeric field. */
  function Get(b: Body, f: Field): real
    requires f.IsNumeric()
  {
    match f
    case X => b.x
    case Y => b.y
    case Vx => b.vx
    case Vy => b.vy
    case Mass => b.mass
  }

  /** The record with one numeric field replaced (the `{ ...body, [field]: v }` spread). */
  function With(b: Body, f: Field, v: real): (r: Body)
    requires f.IsNumeric()
    ensures Get(r, f) == v
    ensures forall g: Field :: g.IsNumeric() && g != f ==> Get(r, g) == Get(b, g)
    ensures r.id == b.id && r.color == b.color
  {
    match f
    case X => b.(x := v)
    case Y => b.(y := v)
    case Vx => b.(vx := v)
    case Vy => b.(vy := v)
    case Mass => b.(mass := v)
  }

  /** Division by a body's mass is defined: the source divides by it on every step. */
  predicate NonzeroMasses(bodies: seq<Body>) {
    forall k :: 0 <= k < |bodies| ==> bodies[k].mass != 0.0
  }

  /** `after` is `before` with only positions and velocities changed: same length,
      and every body keeps its id, mass and colour. */
  predicate Carried(before: seq<Body>, after: seq<Body>) {
    |after| == |before| &&
    forall k :: 0 <= k < |before| ==>
      after[k].id == before[k].id && after[k].mass == before[k].mass && after[k].color == before[k].color
  }

  lemma CarriedTransitive(a: seq<Body>, b: seq<Body>, c: seq<Body>)
    requires Carried(a, b) && Carried(b, c)
    ensures Carried(a, c)
  {
  }

  function Masses(bodies: seq<Body>): (r: seq<real>)
    ensures |r| == |bodies|
  {
    seq(|bodies|, k requires 0 <= k < |bodies| => bodies[k].mass)
  }

  /** The two coordinate axes of the plane. */
  datatype Axis = XAxis | YAxis

  /** A body's velocity component along an axis. */
  function Velocity(b: Body, axis: Axis): real {
    if axis == XAxis then b.vx else b.vy
  }

  function Velocities(bodies: seq<Body>, axis: Axis): (r: seq<real>)
    ensures |r| == |bodies|
  {
    seq(|bodies|, k requires 0 <= k < |bodies| => Velocity(bodies[k], axis))
  }

  /** A body's position component along an axis. */
  function Position(b: Body, axis: Axis): real {
    if axis == XAxis then b.x else b.y
  }

  function Positions(bodies: seq<Body>, axis: Axis): (r: seq<real>)
    ensures |r| == |bodies|
  {
    seq(|bodies|, k requires 0 <= k < |bodies| => Position(bodies[k], axis))
  }

  /** Total momentum along an axis: the sum of m·v. */
  function Momentum(bodies: seq<Body>, axis: Axis): real {
    Dot(Masses(bodies), Velocities(bodies, axis))
  }

  // ---------------------------------------------------------------------
  // Sums over sequences of reals

  function Sum(xs: seq<real>): real {
    if |xs| == 0 then 0.0 else xs[0] + Sum(xs[1..])
  }

  /** The weighted sum of ws[k]·xs[k]. */
  function Dot(ws: seq<real>, xs: seq<real>): real
    requires |ws| == |xs|
  {
    if |ws| == 0 then 0.0 else ws[0] * xs[0] + Dot(ws[1..], xs[1..])
  }

  /** The sequence of `n` zeros. */
  function Zeros(n: nat): (r: seq<real>)
    ensures |r| == n && forall k :: 0 <= k < n ==> r[k] == 0.0
  {
    seq(n, _ => 0.0)
  }

  lemma {:induction false} DotZeros(ws: seq<real>)
    ensures Dot(ws, Zeros(|ws|)) == 0.0
  {
    if |ws| > 0 {
      assert Zeros(|ws|)[1..] == Zeros(|ws| - 1);
      DotZeros(ws[1..]);
    }
  }

  lemma {:induction false} SumZeros(n: nat)
    ensures Sum(Zeros(n)) == 0.0
  {
    if n > 0 {
      assert Zeros(n)[1..] == Zeros(n - 1);
      SumZeros(n - 1);
    }
  }

  /** Replacing one entry changes the weighted sum by that entry's weighted difference. */
  lemma {:induction false} DotUpdate(ws: seq<real>, xs: seq<real>, k: nat, v: real)
    requires |ws| == |xs| && k < |xs|
    ensures Dot(ws, xs[k := v]) == Dot(ws, xs) + ws[k] * (v - xs[k])
  {
    if k == 0 {
      assert xs[k := v][1..] == xs[1..];
    } else {
      assert xs[k := v][1..] == xs[1..][k - 1 := v];
      DotUpdate(ws[1..], xs[1..], k - 1, v);
    }
  }

  /** Changes `di` and `dj`, weighted by `wi` and `wj`, cancel out. */
  predicate Cancels(wi: real, di: real, wj: real, dj: real) {
    wi * di + wj * dj == 0.0
  }

  /** Two entries changed so that their weighted changes cancel: the weighted sum is kept. */
  lemma PairUpdateDot(ws: seq<real>, xs: seq<real>, i: nat, j: nat, vi: real, vj: real)
    requires |ws| == |xs| && i < |xs| && j < |xs| && i != j
    requires Cancels(ws[i], vi - xs[i], ws[j], vj - xs[j])
    ensures Dot(ws, xs[i := vi][j := vj]) == Dot(ws, xs)
  {
    DotUpdate(ws, xs, i, vi);
    DotUpdate(ws, xs[i := vi], j, vj);
  }

  /** Replacing one entry changes the sum by the difference. */
  lemma {:induction false} SumUpdate(xs: seq<real>, k: nat, v: real)
    requires k < |xs|
    ensures Sum(xs[k := v]) == Sum(xs) + (v - xs[k])
  {
    if k == 0 {
      assert xs[k := v][1..] == xs[1..];
    } else {
      assert xs[k := v][1..] == xs[1..][k - 1 := v];
      SumUpdate(xs[1..], k - 1, v);
    }
  }

  /** Two entries changed so that their total is kept: the sum is kept. */
  lemma PairUpdateSum(xs: seq<real>, i: nat, j: nat, vi: real, vj: real)
    requires i < |xs| && j < |xs| && i != j
    requires vi + vj == xs[i] + xs[j]
    ensures Sum(xs[i := vi][j := vj]) == Sum(xs)
  {
    SumUpdate(xs, i, vi);
    SumUpdate(xs[i := vi], j, vj);
  }

  /** `zs` is `xs` moved by `c` along `ys`, entry by entry. */
  predicate Shifted(zs: seq<real>, xs: seq<real>, ys: seq<real>, c: real) {
    |zs| == |xs| == |ys| && forall k :: 0 <= k < |zs| ==> zs[k] == xs[k] + c * ys[k]
  }

  /** `zs` is `xs` plus `ys`, entry by entry. */
  predicate Added(zs: seq<real>, xs: seq<real>, ys: seq<real>) {
    |zs| == |xs| == |ys| && forall k :: 0 <= k < |zs| ==> zs[k] == xs[k] + ys[k]
  }

  /** `zs` is `ys` scaled by `c`, entry by entry. */
  predicate IsScaled(zs: seq<real>, ys: seq<real>, c: real) {
    |zs| == |ys| && forall k :: 0 <= k < |zs| ==> zs[k] == c * ys[k]
  }

  /** The weighted sum is additive in the weighted sequence. */
  lemma {:induction false} DotAdd(ws: seq<real>, xs: seq<real>, ys: seq<real>, zs: seq<real>)
    requires |ws| == |xs| && Added(zs, xs, ys)
    ensures Dot(ws, zs) == Dot(ws, xs) + Dot(ws, ys)
  {
    if |ws| > 0 {
      assert Added(zs[1..], xs[1..], ys[1..]) by {
        forall k | 0 <= k < |zs| - 1
          ensures zs[1..][k] == xs[1..][k] + ys[1..][k]
        {
          assert zs[1..][k] == zs[k + 1] && xs[1..][k] == xs[k + 1] && ys[1..][k] == ys[k + 1];
        }
      }
      DotAdd(ws[1..], xs[1..], ys[1..], zs[1..]);
      assert ws[0] * zs[0] == ws[0] * xs[0] + ws[0] * ys[0];
    }
  }

  /** The weighted sum is homogeneous in the weighted sequence. */
  lemma {:induction false} DotScale(ws: seq<real>, ys: seq<real>, zs: seq<real>, c: real)
    requires |ws| == |ys| && IsScaled(zs, ys, c)
    ensures Dot(ws, zs) == c * Dot(ws, ys)
  {
    if |ws| > 0 {
      assert IsScaled(zs[1..], ys[1..], c) by {
        forall k | 0 <= k < |zs| - 1
          ensures zs[1..][k] == c * ys[1..][k]
        {
          assert zs[1..][k] == zs[k + 1] && ys[1..][k] == ys[k + 1];
        }
      }
      DotScale(ws[1..], ys[1..], zs[1..], c);
      ScaleStep(ws[0], ys[0], zs[0], c, Dot(ws[1..], ys[1..]), Dot(ws[1..], zs[1..]), Dot(ws, ys), Dot(ws, zs));
    }
  }

  /** One term of `DotScale`'s induction, as plain arithmetic. */
  lemma ScaleStep(w: real, y: real, z: real, c: real, d: real, e: real, total: real, scaled: real)
    requires z == c * y && e == c * d && total == w * y + d && scaled == w * z + e
    ensures scaled == c * total
  {
  }

  /** The weighted sum is linear: moving by `c` along `ys` moves the weighted
      sum by `c` times the weighted sum of `ys`. */
  lemma DotAffine(ws: seq<real>, xs: seq<real>, ys: seq<real>, zs: seq<real>, c: real)
    requires |ws| == |xs| && Shifted(zs, xs, ys, c)
    ensures Dot(ws, zs) == Dot(ws, xs) + c * Dot(ws, ys)
  {
    var ss := Scale(c, ys);
    ShiftedIsAdded(zs, xs, ys, c);
    DotScale(ws, ys, ss, c);
    DotAdd(ws, xs, ss, zs);
  }

  /** Every entry of `ys` multiplied by `c`. */
  function Scale(c: real, ys: seq<real>): (r: seq<real>)
    ensures IsScaled(r, ys, c)
  {
    seq(|ys|, k requires 0 <= k < |ys| => c * ys[k])
  }

  /** A shift by `c` along `ys` adds `ys` scaled by `c`. */
  lemma ShiftedIsAdded(zs: seq<real>, xs: seq<real>, ys: seq<real>, c: real)
    requires Shifted(zs, xs, ys, c)
    ensures Added(zs, xs, Scale(c, ys))
  {
    var ss := Scale(c, ys);
    forall k | 0 <= k < |zs|
      ensures zs[k] == xs[k] + ss[k]
    {
      var t := c * ys[k];
      assert zs[k] == xs[k] + t;
      assert ss[k] == t;
    }
  }

  /** The pointwise quotients fs[k] / ws[k]. */
  function Quotients(fs: seq<real>, ws: seq<real>): (r: seq<real>)
    requires |fs| == |ws| && forall k :: 0 <= k < |ws| ==> ws[k] != 0.0
    ensures |r| == |fs|
  {
    seq(|fs|, k requires 0 <= k < |fs| => fs[k] / ws[k])
  }

  /** Weighting `fs[k] / ws[k]` by `ws[k]` gives back the plain sum of `fs`. */
  lemma {:induction false} DotQuotient(ws: seq<real>, fs: seq<real>)
    requires |fs| == |ws| && forall k :: 0 <= k < |ws| ==> ws[k] != 0.0
    ensures Dot(ws, Quotients(fs, ws)) == Sum(fs)
  {
    if |ws| > 0 {
      assert Quotients(fs, ws)[1..] == Quotients(fs[1..], ws[1..]);
      DotQuotient(ws[1..], fs[1..]);
    }
  }
}
