/** The RK4 integrator class of `src/PhysicsEngine.js`: pairwise Newtonian
    accelerations, the state derivative, the shifted state `addK`, one classical
    Runge–Kutta step, and a `step` that runs five of them and counts them.

    `Math.sqrt` is a foreign call: the engine takes it as the constant `sqrt`,
    about which nothing is assumed, so every property below holds whatever
    square root the platform supplies. */
module PhysicsEngine {
  import opened Bodies

  /** Gravitational constant in the unit convention of the figure-eight orbit. */
  const G: real := 1.0
  /** Base time step; the effective step is `BaseDt * timeSpeed`. */
  const BaseDt: real := 0.001
  /** Pairs closer than this are skipped. */
  const MinDistance: real := 1.0e-10
  /** Number of RK4 sub-steps one `step` call performs. */
  const SubSteps: nat := 5

  datatype Accel = Accel(ax: real, ay: real)

  /** One entry of the state derivative: a body's velocity and its acceleration. */
  datatype Derivative = Derivative(vx: real, vy: real, ax: real, ay: real)

  function AXs(acc: seq<Accel>): (r: seq<real>)
    ensures |r| == |acc|
  {
    seq(|acc|, k requires 0 <= k < |acc| => acc[k].ax)
  }

  function AYs(acc: seq<Accel>): (r: seq<real>)
    ensures |r| == |acc|
  {
    seq(|acc|, k requires 0 <= k < |acc| => acc[k].ay)
  }

  /** Distance between two bodies as the source computes it. */
  function Distance(sqrt: real -> real, bi: Body, bj: Body): real {
    var dx := bj.x - bi.x;
    var dy := bj.y - bi.y;
    sqrt(dx * dx + dy * dy)
  }

  /** The force (fx, fy) that body j exerts on body i, for a pair that is not skipped. */
  function PairForce(sqrt: real -> real, bi: Body, bj: Body): (real, real)
    requires Distance(sqrt, bi, bj) >= MinDistance
  {
    var dx := bj.x - bi.x;
    var dy := bj.y - bi.y;
    var r := Distance(sqrt, bi, bj);
    var force := G * bi.mass * bj.mass / (r * r);
    (force * dx / r, force * dy / r)
  }

  /** The effect of the pair (i, j) on the running accelerations, as one pass of
      the inner loop applies it: nothing when the bodies are closer than
      `MinDistance`, otherwise +F/m_i on body i and −F/m_j on body j. */
  function ApplyPair(sqrt: real -> real, bodies: seq<Body>, acc: seq<Accel>, i: nat, j: nat): (r: seq<Accel>)
    requires |acc| == |bodies| && i < j < |bodies|
    requires bodies[i].mass != 0.0 && bodies[j].mass != 0.0
    ensures |r| == |acc|
    ensures forall k :: 0 <= k < |acc| && k != i && k != j ==> r[k] == acc[k]
    ensures Distance(sqrt, bodies[i], bodies[j]) < MinDistance ==> r == acc
    // Newton's third law: the mass-weighted changes to i and j cancel
    ensures Cancels(bodies[i].mass, r[i].ax - acc[i].ax, bodies[j].mass, r[j].ax - acc[j].ax)
    ensures Cancels(bodies[i].mass, r[i].ay - acc[i].ay, bodies[j].mass, r[j].ay - acc[j].ay)
  {
    if Distance(sqrt, bodies[i], bodies[j]) < MinDistance then acc
    else
      var (fx, fy) := PairForce(sqrt, bodies[i], bodies[j]);
      acc[i := Accel(acc[i].ax + fx / bodies[i].mass, acc[i].ay + fy / bodies[i].mass)]
         [j := Accel(acc[j].ax - fx / bodies[j].mass, acc[j].ay - fy / bodies[j].mass)]
  }

  /** The accelerations after the inner loop of row `i` has visited the pairs
      (i, i+1) .. (i, j−1), starting from `acc`. */
  function Row(sqrt: real -> real, bodies: seq<Body>, acc: seq<Accel>, i: nat, j: nat): (r: seq<Accel>)
    requires |acc| == |bodies| && j <= |bodies| && NonzeroMasses(bodies)
    ensures |r| == |acc|
    decreases j
  {
    if j <= i + 1 then acc
    else ApplyPair(sqrt, bodies, Row(sqrt, bodies, acc, i, j - 1), i, j - 1)
  }

  /** The accelerations after the outer loop has finished rows 0 .. i−1,
      starting from one zero entry per body. */
  function Rows(sqrt: real -> real, bodies: seq<Body>, i: nat): (r: seq<Accel>)
    requires i <= |bodies| && NonzeroMasses(bodies)
    ensures |r| == |bodies|
  {
    if i == 0 then seq(|bodies|, _ => Accel(0.0, 0.0))
    else Row(sqrt, bodies, Rows(sqrt, bodies, i - 1), i - 1, |bodies|)
  }

  /** What `calculateAccelerations` returns: every unordered pair visited once. */
  function Accelerations(sqrt: real -> real, bodies: seq<Body>): (r: seq<Accel>)
    requires NonzeroMasses(bodies)
    ensures |r| == |bodies|
  {
    Rows(sqrt, bodies, |bodies|)
  }

  /** Velocities pass through; accelerations come from `Accelerations` at the same index. */
  function Derivatives(sqrt: real -> real, bodies: seq<Body>): (d: seq<Derivative>)
    requires NonzeroMasses(bodies)
    ensures |d| == |bodies|
    ensures forall k :: 0 <= k < |bodies| ==> d[k].vx == bodies[k].vx && d[k].vy == bodies[k].vy
    ensures forall k :: 0 <= k < |bodies| ==>
      d[k].ax == Accelerations(sqrt, bodies)[k].ax && d[k].ay == Accelerations(sqrt, bodies)[k].ay
  {
    var acc := Accelerations(sqrt, bodies);
    seq(|bodies|, k requires 0 <= k < |bodies| =>
      Derivative(bodies[k].vx, bodies[k].vy, acc[k].ax, acc[k].ay))
  }

  /** The bodies shifted by `h` times the derivative `k` (a fresh list). */
  function AddK(bodies: seq<Body>, k: seq<Derivative>, h: real): (r: seq<Body>)
    requires |k| == |bodies|
    ensures Carried(bodies, r)
    ensures h == 0.0 ==> r == bodies
  {
    seq(|bodies|, n requires 0 <= n < |bodies| =>
      bodies[n].(x := bodies[n].x + h * k[n].vx,
                 y := bodies[n].y + h * k[n].vy,
                 vx := bodies[n].vx + h * k[n].ax,
                 vy := bodies[n].vy + h * k[n].ay))
  }

  /** The RK4 combination k1 + 2·k2 + 2·k3 + k4 of one component. */
  function Combine(a1: real, a2: real, a3: real, a4: real): real {
    a1 + 2.0 * a2 + 2.0 * a3 + a4
  }

  /** The four RK4 slopes combined component by component. */
  function CombineK(k1: seq<Derivative>, k2: seq<Derivative>, k3: seq<Derivative>, k4: seq<Derivative>): (r: seq<Derivative>)
    requires |k1| == |k2| == |k3| == |k4|
    ensures |r| == |k1|
  {
    seq(|k1|, n requires 0 <= n < |k1| =>
      Derivative(Combine(k1[n].vx, k2[n].vx, k3[n].vx, k4[n].vx),
                 Combine(k1[n].vy, k2[n].vy, k3[n].vy, k4[n].vy),
                 Combine(k1[n].ax, k2[n].ax, k3[n].ax, k4[n].ax),
                 Combine(k1[n].ay, k2[n].ay, k3[n].ay, k4[n].ay)))
  }

  /** The combined slope k1 + 2·k2 + 2·k3 + k4 of an RK4 step of length `dt`:
      k1 at the start, k2 and k3 at half steps along k1 and k2, k4 at a full
      step along k3. */
  function RK4Slope(sqrt: real -> real, bodies: seq<Body>, dt: real): (r: seq<Derivative>)
    requires NonzeroMasses(bodies)
    ensures |r| == |bodies|
  {
    var k1 := Derivatives(sqrt, bodies);
    var k2 := Stage(sqrt, bodies, k1, dt / 2.0);
    var k3 := Stage(sqrt, bodies, k2, dt / 2.0);
    var k4 := Stage(sqrt, bodies, k3, dt);
    CombineK(k1, k2, k3, k4)
  }

  /** One classical Runge–Kutta step with dt = BaseDt · timeSpeed: every
      position and velocity moves by dt/6 times its combined slope. */
  function UpdateBodiesRK4(sqrt: real -> real, bodies: seq<Body>, timeSpeed: real): (r: seq<Body>)
    requires NonzeroMasses(bodies)
    ensures Carried(bodies, r)
    ensures NonzeroMasses(r)
    ensures timeSpeed == 0.0 ==> r == bodies
  {
    var dt := BaseDt * timeSpeed;
    var k := RK4Slope(sqrt, bodies, dt);
    seq(|bodies|, n requires 0 <= n < |bodies| =>
      bodies[n].(x := bodies[n].x + (dt / 6.0) * k[n].vx,
                 y := bodies[n].y + (dt / 6.0) * k[n].vy,
                 vx := bodies[n].vx + (dt / 6.0) * k[n].ax,
                 vy := bodies[n].vy + (dt / 6.0) * k[n].ay))
  }

  /** `n` RK4 steps applied in sequence. */
  function Steps(sqrt: real -> real, bodies: seq<Body>, timeSpeed: real, n: nat): (r: seq<Body>)
    requires NonzeroMasses(bodies)
    ensures NonzeroMasses(r)
    decreases n
  {
    if n == 0 then bodies
    else Steps(sqrt, UpdateBodiesRK4(sqrt, bodies, timeSpeed), timeSpeed, n - 1)
  }

  class Engine {
    const sqrt: real -> real
    /** Number of RK4 sub-steps taken since construction or the last reset. */
    var iterations: nat

    constructor(sqrt: real -> real)
      ensures this.sqrt == sqrt && iterations == 0
    {
      this.sqrt := sqrt;
      iterations := 0;
    }

    /** The nested loops over pairs i < j, accumulating into a fresh array. */
    method CalculateAccelerations(bodies: seq<Body>) returns (acc: seq<Accel>)
      requires NonzeroMasses(bodies)
      ensures acc == Accelerations(sqrt, bodies)
    {
      var n := |bodies|;
      var a := new Accel[n](_ => Accel(0.0, 0.0));
      assert a[..] == Rows(sqrt, bodies, 0);
      var i := 0;
      while i < n
        invariant 0 <= i <= n
        invariant a[..] == Rows(sqrt, bodies, i)
      {
        AccumulateRow(a, bodies, i);
        i := i + 1;
      }
      acc := a[..];
    }

    /** The inner loop for row `i`: every pair (i, j) with j > i, in order of j. */
    method AccumulateRow(a: array<Accel>, bodies: seq<Body>, i: nat)
      requires a.Length == |bodies| && i < |bodies| && NonzeroMasses(bodies)
      modifies a
      ensures a[..] == Row(sqrt, bodies, old(a[..]), i, |bodies|)
    {
      ghost var start := a[..];
      var j := i + 1;
      while j < |bodies|
        invariant i + 1 <= j <= |bodies|
        invariant a[..] == Row(sqrt, bodies, start, i, j)
      {
        AccumulatePair(a, bodies, i, j);
        j := j + 1;
      }
    }

    /** One pass of the inner loop, on the array in place. */
    method AccumulatePair(a: array<Accel>, bodies: seq<Body>, i: nat, j: nat)
      requires a.Length == |bodies| && i < j < |bodies| && NonzeroMasses(bodies)
      modifies a
      ensures a[..] == ApplyPair(sqrt, bodies, old(a[..]), i, j)
    {
      if Distance(sqrt, bodies[i], bodies[j]) >= MinDistance {
        var (fx, fy) := PairForce(sqrt, bodies[i], bodies[j]);
        a[i] := Accel(a[i].ax + fx / bodies[i].mass, a[i].ay + fy / bodies[i].mass);
        a[j] := Accel(a[j].ax - fx / bodies[j].mass, a[j].ay - fy / bodies[j].mass);
      }
    }

    /** Five RK4 sub-steps, counting each one. */
    method Step(bodies: seq<Body>, timeSpeed: real) returns (r: seq<Body>)
      requires NonzeroMasses(bodies)
      modifies this`iterations
      ensures r == Steps(sqrt, bodies, timeSpeed, SubSteps)
      ensures iterations == old(iterations) + SubSteps
    {
      var current := bodies;
      var i := 0;
      while i < SubSteps
        invariant 0 <= i <= SubSteps
        invariant NonzeroMasses(current)
        invariant Steps(sqrt, bodies, timeSpeed, SubSteps) == Steps(sqrt, current, timeSpeed, SubSteps - i)
        invariant iterations == old(iterations) + i
      {
        current := UpdateBodiesRK4(sqrt, current, timeSpeed);
        iterations := iterations + 1;
        i := i + 1;
      }
      r := current;
    }

    method ResetIterations()
      modifies this`iterations
      ensures iterations == 0
    {
      iterations := 0;
    }

    method GetIterations() returns (n: nat)
      ensures n == iterations
    {
      n := iterations;
    }
  }

  // ---------------------------------------------------------------------
  // Properties

  /** The mass-weighted sum of accelerations, (Σ m·ax, Σ m·ay): the rate of
      change of total momentum. */
  function MassWeighted(bodies: seq<Body>, acc: seq<Accel>): Accel
    requires |acc| == |bodies|
  {
    Accel(Dot(Masses(bodies), AXs(acc)), Dot(Masses(bodies), AYs(acc)))
  }

  /** Each pair update keeps the mass-weighted sum of accelerations. */
  lemma ApplyPairMomentum(sqrt: real -> real, bodies: seq<Body>, acc: seq<Accel>, i: nat, j: nat)
    requires |acc| == |bodies| && i < j < |bodies| && NonzeroMasses(bodies)
    ensures MassWeighted(bodies, ApplyPair(sqrt, bodies, acc, i, j)) == MassWeighted(bodies, acc)
  {
    var r := ApplyPair(sqrt, bodies, acc, i, j);
    var ms, xs, ys := Masses(bodies), AXs(acc), AYs(acc);
    assert ms[i] == bodies[i].mass && ms[j] == bodies[j].mass;
    assert xs[i] == acc[i].ax && xs[j] == acc[j].ax;
    assert ys[i] == acc[i].ay && ys[j] == acc[j].ay;
    assert AXs(r) == xs[i := r[i].ax][j := r[j].ax];
    assert AYs(r) == ys[i := r[i].ay][j := r[j].ay];
    PairUpdateDot(ms, xs, i, j, r[i].ax, r[j].ax);
    PairUpdateDot(ms, ys, i, j, r[i].ay, r[j].ay);
  }

  lemma {:induction false} RowMomentum(sqrt: real -> real, bodies: seq<Body>, acc: seq<Accel>, i: nat, j: nat)
    requires |acc| == |bodies| && j <= |bodies| && NonzeroMasses(bodies)
    ensures MassWeighted(bodies, Row(sqrt, bodies, acc, i, j)) == MassWeighted(bodies, acc)
    decreases j
  {
    if j > i + 1 {
      var prev := Row(sqrt, bodies, acc, i, j - 1);
      RowMomentum(sqrt, bodies, acc, i, j - 1);
      ApplyPairMomentum(sqrt, bodies, prev, i, j - 1);
      assert Row(sqrt, bodies, acc, i, j) == ApplyPair(sqrt, bodies, prev, i, j - 1);
    }
  }

  lemma {:induction false} RowsMomentum(sqrt: real -> real, bodies: seq<Body>, i: nat)
    requires i <= |bodies| && NonzeroMasses(bodies)
    ensures MassWeighted(bodies, Rows(sqrt, bodies, i)) == Accel(0.0, 0.0)
  {
    if i == 0 {
      var z := Rows(sqrt, bodies, 0);
      assert AXs(z) == Zeros(|bodies|);
      assert AYs(z) == Zeros(|bodies|);
      DotZeros(Masses(bodies));
    } else {
      RowsMomentum(sqrt, bodies, i - 1);
      RowMomentum(sqrt, bodies, Rows(sqrt, bodies, i - 1), i - 1, |bodies|);
    }
  }

  /** Newton's third law summed over all pairs: the mass-weighted accelerations
      add up to zero in each component. */
  lemma AccelerationsMomentum(sqrt: real -> real, bodies: seq<Body>)
    requires NonzeroMasses(bodies)
    ensures MassWeighted(bodies, Accelerations(sqrt, bodies)) == Accel(0.0, 0.0)
  {
    RowsMomentum(sqrt, bodies, |bodies|);
  }

  /** Two bodies closer than `MinDistance` exert nothing on each other: for a
      two-body system both accelerations are zero. */
  lemma NearCollisionSkipped(sqrt: real -> real, b0: Body, b1: Body)
    requires b0.mass != 0.0 && b1.mass != 0.0
    requires Distance(sqrt, b0, b1) < MinDistance
    ensures Accelerations(sqrt, [b0, b1]) == [Accel(0.0, 0.0), Accel(0.0, 0.0)]
  {
    var bs := [b0, b1];
    var z := seq(2, _ => Accel(0.0, 0.0));
    assert Rows(sqrt, bs, 1) == Row(sqrt, bs, z, 0, 2) == ApplyPair(sqrt, bs, z, 0, 1);
    assert Rows(sqrt, bs, 2) == Row(sqrt, bs, Rows(sqrt, bs, 1), 1, 2);
  }

  /** The acceleration components of a derivative list along an axis. */
  function Slopes(d: seq<Derivative>, axis: Axis): (r: seq<real>)
    ensures |r| == |d|
  {
    seq(|d|, k requires 0 <= k < |d| => if axis == XAxis then d[k].ax else d[k].ay)
  }

  /** The derivative's velocity part is the bodies' velocities and its
      acceleration part has a zero mass-weighted sum. */
  lemma DerivativesMomentum(sqrt: real -> real, bodies: seq<Body>, axis: Axis)
    requires NonzeroMasses(bodies)
    ensures forall k :: 0 <= k < |bodies| ==>
      Derivatives(sqrt, bodies)[k].vx == bodies[k].vx && Derivatives(sqrt, bodies)[k].vy == bodies[k].vy
    ensures Dot(Masses(bodies), Slopes(Derivatives(sqrt, bodies), axis)) == 0.0
  {
    var d, acc := Derivatives(sqrt, bodies), Accelerations(sqrt, bodies);
    AccelerationsMomentum(sqrt, bodies);
    if axis == XAxis {
      assert Slopes(d, axis) == AXs(acc);
    } else {
      assert Slopes(d, axis) == AYs(acc);
    }
  }

  lemma Distribute(w: real, a1: real, a2: real, a3: real, a4: real)
    ensures w * Combine(a1, a2, a3, a4) == Combine(w * a1, w * a2, w * a3, w * a4)
  {
  }

  /** The weighted sum commutes with the RK4 combination. */
  lemma {:induction false} DotCombine(ws: seq<real>, a1: seq<real>, a2: seq<real>, a3: seq<real>, a4: seq<real>, c: seq<real>)
    requires |ws| == |a1| == |a2| == |a3| == |a4| == |c|
    requires forall k :: 0 <= k < |c| ==> c[k] == Combine(a1[k], a2[k], a3[k], a4[k])
    ensures Dot(ws, c) == Combine(Dot(ws, a1), Dot(ws, a2), Dot(ws, a3), Dot(ws, a4))
  {
    if |ws| > 0 {
      DotCombine(ws[1..], a1[1..], a2[1..], a3[1..], a4[1..], c[1..]);
      Distribute(ws[0], a1[0], a2[0], a3[0], a4[0]);
    }
  }

  lemma CarriedMasses(before: seq<Body>, after: seq<Body>)
    requires Carried(before, after)
    ensures Masses(after) == Masses(before)
  {
  }

  /** Moving along a slope by `h` keeps the masses and shifts each velocity
      by `h` times the slope's acceleration. */
  lemma AddKVelocities(bodies: seq<Body>, k: seq<Derivative>, h: real, axis: Axis)
    requires |k| == |bodies|
    ensures Masses(AddK(bodies, k, h)) == Masses(bodies)
    ensures Shifted(Velocities(AddK(bodies, k, h), axis), Velocities(bodies, axis), Slopes(k, axis), h)
  {
    CarriedMasses(bodies, AddK(bodies, k, h));
  }

  /** Moving along a slope by `h` changes total momentum by `h` times the
      slope's mass-weighted acceleration. */
  lemma AddKMomentum(bodies: seq<Body>, k: seq<Derivative>, h: real, axis: Axis)
    requires |k| == |bodies|
    ensures Momentum(AddK(bodies, k, h), axis) == Momentum(bodies, axis) + h * Dot(Masses(bodies), Slopes(k, axis))
  {
    var r := AddK(bodies, k, h);
    var ms, vs, ss, ws := Masses(bodies), Velocities(bodies, axis), Slopes(k, axis), Velocities(r, axis);
    AddKVelocities(bodies, k, h, axis);
    DotAffine(ms, vs, ss, ws, h);
    assert Momentum(r, axis) == Dot(ms, ws);
  }

  /** Moving along a slope whose mass-weighted acceleration vanishes keeps
      total momentum. */
  lemma ZeroSlopeMomentum(bodies: seq<Body>, k: seq<Derivative>, h: real, axis: Axis)
    requires |k| == |bodies| && Dot(Masses(bodies), Slopes(k, axis)) == 0.0
    ensures Momentum(AddK(bodies, k, h), axis) == Momentum(bodies, axis)
  {
    AddKMomentum(bodies, k, h, axis);
  }

  /** The RK4 update is a move by dt/6 along the combined slope. */
  lemma RK4IsAddK(sqrt: real -> real, bodies: seq<Body>, timeSpeed: real)
    requires NonzeroMasses(bodies)
    ensures UpdateBodiesRK4(sqrt, bodies, timeSpeed) ==
            AddK(bodies, RK4Slope(sqrt, bodies, BaseDt * timeSpeed), BaseDt * timeSpeed / 6.0)
  {
  }

  lemma CombineKSlopes(k1: seq<Derivative>, k2: seq<Derivative>, k3: seq<Derivative>, k4: seq<Derivative>, axis: Axis)
    requires |k1| == |k2| == |k3| == |k4|
    ensures forall n :: 0 <= n < |k1| ==>
      Slopes(CombineK(k1, k2, k3, k4), axis)[n] ==
      Combine(Slopes(k1, axis)[n], Slopes(k2, axis)[n], Slopes(k3, axis)[n], Slopes(k4, axis)[n])
  {
  }

  /** The slope at the bodies moved by `h` along `k` (the `calculateDerivatives`
      of an `addK` result). Moving keeps the masses, so its accelerations have
      a zero sum weighted by the masses before the move. */
  function Stage(sqrt: real -> real, bodies: seq<Body>, k: seq<Derivative>, h: real): (r: seq<Derivative>)
    requires NonzeroMasses(bodies) && |k| == |bodies|
    ensures |r| == |bodies|
    ensures Dot(Masses(bodies), Slopes(r, XAxis)) == 0.0 && Dot(Masses(bodies), Slopes(r, YAxis)) == 0.0
  {
    var moved := AddK(bodies, k, h);
    CarriedMasses(bodies, moved);
    DerivativesMomentum(sqrt, moved, XAxis);
    DerivativesMomentum(sqrt, moved, YAxis);
    Derivatives(sqrt, moved)
  }

  /** Every stage of RK4 has zero mass-weighted acceleration, so the combined slope has too. */
  lemma RK4SlopeMomentum(sqrt: real -> real, bodies: seq<Body>, dt: real, axis: Axis)
    requires NonzeroMasses(bodies)
    ensures Dot(Masses(bodies), Slopes(RK4Slope(sqrt, bodies, dt), axis)) == 0.0
  {
    var k1 := Derivatives(sqrt, bodies);
    var k2 := Stage(sqrt, bodies, k1, dt / 2.0);
    var k3 := Stage(sqrt, bodies, k2, dt / 2.0);
    var k4 := Stage(sqrt, bodies, k3, dt);
    var ms := Masses(bodies);
    DerivativesMomentum(sqrt, bodies, axis);
    CombineKMomentum(ms, k1, k2, k3, k4, axis);
  }

  /** Combining four slopes whose mass-weighted accelerations vanish gives a
      slope whose mass-weighted acceleration vanishes. */
  lemma CombineKMomentum(ms: seq<real>, k1: seq<Derivative>, k2: seq<Derivative>, k3: seq<Derivative>,
                         k4: seq<Derivative>, axis: Axis)
    requires |ms| == |k1| == |k2| == |k3| == |k4|
    requires Dot(ms, Slopes(k1, axis)) == 0.0 && Dot(ms, Slopes(k2, axis)) == 0.0
    requires Dot(ms, Slopes(k3, axis)) == 0.0 && Dot(ms, Slopes(k4, axis)) == 0.0
    ensures Dot(ms, Slopes(CombineK(k1, k2, k3, k4), axis)) == 0.0
  {
    var s1, s2, s3, s4 := Slopes(k1, axis), Slopes(k2, axis), Slopes(k3, axis), Slopes(k4, axis);
    var c := Slopes(CombineK(k1, k2, k3, k4), axis);
    CombineKSlopes(k1, k2, k3, k4, axis);
    DotCombine(ms, s1, s2, s3, s4, c);
  }

  /** In exact arithmetic one RK4 step conserves total momentum. */
  lemma RK4Momentum(sqrt: real -> real, bodies: seq<Body>, timeSpeed: real, axis: Axis)
    requires NonzeroMasses(bodies)
    ensures Momentum(UpdateBodiesRK4(sqrt, bodies, timeSpeed), axis) == Momentum(bodies, axis)
  {
    var dt := BaseDt * timeSpeed;
    var k := RK4Slope(sqrt, bodies, dt);
    RK4IsAddK(sqrt, bodies, timeSpeed);
    RK4SlopeMomentum(sqrt, bodies, dt, axis);
    ZeroSlopeMomentum(bodies, k, dt / 6.0, axis);
  }

  /** Repeated RK4 steps keep ids, masses and colours, and conserve momentum. */
  lemma {:induction false} StepsProperties(sqrt: real -> real, bodies: seq<Body>, timeSpeed: real, n: nat, axis: Axis)
    requires NonzeroMasses(bodies)
    ensures Carried(bodies, Steps(sqrt, bodies, timeSpeed, n))
    ensures Momentum(Steps(sqrt, bodies, timeSpeed, n), axis) == Momentum(bodies, axis)
    ensures timeSpeed == 0.0 ==> Steps(sqrt, bodies, timeSpeed, n) == bodies
    decreases n
  {
    if n > 0 {
      var next := UpdateBodiesRK4(sqrt, bodies, timeSpeed);
      RK4Momentum(sqrt, bodies, timeSpeed, axis);
      StepsProperties(sqrt, next, timeSpeed, n - 1, axis);
      CarriedTransitive(bodies, next, Steps(sqrt, next, timeSpeed, n - 1));
    }
  }
}
