/** The animation driver of `src/Simulation.js`: its own explicit-Euler step
    with a unit cut-off on pair distance, and the refs it keeps between frames
    (the live bodies, the checkpoint that reset restores, the time speed and
    whether a frame is scheduled).

    Each callback to the parent (`onBodiesUpdate`) is modelled as the value a
    method returns; `requestAnimationFrame` and `cancelAnimationFrame` become
    the `animating` flag and the `Frame` method that the browser would call. */
module SimulationDriver {
  import opened Bodies
  import opened Wrappers

  const G: real := 1.0
  /** Base time step; the effective step is `BaseDt * timeSpeed`. */
  const BaseDt: real := 0.008
  /** Pairs closer than this exert no force on each other. */
  const CutOff: real := 1.0

  datatype Force = Force(fx: real, fy: real)

  /** The force components along an axis. */
  function Components(forces: seq<Force>, axis: Axis): (r: seq<real>)
    ensures |r| == |forces|
  {
    seq(|forces|, k requires 0 <= k < |forces| => if axis == XAxis then forces[k].fx else forces[k].fy)
  }

  function Distance(sqrt: real -> real, bi: Body, bj: Body): real {
    var dx := bj.x - bi.x;
    var dy := bj.y - bi.y;
    sqrt(dx * dx + dy * dy)
  }

  /** The force that body j exerts on body i, for a pair at distance at least `CutOff`. */
  function PairForce(sqrt: real -> real, bi: Body, bj: Body): Force
    requires Distance(sqrt, bi, bj) >= CutOff
  {
    var dx := bj.x - bi.x;
    var dy := bj.y - bi.y;
    var r := Distance(sqrt, bi, bj);
    var force := G * bi.mass * bj.mass / (r * r);
    Force(force * dx / r, force * dy / r)
  }

  /** One pass of the inner loop: nothing for a pair closer than `CutOff`,
      otherwise +F on body i and −F on body j. */
  function ApplyPair(sqrt: real -> real, bodies: seq<Body>, forces: seq<Force>, i: nat, j: nat): (r: seq<Force>)
    requires |forces| == |bodies| && i < j < |bodies|
    ensures |r| == |forces|
    ensures forall k :: 0 <= k < |forces| && k != i && k != j ==> r[k] == forces[k]
    ensures Distance(sqrt, bodies[i], bodies[j]) < CutOff ==> r == forces
    // Newton's third law: the pair's contributions cancel
    ensures r[i].fx + r[j].fx == forces[i].fx + forces[j].fx
    ensures r[i].fy + r[j].fy == forces[i].fy + forces[j].fy
  {
    if Distance(sqrt, bodies[i], bodies[j]) < CutOff then forces
    else
      var f := PairForce(sqrt, bodies[i], bodies[j]);
      forces[i := Force(forces[i].fx + f.fx, forces[i].fy + f.fy)]
            [j := Force(forces[j].fx - f.fx, forces[j].fy - f.fy)]
  }

  /** The forces after the inner loop of row `i` has visited (i, i+1) .. (i, j−1). */
  function Row(sqrt: real -> real, bodies: seq<Body>, forces: seq<Force>, i: nat, j: nat): (r: seq<Force>)
    requires |forces| == |bodies| && j <= |bodies|
    ensures |r| == |forces|
    decreases j
  {
    if j <= i + 1 then forces
    else ApplyPair(sqrt, bodies, Row(sqrt, bodies, forces, i, j - 1), i, j - 1)
  }

  /** The forces after the outer loop has finished rows 0 .. i−1, from all zeros. */
  function Rows(sqrt: real -> real, bodies: seq<Body>, i: nat): (r: seq<Force>)
    requires i <= |bodies|
    ensures |r| == |bodies|
  {
    if i == 0 then seq(|bodies|, _ => Force(0.0, 0.0))
    else Row(sqrt, bodies, Rows(sqrt, bodies, i - 1), i - 1, |bodies|)
  }

  /** What `calculateForces` returns. */
  function Forces(sqrt: real -> real, bodies: seq<Body>): (r: seq<Force>)
    ensures |r| == |bodies|
  {
    Rows(sqrt, bodies, |bodies|)
  }

  /** The explicit Euler map of `updateBodies`: velocities gain a = F/m times dt,
      positions move by the OLD velocity times dt. */
  function Advance(bodies: seq<Body>, forces: seq<Force>, dt: real): (r: seq<Body>)
    requires |forces| == |bodies| && NonzeroMasses(bodies)
    ensures Carried(bodies, r)
    ensures NonzeroMasses(r)
    ensures dt == 0.0 ==> r == bodies
  {
    seq(|bodies|, n requires 0 <= n < |bodies| =>
      bodies[n].(vx := bodies[n].vx + forces[n].fx / bodies[n].mass * dt,
                 vy := bodies[n].vy + forces[n].fy / bodies[n].mass * dt,
                 x := bodies[n].x + bodies[n].vx * dt,
                 y := bodies[n].y + bodies[n].vy * dt))
  }

  /** One frame's update at the given time speed. */
  function UpdateBodies(sqrt: real -> real, bodies: seq<Body>, timeSpeed: real): (r: seq<Body>)
    requires NonzeroMasses(bodies)
    ensures Carried(bodies, r)
    ensures NonzeroMasses(r)
    ensures timeSpeed == 0.0 ==> r == bodies
  {
    Advance(bodies, Forces(sqrt, bodies), BaseDt * timeSpeed)
  }

  class Simulation {
    const sqrt: real -> real
    /** A frame is scheduled (`animationRef.current` is set). */
    var animating: bool
    /** The live bodies (`bodiesRef`). */
    var bodies: seq<Body>
    /** The checkpoint that reset restores (`initialBodiesRef`). */
    var initialBodies: seq<Body>
    /** The speed factor read by each frame (`timeSpeedRef`). */
    var timeSpeed: real

    /** Mounting: the live bodies and the checkpoint both start as the props' bodies. */
    constructor(sqrt: real -> real, bodies: seq<Body>, timeSpeed: real)
      ensures this.sqrt == sqrt && !animating
      ensures this.bodies == bodies && initialBodies == bodies && this.timeSpeed == timeSpeed
    {
      this.sqrt := sqrt;
      animating := false;
      this.bodies := bodies;
      initialBodies := bodies;
      this.timeSpeed := timeSpeed;
    }

    /** The nested loops over pairs i < j, accumulating into a fresh array. */
    method CalculateForces(bodies: seq<Body>) returns (forces: seq<Force>)
      ensures forces == Forces(sqrt, bodies)
    {
      var n := |bodies|;
      var f := new Force[n](_ => Force(0.0, 0.0));
      assert f[..] == Rows(sqrt, bodies, 0);
      var i := 0;
      while i < n
        invariant 0 <= i <= n
        invariant f[..] == Rows(sqrt, bodies, i)
      {
        AccumulateRow(f, bodies, i);
        i := i + 1;
      }
      forces := f[..];
    }

    /** The inner loop for row `i`. */
    method AccumulateRow(f: array<Force>, bodies: seq<Body>, i: nat)
      requires f.Length == |bodies| && i < |bodies|
      modifies f
      ensures f[..] == Row(sqrt, bodies, old(f[..]), i, |bodies|)
    {
      ghost var start := f[..];
      var j := i + 1;
      while j < |bodies|
        invariant i + 1 <= j <= |bodies|
        invariant f[..] == Row(sqrt, bodies, start, i, j)
      {
        AccumulatePair(f, bodies, i, j);
        j := j + 1;
      }
    }

    /** One pass of the inner loop, on the array in place. */
    method AccumulatePair(f: array<Force>, bodies: seq<Body>, i: nat, j: nat)
      requires f.Length == |bodies| && i < j < |bodies|
      modifies f
      ensures f[..] == ApplyPair(sqrt, bodies, old(f[..]), i, j)
    {
      if Distance(sqrt, bodies[i], bodies[j]) >= CutOff {
        var p := PairForce(sqrt, bodies[i], bodies[j]);
        f[i] := Force(f[i].fx + p.fx, f[i].fy + p.fy);
        f[j] := Force(f[j].fx - p.fx, f[j].fy - p.fy);
      }
    }

    /** `animate`: advance the live bodies one frame, publish them and keep
        the next frame scheduled. */
    method Animate() returns (update: seq<Body>)
      requires NonzeroMasses(bodies)
      modifies this
      ensures bodies == UpdateBodies(sqrt, old(bodies), old(timeSpeed))
      ensures update == bodies && animating
      ensures initialBodies == old(initialBodies) && timeSpeed == old(timeSpeed)
    {
      var forces := CalculateForces(bodies);
      bodies := Advance(bodies, forces, BaseDt * timeSpeed);
      update := bodies;
      animating := true;
    }

    /** The scheduled frame fires; after a pause it has been cancelled. */
    method Frame() returns (update: Option<seq<Body>>)
      requires NonzeroMasses(bodies)
      modifies this
      ensures old(animating) ==> bodies == UpdateBodies(sqrt, old(bodies), old(timeSpeed)) && update == Some(bodies) && animating
      ensures !old(animating) ==> update == None && bodies == old(bodies) && !animating
      ensures initialBodies == old(initialBodies) && timeSpeed == old(timeSpeed)
    {
      if animating {
        var u := Animate();
        update := Some(u);
      } else {
        update := None;
      }
    }

    /** `start`: run the first frame at once unless one is already scheduled. */
    method Start() returns (update: Option<seq<Body>>)
      requires NonzeroMasses(bodies)
      modifies this
      ensures animating
      ensures !old(animating) ==> bodies == UpdateBodies(sqrt, old(bodies), old(timeSpeed)) && update == Some(bodies)
      ensures old(animating) ==> update == None && bodies == old(bodies)
      ensures initialBodies == old(initialBodies) && timeSpeed == old(timeSpeed)
    {
      if !animating {
        var u := Animate();
        update := Some(u);
      } else {
        update := None;
      }
    }

    /** `pause`: cancel the scheduled frame. */
    method Pause()
      modifies this`animating
      ensures !animating
    {
      if animating {
        animating := false;
      }
    }

    /** `reset`: cancel the scheduled frame and go back to the checkpoint, publishing it. */
    method Reset() returns (update: seq<Body>)
      modifies this`animating, this`bodies
      ensures !animating && bodies == initialBodies && update == initialBodies
    {
      if animating {
        animating := false;
      }
      bodies := initialBodies;
      update := bodies;
    }

    /** `setBodies`: replace the live bodies; the checkpoint follows only while no frame is scheduled. */
    method SetBodies(newBodies: seq<Body>)
      modifies this`bodies, this`initialBodies
      ensures bodies == newBodies
      ensures initialBodies == if animating then old(initialBodies) else newBodies
    {
      bodies := newBodies;
      if !animating {
        initialBodies := newBodies;
      }
    }

    /** Replace the checkpoint. The handle in `src/Simulation.js` has no such
        method although `src/App.js` calls one; this is the evidently intended
        behaviour that the corrected App handlers use. */
    method SetInitialBodies(newBodies: seq<Body>)
      modifies this`initialBodies
      ensures initialBodies == newBodies
    {
      initialBodies := newBodies;
    }

    /** `setTimeSpeed`, and the effect that copies the `timeSpeed` prop into the ref. */
    method SetTimeSpeed(newTimeSpeed: real)
      modifies this`timeSpeed
      ensures timeSpeed == newTimeSpeed
    {
      timeSpeed := newTimeSpeed;
    }
  }

  // ---------------------------------------------------------------------
  // Properties

  lemma ApplyPairSum(sqrt: real -> real, bodies: seq<Body>, forces: seq<Force>, i: nat, j: nat, axis: Axis)
    requires |forces| == |bodies| && i < j < |bodies|
    ensures Sum(Components(ApplyPair(sqrt, bodies, forces, i, j), axis)) == Sum(Components(forces, axis))
  {
    var r := ApplyPair(sqrt, bodies, forces, i, j);
    var xs := Components(forces, axis);
    assert Components(r, axis) == xs[i := Components(r, axis)[i]][j := Components(r, axis)[j]];
    PairUpdateSum(xs, i, j, Components(r, axis)[i], Components(r, axis)[j]);
  }

  lemma {:induction false} RowSum(sqrt: real -> real, bodies: seq<Body>, forces: seq<Force>, i: nat, j: nat, axis: Axis)
    requires |forces| == |bodies| && j <= |bodies|
    ensures Sum(Components(Row(sqrt, bodies, forces, i, j), axis)) == Sum(Components(forces, axis))
    decreases j
  {
    if j > i + 1 {
      RowSum(sqrt, bodies, forces, i, j - 1, axis);
      ApplyPairSum(sqrt, bodies, Row(sqrt, bodies, forces, i, j - 1), i, j - 1, axis);
    }
  }

  lemma {:induction false} RowsSum(sqrt: real -> real, bodies: seq<Body>, i: nat, axis: Axis)
    requires i <= |bodies|
    ensures Sum(Components(Rows(sqrt, bodies, i), axis)) == 0.0
  {
    if i == 0 {
      assert Components(Rows(sqrt, bodies, 0), axis) == Zeros(|bodies|);
      SumZeros(|bodies|);
    } else {
      RowsSum(sqrt, bodies, i - 1, axis);
      RowSum(sqrt, bodies, Rows(sqrt, bodies, i - 1), i - 1, |bodies|, axis);
    }
  }

  /** Newton's third law for the whole list: the net force on the system is zero. */
  lemma ForcesSum(sqrt: real -> real, bodies: seq<Body>, axis: Axis)
    ensures Sum(Components(Forces(sqrt, bodies), axis)) == 0.0
  {
    RowsSum(sqrt, bodies, |bodies|, axis);
  }

  /** Two bodies closer than `CutOff` feel no force at all. */
  lemma CloseBodiesFeelNoForce(sqrt: real -> real, b0: Body, b1: Body)
    requires Distance(sqrt, b0, b1) < CutOff
    ensures Forces(sqrt, [b0, b1]) == [Force(0.0, 0.0), Force(0.0, 0.0)]
  {
    var bs := [b0, b1];
    var z := seq(2, _ => Force(0.0, 0.0));
    assert Rows(sqrt, bs, 1) == Row(sqrt, bs, z, 0, 2) == ApplyPair(sqrt, bs, z, 0, 1);
    assert Rows(sqrt, bs, 2) == Row(sqrt, bs, Rows(sqrt, bs, 1), 1, 2);
  }

  /** An Euler step keeps the masses and moves each velocity component by
      dt times force over mass. */
  lemma AdvanceVelocities(bodies: seq<Body>, forces: seq<Force>, dt: real, axis: Axis)
    requires |forces| == |bodies| && NonzeroMasses(bodies)
    ensures Masses(Advance(bodies, forces, dt)) == Masses(bodies)
    ensures Shifted(Velocities(Advance(bodies, forces, dt), axis), Velocities(bodies, axis),
                    Quotients(Components(forces, axis), Masses(bodies)), dt)
  {
    assert Masses(Advance(bodies, forces, dt)) == Masses(bodies);
  }

  /** An Euler step moves each position component by dt times the velocity
      before the step. */
  lemma AdvancePositions(bodies: seq<Body>, forces: seq<Force>, dt: real, axis: Axis)
    requires |forces| == |bodies| && NonzeroMasses(bodies)
    ensures Shifted(Positions(Advance(bodies, forces, dt), axis), Positions(bodies, axis), Velocities(bodies, axis), dt)
  {
  }

  /** An Euler step changes total momentum by dt times the net force. */
  lemma AdvanceMomentum(bodies: seq<Body>, forces: seq<Force>, dt: real, axis: Axis)
    requires |forces| == |bodies| && NonzeroMasses(bodies)
    ensures Momentum(Advance(bodies, forces, dt), axis) == Momentum(bodies, axis) + dt * Sum(Components(forces, axis))
  {
    var r := Advance(bodies, forces, dt);
    var ms, fs, vs, ws := Masses(bodies), Components(forces, axis), Velocities(bodies, axis), Velocities(r, axis);
    var qs := Quotients(fs, ms);
    AdvanceVelocities(bodies, forces, dt, axis);
    calc {
      Momentum(r, axis);
      Dot(ms, ws);
      { DotAffine(ms, vs, qs, ws, dt); }
      Dot(ms, vs) + dt * Dot(ms, qs);
      { DotQuotient(ms, fs); }
      Dot(ms, vs) + dt * Sum(fs);
    }
  }

  /** In exact arithmetic one frame conserves total momentum. */
  lemma UpdateBodiesMomentum(sqrt: real -> real, bodies: seq<Body>, timeSpeed: real, axis: Axis)
    requires NonzeroMasses(bodies)
    ensures Momentum(UpdateBodies(sqrt, bodies, timeSpeed), axis) == Momentum(bodies, axis)
  {
    AdvanceMomentum(bodies, Forces(sqrt, bodies), BaseDt * timeSpeed, axis);
    ForcesSum(sqrt, bodies, axis);
  }

  /** The mass-weighted position sum moves by dt times the momentum before the
      step: the centre of mass drifts with the old velocities. */
  lemma AdvanceCentre(bodies: seq<Body>, forces: seq<Force>, dt: real, axis: Axis)
    requires |forces| == |bodies| && NonzeroMasses(bodies)
    ensures Dot(Masses(bodies), Positions(Advance(bodies, forces, dt), axis)) ==
            Dot(Masses(bodies), Positions(bodies, axis)) + dt * Momentum(bodies, axis)
  {
    var ms, ps, vs := Masses(bodies), Positions(bodies, axis), Velocities(bodies, axis);
    var qs := Positions(Advance(bodies, forces, dt), axis);
    AdvancePositions(bodies, forces, dt, axis);
    DotAffine(ms, ps, vs, qs, dt);
    assert Momentum(bodies, axis) == Dot(ms, vs);
  }
}
