/** The state and handlers of the top-level component in `src/App.js`: the
    body list the form edits, the run flag, the display settings, the counter
    that clears the trails, and the import dialog. The simulation driver is
    the object behind `simulationRef`; the two effects that feed it (the new
    body list after every change, the time speed after every change) run at
    the end of each handler that changes what they watch.

    The handle in `src/Simulation.js` has no `setInitialBodies`, yet
    `handleReset` and `handleApplyConfig` call it. Both handlers are modelled
    twice: as written, where the call throws, and as evidently intended. */
module ThreeBodyApp {
  import opened Bodies
  import opened Wrappers
  import opened ConfigImport
  import opened SimulationDriver

  /** The figure-eight orbit of Chenciner and Montgomery the app starts from. */
  const InitialBodies: seq<Body> := [
    Body(1, -0.97000436, 0.24308753, 0.466203685, 0.43236573, 1.0, "#ff0000"),
    Body(2, 0.97000436, -0.24308753, 0.466203685, 0.43236573, 1.0, "#00ff00"),
    Body(3, 0.0, 0.0, -0.93240737, -0.86473146, 1.0, "#0000ff")
  ]

  /** `parseFloat(value) || 0`: NaN (`None`) and zero both give zero. */
  function OrZero(parsed: Option<real>): real {
    match parsed
    case None => 0.0
    case Some(v) => v
  }

  /** The list after `handleBodyChange(id, field, value)`: the named field of
      every body with that id is set, everything else is kept. */
  function ChangeField(bodies: seq<Body>, id: int, field: Field, parsed: Option<real>): (r: seq<Body>)
    requires field.IsNumeric()
    ensures |r| == |bodies|
    ensures forall k :: 0 <= k < |bodies| && bodies[k].id != id ==> r[k] == bodies[k]
    ensures forall k :: 0 <= k < |bodies| && bodies[k].id == id ==>
      Get(r[k], field) == OrZero(parsed) && r[k].id == id && r[k].color == bodies[k].color &&
      forall g: Field :: g.IsNumeric() && g != field ==> Get(r[k], g) == Get(bodies[k], g)
  {
    seq(|bodies|, k requires 0 <= k < |bodies| =>
      if bodies[k].id == id then With(bodies[k], field, OrZero(parsed)) else bodies[k])
  }

  /** Setting a field twice to the same value is the same as setting it once. */
  lemma ChangeFieldIdempotent(bodies: seq<Body>, id: int, field: Field, parsed: Option<real>)
    requires field.IsNumeric()
    ensures ChangeField(ChangeField(bodies, id, field, parsed), id, field, parsed) == ChangeField(bodies, id, field, parsed)
  {
    var once := ChangeField(bodies, id, field, parsed);
    var twice := ChangeField(once, id, field, parsed);
    forall k | 0 <= k < |bodies|
      ensures twice[k] == once[k]
    {
      if bodies[k].id == id {
        assert Get(twice[k], field) == Get(once[k], field);
        forall g: Field | g.IsNumeric()
          ensures Get(twice[k], g) == Get(once[k], g)
        {
        }
        assert Get(twice[k], X) == Get(once[k], X) && Get(twice[k], Y) == Get(once[k], Y);
        assert Get(twice[k], Vx) == Get(once[k], Vx) && Get(twice[k], Vy) == Get(once[k], Vy);
        assert Get(twice[k], Mass) == Get(once[k], Mass);
      }
    }
  }

  /** A change to anything but the mass keeps ids, masses and colours. */
  lemma ChangeFieldCarried(bodies: seq<Body>, id: int, field: Field, parsed: Option<real>)
    requires field.IsNumeric() && field != Mass
    ensures Carried(bodies, ChangeField(bodies, id, field, parsed))
  {
    var r := ChangeField(bodies, id, field, parsed);
    forall k | 0 <= k < |bodies| && bodies[k].id == id
      ensures r[k].mass == bodies[k].mass
    {
      assert Get(r[k], Mass) == Get(bodies[k], Mass);
    }
  }

  /** The number setting `config[key]` if it is a number, otherwise `current`. */
  function NumberSetting(config: JsValue, key: string, current: real): real
    requires Readable(config) && (Prop(config, key).Num? ==> IsFinite(Prop(config, key)))
  {
    if Prop(config, key).Num? then Prop(config, key).n.r else current
  }

  /** The flag setting `config[key]` if it is a boolean, otherwise `current`. */
  function FlagSetting(config: JsValue, key: string, current: bool): bool
    requires Readable(config)
  {
    if Prop(config, key).Bool? then Prop(config, key).b else current
  }

  class App {
    /** `JSON.parse`, `None` where it throws. */
    const parse: string -> Option<JsValue>
    /** The driver behind `simulationRef`. */
    const sim: Simulation

    var bodies: seq<Body>
    var isRunning: bool
    var timeSpeed: real
    var trailLength: real
    var showVelocityVectors: bool
    var useServerComputation: bool
    /** Bumped to make the canvas clear its trails. */
    var resetTrigger: int
    var showConfigModal: bool
    var configText: string

    /** Mounting: the default state, and a driver holding the initial bodies. */
    constructor(sqrt: real -> real, parse: string -> Option<JsValue>)
      ensures this.parse == parse && fresh(sim) && sim.sqrt == sqrt
      ensures bodies == InitialBodies && !isRunning && timeSpeed == 1.0 && trailLength == 100.0
      ensures !showVelocityVectors && !useServerComputation && resetTrigger == 0
      ensures !showConfigModal && configText == ""
      ensures !sim.animating && sim.bodies == InitialBodies && sim.initialBodies == InitialBodies && sim.timeSpeed == 1.0
    {
      this.parse := parse;
      sim := new Simulation(sqrt, InitialBodies, 1.0);
      bodies := InitialBodies;
      isRunning := false;
      timeSpeed := 1.0;
      trailLength := 100.0;
      showVelocityVectors := false;
      useServerComputation := false;
      resetTrigger := 0;
      showConfigModal := false;
      configText := "";
    }

    /** The driver's `onBodiesUpdate` callback followed by the effect that
        hands the new list back to the driver. */
    method Publish(update: seq<Body>)
      modifies this`bodies, sim`bodies, sim`initialBodies
      ensures bodies == update && sim.bodies == update
      ensures sim.initialBodies == if sim.animating then old(sim.initialBodies) else update
    {
      bodies := update;
      sim.SetBodies(bodies);
    }

    /** `handleBodyChange`: set one numeric field of the bodies with the given id. */
    method HandleBodyChange(id: int, field: Field, parsed: Option<real>)
      requires field.IsNumeric()
      modifies this`bodies, sim`bodies, sim`initialBodies
      ensures bodies == ChangeField(old(bodies), id, field, parsed) && sim.bodies == bodies
      ensures sim.initialBodies == if sim.animating then old(sim.initialBodies) else bodies
    {
      Publish(ChangeField(bodies, id, field, parsed));
    }

    /** `handleRunPause`: flip the run flag; start the driver if it was
        stopped, pause it otherwise. Starting runs one frame at once. */
    method HandleRunPause()
      requires !isRunning ==> NonzeroMasses(sim.bodies)
      modifies this`isRunning, this`bodies, sim
      ensures isRunning == !old(isRunning)
      ensures isRunning ==> sim.animating
      ensures !isRunning ==> !sim.animating && sim.bodies == old(sim.bodies) && bodies == old(bodies)
      ensures !old(isRunning) && !old(sim.animating) ==>
        bodies == UpdateBodies(sim.sqrt, old(sim.bodies), old(sim.timeSpeed)) && sim.bodies == bodies
      // a frame still scheduled (after a reset that threw) makes `start` do nothing
      ensures !old(isRunning) && old(sim.animating) ==> bodies == old(bodies) && sim.bodies == old(sim.bodies)
      ensures sim.initialBodies == old(sim.initialBodies) && sim.timeSpeed == old(sim.timeSpeed)
    {
      var wasRunning := isRunning;
      isRunning := !isRunning;
      if !wasRunning {
        var update := sim.Start();
        if update.Some? {
          Publish(update.value);
        }
      } else {
        sim.Pause();
      }
    }

    /** A scheduled animation frame: the driver steps and publishes, and the
        effect hands the list back. The checkpoint is never touched. */
    method Tick()
      requires NonzeroMasses(sim.bodies)
      modifies this`bodies, sim
      ensures old(sim.animating) ==> bodies == UpdateBodies(sim.sqrt, old(sim.bodies), old(sim.timeSpeed)) && sim.bodies == bodies
      ensures !old(sim.animating) ==> bodies == old(bodies) && sim.bodies == old(sim.bodies)
      ensures sim.animating == old(sim.animating)
      ensures sim.initialBodies == old(sim.initialBodies) && sim.timeSpeed == old(sim.timeSpeed)
    {
      var update := sim.Frame();
      if update.Some? {
        Publish(update.value);
      }
    }

    /** `handleReset` as written: the run flag and the trail counter are
        queued, then the call to the missing `setInitialBodies` throws, so the
        driver is neither paused nor reset and the list is not restored. */
    method HandleResetAsWritten() returns (thrown: ImportError)
      modifies this`isRunning, this`resetTrigger
      ensures thrown == NotAFunction
      ensures !isRunning && resetTrigger == old(resetTrigger) + 1
      ensures bodies == old(bodies)
      ensures sim.animating == old(sim.animating) && sim.bodies == old(sim.bodies)
      ensures sim.initialBodies == old(sim.initialBodies)
    {
      isRunning := false;
      resetTrigger := resetTrigger + 1;
      thrown := NotAFunction;
    }

    /** `handleReset` as intended: stop, clear the trails, make the initial
        bodies the checkpoint, reset the driver to it and show it. */
    method HandleReset()
      modifies this`isRunning, this`resetTrigger, this`bodies, sim
      ensures !isRunning && resetTrigger == old(resetTrigger) + 1
      ensures bodies == InitialBodies && !sim.animating
      ensures sim.bodies == InitialBodies && sim.initialBodies == InitialBodies
      ensures sim.timeSpeed == old(sim.timeSpeed)
    {
      isRunning := false;
      resetTrigger := resetTrigger + 1;
      sim.SetInitialBodies(InitialBodies);
      var update := sim.Reset();
      bodies := update;
      Publish(InitialBodies);
    }

    /** `JSON.parse` and the checks: the first offence, if any. */
    method ParseAndValidate() returns (err: Option<ImportError>)
      ensures err == Offence(parse(configText))
    {
      var parsed := parse(configText);
      if parsed.None? {
        err := Some(ParseFailed);
      } else {
        err := Validate(parsed.value);
      }
    }

    /** `handleApplyConfig` as written. On an offence nothing changes and the
        offence is reported. Otherwise the driver is stopped, the imported
        bodies and settings are stored and the trail counter bumped; then the
        call to the missing `setInitialBodies` throws inside the `try`, so the
        user is told of an error, the dialog stays open and no reset runs.
        The effects still hand the new list and speed to the driver. */
    method HandleApplyConfigAsWritten() returns (alert: Option<ImportError>)
      requires Offence(parse(configText)).None? ==> Storable(parse(configText).value)
      modifies this, sim
      ensures Offence(old(parse(configText))).Some? ==>
        alert == Offence(old(parse(configText))) && unchanged(this) && unchanged(sim)
      ensures Offence(old(parse(configText))).None? ==>
        var config := old(parse(configText)).value;
        alert == Some(NotAFunction) &&
        !isRunning && bodies == ImportedBodies(config) && sim.bodies == bodies &&
        (old(isRunning) ==> !sim.animating) &&
        (!old(isRunning) ==> sim.animating == old(sim.animating)) &&
        sim.initialBodies == (if sim.animating then old(sim.initialBodies) else bodies) &&
        timeSpeed == NumberSetting(config, "timeSpeed", old(timeSpeed)) && sim.timeSpeed == timeSpeed &&
        trailLength == NumberSetting(config, "trailLength", old(trailLength)) &&
        showVelocityVectors == FlagSetting(config, "showVelocityVectors", old(showVelocityVectors)) &&
        useServerComputation == FlagSetting(config, "useServerComputation", old(useServerComputation)) &&
        resetTrigger == old(resetTrigger) + 1 &&
        showConfigModal == old(showConfigModal) && configText == old(configText)
    {
      var err := ParseAndValidate();
      if err.Some? {
        return err;
      }
      ApplySettings(parse(configText).value);
      alert := Some(NotAFunction);
      RunEffects();
    }

    /** The effects that follow a handler which changed the list and the speed. */
    method RunEffects()
      modifies sim`bodies, sim`initialBodies, sim`timeSpeed
      ensures sim.bodies == bodies && sim.timeSpeed == timeSpeed
      ensures sim.initialBodies == if sim.animating then old(sim.initialBodies) else bodies
    {
      sim.SetBodies(bodies);
      sim.SetTimeSpeed(timeSpeed);
    }

    /** `handleApplyConfig` as intended: as written up to the missing call,
        then the imported bodies become the checkpoint, the driver is reset to
        them and the dialog closes. */
    method HandleApplyConfig() returns (alert: Option<ImportError>)
      requires Offence(parse(configText)).None? ==> Storable(parse(configText).value)
      modifies this, sim
      ensures Offence(old(parse(configText))).Some? ==>
        alert == Offence(old(parse(configText))) && unchanged(this) && unchanged(sim)
      ensures Offence(old(parse(configText))).None? ==>
        var config := old(parse(configText)).value;
        alert == None &&
        !isRunning && !sim.animating && bodies == ImportedBodies(config) &&
        sim.bodies == bodies && sim.initialBodies == bodies &&
        timeSpeed == NumberSetting(config, "timeSpeed", old(timeSpeed)) && sim.timeSpeed == timeSpeed &&
        trailLength == NumberSetting(config, "trailLength", old(trailLength)) &&
        showVelocityVectors == FlagSetting(config, "showVelocityVectors", old(showVelocityVectors)) &&
        useServerComputation == FlagSetting(config, "useServerComputation", old(useServerComputation)) &&
        resetTrigger == old(resetTrigger) + 1 &&
        !showConfigModal && configText == ""
    {
      var err := ParseAndValidate();
      if err.Some? {
        return err;
      }
      ApplySettings(parse(configText).value);
      ResetToImported();
      alert := None;
    }

    /** The intended tail of `handleApplyConfig`: the stored bodies become the
        checkpoint, the driver is reset to them, the dialog closes, and the
        effects hand the list and the speed to the driver. */
    method ResetToImported()
      modifies this`bodies, this`showConfigModal, this`configText, sim
      ensures !sim.animating && bodies == old(bodies) && sim.bodies == bodies && sim.initialBodies == bodies
      ensures sim.timeSpeed == timeSpeed
      ensures !showConfigModal && configText == ""
    {
      sim.SetInitialBodies(bodies);
      var update := sim.Reset();
      bodies := update;
      showConfigModal := false;
      configText := "";
      RunEffects();
    }

    /** The part of `handleApplyConfig` the two versions share, after the checks:
        stop a running driver, store the bodies and the well-typed settings,
        bump the trail counter. */
    method ApplySettings(config: JsValue)
      requires Storable(config)
      modifies this`isRunning, this`bodies, this`timeSpeed, this`trailLength, this`showVelocityVectors,
               this`useServerComputation, this`resetTrigger, sim`animating
      ensures !isRunning && bodies == ImportedBodies(config)
      ensures old(isRunning) ==> !sim.animating
      ensures !old(isRunning) ==> sim.animating == old(sim.animating)
      ensures timeSpeed == NumberSetting(config, "timeSpeed", old(timeSpeed))
      ensures trailLength == NumberSetting(config, "trailLength", old(trailLength))
      ensures showVelocityVectors == FlagSetting(config, "showVelocityVectors", old(showVelocityVectors))
      ensures useServerComputation == FlagSetting(config, "useServerComputation", old(useServerComputation))
      ensures resetTrigger == old(resetTrigger) + 1
    {
      if isRunning {
        isRunning := false;
        sim.Pause();
      }
      bodies := ImportedBodies(config);
      StoreSettings(config);
      resetTrigger := resetTrigger + 1;
    }

    /** The four conditional setters: each setting changes only when the
        configuration holds a value of the right type for it. */
    method StoreSettings(config: JsValue)
      requires Readable(config) && StorableSettings(config)
      modifies this`timeSpeed, this`trailLength, this`showVelocityVectors, this`useServerComputation
      ensures timeSpeed == NumberSetting(config, "timeSpeed", old(timeSpeed))
      ensures trailLength == NumberSetting(config, "trailLength", old(trailLength))
      ensures showVelocityVectors == FlagSetting(config, "showVelocityVectors", old(showVelocityVectors))
      ensures useServerComputation == FlagSetting(config, "useServerComputation", old(useServerComputation))
    {
      var ts := Prop(config, "timeSpeed");
      if ts.Num? {
        timeSpeed := ts.n.r;
      }
      var tl := Prop(config, "trailLength");
      if tl.Num? {
        trailLength := tl.n.r;
      }
      var sv := Prop(config, "showVelocityVectors");
      if sv.Bool? {
        showVelocityVectors := sv.b;
      }
      var us := Prop(config, "useServerComputation");
      if us.Bool? {
        useServerComputation := us.b;
      }
    }
  }

  /** The figure-eight start has zero total momentum on both axes. */
  lemma InitialBodiesAtRest(axis: Axis)
    ensures Momentum(InitialBodies, axis) == 0.0
  {
    var ms, vs := Masses(InitialBodies), Velocities(InitialBodies, axis);
    assert ms == [1.0, 1.0, 1.0];
    assert Dot(ms, vs) == vs[0] + Dot(ms[1..], vs[1..]);
    assert Dot(ms[1..], vs[1..]) == vs[1] + Dot(ms[2..], vs[2..]);
    assert Dot(ms[2..], vs[2..]) == vs[2] + Dot(ms[3..], vs[3..]);
  }
}
