# Three-body simulator: a verified model of its core

This project models the logic of a small browser simulator of the gravitational
three-body problem, written in Dafny. It covers five parts of that program:

- **The RK4 integrator class** (`src/PhysicsEngine.js`, module `PhysicsEngine`).
  - Pairwise Newtonian accelerations, accumulated in place over the pairs i < j.
    Pairs closer than 1e-10 are skipped.
  - The state derivative, the shifted state `addK`, and one classical Runge–Kutta step.
  - `step`, which runs five RK4 steps and counts them in `iterations`.
- **The animation driver the app uses** (`src/Simulation.js`, module `SimulationDriver`).
  - An explicit-Euler step whose force loop skips pairs closer than 1.
  - The handle's small state machine: a frame is scheduled or not, the live bodies,
    the checkpoint that reset restores, and the time speed.
- **The top-level component's handlers** (`src/App.js`, modules `ConfigImport` and `ThreeBodyApp`).
  - The validation of an imported configuration, which reports the first offence in a fixed order.
  - Applying an accepted configuration.
  - The per-field body edit.
  - Run/pause and reset.
- **The canvas's non-drawing state** (`src/Canvas.js`, module `CanvasView`).
  - One bounded trail of past positions per body.
  - A viewport that eases towards a target framing the bodies and their trails:
    a bounding box, a minimum extent, a clamped scale and centring offsets.
- **The preset registry** (`src/configs/index.js`, module `Presets`).
  - A lookup by id, a filter by category, and the sorted list of distinct categories.

Shared definitions live in two more modules:

- `Bodies` holds the body record and the sums used to state conservation of momentum.
- `Wrappers` holds `Option`.

Floating-point numbers are modelled as `real`. Every property is therefore an exact-arithmetic
fact. `Math.sqrt` is a parameter `sqrt: real -> real` about which nothing is assumed. `JSON.parse`
is a parameter `parse: string -> Option<JsValue>`, and `parseFloat` is the `Option<real>` it
yields (`None` for NaN).

The main results:

- Newton's third law holds for each pair, so the mass-weighted accelerations sum to zero
  (`AccelerationsMomentum`) and the forces sum to zero (`ForcesSum`).
- Consequently one RK4 step (`RK4Momentum`), any number of steps (`StepsProperties`) and one
  Euler frame (`UpdateBodiesMomentum`) conserve total momentum.
- The import checks accept exactly the well-formed configurations (`AcceptedIffWellFormed`),
  and every reported offence is the first one in the documented order
  (`MissingFieldIsFirst`, `NotANumberIsFirst`).
- A trail that starts within a whole-number limit n behaves as a window of the last n positions (`PushAllIsWindow`).
- An unclamped target viewport puts every body and trail point on the canvas (`TargetShowsAll`).
- The category list is distinct, sorted and equal to the four categories of the presets
  (`CategoriesSorted`, `CategoriesValue`).

## Model

| member | source | states |
|---|---|---|
| Bodies.With | src/App.js:77 | the spread update sets the named numeric field and keeps every other field, the id and the colour |
| PhysicsEngine.ApplyPair | src/PhysicsEngine.js:13-32 | one pass of the inner loop touches only bodies i and j, does nothing when their distance is below 1e-10, and changes their accelerations by mass-weighted amounts that cancel |
| PhysicsEngine.Engine.constructor | src/PhysicsEngine.js:2-6 | the iteration counter starts at 0 |
| PhysicsEngine.Engine.CalculateAccelerations | src/PhysicsEngine.js:8-37 | the nested loops over a zero-filled array return exactly `Accelerations`: one entry per body, rows i in order, pairs (i, j) with j > i in order |
| PhysicsEngine.Engine.AccumulateRow | src/PhysicsEngine.js:12-33 | the inner loop leaves the array equal to row i applied to its old contents |
| PhysicsEngine.Engine.AccumulatePair | src/PhysicsEngine.js:13-32 | the in-place update of a[i] and a[j] equals `ApplyPair` on the old contents |
| PhysicsEngine.ApplyPairMomentum | src/PhysicsEngine.js:29-32 | each pair update keeps the mass-weighted sums Σ m·ax and Σ m·ay |
| PhysicsEngine.RowMomentum | src/PhysicsEngine.js:12-33 | a whole row of pair updates keeps the mass-weighted sums |
| PhysicsEngine.RowsMomentum | src/PhysicsEngine.js:9-34 | after any number of rows from the zero start, the mass-weighted sums are zero |
| PhysicsEngine.AccelerationsMomentum | src/PhysicsEngine.js:8-37 | with nonzero masses, Σ m·ax = 0 and Σ m·ay = 0 for the returned accelerations |
| PhysicsEngine.NearCollisionSkipped | src/PhysicsEngine.js:18-22 | an example of the skip rule that `PhysicsEngine.ApplyPair` states for every pair of every list: two bodies closer than 1e-10 both get acceleration (0, 0) |
| PhysicsEngine.Derivatives | src/PhysicsEngine.js:39-47 | one derivative per body, whose position rate is that body's velocity and whose velocity rate is that body's entry of `calculateAccelerations` |
| PhysicsEngine.DerivativesMomentum | src/PhysicsEngine.js:39-47 | the derivative passes each body's vx, vy through, and its acceleration part has a zero mass-weighted sum on each axis |
| PhysicsEngine.AddK | src/PhysicsEngine.js:49-57 | a new list of the same length keeping every id, mass and colour; a zero step returns the bodies unchanged |
| PhysicsEngine.AddKVelocities | src/PhysicsEngine.js:54-55 | `addK` keeps the masses and moves each velocity by h times the slope's acceleration |
| PhysicsEngine.AddKMomentum | src/PhysicsEngine.js:49-57 | `addK` changes total momentum by h times the slope's mass-weighted acceleration |
| PhysicsEngine.ZeroSlopeMomentum | src/PhysicsEngine.js:49-57 | `addK` along a slope with zero mass-weighted acceleration keeps total momentum |
| PhysicsEngine.Stage | src/PhysicsEngine.js:65-67 | each of k2, k3, k4 (derivatives at a shifted state) has a zero mass-weighted acceleration, weighted by the unshifted masses |
| PhysicsEngine.RK4Slope | src/PhysicsEngine.js:64-67 | one combined slope k1 + 2·k2 + 2·k3 + k4 per body |
| PhysicsEngine.CombineKSlopes | src/PhysicsEngine.js:72-75 | each acceleration of the combined slope is the RK4 combination of the four slopes' accelerations |
| PhysicsEngine.DotCombine | src/PhysicsEngine.js:72-75 | the mass-weighted sum commutes with the combination k1 + 2·k2 + 2·k3 + k4 |
| PhysicsEngine.CombineKMomentum | src/PhysicsEngine.js:72-75 | combining four slopes whose mass-weighted accelerations vanish gives one whose mass-weighted acceleration vanishes |
| PhysicsEngine.RK4SlopeMomentum | src/PhysicsEngine.js:64-75 | the combined RK4 slope has zero mass-weighted acceleration on each axis |
| PhysicsEngine.RK4IsAddK | src/PhysicsEngine.js:69-90 | the RK4 update is `addK` with step dt/6 along the combined slope |
| PhysicsEngine.UpdateBodiesRK4 | src/PhysicsEngine.js:60-91 | a new list of the same length keeping every id, mass and colour; timeSpeed 0 (so dt = 0) returns the bodies unchanged |
| PhysicsEngine.RK4Momentum | src/PhysicsEngine.js:60-91 | one RK4 step conserves total momentum on each axis |
| PhysicsEngine.Steps | src/PhysicsEngine.js:98-101 | repeated RK4 steps keep the masses nonzero |
| PhysicsEngine.StepsProperties | src/PhysicsEngine.js:94-104 | any number of RK4 steps keeps ids, masses and colours, conserves momentum, and is the identity at timeSpeed 0 |
| PhysicsEngine.Engine.Step | src/PhysicsEngine.js:94-104 | returns exactly five RK4 steps applied in sequence and raises `iterations` by exactly 5 |
| PhysicsEngine.Engine.ResetIterations | src/PhysicsEngine.js:107-109 | sets the counter to 0 and changes nothing else |
| PhysicsEngine.Engine.GetIterations | src/PhysicsEngine.js:112-114 | returns the counter and changes nothing |
| SimulationDriver.ApplyPair | src/Simulation.js:54-68 | one pass of the inner loop touches only bodies i and j, does nothing for a pair closer than 1, and changes the two forces by amounts that cancel on each axis |
| SimulationDriver.Forces | src/Simulation.js:49-73 | one force per body |
| SimulationDriver.Simulation.CalculateForces | src/Simulation.js:49-73 | the nested loops over a zero-filled array return exactly `Forces`: every pair i < j once, in order |
| SimulationDriver.Simulation.AccumulateRow | src/Simulation.js:53-69 | the inner loop leaves the array equal to row i applied to its old contents |
| SimulationDriver.Simulation.AccumulatePair | src/Simulation.js:54-68 | the in-place update of forces[i] and forces[j] equals `ApplyPair` on the old contents |
| SimulationDriver.ApplyPairSum | src/Simulation.js:65-68 | each pair update keeps Σ fx and Σ fy |
| SimulationDriver.RowSum | src/Simulation.js:53-69 | a whole row keeps Σ fx and Σ fy |
| SimulationDriver.RowsSum | src/Simulation.js:50-70 | from the zero start, any number of rows leaves Σ fx = Σ fy = 0 |
| SimulationDriver.ForcesSum | src/Simulation.js:49-73 | the returned forces sum to zero on each axis |
| SimulationDriver.CloseBodiesFeelNoForce | src/Simulation.js:59 | an example of the skip rule that `SimulationDriver.ApplyPair` states for every pair of every list: two bodies closer than 1 both get force (0, 0) |
| SimulationDriver.Advance | src/Simulation.js:79-90 | a new list of the same length keeping every id, mass and colour; a zero step returns it unchanged |
| SimulationDriver.AdvanceVelocities | src/Simulation.js:80-86 | each velocity moves by dt times force over mass; masses are kept |
| SimulationDriver.AdvancePositions | src/Simulation.js:87-88 | each position moves by dt times the velocity before the step |
| SimulationDriver.AdvanceMomentum | src/Simulation.js:79-90 | an Euler step changes total momentum by dt times the net force |
| SimulationDriver.AdvanceCentre | src/Simulation.js:87-88 | the mass-weighted position sum moves by dt times the momentum before the step |
| SimulationDriver.UpdateBodies | src/Simulation.js:75-91 | a new list of the same length keeping every id, mass and colour; timeSpeed 0 returns it unchanged |
| SimulationDriver.UpdateBodiesMomentum | src/Simulation.js:75-91 | one frame conserves total momentum on each axis |
| SimulationDriver.Simulation.constructor | src/Simulation.js:3-7 | not scheduled; live bodies and checkpoint both equal the props' bodies; the speed is the prop's |
| SimulationDriver.Simulation.Animate | src/Simulation.js:93-97 | the live bodies become `UpdateBodies` of the old ones at the current speed, are published, and a frame is scheduled; the checkpoint and speed are untouched |
| SimulationDriver.Simulation.Frame | src/Simulation.js:96 | a scheduled frame ticks as `Animate`; a cancelled one changes nothing; the checkpoint is never touched |
| SimulationDriver.Simulation.Start | src/Simulation.js:13-17 | when no frame is scheduled, ticks once at once and becomes scheduled; otherwise changes nothing; the checkpoint is untouched |
| SimulationDriver.Simulation.Pause | src/Simulation.js:18-23 | afterwards no frame is scheduled; only that flag may change |
| SimulationDriver.Simulation.Reset | src/Simulation.js:24-32 | unscheduled, live bodies equal to the checkpoint, and exactly the checkpoint published |
| SimulationDriver.Simulation.SetBodies | src/Simulation.js:33-39 | always replaces the live bodies; replaces the checkpoint only when no frame is scheduled |
| SimulationDriver.Simulation.SetInitialBodies | src/App.js:97 | replaces only the checkpoint (the method the app calls but the handle lacks) |
| SimulationDriver.Simulation.SetTimeSpeed | src/Simulation.js:40-47 | changes only the speed that later frames read |
| ConfigImport.FirstMissing | src/App.js:160-165 | `None` iff every listed field is present; otherwise the index of an absent field with all earlier ones present |
| ConfigImport.FirstNonNumber | src/App.js:168-173 | `None` iff every listed field is a non-NaN number; otherwise the first one that is not |
| ConfigImport.BodyOffence | src/App.js:159-174 | a missing-field or not-a-number offence names the body by its 1-based index |
| ConfigImport.Validate | src/App.js:154-174 | the checking loops return exactly the first offence of `Offence`, bodies in order |
| ConfigImport.CheckBody | src/App.js:159-174 | the checks on one body return exactly `BodyOffence`: required fields first, then numeric fields |
| ConfigImport.FindMissing | src/App.js:161-165 | the loop over the required fields returns the first absent one |
| ConfigImport.FindNonNumber | src/App.js:169-173 | the loop over the numeric fields returns the first that is not a number |
| ConfigImport.RequiredCoversAll | src/App.js:160 | every body field is among the required ones |
| ConfigImport.NumericCoversNumeric | src/App.js:168 | every numeric field is among the checked numeric ones |
| ConfigImport.BodyOffenceNone | src/App.js:159-174 | one body raises no offence iff it is readable, has all seven fields and five numeric ones |
| ConfigImport.BodiesOffenceNone | src/App.js:159-174 | no offence from body i on iff each of those bodies passes |
| ConfigImport.AcceptedIffWellFormed | src/App.js:151-174 | a parsed configuration is accepted iff it holds exactly three bodies, each of which passes |
| ConfigImport.BodiesOffenceAt | src/App.js:159-174 | an offence naming body n is that body's own, and every body before it raises none |
| ConfigImport.EarlierBodiesPass | src/App.js:159-174 | every body before the offending one passes |
| ConfigImport.MissingFieldIsFirst | src/App.js:159-165 | a reported missing field is the first absent one, in the listed order, of the first failing body; every earlier body passes |
| ConfigImport.NotANumberIsFirst | src/App.js:159-173 | a reported non-number is the first bad numeric field of the first failing body, which has all seven fields; every earlier body passes |
| ConfigImport.InfinityPassesNaNFails | src/App.js:170 | a body with an infinite mass passes the checks, one with a NaN mass does not |
| ConfigImport.ToBody | src/App.js:185 | the stored body carries the configuration's numbers, id and colour |
| ConfigImport.ImportedBodies | src/App.js:185 | three bodies, in the array's order |
| ConfigImport.StorableIsAccepted | src/App.js:154-174 | every configuration the model can store passes the checks |
| ThreeBodyApp.ChangeField | src/App.js:74-80 | bodies with other ids are unchanged; a matching body gets the parsed value, or 0 for NaN, in the named field and keeps everything else |
| ThreeBodyApp.ChangeFieldIdempotent | src/App.js:74-80 | applying the same edit twice is the same as once |
| ThreeBodyApp.ChangeFieldCarried | src/App.js:74-80 | an edit of anything but the mass keeps ids, masses and colours |
| ThreeBodyApp.InitialBodiesAtRest | src/App.js:12-40 | the figure-eight start has zero total momentum on both axes |
| ThreeBodyApp.App.constructor | src/App.js:42-53 | the default state, and a driver whose live bodies and checkpoint are the initial bodies |
| ThreeBodyApp.App.Publish | src/App.js:63-67 | the published list becomes the app's bodies and is handed back to the driver through `setBodies` |
| ThreeBodyApp.App.HandleBodyChange | src/App.js:74-80 | the bodies become `ChangeField` of the old ones; the driver receives them |
| ThreeBodyApp.App.HandleRunPause | src/App.js:82-91 | flips the run flag; starting ticks once if no frame was scheduled and changes no bodies if one still was; pausing unschedules and keeps the bodies; the checkpoint is untouched. This is the state before the effect at src/App.js:103-113 runs |
| ThreeBodyApp.App.Tick | src/Simulation.js:93-97 | a scheduled frame steps and publishes the bodies; the checkpoint is never touched |
| ThreeBodyApp.App.HandleResetAsWritten | src/App.js:93-101 | the call at line 97 throws: the run flag clears and the trail counter rises, but the driver and the bodies are left as they were |
| ThreeBodyApp.App.HandleReset | src/App.js:93-101 | stopped, trails cleared, and the bodies, the live bodies and the checkpoint all equal to the initial bodies |
| ThreeBodyApp.App.ParseAndValidate | src/App.js:151-174 | the first offence of the parsed text, or a parse failure |
| ThreeBodyApp.App.HandleApplyConfigAsWritten | src/App.js:149-211 | on an offence it reports it and changes nothing; otherwise it stores bodies and settings, then the call at line 194 throws inside the `try`, so an error is reported and the dialog stays open |
| ThreeBodyApp.App.HandleApplyConfig | src/App.js:149-211 | on an offence it reports it and changes nothing; otherwise running stops, the bodies, live bodies and checkpoint are the imported ones, settings change only when present with the right type, and the dialog closes |
| ThreeBodyApp.App.RunEffects | src/App.js:63-67 | the driver receives the current bodies and speed |
| ThreeBodyApp.App.ResetToImported | src/App.js:193-206 | the stored bodies become the checkpoint, the driver is reset to them and the dialog closes |
| ThreeBodyApp.App.ApplySettings | src/App.js:176-192 | a running driver is paused, the imported bodies are stored, the settings are set, and the trail counter rises |
| ThreeBodyApp.App.StoreSettings | src/App.js:186-189 | each setting changes only when the configuration holds a value of its type |
| CanvasView.PushPoint | src/Canvas.js:125-129 | the result is a suffix of the old trail plus the new point; exactly one oldest point is dropped iff the limit is exceeded; a trail within the limit stays within it; with limit ≥ 1 the last point is the body's position |
| CanvasView.PushPointIsWindow | src/Canvas.js:125-129 | for a trail of at most n points under a whole-number limit n, one push keeps the last n points |
| CanvasView.PushAllIsWindow | src/Canvas.js:119-131 | for a trail that starts with at most n points under a whole-number limit n, after any sequence of pushes it holds exactly the last n points, in order (a FIFO window) |
| CanvasView.AllPoints | src/Canvas.js:45-52 | the body positions come first, in order |
| CanvasView.ConcatHas | src/Canvas.js:48-52 | every trail point is among the concatenated points |
| CanvasView.AllPointsHasTrail | src/Canvas.js:45-52 | every trail point is among the points the box is computed over |
| CanvasView.MinOf | src/Canvas.js:57 | `Math.min` is at most every element and is one of them |
| CanvasView.MaxOf | src/Canvas.js:58 | `Math.max` is at least every element and is one of them |
| CanvasView.BoundingBox | src/Canvas.js:57-60 | every point is inside the box, and each side is attained |
| CanvasView.BoxHoldsBodiesAndTrails | src/Canvas.js:44-60 | every body position and every trail point lies in the computed box |
| CanvasView.Range | src/Canvas.js:63-64 | the extent is at least 50 and at least max − min, and is one of the two |
| CanvasView.FitScale | src/Canvas.js:66-73 | the scale lies in [0.01, 5] and, unless clamped to 0.01, fits the padded extent on each axis |
| CanvasView.Frame | src/Canvas.js:66-81 | the target scale lies in [0.01, 5] |
| CanvasView.SmoothApproaches | src/Canvas.js:84-89 | each smoothed value lies between the old value and the target and closes 20% of the gap |
| CanvasView.EaseKeepsScale | src/Canvas.js:73-89 | easing keeps the scale in [0.01, 5] once it is there |
| CanvasView.CentredFits | src/Canvas.js:66-81 | a point of the box, centred and scaled by a fitting scale, lands within the canvas size |
| CanvasView.ShiftScale | src/Canvas.js:80-81 | shifting by the offset and scaling is centring plus half the canvas |
| CanvasView.AxisShown | src/Canvas.js:63-81 | along one axis, the framing puts every point of the box on the canvas |
| CanvasView.FrameShowsBox | src/Canvas.js:63-81 | unless the scale is clamped at 0.01, the framing puts every point of the box inside the 600×400 canvas |
| CanvasView.TargetShowsAll | src/Canvas.js:41-81 | unless clamped at 0.01, the target viewport shows every point it was computed from |
| CanvasView.Canvas.constructor | src/Canvas.js:5-7 | no trails; scale 1 and zero offsets |
| CanvasView.Canvas.UpdateTrails | src/Canvas.js:119-131 | trail k becomes `PushPoint` of the old trail (empty if missing) with body k's position; trails past the bodies are untouched; the array grows to cover the bodies |
| CanvasView.Canvas.UpdateViewport | src/Canvas.js:41-90 | nothing for an empty list; otherwise the viewport eases towards the target of bodies and trails |
| CanvasView.Canvas.Render | src/Canvas.js:9-39 | the viewport is updated from the trails as they were, then the trails are extended |
| CanvasView.Canvas.ClearTrails | src/Canvas.js:195-197 | the trail list becomes empty |
| CanvasView.Canvas.OnClearTrailsChange | src/Canvas.js:199-203 | a non-zero (truthy) counter empties the trail list; zero leaves it |
| Presets.Index | src/configs/index.js:15-25 | the keys are exactly the configs' ids, and each maps to a config with that id |
| Presets.PredefinedConfigs | src/configs/index.js:15-25 | `predefinedConfigs` has exactly the presets' ids as keys, and each maps to a preset carrying that id |
| Presets.IndexFindsEach | src/configs/index.js:15-25 | with distinct ids, every config is found under its own id |
| Presets.RegistryIdsDistinct | src/configs/index.js:16-24 | the nine preset ids are distinct |
| Presets.PredefinedConfigsById | src/configs/index.js:15-25 | `predefinedConfigs` maps exactly the presets' ids, each to its own preset |
| Presets.Filter | src/configs/index.js:32 | no longer than the input; holds exactly the configs of the category |
| Presets.FilterAppend | src/configs/index.js:32 | filtering keeps registry order |
| Presets.FilterCounts | src/configs/index.js:32 | each matching config is kept as often as it occurs, every other one dropped |
| Presets.ByCategory | src/configs/index.js:31-33 | `getConfigsByCategory(c)` holds exactly the presets whose category is c |
| Presets.LessEqTotal | src/configs/index.js:38 | the string order is total |
| Presets.LessEqTransitive | src/configs/index.js:38 | the string order is transitive |
| Presets.LessEqAntisymmetric | src/configs/index.js:38 | the string order is antisymmetric |
| Presets.Insert | src/configs/index.js:38 | one longer, holding the new string and the old ones |
| Presets.InsertSorted | src/configs/index.js:38 | inserting a new string keeps a list strictly sorted |
| Presets.Sort | src/configs/index.js:38 | a permutation of the input (same multiset), hence the same length and members |
| Presets.SortSorted | src/configs/index.js:38 | sorting distinct strings gives a strictly increasing list |
| Presets.StrictlySortedPairs | src/configs/index.js:38 | strict order between neighbours holds between every pair |
| Presets.Dedup | src/configs/index.js:38 | no duplicates, and the same members as the input |
| Presets.CategoryOf | src/configs/index.js:37 | the categories in registry order |
| Presets.Categories | src/configs/index.js:36-39 | `getCategories()` lists c iff some preset has category c |
| Presets.CategoriesSorted | src/configs/index.js:36-39 | `getCategories` has no duplicates and is ascending |
| Presets.CategoriesMembers | src/configs/index.js:36-39 | c is listed iff some preset has category c |
| Presets.EachPresetInOneCategory | src/configs/index.js:31-39 | every preset's category is listed, and the preset is in `getConfigsByCategory(c)` iff c is its category |
| Presets.SortedUnique | src/configs/index.js:38 | two strictly sorted lists with the same members are equal |
| Presets.CategoryList | src/configs/index.js:37 | the presets' categories in registry order |
| Presets.CategoriesValue | src/configs/index.js:36-39 | `getCategories()` is ["chaotic", "equilibrium", "periodic", "stable-orbits"] |

## Left out

- Floating-point behaviour: rounding, overflow, and any accuracy claim (energy drift, RK4 error order). Numbers are reals and every result is exact-arithmetic.
- `Math.sqrt`: a parameter with no properties assumed, so the results hold for any square root.
- PhysicsEngine.Engine.Step: requires nonzero masses. The source divides by mass; with a zero mass it produces Infinity or NaN, which reals cannot represent. The same applies to `CalculateAccelerations`, `UpdateBodiesRK4`, `SimulationDriver.Simulation.Animate`, `Frame` and `Start`.
- ThreeBodyApp.App.HandleRunPause: requires nonzero masses when it starts the driver, for the same reason.
- ThreeBodyApp.App.Tick: requires nonzero masses, for the same reason.
- ThreeBodyApp.App.HandleApplyConfig: requires that an accepted configuration is storable. Its numbers must be finite, its ids integers and its colours strings. The checks let ±Infinity and non-string ids and colours through; a `Body` cannot hold them.
- ThreeBodyApp.App.HandleApplyConfigAsWritten: the same storability requirement.
- `requestAnimationFrame` and `cancelAnimationFrame`: modelled as the `animating` flag and a `Frame` method the browser would call.
- The effect at src/App.js:103-113: it watches `isRunning` as well as the computation mode, so it fires after every switch to running. Its synchronous `pause()` and its `start()` 100 ms later, on a timer that is never cancelled, are not modelled (timer glue). `ThreeBodyApp.App.HandleRunPause`'s `isRunning ==> sim.animating` therefore describes the state before that effect. A Pause pressed within those 100 ms is also not modelled: the timer would then restart the driver while the app shows it as stopped.
- The `setTimeout` that asks the canvas to recalculate its viewport (src/App.js:199-203): timer glue. The canvas is not a `forwardRef` component, so that ref is never set anyway.
- The `useServerComputation` flag: stored, but the driver ignores it. server.js only serves static files and is not part of this model.
- Export (`toFixed(6)` rounding, `JSON.stringify`), the import dialog opener, the clipboard, alerts and the log-scale sliders: float formatting and browser I/O.
- Drawing (`drawGrid`, `drawTrails`, `drawBodies`) and the body form: rendering only.
- The preset data files: only each preset's id, name and category are modelled, since the registry reads nothing else.
- Trails longer than the limit are not modelled as windows. Lowering `trailLength` (the slider, or an import at src/App.js:187) never shortens a trail. Each render pushes one point and shifts at most one (src/Canvas.js:125-129), so such a trail keeps its length: `CanvasView.PushPoint` states this, since one push leaves the length unchanged exactly when the length plus one exceeds the limit. `CanvasView.PushAllIsWindow` therefore requires the trail to start within the limit.
- Trails are a sequence rather than a sparse array. The render effect fills indices in order, so the array never has holes.
- String order: JavaScript's `sort` compares UTF-16 code units while Dafny characters are Unicode scalar values. The two agree on the ASCII category names.
- `Object.values` order: taken as registry order. This holds because the ids are distinct non-numeric strings.
- The redundant `allPoints.length === 0` return (src/Canvas.js:54): unreachable once the body list is non-empty.
- React's asynchronous state updates: each handler's setters are applied in order at the end of the handler. The `bodies` and `timeSpeed` effects that feed the driver run after them. The `isRunning` effect above does not.

## Findings

| source | as written | input that shows it | evidently intended | confidence | as-written member | corrected member |
|---|---|---|---|---|---|---|
| src/App.js:97 | `handleReset` calls `simulationRef.current.setInitialBodies`, which the handle in src/Simulation.js:12-43 does not define, so it throws a TypeError before `reset()` and `setBodies` run | press Reset while the simulation runs: the driver keeps animating and the bodies are not restored | make the initial bodies the checkpoint, reset the driver and show the initial bodies | not executed | ThreeBodyApp.App.HandleResetAsWritten | ThreeBodyApp.App.HandleReset |
| src/App.js:194 | `handleApplyConfig` calls the same missing method inside its `try`, so every valid import reports an error, skips the reset and leaves the dialog open | apply any configuration that passes the checks | make the imported bodies the checkpoint, reset the driver to them and close the dialog | not executed | ThreeBodyApp.App.HandleApplyConfigAsWritten | ThreeBodyApp.App.HandleApplyConfig |
