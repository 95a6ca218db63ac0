# EV power-train simulator: a verified model of its calculation core

The original program is a desktop tool for sizing the electric drive of a small electric
vehicle (EV) or unmanned ground vehicle (UGV). Its calculations live in three files:

- `simulation_engine.py` holds the time-step simulation. `EVSimulationEngine` keeps a
  parameter record, a mutable state and a history of recorded columns. `step` advances
  the state by one time step, `run_simulation` repeats `step` after a reset, and
  `get_summary_stats` summarises the history.
- `main_app.py` holds the application's own physics:
  - the "graph simulation", an Euler integration over the motor's two-region torque curve;
  - the vehicle force helper;
  - the output-value computation: forces, acceleration power, motor and wheel operating
    points, battery sizing, the four-slab drive pattern, and the per-motor UGV distribution;
  - the motor-suitability envelope with its test-point classification;
  - the three-test motor-suitability check, with its maximum-speed and maximum-gradient searches.
- `main_app_EV_LOCKED.py` is a variant of the application. It has its own output computation
  and per-motor UGV distribution, the constant-torque display, and `update_parameters`,
  which writes the form into the engine's parameters.

The model is split into these Dafny modules:

| module | file | models |
|---|---|---|
| `Common` | common.dfy | π, the mode selector, `Option`, the angular-speed and drag formulas, min/max, sum and maximum of a sequence |
| `Engine` | engine.dfy | simulation_engine.py: parameters, state, history, the engine class |
| `Catalog` | catalog.dfy | main_app.py's default constants, the motor catalogue and the motor/mode selection |
| `GraphSim` | graph_sim.dfy | main_app.py's graph simulation and its calculated initial values |
| `MotorCheck` | motor_check.dfy | main_app.py's vehicle forces, torque envelope, classification and suitability check |
| `OutputValues` | output_values.dfy | main_app.py's output-value computation |
| `LockedApp` | locked_app.dfy | main_app_EV_LOCKED.py's output computation, UGV distribution, constant torque and `update_parameters` |

Modelling conventions:

- Quantities are `real`.
- Trigonometry is not computed. Each caller supplies it:
  - as a `Gradient` record holding sine and cosine;
  - as a sine value;
  - or, for the searches that scan whole degrees, as `int -> real` tables.
- The Peukert `**` with a real exponent is a caller-supplied `pow` function.
- A division that the source leaves unguarded, and that would raise `ZeroDivisionError`,
  becomes a `requires` that its divisor is non-zero. Every division the source guards is
  modelled with its guard.
- The mode combo offers only "eco" and "boost", so the mode is a datatype.
- A motor key from the catalogue combo is a string, looked up with the source's fallback.
- The engine is a class whose `Step`, `Reset` and `RunSimulation` update its state and
  history in place, with contracts stated against the pure functions `StepNext`,
  `StateAfter` and `HistoryAfter`.
- The graph simulation and the suitability searches are methods with loops. Each is proved
  against a function of its inputs.

The model follows the code's own formulas and constants, including where they differ from the textbook ones:

- The acceleration power terms are the code's:
  - term1 is `(m·I/2t)·(V_end² + V_base²)`;
  - term2 is `cd·ρ·A·V_end³/5`;
  - term3 is `2·cr·m·g·V_end/3`.

  They are not the textbook kinetic/drag/rolling integrals.
- The km/h-to-m/s factors are the code's constants: `0.2777778` for road power,
  `0.277777777777777` for the acceleration end speed, and `1/3.6` elsewhere.
- The slab drag uses the code's constant `0.03858025308642`, a rounding of 0.5/3.6².
  `SlabDragNearHalfDrag` bounds its distance from the exact drag.
- The graph simulation uses `3.14159` for π exactly where the code does.
- The "Add 5% margin" comment on the drive-pattern final Ah has no factor in the code, so
  none is modelled.

## Model

| member | source | states |
|---|---|---|
| Common.Min | simulation_engine.py:144 | the result is at most both arguments and is one of them |
| Common.Max | simulation_engine.py:170-173 | the result is at least both arguments and is one of them |
| Common.SeqMax | simulation_engine.py:248-253 | the maximum of a non-empty sequence is an element and bounds every element |
| Common.AngularSpeed | simulation_engine.py:182 | the angular speed in rad/s of a speed in rpm, rpm·2π/60, the conversion the engine's power and the envelope's power limit (main_app.py:1275) share |
| Common.HalfDrag | simulation_engine.py:98-105 | drag ½·cd·ρ·A·v² is non-negative for non-negative coefficients and zero at standstill; the same formula is used at main_app.py:1419, 1903-1907 and 4246 |
| Common.SumAppend | simulation_engine.py:249 | the sum of a sequence extended by one value is the old sum plus that value |
| Engine.MotorRpm | simulation_engine.py:79-87 | zero for a non-positive speed; otherwise never above the maximum motor RPM |
| Engine.MotorRpmInRange | simulation_engine.py:79-87 | for physical parameters the motor RPM lies in [0, max RPM] |
| Engine.MotorRpmRoundTrip | simulation_engine.py:83-86 | below the cap, converting the RPM back through the gear and the wheel radius gives the speed |
| Engine.RollingResistance | simulation_engine.py:89-96 | the rolling resistance is cr · m · g · cos θ |
| Engine.DragForce | simulation_engine.py:98-105 | the drag is Common.HalfDrag over the parameter record's coefficients |
| Engine.ClimbingForce | simulation_engine.py:107-113 | the climbing force is m · g · sin θ |
| Engine.TractiveForce | simulation_engine.py:115-120 | the tractive force is motor torque × gear ratio / wheel radius |
| Engine.TractiveForceRoundTrip | simulation_engine.py:115-139 | the tractive force times wheel radius over gear ratio is the motor torque, and the torque the required-torque formula computes for a force delivers that force |
| Engine.DragNonNegative | simulation_engine.py:98-105 | aerodynamic drag is never negative |
| Engine.RollingResistanceBound | simulation_engine.py:89-96 | rolling resistance lies within ±cr·m·g |
| Engine.ClimbingForceBound | simulation_engine.py:107-113 | the climbing force lies within ±m·g and has the sign of the gradient's sine |
| Engine.DemandedTorque | simulation_engine.py:124-139 | the resistances at the target speed, plus 2 m/s² times the mass when below target, times wheel radius over gear ratio |
| Engine.RequiredTorque | simulation_engine.py:122-145 | the torque is the smaller of the demanded torque (resistances plus 2 m/s² when below target) and the mode's torque limit over all motors |
| Engine.ClampedSpeed | simulation_engine.py:169-173 | v + a·dt, capped at the target when accelerating and floored at zero otherwise |
| Engine.ClampedSpeedInRange | simulation_engine.py:169-173 | a step that starts within [0, target] ends within [0, target] |
| Engine.MotorPower | simulation_engine.py:179-185 | the recorded power never exceeds the mode's maximum power |
| Engine.AppendOne | simulation_engine.py:207-222 | appending an entry adds one row to every column, keeps the earlier rows and stores the entry in the last row |
| Engine.StepNext | simulation_engine.py:157-203 | the state after one step: time + dt, the clamped speed, the step's acceleration, RPM, torque and capped power, the trapezoid distance and the energy increment |
| Engine.StepEntry | simulation_engine.py:206-222 | the fifteen values a step appends, taken from the new state and the step's forces |
| Engine.StepFacts | simulation_engine.py:147-222 | in a step's entry the total resistance is the sum of the three forces, the net force is tractive minus resistance, and acceleration times mass is the net force; torque and power keep within their limits; the time advances by dt and the recorded distance is that of the new state in km |
| Engine.StepSpeedInRange | simulation_engine.py:164-173 | a step keeps the speed within [0, target speed] |
| Engine.StepDistanceGrows | simulation_engine.py:190-203 | a step with non-negative speeds and dt never decreases the distance |
| Engine.StepKeepsSpeedInRange | simulation_engine.py:164-203 | the speed range and the non-decreasing distance together, as the run's invariant |
| Engine.StepCount | simulation_engine.py:238 | the step count is int(duration / dt): the truncation for a non-negative quotient, and zero below one |
| Engine.StepCountWithinDuration | simulation_engine.py:238-241 | that many steps of a positive dt fit in the duration |
| Engine.AppendAt | simulation_engine.py:207-222 | after an append an earlier row reads back unchanged and the new last row is the entry |
| Engine.RecordLength | simulation_engine.py:240-241 | k recorded steps leave k rows in every column |
| Engine.RecordAt | simulation_engine.py:240-241 | row i of k recorded steps is the entry of the state after i steps |
| Engine.RecordShape | simulation_engine.py:240-241 | a run of k recorded steps has k rows, and row i is the entry of the state after i steps |
| Engine.IterateKeeps | simulation_engine.py:240-241 | a property that every step preserves holds after any number of steps |
| Engine.ElapsedIsProduct | simulation_engine.py:199 | k steps of dt advance the clock by k·dt |
| Engine.StateAfterStep | simulation_engine.py:240-241 | the state after k+1 steps is one step from the state after k |
| Engine.TimeAfter | simulation_engine.py:199 | the time after k steps is the start time plus k steps of dt |
| Engine.SpeedStaysInRange | simulation_engine.py:164-173 | every state of a run that starts within [0, target] stays within it |
| Engine.RunEntry | simulation_engine.py:207-222 | entry i of a run is the step entry of the state after i steps |
| Engine.EntryMatchesState | simulation_engine.py:198-222 | an entry records the new state's time, speed, power in kW and distance in km |
| Engine.RunEntryFields | simulation_engine.py:207-222 | row i of a run records the time, speed, power and distance of the state after i+1 steps |
| Engine.RunTimes | simulation_engine.py:199-208 | row i of a run is timed at the start time plus i+1 steps |
| Engine.RunSpeeds | simulation_engine.py:164-173 | every recorded speed lies within [0, target] |
| Engine.RunPowerCapped | simulation_engine.py:179-185 | every recorded power is at most the mode's maximum |
| Engine.RunDistanceGrows | simulation_engine.py:190-203 | the recorded distance column never decreases |
| Engine.SummaryOf | simulation_engine.py:243-260 | no summary for an empty history; otherwise the maxima and means of the columns, the totals in km and kWh, and energy per km guarded by a positive distance |
| Engine.SumAtMost | simulation_engine.py:249 | a sum of values bounded by m is at most the count times m |
| Engine.ColumnSummary | simulation_engine.py:248-259 | the maximum of a non-empty column is one of its values and bounds all of them, and its mean is at most the maximum |
| Engine.BoundsColumns | simulation_engine.py:248-259 | what a summary promises about its history: the maximum speed, acceleration, RPM, torque and power are each a recorded value bounding their column, and the mean speed and mean power are at most their maxima |
| Engine.SummaryFacts | simulation_engine.py:243-260 | a non-empty history has a summary; the maximum speed, acceleration, RPM, torque and power are each a recorded value bounding their column; the mean speed and mean power are at most their maxima; energy per km times the distance in km is the energy, or zero without distance |
| Engine.SummaryBoundsColumns | simulation_engine.py:243-260 | every summary of an aligned history bounds its columns (BoundsColumns) |
| Engine.EVSimulationEngine.constructor | simulation_engine.py:54-56 | the engine keeps the given parameters and starts in the initial state with an empty history |
| Engine.EVSimulationEngine.Reset | simulation_engine.py:58-77 | the state is the initial state and every history column is empty |
| Engine.EVSimulationEngine.Step | simulation_engine.py:147-222 | the new state is one step of the old one, and the history gains exactly that step's entry; time advances by dt, the power keeps within the mode's maximum, and the speed range and distance growth are preserved |
| Engine.EVSimulationEngine.RunSimulation | simulation_engine.py:225-241 | after a reset, int(duration/dt) steps: the state and history are those of that many steps; row i is timed at (i+1)·dt, powers keep within the maximum, speeds keep within [0, target] and the distance never decreases |
| Engine.EVSimulationEngine.GetSummaryStats | simulation_engine.py:243-260 | no summary exactly when the history is empty; otherwise, for an aligned history, the summary bounds every column as BoundsColumns states |
| Catalog.LookupMotor | main_app.py:2534 | a catalogue key yields its own motor; a key outside the catalogue yields the fallback |
| Catalog.LookupRated | main_app.py:288-335 | every catalogue motor, and the fallback, is rated (continuous at most peak, base speed positive and below top speed) with base RPM 500 |
| Catalog.SelectRating | main_app.py:2525-2547 | for a catalogue motor boost gives its peak torque and power and eco its continuous torque and power; a custom motor gives its peak values in boost and half of them in eco; the base RPM is 500 |
| Catalog.EcoNotAboveBoost | main_app.py:2541-2547 | the eco torque and power never exceed the boost ones |
| Catalog.CheckRating | main_app.py:4134-4142 | the check uses the peak torque in both modes; a custom motor brings its peak power; a catalogue motor its peak power in boost and its continuous power in eco |
| Catalog.CheckPowerVersusSimulation | main_app.py:4134-4142 | the check's power matches the graph simulation's except for a custom motor in eco, where it is twice it; torques match in boost |
| GraphSim.GraphRpm | main_app.py:2577 | the motor RPM is non-negative for a non-negative speed and zero at standstill |
| GraphSim.CurveTorque | main_app.py:2581-2585 | below base RPM the torque is the mode's torque; at or above, torque times angular speed is the mode's power |
| GraphSim.PowerFromTorque | main_app.py:2585-2591 | the constant-power torque converted back gives the mode's power |
| GraphSim.EulerSpeed | main_app.py:2572-2573 | the integrated speed is never negative |
| GraphSim.OperatingPoint | main_app.py:2572-2606 | a step's row: the torque on the two-region curve with the power fixed above base RPM; total torque is per-motor torque times wheels; load is rolling + drag + climb; net is tractive − load; acceleration times GVW is net |
| GraphSim.DragNonNegative | main_app.py:2598 | the graph drag is never negative |
| GraphSim.InitialValues | main_app.py:4323-4430 | the calculated initial fields: speed in km/h, torque on the curve below base RPM and power above it, and the same force balance |
| GraphSim.Advance | main_app.py:2569-2606 | one integration step keeps the speed non-negative |
| GraphSim.SampleAtSucc | main_app.py:2566-2606 | the sample after k+1 steps is one step from the sample after k |
| GraphSim.EulerStep | main_app.py:2569-2606 | the step method computes the specified step |
| GraphSim.RowOf | main_app.py:2608-2626 | a row's seventeen columns: the time, the sample's speeds, RPM, torques, power and forces, and the fixed gradient, mode and wheel count |
| GraphSim.GraphRows | main_app.py:2549-2627 | one row per time step; row i carries the time step and the values after i Euler steps |
| GraphSim.GenerateGraphSimulationData | main_app.py:2459-2630 | the rows produced by the loop are the specified rows for the time steps |
| GraphSim.FirstRowIsInitial | main_app.py:2549-2627 | the first row reports the initial values unchanged |
| GraphSim.SpeedRecurrence | main_app.py:2570-2573 | each later row's speed is the previous speed plus the previous acceleration times dt, floored at zero |
| GraphSim.SpeedNeverNegative | main_app.py:2573 | every row's speed is non-negative once the start speed is |
| GraphSim.RowTorque | main_app.py:2579-2590 | each later row's per-motor torque is on the selected motor's torque curve |
| GraphSim.RowTorqueRegions | main_app.py:2581-2591 | below base RPM a later row's torque is the mode's torque; at or above, its per-motor power is the mode's power |
| GraphSim.RowForceBalance | main_app.py:2596-2606 | every later row balances load, net force and acceleration |
| GraphSim.ConstantColumns | main_app.py:2614-2617 | gradient, mode and number of power wheels are the same in every row |
| GraphSim.CalculatedStartIsConsistent | main_app.py:4323-4430 | with calculated initial values the first row balances too |
| MotorCheck.VehicleForces | main_app.py:1408-1433 | load is the sum of the three forces; drag is non-negative for non-negative coefficients and zero at standstill; grade force is zero on the flat; drag is half ρ·cd·A·v² at v = speed/3.6 |
| MotorCheck.TorqueLimit | main_app.py:1271-1277 | the limit never exceeds the rated torque and equals it up to base speed; above base speed, the limit at that angular speed needs no more than the rated power; it is the rated torque or exactly the power limit |
| MotorCheck.ContinuousWithinPeak | main_app.py:1241-1277 | for a rated motor the continuous envelope lies inside the peak envelope |
| MotorCheck.Classify | main_app.py:1279-1294 | suitable iff within the continuous limit and top speed; peak-only iff above continuous but within peak and top speed; unsuitable otherwise |
| MotorCheck.ClassifyRated | main_app.py:1279-1294 | for a rated motor, unsuitable iff beyond top speed or above the peak limit; a suitable point is within the peak limit |
| MotorCheck.CountsPartition | main_app.py:1262-1294 | the three counts add up to the number of active test points |
| MotorCheck.CountSuitability | main_app.py:1215-1294 | the loop's counts are those of the classification over the active points of the looked-up motor (GPM35 fallback), and add up to the active count |
| MotorCheck.FlatPowerRequired | main_app.py:4243-4246 | the flat power at a speed in km/h: (cr·m·g + drag at v/3.6) × v/3.6 |
| MotorCheck.IsMaxSpeed | main_app.py:4238-4249 | the characterisation of the speed search: in [0, 200] and never 199, every whole speed from 1 to the result needs at most the available power, and below 200 the next one needs more |
| MotorCheck.MaxSpeedUnique | main_app.py:4238-4249 | at most one speed meets the characterisation, so it fixes the search's result |
| MotorCheck.MaxSpeed | main_app.py:4238-4249 | the result meets IsMaxSpeed for the available power peak power × motors × efficiency |
| MotorCheck.SlopeResistance | main_app.py:4256-4260 | the resistance on a whole-degree gradient: cr·m·g·cos + drag + m·g·sin |
| MotorCheck.MaxTractiveForce | main_app.py:4253 | the largest tractive force: peak torque × motors × gear ratio × gear efficiency / wheel radius |
| MotorCheck.IsMaxGradient | main_app.py:4251-4264 | the characterisation of the gradient search: in [−1, 90] and never 89, every whole gradient from 0 to the result is within the tractive force, and below 90 the next one exceeds it |
| MotorCheck.MaxGradientUnique | main_app.py:4251-4264 | at most one gradient meets the characterisation, so it fixes the search's result |
| MotorCheck.MaxGradient | main_app.py:4251-4264 | the result meets IsMaxGradient for the largest tractive force and the drag at the given speed |
| MotorCheck.AccelPassThreshold | main_app.py:4204-4208 | the acceleration test passes exactly when the maximum acceleration is at least (50/3.6)/(5·1.5) |
| MotorCheck.CheckMotorSuitability | main_app.py:4126-4213 | the three tests are the flat-power, per-motor torque and acceleration tests; overall suitability is their conjunction; a maximum speed is reported exactly when the flat test fails, and is then the speed search's result (IsMaxSpeed for the rated power) and below 50 km/h; a maximum gradient is reported exactly when the gradient test fails, and is then the gradient search's result (IsMaxGradient for the rated torque at the target slope speed), below 30° with motors |
| MotorCheck.TorqueTestMatchesSearch | main_app.py:4191-4194 | the per-motor torque test fails exactly when the resistance exceeds the search's maximum tractive force |
| OutputValues.Resistances | main_app.py:1902-1912 | the drag ½·cd·ρ·A·v² at the top and slope speeds in m/s, rolling resistance cr·GVW·g and the climbing force GVW·g·sin at the gradeability |
| OutputValues.ResistancesMatchForceHelper | main_app.py:1902-1912 | the output forces are those of the vehicle-force helper at the maximum and slope speeds |
| OutputValues.AccelerationTerms | main_app.py:1915-1925 | term1 (GVW·I/2t)·(V_end² + V_base²), term2 cd·ρ·A·V_end³/5 and term3 2·cr·GVW·g·V_end/3, with V_end the end speed × 0.277777777777777 |
| OutputValues.AccelTermsAsPowers | main_app.py:1915-1925 | term2 is 0.4 × drag power at the end speed; term3 is 2/3 × rolling power at the end speed |
| OutputValues.KineticTermNonNegative | main_app.py:1919 | term1 is non-negative for a positive period and non-negative mass and inertia |
| OutputValues.OperatingPoint | main_app.py:1928-1974 | one condition: input = road / (ge·me), output = road / ge, the motor RPM and torque, wheel power = output × ge, and the wheel RPM and torque, guarded against a non-positive wheel RPM where the source guards it |
| OutputValues.RpmNonZero | main_app.py:1947-1958 | a non-zero speed gives a non-zero motor RPM |
| OutputValues.GearMultipliesRpm | main_app.py:1947-1972 | the motor RPM is the gear ratio times the wheel RPM |
| OutputValues.EfficiencyChain | main_app.py:1928-1966 | wheel power is road power; output × gear efficiency is road power; input × motor efficiency is output |
| OutputValues.EfficiencyLosses | main_app.py:1928-1966 | with efficiencies in (0, 1], road power ≤ output ≤ input |
| OutputValues.TorqueCarriesPower | main_app.py:1947-1974 | motor torque × angular speed is the output; the wheel torque is gear ratio × gear efficiency × motor torque, or zero where the source guards a non-positive wheel RPM |
| OutputValues.TorqueTimesSpeed | main_app.py:1948 | torque from power at an RPM, times that angular speed, is the power |
| OutputValues.TorqueThroughGear | main_app.py:1962-1974 | the wheel torque of the geared power is the gear ratio × efficiency times the motor torque |
| OutputValues.Analyse | main_app.py:1894-1974 | every condition's motor and wheel RPM is non-zero |
| OutputValues.AnalysisPowerBalance | main_app.py:1928-1943 | each condition's output × gear efficiency is its road power (acceleration: the sum of the three terms) |
| OutputValues.BaseSpeedTurnsBaseRpm | main_app.py:1899-1947 | the base-speed vehicle speed turns the motor at the base RPM |
| OutputValues.PeukertNeutral | main_app.py:2001 | with Peukert coefficient 1 the tentative Ah is the true Ah |
| OutputValues.SizeBattery | main_app.py:1992-2008 | current × voltage is motor input; true Ah × voltage is true Wh; true Wh × speed × DoD is range × input; tentative Ah is the Peukert correction; weight is tentative Wh × weight per Wh |
| OutputValues.DrivePatternSlabs | main_app.py:2029-2034 | four slabs |
| OutputValues.SlabDragNearHalfDrag | main_app.py:2050 | the slab drag formula is within a relative 2·10⁻⁷ of the exact half ρ·cd·A·v² |
| OutputValues.SlabInputCoversOutput | main_app.py:2054-2055 | slab input × motor efficiency is slab output |
| OutputValues.UsableEnergyCovers | main_app.py:2061 | usable energy × speed × DoD is input × distance |
| OutputValues.PerVoltBack | main_app.py:2058-2062 | a per-volt value times the voltage gives the value back |
| OutputValues.SlabOf | main_app.py:2040-2065 | one slab: its distance share of the range, the three forces, output and input power, current, usable energy, true Ah and the Peukert-corrected final Ah |
| OutputValues.SlabEnergyBalance | main_app.py:2040-2065 | for each slab: usable energy × speed × DoD is input × distance; true Ah × voltage is usable energy; current × voltage is input; input × motor efficiency is output |
| OutputValues.SlabDistancesCoverRange | main_app.py:2029-2044 | the four slab distances add up to the vehicle range |
| OutputValues.FourSlabTotals | main_app.py:2067-2086 | the running and final totals of four slabs are their four-term sums |
| OutputValues.DrivePattern | main_app.py:2029-2086 | four slabs, each the specified slab; the total usable Ah and final capacity are the sums of the slabs' true and final Ah |
| OutputValues.UgvDistribution | main_app.py:2286-2345 | the corrected distribution: every condition's demand over gear efficiency × powered wheels, its torques and wheel powers, and the turning figures |
| OutputValues.UgvDistributionAsWritten | main_app.py:2298-2300 | the distribution with the acceleration output as written, the whole demand over the gear efficiency |
| OutputValues.Turning | main_app.py:2318-2345 | the skid friction, its per-wheel share, the turning speed, the turning powers with the constants /4 and /2, the rounded turn RPM and degree constants, and the wheel torques through the gear |
| OutputValues.ShareSplitsEvenly | main_app.py:2298-2316 | an even share taken once per powered wheel gives the demand over gear efficiency, the whole wheel power, and the whole torque |
| OutputValues.TorqueLinear | main_app.py:2303-2306 | torque from power scales with the power |
| OutputValues.UgvSharesAddUp | main_app.py:2298-2316 | in the corrected distribution, every condition's per-motor output, wheel power and torque, taken once per powered wheel, add up to the condition's totals |
| OutputValues.ConditionShare | main_app.py:2298-2316 | one condition's even share adds up to its totals |
| OutputValues.TurningFigures | main_app.py:2318-2345 | total turning power is twice the per-motor value and equals skid friction × turning wheel speed; with two wheels, per-motor power is the per-wheel share × that speed; per-motor wheel torque × wheels × gear is skid friction × radius |
| OutputValues.AccelShareAsWritten | main_app.py:2300 | as written, one motor's acceleration output is the whole motor output and its share through the gear the whole acceleration demand, so with two or more wheels and a positive demand the acceleration share does not split the condition evenly |
| LockedApp.PerMotor | main_app_EV_LOCKED.py:949-966 | with motors, the share × count is the total; without motors, zero |
| LockedApp.GuardedTurning | main_app_EV_LOCKED.py:968-997 | the turning figures with every division by the motor count and the gear ratio guarded |
| LockedApp.GuardedUgvDistribution | main_app_EV_LOCKED.py:948-997 | every condition's guarded per-motor shares and the guarded turning figures |
| LockedApp.GuardedSharesAddUp | main_app_EV_LOCKED.py:948-966 | with motors every condition's shares taken once per motor give its output, wheel power, torque and wheel torque; without motors every share is zero |
| LockedApp.GuardedTurningChain | main_app_EV_LOCKED.py:968-997 | total turning power is per-motor power × motors; with motors the skid shares give the whole skid friction, the turning power is skid × turning speed and the wheel torque is skid × radius; the motor-side torque × a positive gear ratio is the wheel torque, else zero; without motors nothing is shared |
| LockedApp.GuardedSharesAgree | main_app_EV_LOCKED.py:948-961 | with motors the locked variant's per-motor outputs and torques equal main_app.py's corrected even split |
| LockedApp.GuardedTurningAgrees | main_app_EV_LOCKED.py:968-997 | with motors and a positive gear ratio the locked variant's total turning power, total wheel torque and per-motor wheel torque equal main_app.py's |
| LockedApp.ConstantTorque | main_app_EV_LOCKED.py:2125-2137 | a torque is shown exactly when the base RPM is positive, and then it carries the constant power at the base speed; "N/A" otherwise |
| LockedApp.ConstantTorqueRoundTrip | main_app_EV_LOCKED.py:2133 | the torque shown for the power of a torque at a positive base RPM is that torque |
| LockedApp.UpdatedParameters | main_app_EV_LOCKED.py:2089-2121 | the record's drag, rolling, mass, area, radius and gear come from the form; only the selected mode's maximum power becomes the constant power; everything else is unchanged |
| LockedApp.UpdateIdempotent | main_app_EV_LOCKED.py:2089-2121 | updating twice with the same inputs is the same as once |
| LockedApp.SimulatorApp.constructor | main_app_EV_LOCKED.py:207-208 | default parameters and an engine over them |
| LockedApp.SimulatorApp.UpdateParameters | main_app_EV_LOCKED.py:2089-2123 | the record is the update of the selected tab's form; gear and motor efficiencies are the percentages over 100; the base RPM is the input; a new engine over the record starts from the initial state |
| LockedApp.LockedBatteryInputs | main_app_EV_LOCKED.py:627-636 | the UGV's fixed battery values are usable by the formulas |
| LockedApp.ReportsInputs | main_app_EV_LOCKED.py:420-737 | a report holds the analysis, the battery sizing, the four slabs of the drive pattern and their Ah totals |
| LockedApp.LockedComputeOutputsAsWritten | main_app_EV_LOCKED.py:420-737 | every UGV computation fails on the unbound `gvw_input`; an EV computation gives the analysis, the battery sizing and the drive pattern corrected with the entered battery current |
| LockedApp.LockedComputeOutputs | main_app_EV_LOCKED.py:420-997 | the EV report as written; the UGV report uses its GVW, corrects each slab with its own current, and carries the guarded per-motor distribution |
| LockedApp.CompareOutputs | main_app_EV_LOCKED.py:420-737 | the two versions agree on every EV computation; for a UGV the written one fails where the completed one reports a distribution |
| LockedApp.ReportsDetermined | main_app_EV_LOCKED.py:624-737 | two reports of the same inputs are equal |

## Left out

- GUI, plotting, HTML output, dialogs, status bar, file export, the scenario loader and the threads: these are display and I/O.
- `round(…)` in the graph rows and `:.Nf` display formatting: real values are recorded unrounded.
- `np.arange` time steps: GraphSim takes the sequence of time steps as an input, because floating-point step-count behaviour is not modelled.
- `math.sin`, `math.cos`, `math.radians` and the `**` of the Peukert formula: they are supplied by the caller, so no property depends on their values beyond the stated bounds.
- Floating point: all arithmetic is exact real arithmetic, so rounding differences between code paths are not modelled.
- The motor efficiency map (`calculate_motor_efficiency`, `plot_efficiency_map`) is not part of this model.
- The rpm grid of `np.linspace(0, max_rpm, 500)` in the envelope plot: only the limit function it samples is modelled.
- The EV weight breakdown and the chemistry energy-density lookup: they are displayed only.
- UGV `wheel_rpm_turn` in main_app.py uses the rounded constants 9.549297 and 57.2958: these are modelled as written, with no claim that they equal 60/2π and 180/π.
- Python object aliasing: `update_parameters` mutates the same parameter object the old engine holds. Here the engine holds an immutable copy, so the old engine seeing the changes is not modelled.
- `run_simulation`'s default `dt=0.5` and the `mode='boost'` defaults of `step` and `run_simulation` (simulation_engine.py:147, 226): every caller passes both explicitly here.
- Unguarded divisions: they become preconditions, so the `ZeroDivisionError` paths are not modelled.
- The value of a numeric widget outside its spin-box range: any real is accepted.
- MotorCheck.MaxGradient: the degree tables are assumed to hold the sine and cosine of whole degrees, and nothing is proved about their accuracy.

## Findings

| source | as written | input that shows it | evidently intended | confidence | as-written member | corrected member |
|---|---|---|---|---|---|---|
| main_app.py:2300 | `per_motor_output_accel = (term1 + term2 + term3)/gear_efficiency` is not divided by `num_powered_wheels`, unlike the maximum-speed and slope shares two lines above | any UGV with 2 powered wheels and a positive acceleration demand: each motor is assigned the whole motor output | divide by `gear_efficiency * num_powered_wheels` like the other conditions | medium, not executed | OutputValues.AccelShareAsWritten | OutputValues.UgvSharesAddUp |
| main_app_EV_LOCKED.py:558 | `F_roll = cr * gvw_input * 9.81` uses `gvw_input`, which only the EV branch binds; `calculated_gvw` and `battery_current` are also EV-only | vehicle type "UGV": `compute_output_values` raises `UnboundLocalError` before any output | the UGV branch reads its own GVW field, as main_app.py:1889-1890 does, and corrects each slab with its own current, copying main_app.py:2060-2065; this half is a guess between two readings, since main_app_EV_LOCKED.py:1760 also defines a UGV battery-current field that the branch never reads | high, not executed | LockedApp.LockedComputeOutputsAsWritten | LockedApp.LockedComputeOutputs |
