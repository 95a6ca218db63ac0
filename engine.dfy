/** The stateful simulation engine of simulation_engine.py: vehicle parameters, the
    per-step physics (motor RPM, resistive forces, tractive force, torque demand),
    the clamped Euler step that updates the engine state and appends one entry to
    each of the fifteen history lists, the fixed-count run, and the summary
    statistics over the history. */
module Engine {
  import opened Common

  /** The engine's parameter record; `numMotors` is an integer in the source. */
  datatype VehicleParameters = VehicleParameters(
    dragCoefficient: real,
    rollingResistance: real,
    airDensity: real,
    frontalArea: real,
    wheelRadius: real,
    gearRatio: real,
    vehicleMass: real,
    numMotors: int,
    maxTorquePerMotorEco: real,
    maxTorquePerMotorBoost: real,
    maxMotorRpm: real,
    maxPowerEco: real,
    maxPowerBoost: real,
    gravity: real)

  /** The dataclass defaults. */
  const DefaultParameters: VehicleParameters :=
    VehicleParameters(0.8, 0.02, 1.164, 0.5, 0.2795, 5.221, 150.0, 2, 37.0, 52.0, 2746.0, 4000.0, 22000.0, 9.81)

  /** The three divisors a step uses without a guard; a zero one raises in the source. */
  predicate Steppable(p: VehicleParameters)
  {
    p.wheelRadius != 0.0 && p.gearRatio != 0.0 && p.vehicleMass != 0.0
  }

  /** Parameters that describe a physical vehicle: positive geometry and mass,
      non-negative coefficients, limits and gravity. */
  predicate Physical(p: VehicleParameters)
  {
    p.wheelRadius > 0.0 && p.gearRatio > 0.0 && p.vehicleMass > 0.0 &&
    p.dragCoefficient >= 0.0 && p.rollingResistance >= 0.0 && p.airDensity >= 0.0 &&
    p.frontalArea >= 0.0 && p.gravity >= 0.0 && p.maxMotorRpm >= 0.0
  }

  /** A road gradient in degrees together with the sine and cosine of its value in
      radians (`math.sin(math.radians(d))`, `math.cos(math.radians(d))`), which the
      model takes from the caller instead of computing. */
  datatype Gradient = Gradient(degrees: real, sine: real, cosine: real)

  predicate TrigBounded(g: Gradient)
  {
    -1.0 <= g.sine <= 1.0 && -1.0 <= g.cosine <= 1.0
  }

  datatype SimulationState = SimulationState(
    time: real,
    speed: real,
    acceleration: real,
    motorRpm: real,
    motorTorque: real,
    motorPower: real,
    distance: real,
    energyConsumed: real)

  const InitialState: SimulationState := SimulationState(0.0, 0.0, 0.0, 0.0, 0.0, 0.0, 0.0, 0.0)

  // ---------------------------------------------------------------------------
  // Per-step physics
  // ---------------------------------------------------------------------------

  /** Motor RPM before the cap: wheel angular velocity times gear ratio, in rev/min. */
  function UncappedRpm(p: VehicleParameters, speedMs: real): real
    requires p.wheelRadius != 0.0
  {
    speedMs / p.wheelRadius * p.gearRatio * 60.0 / (2.0 * Pi)
  }

  /** calculate_motor_rpm: zero when the vehicle is not moving forward, otherwise the
      wheel-derived RPM capped at the motor's maximum. */
  function MotorRpm(p: VehicleParameters, speedMs: real): (rpm: real)
    requires speedMs > 0.0 ==> p.wheelRadius != 0.0
    ensures speedMs <= 0.0 ==> rpm == 0.0
    ensures speedMs > 0.0 ==> rpm <= p.maxMotorRpm
  {
    if speedMs <= 0.0 then 0.0 else Min(UncappedRpm(p, speedMs), p.maxMotorRpm)
  }

  /** For a physical vehicle the RPM lies in [0, max_motor_rpm]. */
  lemma MotorRpmInRange(p: VehicleParameters, speedMs: real)
    requires Physical(p)
    ensures 0.0 <= MotorRpm(p, speedMs) <= p.maxMotorRpm
  {
    if speedMs > 0.0 {
      var w := speedMs / p.wheelRadius;
      assert w > 0.0;
      assert w * p.gearRatio > 0.0;
      assert UncappedRpm(p, speedMs) == w * p.gearRatio * 60.0 / (2.0 * Pi);
    }
  }

  /** Below the cap the RPM converts back to the speed it came from. */
  lemma MotorRpmRoundTrip(p: VehicleParameters, speedMs: real)
    requires speedMs > 0.0 && p.wheelRadius != 0.0 && p.gearRatio != 0.0
    requires UncappedRpm(p, speedMs) <= p.maxMotorRpm
    ensures MotorRpm(p, speedMs) * 2.0 * Pi / 60.0 / p.gearRatio * p.wheelRadius == speedMs
  {
    var w := speedMs / p.wheelRadius;
    assert w * p.wheelRadius == speedMs;
    calc {
      MotorRpm(p, speedMs) * 2.0 * Pi / 60.0;
      (w * p.gearRatio * 60.0 / (2.0 * Pi)) * 2.0 * Pi / 60.0;
      w * p.gearRatio;
    }
  }

  /** calculate_rolling_resistance: includes the cosine of the gradient. */
  function RollingResistance(p: VehicleParameters, g: Gradient): real
  {
    p.rollingResistance * p.vehicleMass * p.gravity * g.cosine
  }

  /** calculate_drag_force: the drag formula over the parameter record. */
  function DragForce(p: VehicleParameters, speedMs: real): real
  {
    HalfDrag(p.dragCoefficient, p.airDensity, p.frontalArea, speedMs)
  }

  /** calculate_climbing_force. */
  function ClimbingForce(p: VehicleParameters, g: Gradient): real
  {
    p.vehicleMass * p.gravity * g.sine
  }

  /** calculate_tractive_force. */
  function TractiveForce(p: VehicleParameters, motorTorque: real): real
    requires p.wheelRadius != 0.0
  {
    motorTorque * p.gearRatio / p.wheelRadius
  }

  /** The tractive force turns back into the motor torque through the wheel radius and
      the gear, and the torque the demand asks for delivers the demanded force. */
  lemma TractiveForceRoundTrip(p: VehicleParameters, motorTorque: real, force: real)
    requires p.wheelRadius != 0.0 && p.gearRatio != 0.0
    ensures TractiveForce(p, motorTorque) * p.wheelRadius / p.gearRatio == motorTorque
    ensures TractiveForce(p, force * p.wheelRadius / p.gearRatio) == force
  {
  }

  /** For a physical vehicle drag is never negative. */
  lemma DragNonNegative(p: VehicleParameters, speedMs: real)
    requires Physical(p)
    ensures DragForce(p, speedMs) >= 0.0
  {
    NonNegativeProduct(0.5 * p.dragCoefficient, p.airDensity);
    NonNegativeProduct(0.5 * p.dragCoefficient * p.airDensity, p.frontalArea);
    SquareNonNegative(speedMs);
    NonNegativeProduct(0.5 * p.dragCoefficient * p.airDensity * p.frontalArea, speedMs * speedMs);
  }

  /** On a gradient whose cosine is genuine, rolling resistance is at most Cr*m*g
      in size. */
  lemma RollingResistanceBound(p: VehicleParameters, g: Gradient)
    requires Physical(p) && TrigBounded(g)
    ensures var w := p.rollingResistance * p.vehicleMass * p.gravity;
      -w <= RollingResistance(p, g) <= w
  {
    var w := p.rollingResistance * p.vehicleMass * p.gravity;
    NonNegativeProduct(p.rollingResistance, p.vehicleMass);
    NonNegativeProduct(p.rollingResistance * p.vehicleMass, p.gravity);
    BoundedFactor(w, g.cosine, RollingResistance(p, g));
  }

  /** On a gradient whose sine is genuine, the climbing force is at most m*g in
      size and has the sign of the sine: uphill resists, downhill assists. */
  lemma ClimbingForceBound(p: VehicleParameters, g: Gradient)
    requires Physical(p) && TrigBounded(g)
    ensures var w := p.vehicleMass * p.gravity;
      -w <= ClimbingForce(p, g) <= w
    ensures g.sine >= 0.0 ==> ClimbingForce(p, g) >= 0.0
    ensures g.sine <= 0.0 ==> ClimbingForce(p, g) <= 0.0
  {
    var w := p.vehicleMass * p.gravity;
    NonNegativeProduct(p.vehicleMass, p.gravity);
    BoundedFactor(w, g.sine, ClimbingForce(p, g));
  }

  lemma SquareNonNegative(x: real)
    ensures x * x >= 0.0
  {
    if x < 0.0 { NonNegativeProduct(-x, -x); } else { NonNegativeProduct(x, x); }
  }

  /** A product r = w*c with w >= 0 and c in [-1, 1] lies in [-w, w] and has the
      sign of c. */
  lemma BoundedFactor(w: real, c: real, r: real)
    requires w >= 0.0 && -1.0 <= c <= 1.0 && r == w * c
    ensures -w <= r <= w
    ensures c >= 0.0 ==> r >= 0.0
    ensures c <= 0.0 ==> r <= 0.0
  {
    NonNegativeProduct(w, 1.0 - c);
    NonNegativeProduct(w, c + 1.0);
    if c >= 0.0 { NonNegativeProduct(w, c); }
    if c <= 0.0 { NonNegativeProduct(w, -c); }
  }

  /** The torque per motor of the selected mode times the number of motors. */
  function MaxTorque(p: VehicleParameters, mode: Mode): real
  {
    (if mode == Boost then p.maxTorquePerMotorBoost else p.maxTorquePerMotorEco) * (p.numMotors as real)
  }

  function MaxPower(p: VehicleParameters, mode: Mode): real
  {
    if mode == Boost then p.maxPowerBoost else p.maxPowerEco
  }

  /** Torque that balances the resistance at the target speed, plus a 2 m/s^2
      acceleration allowance while the vehicle is below the target. */
  function DemandedTorque(p: VehicleParameters, currentSpeed: real, targetSpeed: real, g: Gradient): real
    requires p.gearRatio != 0.0
  {
    var resistance := RollingResistance(p, g) + DragForce(p, targetSpeed) + ClimbingForce(p, g);
    var withAcceleration := if targetSpeed > currentSpeed then resistance + p.vehicleMass * 2.0 else resistance;
    withAcceleration * p.wheelRadius / p.gearRatio
  }

  /** calculate_required_torque: the demanded torque limited by the mode's motor
      capability. */
  function RequiredTorque(p: VehicleParameters, currentSpeed: real, targetSpeed: real, g: Gradient, mode: Mode): (t: real)
    requires p.gearRatio != 0.0
    ensures t <= MaxTorque(p, mode)
    ensures t <= DemandedTorque(p, currentSpeed, targetSpeed, g)
    ensures t == MaxTorque(p, mode) || t == DemandedTorque(p, currentSpeed, targetSpeed, g)
  {
    Min(DemandedTorque(p, currentSpeed, targetSpeed, g), MaxTorque(p, mode))
  }

  /** The speed update of a step: an Euler step capped at the target while
      accelerating and floored at zero otherwise. */
  function ClampedSpeed(speed: real, acceleration: real, dt: real, target: real): real
  {
    var raw := speed + acceleration * dt;
    if acceleration > 0.0 then Min(raw, target) else Max(raw, 0.0)
  }

  /** A speed in [0, target] stays in [0, target] for a non-negative time step. */
  lemma ClampedSpeedInRange(speed: real, acceleration: real, dt: real, target: real)
    requires 0.0 <= speed <= target && dt >= 0.0
    ensures 0.0 <= ClampedSpeed(speed, acceleration, dt, target) <= target
  {
    if acceleration > 0.0 {
      assert acceleration * dt >= 0.0;
    } else {
      assert acceleration * dt <= 0.0;
    }
  }

  // ---------------------------------------------------------------------------
  // One step, as a value
  // ---------------------------------------------------------------------------

  /** The values one step appends, one per history list, in the source's list order. */
  datatype HistoryEntry = HistoryEntry(
    time: real,
    speedMs: real,
    speedKmh: real,
    motorRpm: real,
    motorTorque: real,
    motorPowerKw: real,
    tractiveForce: real,
    rollingResistance: real,
    dragForce: real,
    climbingForce: real,
    totalResistance: real,
    netForce: real,
    acceleration: real,
    distanceKm: real,
    energyKwh: real)

  /** The fifteen parallel history lists. */
  datatype History = History(
    time: seq<real>,
    speedMs: seq<real>,
    speedKmh: seq<real>,
    motorRpm: seq<real>,
    motorTorque: seq<real>,
    motorPower: seq<real>,
    tractiveForce: seq<real>,
    rollingResistance: seq<real>,
    dragForce: seq<real>,
    climbingForce: seq<real>,
    totalResistance: seq<real>,
    netForce: seq<real>,
    acceleration: seq<real>,
    distance: seq<real>,
    energy: seq<real>)
  {
    /** All fifteen lists have the same length. */
    predicate Aligned()
    {
      var n := |time|;
      |speedMs| == n && |speedKmh| == n && |motorRpm| == n && |motorTorque| == n &&
      |motorPower| == n && |tractiveForce| == n && |rollingResistance| == n &&
      |dragForce| == n && |climbingForce| == n && |totalResistance| == n &&
      |netForce| == n && |acceleration| == n && |distance| == n && |energy| == n
    }

    function Length(): nat
    {
      |time|
    }

    /** Appends one value to every list. */
    function Append(e: HistoryEntry): History
    {
      History(time + [e.time], speedMs + [e.speedMs], speedKmh + [e.speedKmh],
              motorRpm + [e.motorRpm], motorTorque + [e.motorTorque], motorPower + [e.motorPowerKw],
              tractiveForce + [e.tractiveForce], rollingResistance + [e.rollingResistance],
              dragForce + [e.dragForce], climbingForce + [e.climbingForce],
              totalResistance + [e.totalResistance], netForce + [e.netForce],
              acceleration + [e.acceleration], distance + [e.distanceKm], energy + [e.energyKwh])
    }

    /** The i-th value of every list, read back as an entry. */
    function At(i: nat): HistoryEntry
      requires Aligned() && i < Length()
    {
      HistoryEntry(time[i], speedMs[i], speedKmh[i], motorRpm[i], motorTorque[i], motorPower[i],
                   tractiveForce[i], rollingResistance[i], dragForce[i], climbingForce[i],
                   totalResistance[i], netForce[i], acceleration[i], distance[i], energy[i])
    }
  }

  const EmptyHistory: History := History([], [], [], [], [], [], [], [], [], [], [], [], [], [], [])

  /** Appending keeps the lists aligned, adds exactly one element to each, keeps
      every earlier element, and the new last element is the appended entry. */
  lemma AppendOne(h: History, e: HistoryEntry)
    requires h.Aligned()
    ensures h.Append(e).Aligned()
    ensures h.Append(e).Length() == h.Length() + 1
    ensures h.Append(e).At(h.Length()) == e
    ensures forall i :: 0 <= i < h.Length() ==> h.Append(e).At(i) == h.At(i)
  {
  }

  /** One element read back after an append: an earlier one is unchanged, the last
      one is the appended entry. */
  lemma AppendAt(h: History, e: HistoryEntry, i: nat)
    requires h.Aligned() && i <= h.Length()
    ensures h.Append(e).Aligned() && h.Append(e).Length() == h.Length() + 1
    ensures h.Append(e).At(i) == if i < h.Length() then h.At(i) else e
  {
  }

  /** The torque `step` applies: the required torque towards the target speed. */
  function StepTorque(p: VehicleParameters, s: SimulationState, targetKmh: real, g: Gradient, mode: Mode): real
    requires Steppable(p)
  {
    RequiredTorque(p, s.speed, targetKmh / 3.6, g, mode)
  }

  /** Rolling resistance, drag and climbing force together. */
  function TotalResistance(p: VehicleParameters, speedMs: real, g: Gradient): real
  {
    RollingResistance(p, g) + DragForce(p, speedMs) + ClimbingForce(p, g)
  }

  /** Tractive force of the applied torque less the total resistance at the current speed. */
  function NetForce(p: VehicleParameters, s: SimulationState, targetKmh: real, g: Gradient, mode: Mode): real
    requires Steppable(p)
  {
    TractiveForce(p, StepTorque(p, s, targetKmh, g, mode)) - TotalResistance(p, s.speed, g)
  }

  /** Newton's second law: a = F_net / m. */
  function StepAcceleration(p: VehicleParameters, s: SimulationState, targetKmh: real, g: Gradient, mode: Mode): real
    requires Steppable(p)
  {
    NetForce(p, s, targetKmh, g, mode) / p.vehicleMass
  }

  /** Mechanical power of the motor at this torque and RPM, limited by the mode's
      power rating. */
  function MotorPower(p: VehicleParameters, torque: real, rpm: real, mode: Mode): (w: real)
    ensures w <= MaxPower(p, mode)
  {
    Min(torque * AngularSpeed(rpm), MaxPower(p, mode))
  }

  /** Distance covered in dt at the mean of the old and new speed (trapezoidal rule). */
  function TrapezoidDistance(v0: real, v1: real, dt: real): real
  {
    (v0 + v1) / 2.0 * dt
  }

  /** Energy in Wh drawn at the given power (W) over dt seconds. */
  function EnergyWh(power: real, dt: real): real
  {
    power * dt / 3600.0
  }

  /** The state `step` leaves behind. */
  function StepNext(p: VehicleParameters, s: SimulationState, dt: real, targetKmh: real, g: Gradient, mode: Mode): SimulationState
    requires Steppable(p)
  {
    var accel := StepAcceleration(p, s, targetKmh, g, mode);
    var speed := ClampedSpeed(s.speed, accel, dt, targetKmh / 3.6);
    var torque := StepTorque(p, s, targetKmh, g, mode);
    var rpm := MotorRpm(p, speed);
    var power := MotorPower(p, torque, rpm, mode);
    SimulationState(
      s.time + dt, speed, accel, rpm, torque, power,
      s.distance + TrapezoidDistance(s.speed, speed, dt),
      s.energyConsumed + EnergyWh(power, dt))
  }

  /** The values `step` appends to the history: the new state, the forces of the
      step, power in kW, distance in km and energy in kWh. */
  function StepEntry(p: VehicleParameters, s: SimulationState, dt: real, targetKmh: real, g: Gradient, mode: Mode): HistoryEntry
    requires Steppable(p)
  {
    var next := StepNext(p, s, dt, targetKmh, g, mode);
    HistoryEntry(
      next.time, next.speed, next.speed * 3.6, next.motorRpm, next.motorTorque, next.motorPower / 1000.0,
      TractiveForce(p, next.motorTorque), RollingResistance(p, g), DragForce(p, s.speed), ClimbingForce(p, g),
      TotalResistance(p, s.speed, g), NetForce(p, s, targetKmh, g, mode), next.acceleration,
      next.distance / 1000.0, next.energyConsumed / 1000.0)
  }

  /** What every step records: the force balance and Newton's law, the torque and
      power caps, time advancing by dt, and unit conversions that agree with the
      new state. */
  lemma StepFacts(p: VehicleParameters, s: SimulationState, dt: real, targetKmh: real, g: Gradient, mode: Mode)
    requires Steppable(p)
    ensures var e := StepEntry(p, s, dt, targetKmh, g, mode);
      && e.totalResistance == e.rollingResistance + e.dragForce + e.climbingForce
      && e.netForce == e.tractiveForce - e.totalResistance
      && e.acceleration * p.vehicleMass == e.netForce
      && e.motorTorque <= MaxTorque(p, mode)
      && e.motorPowerKw * 1000.0 <= MaxPower(p, mode)
      && e.time == s.time + dt
      && e.distanceKm * 1000.0 == StepNext(p, s, dt, targetKmh, g, mode).distance
  {
  }

  /** Starting from a speed in [0, target], a step with dt >= 0 lands in [0, target]. */
  lemma StepSpeedInRange(p: VehicleParameters, s: SimulationState, dt: real, targetKmh: real, g: Gradient, mode: Mode)
    requires Steppable(p) && dt >= 0.0
    requires 0.0 <= s.speed <= targetKmh / 3.6
    ensures 0.0 <= StepNext(p, s, dt, targetKmh, g, mode).speed <= targetKmh / 3.6
  {
    var n := StepNext(p, s, dt, targetKmh, g, mode);
    ClampedSpeedInRange(s.speed, n.acceleration, dt, targetKmh / 3.6);
  }

  /** With both speeds non-negative and dt >= 0 the trapezoidal distance never
      decreases. */
  lemma StepDistanceGrows(p: VehicleParameters, s: SimulationState, dt: real, targetKmh: real, g: Gradient, mode: Mode)
    requires Steppable(p) && dt >= 0.0
    requires 0.0 <= s.speed && 0.0 <= StepNext(p, s, dt, targetKmh, g, mode).speed
    ensures s.distance <= StepNext(p, s, dt, targetKmh, g, mode).distance
  {
    var n := StepNext(p, s, dt, targetKmh, g, mode);
    NonNegativeProduct((s.speed + n.speed) / 2.0, dt);
    assert TrapezoidDistance(s.speed, n.speed, dt) >= 0.0;
  }

  /** Starting from a speed in [0, target], a step with dt >= 0 lands in [0, target]
      and the distance does not decrease. */
  lemma StepKeepsSpeedInRange(p: VehicleParameters, s: SimulationState, dt: real, targetKmh: real, g: Gradient, mode: Mode)
    requires Steppable(p) && dt >= 0.0
    requires 0.0 <= s.speed <= targetKmh / 3.6
    ensures var n := StepNext(p, s, dt, targetKmh, g, mode);
      && 0.0 <= n.speed <= targetKmh / 3.6
      && n.distance >= s.distance
  {
    StepSpeedInRange(p, s, dt, targetKmh, g, mode);
    StepDistanceGrows(p, s, dt, targetKmh, g, mode);
  }

  // ---------------------------------------------------------------------------
  // A run, as a value
  // ---------------------------------------------------------------------------

  /** Python's `int(x)`: truncation toward zero. */
  function Truncate(x: real): int
  {
    if x >= 0.0 then x.Floor else -((-x).Floor)
  }

  /** Number of steps `run_simulation` takes: `int(duration / dt)`, where a
      negative count gives an empty `range`. */
  function StepCount(duration: real, dt: real): (n: nat)
    requires dt != 0.0
    ensures duration / dt >= 0.0 ==> n as real <= duration / dt < n as real + 1.0
    ensures duration / dt < 1.0 ==> n == 0
  {
    var k := Truncate(duration / dt);
    if k < 0 then 0 else k
  }

  /** With a positive step the run never goes beyond the requested duration. */
  lemma StepCountWithinDuration(duration: real, dt: real)
    requires dt > 0.0 && duration >= 0.0
    ensures StepCount(duration, dt) as real * dt <= duration
  {
    var n := StepCount(duration, dt) as real;
    assert duration / dt >= 0.0;
    assert n <= duration / dt;
    assert n * dt <= (duration / dt) * dt;
  }

  /** `step` with the run's fixed inputs bound, as a state transformer. */
  function NextState(p: VehicleParameters, dt: real, targetKmh: real, g: Gradient, mode: Mode): SimulationState -> SimulationState
    requires Steppable(p)
  {
    s => StepNext(p, s, dt, targetKmh, g, mode)
  }

  /** What `step` appends, with the run's fixed inputs bound. */
  function EntryOf(p: VehicleParameters, dt: real, targetKmh: real, g: Gradient, mode: Mode): SimulationState -> HistoryEntry
    requires Steppable(p)
  {
    s => StepEntry(p, s, dt, targetKmh, g, mode)
  }

  /** The state after k applications of a step. */
  function Iterate(next: SimulationState -> SimulationState, s0: SimulationState, k: nat): SimulationState
  {
    if k == 0 then s0 else next(Iterate(next, s0, k - 1))
  }

  /** The history after k steps from an empty history: step i + 1 appends what it
      records from the state after i steps. */
  function Record(next: SimulationState -> SimulationState, entry: SimulationState -> HistoryEntry, s0: SimulationState, k: nat): History
  {
    if k == 0 then EmptyHistory
    else Record(next, entry, s0, k - 1).Append(entry(Iterate(next, s0, k - 1)))
  }

  /** k steps leave k aligned elements in every list. */
  lemma {:induction false} RecordLength(next: SimulationState -> SimulationState, entry: SimulationState -> HistoryEntry, s0: SimulationState, k: nat)
    ensures Record(next, entry, s0, k).Aligned() && Record(next, entry, s0, k).Length() == k
  {
    if k > 0 {
      RecordLength(next, entry, s0, k - 1);
      AppendAt(Record(next, entry, s0, k - 1), entry(Iterate(next, s0, k - 1)), k - 1);
    }
  }

  /** Entry i of k recorded steps is what was recorded from the state after i steps. */
  lemma {:induction false} RecordAt(next: SimulationState -> SimulationState, entry: SimulationState -> HistoryEntry, s0: SimulationState, k: nat, i: nat)
    requires i < k
    ensures Record(next, entry, s0, k).Aligned() && i < Record(next, entry, s0, k).Length()
    ensures Record(next, entry, s0, k).At(i) == entry(Iterate(next, s0, i))
  {
    var prev := Record(next, entry, s0, k - 1);
    RecordLength(next, entry, s0, k - 1);
    AppendAt(prev, entry(Iterate(next, s0, k - 1)), i);
    if i < k - 1 {
      RecordAt(next, entry, s0, k - 1, i);
    }
  }

  /** k steps leave k aligned elements in every list, and entry i is what was
      recorded from the state after i steps. */
  lemma RecordShape(next: SimulationState -> SimulationState, entry: SimulationState -> HistoryEntry, s0: SimulationState, k: nat)
    ensures var h := Record(next, entry, s0, k);
      && h.Aligned()
      && h.Length() == k
      && (forall i :: 0 <= i < k ==> h.At(i) == entry(Iterate(next, s0, i)))
  {
    RecordLength(next, entry, s0, k);
    forall i | 0 <= i < k
      ensures Record(next, entry, s0, k).At(i) == entry(Iterate(next, s0, i))
    {
      RecordAt(next, entry, s0, k, i);
    }
  }

  /** A property of states that every step preserves holds after any number of steps. */
  lemma {:induction false} IterateKeeps(next: SimulationState -> SimulationState, inv: SimulationState -> bool, s0: SimulationState, k: nat)
    requires inv(s0)
    requires forall s :: inv(s) ==> inv(next(s))
    ensures inv(Iterate(next, s0, k))
  {
    if k > 0 {
      IterateKeeps(next, inv, s0, k - 1);
    }
  }

  /** Total time of k steps of dt, accumulated one step at a time as `step` does. */
  function Elapsed(k: nat, dt: real): real
  {
    if k == 0 then 0.0 else Elapsed(k - 1, dt) + dt
  }

  /** k steps of dt take k*dt in total. */
  lemma {:induction false} ElapsedIsProduct(k: nat, dt: real)
    ensures Elapsed(k, dt) == (k as real) * dt
  {
    if k > 0 {
      ElapsedIsProduct(k - 1, dt);
    }
  }

  /** A step that advances the clock by dt leaves the clock k steps of dt ahead
      after k applications. */
  lemma {:induction false} IterateTime(next: SimulationState -> SimulationState, s0: SimulationState, k: nat, dt: real)
    requires forall s :: next(s).time == s.time + dt
    ensures Iterate(next, s0, k).time == s0.time + Elapsed(k, dt)
  {
    if k > 0 {
      IterateTime(next, s0, k - 1, dt);
    }
  }

  /** The state after k steps of `step` with fixed inputs. */
  function StateAfter(p: VehicleParameters, s0: SimulationState, k: nat, dt: real, targetKmh: real, g: Gradient, mode: Mode): SimulationState
    requires Steppable(p)
  {
    Iterate(NextState(p, dt, targetKmh, g, mode), s0, k)
  }

  /** The history after k steps of `step` with fixed inputs, from an empty history. */
  function HistoryAfter(p: VehicleParameters, s0: SimulationState, k: nat, dt: real, targetKmh: real, g: Gradient, mode: Mode): History
    requires Steppable(p)
  {
    Record(NextState(p, dt, targetKmh, g, mode), EntryOf(p, dt, targetKmh, g, mode), s0, k)
  }

  /** One more step of a run is one more `step`. */
  lemma StateAfterStep(p: VehicleParameters, s0: SimulationState, k: nat, dt: real, targetKmh: real, g: Gradient, mode: Mode)
    requires Steppable(p)
    ensures StateAfter(p, s0, k + 1, dt, targetKmh, g, mode) == StepNext(p, StateAfter(p, s0, k, dt, targetKmh, g, mode), dt, targetKmh, g, mode)
  {
  }

  /** Every step advances the clock by exactly dt. */
  lemma TimeAfter(p: VehicleParameters, s0: SimulationState, k: nat, dt: real, targetKmh: real, g: Gradient, mode: Mode)
    requires Steppable(p)
    ensures StateAfter(p, s0, k, dt, targetKmh, g, mode).time == s0.time + Elapsed(k, dt)
  {
    IterateTime(NextState(p, dt, targetKmh, g, mode), s0, k, dt);
  }

  /** The speed of a state lies in [0, hi]. */
  predicate SpeedWithin(s: SimulationState, hi: real)
  {
    0.0 <= s.speed <= hi
  }

  /** Starting with a speed in [0, target], every later state has its speed in
      [0, target]. */
  lemma SpeedStaysInRange(p: VehicleParameters, s0: SimulationState, k: nat, dt: real, targetKmh: real, g: Gradient, mode: Mode)
    requires Steppable(p) && dt >= 0.0
    requires 0.0 <= s0.speed <= targetKmh / 3.6
    ensures 0.0 <= StateAfter(p, s0, k, dt, targetKmh, g, mode).speed <= targetKmh / 3.6
  {
    var next := NextState(p, dt, targetKmh, g, mode);
    var inv := s => SpeedWithin(s, targetKmh / 3.6);
    forall s | inv(s)
      ensures inv(next(s))
    {
      StepSpeedInRange(p, s, dt, targetKmh, g, mode);
    }
    IterateKeeps(next, inv, s0, k);
  }

  /** Entry i of the history of n steps is what step i + 1 recorded. */
  lemma RunEntry(p: VehicleParameters, s0: SimulationState, n: nat, i: nat, dt: real, targetKmh: real, g: Gradient, mode: Mode)
    requires Steppable(p) && i < n
    ensures var h := HistoryAfter(p, s0, n, dt, targetKmh, g, mode);
      && h.Aligned() && h.Length() == n
      && h.At(i) == StepEntry(p, StateAfter(p, s0, i, dt, targetKmh, g, mode), dt, targetKmh, g, mode)
  {
    RecordShape(NextState(p, dt, targetKmh, g, mode), EntryOf(p, dt, targetKmh, g, mode), s0, n);
  }

  /** The recorded time, speed, power and distance of a step are those of the state
      it leaves behind, in the recorded units. */
  lemma EntryMatchesState(p: VehicleParameters, s: SimulationState, dt: real, targetKmh: real, g: Gradient, mode: Mode)
    requires Steppable(p)
    ensures var e := StepEntry(p, s, dt, targetKmh, g, mode);
      var n := StepNext(p, s, dt, targetKmh, g, mode);
      && e.time == n.time && e.speedMs == n.speed
      && e.motorPowerKw * 1000.0 == n.motorPower
      && e.distanceKm * 1000.0 == n.distance
  {
  }

  /** Recorded entry i of a run of n steps, whatever it records, comes from the state
      after i + 1 steps. */
  lemma RunEntryFields(p: VehicleParameters, s0: SimulationState, n: nat, i: nat, dt: real, targetKmh: real, g: Gradient, mode: Mode)
    requires Steppable(p) && i < n
    ensures var h := HistoryAfter(p, s0, n, dt, targetKmh, g, mode);
      var s := StateAfter(p, s0, i + 1, dt, targetKmh, g, mode);
      && h.Aligned() && h.Length() == n
      && h.time[i] == s.time && h.speedMs[i] == s.speed
      && h.motorPower[i] * 1000.0 == s.motorPower
      && h.distance[i] * 1000.0 == s.distance
  {
    RunEntry(p, s0, n, i, dt, targetKmh, g, mode);
    StateAfterStep(p, s0, i, dt, targetKmh, g, mode);
    EntryMatchesState(p, StateAfter(p, s0, i, dt, targetKmh, g, mode), dt, targetKmh, g, mode);
  }

  /** In a run of n steps from state s0, entry i is recorded at s0.time plus i + 1
      steps of dt. */
  lemma RunTimes(p: VehicleParameters, s0: SimulationState, n: nat, dt: real, targetKmh: real, g: Gradient, mode: Mode)
    requires Steppable(p)
    ensures var h := HistoryAfter(p, s0, n, dt, targetKmh, g, mode);
      h.Aligned() && h.Length() == n &&
      forall i :: 0 <= i < n ==> h.time[i] == s0.time + Elapsed(i + 1, dt)
  {
    var h := HistoryAfter(p, s0, n, dt, targetKmh, g, mode);
    RecordShape(NextState(p, dt, targetKmh, g, mode), EntryOf(p, dt, targetKmh, g, mode), s0, n);
    forall i | 0 <= i < n
      ensures h.time[i] == s0.time + Elapsed(i + 1, dt)
    {
      RunEntryFields(p, s0, n, i, dt, targetKmh, g, mode);
      TimeAfter(p, s0, i + 1, dt, targetKmh, g, mode);
    }
  }

  /** In a run whose start speed is in [0, target], every recorded speed is in
      [0, target] when dt >= 0. */
  lemma RunSpeeds(p: VehicleParameters, s0: SimulationState, n: nat, dt: real, targetKmh: real, g: Gradient, mode: Mode)
    requires Steppable(p) && dt >= 0.0
    requires 0.0 <= s0.speed <= targetKmh / 3.6
    ensures var h := HistoryAfter(p, s0, n, dt, targetKmh, g, mode);
      h.Aligned() && h.Length() == n &&
      forall i :: 0 <= i < n ==> 0.0 <= h.speedMs[i] <= targetKmh / 3.6
  {
    var h := HistoryAfter(p, s0, n, dt, targetKmh, g, mode);
    RecordShape(NextState(p, dt, targetKmh, g, mode), EntryOf(p, dt, targetKmh, g, mode), s0, n);
    forall i | 0 <= i < n
      ensures 0.0 <= h.speedMs[i] <= targetKmh / 3.6
    {
      RunEntryFields(p, s0, n, i, dt, targetKmh, g, mode);
      SpeedStaysInRange(p, s0, i + 1, dt, targetKmh, g, mode);
    }
  }

  /** Every recorded power, converted back to W, is within the mode's power rating. */
  lemma RunPowerCapped(p: VehicleParameters, s0: SimulationState, n: nat, dt: real, targetKmh: real, g: Gradient, mode: Mode)
    requires Steppable(p)
    ensures var h := HistoryAfter(p, s0, n, dt, targetKmh, g, mode);
      h.Aligned() && h.Length() == n &&
      forall i :: 0 <= i < n ==> h.motorPower[i] * 1000.0 <= MaxPower(p, mode)
  {
    var h := HistoryAfter(p, s0, n, dt, targetKmh, g, mode);
    RecordShape(NextState(p, dt, targetKmh, g, mode), EntryOf(p, dt, targetKmh, g, mode), s0, n);
    forall i | 0 <= i < n
      ensures h.motorPower[i] * 1000.0 <= MaxPower(p, mode)
    {
      RunEntryFields(p, s0, n, i, dt, targetKmh, g, mode);
    }
  }

  /** In a run whose start speed is in [0, target], the recorded distance never
      decreases when dt >= 0. */
  lemma RunDistanceGrows(p: VehicleParameters, s0: SimulationState, n: nat, dt: real, targetKmh: real, g: Gradient, mode: Mode)
    requires Steppable(p) && dt >= 0.0
    requires 0.0 <= s0.speed <= targetKmh / 3.6
    ensures var h := HistoryAfter(p, s0, n, dt, targetKmh, g, mode);
      h.Aligned() && h.Length() == n &&
      forall i :: 0 < i < n ==> h.distance[i - 1] <= h.distance[i]
  {
    var h := HistoryAfter(p, s0, n, dt, targetKmh, g, mode);
    RecordShape(NextState(p, dt, targetKmh, g, mode), EntryOf(p, dt, targetKmh, g, mode), s0, n);
    forall i | 0 < i < n
      ensures h.distance[i - 1] <= h.distance[i]
    {
      RunEntryFields(p, s0, n, i - 1, dt, targetKmh, g, mode);
      RunEntryFields(p, s0, n, i, dt, targetKmh, g, mode);
      SpeedStaysInRange(p, s0, i, dt, targetKmh, g, mode);
      StateAfterStep(p, s0, i, dt, targetKmh, g, mode);
      StepKeepsSpeedInRange(p, StateAfter(p, s0, i, dt, targetKmh, g, mode), dt, targetKmh, g, mode);
    }
  }

  // ---------------------------------------------------------------------------
  // Summary statistics
  // ---------------------------------------------------------------------------

  datatype Summary = Summary(
    maxSpeedKmh: real,
    avgSpeedKmh: real,
    maxAcceleration: real,
    maxMotorRpm: real,
    maxMotorTorque: real,
    maxMotorPowerKw: real,
    totalDistanceKm: real,
    totalEnergyKwh: real,
    energyPerKmWh: real,
    avgPowerKw: real)

  /** Arithmetic mean over exact reals (`np.mean` without rounding). */
  function Mean(s: seq<real>): real
    requires |s| > 0
  {
    Sum(s) / (|s| as real)
  }

  /** `max(l) if l else 0`, as the summary writes it for every list. */
  function MaxOrZero(s: seq<real>): real
  {
    if |s| > 0 then SeqMax(s) else 0.0
  }

  function MeanOrZero(s: seq<real>): real
  {
    if |s| > 0 then Mean(s) else 0.0
  }

  /** get_summary_stats over a history and the final state: nothing for an empty
      history; energy per km is zero unless some distance was covered. */
  function SummaryOf(h: History, s: SimulationState): Option<Summary>
  {
    if |h.time| == 0 then None
    else Some(Summary(
      MaxOrZero(h.speedKmh), MeanOrZero(h.speedKmh), MaxOrZero(h.acceleration),
      MaxOrZero(h.motorRpm), MaxOrZero(h.motorTorque), MaxOrZero(h.motorPower),
      s.distance / 1000.0, s.energyConsumed / 1000.0,
      if s.distance > 0.0 then s.energyConsumed / (s.distance / 1000.0) else 0.0,
      MeanOrZero(h.motorPower)))
  }

  lemma {:induction false} SumAtMost(s: seq<real>, m: real)
    requires forall i :: 0 <= i < |s| ==> s[i] <= m
    ensures Sum(s) <= (|s| as real) * m
  {
    if s != [] {
      SumAtMost(s[..|s| - 1], m);
    }
  }

  /** The maximum of a non-empty column is one of its values and bounds every value,
      and the column's mean does not exceed it. */
  lemma ColumnSummary(c: seq<real>)
    requires |c| > 0
    ensures MaxOrZero(c) in c
    ensures forall i :: 0 <= i < |c| ==> c[i] <= MaxOrZero(c)
    ensures MeanOrZero(c) <= MaxOrZero(c)
  {
    var mx := SeqMax(c);
    SumAtMost(c, mx);
    var n := |c| as real;
    assert Sum(c) / n <= mx;
  }

  /** What a summary promises about the history it summarises: each of its five
      maxima is a recorded value of its column and bounds every value of it, and the
      average speed and average power lie below their maxima. */
  predicate BoundsColumns(m: Summary, h: History)
    requires h.Aligned()
  {
    && m.maxSpeedKmh in h.speedKmh
    && (forall i :: 0 <= i < h.Length() ==> h.speedKmh[i] <= m.maxSpeedKmh)
    && m.maxAcceleration in h.acceleration
    && (forall i :: 0 <= i < h.Length() ==> h.acceleration[i] <= m.maxAcceleration)
    && m.maxMotorRpm in h.motorRpm
    && (forall i :: 0 <= i < h.Length() ==> h.motorRpm[i] <= m.maxMotorRpm)
    && m.maxMotorTorque in h.motorTorque
    && (forall i :: 0 <= i < h.Length() ==> h.motorTorque[i] <= m.maxMotorTorque)
    && m.maxMotorPowerKw in h.motorPower
    && (forall i :: 0 <= i < h.Length() ==> h.motorPower[i] <= m.maxMotorPowerKw)
    && m.avgSpeedKmh <= m.maxSpeedKmh
    && m.avgPowerKw <= m.maxMotorPowerKw
  }

  /** The summary of a non-empty aligned history bounds its columns, and the
      energy per km times the distance in km gives back the energy. */
  lemma SummaryFacts(h: History, s: SimulationState)
    requires h.Aligned() && h.Length() > 0
    ensures SummaryOf(h, s).Some?
    ensures BoundsColumns(SummaryOf(h, s).value, h)
    ensures var m := SummaryOf(h, s).value;
      && (s.distance > 0.0 ==> m.energyPerKmWh * (s.distance / 1000.0) == s.energyConsumed)
      && (s.distance <= 0.0 ==> m.energyPerKmWh == 0.0)
  {
    ColumnSummary(h.speedKmh);
    ColumnSummary(h.acceleration);
    ColumnSummary(h.motorRpm);
    ColumnSummary(h.motorTorque);
    ColumnSummary(h.motorPower);
  }

  /** Every summary of an aligned history bounds its columns. */
  lemma SummaryBoundsColumns(h: History, s: SimulationState)
    ensures SummaryOf(h, s).Some? && h.Aligned() ==> BoundsColumns(SummaryOf(h, s).value, h)
  {
    if h.Aligned() && h.Length() > 0 {
      SummaryFacts(h, s);
    }
  }

  /** The engine object: parameters fixed at construction, a state and a history
      that `step`, `reset` and `run_simulation` update in place. */
  class EVSimulationEngine {
    const params: VehicleParameters
    var state: SimulationState
    var history: History

    /** __init__ stores the parameters and resets. */
    constructor (params: VehicleParameters)
      ensures this.params == params
      ensures state == InitialState && history == EmptyHistory
    {
      this.params := params;
      state := InitialState;
      history := EmptyHistory;
    }

    /** reset: a zero state and fifteen empty lists. */
    method Reset()
      modifies this
      ensures state == InitialState && history == EmptyHistory
    {
      state := InitialState;
      history := EmptyHistory;
    }

    /** step: computes torque, forces, acceleration, the clamped speed, RPM, power,
        distance and energy; updates the state; appends one value to every list. */
    method Step(dt: real, targetKmh: real, g: Gradient, mode: Mode)
      requires Steppable(params)
      modifies this
      ensures state == StepNext(params, old(state), dt, targetKmh, g, mode)
      ensures history == old(history).Append(StepEntry(params, old(state), dt, targetKmh, g, mode))
      ensures old(history).Aligned() ==> history.Aligned() && history.Length() == old(history.Length()) + 1
      ensures state.time == old(state.time) + dt
      ensures state.motorPower <= MaxPower(params, mode)
      ensures dt >= 0.0 && 0.0 <= old(state.speed) <= targetKmh / 3.6 ==>
        0.0 <= state.speed <= targetKmh / 3.6 && old(state.distance) <= state.distance
    {
      ghost var before := state;
      if dt >= 0.0 && 0.0 <= before.speed <= targetKmh / 3.6 {
        StepKeepsSpeedInRange(params, before, dt, targetKmh, g, mode);
      }
      if history.Aligned() {
        AppendOne(history, StepEntry(params, before, dt, targetKmh, g, mode));
      }
      var targetMs := targetKmh / 3.6;
      var motorTorque := RequiredTorque(params, state.speed, targetMs, g, mode);
      var fTractive := TractiveForce(params, motorTorque);
      var fRoll := RollingResistance(params, g);
      var fDrag := DragForce(params, state.speed);
      var fClimb := ClimbingForce(params, g);
      var fTotal := fRoll + fDrag + fClimb;
      var fNet := fTractive - fTotal;
      var acceleration := fNet / params.vehicleMass;
      var newSpeed := ClampedSpeed(state.speed, acceleration, dt, targetMs);
      var motorRpm := MotorRpm(params, newSpeed);
      var motorPower := MotorPower(params, motorTorque, motorRpm, mode);

      var distanceIncrement := TrapezoidDistance(state.speed, newSpeed, dt);
      var energyIncrement := EnergyWh(motorPower, dt);

      state := SimulationState(
        state.time + dt, newSpeed, acceleration, motorRpm, motorTorque, motorPower,
        state.distance + distanceIncrement, state.energyConsumed + energyIncrement);

      history := history.Append(HistoryEntry(
        state.time, state.speed, state.speed * 3.6, motorRpm, motorTorque, motorPower / 1000.0,
        fTractive, fRoll, fDrag, fClimb, fTotal, fNet, acceleration,
        state.distance / 1000.0, state.energyConsumed / 1000.0));
    }

    /** run_simulation: reset, then `int(duration/dt)` steps with the same inputs.
        Afterwards there is one entry per step, entry i is recorded (i+1) steps of dt
        after the start, every recorded power is within the mode's rating, and for
        a positive dt and non-negative target speed every recorded speed lies in
        [0, target] and the recorded distance never decreases. */
    method RunSimulation(duration: real, targetKmh: real, g: Gradient, mode: Mode, dt: real)
      requires Steppable(params) && dt != 0.0
      modifies this
      ensures var n := StepCount(duration, dt);
        && state == StateAfter(params, InitialState, n, dt, targetKmh, g, mode)
        && history == HistoryAfter(params, InitialState, n, dt, targetKmh, g, mode)
      ensures history.Aligned() && history.Length() == StepCount(duration, dt)
      ensures forall i :: 0 <= i < history.Length() ==> history.time[i] == Elapsed(i + 1, dt)
      ensures forall i :: 0 <= i < history.Length() ==> history.motorPower[i] * 1000.0 <= MaxPower(params, mode)
      ensures dt > 0.0 && targetKmh >= 0.0 ==>
        forall i :: 0 <= i < history.Length() ==> 0.0 <= history.speedMs[i] <= targetKmh / 3.6
      ensures dt > 0.0 && targetKmh >= 0.0 ==>
        forall i :: 0 < i < history.Length() ==> history.distance[i - 1] <= history.distance[i]
    {
      Reset();
      var numSteps := StepCount(duration, dt);
      var i := 0;
      while i < numSteps
        invariant 0 <= i <= numSteps
        invariant state == StateAfter(params, InitialState, i, dt, targetKmh, g, mode)
        invariant history == HistoryAfter(params, InitialState, i, dt, targetKmh, g, mode)
      {
        Step(dt, targetKmh, g, mode);
        i := i + 1;
      }
      RunTimes(params, InitialState, numSteps, dt, targetKmh, g, mode);
      RunPowerCapped(params, InitialState, numSteps, dt, targetKmh, g, mode);
      if dt > 0.0 && targetKmh >= 0.0 {
        RunSpeeds(params, InitialState, numSteps, dt, targetKmh, g, mode);
        RunDistanceGrows(params, InitialState, numSteps, dt, targetKmh, g, mode);
      }
    }

    /** get_summary_stats on the current history and state. */
    function GetSummaryStats(): (r: Option<Summary>)
      reads this
      ensures r.None? <==> history.Length() == 0
      ensures r.Some? && history.Aligned() ==> BoundsColumns(r.value, history)
    {
      SummaryBoundsColumns(history, state);
      SummaryOf(history, state)
    }
  }
}
