/** The inline engine of main_app.py: the initial-value formulas of the graph
    simulation (`update_graph_sim_calculated_values`) and the explicit Euler fold of
    `generate_graph_simulation_data`, which emits one 17-column row per time step.
    The vehicle constants are the EV defaults; the sine of the road gradient is
    supplied by the caller; the time stamps (the `np.arange` grid) are an input. */
module GraphSim {
  import opened Common
  import opened Catalog

  /** The literal 2·π the graph formulas write as `2 * 3.14159`. */
  const TwoPi: real := 2.0 * 3.14159

  /** `gear_efficiency / 100`. */
  const GearEfficiency: real := GearEfficiencyPct / 100.0

  /** Motor speed from vehicle speed in km/h; the 0.001 in the divisor converts the km of the speed to m. */
  function GraphRpm(speedKmh: real): (rpm: real)
    ensures speedKmh >= 0.0 ==> rpm >= 0.0
    ensures speedKmh == 0.0 ==> rpm == 0.0
  {
    (speedKmh * GearRatio) / (2.0 * 3.14159 * WheelRadius * 0.001 * 60.0)
  }

  /** The two-region torque curve: the mode's constant torque strictly below base
      speed, and from base speed on the torque that delivers the mode's power. */
  function CurveTorque(r: ModeRating, rpm: real): (t: real)
    requires rpm < r.baseRpm || rpm != 0.0
    ensures rpm < r.baseRpm ==> t == r.torque
    ensures rpm >= r.baseRpm ==> TwoPi * rpm * t / 60.0 == r.power
  {
    if rpm < r.baseRpm then r.torque
    else
      var t := (r.power * 60.0) / (2.0 * 3.14159 * rpm);
      PowerFromTorque(r.power, rpm, t);
      t
  }

  lemma PowerFromTorque(p: real, rpm: real, t: real)
    requires rpm != 0.0 && t == (p * 60.0) / (2.0 * 3.14159 * rpm)
    ensures TwoPi * rpm * t / 60.0 == p
  {
    assert t * (2.0 * 3.14159 * rpm) == p * 60.0;
  }

  /** The twelve quantities the formulas derive from a vehicle speed. */
  datatype Point = Point(
    speedKmh: real,
    motorRpm: real,
    totalTorque: real,
    perMotorTorque: real,
    perMotorPower: real,
    tractive: real,
    roll: real,
    drag: real,
    climb: real,
    load: real,
    net: real,
    accel: real)

  /** Rolling resistance of the graph formulas: no cos θ factor. */
  const GraphRoll: real := RollingCoefficient * Gvw * 9.81

  // The individual formulas, each written once and used both by the functions that
  // specify a row and by the loop body that computes it.

  /** Euler update of the speed with the previous acceleration, floored at zero. */
  function EulerSpeed(speedMs: real, accel: real, dt: real): (v: real)
    ensures v >= 0.0
  {
    Max(0.0, speedMs + accel * dt)
  }

  function SpeedKmh(speedMs: real): real { speedMs * 3.6 }

  /** Torque of all motors together. */
  function TotalTorque(torque: real, wheels: int): real { torque * wheels as real }

  /** Share of one motor. */
  function MotorShare(total: real, wheels: int): real
    requires wheels != 0
  {
    total / wheels as real
  }

  /** Shaft power in W of a torque in Nm at a speed in rpm. */
  function ShaftPower(rpm: real, torque: real): real { (2.0 * 3.14159 * rpm * torque) / 60.0 }

  function Tractive(totalTorque: real): real { (totalTorque * GearEfficiency * GearRatio) / WheelRadius }

  /** Aerodynamic drag from the speed in km/h (0.03858… is 0.5 / 3.6²). */
  function GraphDrag(speedKmh: real): real
  {
    DragCoefficient * AirDensity * FrontalArea * speedKmh * speedKmh * 0.03858025308642
  }

  function Climb(sinGrade: real): real { Gvw * 9.81 * sinGrade }

  function AccelOf(net: real): real { net / Gvw }

  /** The formulas at one speed (in m/s), shared by the initial-value update and by
      every step of the fold after the first row. */
  function OperatingPoint(speedMs: real, r: ModeRating, wheels: int, sinGrade: real): (pt: Point)
    requires wheels != 0 && r.baseRpm > 0.0
    ensures pt.speedKmh == speedMs * 3.6
    ensures pt.perMotorTorque == CurveTorque(r, pt.motorRpm)
    ensures pt.motorRpm >= r.baseRpm ==> pt.perMotorPower == r.power
    ensures pt.totalTorque == pt.perMotorTorque * wheels as real
    ensures pt.roll == GraphRoll && pt.climb == Gvw * 9.81 * sinGrade && pt.drag >= 0.0
    ensures pt.load == pt.roll + pt.drag + pt.climb
    ensures pt.net == pt.tractive - pt.load
    ensures pt.accel * Gvw == pt.net
  {
    var kmh := SpeedKmh(speedMs);
    var rpm := GraphRpm(kmh);
    var torque := CurveTorque(r, rpm);
    var total := TotalTorque(torque, wheels);
    var per := MotorShare(total, wheels);
    var perPower := ShaftPower(rpm, per);
    var tractive := Tractive(total);
    var roll := GraphRoll;
    var drag := GraphDrag(kmh);
    var climb := Climb(sinGrade);
    var load := roll + drag + climb;
    var net := tractive - load;
    DragNonNegative(kmh);
    Point(kmh, rpm, total, per, perPower, tractive, roll, drag, climb, load, net, AccelOf(net))
  }

  lemma DragNonNegative(x: real)
    ensures GraphDrag(x) >= 0.0
  {
    assert x * x >= 0.0;
  }

  /** `update_graph_sim_calculated_values`: the initial fields from the initial speed
      in m/s, the motor selection, the mode, the power-wheel count and the gradient. */
  function InitialValues(speedMs: real, choice: MotorChoice, mode: Mode, wheels: int, sinGrade: real): (pt: Point)
    requires wheels != 0
    ensures pt.speedKmh == speedMs * 3.6
    ensures pt.motorRpm < 500.0 ==> pt.perMotorTorque == SelectRating(choice, mode).torque
    ensures pt.motorRpm >= 500.0 ==> pt.perMotorPower == SelectRating(choice, mode).power
    ensures pt.load == pt.roll + pt.drag + pt.climb && pt.net == pt.tractive - pt.load
    ensures pt.accel * Gvw == pt.net
  {
    OperatingPoint(speedMs, SelectRating(choice, mode), wheels, sinGrade)
  }

  /** The mode column: 'Eco-1' or 'Boost-2'. */
  function ModeDisplay(mode: Mode): string
  {
    if mode == Eco then "Eco-1" else "Boost-2"
  }

  /** One output row; the fields follow the seventeen keys in their order. */
  datatype Row = Row(
    time: real,
    speedMs: real,
    speedKmh: real,
    motorRpm: real,
    gradientDeg: real,
    mode: string,
    totalTorque: real,
    numPowerWheels: int,
    perMotorTorque: real,
    perMotorPower: real,
    tractive: real,
    roll: real,
    drag: real,
    climb: real,
    load: real,
    net: real,
    accel: real)

  /** The widget values the fold reads: gradient (degrees and its sine), mode, motor
      selection, power-wheel count, time step, and the thirteen initial fields. */
  datatype GraphInputs = GraphInputs(
    gradientDeg: real,
    sinGrade: real,
    mode: Mode,
    choice: MotorChoice,
    wheels: int,
    dt: real,
    initSpeedMs: real,
    init: Point)

  /** Speed and derived quantities carried from one row to the next. */
  datatype Sample = Sample(speedMs: real, point: Point)

  /** The fold divides by the power-wheel count from the second row on. */
  predicate Runnable(inputs: GraphInputs, rows: nat)
  {
    rows <= 1 || inputs.wheels != 0
  }

  /** One Euler step: the previous acceleration moves the speed, floored at zero,
      and the formulas are re-evaluated at the new speed. */
  function Advance(inputs: GraphInputs, s: Sample): (next: Sample)
    requires inputs.wheels != 0
    ensures next.speedMs >= 0.0
  {
    var v := EulerSpeed(s.speedMs, s.point.accel, inputs.dt);
    Sample(v, OperatingPoint(v, SelectRating(inputs.choice, inputs.mode), inputs.wheels, inputs.sinGrade))
  }

  /** One Euler step as a function value, for the generic fold below. */
  function Stepper(inputs: GraphInputs): Sample -> Sample
    requires inputs.wheels != 0
  {
    s => Advance(inputs, s)
  }

  /** k applications of a stepping function (kept generic so that reasoning about
      the fold does not unfold the formulas). */
  function Unroll(next: Sample -> Sample, s0: Sample, k: nat): Sample
  {
    if k == 0 then s0 else next(Unroll(next, s0, k - 1))
  }

  /** The carried values at row k: the initial fields at row 0, then one Euler step per row. */
  function SampleAt(inputs: GraphInputs, k: nat): Sample
    requires k == 0 || inputs.wheels != 0
  {
    if k == 0 then Sample(inputs.initSpeedMs, inputs.init)
    else Unroll(Stepper(inputs), Sample(inputs.initSpeedMs, inputs.init), k)
  }

  /** Each row after the first carries one more Euler step. */
  lemma SampleAtSucc(inputs: GraphInputs, k: nat)
    requires inputs.wheels != 0
    ensures SampleAt(inputs, k + 1) == Advance(inputs, SampleAt(inputs, k))
  {
  }

  function RowOf(inputs: GraphInputs, t: real, s: Sample): Row
  {
    Row(t, s.speedMs, s.point.speedKmh, s.point.motorRpm, inputs.gradientDeg, ModeDisplay(inputs.mode),
        s.point.totalTorque, inputs.wheels, s.point.perMotorTorque, s.point.perMotorPower,
        s.point.tractive, s.point.roll, s.point.drag, s.point.climb, s.point.load, s.point.net,
        s.point.accel)
  }

  /** The rows the fold emits: row i is stamped with time step i and carries the
      values after i Euler steps. */
  function GraphRows(inputs: GraphInputs, timeSteps: seq<real>): (rows: seq<Row>)
    requires Runnable(inputs, |timeSteps|)
  {
    seq(|timeSteps|, i requires 0 <= i < |timeSteps| => RowOf(inputs, timeSteps[i], SampleAt(inputs, i)))
  }

  /** One pass of the loop body after the first row: the Euler update of the speed
      and the formulas re-evaluated at the new speed. */
  method EulerStep(inputs: GraphInputs, s: Sample) returns (next: Sample)
    requires inputs.wheels != 0
    ensures next == Advance(inputs, s)
  {
    var dt := inputs.dt;
    var rating := SelectRating(inputs.choice, inputs.mode);
    var currentSpeedMs := EulerSpeed(s.speedMs, s.point.accel, dt);
    var currentSpeedKmh := SpeedKmh(currentSpeedMs);
    var motorSpeedRpm := GraphRpm(currentSpeedKmh);
    var torque := CurveTorque(rating, motorSpeedRpm);
    var totalMotorTorque := TotalTorque(torque, inputs.wheels);
    var perMotorTorque := MotorShare(totalMotorTorque, inputs.wheels);
    var perMotorPower := ShaftPower(motorSpeedRpm, perMotorTorque);
    var fTractive := Tractive(totalMotorTorque);
    var fRoll := GraphRoll;
    var fDrag := GraphDrag(currentSpeedKmh);
    var fClimb := Climb(inputs.sinGrade);
    var fLoad := fRoll + fDrag + fClimb;
    var fNet := fTractive - fLoad;
    var acceleration := AccelOf(fNet);
    next := Sample(currentSpeedMs, Point(currentSpeedKmh, motorSpeedRpm, totalMotorTorque, perMotorTorque,
                   perMotorPower, fTractive, fRoll, fDrag, fClimb, fLoad, fNet, acceleration));
  }

  /** `generate_graph_simulation_data`: the loop over the time steps, updating the
      carried values from the second row on and appending one row per step. */
  method GenerateGraphSimulationData(inputs: GraphInputs, timeSteps: seq<real>) returns (data: seq<Row>)
    requires Runnable(inputs, |timeSteps|)
    ensures data == GraphRows(inputs, timeSteps)
  {
    var modeDisplay := ModeDisplay(inputs.mode);
    var current := Sample(inputs.initSpeedMs, inputs.init);
    data := [];
    var i := 0;
    while i < |timeSteps|
      invariant 0 <= i <= |timeSteps|
      invariant current == SampleAt(inputs, if i == 0 then 0 else i - 1)
      invariant |data| == i
      invariant forall j :: 0 <= j < i ==> data[j] == RowOf(inputs, timeSteps[j], SampleAt(inputs, j))
    {
      if i > 0 {
        current := EulerStep(inputs, current);
        SampleAtSucc(inputs, i - 1);
      }
      var p := current.point;
      data := data + [Row(timeSteps[i], current.speedMs, p.speedKmh, p.motorRpm, inputs.gradientDeg,
                          modeDisplay, p.totalTorque, inputs.wheels, p.perMotorTorque, p.perMotorPower,
                          p.tractive, p.roll, p.drag, p.climb, p.load, p.net, p.accel)];
      i := i + 1;
    }
  }

  // ---------------------------------------------------------------------------
  // Properties of the rows
  // ---------------------------------------------------------------------------

  /** Row 0 carries the initial fields unchanged. */
  lemma FirstRowIsInitial(inputs: GraphInputs, timeSteps: seq<real>)
    requires Runnable(inputs, |timeSteps|) && |timeSteps| > 0
    ensures var r := GraphRows(inputs, timeSteps)[0];
      r.speedMs == inputs.initSpeedMs && r.speedKmh == inputs.init.speedKmh &&
      r.motorRpm == inputs.init.motorRpm && r.totalTorque == inputs.init.totalTorque &&
      r.perMotorTorque == inputs.init.perMotorTorque && r.perMotorPower == inputs.init.perMotorPower &&
      r.tractive == inputs.init.tractive && r.roll == inputs.init.roll && r.drag == inputs.init.drag &&
      r.climb == inputs.init.climb && r.load == inputs.init.load && r.net == inputs.init.net &&
      r.accel == inputs.init.accel
  {
  }

  /** Every later row's speed is the previous row's speed plus the previous row's
      acceleration times the time step, floored at zero. */
  lemma SpeedRecurrence(inputs: GraphInputs, timeSteps: seq<real>, i: int)
    requires Runnable(inputs, |timeSteps|) && 0 < i < |timeSteps|
    ensures var rows := GraphRows(inputs, timeSteps);
      rows[i].speedMs == EulerSpeed(rows[i - 1].speedMs, rows[i - 1].accel, inputs.dt)
  {
    SampleAtSucc(inputs, i - 1);
  }

  /** No row after the first has a negative speed, and with a non-negative initial
      speed no row at all has. */
  lemma SpeedNeverNegative(inputs: GraphInputs, timeSteps: seq<real>, i: int)
    requires Runnable(inputs, |timeSteps|) && 0 <= i < |timeSteps|
    ensures i > 0 || inputs.initSpeedMs >= 0.0 ==> GraphRows(inputs, timeSteps)[i].speedMs >= 0.0
  {
    if i > 0 {
      SampleAtSucc(inputs, i - 1);
    }
  }

  /** From row 1 on, per-motor torque is the curve torque at the row's motor speed:
      the total torque (curve torque times wheel count) divided back by the wheel count. */
  lemma RowTorque(inputs: GraphInputs, timeSteps: seq<real>, i: int)
    requires Runnable(inputs, |timeSteps|) && 0 < i < |timeSteps|
    ensures var r := GraphRows(inputs, timeSteps)[i];
      r.perMotorTorque == CurveTorque(SelectRating(inputs.choice, inputs.mode), r.motorRpm)
  {
    SampleAtSucc(inputs, i - 1);
  }

  /** From row 1 on, below base speed the per-motor torque is the mode's torque, and
      from base speed on the per-motor power is the mode's power. */
  lemma RowTorqueRegions(inputs: GraphInputs, timeSteps: seq<real>, i: int)
    requires Runnable(inputs, |timeSteps|) && 0 < i < |timeSteps|
    ensures var r := GraphRows(inputs, timeSteps)[i]; var rating := SelectRating(inputs.choice, inputs.mode);
      (r.motorRpm < rating.baseRpm ==> r.perMotorTorque == rating.torque) &&
      (r.motorRpm >= rating.baseRpm ==> r.perMotorPower == rating.power)
  {
    SampleAtSucc(inputs, i - 1);
  }

  /** From row 1 on, the force columns balance: load is the sum of the three
      resistances, net force is tractive force minus load, and acceleration times
      the gross vehicle weight is the net force. */
  lemma RowForceBalance(inputs: GraphInputs, timeSteps: seq<real>, i: int)
    requires Runnable(inputs, |timeSteps|) && 0 < i < |timeSteps|
    ensures var r := GraphRows(inputs, timeSteps)[i];
      r.load == r.roll + r.drag + r.climb && r.net == r.tractive - r.load && r.accel * Gvw == r.net
  {
    SampleAtSucc(inputs, i - 1);
  }

  /** Rolling and climbing resistance are the same in every row after row 0, and
      the gradient, mode and wheel-count columns are the same in every row. */
  lemma ConstantColumns(inputs: GraphInputs, timeSteps: seq<real>, i: int, j: int)
    requires Runnable(inputs, |timeSteps|) && 0 <= i < |timeSteps| && 0 <= j < |timeSteps|
    ensures var rows := GraphRows(inputs, timeSteps);
      rows[i].gradientDeg == rows[j].gradientDeg && rows[i].mode == rows[j].mode &&
      rows[i].numPowerWheels == rows[j].numPowerWheels &&
      (i > 0 && j > 0 ==> rows[i].roll == rows[j].roll && rows[i].climb == rows[j].climb)
  {
    if i > 0 && j > 0 {
      SampleAtSucc(inputs, i - 1);
      SampleAtSucc(inputs, j - 1);
    }
  }

  /** When the initial fields are the ones `update_graph_sim_calculated_values`
      computes from the initial speed, row 0 obeys the formulas too: it is the
      operating point of its own speed. */
  lemma CalculatedStartIsConsistent(inputs: GraphInputs, timeSteps: seq<real>)
    requires Runnable(inputs, |timeSteps|) && |timeSteps| > 0 && inputs.wheels != 0
    requires inputs.init == InitialValues(inputs.initSpeedMs, inputs.choice, inputs.mode, inputs.wheels, inputs.sinGrade)
    ensures var r := GraphRows(inputs, timeSteps)[0];
      r.load == r.roll + r.drag + r.climb && r.net == r.tractive - r.load && r.accel * Gvw == r.net &&
      r.speedKmh == r.speedMs * 3.6
  {
  }
}
