/** The single-shot output formulas of `compute_output_values` in main_app.py: the
    resistive forces at the target speeds, the acceleration power terms, the
    efficiency chain from wheel to battery, motor and wheel RPM and torque, the
    formula battery sizing, the four-slab drive pattern, and the per-motor
    distribution of a UGV with several powered wheels. Python's `**` with a real
    exponent is the caller-supplied `pow`. */
module OutputValues {
  import opened Common
  import MotorCheck

  /** The values `compute_output_values` reads from the EV or UGV tab. Speeds are
      in km/h, efficiencies already divided by 100, `gvw` is the gross vehicle
      weight (on the EV tab the battery, vehicle and passenger weights added up),
      and `sinGradeability` is `math.sin(gradeability * 0.01745329)`. */
  datatype VehicleInputs = VehicleInputs(
    wheelRadius: real,
    gearRatio: real,
    gearEfficiency: real,
    motorEfficiency: real,
    motorBaseRpm: real,
    cd: real,
    cr: real,
    frontalArea: real,
    airDensity: real,
    gvw: real,
    maxSpeed: real,
    slopeSpeed: real,
    gradeability: real,
    sinGradeability: real,
    accelEndSpeed: real,
    accelPeriod: real,
    rotaryInertia: real)

  /** The divisors the formulas use without a guard; a zero one raises
      ZeroDivisionError in the source. */
  predicate Computable(v: VehicleInputs)
  {
    v.wheelRadius != 0.0 && v.gearRatio != 0.0 && v.gearEfficiency != 0.0 && v.motorEfficiency != 0.0 &&
    v.accelPeriod != 0.0 && v.maxSpeed != 0.0 && v.slopeSpeed != 0.0 && v.accelEndSpeed != 0.0
  }

  // ---------------------------------------------------------------------------
  // Forces
  // ---------------------------------------------------------------------------

  datatype ResistiveForces = ResistiveForces(dragMax: real, dragSlope: real, roll: real, climb: real)

  /** Drag at the top and slope speeds, rolling resistance on the flat, and the
      climbing force at the rated gradeability. */
  function Resistances(v: VehicleInputs): ResistiveForces
  {
    ResistiveForces(
      HalfDrag(v.cd, v.airDensity, v.frontalArea, v.maxSpeed / 3.6),
      HalfDrag(v.cd, v.airDensity, v.frontalArea, v.slopeSpeed / 3.6),
      v.cr * v.gvw * 9.81,
      v.gvw * 9.81 * v.sinGradeability)
  }

  /** The output formulas and the force helper `calculate_vehicle_forces` agree: the
      same drag at both target speeds, the same rolling resistance, and (given the
      same sine) the same climbing force. */
  lemma ResistancesMatchForceHelper(v: VehicleInputs)
    ensures var f := Resistances(v);
      var p := MotorCheck.ForceParams(v.cr, v.gvw, v.cd, v.airDensity, v.frontalArea, v.gradeability, v.sinGradeability);
      && f.dragMax == MotorCheck.VehicleForces(p, v.maxSpeed).drag
      && f.dragSlope == MotorCheck.VehicleForces(p, v.slopeSpeed).drag
      && f.roll == MotorCheck.VehicleForces(p, v.maxSpeed).roll
      && f.climb == MotorCheck.VehicleForces(p, v.slopeSpeed).grade
  {
  }

  // ---------------------------------------------------------------------------
  // Acceleration power
  // ---------------------------------------------------------------------------

  /** The vehicle speed in m/s at which the motor turns at its base RPM. */
  function BaseSpeed(v: VehicleInputs): real
    requires v.gearRatio != 0.0
  {
    (v.motorBaseRpm * 2.0 * Pi * v.wheelRadius) / (60.0 * v.gearRatio)
  }

  /** The acceleration end speed in m/s, with the source's conversion factor. */
  function EndSpeed(v: VehicleInputs): real
  {
    v.accelEndSpeed * 0.277777777777777
  }

  datatype AccelTerms = AccelTerms(term1: real, term2: real, term3: real)

  /** The three terms of the acceleration power: kinetic (with rotary inertia) over
      the acceleration period, aerodynamic, and rolling. */
  function AccelerationTerms(v: VehicleInputs): AccelTerms
    requires v.gearRatio != 0.0 && v.accelPeriod != 0.0
  {
    var vEnd := EndSpeed(v);
    var vBase := BaseSpeed(v);
    AccelTerms(
      ((v.gvw * v.rotaryInertia) / (2.0 * v.accelPeriod)) * (vEnd * vEnd + vBase * vBase),
      (v.cd * v.airDensity * v.frontalArea * vEnd * vEnd * vEnd) / 5.0,
      (2.0 * v.cr * v.gvw * 9.81 * vEnd) / 3.0)
  }

  /** The aerodynamic term is two fifths of the drag power at the end speed and the
      rolling term two thirds of the rolling power at the end speed. */
  lemma AccelTermsAsPowers(v: VehicleInputs)
    requires v.gearRatio != 0.0 && v.accelPeriod != 0.0
    ensures var t := AccelerationTerms(v);
      var vEnd := EndSpeed(v);
      && t.term2 == 0.4 * (HalfDrag(v.cd, v.airDensity, v.frontalArea, vEnd) * vEnd)
      && t.term3 == (2.0 / 3.0) * (Resistances(v).roll * vEnd)
  {
    var vEnd := EndSpeed(v);
    var k := v.cd * v.airDensity * v.frontalArea;
    assert HalfDrag(v.cd, v.airDensity, v.frontalArea, vEnd) * vEnd == 0.5 * (k * vEnd * vEnd * vEnd);
  }

  /** The kinetic term is not negative for a non-negative mass and inertia factor
      and a positive period. */
  lemma KineticTermNonNegative(v: VehicleInputs)
    requires v.gearRatio != 0.0 && v.accelPeriod > 0.0 && v.gvw >= 0.0 && v.rotaryInertia >= 0.0
    ensures AccelerationTerms(v).term1 >= 0.0
  {
    var vEnd := EndSpeed(v);
    var vBase := BaseSpeed(v);
    var c := (v.gvw * v.rotaryInertia) / (2.0 * v.accelPeriod);
    var s := vEnd * vEnd + vBase * vBase;
    assert c >= 0.0;
    assert s >= 0.0;
    NonNegativeProduct(c, s);
  }

  // ---------------------------------------------------------------------------
  // Efficiency chain, RPM and torque
  // ---------------------------------------------------------------------------

  /** Motor RPM at a vehicle speed in km/h (the `0.001 * 60` turns km/h into m/min). */
  function MotorRpmAt(speedKmh: real, gearRatio: real, wheelRadius: real): real
    requires wheelRadius != 0.0
  {
    (speedKmh * gearRatio) / (2.0 * Pi * wheelRadius * 0.001 * 60.0)
  }

  /** Wheel RPM at a vehicle speed in m/s. */
  function WheelRpmAt(speedMs: real, wheelRadius: real): real
    requires wheelRadius != 0.0
  {
    (speedMs * 60.0) / (2.0 * Pi * wheelRadius)
  }

  /** Torque in Nm that carries a power in W at a speed in RPM. */
  function TorqueFromPower(power: real, rpm: real): real
    requires rpm != 0.0
  {
    (power * 60.0) / (2.0 * Pi * rpm)
  }

  /** One operating condition (top speed, slope, acceleration): battery-side motor
      input, motor output, wheel power, and the RPM and torque of motor and wheel. */
  datatype Operating = Operating(
    input: real,
    output: real,
    wheelPower: real,
    motorRpm: real,
    motorTorque: real,
    wheelRpm: real,
    wheelTorque: real)

  /** The chain for a power needed at the wheels `road` at a speed in km/h; the wheel
      torque is guarded against a non-positive wheel RPM where the source guards it. */
  function OperatingPoint(v: VehicleInputs, road: real, speedKmh: real, guardWheel: bool): Operating
    requires Computable(v) && speedKmh != 0.0
  {
    var input := road / (v.gearEfficiency * v.motorEfficiency);
    var output := road / v.gearEfficiency;
    var motorRpm := MotorRpmAt(speedKmh, v.gearRatio, v.wheelRadius);
    RpmNonZero(speedKmh, v.gearRatio, v.wheelRadius);
    var motorTorque := TorqueFromPower(output, motorRpm);
    var wheelPower := output * v.gearEfficiency;
    var wheelRpm := WheelRpmAt(speedKmh / 3.6, v.wheelRadius);
    GearMultipliesRpm(speedKmh, v.gearRatio, v.wheelRadius);
    var wheelTorque := if guardWheel && wheelRpm <= 0.0 then 0.0 else TorqueFromPower(wheelPower, wheelRpm);
    Operating(input, output, wheelPower, motorRpm, motorTorque, wheelRpm, wheelTorque)
  }

  lemma RpmNonZero(speedKmh: real, gearRatio: real, wheelRadius: real)
    requires speedKmh != 0.0 && gearRatio != 0.0 && wheelRadius != 0.0
    ensures MotorRpmAt(speedKmh, gearRatio, wheelRadius) != 0.0
  {
    assert speedKmh * gearRatio != 0.0;
  }

  /** The motor turns `gearRatio` times as fast as the wheel at every speed. */
  lemma GearMultipliesRpm(speedKmh: real, gearRatio: real, wheelRadius: real)
    requires wheelRadius != 0.0
    ensures MotorRpmAt(speedKmh, gearRatio, wheelRadius) == gearRatio * WheelRpmAt(speedKmh / 3.6, wheelRadius)
  {
    var d := 2.0 * Pi * wheelRadius;
    assert d != 0.0;
    assert 2.0 * Pi * wheelRadius * 0.001 * 60.0 == d * 0.06;
    assert (speedKmh / 3.6) * 60.0 == speedKmh / 0.06;
    DivideRegrouped(speedKmh, gearRatio, d);
  }

  lemma DivideRegrouped(x: real, g: real, d: real)
    requires d != 0.0
    ensures (x * g) / (d * 0.06) == g * ((x / 0.06) / d)
  {
    assert (x * g) / (d * 0.06) == g * (x / (d * 0.06));
    assert x / (d * 0.06) == (x / 0.06) / d;
  }

  /** Efficiency losses run from the battery to the wheel: the wheel gets back exactly
      the demanded power, the output is the wheel power over the gear efficiency and
      the input the output over the motor efficiency. */
  lemma EfficiencyChain(v: VehicleInputs, road: real, speedKmh: real, guardWheel: bool)
    requires Computable(v) && speedKmh != 0.0
    ensures var o := OperatingPoint(v, road, speedKmh, guardWheel);
      && o.wheelPower == road
      && o.output * v.gearEfficiency == road
      && o.input * v.motorEfficiency == o.output
  {
    var ge := v.gearEfficiency;
    var me := v.motorEfficiency;
    assert (road / ge) * ge == road;
    assert road / (ge * me) == (road / ge) / me;
  }

  /** With efficiencies in (0, 1] and a non-negative demand, each stage needs at least
      what the next one delivers. */
  lemma EfficiencyLosses(v: VehicleInputs, road: real, speedKmh: real, guardWheel: bool)
    requires Computable(v) && speedKmh != 0.0
    requires 0.0 < v.gearEfficiency <= 1.0 && 0.0 < v.motorEfficiency <= 1.0 && road >= 0.0
    ensures var o := OperatingPoint(v, road, speedKmh, guardWheel);
      road <= o.output <= o.input
  {
    EfficiencyChain(v, road, speedKmh, guardWheel);
    var o := OperatingPoint(v, road, speedKmh, guardWheel);
    LossBound(road, v.gearEfficiency, o.output);
    LossBound(o.output, v.motorEfficiency, o.input);
  }

  lemma LossBound(delivered: real, efficiency: real, needed: real)
    requires 0.0 < efficiency <= 1.0 && delivered >= 0.0 && needed * efficiency == delivered
    ensures delivered <= needed
  {
    assert needed >= 0.0;
    assert needed * efficiency <= needed * 1.0;
  }

  /** Motor torque times motor angular speed is the motor output, and the wheel torque
      is the motor torque multiplied by gear ratio and gear efficiency (zero where the
      guard applies). */
  lemma TorqueCarriesPower(v: VehicleInputs, road: real, speedKmh: real, guardWheel: bool)
    requires Computable(v) && speedKmh != 0.0
    ensures var o := OperatingPoint(v, road, speedKmh, guardWheel);
      && o.motorTorque * AngularSpeed(o.motorRpm) == o.output
      && (guardWheel && o.wheelRpm <= 0.0 ==> o.wheelTorque == 0.0)
      && (!guardWheel || o.wheelRpm > 0.0 ==> o.wheelTorque == v.gearRatio * v.gearEfficiency * o.motorTorque)
  {
    var o := OperatingPoint(v, road, speedKmh, guardWheel);
    TorqueTimesSpeed(o.output, o.motorRpm);
    GearMultipliesRpm(speedKmh, v.gearRatio, v.wheelRadius);
    if !guardWheel || o.wheelRpm > 0.0 {
      TorqueThroughGear(o.output, v.gearEfficiency, o.motorRpm, v.gearRatio, o.wheelRpm);
    }
  }

  lemma TorqueTimesSpeed(power: real, rpm: real)
    requires rpm != 0.0
    ensures TorqueFromPower(power, rpm) * AngularSpeed(rpm) == power
  {
    var w := 2.0 * Pi * rpm;
    assert w != 0.0;
    assert (power * 60.0) / w * (w / 60.0) == power;
  }

  lemma TorqueThroughGear(output: real, ge: real, motorRpm: real, gearRatio: real, wheelRpm: real)
    requires motorRpm != 0.0 && wheelRpm != 0.0 && motorRpm == gearRatio * wheelRpm
    ensures TorqueFromPower(output * ge, wheelRpm) == gearRatio * ge * TorqueFromPower(output, motorRpm)
  {
    var w := 2.0 * Pi * wheelRpm;
    assert w != 0.0;
    assert 2.0 * Pi * motorRpm == gearRatio * w;
    assert gearRatio != 0.0;
    assert (output * 60.0) / (gearRatio * w) * gearRatio == (output * 60.0) / w;
  }

  /** The top-speed, slope and acceleration conditions of one computation. */
  datatype PowerAnalysis = PowerAnalysis(
    forces: ResistiveForces,
    terms: AccelTerms,
    max: Operating,
    slope: Operating,
    accel: Operating)

  /** Power at the wheels for a force at a speed in km/h, with the source's factor. */
  function RoadPower(force: real, speedKmh: real): real
  {
    force * (speedKmh * 0.2777778)
  }

  /** On the flat at top speed the wheels need drag and rolling resistance times the
      speed; on the slope also the climbing force; under acceleration the three
      terms. The wheel torque is guarded at top and slope speed only. */
  function Analyse(v: VehicleInputs): (a: PowerAnalysis)
    requires Computable(v)
    ensures RpmsNonZero(a)
  {
    var f := Resistances(v);
    var t := AccelerationTerms(v);
    RpmNonZero(v.maxSpeed, v.gearRatio, v.wheelRadius);
    RpmNonZero(v.slopeSpeed, v.gearRatio, v.wheelRadius);
    RpmNonZero(v.accelEndSpeed, v.gearRatio, v.wheelRadius);
    GearMultipliesRpm(v.maxSpeed, v.gearRatio, v.wheelRadius);
    GearMultipliesRpm(v.slopeSpeed, v.gearRatio, v.wheelRadius);
    GearMultipliesRpm(v.accelEndSpeed, v.gearRatio, v.wheelRadius);
    PowerAnalysis(
      f, t,
      OperatingPoint(v, RoadPower(f.dragMax + f.roll, v.maxSpeed), v.maxSpeed, true),
      OperatingPoint(v, RoadPower(f.dragSlope + f.roll + f.climb, v.slopeSpeed), v.slopeSpeed, true),
      OperatingPoint(v, t.term1 + t.term2 + t.term3, v.accelEndSpeed, false))
  }

  /** What each condition's motor output covers once the gear losses are paid back:
      resistive power at top speed, resistive power with climbing at slope speed, the
      acceleration terms. */
  lemma AnalysisPowerBalance(v: VehicleInputs)
    requires Computable(v)
    ensures var a := Analyse(v);
      && a.max.output * v.gearEfficiency == RoadPower(a.forces.dragMax + a.forces.roll, v.maxSpeed)
      && a.slope.output * v.gearEfficiency == RoadPower(a.forces.dragSlope + a.forces.roll + a.forces.climb, v.slopeSpeed)
      && a.accel.output * v.gearEfficiency == a.terms.term1 + a.terms.term2 + a.terms.term3
  {
    var f := Resistances(v);
    var t := AccelerationTerms(v);
    EfficiencyChain(v, RoadPower(f.dragMax + f.roll, v.maxSpeed), v.maxSpeed, true);
    EfficiencyChain(v, RoadPower(f.dragSlope + f.roll + f.climb, v.slopeSpeed), v.slopeSpeed, true);
    EfficiencyChain(v, t.term1 + t.term2 + t.term3, v.accelEndSpeed, false);
  }

  /** The acceleration condition's speed matches the base speed: driving at the base
      speed (in km/h) turns the motor at its base RPM. */
  lemma BaseSpeedTurnsBaseRpm(v: VehicleInputs)
    requires v.gearRatio != 0.0 && v.wheelRadius != 0.0
    ensures MotorRpmAt(BaseSpeed(v) * 3.6, v.gearRatio, v.wheelRadius) == v.motorBaseRpm
  {
    var d := 2.0 * Pi * v.wheelRadius;
    assert d != 0.0;
    var g := v.gearRatio;
    var b := (v.motorBaseRpm * d) / (60.0 * g);
    assert BaseSpeed(v) == b;
    assert 2.0 * Pi * v.wheelRadius * 0.001 * 60.0 == d * 0.06;
    assert b * 3.6 * g == v.motorBaseRpm * d * 0.06;
    assert (v.motorBaseRpm * d * 0.06) / (d * 0.06) == v.motorBaseRpm;
  }

  // ---------------------------------------------------------------------------
  // Battery sizing
  // ---------------------------------------------------------------------------

  /** The battery widgets: voltage, range in km, weight per Wh, Peukert coefficient,
      discharge hours and depth of discharge in percent. */
  datatype BatteryInputs = BatteryInputs(
    voltage: real,
    rangeKm: real,
    weightPerWh: real,
    peukert: real,
    dischargeHr: real,
    dodPct: real)

  predicate BatteryComputable(b: BatteryInputs)
  {
    b.voltage != 0.0 && b.dodPct != 0.0 && b.peukert != 0.0
  }

  /** Peukert-corrected capacity: `(ah * (current * hr) ** (k - 1)) ** (1 / k)`. */
  function Peukert(ah: real, current: real, dischargeHr: real, k: real, pow: (real, real) -> real): real
    requires k != 0.0
  {
    pow(ah * pow(current * dischargeHr, k - 1.0), 1.0 / k)
  }

  /** A Peukert coefficient of one leaves a capacity unchanged (for a `pow` with
      x ** 0 == 1 and x ** 1 == x). */
  lemma PeukertNeutral(ah: real, current: real, dischargeHr: real, pow: (real, real) -> real)
    requires forall x :: pow(x, 0.0) == 1.0
    requires forall x :: pow(x, 1.0) == x
    ensures Peukert(ah, current, dischargeHr, 1.0, pow) == ah
  {
    assert pow(current * dischargeHr, 1.0 - 1.0) == 1.0;
    assert pow(ah * 1.0, 1.0 / 1.0) == ah * 1.0;
  }

  datatype BatterySizing = BatterySizing(
    current: real,
    trueWh: real,
    trueAh: real,
    tentativeAh: real,
    tentativeWh: real,
    weight: real)

  /** The six battery formulas from the top-speed motor input. */
  function SizeBattery(b: BatteryInputs, motorInputMax: real, maxSpeed: real, pow: (real, real) -> real): (s: BatterySizing)
    requires BatteryComputable(b) && maxSpeed != 0.0
    ensures s.current * b.voltage == motorInputMax
    ensures s.trueAh * b.voltage == s.trueWh
    ensures s.trueWh * (maxSpeed * (b.dodPct / 100.0)) == b.rangeKm * motorInputMax
    ensures s.tentativeAh == Peukert(s.trueAh, s.current, b.dischargeHr, b.peukert, pow)
    ensures s.weight == s.tentativeAh * b.voltage * b.weightPerWh
  {
    var current := motorInputMax / b.voltage;
    var denom := maxSpeed * (b.dodPct / 100.0);
    assert denom != 0.0;
    var trueWh := (b.rangeKm * motorInputMax) / denom;
    var trueAh := trueWh / b.voltage;
    var tentativeAh := Peukert(trueAh, current, b.dischargeHr, b.peukert, pow);
    var tentativeWh := b.voltage * tentativeAh;
    BatterySizing(current, trueWh, trueAh, tentativeAh, tentativeWh, tentativeWh * b.weightPerWh)
  }

  // ---------------------------------------------------------------------------
  // Drive pattern
  // ---------------------------------------------------------------------------

  /** One slab of the drive pattern: its speed in km/h, its share of the range in
      percent, and its gradient with the sine of `gradient * 0.01745329`. */
  datatype SlabSpec = SlabSpec(name: string, speed: real, drivePct: int, gradient: real, sinGradient: real)

  /** Top speed 35 %, 70 % of it 40 %, half of it 20 %, slope speed at the rated
      gradeability 5 %. */
  function DrivePatternSlabs(v: VehicleInputs): (slabs: seq<SlabSpec>)
    ensures |slabs| == 4
  {
    [SlabSpec("Slab-1 Max Speed", v.maxSpeed, 35, 0.0, 0.0),
     SlabSpec("Slab-2 Speed", v.maxSpeed * 0.7, 40, 0.0, 0.0),
     SlabSpec("Slab-3 Speed", v.maxSpeed * 0.5, 20, 0.0, 0.0),
     SlabSpec("Slab-4 Speed", v.slopeSpeed, 5, v.gradeability, v.sinGradeability)]
  }

  /** A slab row of `slab_data`. */
  datatype Slab = Slab(
    name: string,
    speed: real,
    drivePct: int,
    gradient: real,
    distance: real,
    climb: real,
    drag: real,
    roll: real,
    motorInput: real,
    motorOutput: real,
    batteryCurrent: real,
    usableEnergy: real,
    trueUsableAh: real,
    finalAh: real)

  /** Which current the Peukert correction of a slab uses: the slab's own (main_app.py)
      or one fixed value for all slabs (main_app_EV_LOCKED.py). */
  datatype PeukertCurrent = SlabCurrent | FixedCurrent(amps: real)

  /** Drag with the source's combined constant for the km/h-to-m/s conversion. */
  function SlabDrag(cd: real, airDensity: real, frontalArea: real, speedKmh: real): real
  {
    cd * airDensity * frontalArea * speedKmh * speedKmh * 0.03858025308642
  }

  /** The slab drag constant stands for 0.5 / 3.6², so slab drag is within two parts
      in ten million of the drag formula used elsewhere. */
  lemma SlabDragNearHalfDrag(cd: real, airDensity: real, frontalArea: real, speedKmh: real)
    requires cd * airDensity * frontalArea >= 0.0
    ensures var s := SlabDrag(cd, airDensity, frontalArea, speedKmh);
      var h := HalfDrag(cd, airDensity, frontalArea, speedKmh / 3.6);
      s - h <= 0.0000002 * h && h - s <= 0.0000002 * h
  {
    var c := cd * airDensity * frontalArea;
    var x := c * (speedKmh * speedKmh);
    assert speedKmh * speedKmh >= 0.0;
    NonNegativeProduct(c, speedKmh * speedKmh);
    var exact := 0.5 / (3.6 * 3.6);
    assert SlabDrag(cd, airDensity, frontalArea, speedKmh) == x * 0.03858025308642;
    assert HalfDrag(cd, airDensity, frontalArea, speedKmh / 3.6) == x * exact;
    CloseConstants(x, 0.03858025308642, exact);
  }

  lemma CloseConstants(x: real, k: real, exact: real)
    requires x >= 0.0 && k == 0.03858025308642 && exact == 0.5 / (3.6 * 3.6)
    ensures x * k - x * exact <= 0.0000002 * (x * exact)
    ensures x * exact - x * k <= 0.0000002 * (x * exact)
  {
    assert k - exact <= 0.0000002 * exact;
    assert exact - k <= 0.0000002 * exact;
    assert x * k - x * exact == x * (k - exact);
    assert x * exact - x * k == x * (exact - k);
  }

  /** Motor output for a wheel-side force at a speed in km/h. */
  function SlabOutput(powerWheel: real, speedKmh: real, gearEfficiency: real): real
    requires gearEfficiency != 0.0
  {
    powerWheel * (speedKmh * 0.2777778) / gearEfficiency
  }

  /** Battery-side motor input for the same. */
  function SlabInput(powerWheel: real, speedKmh: real, gearEfficiency: real, motorEfficiency: real): real
    requires gearEfficiency * motorEfficiency != 0.0
  {
    powerWheel * (speedKmh * 0.2777778) / (gearEfficiency * motorEfficiency)
  }

  /** The motor loses exactly the motor efficiency between input and output. */
  lemma SlabInputCoversOutput(powerWheel: real, speedKmh: real, ge: real, me: real)
    requires ge != 0.0 && me != 0.0
    ensures SlabInput(powerWheel, speedKmh, ge, me) * me == SlabOutput(powerWheel, speedKmh, ge)
  {
    var p := powerWheel * (speedKmh * 0.2777778);
    assert p / (ge * me) == (p / ge) / me;
  }

  /** Energy in Wh for a distance at a power and speed, allowing for the depth of
      discharge. */
  function UsableEnergy(input: real, distanceKm: real, speedKmh: real, dodPct: real): real
    requires speedKmh != 0.0 && dodPct != 0.0
  {
    (input * distanceKm) / (speedKmh * (dodPct / 100.0))
  }

  /** Usable energy over the time fraction the depth of discharge allows is input
      power times distance. */
  lemma UsableEnergyCovers(input: real, distanceKm: real, speedKmh: real, dodPct: real)
    requires speedKmh != 0.0 && dodPct != 0.0
    ensures UsableEnergy(input, distanceKm, speedKmh, dodPct) * (speedKmh * (dodPct / 100.0)) == input * distanceKm
  {
    var d := speedKmh * (dodPct / 100.0);
    assert d != 0.0;
  }

  /** A power or energy per volt of battery. */
  function PerVolt(x: real, voltage: real): real
    requires voltage != 0.0
  {
    x / voltage
  }

  lemma PerVoltBack(x: real, voltage: real)
    requires voltage != 0.0
    ensures PerVolt(x, voltage) * voltage == x
  {
  }

  /** What the slab formulas divide by. */
  predicate SlabComputable(v: VehicleInputs, b: BatteryInputs, s: SlabSpec)
  {
    v.gearEfficiency != 0.0 && v.motorEfficiency != 0.0 && BatteryComputable(b) && s.speed != 0.0
  }

  /** The loop body over one slab. */
  function SlabOf(v: VehicleInputs, b: BatteryInputs, pow: (real, real) -> real, which: PeukertCurrent, s: SlabSpec): Slab
    requires SlabComputable(v, b, s)
  {
    var distance := (b.rangeKm * s.drivePct as real) / 100.0;
    var drag := SlabDrag(v.cd, v.airDensity, v.frontalArea, s.speed);
    var roll := v.cr * v.gvw * 9.81;
    var climb := v.gvw * 9.81 * s.sinGradient;
    var powerWheel := drag + roll + climb;
    var output := SlabOutput(powerWheel, s.speed, v.gearEfficiency);
    NonZeroProduct(v.gearEfficiency, v.motorEfficiency);
    var input := SlabInput(powerWheel, s.speed, v.gearEfficiency, v.motorEfficiency);
    var current := PerVolt(input, b.voltage);
    var usable := UsableEnergy(input, distance, s.speed, b.dodPct);
    var trueAh := PerVolt(usable, b.voltage);
    var peukertCurrent := match which case SlabCurrent => current case FixedCurrent(a) => a;
    var finalAh := Peukert(trueAh, peukertCurrent, b.dischargeHr, b.peukert, pow);
    Slab(s.name, s.speed, s.drivePct, s.gradient, distance, climb, drag, roll, input, output, current, usable, trueAh, finalAh)
  }

  lemma NonZeroProduct(a: real, b: real)
    requires a != 0.0 && b != 0.0
    ensures a * b != 0.0
  {
  }

  /** A slab's energy covers its distance at its speed: usable energy times the time
      fraction is input power times distance, capacity is energy over voltage, the
      slab current is input power over voltage, and input is output over motor
      efficiency. */
  lemma SlabEnergyBalance(v: VehicleInputs, b: BatteryInputs, pow: (real, real) -> real, which: PeukertCurrent, s: SlabSpec)
    requires SlabComputable(v, b, s)
    ensures var r := SlabOf(v, b, pow, which, s);
      && r.usableEnergy * (s.speed * (b.dodPct / 100.0)) == r.motorInput * r.distance
      && r.trueUsableAh * b.voltage == r.usableEnergy
      && r.batteryCurrent * b.voltage == r.motorInput
      && r.motorInput * v.motorEfficiency == r.motorOutput
  {
    var r := SlabOf(v, b, pow, which, s);
    UsableEnergyCovers(r.motorInput, r.distance, s.speed, b.dodPct);
    PerVoltBack(r.usableEnergy, b.voltage);
    PerVoltBack(r.motorInput, b.voltage);
    SlabInputCoversOutput(r.drag + r.roll + r.climb, s.speed, v.gearEfficiency, v.motorEfficiency);
  }

  /** The slab shares of the range are 35, 40, 20 and 5 percent, so the slab distances
      add up to the range. */
  lemma SlabDistancesCoverRange(v: VehicleInputs, b: BatteryInputs, pow: (real, real) -> real, which: PeukertCurrent)
    requires Computable(v) && BatteryComputable(b)
    ensures var s := DrivePatternSlabs(v);
      SlabOf(v, b, pow, which, s[0]).distance + SlabOf(v, b, pow, which, s[1]).distance +
      SlabOf(v, b, pow, which, s[2]).distance + SlabOf(v, b, pow, which, s[3]).distance == b.rangeKm
  {
    var s := DrivePatternSlabs(v);
    var r := b.rangeKm;
    assert SlabOf(v, b, pow, which, s[0]).distance == (r * 35.0) / 100.0;
    assert SlabOf(v, b, pow, which, s[1]).distance == (r * 40.0) / 100.0;
    assert SlabOf(v, b, pow, which, s[2]).distance == (r * 20.0) / 100.0;
    assert SlabOf(v, b, pow, which, s[3]).distance == (r * 5.0) / 100.0;
  }

  /** `sum(final_ah)` done left to right. */
  function TotalFinalAh(slabs: seq<Slab>): real
  {
    if slabs == [] then 0.0 else TotalFinalAh(slabs[..|slabs| - 1]) + slabs[|slabs| - 1].finalAh
  }

  /** The running `total_usable_ah`. */
  function TotalTrueAh(slabs: seq<Slab>): real
  {
    if slabs == [] then 0.0 else TotalTrueAh(slabs[..|slabs| - 1]) + slabs[|slabs| - 1].trueUsableAh
  }

  /** Over four slabs both totals are the sums of the four entries. */
  lemma FourSlabTotals(s: seq<Slab>)
    requires |s| == 4
    ensures TotalTrueAh(s) == s[0].trueUsableAh + s[1].trueUsableAh + s[2].trueUsableAh + s[3].trueUsableAh
    ensures TotalFinalAh(s) == s[0].finalAh + s[1].finalAh + s[2].finalAh + s[3].finalAh
  {
    var s3 := s[..3];
    var s2 := s3[..2];
    var s1 := s2[..1];
    assert s1[..0] == [];
    assert s1[0] == s[0] && s2[1] == s[1] && s3[2] == s[2];
    assert TotalTrueAh(s1) == s[0].trueUsableAh;
    assert TotalTrueAh(s2) == TotalTrueAh(s1) + s[1].trueUsableAh;
    assert TotalTrueAh(s3) == TotalTrueAh(s2) + s[2].trueUsableAh;
    assert TotalFinalAh(s1) == s[0].finalAh;
    assert TotalFinalAh(s2) == TotalFinalAh(s1) + s[1].finalAh;
    assert TotalFinalAh(s3) == TotalFinalAh(s2) + s[2].finalAh;
  }

  /** The slab loop: one row per slab in pattern order, the running total of usable
      capacity, and the final capacity as the sum of the Peukert-corrected slabs. */
  method DrivePattern(v: VehicleInputs, b: BatteryInputs, pow: (real, real) -> real, which: PeukertCurrent)
    returns (slabData: seq<Slab>, totalUsableAh: real, finalCapacityAh: real)
    requires Computable(v) && BatteryComputable(b)
    ensures |slabData| == 4
    ensures forall i :: 0 <= i < 4 ==> slabData[i] == SlabOf(v, b, pow, which, DrivePatternSlabs(v)[i])
    ensures totalUsableAh == slabData[0].trueUsableAh + slabData[1].trueUsableAh + slabData[2].trueUsableAh + slabData[3].trueUsableAh
    ensures finalCapacityAh == slabData[0].finalAh + slabData[1].finalAh + slabData[2].finalAh + slabData[3].finalAh
  {
    var slabs := DrivePatternSlabs(v);
    slabData := [];
    totalUsableAh := 0.0;
    var i := 0;
    while i < |slabs|
      invariant 0 <= i <= 4
      invariant |slabData| == i
      invariant forall j :: 0 <= j < i ==> slabData[j] == SlabOf(v, b, pow, which, slabs[j])
      invariant totalUsableAh == TotalTrueAh(slabData)
    {
      var row := SlabOf(v, b, pow, which, slabs[i]);
      totalUsableAh := totalUsableAh + row.trueUsableAh;
      assert (slabData + [row])[..i] == slabData;
      slabData := slabData + [row];
      i := i + 1;
    }
    finalCapacityAh := TotalFinalAh(slabData);
    FourSlabTotals(slabData);
  }

  // ---------------------------------------------------------------------------
  // UGV per-motor distribution
  // ---------------------------------------------------------------------------

  /** The UGV tab's distribution inputs; `numPoweredWheels` is a spin box. */
  datatype UgvInputs = UgvInputs(
    numPoweredWheels: int,
    trackWidth: real,
    skidCoefficient: real,
    spinAngularRad: real,
    spinAngularDeg: real)

  /** One motor's share of a condition: its part of the motor output, its torque at
      the condition's motor RPM, its wheel's power and that wheel's torque. */
  datatype Share = Share(output: real, torque: real, wheelPower: real, wheelTorque: real)

  /** The skid-steer turning estimate. */
  datatype TurnFigures = TurnFigures(
    totalSkidFriction: real,
    perWheelSkidFriction: real,
    wheelLinearSpeedTurn: real,
    powerPerMotorTurn: real,
    totalPowerTurn: real,
    wheelRpmTurn: real,
    vehicleRotDegPerSec: real,
    totalWheelTorque: real,
    totalMotorWheelTorque: real,
    perMotorWheelTorque: real)

  /** Per-motor shares of the three conditions and the turning figures. */
  datatype UgvOutputs = UgvOutputs(max: Share, slope: Share, accel: Share, turn: TurnFigures)

  /** A motor's share from its part of the motor output: the torque at the motor RPM,
      the power through the gear and the torque at the wheel RPM. */
  function ShareOf(gearEfficiency: real, o: Operating, perMotorOutput: real): Share
    requires o.motorRpm != 0.0 && o.wheelRpm != 0.0
  {
    var wheelPower := perMotorOutput * gearEfficiency;
    Share(perMotorOutput, TorqueFromPower(perMotorOutput, o.motorRpm), wheelPower, TorqueFromPower(wheelPower, o.wheelRpm))
  }

  /** `road / (gear_efficiency * num_powered_wheels)`. */
  function PerMotorDemand(road: real, gearEfficiency: real, numPoweredWheels: int): real
    requires gearEfficiency != 0.0 && numPoweredWheels != 0
  {
    road / (gearEfficiency * numPoweredWheels as real)
  }

  /** Skid friction of the whole vehicle shared by the powered wheels, the turning
      power from the track width, and the wheel torque through the gear. */
  function Turning(gvw: real, wheelRadius: real, gearRatio: real, u: UgvInputs): TurnFigures
    requires gearRatio != 0.0 && u.numPoweredWheels != 0
  {
    var n := u.numPoweredWheels as real;
    var totalSkid := gvw * 9.81 * u.skidCoefficient;
    var totalWheelTorque := totalSkid * wheelRadius;
    var totalMotorWheelTorque := totalWheelTorque / gearRatio;
    var k := u.skidCoefficient * gvw * 9.81 * u.spinAngularRad * u.trackWidth;
    TurnFigures(
      totalSkid,
      totalSkid / n,
      u.spinAngularRad * u.trackWidth / 2.0,
      k / 4.0,
      k / 2.0,
      u.spinAngularRad * 9.549297,
      u.spinAngularRad * 57.2958,
      totalWheelTorque,
      totalMotorWheelTorque,
      totalMotorWheelTorque / n)
  }

  /** The three conditions' motor and wheel RPMs are not zero. */
  predicate RpmsNonZero(a: PowerAnalysis)
  {
    a.max.motorRpm != 0.0 && a.slope.motorRpm != 0.0 && a.accel.motorRpm != 0.0 &&
    a.max.wheelRpm != 0.0 && a.slope.wheelRpm != 0.0 && a.accel.wheelRpm != 0.0
  }

  /** What the UGV formulas divide by. */
  predicate Distributable(v: VehicleInputs, a: PowerAnalysis, u: UgvInputs)
  {
    v.gearEfficiency != 0.0 && v.gearRatio != 0.0 && u.numPoweredWheels != 0 && RpmsNonZero(a)
  }

  /** The distribution with every condition's demand split evenly over the powered
      wheels (see `UgvDistributionAsWritten` for the source's acceleration share). */
  function UgvDistribution(v: VehicleInputs, a: PowerAnalysis, u: UgvInputs): UgvOutputs
    requires Distributable(v, a, u)
  {
    var ge := v.gearEfficiency;
    var n := u.numPoweredWheels;
    var f := a.forces;
    UgvOutputs(
      ShareOf(ge, a.max, PerMotorDemand(RoadPower(f.dragMax + f.roll, v.maxSpeed), ge, n)),
      ShareOf(ge, a.slope, PerMotorDemand(RoadPower(f.dragSlope + f.roll + f.climb, v.slopeSpeed), ge, n)),
      ShareOf(ge, a.accel, PerMotorDemand(a.terms.term1 + a.terms.term2 + a.terms.term3, ge, n)),
      Turning(v.gvw, v.wheelRadius, v.gearRatio, u))
  }

  /** The distribution exactly as main_app.py writes it: the acceleration output is
      the whole motor output, not divided by the number of powered wheels. */
  function UgvDistributionAsWritten(v: VehicleInputs, a: PowerAnalysis, u: UgvInputs): UgvOutputs
    requires Distributable(v, a, u)
  {
    var t := a.terms;
    UgvDistribution(v, a, u).(accel := ShareOf(v.gearEfficiency, a.accel, (t.term1 + t.term2 + t.term3) / v.gearEfficiency))
  }

  /** A share of an even split: taken once per powered wheel, its output is the demand
      over the gear efficiency, its wheel power the whole demand, and its torque the
      torque of the whole output. */
  lemma ShareSplitsEvenly(ge: real, o: Operating, road: real, n: int)
    requires ge != 0.0 && n != 0 && o.motorRpm != 0.0 && o.wheelRpm != 0.0
    ensures var s := ShareOf(ge, o, PerMotorDemand(road, ge, n));
      && s.output * n as real == road / ge
      && s.wheelPower * n as real == road
      && s.torque * n as real == TorqueFromPower(road / ge, o.motorRpm)
  {
    var x := PerMotorDemand(road, ge, n);
    var m := n as real;
    assert road / (ge * m) == (road / ge) / m;
    assert x * m == road / ge;
    assert x * ge * m == road;
    TorqueLinear(x, m, o.motorRpm);
  }

  lemma TorqueLinear(p: real, n: real, rpm: real)
    requires rpm != 0.0
    ensures TorqueFromPower(p, rpm) * n == TorqueFromPower(p * n, rpm)
  {
  }

  /** A share that, taken once per powered wheel, gives back the condition's motor
      output, wheel power and motor torque. */
  predicate SplitsEvenly(s: Share, o: Operating, n: int)
  {
    s.output * n as real == o.output && s.wheelPower * n as real == o.wheelPower && s.torque * n as real == o.motorTorque
  }

  /** On the computed analysis every condition is split evenly: the per-motor
      outputs, per-wheel powers and per-motor torques add up to the condition's
      motor output, wheel power and motor torque. */
  lemma UgvSharesAddUp(v: VehicleInputs, u: UgvInputs)
    requires Computable(v) && u.numPoweredWheels != 0
    ensures var a := Analyse(v);
      var d := UgvDistribution(v, a, u);
      SplitsEvenly(d.max, a.max, u.numPoweredWheels) && SplitsEvenly(d.slope, a.slope, u.numPoweredWheels) &&
      SplitsEvenly(d.accel, a.accel, u.numPoweredWheels)
  {
    var a := Analyse(v);
    var f := a.forces;
    var t := a.terms;
    var n := u.numPoweredWheels;
    ConditionShare(v, RoadPower(f.dragMax + f.roll, v.maxSpeed), v.maxSpeed, true, n);
    ConditionShare(v, RoadPower(f.dragSlope + f.roll + f.climb, v.slopeSpeed), v.slopeSpeed, true, n);
    ConditionShare(v, t.term1 + t.term2 + t.term3, v.accelEndSpeed, false, n);
  }

  lemma ConditionShare(v: VehicleInputs, road: real, speedKmh: real, guardWheel: bool, n: int)
    requires Computable(v) && speedKmh != 0.0 && n != 0
    requires OperatingPoint(v, road, speedKmh, guardWheel).wheelRpm != 0.0
    ensures var o := OperatingPoint(v, road, speedKmh, guardWheel);
      o.motorRpm != 0.0 &&
      SplitsEvenly(ShareOf(v.gearEfficiency, o, PerMotorDemand(road, v.gearEfficiency, n)), o, n)
  {
    var o := OperatingPoint(v, road, speedKmh, guardWheel);
    RpmNonZero(speedKmh, v.gearRatio, v.wheelRadius);
    EfficiencyChain(v, road, speedKmh, guardWheel);
    ShareSplitsEvenly(v.gearEfficiency, o, road, n);
  }

  /** The turning power of all motors is twice each motor's and equals the skid
      friction times the wheel speed in the turn; with two powered wheels each motor's
      power is its wheel's skid share times that speed. The per-motor wheel torque,
      taken once per powered wheel and through the gear, is the skid friction at the
      wheel radius. */
  lemma TurningFigures(gvw: real, wheelRadius: real, gearRatio: real, u: UgvInputs)
    requires gearRatio != 0.0 && u.numPoweredWheels != 0
    ensures var d := Turning(gvw, wheelRadius, gearRatio, u);
      && d.totalPowerTurn == 2.0 * d.powerPerMotorTurn
      && d.totalPowerTurn == d.totalSkidFriction * d.wheelLinearSpeedTurn
      && (u.numPoweredWheels == 2 ==> d.powerPerMotorTurn == d.perWheelSkidFriction * d.wheelLinearSpeedTurn)
      && d.perMotorWheelTorque * (u.numPoweredWheels as real) * gearRatio == d.totalSkidFriction * wheelRadius
  {
    var d := Turning(gvw, wheelRadius, gearRatio, u);
    var n := u.numPoweredWheels as real;
    var k := u.skidCoefficient * gvw * 9.81 * u.spinAngularRad * u.trackWidth;
    assert d.totalSkidFriction * d.wheelLinearSpeedTurn == k / 2.0;
    assert (d.totalMotorWheelTorque / n) * n == d.totalMotorWheelTorque;
  }

  /** As written, each motor is assigned the whole acceleration output: its share
      through the gear is the whole acceleration demand, so with two or more powered
      wheels and a positive demand the acceleration share does not split the
      condition evenly (taken once per wheel it exceeds the motor output). */
  lemma AccelShareAsWritten(v: VehicleInputs, u: UgvInputs)
    requires Computable(v) && u.numPoweredWheels != 0
    ensures var a := Analyse(v);
      var x := UgvDistributionAsWritten(v, a, u).accel;
      && x.output == a.accel.output
      && x.output * v.gearEfficiency == a.terms.term1 + a.terms.term2 + a.terms.term3
    ensures var a := Analyse(v);
      u.numPoweredWheels >= 2 && a.accel.output > 0.0 ==>
        !SplitsEvenly(UgvDistributionAsWritten(v, a, u).accel, a.accel, u.numPoweredWheels)
  {
    var a := Analyse(v);
    var x := UgvDistributionAsWritten(v, a, u).accel.output;
    AnalysisPowerBalance(v);
    assert x == a.accel.output;
    if u.numPoweredWheels >= 2 && x > 0.0 {
      assert x * (u.numPoweredWheels as real) >= x * 2.0;
      assert x * (u.numPoweredWheels as real) != a.accel.output;
    }
  }
}
