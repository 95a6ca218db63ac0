/** The parts of main_app_EV_LOCKED.py that differ from main_app.py: the output
    computation (a battery sizing for both vehicle types, a drive pattern whose
    Peukert correction uses the entered battery current, and a per-motor UGV
    distribution in which every division by the motor count is guarded), the
    constant-torque display, and the way `update_parameters` writes the form into
    the engine's parameter record. */
module LockedApp {
  import opened Common
  import Engine
  import opened OutputValues

  /** The vehicle type selector. */
  datatype VehicleType = Ev | Ugv

  // ---------------------------------------------------------------------------
  // Guarded UGV distribution
  // ---------------------------------------------------------------------------

  /** `total / num_motors if num_motors > 0 else 0`. */
  function PerMotor(total: real, numMotors: int): (r: real)
    ensures numMotors > 0 ==> r * numMotors as real == total
    ensures numMotors <= 0 ==> r == 0.0
  {
    if numMotors > 0 then total / numMotors as real else 0.0
  }

  /** One motor's share of a condition's totals. */
  function GuardedShare(o: Operating, numMotors: int): Share
  {
    Share(PerMotor(o.output, numMotors), PerMotor(o.motorTorque, numMotors),
          PerMotor(o.wheelPower, numMotors), PerMotor(o.wheelTorque, numMotors))
  }

  /** The turning estimate with every division guarded: the skid friction of the
      vehicle mass shared by the motors, each motor driving its share at the wheel
      speed of the turn, the total over all motors, and the wheel torque through the
      gear. */
  function GuardedTurning(vehicleMass: real, wheelRadius: real, gearRatio: real, u: UgvInputs): TurnFigures
  {
    var n := u.numPoweredWheels;
    var totalSkid := vehicleMass * 9.81 * u.skidCoefficient;
    var perWheelSkid := PerMotor(totalSkid, n);
    var linearSpeed := u.spinAngularRad * (u.trackWidth / 2.0);
    var powerPerMotor := perWheelSkid * linearSpeed;
    var totalWheelTorque := perWheelSkid * wheelRadius * n as real;
    var totalMotorWheelTorque := if gearRatio > 0.0 then totalWheelTorque / gearRatio else 0.0;
    TurnFigures(
      totalSkid,
      perWheelSkid,
      linearSpeed,
      powerPerMotor,
      powerPerMotor * n as real,
      if wheelRadius > 0.0 then (linearSpeed * 60.0) / (2.0 * Pi * wheelRadius) else 0.0,
      u.spinAngularDeg,
      totalWheelTorque,
      totalMotorWheelTorque,
      PerMotor(totalMotorWheelTorque, n))
  }

  /** The UGV distribution; it is defined for every motor count. */
  function GuardedUgvDistribution(a: PowerAnalysis, u: UgvInputs, vehicleMass: real, wheelRadius: real, gearRatio: real): UgvOutputs
  {
    var n := u.numPoweredWheels;
    UgvOutputs(GuardedShare(a.max, n), GuardedShare(a.slope, n), GuardedShare(a.accel, n),
               GuardedTurning(vehicleMass, wheelRadius, gearRatio, u))
  }

  /** With motors, every per-motor and per-wheel share, taken once per motor, gives the
      total back; without motors, every share is zero. */
  lemma GuardedSharesAddUp(a: PowerAnalysis, u: UgvInputs, vehicleMass: real, wheelRadius: real, gearRatio: real)
    ensures var d := GuardedUgvDistribution(a, u, vehicleMass, wheelRadius, gearRatio);
      var n := u.numPoweredWheels;
      && (n > 0 ==> SplitsEvenly(d.max, a.max, n) && SplitsEvenly(d.slope, a.slope, n) && SplitsEvenly(d.accel, a.accel, n))
      && (n > 0 ==> d.max.wheelTorque * n as real == a.max.wheelTorque && d.slope.wheelTorque * n as real == a.slope.wheelTorque
                    && d.accel.wheelTorque * n as real == a.accel.wheelTorque)
      && (n <= 0 ==> d.max == Share(0.0, 0.0, 0.0, 0.0) && d.slope == Share(0.0, 0.0, 0.0, 0.0)
                     && d.accel == Share(0.0, 0.0, 0.0, 0.0))
  {
  }

  /** The turning chain: each motor's power is its skid share times the wheel speed of
      the turn and the total is that over all motors; with motors, the total turning
      power is the whole skid friction times that speed and the total wheel torque the
      skid friction at the wheel radius; the motor-side torque is the wheel torque over
      a positive gear ratio and zero otherwise; without motors nothing is shared. */
  lemma GuardedTurningChain(vehicleMass: real, wheelRadius: real, gearRatio: real, u: UgvInputs)
    ensures var d := GuardedTurning(vehicleMass, wheelRadius, gearRatio, u);
      var n := u.numPoweredWheels;
      && d.totalPowerTurn == d.powerPerMotorTurn * n as real
      && (n > 0 ==> d.perWheelSkidFriction * n as real == d.totalSkidFriction)
      && (n > 0 ==> d.totalPowerTurn == d.totalSkidFriction * d.wheelLinearSpeedTurn)
      && (n > 0 ==> d.totalWheelTorque == d.totalSkidFriction * wheelRadius)
      && (gearRatio > 0.0 ==> d.totalMotorWheelTorque * gearRatio == d.totalWheelTorque)
      && (gearRatio <= 0.0 ==> d.totalMotorWheelTorque == 0.0)
      && (n <= 0 ==> d.perWheelSkidFriction == 0.0 && d.totalPowerTurn == 0.0 && d.totalWheelTorque == 0.0
                     && d.perMotorWheelTorque == 0.0)
  {
    var d := GuardedTurning(vehicleMass, wheelRadius, gearRatio, u);
    var n := u.numPoweredWheels as real;
    var s := d.perWheelSkidFriction;
    var w := d.wheelLinearSpeedTurn;
    assert d.totalPowerTurn == (s * w) * n;
    if u.numPoweredWheels > 0 {
      assert s * n == d.totalSkidFriction;
      assert (s * w) * n == (s * n) * w;
      assert s * wheelRadius * n == (s * n) * wheelRadius;
    }
  }

  /** With motors the guarded shares agree with the even split of main_app.py: the
      same per-motor outputs and torques for every condition. */
  lemma GuardedSharesAgree(v: VehicleInputs, u: UgvInputs)
    requires Computable(v) && u.numPoweredWheels > 0
    ensures var a := Analyse(v);
      var g := GuardedUgvDistribution(a, u, v.gvw, v.wheelRadius, v.gearRatio);
      var e := UgvDistribution(v, a, u);
      && g.max.output == e.max.output && g.slope.output == e.slope.output && g.accel.output == e.accel.output
      && g.max.torque == e.max.torque && g.slope.torque == e.slope.torque && g.accel.torque == e.accel.torque
  {
    var a := Analyse(v);
    var g := GuardedUgvDistribution(a, u, v.gvw, v.wheelRadius, v.gearRatio);
    var e := UgvDistribution(v, a, u);
    var n := u.numPoweredWheels;
    UgvSharesAddUp(v, u);
    GuardedSharesAddUp(a, u, v.gvw, v.wheelRadius, v.gearRatio);
    SameShare(g.max, e.max, a.max, n);
    SameShare(g.slope, e.slope, a.slope, n);
    SameShare(g.accel, e.accel, a.accel, n);
  }

  /** With motors and a positive gear ratio the guarded turning estimate (over the
      same mass) agrees with main_app.py's: the same total turning power, total wheel
      torque and per-motor wheel torque. */
  lemma GuardedTurningAgrees(gvw: real, wheelRadius: real, gearRatio: real, u: UgvInputs)
    requires u.numPoweredWheels > 0 && gearRatio > 0.0
    ensures var g := GuardedTurning(gvw, wheelRadius, gearRatio, u);
      var e := Turning(gvw, wheelRadius, gearRatio, u);
      && g.totalPowerTurn == e.totalPowerTurn
      && g.totalWheelTorque == e.totalWheelTorque
      && g.perMotorWheelTorque == e.perMotorWheelTorque
  {
    var g := GuardedTurning(gvw, wheelRadius, gearRatio, u);
    var e := Turning(gvw, wheelRadius, gearRatio, u);
    GuardedTurningChain(gvw, wheelRadius, gearRatio, u);
    TurningFigures(gvw, wheelRadius, gearRatio, u);
    assert g.totalSkidFriction == e.totalSkidFriction && g.wheelLinearSpeedTurn == e.wheelLinearSpeedTurn;
    assert g.totalWheelTorque == e.totalWheelTorque;
    assert g.totalMotorWheelTorque == e.totalMotorWheelTorque;
  }

  lemma SameShare(g: Share, e: Share, o: Operating, n: int)
    requires n > 0 && SplitsEvenly(g, o, n) && SplitsEvenly(e, o, n)
    ensures g.output == e.output && g.torque == e.torque
  {
    Cancel(g.output, e.output, n as real);
    Cancel(g.torque, e.torque, n as real);
  }

  lemma Cancel(x: real, y: real, k: real)
    requires k != 0.0 && x * k == y * k
    ensures x == y
  {
    assert (x - y) * k == 0.0;
  }

  // ---------------------------------------------------------------------------
  // Constant torque display
  // ---------------------------------------------------------------------------

  /** The constant torque shown for a power at the base RPM; "N/A" (None) unless the
      base RPM is positive. */
  function ConstantTorque(constantPower: real, baseRpm: real): (r: Option<real>)
    ensures r.Some? <==> baseRpm > 0.0
    ensures r.Some? ==> r.value * AngularSpeed(baseRpm) == constantPower
  {
    if baseRpm > 0.0 then
      TorqueTimesSpeed(constantPower, baseRpm);
      Some(TorqueFromPower(constantPower, baseRpm))
    else None
  }

  /** The displayed torque is the one that carries the power: converting a torque to
      power at a positive base RPM and back gives the torque again. */
  lemma ConstantTorqueRoundTrip(torque: real, baseRpm: real)
    requires baseRpm > 0.0
    ensures ConstantTorque(torque * AngularSpeed(baseRpm), baseRpm) == Some(torque)
  {
    var w := AngularSpeed(baseRpm);
    assert w > 0.0;
    var r := ConstantTorque(torque * w, baseRpm);
    Cancel(r.value, torque, w);
  }

  // ---------------------------------------------------------------------------
  // update_parameters
  // ---------------------------------------------------------------------------

  /** The widgets `update_parameters` reads from the EV or the UGV tab. */
  datatype ParameterForm = ParameterForm(
    cd: real,
    cr: real,
    vehicleWeight: real,
    frontalArea: real,
    wheelRadius: real,
    gearRatio: real,
    gearEfficiencyPct: real,
    motorEfficiencyPct: real)

  /** The parameter record after an update: the form's physical values, and the
      constant power as the maximum power of the selected mode only. */
  function UpdatedParameters(p: Engine.VehicleParameters, f: ParameterForm, mode: Mode, constantPower: real): (q: Engine.VehicleParameters)
    ensures q.dragCoefficient == f.cd && q.rollingResistance == f.cr && q.vehicleMass == f.vehicleWeight
    ensures q.frontalArea == f.frontalArea && q.wheelRadius == f.wheelRadius && q.gearRatio == f.gearRatio
    ensures mode == Eco ==> q.maxPowerEco == constantPower && q.maxPowerBoost == p.maxPowerBoost
    ensures mode == Boost ==> q.maxPowerBoost == constantPower && q.maxPowerEco == p.maxPowerEco
    ensures q.airDensity == p.airDensity && q.numMotors == p.numMotors && q.maxMotorRpm == p.maxMotorRpm
    ensures q.maxTorquePerMotorEco == p.maxTorquePerMotorEco && q.maxTorquePerMotorBoost == p.maxTorquePerMotorBoost
    ensures q.gravity == p.gravity
  {
    var q := p.(dragCoefficient := f.cd, rollingResistance := f.cr, vehicleMass := f.vehicleWeight,
                frontalArea := f.frontalArea, wheelRadius := f.wheelRadius, gearRatio := f.gearRatio);
    if mode == Eco then q.(maxPowerEco := constantPower) else q.(maxPowerBoost := constantPower)
  }

  /** Updating twice with the same form and mode is the same as updating once. */
  lemma UpdateIdempotent(p: Engine.VehicleParameters, f: ParameterForm, mode: Mode, constantPower: real)
    ensures UpdatedParameters(UpdatedParameters(p, f, mode, constantPower), f, mode, constantPower)
         == UpdatedParameters(p, f, mode, constantPower)
  {
  }

  /** The application window's simulation state: the parameter record, the three
      attributes `update_parameters` attaches to it (absent until the first update),
      and the engine. */
  class SimulatorApp {
    var params: Engine.VehicleParameters
    var gearEfficiency: Option<real>
    var motorEfficiency: Option<real>
    var baseRpm: Option<real>
    var engine: Engine.EVSimulationEngine

    /** __init__: default parameters and an engine over them. */
    constructor ()
      ensures params == Engine.DefaultParameters
      ensures gearEfficiency == None && motorEfficiency == None && baseRpm == None
      ensures fresh(engine) && engine.params == params
    {
      params := Engine.DefaultParameters;
      gearEfficiency := None;
      motorEfficiency := None;
      baseRpm := None;
      engine := new Engine.EVSimulationEngine(Engine.DefaultParameters);
    }

    /** update_parameters: copies the selected tab's values into the record, sets the
        selected mode's maximum power, and builds a new engine over the record. */
    method UpdateParameters(vehicleType: VehicleType, ev: ParameterForm, ugv: ParameterForm,
                            baseRpmInput: real, constantPower: real, mode: Mode)
      modifies this
      ensures var f := if vehicleType == Ev then ev else ugv;
        && params == UpdatedParameters(old(params), f, mode, constantPower)
        && gearEfficiency == Some(f.gearEfficiencyPct / 100.0)
        && motorEfficiency == Some(f.motorEfficiencyPct / 100.0)
      ensures baseRpm == Some(baseRpmInput)
      ensures fresh(engine) && engine.params == params
      ensures engine.state == Engine.InitialState && engine.history == Engine.EmptyHistory
    {
      var f := if vehicleType == Ev then ev else ugv;
      params := params.(dragCoefficient := f.cd);
      params := params.(rollingResistance := f.cr);
      params := params.(vehicleMass := f.vehicleWeight);
      params := params.(frontalArea := f.frontalArea);
      params := params.(wheelRadius := f.wheelRadius);
      params := params.(gearRatio := f.gearRatio);
      gearEfficiency := Some(f.gearEfficiencyPct / 100.0);
      motorEfficiency := Some(f.motorEfficiencyPct / 100.0);
      baseRpm := Some(baseRpmInput);
      if mode == Eco {
        params := params.(maxPowerEco := constantPower);
      } else {
        params := params.(maxPowerBoost := constantPower);
      }
      engine := new Engine.EVSimulationEngine(params);
    }
  }

  // ---------------------------------------------------------------------------
  // compute_output_values
  // ---------------------------------------------------------------------------

  /** The battery values the UGV path uses in place of the EV tab's widgets. */
  const UgvBatteryDefaults: BatteryInputs := BatteryInputs(24.0, 70.0, 0.0065, 1.05, 2.0, 100.0)

  function LockedBatteryInputs(vehicleType: VehicleType, ev: BatteryInputs): (b: BatteryInputs)
    ensures vehicleType == Ugv ==> BatteryComputable(b)
  {
    if vehicleType == Ev then ev else UgvBatteryDefaults
  }

  /** Why the computation stops. */
  datatype OutputError = UnboundLocal(name: string)

  datatype Outcome<T> = Success(value: T) | Failure(error: OutputError)

  /** Everything the computation produces: the power analysis, the formula battery
      sizing, the drive-pattern slabs with their two totals, and for a UGV the
      per-motor distribution. */
  datatype LockedReport = LockedReport(
    analysis: PowerAnalysis,
    battery: BatterySizing,
    slabs: seq<Slab>,
    totalUsableAh: real,
    finalCapacityAh: real,
    ugv: Option<UgvOutputs>)

  /** The parts of a report that do not depend on the vehicle type: the analysis, the
      battery sizing from the top-speed motor input, and the four slabs of the drive
      pattern with the given Peukert current and the final capacity their sum. */
  predicate ReportsInputs(r: LockedReport, v: VehicleInputs, b: BatteryInputs, pow: (real, real) -> real, which: PeukertCurrent)
    requires Computable(v) && BatteryComputable(b)
  {
    && r.analysis == Analyse(v)
    && r.battery == SizeBattery(b, Analyse(v).max.input, v.maxSpeed, pow)
    && |r.slabs| == 4
    && (forall i :: 0 <= i < 4 ==> r.slabs[i] == SlabOf(v, b, pow, which, DrivePatternSlabs(v)[i]))
    && r.totalUsableAh == r.slabs[0].trueUsableAh + r.slabs[1].trueUsableAh + r.slabs[2].trueUsableAh + r.slabs[3].trueUsableAh
    && r.finalCapacityAh == r.slabs[0].finalAh + r.slabs[1].finalAh + r.slabs[2].finalAh + r.slabs[3].finalAh
  }

  /** compute_output_values as written: the UGV branch never binds `gvw_input` (nor
      `calculated_gvw` or `battery_current`), so a UGV computation stops at the first
      force formula; an EV computation sizes the battery and runs the drive pattern
      with the entered battery current. `batteryCurrent` is that EV-tab widget. */
  method LockedComputeOutputsAsWritten(vehicleType: VehicleType, v: VehicleInputs, ev: BatteryInputs, batteryCurrent: real,
                                       pow: (real, real) -> real, u: UgvInputs, vehicleMass: real)
    returns (r: Outcome<LockedReport>)
    requires Computable(v) && BatteryComputable(LockedBatteryInputs(vehicleType, ev))
    ensures vehicleType == Ugv <==> r == Failure(UnboundLocal("gvw_input"))
    ensures vehicleType == Ev ==>
      r.Success? && r.value.ugv == None && ReportsInputs(r.value, v, ev, pow, FixedCurrent(batteryCurrent))
  {
    if vehicleType == Ugv {
      return Failure(UnboundLocal("gvw_input"));
    }
    var a := Analyse(v);
    var battery := SizeBattery(ev, a.max.input, v.maxSpeed, pow);
    var slabs, totalUsableAh, finalCapacityAh := DrivePattern(v, ev, pow, FixedCurrent(batteryCurrent));
    r := Success(LockedReport(a, battery, slabs, totalUsableAh, finalCapacityAh, None));
  }

  /** compute_output_values with the UGV branch completed as main_app.py completes it:
      the UGV's gross vehicle weight is the GVW field (`v.gvw`), and its drive pattern
      corrects each slab with the slab's own current. The EV path is unchanged. */
  method LockedComputeOutputs(vehicleType: VehicleType, v: VehicleInputs, ev: BatteryInputs, batteryCurrent: real,
                              pow: (real, real) -> real, u: UgvInputs, vehicleMass: real)
    returns (r: LockedReport)
    requires Computable(v) && BatteryComputable(LockedBatteryInputs(vehicleType, ev))
    ensures vehicleType == Ev ==> r.ugv == None && ReportsInputs(r, v, ev, pow, FixedCurrent(batteryCurrent))
    ensures vehicleType == Ugv ==>
      && r.ugv == Some(GuardedUgvDistribution(Analyse(v), u, vehicleMass, v.wheelRadius, v.gearRatio))
      && ReportsInputs(r, v, UgvBatteryDefaults, pow, SlabCurrent)
  {
    var b := LockedBatteryInputs(vehicleType, ev);
    var which := if vehicleType == Ev then FixedCurrent(batteryCurrent) else SlabCurrent;
    var a := Analyse(v);
    var battery := SizeBattery(b, a.max.input, v.maxSpeed, pow);
    var slabs, totalUsableAh, finalCapacityAh := DrivePattern(v, b, pow, which);
    var ugv := if vehicleType == Ugv then Some(GuardedUgvDistribution(a, u, vehicleMass, v.wheelRadius, v.gearRatio)) else None;
    r := LockedReport(a, battery, slabs, totalUsableAh, finalCapacityAh, ugv);
  }

  /** Both versions agree on every EV computation, and the completed one produces a
      report for every UGV computation the written one stops on. */
  method CompareOutputs(vehicleType: VehicleType, v: VehicleInputs, ev: BatteryInputs, batteryCurrent: real,
                        pow: (real, real) -> real, u: UgvInputs, vehicleMass: real)
    returns (written: Outcome<LockedReport>, completed: LockedReport)
    requires Computable(v) && BatteryComputable(LockedBatteryInputs(vehicleType, ev))
    ensures vehicleType == Ev ==> written == Success(completed)
    ensures vehicleType == Ugv ==> written.Failure? && completed.ugv.Some?
  {
    written := LockedComputeOutputsAsWritten(vehicleType, v, ev, batteryCurrent, pow, u, vehicleMass);
    completed := LockedComputeOutputs(vehicleType, v, ev, batteryCurrent, pow, u, vehicleMass);
    if vehicleType == Ev {
      ReportsDetermined(written.value, completed, v, ev, pow, FixedCurrent(batteryCurrent));
    }
  }

  /** A report is determined by its inputs. */
  lemma ReportsDetermined(r1: LockedReport, r2: LockedReport, v: VehicleInputs, b: BatteryInputs,
                          pow: (real, real) -> real, which: PeukertCurrent)
    requires Computable(v) && BatteryComputable(b)
    requires ReportsInputs(r1, v, b, pow, which) && ReportsInputs(r2, v, b, pow, which) && r1.ugv == r2.ugv
    ensures r1 == r2
  {
    assert r1.slabs == r2.slabs;
  }
}
