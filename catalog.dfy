/** The constant tables of main_app.py that the graph simulation, the suitability
    check and the test-point classifier read: the EV default parameters
    (`EV_DEFAULTS`) and the motor catalogue (`GPM_MOTORS`), together with the way
    each caller turns a motor selection and a mode into per-motor ratings. */
module Catalog {
  import opened Common

  // ---------------------------------------------------------------------------
  // EV_DEFAULTS (the entries the modelled formulas read)
  // ---------------------------------------------------------------------------

  const WheelRadius: real := 0.559 / 2.0
  const DragCoefficient: real := 0.8
  const RollingCoefficient: real := 0.02
  const FrontalArea: real := 0.5
  const AirDensity: real := 1.164
  const GearRatio: real := 5.221
  /** `gear_efficiency` is stored in percent; every reader divides by 100. */
  const GearEfficiencyPct: real := 95.0
  const BatteryWeight: real := 10.5
  const VehicleWeight: real := 150.0
  const PassengerWeight: real := 0.0
  /** `kerb_weight` and `gvw` are derived after the table is built. */
  const KerbWeight: real := BatteryWeight + VehicleWeight
  const Gvw: real := KerbWeight + PassengerWeight

  const TargetMaxSpeedKmh: real := 50.0
  const TargetSlopeSpeedKmh: real := 5.0
  const TargetGradeabilityDeg: int := 30
  const TargetAccelEndSpeedKmh: real := 50.0
  const TargetAccelPeriod: real := 5.0

  // ---------------------------------------------------------------------------
  // GPM_MOTORS
  // ---------------------------------------------------------------------------

  /** One catalogue entry: powers in W, torques in Nm, speeds in rpm (all per motor). */
  datatype MotorSpec = MotorSpec(
    continuousPower: real,
    peakPower: real,
    peakTorque: real,
    continuousTorque: real,
    baseRpm: real,
    maxRpm: real)

  const DefaultMotor: MotorSpec := MotorSpec(1000.0, 2000.0, 37.0, 19.0, 500.0, 7500.0)
  const Gpm35: MotorSpec := MotorSpec(4000.0, 8000.0, 35.0, 17.5, 500.0, 7500.0)
  const Gpm50: MotorSpec := MotorSpec(6000.0, 11000.0, 52.0, 26.0, 500.0, 7500.0)
  const Gpm70: MotorSpec := MotorSpec(8000.0, 16000.0, 70.0, 35.0, 500.0, 7500.0)

  const GpmMotors: map<string, MotorSpec> :=
    map["Default" := DefaultMotor, "GPM35" := Gpm35, "GPM50" := Gpm50, "GPM70" := Gpm70]

  /** A motor whose continuous ratings do not exceed its peak ratings and whose
      constant-torque region ends at a positive base speed below its top speed. */
  predicate Rated(m: MotorSpec)
  {
    0.0 <= m.continuousTorque <= m.peakTorque &&
    0.0 <= m.continuousPower <= m.peakPower &&
    0.0 < m.baseRpm < m.maxRpm
  }

  /** `GPM_MOTORS.get(key, fallback)`: the entry of a listed key, the fallback otherwise. */
  function LookupMotor(key: string, fallback: MotorSpec): (m: MotorSpec)
    ensures key in GpmMotors ==> m == GpmMotors[key]
    ensures key !in GpmMotors ==> m == fallback
  {
    if key in GpmMotors then GpmMotors[key] else fallback
  }

  /** Every catalogue entry is rated and has base speed 500, so every lookup whose
      fallback is such a motor (as 'Default' and 'GPM35' are) gives one. */
  lemma LookupRated(key: string, fallback: MotorSpec)
    requires Rated(fallback) && fallback.baseRpm == 500.0
    ensures Rated(LookupMotor(key, fallback))
    ensures LookupMotor(key, fallback).baseRpm == 500.0
  {
    if key in GpmMotors {
      assert key == "Default" || key == "GPM35" || key == "GPM50" || key == "GPM70";
    }
  }

  // ---------------------------------------------------------------------------
  // Motor selection
  // ---------------------------------------------------------------------------

  /** The motor combo box: a catalogue key (an unknown one falls back) or
      'Customize' with the two custom spin boxes. */
  datatype MotorChoice = Preset(key: string) | Customize(peakTorque: real, peakPower: real)

  /** Per-motor torque and power of the selected mode, and the motor's base speed. */
  datatype ModeRating = ModeRating(torque: real, power: real, baseRpm: real)

  /** The rating the graph simulation and its initial-value formulas use: a custom
      motor has continuous values half its peak values and base speed 500; a
      catalogue motor (unknown keys fall back to 'Default') brings its own values;
      boost selects the peak values and eco the continuous ones. */
  function SelectRating(choice: MotorChoice, mode: Mode): (r: ModeRating)
    ensures r.baseRpm == 500.0
    ensures choice.Customize? && mode == Boost ==> r.torque == choice.peakTorque && r.power == choice.peakPower
    ensures choice.Customize? && mode == Eco ==> 2.0 * r.torque == choice.peakTorque && 2.0 * r.power == choice.peakPower
    ensures choice.Preset? && mode == Boost ==>
      r.torque == LookupMotor(choice.key, DefaultMotor).peakTorque && r.power == LookupMotor(choice.key, DefaultMotor).peakPower
    ensures choice.Preset? && mode == Eco ==>
      r.torque == LookupMotor(choice.key, DefaultMotor).continuousTorque && r.power == LookupMotor(choice.key, DefaultMotor).continuousPower
  {
    match choice
    case Customize(peakTorque, peakPower) =>
      var continuousTorque := peakTorque / 2.0;
      var continuousPower := peakPower / 2.0;
      if mode == Boost then ModeRating(peakTorque, peakPower, 500.0)
      else ModeRating(continuousTorque, continuousPower, 500.0)
    case Preset(key) =>
      var m := LookupMotor(key, DefaultMotor);
      LookupRated(key, DefaultMotor);
      if mode == Boost then ModeRating(m.peakTorque, m.peakPower, m.baseRpm)
      else ModeRating(m.continuousTorque, m.continuousPower, m.baseRpm)
  }

  /** Eco never rates a motor above boost (for a custom motor with non-negative values). */
  lemma EcoNotAboveBoost(choice: MotorChoice)
    requires choice.Customize? ==> choice.peakTorque >= 0.0 && choice.peakPower >= 0.0
    ensures SelectRating(choice, Eco).torque <= SelectRating(choice, Boost).torque
    ensures SelectRating(choice, Eco).power <= SelectRating(choice, Boost).power
  {
    if choice.Preset? {
      LookupRated(choice.key, DefaultMotor);
    }
  }

  /** The torque and power the suitability check uses: always the peak torque; a
      custom motor always its peak power; a catalogue motor (fallback 'Default') its
      peak power in boost and its continuous power in eco. */
  function CheckRating(choice: MotorChoice, mode: Mode): (r: (real, real))
    ensures choice.Customize? ==> r == (choice.peakTorque, choice.peakPower)
    ensures choice.Preset? ==> r.0 == LookupMotor(choice.key, DefaultMotor).peakTorque
    ensures choice.Preset? ==>
      r.1 == (if mode == Boost then LookupMotor(choice.key, DefaultMotor).peakPower
              else LookupMotor(choice.key, DefaultMotor).continuousPower)
  {
    match choice
    case Customize(peakTorque, peakPower) => (peakTorque, peakPower)
    case Preset(key) =>
      var m := LookupMotor(key, DefaultMotor);
      (m.peakTorque, if mode == Boost then m.peakPower else m.continuousPower)
  }

  /** The suitability check and the graph simulation agree on the power of every
      selection except a custom motor in eco mode, which the check credits with
      twice the power the simulation gives it. */
  lemma CheckPowerVersusSimulation(choice: MotorChoice, mode: Mode)
    ensures choice.Preset? || mode == Boost ==> CheckRating(choice, mode).1 == SelectRating(choice, mode).power
    ensures choice.Customize? && mode == Eco ==> CheckRating(choice, mode).1 == 2.0 * SelectRating(choice, mode).power
    ensures mode == Boost ==> CheckRating(choice, mode).0 == SelectRating(choice, mode).torque
  {
  }
}
