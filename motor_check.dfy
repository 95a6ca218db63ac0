/** The motor-suitability logic of main_app.py: the resistive-force helper
    (`calculate_vehicle_forces`), the torque envelope and test-point classification
    of `plot_motor_suitability`, the pass/fail logic of `check_motor_suitability`,
    and its two linear searches (`_calculate_max_speed`, `_calculate_max_gradient`).
    Sines and cosines are supplied by the caller: a single value where the source
    takes one angle, a table indexed by whole degrees where it scans angles. */
module MotorCheck {
  import opened Common
  import opened Catalog

  // ---------------------------------------------------------------------------
  // calculate_vehicle_forces
  // ---------------------------------------------------------------------------

  /** The entries of the parameter dictionary the helper reads; the gradient comes
      with the sine of its value in radians. */
  datatype ForceParams = ForceParams(
    cr: real, gvw: real, cd: real, airDensity: real, frontalArea: real,
    gradientDeg: real, sinGradient: real)

  datatype Forces = Forces(roll: real, drag: real, grade: real, load: real)

  /** Rolling resistance, drag at the given speed in km/h, grade resistance and
      their sum. Drag uses the speed in m/s, squared. */
  function VehicleForces(p: ForceParams, speedKmh: real): (f: Forces)
    ensures f.load == f.roll + f.drag + f.grade
    ensures p.cd >= 0.0 && p.airDensity >= 0.0 && p.frontalArea >= 0.0 ==> f.drag >= 0.0
    ensures speedKmh == 0.0 ==> f.drag == 0.0
    ensures p.gvw >= 0.0 && p.sinGradient == 0.0 ==> f.grade == 0.0
    ensures f.drag == HalfDrag(p.cd, p.airDensity, p.frontalArea, speedKmh / 3.6)
  {
    var speedMs := speedKmh / 3.6;
    var fRoll := p.cr * p.gvw * 9.81;
    var fDrag := HalfDrag(p.cd, p.airDensity, p.frontalArea, speedMs);
    var fGrade := p.gvw * 9.81 * p.sinGradient;
    Forces(fRoll, fDrag, fGrade, fRoll + fDrag + fGrade)
  }

  // ---------------------------------------------------------------------------
  // plot_motor_suitability: torque envelope and classification
  // ---------------------------------------------------------------------------

  /** The torque limit at a motor speed: the rated torque up to and including base
      speed; above it the smaller of the rated torque and the torque the rated power
      allows (the rated torque again if the angular speed is not positive). */
  function TorqueLimit(rated: real, power: real, baseRpm: real, rpm: real): (limit: real)
    ensures limit <= rated
    ensures rpm <= baseRpm ==> limit == rated
    ensures rpm > baseRpm && AngularSpeed(rpm) > 0.0 ==> limit * AngularSpeed(rpm) <= power
    ensures limit == rated || limit * AngularSpeed(rpm) == power
  {
    if rpm <= baseRpm then rated
    else
      var omega := AngularSpeed(rpm);
      var byPower := if omega > 0.0 then power / omega else rated;
      PowerBound(power, omega, byPower);
      Min(rated, byPower)
  }

  lemma PowerBound(power: real, omega: real, t: real)
    requires omega > 0.0 ==> t == power / omega
    ensures omega > 0.0 ==> t * omega == power
  {
  }

  function PeakLimit(m: MotorSpec, rpm: real): real { TorqueLimit(m.peakTorque, m.peakPower, m.baseRpm, rpm) }

  function ContinuousLimit(m: MotorSpec, rpm: real): real
  {
    TorqueLimit(m.continuousTorque, m.continuousPower, m.baseRpm, rpm)
  }

  /** For a rated motor the continuous envelope lies inside the peak envelope. */
  lemma ContinuousWithinPeak(m: MotorSpec, rpm: real)
    requires Rated(m)
    ensures ContinuousLimit(m, rpm) <= PeakLimit(m, rpm)
  {
    if rpm > m.baseRpm {
      var omega := AngularSpeed(rpm);
      assert omega > 0.0;
      DivideMonotone(m.continuousPower, m.peakPower, omega);
    }
  }

  lemma DivideMonotone(a: real, b: real, d: real)
    requires a <= b && d > 0.0
    ensures a / d <= b / d
  {
    assert b / d - a / d == (b - a) / d;
  }

  datatype Suitability = Suitable | PeakOnly | Unsuitable

  /** A test point; its number only labels the plot. */
  datatype TestPoint = TestPoint(pointNum: int, rpm: real, torque: real)

  /** Only points with a positive speed or a positive torque are classified. */
  predicate Active(p: TestPoint)
  {
    p.rpm > 0.0 || p.torque > 0.0
  }

  /** Suitable inside the continuous envelope, peak-only inside the peak envelope,
      unsuitable otherwise; beyond the motor's top speed nothing is suitable. */
  function Classify(m: MotorSpec, p: TestPoint): (c: Suitability)
    ensures c == Suitable <==> p.torque <= ContinuousLimit(m, p.rpm) && p.rpm <= m.maxRpm
    ensures c == PeakOnly <==> p.torque > ContinuousLimit(m, p.rpm) && p.torque <= PeakLimit(m, p.rpm) && p.rpm <= m.maxRpm
    ensures c == Unsuitable <==> p.rpm > m.maxRpm || (p.torque > ContinuousLimit(m, p.rpm) && p.torque > PeakLimit(m, p.rpm))
  {
    if p.torque <= ContinuousLimit(m, p.rpm) && p.rpm <= m.maxRpm then Suitable
    else if p.torque <= PeakLimit(m, p.rpm) && p.rpm <= m.maxRpm then PeakOnly
    else Unsuitable
  }

  /** With a rated motor, a point is unsuitable exactly when it is beyond top speed
      or above the peak envelope, and every suitable point is inside the peak
      envelope as well. */
  lemma ClassifyRated(m: MotorSpec, p: TestPoint)
    requires Rated(m)
    ensures Classify(m, p) == Unsuitable <==> p.rpm > m.maxRpm || p.torque > PeakLimit(m, p.rpm)
    ensures Classify(m, p) == Suitable ==> p.torque <= PeakLimit(m, p.rpm)
  {
    ContinuousWithinPeak(m, p.rpm);
  }

  /** How many active points of `points` fall into class `c`. */
  function CountClass(m: MotorSpec, points: seq<TestPoint>, c: Suitability): nat
  {
    if points == [] then 0
    else
      var last := points[|points| - 1];
      CountClass(m, points[..|points| - 1], c) + (if Active(last) && Classify(m, last) == c then 1 else 0)
  }

  /** How many points are active. */
  function ActiveCount(points: seq<TestPoint>): nat
  {
    if points == [] then 0
    else ActiveCount(points[..|points| - 1]) + (if Active(points[|points| - 1]) then 1 else 0)
  }

  /** The three classes partition the active points. */
  lemma {:induction false} CountsPartition(m: MotorSpec, points: seq<TestPoint>)
    ensures CountClass(m, points, Suitable) + CountClass(m, points, PeakOnly) + CountClass(m, points, Unsuitable)
         == ActiveCount(points)
  {
    if points != [] {
      CountsPartition(m, points[..|points| - 1]);
    }
  }

  /** The counting loop of `plot_motor_suitability` for the selected motor (unknown
      keys fall back to 'GPM35'); an absent point list counts as an empty one. */
  method CountSuitability(motorKey: string, points: seq<TestPoint>) returns (suitable: nat, peakOnly: nat, unsuitable: nat)
    ensures var m := LookupMotor(motorKey, Gpm35);
      suitable == CountClass(m, points, Suitable) &&
      peakOnly == CountClass(m, points, PeakOnly) &&
      unsuitable == CountClass(m, points, Unsuitable)
    ensures suitable + peakOnly + unsuitable == ActiveCount(points)
  {
    var m := LookupMotor(motorKey, Gpm35);
    suitable, peakOnly, unsuitable := 0, 0, 0;
    var i := 0;
    while i < |points|
      invariant 0 <= i <= |points|
      invariant suitable == CountClass(m, points[..i], Suitable)
      invariant peakOnly == CountClass(m, points[..i], PeakOnly)
      invariant unsuitable == CountClass(m, points[..i], Unsuitable)
    {
      var p := points[i];
      assert points[..i + 1][..i] == points[..i];
      if p.rpm > 0.0 || p.torque > 0.0 {
        var c := Classify(m, p);
        if c == Suitable {
          suitable := suitable + 1;
        } else if c == PeakOnly {
          peakOnly := peakOnly + 1;
        } else {
          unsuitable := unsuitable + 1;
        }
      }
      i := i + 1;
    }
    assert points[..i] == points;
    CountsPartition(m, points);
  }

  // ---------------------------------------------------------------------------
  // _calculate_max_speed and _calculate_max_gradient
  // ---------------------------------------------------------------------------

  /** Power in W to hold a speed in km/h on the flat: rolling resistance plus drag
      at that speed, times the speed in m/s. */
  function FlatPowerRequired(gvw: real, cr: real, cd: real, airDensity: real, frontalArea: real, speedKmh: real): real
  {
    var speedMs := speedKmh / 3.6;
    (cr * gvw * 9.81 + HalfDrag(cd, airDensity, frontalArea, speedMs)) * speedMs
  }

  /** Power the motors deliver at the wheels. */
  function PowerAvailable(peakPower: real, numMotors: int, efficiency: real): real
  {
    peakPower * numMotors as real * efficiency
  }

  /** `FlatPowerRequired` at a whole speed in km/h, as the search steps. */
  function PowerAtWholeSpeed(gvw: real, cr: real, cd: real, airDensity: real, frontalArea: real, speedKmh: int): real
  {
    FlatPowerRequired(gvw, cr, cd, airDensity, frontalArea, speedKmh as real)
  }

  /** What `_calculate_max_speed` reports: `s` lies in 0..200 (never 199), every
      whole speed from 1 up to `s` (below 200) needs no more than the available
      power, and below 200 the next speed is the first one that needs more. */
  predicate IsMaxSpeed(s: int, powerAvailable: real, gvw: real, cr: real, cd: real, airDensity: real, frontalArea: real)
  {
    && 0 <= s <= 200 && s != 199
    && (forall k :: 1 <= k <= s && k < 200 ==> PowerAtWholeSpeed(gvw, cr, cd, airDensity, frontalArea, k) <= powerAvailable)
    && (s < 200 ==> PowerAtWholeSpeed(gvw, cr, cd, airDensity, frontalArea, s + 1) > powerAvailable)
  }

  /** The characterisation fixes the reported speed: it is one before the first
      failing whole speed, or 200 if none fails. */
  lemma MaxSpeedUnique(s1: int, s2: int, powerAvailable: real, gvw: real, cr: real, cd: real, airDensity: real, frontalArea: real)
    requires IsMaxSpeed(s1, powerAvailable, gvw, cr, cd, airDensity, frontalArea)
    requires IsMaxSpeed(s2, powerAvailable, gvw, cr, cd, airDensity, frontalArea)
    ensures s1 == s2
  {
  }

  /** The highest whole speed in 1..199 km/h before the first one whose flat power
      exceeds the available power, minus one; 200 if none does. */
  method MaxSpeed(peakPower: real, numMotors: int, efficiency: real, gvw: real, cr: real, cd: real,
                  airDensity: real, frontalArea: real) returns (s: int)
    ensures IsMaxSpeed(s, PowerAvailable(peakPower, numMotors, efficiency), gvw, cr, cd, airDensity, frontalArea)
  {
    var powerAvailable := PowerAvailable(peakPower, numMotors, efficiency);
    var speedKmh := 1;
    while speedKmh < 200
      invariant 1 <= speedKmh <= 200
      invariant forall k :: 1 <= k < speedKmh ==> PowerAtWholeSpeed(gvw, cr, cd, airDensity, frontalArea, k) <= powerAvailable
    {
      var powerRequired := PowerAtWholeSpeed(gvw, cr, cd, airDensity, frontalArea, speedKmh);
      if powerRequired > powerAvailable {
        return speedKmh - 1;
      }
      speedKmh := speedKmh + 1;
    }
    return 200;
  }

  /** Resistance in N on a slope of whole degrees g at fixed drag, with the cosine
      on rolling resistance. */
  function SlopeResistance(gvw: real, cr: real, drag: real, sinDeg: int -> real, cosDeg: int -> real, g: int): real
  {
    cr * gvw * 9.81 * cosDeg(g) + drag + gvw * 9.81 * sinDeg(g)
  }

  /** Largest tractive force of all motors at peak torque. */
  function MaxTractiveForce(peakTorque: real, numMotors: int, gearRatio: real, gearEfficiency: real, wheelRadius: real): real
    requires wheelRadius != 0.0
  {
    (peakTorque * numMotors as real * gearRatio * gearEfficiency) / wheelRadius
  }

  /** What `_calculate_max_gradient` reports: `g` lies in -1..90 (never 89), every
      whole gradient from 0 up to `g` (below 90) has a resistance the tractive force
      covers, and below 90 the next gradient is the first one it does not. */
  predicate IsMaxGradient(g: int, tractive: real, gvw: real, cr: real, drag: real, sinDeg: int -> real, cosDeg: int -> real)
  {
    && -1 <= g <= 90 && g != 89
    && (forall k :: 0 <= k <= g && k < 90 ==> SlopeResistance(gvw, cr, drag, sinDeg, cosDeg, k) <= tractive)
    && (g < 90 ==> SlopeResistance(gvw, cr, drag, sinDeg, cosDeg, g + 1) > tractive)
  }

  /** The characterisation fixes the reported gradient: it is one before the first
      failing whole gradient, or 90 if none fails. */
  lemma MaxGradientUnique(g1: int, g2: int, tractive: real, gvw: real, cr: real, drag: real,
                          sinDeg: int -> real, cosDeg: int -> real)
    requires IsMaxGradient(g1, tractive, gvw, cr, drag, sinDeg, cosDeg)
    requires IsMaxGradient(g2, tractive, gvw, cr, drag, sinDeg, cosDeg)
    ensures g1 == g2
  {
  }

  /** The highest whole gradient in 0..89 degrees before the first one whose
      resistance exceeds the largest tractive force, minus one; 90 if none does. */
  method MaxGradient(peakTorque: real, numMotors: int, gvw: real, gearRatio: real, gearEfficiency: real,
                     wheelRadius: real, cr: real, cd: real, airDensity: real, frontalArea: real, speedMs: real,
                     sinDeg: int -> real, cosDeg: int -> real) returns (g: int)
    requires wheelRadius != 0.0
    ensures IsMaxGradient(g, MaxTractiveForce(peakTorque, numMotors, gearRatio, gearEfficiency, wheelRadius),
                          gvw, cr, HalfDrag(cd, airDensity, frontalArea, speedMs), sinDeg, cosDeg)
  {
    var maxTractiveForce := MaxTractiveForce(peakTorque, numMotors, gearRatio, gearEfficiency, wheelRadius);
    var fDrag := HalfDrag(cd, airDensity, frontalArea, speedMs);
    var gradientDeg := 0;
    while gradientDeg < 90
      invariant 0 <= gradientDeg <= 90
      invariant forall k :: 0 <= k < gradientDeg ==> SlopeResistance(gvw, cr, fDrag, sinDeg, cosDeg, k) <= maxTractiveForce
    {
      var fTotal := SlopeResistance(gvw, cr, fDrag, sinDeg, cosDeg, gradientDeg);
      if fTotal > maxTractiveForce {
        return gradientDeg - 1;
      }
      gradientDeg := gradientDeg + 1;
    }
    return 90;
  }

  // ---------------------------------------------------------------------------
  // check_motor_suitability
  // ---------------------------------------------------------------------------

  /** The three tests, the overall verdict, and the search results the failing
      tests report. */
  datatype Report = Report(
    flatSpeedPass: bool,
    gradientPass: bool,
    accelPass: bool,
    overallSuitable: bool,
    maxAchievableSpeed: Option<int>,
    maxGradient: Option<int>)

  const GearEff: real := GearEfficiencyPct / 100.0

  /** Test 1: the available power covers the flat power at the target top speed. */
  predicate FlatSpeedPass(peakPower: real, numMotors: int)
  {
    PowerAvailable(peakPower, numMotors, GearEff)
      >= FlatPowerRequired(Gvw, RollingCoefficient, DragCoefficient, AirDensity, FrontalArea, TargetMaxSpeedKmh)
  }

  /** Slope resistance of test 2: target gradeability at the target slope speed. */
  function TargetSlopeResistance(sinDeg: int -> real, cosDeg: int -> real): real
  {
    SlopeResistance(Gvw, RollingCoefficient, HalfDrag(DragCoefficient, AirDensity, FrontalArea, TargetSlopeSpeedKmh / 3.6),
                    sinDeg, cosDeg, TargetGradeabilityDeg)
  }

  /** Torque each motor must give to overcome that resistance. */
  function TorqueRequiredPerMotor(numMotors: int, sinDeg: int -> real, cosDeg: int -> real): real
    requires numMotors != 0
  {
    var perWheel := (TargetSlopeResistance(sinDeg, cosDeg) * WheelRadius) / (GearRatio * GearEff);
    perWheel / numMotors as real
  }

  /** Best acceleration at peak torque against rolling resistance. */
  function MaxAcceleration(peakTorque: real, numMotors: int): real
  {
    (MaxTractiveForce(peakTorque, numMotors, GearRatio, GearEff, WheelRadius) - RollingCoefficient * Gvw * 9.81) / Gvw
  }

  /** Test 3: the estimated time to the target speed (infinite without a positive
      acceleration) is within one and a half target periods. */
  predicate AccelPass(maxAcceleration: real)
  {
    maxAcceleration > 0.0 && (TargetAccelEndSpeedKmh / 3.6) / maxAcceleration <= TargetAccelPeriod * 1.5
  }

  /** Test 3 passes exactly when the best acceleration reaches the target speed over
      the allowed time, 50/3.6 m/s in 7.5 s. */
  lemma AccelPassThreshold(a: real)
    ensures AccelPass(a) <==> a >= (TargetAccelEndSpeedKmh / 3.6) / (TargetAccelPeriod * 1.5)
  {
    var v := TargetAccelEndSpeedKmh / 3.6;
    var t := TargetAccelPeriod * 1.5;
    assert v > 0.0 && t > 0.0;
    if a > 0.0 {
      assert v / a <= t <==> v <= t * a;
      assert v <= t * a <==> v / t <= a;
    }
  }

  /** `check_motor_suitability` for a motor selection, a mode and a motor count. */
  method CheckMotorSuitability(choice: MotorChoice, mode: Mode, numMotors: int,
                               sinDeg: int -> real, cosDeg: int -> real) returns (r: Report)
    requires numMotors != 0
    ensures var (peakTorque, peakPower) := CheckRating(choice, mode);
      && r.flatSpeedPass == FlatSpeedPass(peakPower, numMotors)
      && r.gradientPass == (peakTorque >= TorqueRequiredPerMotor(numMotors, sinDeg, cosDeg))
      && r.accelPass == AccelPass(MaxAcceleration(peakTorque, numMotors))
    ensures r.overallSuitable == (r.flatSpeedPass && r.gradientPass && r.accelPass)
    ensures r.flatSpeedPass <==> r.maxAchievableSpeed.None?
    ensures r.gradientPass <==> r.maxGradient.None?
    ensures r.maxAchievableSpeed.Some? ==> r.maxAchievableSpeed.value < TargetMaxSpeedKmh.Floor
    ensures numMotors > 0 && r.maxGradient.Some? ==> r.maxGradient.value < TargetGradeabilityDeg
    ensures r.maxAchievableSpeed.Some? ==>
      IsMaxSpeed(r.maxAchievableSpeed.value, PowerAvailable(CheckRating(choice, mode).1, numMotors, GearEff),
                 Gvw, RollingCoefficient, DragCoefficient, AirDensity, FrontalArea)
    ensures r.maxGradient.Some? ==>
      IsMaxGradient(r.maxGradient.value, MaxTractiveForce(CheckRating(choice, mode).0, numMotors, GearRatio, GearEff, WheelRadius),
                    Gvw, RollingCoefficient, HalfDrag(DragCoefficient, AirDensity, FrontalArea, TargetSlopeSpeedKmh / 3.6),
                    sinDeg, cosDeg)
  {
    var (peakTorque, peakPower) := CheckRating(choice, mode);
    var overallSuitable := true;

    var maxSpeedMs := TargetMaxSpeedKmh / 3.6;
    var powerRequiredFlat := FlatPowerRequired(Gvw, RollingCoefficient, DragCoefficient, AirDensity, FrontalArea, TargetMaxSpeedKmh);
    var powerAvailable := PowerAvailable(peakPower, numMotors, GearEff);
    var flatSpeedPass := powerAvailable >= powerRequiredFlat;
    var maxAchievableSpeed := None;
    if !flatSpeedPass {
      overallSuitable := false;
      var s := MaxSpeed(peakPower, numMotors, GearEff, Gvw, RollingCoefficient, DragCoefficient, AirDensity, FrontalArea);
      assert !(PowerAtWholeSpeed(Gvw, RollingCoefficient, DragCoefficient, AirDensity, FrontalArea, 50) <= powerAvailable);
      maxAchievableSpeed := Some(s);
    }

    var torqueRequiredPerMotor := TorqueRequiredPerMotor(numMotors, sinDeg, cosDeg);
    var gradientPass := peakTorque >= torqueRequiredPerMotor;
    var maxGradient := None;
    if !gradientPass {
      overallSuitable := false;
      var g := MaxGradient(peakTorque, numMotors, Gvw, GearRatio, GearEff, WheelRadius, RollingCoefficient,
                           DragCoefficient, AirDensity, FrontalArea, TargetSlopeSpeedKmh / 3.6, sinDeg, cosDeg);
      if numMotors > 0 {
        TorqueTestMatchesSearch(peakTorque, numMotors, TargetSlopeResistance(sinDeg, cosDeg));
        assert !(TargetSlopeResistance(sinDeg, cosDeg) <= MaxTractiveForce(peakTorque, numMotors, GearRatio, GearEff, WheelRadius));
      }
      maxGradient := Some(g);
    }

    var maxAcceleration := MaxAcceleration(peakTorque, numMotors);
    var accelPass := maxAcceleration > 0.0 && (TargetAccelEndSpeedKmh / 3.6) / maxAcceleration <= TargetAccelPeriod * 1.5;
    if !accelPass {
      overallSuitable := false;
    }
    r := Report(flatSpeedPass, gradientPass, accelPass, overallSuitable, maxAchievableSpeed, maxGradient);
  }

  /** The per-motor torque test of test 2 fails exactly when the slope resistance
      exceeds the largest tractive force, the condition the gradient search stops on. */
  lemma TorqueTestMatchesSearch(peakTorque: real, numMotors: int, resistance: real)
    requires numMotors > 0
    ensures peakTorque < ((resistance * WheelRadius) / (GearRatio * GearEff)) / numMotors as real
        <==> resistance > MaxTractiveForce(peakTorque, numMotors, GearRatio, GearEff, WheelRadius)
  {
    var n := numMotors as real;
    var c := GearRatio * GearEff;
    assert c > 0.0 && WheelRadius > 0.0 && n > 0.0;
    var q := (resistance * WheelRadius) / c;
    assert MaxTractiveForce(peakTorque, numMotors, GearRatio, GearEff, WheelRadius) == peakTorque * n * c / WheelRadius;
    calc <==> {
      peakTorque < q / n;
      peakTorque * n < q;
      peakTorque * n * c < resistance * WheelRadius;
      peakTorque * n * c / WheelRadius < resistance;
    }
  }
}
