/**
 * The shot calculator: three calibration maps from distance to hood angle,
 * flywheel speed and time of flight; a single lookahead step that moves the
 * phase-delay-compensated position by velocity times time of flight; a
 * validity envelope on the lookahead distance; and a cache that keeps the
 * computed parameters until they are cleared.
 *
 * Hood angles are in degrees. The planar geometry (Pose2d.exp and
 * Translation2d.getDistance) is supplied as a Geometry value.
 */
module ShotCalculator {
  import opened Wrappers
  import opened Interpolation

  // ---------------------------------------------------------------------------
  // Geometry

  datatype Translation = Translation(x: real, y: real)
  datatype Pose = Pose(translation: Translation, headingDegrees: real)
  datatype Twist = Twist(dx: real, dy: real, dtheta: real)
  datatype ChassisSpeeds = ChassisSpeeds(vx: real, vy: real, omega: real)

  /** Pose2d.exp (integrate a twist) and Translation2d.getDistance. */
  datatype Geometry = Geometry(exp: (Pose, Twist) -> Pose, distance: (Translation, Translation) -> real)

  /** The two facts about the geometry that the model relies on. */
  ghost predicate GeometryLaws(g: Geometry)
  {
    && (forall p :: g.exp(p, Twist(0.0, 0.0, 0.0)) == p)
    && (forall a, b :: g.distance(a, b) >= 0.0)
  }

  function Plus(a: Translation, b: Translation): Translation
  {
    Translation(a.x + b.x, a.y + b.y)
  }

  // ---------------------------------------------------------------------------
  // Calibration

  const MinDistance: real := 1.34
  const MaxDistance: real := 5.60
  const PhaseDelay: real := 0.03

  /** The static initialiser's put calls, applied in order. */
  function PutAll(t: seq<Breakpoint>, entries: seq<Breakpoint>): (r: seq<Breakpoint>)
    requires Sorted(t)
    ensures Sorted(r)
    ensures |t| + |entries| > 0 ==> |r| > 0
    decreases |entries|
  {
    if entries == [] then t else PutAll(Put(t, entries[0].key, entries[0].value), entries[1..])
  }

  const HoodAngleEntries: seq<Breakpoint> := [
    Breakpoint(1.34, 19.0), Breakpoint(1.78, 19.0), Breakpoint(2.17, 24.0),
    Breakpoint(2.81, 27.0), Breakpoint(3.82, 29.0), Breakpoint(4.09, 30.0),
    Breakpoint(4.40, 31.0), Breakpoint(4.77, 32.0), Breakpoint(5.57, 32.0),
    Breakpoint(5.60, 35.0)]

  const FlywheelSpeedEntries: seq<Breakpoint> := [
    Breakpoint(1.34, 210.0), Breakpoint(1.78, 220.0), Breakpoint(2.17, 220.0),
    Breakpoint(2.81, 230.0), Breakpoint(3.82, 250.0), Breakpoint(4.09, 255.0),
    Breakpoint(4.40, 260.0), Breakpoint(4.77, 265.0), Breakpoint(5.57, 275.0),
    Breakpoint(5.60, 290.0)]

  /** Inserted longest distance first. */
  const TimeOfFlightEntries: seq<Breakpoint> := [
    Breakpoint(5.68, 1.16), Breakpoint(4.55, 1.12), Breakpoint(3.15, 1.11),
    Breakpoint(1.88, 1.09), Breakpoint(1.38, 0.90)]

  function HoodAngleMap(): seq<Breakpoint>
  {
    PutAll([], HoodAngleEntries)
  }

  function FlywheelSpeedMap(): seq<Breakpoint>
  {
    PutAll([], FlywheelSpeedEntries)
  }

  function TimeOfFlightMap(): seq<Breakpoint>
  {
    PutAll([], TimeOfFlightEntries)
  }

  /** A prefix of a sorted table is sorted. */
  lemma SortedPrefix(s: seq<Breakpoint>, n: nat)
    requires Sorted(s) && n <= |s|
    ensures Sorted(s[..n])
  {
    assert forall i :: 0 <= i < n ==> s[..n][i] == s[i];
  }

  /** Entries put in increasing key order end up in the map in that order. */
  lemma {:induction false} PutAllAscending(t: seq<Breakpoint>, entries: seq<Breakpoint>)
    requires Sorted(t) && Sorted(t + entries)
    ensures PutAll(t, entries) == t + entries
    decreases |entries|
  {
    if entries != [] {
      var all := t + entries;
      var e := entries[0];
      assert e == all[|t|];
      if t != [] {
        assert Last(t) == all[|t| - 1];
      }
      PutAfterLast(t, e.key, e.value);
      var u := t + [e];
      assert u == all[..|t| + 1];
      SortedPrefix(all, |t| + 1);
      assert all == u + entries[1..];
      PutAllAscending(u, entries[1..]);
    }
  }

  /** Entries put in increasing key order into an empty map are held as listed. */
  lemma PutAllIntoEmpty(entries: seq<Breakpoint>)
    requires Sorted(entries)
    ensures PutAll([], entries) == entries
  {
    assert [] + entries == entries;
    PutAllAscending([], entries);
  }

  /** The time-of-flight map as it stands after the initialiser: ordered by key. */
  const TimeOfFlightBreakpoints: seq<Breakpoint> := [
    Breakpoint(1.38, 0.90), Breakpoint(1.88, 1.09), Breakpoint(3.15, 1.11),
    Breakpoint(4.55, 1.12), Breakpoint(5.68, 1.16)]

  /** The hood-angle list is ordered by key, with non-decreasing angles within a quarter turn. */
  lemma HoodAngleEntriesOrdered()
    ensures Sorted(HoodAngleEntries) && NonDecreasing(HoodAngleEntries) && WithinQuarterTurn(HoodAngleEntries)
  {
    assert StepwiseOrdered(HoodAngleEntries);
    StepwiseOrderedIsOrdered(HoodAngleEntries);
  }

  /** The flywheel-speed list is ordered by key, with non-decreasing speeds. */
  lemma FlywheelSpeedEntriesOrdered()
    ensures Sorted(FlywheelSpeedEntries) && NonDecreasing(FlywheelSpeedEntries)
  {
    assert StepwiseOrdered(FlywheelSpeedEntries);
    StepwiseOrderedIsOrdered(FlywheelSpeedEntries);
  }

  /** The time-of-flight breakpoints are ordered by key, with non-decreasing times. */
  lemma TimeOfFlightBreakpointsOrdered()
    ensures Sorted(TimeOfFlightBreakpoints) && NonDecreasing(TimeOfFlightBreakpoints)
  {
    assert StepwiseOrdered(TimeOfFlightBreakpoints);
    StepwiseOrderedIsOrdered(TimeOfFlightBreakpoints);
  }

  /** Each calibration list is ordered by key with non-decreasing values. */
  lemma CalibrationEntriesOrdered()
    ensures Sorted(HoodAngleEntries) && NonDecreasing(HoodAngleEntries) && WithinQuarterTurn(HoodAngleEntries)
    ensures Sorted(FlywheelSpeedEntries) && NonDecreasing(FlywheelSpeedEntries)
    ensures Sorted(TimeOfFlightBreakpoints) && NonDecreasing(TimeOfFlightBreakpoints)
  {
    HoodAngleEntriesOrdered();
    FlywheelSpeedEntriesOrdered();
    TimeOfFlightBreakpointsOrdered();
  }

  /** The hood angles, put in increasing distance order, are held as listed. */
  lemma HoodAngleMapContents()
    ensures HoodAngleMap() == HoodAngleEntries
  {
    HoodAngleEntriesOrdered();
    PutAllIntoEmpty(HoodAngleEntries);
  }

  /** The flywheel speeds, put in increasing distance order, are held as listed. */
  lemma FlywheelSpeedMapContents()
    ensures FlywheelSpeedMap() == FlywheelSpeedEntries
  {
    FlywheelSpeedEntriesOrdered();
    PutAllIntoEmpty(FlywheelSpeedEntries);
  }

  /** Entries put in increasing distance order are held as listed. */
  lemma AscendingMapContents()
    ensures HoodAngleMap() == HoodAngleEntries
    ensures FlywheelSpeedMap() == FlywheelSpeedEntries
  {
    HoodAngleMapContents();
    FlywheelSpeedMapContents();
  }

  /**
   * The time-of-flight entries were put in decreasing distance order, yet the
   * map holds them in increasing key order.
   */
  lemma TimeOfFlightMapContents()
    ensures TimeOfFlightMap() == TimeOfFlightBreakpoints
  {
  }

  /** All three maps as the static initialiser leaves them. */
  lemma CalibrationMaps()
    ensures HoodAngleMap() == HoodAngleEntries
    ensures FlywheelSpeedMap() == FlywheelSpeedEntries
    ensures TimeOfFlightMap() == TimeOfFlightBreakpoints
    ensures Sorted(HoodAngleMap()) && NonDecreasing(HoodAngleMap()) && WithinQuarterTurn(HoodAngleMap())
    ensures Sorted(FlywheelSpeedMap()) && NonDecreasing(FlywheelSpeedMap())
    ensures Sorted(TimeOfFlightMap()) && NonDecreasing(TimeOfFlightMap())
  {
    CalibrationEntriesOrdered();
    AscendingMapContents();
    TimeOfFlightMapContents();
  }

  // ---------------------------------------------------------------------------
  // Lookups

  /** The three maps a calculator reads. */
  datatype Calibration = Calibration(
    hoodAngle: seq<Breakpoint>, flywheelSpeed: seq<Breakpoint>, timeOfFlight: seq<Breakpoint>)

  /** The maps as the static initialiser fills them. */
  function StaticCalibration(): Calibration
  {
    Calibration(HoodAngleMap(), FlywheelSpeedMap(), TimeOfFlightMap())
  }

  /** No map is empty, so no lookup returns null. */
  predicate Usable(c: Calibration)
  {
    |c.hoodAngle| > 0 && |c.flywheelSpeed| > 0 && |c.timeOfFlight| > 0
  }

  /** Hood angle in degrees for a distance, read through Rotation2d's blend. */
  function HoodAngleAt(c: Calibration, distance: real): real
    requires Usable(c)
  {
    Get(c.hoodAngle, distance, Angular).value
  }

  function FlywheelSpeedAt(c: Calibration, distance: real): real
    requires Usable(c)
  {
    Get(c.flywheelSpeed, distance, Scalar).value
  }

  function TimeOfFlightAt(c: Calibration, distance: real): real
    requires Usable(c)
  {
    Get(c.timeOfFlight, distance, Scalar).value
  }

  /** The static maps, with the facts the lookups need. */
  lemma StaticCalibrationFacts()
    ensures Usable(StaticCalibration())
    ensures StaticCalibration().hoodAngle == HoodAngleEntries
    ensures StaticCalibration().flywheelSpeed == FlywheelSpeedEntries
    ensures StaticCalibration().timeOfFlight == TimeOfFlightBreakpoints
  {
    CalibrationMaps();
  }

  /** The static hood-angle map, with the facts its lookups need. */
  lemma StaticHoodAngle()
    ensures Usable(StaticCalibration())
    ensures StaticCalibration().hoodAngle == HoodAngleEntries
    ensures Sorted(HoodAngleEntries) && NonDecreasing(HoodAngleEntries) && WithinQuarterTurn(HoodAngleEntries)
  {
    StaticCalibrationFacts();
    HoodAngleEntriesOrdered();
  }

  /** The static flywheel-speed map, with the facts its lookups need. */
  lemma StaticFlywheelSpeed()
    ensures Usable(StaticCalibration())
    ensures StaticCalibration().flywheelSpeed == FlywheelSpeedEntries
    ensures Sorted(FlywheelSpeedEntries) && NonDecreasing(FlywheelSpeedEntries)
  {
    StaticCalibrationFacts();
    FlywheelSpeedEntriesOrdered();
  }

  /** The static time-of-flight map, with the facts its lookups need. */
  lemma StaticTimeOfFlight()
    ensures Usable(StaticCalibration())
    ensures StaticCalibration().timeOfFlight == TimeOfFlightBreakpoints
    ensures Sorted(TimeOfFlightBreakpoints) && NonDecreasing(TimeOfFlightBreakpoints)
  {
    StaticCalibrationFacts();
    TimeOfFlightBreakpointsOrdered();
  }

  /** The hood-angle lookup is the plain scalar lookup: all its angles are within a quarter turn. */
  lemma HoodAngleIsScalar(distance: real)
    ensures Usable(StaticCalibration())
    ensures HoodAngleAt(StaticCalibration(), distance) == Get(HoodAngleEntries, distance, Scalar).value
  {
    StaticHoodAngle();
    AngularIsScalar(HoodAngleEntries, distance);
  }

  /** The hood angle is 19 degrees up to the first breakpoint and 35 from the last on. */
  lemma HoodAngleClamps(distance: real)
    ensures Usable(StaticCalibration())
    ensures distance <= 1.34 ==> HoodAngleAt(StaticCalibration(), distance) == 19.0
    ensures distance >= 5.60 ==> HoodAngleAt(StaticCalibration(), distance) == 35.0
  {
    StaticHoodAngle();
    HoodAngleIsScalar(distance);
    if distance <= 1.34 {
      GetClampLow(HoodAngleEntries, distance, Scalar);
    }
    if distance >= 5.60 {
      GetClampHigh(HoodAngleEntries, distance, Scalar);
    }
  }

  /** The flywheel speed is 210 up to the first breakpoint and 290 from the last on. */
  lemma FlywheelSpeedClamps(distance: real)
    ensures Usable(StaticCalibration())
    ensures distance <= 1.34 ==> FlywheelSpeedAt(StaticCalibration(), distance) == 210.0
    ensures distance >= 5.60 ==> FlywheelSpeedAt(StaticCalibration(), distance) == 290.0
  {
    StaticFlywheelSpeed();
    if distance <= 1.34 {
      GetClampLow(FlywheelSpeedEntries, distance, Scalar);
    }
    if distance >= 5.60 {
      GetClampHigh(FlywheelSpeedEntries, distance, Scalar);
    }
  }

  /** The time of flight is 0.90 up to its first breakpoint and 1.16 from its last on. */
  lemma TimeOfFlightClamps(distance: real)
    ensures Usable(StaticCalibration())
    ensures distance <= 1.38 ==> TimeOfFlightAt(StaticCalibration(), distance) == 0.90
    ensures distance >= 5.68 ==> TimeOfFlightAt(StaticCalibration(), distance) == 1.16
  {
    StaticTimeOfFlight();
    if distance <= 1.38 {
      GetClampLow(TimeOfFlightBreakpoints, distance, Scalar);
    }
    if distance >= 5.68 {
      GetClampHigh(TimeOfFlightBreakpoints, distance, Scalar);
    }
  }

  /** Distances at or below the first breakpoint read the first calibration, at or above the last the last. */
  lemma LookupsClamp(distance: real)
    ensures Usable(StaticCalibration())
    ensures distance <= 1.34 ==>
      HoodAngleAt(StaticCalibration(), distance) == 19.0 && FlywheelSpeedAt(StaticCalibration(), distance) == 210.0
    ensures distance >= 5.60 ==>
      HoodAngleAt(StaticCalibration(), distance) == 35.0 && FlywheelSpeedAt(StaticCalibration(), distance) == 290.0
    ensures distance <= 1.38 ==> TimeOfFlightAt(StaticCalibration(), distance) == 0.90
    ensures distance >= 5.68 ==> TimeOfFlightAt(StaticCalibration(), distance) == 1.16
  {
    HoodAngleClamps(distance);
    FlywheelSpeedClamps(distance);
    TimeOfFlightClamps(distance);
  }

  /** A lookup at a calibrated distance returns the calibrated value. */
  lemma LookupsAtBreakpoint(i: nat)
    requires i < 10
    ensures Usable(StaticCalibration())
    ensures HoodAngleAt(StaticCalibration(), HoodAngleEntries[i].key) == HoodAngleEntries[i].value
    ensures FlywheelSpeedAt(StaticCalibration(), FlywheelSpeedEntries[i].key) == FlywheelSpeedEntries[i].value
    ensures i < 5 ==>
      TimeOfFlightAt(StaticCalibration(), TimeOfFlightBreakpoints[i].key) == TimeOfFlightBreakpoints[i].value
  {
    HoodAngleAtBreakpoint(i);
    FlywheelSpeedAtBreakpoint(i);
    if i < 5 {
      TimeOfFlightAtBreakpoint(i);
    }
  }

  /** A hood-angle lookup at a calibrated distance returns the calibrated angle. */
  lemma HoodAngleAtBreakpoint(i: nat)
    requires i < 10
    ensures Usable(StaticCalibration())
    ensures HoodAngleAt(StaticCalibration(), HoodAngleEntries[i].key) == HoodAngleEntries[i].value
  {
    StaticHoodAngle();
    HoodAngleIsScalar(HoodAngleEntries[i].key);
    GetAtKey(HoodAngleEntries, i, Scalar);
  }

  /** A flywheel-speed lookup at a calibrated distance returns the calibrated speed. */
  lemma FlywheelSpeedAtBreakpoint(i: nat)
    requires i < 10
    ensures Usable(StaticCalibration())
    ensures FlywheelSpeedAt(StaticCalibration(), FlywheelSpeedEntries[i].key) == FlywheelSpeedEntries[i].value
  {
    StaticFlywheelSpeed();
    GetAtKey(FlywheelSpeedEntries, i, Scalar);
  }

  /** A time-of-flight lookup at a calibrated distance returns the calibrated time. */
  lemma TimeOfFlightAtBreakpoint(i: nat)
    requires i < 5
    ensures Usable(StaticCalibration())
    ensures TimeOfFlightAt(StaticCalibration(), TimeOfFlightBreakpoints[i].key) == TimeOfFlightBreakpoints[i].value
  {
    StaticTimeOfFlight();
    GetAtKey(TimeOfFlightBreakpoints, i, Scalar);
  }

  /** 2.81 m is a breakpoint: 27 degrees of hood and a flywheel speed of 230. */
  lemma AtTwoPointEightOneMeters()
    ensures Usable(StaticCalibration())
    ensures HoodAngleAt(StaticCalibration(), 2.81) == 27.0 && FlywheelSpeedAt(StaticCalibration(), 2.81) == 230.0
  {
    HoodAngleAtBreakpoint(3);
    FlywheelSpeedAtBreakpoint(3);
  }

  /**
   * Strictly between two neighbouring flywheel breakpoints the speed lies
   * between their speeds (Interpolation.GetBetweenBounded gives the same for
   * the other maps).
   */
  lemma FlywheelSpeedBetweenBreakpoints(i: nat, distance: real)
    requires i + 1 < 10
    requires FlywheelSpeedEntries[i].key < distance < FlywheelSpeedEntries[i + 1].key
    ensures Usable(StaticCalibration())
    ensures FlywheelSpeedEntries[i].value <= FlywheelSpeedAt(StaticCalibration(), distance) <= FlywheelSpeedEntries[i + 1].value
  {
    StaticFlywheelSpeed();
    GetBetweenBounded(FlywheelSpeedEntries, i, distance);
  }

  /** Every lookup is monotone non-decreasing in distance. */
  lemma LookupsMonotone(d1: real, d2: real)
    requires d1 <= d2
    ensures Usable(StaticCalibration())
    ensures HoodAngleAt(StaticCalibration(), d1) <= HoodAngleAt(StaticCalibration(), d2)
    ensures FlywheelSpeedAt(StaticCalibration(), d1) <= FlywheelSpeedAt(StaticCalibration(), d2)
    ensures TimeOfFlightAt(StaticCalibration(), d1) <= TimeOfFlightAt(StaticCalibration(), d2)
  {
    StaticHoodAngle();
    StaticFlywheelSpeed();
    StaticTimeOfFlight();
    HoodAngleIsScalar(d1);
    HoodAngleIsScalar(d2);
    GetMonotone(HoodAngleEntries, d1, d2);
    GetMonotone(FlywheelSpeedEntries, d1, d2);
    GetMonotone(TimeOfFlightBreakpoints, d1, d2);
  }

  /** Whatever the distance, the hood angle stays within [19, 35] degrees. */
  lemma HoodAngleBounded(distance: real)
    ensures Usable(StaticCalibration())
    ensures 19.0 <= HoodAngleAt(StaticCalibration(), distance) <= 35.0
  {
    StaticHoodAngle();
    HoodAngleIsScalar(distance);
    GetBounds(HoodAngleEntries, distance);
  }

  /** Whatever the distance, the flywheel speed stays within [210, 290]. */
  lemma FlywheelSpeedBounded(distance: real)
    ensures Usable(StaticCalibration())
    ensures 210.0 <= FlywheelSpeedAt(StaticCalibration(), distance) <= 290.0
  {
    StaticFlywheelSpeed();
    GetBounds(FlywheelSpeedEntries, distance);
  }

  /** Whatever the distance, the time of flight stays within [0.90, 1.16]. */
  lemma TimeOfFlightBounded(distance: real)
    ensures Usable(StaticCalibration())
    ensures 0.90 <= TimeOfFlightAt(StaticCalibration(), distance) <= 1.16
  {
    StaticTimeOfFlight();
    GetBounds(TimeOfFlightBreakpoints, distance);
  }

  /** Whatever the distance, every lookup stays within its map's calibrated range. */
  lemma LookupsBounded(distance: real)
    ensures Usable(StaticCalibration())
    ensures 19.0 <= HoodAngleAt(StaticCalibration(), distance) <= 35.0
    ensures 210.0 <= FlywheelSpeedAt(StaticCalibration(), distance) <= 290.0
    ensures 0.90 <= TimeOfFlightAt(StaticCalibration(), distance) <= 1.16
  {
    HoodAngleBounded(distance);
    FlywheelSpeedBounded(distance);
    TimeOfFlightBounded(distance);
  }

  // ---------------------------------------------------------------------------
  // One shot

  /** What getParameters hands out. The moving-average hood velocity is not modelled. */
  datatype ShootingParameters = ShootingParameters(isValid: bool, hoodAngle: real, flywheelSpeed: real)

  /** The estimated pose advanced by the velocity over the phase delay. */
  function CompensatedPose(g: Geometry, pose: Pose, speeds: ChassisSpeeds): Pose
  {
    g.exp(pose, Twist(speeds.vx * PhaseDelay, speeds.vy * PhaseDelay, speeds.omega * PhaseDelay))
  }

  /** One lookahead step: move by velocity times the time of flight at the current distance. */
  function LookaheadPosition(c: Calibration, g: Geometry, target: Translation, pose: Pose, speeds: ChassisSpeeds)
    : Translation
    requires Usable(c)
  {
    var estimated := CompensatedPose(g, pose, speeds).translation;
    var timeOfFlight := TimeOfFlightAt(c, g.distance(target, estimated));
    Plus(estimated, Translation(speeds.vx * timeOfFlight, speeds.vy * timeOfFlight))
  }

  function LookaheadDistance(c: Calibration, g: Geometry, target: Translation, pose: Pose, speeds: ChassisSpeeds)
    : real
    requires Usable(c)
  {
    g.distance(target, LookaheadPosition(c, g, target, pose, speeds))
  }

  /** The calibrated envelope, both ends included. */
  predicate InEnvelope(distance: real)
  {
    MinDistance <= distance <= MaxDistance
  }

  /** The parameters computed on a cache miss. */
  function Calculate(c: Calibration, g: Geometry, target: Translation, pose: Pose, speeds: ChassisSpeeds)
    : (p: ShootingParameters)
    requires Usable(c)
    ensures p.isValid <==> 1.34 <= LookaheadDistance(c, g, target, pose, speeds) <= 5.60
  {
    var distance := LookaheadDistance(c, g, target, pose, speeds);
    ShootingParameters(InEnvelope(distance), HoodAngleAt(c, distance), FlywheelSpeedAt(c, distance))
  }

  /** With the static maps, valid or not, the setpoints are within the calibrated ranges. */
  lemma CalculateBounded(g: Geometry, target: Translation, pose: Pose, speeds: ChassisSpeeds)
    ensures Usable(StaticCalibration())
    ensures 19.0 <= Calculate(StaticCalibration(), g, target, pose, speeds).hoodAngle <= 35.0
    ensures 210.0 <= Calculate(StaticCalibration(), g, target, pose, speeds).flywheelSpeed <= 290.0
  {
    StaticCalibrationFacts();
    LookupsBounded(LookaheadDistance(StaticCalibration(), g, target, pose, speeds));
  }

  /** Both ends of the envelope are valid; anything beyond them is not. */
  lemma EnvelopeInclusive(distance: real)
    ensures InEnvelope(1.34) && InEnvelope(5.60)
    ensures distance < 1.34 || distance > 5.60 ==> !InEnvelope(distance)
  {
  }

  /** A stationary robot looks ahead to where it stands: the lookahead distance is the raw distance. */
  lemma StationaryLookahead(c: Calibration, g: Geometry, target: Translation, pose: Pose)
    requires Usable(c) && GeometryLaws(g)
    ensures LookaheadDistance(c, g, target, pose, ChassisSpeeds(0.0, 0.0, 0.0)) == g.distance(target, pose.translation)
  {
    var still := ChassisSpeeds(0.0, 0.0, 0.0);
    assert CompensatedPose(g, pose, still) == pose;
    assert LookaheadPosition(c, g, target, pose, still) == pose.translation;
  }

  /**
   * Motion that carries the lookahead point farther from the target than the
   * robot's own distance never lowers the hood angle or the flywheel speed
   * below the stationary solution.
   */
  lemma FartherLookaheadRaisesSetpoints(g: Geometry, target: Translation, pose: Pose, speeds: ChassisSpeeds)
    requires GeometryLaws(g)
    requires Usable(StaticCalibration())
    requires LookaheadDistance(StaticCalibration(), g, target, pose, speeds) >= g.distance(target, pose.translation)
    ensures Calculate(StaticCalibration(), g, target, pose, speeds).hoodAngle
      >= Calculate(StaticCalibration(), g, target, pose, ChassisSpeeds(0.0, 0.0, 0.0)).hoodAngle
    ensures Calculate(StaticCalibration(), g, target, pose, speeds).flywheelSpeed
      >= Calculate(StaticCalibration(), g, target, pose, ChassisSpeeds(0.0, 0.0, 0.0)).flywheelSpeed
  {
    StationaryLookahead(StaticCalibration(), g, target, pose);
    LookupsMonotone(g.distance(target, pose.translation), LookaheadDistance(StaticCalibration(), g, target, pose, speeds));
  }

  // ---------------------------------------------------------------------------
  // The calculator and its cache

  /**
   * One explicitly owned calculator (the source reaches a lazily created
   * singleton). latestParameters is null in the source until computed;
   * lookaheadLog stands for the values recorded through the logger.
   */
  class Calculator {
    const calibration: Calibration
    const geometry: Geometry
    const target: Translation
    var latestParameters: Option<ShootingParameters>
    var lookaheadLog: seq<real>

    /**
     * Built over a usable calibration; the source's calculator always reads the
     * maps its static initialiser fills, StaticCalibration(), which
     * StaticCalibrationFacts shows usable. The maps are a parameter so that the
     * methods reason about them through Usable alone.
     */
    constructor (calibration: Calibration, geometry: Geometry, target: Translation)
      requires Usable(calibration)
      ensures this.calibration == calibration && Usable(this.calibration)
      ensures this.geometry == geometry && this.target == target
      ensures latestParameters == None && lookaheadLog == []
    {
      this.calibration := calibration;
      this.geometry := geometry;
      this.target := target;
      latestParameters := None;
      lookaheadLog := [];
    }

    /**
     * A cached record is returned as is, whatever pose and speeds are passed,
     * with nothing recomputed or logged; otherwise the parameters are computed,
     * stored, and their lookahead distance logged once.
     */
    method GetParameters(pose: Pose, speeds: ChassisSpeeds) returns (p: ShootingParameters)
      requires Usable(calibration)
      modifies this
      ensures old(latestParameters).Some? ==>
        p == old(latestParameters).value && latestParameters == old(latestParameters)
        && lookaheadLog == old(lookaheadLog)
      ensures old(latestParameters).None? ==>
        p == Calculate(calibration, geometry, target, pose, speeds) && latestParameters == Some(p)
        && lookaheadLog == old(lookaheadLog) + [LookaheadDistance(calibration, geometry, target, pose, speeds)]
    {
      if latestParameters.Some? {
        return latestParameters.value;
      }
      var estimated := CompensatedPose(geometry, pose, speeds);
      var distanceToTarget := geometry.distance(target, estimated.translation);
      var timeOfFlight := TimeOfFlightAt(calibration, distanceToTarget);
      var offset := Translation(speeds.vx * timeOfFlight, speeds.vy * timeOfFlight);
      var lookaheadDistance := geometry.distance(target, Plus(estimated.translation, offset));
      assert Plus(estimated.translation, offset) == LookaheadPosition(calibration, geometry, target, pose, speeds);
      assert lookaheadDistance == LookaheadDistance(calibration, geometry, target, pose, speeds);
      p := ShootingParameters(
        lookaheadDistance >= MinDistance && lookaheadDistance <= MaxDistance,
        HoodAngleAt(calibration, lookaheadDistance),
        FlywheelSpeedAt(calibration, lookaheadDistance));
      latestParameters := Some(p);
      lookaheadLog := lookaheadLog + [lookaheadDistance];
    }

    /** Forget the cached record, so that the next read recomputes. */
    method ClearShootingParameters()
      modifies this`latestParameters
      ensures latestParameters == None
    {
      latestParameters := None;
    }
  }

  /** Two reads in one tick agree even if the robot moved between them; a cleared cache recomputes. */
  method OneTick(calculator: Calculator, pose1: Pose, speeds1: ChassisSpeeds, pose2: Pose, speeds2: ChassisSpeeds)
    returns (first: ShootingParameters, second: ShootingParameters)
    requires Usable(calculator.calibration)
    modifies calculator
    ensures first == second
    ensures first == Calculate(calculator.calibration, calculator.geometry, calculator.target, pose1, speeds1)
    ensures |calculator.lookaheadLog| == |old(calculator.lookaheadLog)| + 1
  {
    calculator.ClearShootingParameters();
    first := calculator.GetParameters(pose1, speeds1);
    second := calculator.GetParameters(pose2, speeds2);
  }
}
