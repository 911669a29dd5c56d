/**
 * raisa.domain.robot.SimpleRobotMovementEstimator: one dead-reckoning step that
 * moves the robot's two tracks by the distance a sample says they travelled.
 *
 * The robot's dimensions, the configuration's `useCompass` flag, the default state
 * `new RobotState()` builds, sine and cosine, and the three `RandomUtil.random()`
 * draws of particle mode are all parameters.
 */
module MovementEstimator {
  import opened Wrappers
  import Numeric
  import Geometry

  /** raisa.domain.robot.RobotState: the fields moveRobot sets. */
  datatype RobotState = RobotState(
    heading: real,
    positionLeftTrack: Geometry.Vector2,
    positionRightTrack: Geometry.Vector2,
    directionLeftTrackForward: bool,
    directionRightTrackForward: bool)

  /** raisa.domain.samples.Sample: the readings moveRobot uses. */
  datatype Reading = Reading(
    leftTrackTicks: int,
    rightTrackTicks: int,
    leftWheelOdometer: real,
    rightWheelOdometer: real,
    compassDirection: real)

  /** Robot.WHEEL_DIAMETER, Robot.TICK_RADIANS and Robot.ROBOT_WIDTH. */
  datatype Dimensions = Dimensions(wheelDiameter: real, tickRadians: real, robotWidth: real)

  /** The three values `RandomUtil.random()` returns in particle mode, in the order they are drawn. */
  datatype Draws = Draws(angle: real, radius: real, heading: real)

  datatype Trips = Trips(left: real, right: real)

  const NOISE_MAGNITUDE: real := 5.0

  function Plus(a: Geometry.Vector2, b: Geometry.Vector2): Geometry.Vector2 {
    Geometry.Vector2(a.x + b.x, a.y + b.y)
  }

  function Minus(a: Geometry.Vector2, b: Geometry.Vector2): Geometry.Vector2 {
    Geometry.Vector2(a.x - b.x, a.y - b.y)
  }

  /** The trips a tick count gives: half a wheel diameter per radian turned. */
  function TickTrips(sample: Reading, dims: Dimensions): Trips {
    Trips(dims.wheelDiameter * sample.leftTrackTicks as real * dims.tickRadians / 2.0,
          dims.wheelDiameter * sample.rightTrackTicks as real * dims.tickRadians / 2.0)
  }

  /**
   * How far each track travelled: from the tick counts when either is non-zero,
   * else from the odometers when either is non-zero, else nothing moved.
   */
  function TripsOf(sample: Reading, dims: Dimensions): (t: Option<Trips>)
    ensures t.None? <==> (sample.leftTrackTicks == 0 && sample.rightTrackTicks == 0
                          && sample.leftWheelOdometer == 0.0 && sample.rightWheelOdometer == 0.0)
    ensures (sample.leftTrackTicks != 0 || sample.rightTrackTicks != 0) ==> t == Some(TickTrips(sample, dims))
    ensures (sample.leftTrackTicks == 0 && sample.rightTrackTicks == 0 && t.Some?) ==>
      t.value == Trips(sample.leftWheelOdometer / 10.0, sample.rightWheelOdometer / 10.0)
  {
    if sample.leftTrackTicks != 0 || sample.rightTrackTicks != 0 then
      Some(TickTrips(sample, dims))
    else if sample.leftWheelOdometer != 0.0 || sample.rightWheelOdometer != 0.0 then
      Some(Trips(sample.leftWheelOdometer / 10.0, sample.rightWheelOdometer / 10.0))
    else None
  }

  /** A track position moved `trip` along the heading `h`, whose direction is (sin h, -cos h). */
  function Translate(p: Geometry.Vector2, trip: real, h: real, m: Numeric.Maths): Geometry.Vector2 {
    Geometry.Vector2(p.x + trip * m.sin(h), p.y - trip * m.cos(h))
  }

  /** The position offset of particle mode, the same for both tracks. */
  function Noise(d: Draws, m: Numeric.Maths): Geometry.Vector2 {
    var a := d.angle * Numeric.PI * 2.0;
    var r := d.radius * NOISE_MAGNITUDE;
    Geometry.Vector2(m.cos(a) * r, m.sin(a) * r)
  }

  /** The heading offset of particle mode. */
  function HeadingNoise(d: Draws): real {
    (d.heading * 8.0 - 4.0) / 180.0 * Numeric.PI
  }

  /** The heading after the step, before any noise. */
  function NextHeading(h: real, t: Trips, sample: Reading, useCompass: bool, usingParticleFilter: bool, dims: Dimensions): real
    requires dims.robotWidth != 0.0
  {
    if useCompass && !usingParticleFilter then sample.compassDirection
    else h + (t.left - t.right) / dims.robotWidth
  }

  /** SimpleRobotMovementEstimator.moveRobot; `initial` is what `new RobotState()` gives. */
  function MoveRobot(state: Option<RobotState>, sample: Reading, useCompass: bool, usingParticleFilter: bool,
                     initial: RobotState, dims: Dimensions, m: Numeric.Maths, draws: Draws): (r: RobotState)
    requires dims.robotWidth != 0.0
    ensures state.None? ==> r == initial
  {
    match state
    case None => initial
    case Some(s) =>
      match TripsOf(sample, dims)
      case None => s
      case Some(t) =>
        var left := Translate(s.positionLeftTrack, t.left, s.heading, m);
        var right := Translate(s.positionRightTrack, t.right, s.heading, m);
        var h := NextHeading(s.heading, t, sample, useCompass, usingParticleFilter, dims);
        var forwardLeft, forwardRight := sample.leftTrackTicks >= 0, sample.rightTrackTicks >= 0;
        if usingParticleFilter then
          var n := Noise(draws, m);
          RobotState(h + HeadingNoise(draws), Plus(left, n), Plus(right, n), forwardLeft, forwardRight)
        else
          RobotState(h, left, right, forwardLeft, forwardRight)
  }

  /** With no tick and no odometer movement, moveRobot returns the very state it was given. */
  lemma NoMovementIsNoOp(s: RobotState, sample: Reading, useCompass: bool, usingParticleFilter: bool,
                         initial: RobotState, dims: Dimensions, m: Numeric.Maths, draws: Draws)
    requires dims.robotWidth != 0.0
    requires sample.leftTrackTicks == 0 && sample.rightTrackTicks == 0
    requires sample.leftWheelOdometer == 0.0 && sample.rightWheelOdometer == 0.0
    ensures MoveRobot(Some(s), sample, useCompass, usingParticleFilter, initial, dims, m, draws) == s
  {
  }

  /** Once either tick count is non-zero, the odometer readings make no difference. */
  lemma TicksTakePrecedence(state: Option<RobotState>, sample: Reading, leftOdometer: real, rightOdometer: real,
                            useCompass: bool, usingParticleFilter: bool,
                            initial: RobotState, dims: Dimensions, m: Numeric.Maths, draws: Draws)
    requires dims.robotWidth != 0.0
    requires sample.leftTrackTicks != 0 || sample.rightTrackTicks != 0
    ensures var other := sample.(leftWheelOdometer := leftOdometer, rightWheelOdometer := rightOdometer);
      MoveRobot(state, sample, useCompass, usingParticleFilter, initial, dims, m, draws)
      == MoveRobot(state, other, useCompass, usingParticleFilter, initial, dims, m, draws)
  {
    var other := sample.(leftWheelOdometer := leftOdometer, rightWheelOdometer := rightOdometer);
    var t := TickTrips(sample, dims);
    assert TripsOf(sample, dims) == Some(t);
    assert TickTrips(other, dims) == t;
    assert TripsOf(other, dims) == Some(t);
  }

  /** The odometer branch: each track travels a tenth of its odometer, and both count as driving forward. */
  lemma OdometerStep(s: RobotState, sample: Reading, useCompass: bool, initial: RobotState,
                     dims: Dimensions, m: Numeric.Maths, draws: Draws)
    requires dims.robotWidth != 0.0
    requires sample.leftTrackTicks == 0 && sample.rightTrackTicks == 0
    requires sample.leftWheelOdometer != 0.0 || sample.rightWheelOdometer != 0.0
    ensures var r := MoveRobot(Some(s), sample, useCompass, false, initial, dims, m, draws);
      && r.directionLeftTrackForward && r.directionRightTrackForward
      && r.positionLeftTrack == Translate(s.positionLeftTrack, sample.leftWheelOdometer / 10.0, s.heading, m)
      && r.positionRightTrack == Translate(s.positionRightTrack, sample.rightWheelOdometer / 10.0, s.heading, m)
  {
  }

  /** The direction flags of a moved robot are the signs of the tick counts. */
  lemma DirectionFlags(s: RobotState, sample: Reading, useCompass: bool, usingParticleFilter: bool,
                       initial: RobotState, dims: Dimensions, m: Numeric.Maths, draws: Draws)
    requires dims.robotWidth != 0.0
    requires TripsOf(sample, dims).Some?
    ensures var r := MoveRobot(Some(s), sample, useCompass, usingParticleFilter, initial, dims, m, draws);
      && (r.directionLeftTrackForward <==> sample.leftTrackTicks >= 0)
      && (r.directionRightTrackForward <==> sample.rightTrackTicks >= 0)
  {
  }

  /**
   * Without particle noise, each track moves by its own trip along the direction
   * of the heading the robot had before the step.
   */
  lemma TracksMoveByTheirTrips(s: RobotState, sample: Reading, useCompass: bool,
                               initial: RobotState, dims: Dimensions, m: Numeric.Maths, draws: Draws)
    requires dims.robotWidth != 0.0
    requires TripsOf(sample, dims).Some?
    ensures var r := MoveRobot(Some(s), sample, useCompass, false, initial, dims, m, draws);
      var t := TripsOf(sample, dims).value;
      && r.positionLeftTrack == Translate(s.positionLeftTrack, t.left, s.heading, m)
      && r.positionRightTrack == Translate(s.positionRightTrack, t.right, s.heading, m)
  {
  }

  /** Translating a point moves it by `trip` along (sin h, -cos h): a distance of |trip|. */
  lemma TranslateMovesTrip(p: Geometry.Vector2, trip: real, h: real, m: Numeric.Maths)
    requires Numeric.Pythagorean(m)
    ensures Minus(Translate(p, trip, h, m), p) == Geometry.Vector2(trip * m.sin(h), -trip * m.cos(h))
    ensures Geometry.SquaredDistance(p, Translate(p, trip, h, m)) == trip * trip
  {
    var sn, cs := m.sin(h), m.cos(h);
    assert sn * sn + cs * cs == 1.0;
    var q := Translate(p, trip, h, m);
    assert p.x - q.x == -(trip * sn) && p.y - q.y == trip * cs;
    TripSquared(trip, sn, cs);
  }

  lemma TripSquared(trip: real, sn: real, cs: real)
    requires sn * sn + cs * cs == 1.0
    ensures (trip * sn) * (trip * sn) + (trip * cs) * (trip * cs) == trip * trip
  {
    calc {
      (trip * sn) * (trip * sn) + (trip * cs) * (trip * cs);
      trip * trip * (sn * sn + cs * cs);
      trip * trip;
    }
  }

  /**
   * The heading is the compass reading exactly when the compass is in use and
   * particle mode is off; otherwise the old heading turned by the trip difference
   * over the robot's width.
   */
  lemma HeadingRule(s: RobotState, sample: Reading, useCompass: bool,
                    initial: RobotState, dims: Dimensions, m: Numeric.Maths, draws: Draws)
    requires dims.robotWidth != 0.0
    requires TripsOf(sample, dims).Some?
    ensures var r := MoveRobot(Some(s), sample, useCompass, false, initial, dims, m, draws);
      var t := TripsOf(sample, dims).value;
      && (useCompass ==> r.heading == sample.compassDirection)
      && (!useCompass ==> r.heading == s.heading + (t.left - t.right) / dims.robotWidth)
  {
  }

  /** In particle mode the compass is ignored: the heading is the turned heading plus the heading noise. */
  lemma ParticleHeadingIgnoresCompass(s: RobotState, sample: Reading, useCompass: bool,
                                      initial: RobotState, dims: Dimensions, m: Numeric.Maths, draws: Draws)
    requires dims.robotWidth != 0.0
    requires TripsOf(sample, dims).Some?
    ensures var r := MoveRobot(Some(s), sample, useCompass, true, initial, dims, m, draws);
      var t := TripsOf(sample, dims).value;
      r.heading == s.heading + (t.left - t.right) / dims.robotWidth + HeadingNoise(draws)
  {
  }

  /**
   * Particle noise shifts both tracks by the same offset: the vector from the
   * left track to the right one is the one the noiseless step gives.
   */
  lemma NoiseKeepsTrackVector(s: RobotState, sample: Reading, useCompass: bool,
                              initial: RobotState, dims: Dimensions, m: Numeric.Maths, draws: Draws)
    requires dims.robotWidth != 0.0
    requires TripsOf(sample, dims).Some?
    ensures var noisy := MoveRobot(Some(s), sample, useCompass, true, initial, dims, m, draws);
      var plain := MoveRobot(Some(s), sample, false, false, initial, dims, m, draws);
      && Minus(noisy.positionRightTrack, noisy.positionLeftTrack) == Minus(plain.positionRightTrack, plain.positionLeftTrack)
      && Minus(noisy.positionLeftTrack, plain.positionLeftTrack) == Noise(draws, m)
      && noisy.heading == plain.heading + HeadingNoise(draws)
  {
  }

  /** With `random()` in [0, 1), the position noise is shorter than NOISE_MAGNITUDE. */
  lemma NoiseIsBounded(draws: Draws, m: Numeric.Maths)
    requires Numeric.Pythagorean(m)
    requires 0.0 <= draws.radius < 1.0
    ensures var n := Noise(draws, m);
      n.x * n.x + n.y * n.y < NOISE_MAGNITUDE * NOISE_MAGNITUDE
  {
    var a := draws.angle * Numeric.PI * 2.0;
    var r := draws.radius * NOISE_MAGNITUDE;
    var sn, cs := m.sin(a), m.cos(a);
    assert sn * sn + cs * cs == 1.0;
    TripSquared(r, cs, sn);
    SquareBelow(r, NOISE_MAGNITUDE);
  }

  lemma SquareBelow(r: real, bound: real)
    requires 0.0 <= r < bound
    ensures r * r < bound * bound
  {
    var gap, sum := bound - r, bound + r;
    assert gap > 0.0 && sum > 0.0;
    assert gap * sum > 0.0;
    assert bound * bound - r * r == gap * sum;
  }

  /** With `random()` in [0, 1), the heading noise lies in [-4, 4) degrees. */
  lemma HeadingNoiseIsBounded(draws: Draws)
    requires 0.0 <= draws.heading < 1.0
    ensures Numeric.ToRadians(-4.0) <= HeadingNoise(draws) < Numeric.ToRadians(4.0)
  {
    var deg := draws.heading * 8.0 - 4.0;
    assert -4.0 <= deg < 4.0;
    assert HeadingNoise(draws) == Numeric.ToRadians(deg);
  }
}
