/**
 * raisa.simulator.RotatingServo: the simulated servo that sweeps the range
 * sensors back and forth between -90 and 90 degrees, reporting its heading to a
 * scan listener after every move.
 */
module Servo {

  const MIN_HEADING: real := -90.0
  const MAX_HEADING: real := 90.0
  const LEFT: int := -1
  const RIGHT: int := 1

  /** Degrees per second: 60 degrees every 0.17 seconds. */
  const ROTATING_SPEED: real := 60.0 / 0.17

  /** The heading and sweep direction, the state one rotation step depends on. */
  datatype ServoState = ServoState(heading: real, direction: int)

  /** One rotate(timestep): move, then turn around at or past either end of the range. */
  function Next(p: ServoState, timestep: real): (q: ServoState)
    ensures q.heading == p.heading + p.direction as real * timestep * ROTATING_SPEED
    ensures q.heading <= MIN_HEADING ==> q.direction == RIGHT
    ensures MAX_HEADING <= q.heading ==> q.direction == LEFT
    ensures MIN_HEADING < q.heading < MAX_HEADING ==> q.direction == p.direction
  {
    var heading := p.heading + p.direction as real * timestep * ROTATING_SPEED;
    var direction :=
      if heading <= MIN_HEADING then RIGHT
      else if heading >= MAX_HEADING then LEFT
      else p.direction;
    ServoState(heading, direction)
  }

  /** The scan listener calls one rotate makes: one, and a second at or past the low end. */
  function Scans(heading: real): (s: seq<real>)
    ensures |s| == (if heading <= MIN_HEADING then 2 else 1)
    ensures forall i :: 0 <= i < |s| ==> s[i] == heading
  {
    if heading <= MIN_HEADING then [heading, heading] else [heading]
  }

  /**
   * What holds of the servo while every step moves it at most `maxStep` degrees:
   * the direction is LEFT or RIGHT, the heading overshoots the range by at most
   * one step, and past either end the servo is already heading back.
   */
  predicate Sweeping(p: ServoState, maxStep: real) {
    && (p.direction == LEFT || p.direction == RIGHT)
    && MIN_HEADING - maxStep <= p.heading <= MAX_HEADING + maxStep
    && (p.heading >= MAX_HEADING ==> p.direction == LEFT)
    && (p.heading <= MIN_HEADING ==> p.direction == RIGHT)
  }

  const Start: ServoState := ServoState((MIN_HEADING + MAX_HEADING) / 2.0, RIGHT)

  lemma StartIsSweeping(maxStep: real)
    requires maxStep >= 0.0
    ensures Sweeping(Start, maxStep)
  {
  }

  /** A step of at most `maxStep` degrees keeps the servo sweeping. */
  lemma NextKeepsSweeping(p: ServoState, timestep: real, maxStep: real)
    requires Sweeping(p, maxStep)
    requires 0.0 <= timestep && timestep * ROTATING_SPEED <= maxStep
    ensures Sweeping(Next(p, timestep), maxStep)
  {
    var d := timestep * ROTATING_SPEED;
    assert d >= 0.0;
    var q := Next(p, timestep);
    if p.direction == RIGHT {
      assert q.heading == p.heading + d;
    } else {
      assert q.heading == p.heading - d;
    }
  }

  /** The servo after a run of rotate calls. */
  function Run(p: ServoState, timesteps: seq<real>): ServoState
    decreases |timesteps|
  {
    if timesteps == [] then p else Run(Next(p, timesteps[0]), timesteps[1..])
  }

  /** However many bounded steps it takes, the servo never leaves the range by more than one step. */
  lemma {:induction false} RunKeepsSweeping(p: ServoState, timesteps: seq<real>, maxStep: real)
    requires Sweeping(p, maxStep)
    requires forall i :: 0 <= i < |timesteps| ==> 0.0 <= timesteps[i] && timesteps[i] * ROTATING_SPEED <= maxStep
    ensures Sweeping(Run(p, timesteps), maxStep)
    decreases |timesteps|
  {
    if timesteps != [] {
      NextKeepsSweeping(p, timesteps[0], maxStep);
      RunKeepsSweeping(Next(p, timesteps[0]), timesteps[1..], maxStep);
    }
  }

  class RotatingServo {
    var heading: real
    var direction: int
    /** The headings passed to the scan listener, oldest first. */
    var scans: seq<real>

    function State(): ServoState
      reads this
    {
      ServoState(heading, direction)
    }

    /** `new RotatingServo(listener)`: centred, turning right. */
    constructor()
      ensures State() == Start
      ensures heading == 0.0 && direction == RIGHT
      ensures scans == []
    {
      heading := (MIN_HEADING + MAX_HEADING) / 2.0;
      direction := RIGHT;
      scans := [];
    }

    /** rotate: moves by one timestep, reports the heading, turns around at the ends, and returns the servo itself. */
    method Rotate(timestep: real) returns (r: RotatingServo)
      modifies this
      ensures r == this
      ensures State() == Next(old(State()), timestep)
      ensures scans == old(scans) + Scans(heading)
    {
      heading := heading + direction as real * timestep * ROTATING_SPEED;
      Scan(heading);
      var nextDirection := direction;
      if heading >= MAX_HEADING {
        nextDirection := LEFT;
      }
      if heading <= MIN_HEADING {
        Scan(heading);
        nextDirection := RIGHT;
      }
      direction := nextDirection;
      return this;
    }

    /** scan: hands the heading to the listener. */
    method Scan(servoHeading: real)
      modifies this
      ensures scans == old(scans) + [servoHeading]
      ensures heading == old(heading) && direction == old(direction)
    {
      scans := scans + [servoHeading];
    }

    /** getHeading. */
    function GetHeading(): (h: real)
      reads this
      ensures h == State().heading
    {
      heading
    }
  }
}
