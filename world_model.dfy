/**
 * raisa.domain.WorldModel: the visualiser's history of samples and robot states, the
 * chain of sample fixers every incoming telegram goes through, the listener
 * registries, and the map file last loaded into the grid.
 *
 * Listener callbacks are recorded, in the order they happen, in the `events` log.
 * The grid is recorded as the list of calls made on it since it was created.
 */
module World {
  import opened Wrappers
  import Numeric
  import Geometry
  import SP = SampleParser

  type ListenerId = nat

  /** raisa.domain.Robot: the fields WorldModel reads and writes. */
  datatype Robot = Robot(
    position: Geometry.Vector2,
    heading: real,
    positionLeftTrack: Geometry.Vector2,
    positionRightTrack: Geometry.Vector2,
    directionLeftTrackForward: bool,
    directionRightTrackForward: bool,
    timestampMillis: int,
    speedLeftTrack: Numeric.FloatValue,
    speedRightTrack: Numeric.FloatValue)
  {
    function TrackPosition(side: SP.Side): Geometry.Vector2 {
      if side == SP.LeftTrack then positionLeftTrack else positionRightTrack
    }

    function TrackForward(side: SP.Side): bool {
      if side == SP.LeftTrack then directionLeftTrackForward else directionRightTrackForward
    }
  }

  /**
   * The one fixer the world model installs, with the history it keeps between samples.
   * What `fix` and `reset` do with it is not part of this model; they are passed in.
   */
  datatype Fixer = AveragingSampleFixer(windowSize: nat, threshold: real, history: seq<SP.Sample>)

  /** A listener callback: SampleListener.sampleAdded or RobotListener.robotStateChanged. */
  datatype Event =
    | SampleAdded(listener: ListenerId, sample: SP.Sample)
    | RobotStateChanged(listener: ListenerId, robot: Robot)

  datatype Image = Image(id: nat)

  /** What `ImageIO.read` gives: an image, null, or an IOException. */
  datatype ImageRead = Loaded(image: Option<Image>) | ReadFailed

  /** The grid calls WorldModel makes when it loads a map. */
  datatype GridOp = PushUserUndoLevel | SetUserImage(image: Option<Image>)

  // ---------------------------------------------------------------------------
  // Lists
  // ---------------------------------------------------------------------------

  /** `CollectionUtil.takeLast(list, n)`: the last `n` elements in order, or the whole list when it is shorter. */
  function TakeLast<T>(s: seq<T>, n: nat): (r: seq<T>)
    ensures |r| == if n < |s| then n else |s|
    ensures r == s[|s| - |r|..]
  {
    if n < |s| then s[|s| - n..] else s
  }

  predicate NoDuplicates<T(==)>(s: seq<T>) {
    forall i, j :: 0 <= i < j < |s| ==> s[i] != s[j]
  }

  /** The position of the first occurrence of `x`. */
  function IndexOf<T(==)>(s: seq<T>, x: T): (i: nat)
    requires x in s
    ensures i < |s| && s[i] == x && x !in s[..i]
    decreases |s|
  {
    if s[0] == x then 0
    else
      var j := IndexOf(s[1..], x);
      assert s[..j + 1] == [s[0]] + s[1..][..j];
      j + 1
  }

  /** `List.remove(Object)`: drops the first occurrence, if there is one. */
  function RemoveFirst<T(==)>(s: seq<T>, x: T): (r: seq<T>)
    ensures x !in s ==> r == s
    decreases |s|
  {
    if s == [] then s
    else if s[0] == x then s[1..]
    else [s[0]] + RemoveFirst(s[1..], x)
  }

  /** Removing an element that is there cuts the list at its first occurrence. */
  lemma {:induction false} RemoveFirstSplits<T>(s: seq<T>, x: T)
    requires x in s
    ensures RemoveFirst(s, x) == s[..IndexOf(s, x)] + s[IndexOf(s, x) + 1..]
    decreases |s|
  {
    var i := IndexOf(s, x);
    if s[0] == x {
      assert i == 0;
      assert s[..i] + s[i + 1..] == s[1..];
    } else {
      var t := s[1..];
      RemoveFirstSplits(t, x);
      assert i == IndexOf(t, x) + 1;
      assert [s[0]] + t == s;
      ConsSplit(s[0], t, IndexOf(t, x), i);
    }
  }

  lemma ConsSplit<T>(h: T, t: seq<T>, j: nat, i: nat)
    requires j < |t| && i == j + 1
    ensures [h] + (t[..j] + t[j + 1..]) == ([h] + t)[..i] + ([h] + t)[i + 1..]
  {
    var s := [h] + t;
    assert s[..i] == [h] + t[..j];
    assert s[i + 1..] == t[j + 1..];
  }

  /** With no duplicates, removing a listener removes every trace of it and keeps the others in order. */
  lemma RemoveFromDistinct<T>(s: seq<T>, x: T)
    requires NoDuplicates(s)
    ensures var r := RemoveFirst(s, x);
      && x !in r
      && NoDuplicates(r)
      && forall y :: y != x ==> (y in r <==> y in s)
  {
    if x in s {
      var i := IndexOf(s, x);
      var r := RemoveFirst(s, x);
      RemoveFirstSplits(s, x);
      assert |r| == |s| - 1;
      assert forall k :: 0 <= k < i ==> r[k] == s[k];
      assert forall k :: i <= k < |r| ==> r[k] == s[k + 1];
      forall a, b | 0 <= a < b < |r| ensures r[a] != r[b] {
        var a' := if a < i then a else a + 1;
        var b' := if b < i then b else b + 1;
        assert r[a] == s[a'] && r[b] == s[b'];
      }
      forall y | y != x && y in s ensures y in r {
        var k :| 0 <= k < |s| && s[k] == y;
        if k < i { assert r[k] == y; } else { assert r[k - 1] == y; }
      }
      forall k | 0 <= k < |r| ensures r[k] != x {
        if k >= i { assert r[k] == s[k + 1]; }
      }
    }
  }

  /** Every listener in registration order, called once with the sample. */
  function SampleNotes(ls: seq<ListenerId>, smp: SP.Sample): (r: seq<Event>)
    ensures |r| == |ls|
    ensures forall i :: 0 <= i < |ls| ==> r[i] == SampleAdded(ls[i], smp)
  {
    if ls == [] then [] else [SampleAdded(ls[0], smp)] + SampleNotes(ls[1..], smp)
  }

  /** Every listener in registration order, called once with the robot. */
  function RobotNotes(ls: seq<ListenerId>, robot: Robot): (r: seq<Event>)
    ensures |r| == |ls|
    ensures forall i :: 0 <= i < |ls| ==> r[i] == RobotStateChanged(ls[i], robot)
  {
    if ls == [] then [] else [RobotStateChanged(ls[0], robot)] + RobotNotes(ls[1..], robot)
  }

  // ---------------------------------------------------------------------------
  // The fixer chain
  // ---------------------------------------------------------------------------

  /** `fixer.fix(sample)`: the fixer's new state and the sample it returns. */
  type FixFunction = (Fixer, SP.Sample) -> (Fixer, SP.Sample)

  /** The fixers in list order, each given the previous one's output. */
  function FixAll(fixers: seq<Fixer>, smp: SP.Sample, fix: FixFunction): (r: (seq<Fixer>, SP.Sample))
    ensures |r.0| == |fixers|
    decreases |fixers|
  {
    if fixers == [] then ([], smp)
    else
      var (f, s1) := fix(fixers[0], smp);
      var (rest, out) := FixAll(fixers[1..], s1, fix);
      ([f] + rest, out)
  }

  /** Running two chains one after the other is running their concatenation. */
  lemma {:induction false} FixAllConcat(a: seq<Fixer>, b: seq<Fixer>, smp: SP.Sample, fix: FixFunction)
    ensures FixAll(a + b, smp, fix).0 == FixAll(a, smp, fix).0 + FixAll(b, FixAll(a, smp, fix).1, fix).0
    ensures FixAll(a + b, smp, fix).1 == FixAll(b, FixAll(a, smp, fix).1, fix).1
    decreases |a|
  {
    if a == [] {
      assert a + b == b;
    } else {
      assert (a + b)[0] == a[0] && (a + b)[1..] == a[1..] + b;
      var s1 := fix(a[0], smp).1;
      FixAllConcat(a[1..], b, s1, fix);
      assert FixAll(a + b, smp, fix).0 == [fix(a[0], smp).0] + FixAll(a[1..] + b, s1, fix).0;
    }
  }

  /** The fixer loop of sampleReceived: each fixer in turn replaces the sample. */
  method RunFixers(fixers: seq<Fixer>, smp: SP.Sample, fix: FixFunction) returns (fixed: seq<Fixer>, out: SP.Sample)
    ensures (fixed, out) == FixAll(fixers, smp, fix)
  {
    out := smp;
    fixed := [];
    for i := 0 to |fixers|
      invariant |fixed| == i
      invariant fixed + FixAll(fixers[i..], out, fix).0 == FixAll(fixers, smp, fix).0
      invariant FixAll(fixers[i..], out, fix).1 == FixAll(fixers, smp, fix).1
    {
      assert fixers[i..][0] == fixers[i] && fixers[i..][1..] == fixers[i + 1..];
      var (f, s1) := fix(fixers[i], out);
      fixed := fixed + [f];
      out := s1;
    }
    assert fixers[|fixers|..] == [];
    assert FixAll([], out, fix) == ([], out);
    assert fixed + [] == fixed;
  }

  /** The reset loop of reset: every fixer is reset, in place and in order. */
  method ResetFixers(fixers: seq<Fixer>, resetFixer: Fixer -> Fixer) returns (reset: seq<Fixer>)
    ensures |reset| == |fixers|
    ensures forall i :: 0 <= i < |fixers| ==> reset[i] == resetFixer(fixers[i])
  {
    reset := [];
    for i := 0 to |fixers|
      invariant |reset| == i
      invariant forall j :: 0 <= j < i ==> reset[j] == resetFixer(fixers[j])
    {
      reset := reset + [resetFixer(fixers[i])];
    }
  }

  // ---------------------------------------------------------------------------
  // Track speeds
  // ---------------------------------------------------------------------------

  function Sign(forward: bool): real {
    if forward then 1.0 else -1.0
  }

  /** One step of a track: the distance it moved, negative when the newer state drives it backwards. */
  function Step(prev: Robot, r: Robot, side: SP.Side, sqrt: real -> real): real {
    Sign(r.TrackForward(side)) * Geometry.Distance(prev.TrackPosition(side), r.TrackPosition(side), sqrt)
  }

  /** The signed distance a track travelled over consecutive states. */
  function Travel(past: seq<Robot>, side: SP.Side, sqrt: real -> real): real
    decreases |past|
  {
    if |past| <= 1 then 0.0
    else Travel(past[..|past| - 1], side, sqrt) + Step(past[|past| - 2], past[|past| - 1], side, sqrt)
  }

  /** The time between consecutive states, summed as the loop sums it. */
  function Intervals(past: seq<Robot>): int
    decreases |past|
  {
    if |past| <= 1 then 0
    else Intervals(past[..|past| - 1]) + (past[|past| - 1].timestampMillis - past[|past| - 2].timestampMillis)
  }

  /** The summed intervals telescope to the time between the first and the last state. */
  lemma {:induction false} IntervalsTelescope(past: seq<Robot>)
    requires |past| >= 1
    ensures Intervals(past) == past[|past| - 1].timestampMillis - past[0].timestampMillis
    decreases |past|
  {
    if |past| > 1 {
      IntervalsTelescope(past[..|past| - 1]);
    }
  }

  /** The speed calculateSpeed gives a track: its signed travel over a tenth of the summed intervals, or 0 with fewer than two states. */
  function TrackSpeed(past: seq<Robot>, side: SP.Side, sqrt: real -> real): Numeric.FloatValue {
    if |past| > 1 then Numeric.Divide(Travel(past, side, sqrt), Intervals(past) as real / 10.0)
    else Numeric.Finite(0.0)
  }

  /** The left and right track speeds calculateSpeed assigns. */
  function Speeds(past: seq<Robot>, sqrt: real -> real): (Numeric.FloatValue, Numeric.FloatValue) {
    (TrackSpeed(past, SP.LeftTrack, sqrt), TrackSpeed(past, SP.RightTrack, sqrt))
  }

  /**
   * A track speed is the signed travel divided by a tenth of the time between the
   * first and the last state: infinite or NaN when they share a timestamp.
   */
  lemma TrackSpeedOverElapsed(past: seq<Robot>, side: SP.Side, sqrt: real -> real)
    requires |past| > 1
    ensures var elapsed := past[|past| - 1].timestampMillis - past[0].timestampMillis;
      && (elapsed != 0 ==> TrackSpeed(past, side, sqrt) == Numeric.Finite(Travel(past, side, sqrt) / (elapsed as real / 10.0)))
      && (elapsed == 0 && Travel(past, side, sqrt) > 0.0 ==> TrackSpeed(past, side, sqrt) == Numeric.PositiveInfinity)
      && (elapsed == 0 && Travel(past, side, sqrt) == 0.0 ==> TrackSpeed(past, side, sqrt) == Numeric.NaN)
  {
    IntervalsTelescope(past);
  }

  /** The same signed step between every pair of consecutive states. */
  predicate SteadySteps(past: seq<Robot>, side: SP.Side, step: real, sqrt: real -> real) {
    forall i :: 1 <= i < |past| ==> Step(past[i - 1], past[i], side, sqrt) == step
  }

  /** The same interval between every pair of consecutive states. */
  predicate SteadyIntervals(past: seq<Robot>, interval: int) {
    forall i :: 1 <= i < |past| ==> past[i].timestampMillis - past[i - 1].timestampMillis == interval
  }

  /** `step` added up `k` times. */
  function Repeat(k: nat, step: real): real {
    if k == 0 then 0.0 else Repeat(k - 1, step) + step
  }

  lemma {:induction false} RepeatIsProduct(k: nat, step: real)
    ensures Repeat(k, step) == k as real * step
  {
    if k > 0 {
      RepeatIsProduct(k - 1, step);
      assert (k - 1) as real * step + step == k as real * step;
    }
  }

  /** Equal steps add up: the travel is the step times the number of steps. */
  lemma SteadyTravel(past: seq<Robot>, side: SP.Side, step: real, sqrt: real -> real)
    requires |past| >= 1 && SteadySteps(past, side, step, sqrt)
    ensures Travel(past, side, sqrt) == (|past| - 1) as real * step
  {
    SteadyTravelRepeats(past, side, step, sqrt);
    RepeatIsProduct(|past| - 1, step);
  }

  lemma {:induction false} SteadyTravelRepeats(past: seq<Robot>, side: SP.Side, step: real, sqrt: real -> real)
    requires |past| >= 1 && SteadySteps(past, side, step, sqrt)
    ensures Travel(past, side, sqrt) == Repeat(|past| - 1, step)
    decreases |past|
  {
    var n := |past| - 1;
    if n > 0 {
      var init := past[..n];
      SteadyStepsPrefix(past, n, side, step, sqrt);
      SteadyTravelRepeats(init, side, step, sqrt);
      TravelSnoc(past, n, side, sqrt);
      assert Step(past[n - 1], past[n], side, sqrt) == step;
    }
  }

  /** The travel so far plus the last step. */
  lemma TravelSnoc(past: seq<Robot>, n: nat, side: SP.Side, sqrt: real -> real)
    requires n >= 1 && |past| == n + 1
    ensures Travel(past, side, sqrt) == Travel(past[..n], side, sqrt) + Step(past[n - 1], past[n], side, sqrt)
  {
  }

  lemma SteadyStepsPrefix(past: seq<Robot>, n: nat, side: SP.Side, step: real, sqrt: real -> real)
    requires n <= |past| && SteadySteps(past, side, step, sqrt)
    ensures SteadySteps(past[..n], side, step, sqrt)
  {
    var init := past[..n];
    forall i | 1 <= i < |init| ensures Step(init[i - 1], init[i], side, sqrt) == step {
      assert init[i - 1] == past[i - 1] && init[i] == past[i];
    }
  }

  lemma {:induction false} SteadyElapsed(past: seq<Robot>, interval: int)
    requires |past| >= 1 && SteadyIntervals(past, interval)
    ensures Intervals(past) == (|past| - 1) * interval
    decreases |past|
  {
    var n := |past| - 1;
    if n > 0 {
      var init := past[..n];
      assert SteadyIntervals(init, interval) by {
        forall i | 1 <= i < |init| ensures init[i].timestampMillis - init[i - 1].timestampMillis == interval {
          assert init[i - 1] == past[i - 1] && init[i] == past[i];
        }
      }
      SteadyElapsed(init, interval);
      IntervalsSnoc(past, n);
      assert past[n].timestampMillis - past[n - 1].timestampMillis == interval;
      OneMoreInterval(n, interval, Intervals(init), Intervals(past));
    }
  }

  /** The intervals so far plus the last one. */
  lemma IntervalsSnoc(past: seq<Robot>, n: nat)
    requires n >= 1 && |past| == n + 1
    ensures Intervals(past) == Intervals(past[..n]) + (past[n].timestampMillis - past[n - 1].timestampMillis)
  {
  }

  lemma OneMoreInterval(n: nat, interval: int, before: int, after: int)
    requires n >= 1 && before == (n - 1) * interval && after == before + interval
    ensures after == n * interval
  {
  }

  /** The speed of `n` equal steps over `n` equal positive intervals, as the speed loop divides it. */
  lemma SpeedRatio(n: nat, step: real, interval: int, travel: real, elapsed: int)
    requires n >= 1 && interval > 0
    requires travel == n as real * step && elapsed == n * interval
    ensures elapsed as real / 10.0 != 0.0
    ensures travel / (elapsed as real / 10.0) == 10.0 * step / interval as real
  {
    var k, t := n as real, interval as real;
    assert elapsed as real == k * t;
    var time := k * t / 10.0;
    assert time > 0.0;
    assert time * (10.0 / t) == k;
  }

  /** A track moving `step` every `interval` milliseconds has speed 10 * step / interval. */
  lemma SteadyTrackSpeed(past: seq<Robot>, side: SP.Side, step: real, interval: int, sqrt: real -> real)
    requires |past| > 1 && interval > 0
    requires SteadySteps(past, side, step, sqrt) && SteadyIntervals(past, interval)
    ensures TrackSpeed(past, side, sqrt) == Numeric.Finite(10.0 * step / interval as real)
  {
    var travel, elapsed := Travel(past, side, sqrt), Intervals(past);
    SteadyTravel(past, side, step, sqrt);
    SteadyElapsed(past, interval);
    SpeedRatio(|past| - 1, step, interval, travel, elapsed);
    assert TrackSpeed(past, side, sqrt) == Numeric.Divide(travel, elapsed as real / 10.0);
  }

  /** The distance a track covered, regardless of direction. */
  function PathLength(past: seq<Robot>, side: SP.Side, sqrt: real -> real): real
    decreases |past|
  {
    if |past| <= 1 then 0.0
    else
      var last, before := past[|past| - 1], past[|past| - 2];
      PathLength(past[..|past| - 1], side, sqrt) + Geometry.Distance(before.TrackPosition(side), last.TrackPosition(side), sqrt)
  }

  /** The track kept driving in one direction over the states (the first state's flag is not read). */
  predicate SameDirection(past: seq<Robot>, side: SP.Side, forward: bool) {
    forall i :: 1 <= i < |past| ==> past[i].TrackForward(side) == forward
  }

  /** Driving forward throughout, the signed travel is the path length; driving backward, its negation. */
  lemma {:induction false} TravelOneDirection(past: seq<Robot>, side: SP.Side, forward: bool, sqrt: real -> real)
    requires SameDirection(past, side, forward)
    ensures Travel(past, side, sqrt) == Sign(forward) * PathLength(past, side, sqrt)
    decreases |past|
  {
    if |past| > 1 {
      var init := past[..|past| - 1];
      assert SameDirection(init, side, forward) by {
        forall i | 1 <= i < |init| ensures init[i].TrackForward(side) == forward {
          assert init[i] == past[i];
        }
      }
      TravelOneDirection(init, side, forward, sqrt);
    }
  }

  /**
   * The speed loop of calculateSpeed over the last states: the first state only
   * primes the previous position and timestamp.
   */
  method TrackSpeeds(past: seq<Robot>, sqrt: real -> real) returns (left: Numeric.FloatValue, right: Numeric.FloatValue)
    ensures (left, right) == Speeds(past, sqrt)
  {
    left, right := Numeric.Finite(0.0), Numeric.Finite(0.0);
    if |past| > 1 {
      var isFirst := true;
      var previousLeft, previousRight := Geometry.Origin, Geometry.Origin;
      var accumulatedTime, previousTimestamp := 0, 0;
      var distanceLeft, distanceRight := 0.0, 0.0;
      for i := 0 to |past|
        invariant isFirst <==> i == 0
        invariant i > 0 ==> previousLeft == past[i - 1].positionLeftTrack
        invariant i > 0 ==> previousRight == past[i - 1].positionRightTrack
        invariant i > 0 ==> previousTimestamp == past[i - 1].timestampMillis
        invariant distanceLeft == Travel(past[..i], SP.LeftTrack, sqrt)
        invariant distanceRight == Travel(past[..i], SP.RightTrack, sqrt)
        invariant accumulatedTime == Intervals(past[..i])
      {
        var r := past[i];
        if isFirst {
          isFirst := false;
        } else {
          SpeedLoopStep(past, i, sqrt);
          distanceLeft := distanceLeft + Sign(r.directionLeftTrackForward) * Geometry.Distance(previousLeft, r.positionLeftTrack, sqrt);
          distanceRight := distanceRight + Sign(r.directionRightTrackForward) * Geometry.Distance(previousRight, r.positionRightTrack, sqrt);
          accumulatedTime := accumulatedTime + (r.timestampMillis - previousTimestamp);
        }
        previousLeft := r.positionLeftTrack;
        previousRight := r.positionRightTrack;
        previousTimestamp := r.timestampMillis;
      }
      assert past[..|past|] == past;
      left := Numeric.Divide(distanceLeft, accumulatedTime as real / 10.0);
      right := Numeric.Divide(distanceRight, accumulatedTime as real / 10.0);
    }
  }

  /** What one pass of the speed loop adds, for every state after the first. */
  lemma SpeedLoopStep(past: seq<Robot>, i: nat, sqrt: real -> real)
    requires 0 < i < |past|
    ensures Travel(past[..i + 1], SP.LeftTrack, sqrt) == Travel(past[..i], SP.LeftTrack, sqrt)
      + Sign(past[i].directionLeftTrackForward) * Geometry.Distance(past[i - 1].positionLeftTrack, past[i].positionLeftTrack, sqrt)
    ensures Travel(past[..i + 1], SP.RightTrack, sqrt) == Travel(past[..i], SP.RightTrack, sqrt)
      + Sign(past[i].directionRightTrackForward) * Geometry.Distance(past[i - 1].positionRightTrack, past[i].positionRightTrack, sqrt)
    ensures Intervals(past[..i + 1]) == Intervals(past[..i]) + (past[i].timestampMillis - past[i - 1].timestampMillis)
  {
    var prefix := past[..i + 1];
    assert prefix[..i] == past[..i];
    assert prefix[i - 1] == past[i - 1] && prefix[i] == past[i];
    TravelSnoc(prefix, i, SP.LeftTrack, sqrt);
    TravelSnoc(prefix, i, SP.RightTrack, sqrt);
    IntervalsSnoc(prefix, i);
  }

  function WithSpeeds(r: Robot, speeds: (Numeric.FloatValue, Numeric.FloatValue)): Robot {
    r.(speedLeftTrack := speeds.0, speedRightTrack := speeds.1)
  }

  // ---------------------------------------------------------------------------
  // The world model
  // ---------------------------------------------------------------------------

  class WorldModel {
    var samples: seq<SP.Sample>
    var states: seq<Robot>
    var sampleFixers: seq<Fixer>
    /** The calls made on the grid since it was last created. */
    var grid: seq<GridOp>
    var sampleListeners: seq<ListenerId>
    var robotListeners: seq<ListenerId>
    var latestMapFilename: Option<string>
    /** The listener callbacks made so far, oldest first. */
    var events: seq<Event>

    /** There is always a latest state, and a sample listener is registered at most once. */
    ghost predicate Valid()
      reads this
    {
      |states| >= 1 && NoDuplicates(sampleListeners)
    }

    /** The state a new robot state ends up as once calculateSpeed has set its speeds. */
    static function Settled(history: seq<Robot>, state: Robot, sqrt: real -> real): Robot {
      WithSpeeds(state, Speeds(TakeLast(history + [state], 5), sqrt))
    }

    /** `new WorldModel()`, given the default robot `new Robot()` builds. */
    constructor(initial: Robot, sqrt: real -> real)
      ensures Valid()
      ensures states == [WithSpeeds(initial, (Numeric.Finite(0.0), Numeric.Finite(0.0)))]
      ensures sampleFixers == [AveragingSampleFixer(5, 10.0, [])]
      ensures samples == [] && grid == [] && latestMapFilename == None
      ensures sampleListeners == [] && robotListeners == [] && events == []
    {
      samples := [];
      states := [];
      sampleFixers := [];
      grid := [];
      sampleListeners := [];
      robotListeners := [];
      latestMapFilename := None;
      events := [];
      new;
      AddState(initial, sqrt);
      assert TakeLast([initial], 5) == [initial];
      sampleFixers := sampleFixers + [AveragingSampleFixer(5, 10.0, [])];
    }

    /** getStates: a copy of the states. */
    function GetStates(): (r: seq<Robot>)
      reads this
      ensures r == states
    {
      states
    }

    /** getLatestState: the last state, or null when there is none. */
    function GetLatestState(): (r: Option<Robot>)
      reads this
      ensures r.None? <==> states == []
      ensures r.Some? ==> r.value == states[|states| - 1]
    {
      if |states| == 0 then None else Some(states[|states| - 1])
    }

    /**
     * sampleReceived: parses the telegram, passes the sample through every fixer
     * in order and adds what comes out. A NumberFormatException from the parser
     * escapes before anything changes.
     */
    method SampleReceived(message: string, pow: (real, real) -> real, fix: FixFunction)
      returns (r: Result<SP.Sample, SP.ParseError>)
      requires Valid()
      modifies this
      ensures Valid()
      ensures SP.ParseSpec(message, pow).Failure? ==> r == SP.ParseSpec(message, pow) && unchanged(this)
      ensures SP.ParseSpec(message, pow).Success? ==>
        var fixed := FixAll(old(sampleFixers), SP.ParseSpec(message, pow).value, fix);
        && r == Success(fixed.1)
        && sampleFixers == fixed.0
        && samples == old(samples) + [fixed.1]
        && events == old(events) + SampleNotes(sampleListeners, fixed.1)
        && states == old(states) && grid == old(grid) && latestMapFilename == old(latestMapFilename)
        && sampleListeners == old(sampleListeners) && robotListeners == old(robotListeners)
    {
      var parsed := SP.Parse(message, pow);
      if parsed.Failure? {
        return parsed;
      }
      var fixed, sample := RunFixers(sampleFixers, parsed.value, fix);
      sampleFixers := fixed;
      AddSample(sample);
      r := Success(sample);
    }

    /** addSample: appends the sample and tells every sample listener, in order. */
    method AddSample(sample: SP.Sample)
      requires Valid()
      modifies this
      ensures Valid()
      ensures samples == old(samples) + [sample]
      ensures events == old(events) + SampleNotes(sampleListeners, sample)
      ensures states == old(states) && sampleFixers == old(sampleFixers) && grid == old(grid)
      ensures latestMapFilename == old(latestMapFilename)
      ensures sampleListeners == old(sampleListeners) && robotListeners == old(robotListeners)
    {
      samples := samples + [sample];
      NotifySampleListeners(sample);
    }

    /** notifySampleListeners. */
    method NotifySampleListeners(sample: SP.Sample)
      modifies this
      ensures events == old(events) + SampleNotes(sampleListeners, sample)
      ensures samples == old(samples) && states == old(states) && sampleFixers == old(sampleFixers)
      ensures grid == old(grid) && latestMapFilename == old(latestMapFilename)
      ensures sampleListeners == old(sampleListeners) && robotListeners == old(robotListeners)
    {
      var log := events;
      for i := 0 to |sampleListeners|
        invariant log == events + SampleNotes(sampleListeners[..i], sample)
      {
        assert SampleNotes(sampleListeners[..i + 1], sample)
            == SampleNotes(sampleListeners[..i], sample) + [SampleAdded(sampleListeners[i], sample)];
        log := log + [SampleAdded(sampleListeners[i], sample)];
      }
      assert sampleListeners[..|sampleListeners|] == sampleListeners;
      events := log;
    }

    /**
     * addState: appends the state, sets its track speeds from the last five states,
     * and tells every robot listener about it, speeds included.
     */
    method AddState(state: Robot, sqrt: real -> real)
      modifies this
      ensures states == old(states) + [Settled(old(states), state, sqrt)]
      ensures events == old(events) + RobotNotes(robotListeners, Settled(old(states), state, sqrt))
      ensures samples == old(samples) && sampleFixers == old(sampleFixers) && grid == old(grid)
      ensures latestMapFilename == old(latestMapFilename)
      ensures sampleListeners == old(sampleListeners) && robotListeners == old(robotListeners)
    {
      states := states + [state];
      CalculateSpeed(sqrt);
      NotifyRobotListeners(states[|states| - 1]);
    }

    /** calculateSpeed: sets the latest state's track speeds from the last five states. */
    method CalculateSpeed(sqrt: real -> real)
      requires |states| >= 1
      modifies this
      ensures states == old(states)[..|old(states)| - 1]
        + [WithSpeeds(old(states)[|old(states)| - 1], Speeds(TakeLast(old(states), 5), sqrt))]
      ensures events == old(events) && samples == old(samples) && sampleFixers == old(sampleFixers)
      ensures grid == old(grid) && latestMapFilename == old(latestMapFilename)
      ensures sampleListeners == old(sampleListeners) && robotListeners == old(robotListeners)
    {
      var past := TakeLast(states, 5);
      var left, right := TrackSpeeds(past, sqrt);
      var latest := states[|states| - 1];
      var settled := WithSpeeds(latest, (left, right));
      assert settled == WithSpeeds(latest, Speeds(past, sqrt));
      states := states[..|states| - 1] + [settled];
    }

    /** notifyRobotListeners. */
    method NotifyRobotListeners(robot: Robot)
      modifies this
      ensures events == old(events) + RobotNotes(robotListeners, robot)
      ensures samples == old(samples) && states == old(states) && sampleFixers == old(sampleFixers)
      ensures grid == old(grid) && latestMapFilename == old(latestMapFilename)
      ensures sampleListeners == old(sampleListeners) && robotListeners == old(robotListeners)
    {
      var log := events;
      for i := 0 to |robotListeners|
        invariant log == events + RobotNotes(robotListeners[..i], robot)
      {
        assert RobotNotes(robotListeners[..i + 1], robot)
            == RobotNotes(robotListeners[..i], robot) + [RobotStateChanged(robotListeners[i], robot)];
        log := log + [RobotStateChanged(robotListeners[i], robot)];
      }
      assert robotListeners[..|robotListeners|] == robotListeners;
      events := log;
    }

    /**
     * reset: forgets samples and states, resets every fixer, reloads the last map
     * (or starts a new grid when none was loaded), and adds `start`, the robot
     * `new Robot(new Vector2D(100, 0), 0.5f)` builds, as the only state.
     */
    method Reset(start: Robot, read: ImageRead, resetFixer: Fixer -> Fixer, sqrt: real -> real)
      requires Valid()
      modifies this
      ensures Valid()
      ensures samples == []
      ensures states == [WithSpeeds(start, (Numeric.Finite(0.0), Numeric.Finite(0.0)))]
      ensures |sampleFixers| == |old(sampleFixers)|
      ensures forall i :: 0 <= i < |sampleFixers| ==> sampleFixers[i] == resetFixer(old(sampleFixers)[i])
      ensures old(latestMapFilename).None? ==> grid == [] && latestMapFilename == None
      ensures old(latestMapFilename).Some? && read.Loaded? ==>
        grid == old(grid) + [PushUserUndoLevel, SetUserImage(read.image)]
      ensures old(latestMapFilename).Some? && read.ReadFailed? ==> grid == old(grid)
      ensures latestMapFilename == old(latestMapFilename)
      ensures events == old(events) + RobotNotes(robotListeners, states[0])
      ensures sampleListeners == old(sampleListeners) && robotListeners == old(robotListeners)
    {
      samples := [];
      states := [];
      var reset := ResetFixers(sampleFixers, resetFixer);
      sampleFixers := reset;
      if latestMapFilename.Some? {
        LoadMap(latestMapFilename.value, read);
      } else {
        grid := [];
      }
      AddState(start, sqrt);
      assert TakeLast([start], 5) == [start];
    }

    /** removeOldSamples: keeps only the last `preserveLength` samples. */
    method RemoveOldSamples(preserveLength: nat)
      modifies this
      ensures samples == TakeLast(old(samples), preserveLength)
      ensures unchanged(this`states, this`sampleFixers, this`grid, this`latestMapFilename)
      ensures unchanged(this`sampleListeners, this`robotListeners, this`events)
    {
      samples := TakeLast(samples, preserveLength);
    }

    /** clearSamples. */
    method ClearSamples()
      modifies this
      ensures samples == []
      ensures unchanged(this`states, this`sampleFixers, this`grid, this`latestMapFilename)
      ensures unchanged(this`sampleListeners, this`robotListeners, this`events)
    {
      samples := [];
    }

    /** getLastSamples: the last `numberOfSamples` samples, oldest first. */
    function GetLastSamples(numberOfSamples: nat): (r: seq<SP.Sample>)
      reads this
      ensures |r| <= numberOfSamples && |r| <= |samples|
      ensures |r| == numberOfSamples || r == samples
      ensures r == samples[|samples| - |r|..]
    {
      TakeLast(samples, numberOfSamples)
    }

    /**
     * loadMap: on a successful read the grid gets a user undo level and the image
     * (null included), and the file becomes the one reset reloads; an IOException
     * changes nothing.
     */
    method LoadMap(fileName: string, read: ImageRead)
      modifies this
      ensures read.Loaded? ==> grid == old(grid) + [PushUserUndoLevel, SetUserImage(read.image)]
      ensures read.Loaded? ==> latestMapFilename == Some(fileName)
      ensures read.ReadFailed? ==> grid == old(grid) && latestMapFilename == old(latestMapFilename)
      ensures unchanged(this`samples, this`states, this`sampleFixers)
      ensures unchanged(this`sampleListeners, this`robotListeners, this`events)
    {
      if read.Loaded? {
        grid := grid + [PushUserUndoLevel];
        grid := grid + [SetUserImage(read.image)];
        latestMapFilename := Some(fileName);
      }
    }

    /** addSampleListener: registers the listener unless it already is. */
    method AddSampleListener(listener: ListenerId)
      requires Valid()
      modifies this
      ensures Valid()
      ensures listener in sampleListeners
      ensures sampleListeners == if listener in old(sampleListeners) then old(sampleListeners)
        else old(sampleListeners) + [listener]
      ensures unchanged(this`samples, this`states, this`sampleFixers, this`grid)
      ensures unchanged(this`latestMapFilename, this`robotListeners, this`events)
    {
      if listener in sampleListeners {
        return;
      }
      sampleListeners := sampleListeners + [listener];
    }

    /** removeSampleListener: unregisters the listener; the others keep their order. */
    method RemoveSampleListener(listener: ListenerId)
      requires Valid()
      modifies this
      ensures Valid()
      ensures listener !in sampleListeners
      ensures sampleListeners == RemoveFirst(old(sampleListeners), listener)
      ensures forall l :: l != listener ==> (l in sampleListeners <==> l in old(sampleListeners))
      ensures unchanged(this`samples, this`states, this`sampleFixers, this`grid)
      ensures unchanged(this`latestMapFilename, this`robotListeners, this`events)
    {
      RemoveFromDistinct(sampleListeners, listener);
      sampleListeners := RemoveFirst(sampleListeners, listener);
    }

    /** addRobotListener: appends, without checking for an earlier registration. */
    method AddRobotListener(listener: ListenerId)
      modifies this
      ensures robotListeners == old(robotListeners) + [listener]
      ensures unchanged(this`samples, this`states, this`sampleFixers, this`grid)
      ensures unchanged(this`latestMapFilename, this`sampleListeners, this`events)
    {
      robotListeners := robotListeners + [listener];
    }
  }
}
