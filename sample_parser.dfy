/**
 * raisa.comms.SampleParser: turns one sensor telegram into a raisa.domain.Sample.
 *
 * A telegram that does not match the grammar gives a Sample holding only its raw
 * string. A valid one is split on ';' and every part is decoded by its two-letter
 * tag; distances outside the sensor's range are dropped, and each channel's
 * validity flag is "an angle was seen" AND "an in-range distance was seen".
 */
module SampleParser {
  import opened Wrappers
  import Numeric
  import Telegram

  /** Standard gravity, as the parser's constant G. */
  const G: real := 9.80665

  /** The real-valued readings a Sample carries. */
  datatype Channel =
    | InfraredAngle | InfraredDistance | UltrasoundAngle | UltrasoundDistance | Compass
    | AccelerationX | AccelerationY | AccelerationZ | GyroX | GyroY | GyroZ

  datatype Side = LeftTrack | RightTrack

  /**
   * raisa.domain.Sample. A field is None until the parser has called its setter,
   * so "no setter was called" is visible in the value.
   */
  datatype Sample = Sample(
    sampleString: string,
    infrared1Angle: Option<real>,
    infrared1Distance: Option<real>,
    ultrasound1Angle: Option<real>,
    ultrasound1Distance: Option<real>,
    compassDirection: Option<real>,
    accelerationX: Option<real>,
    accelerationY: Option<real>,
    accelerationZ: Option<real>,
    gyroX: Option<real>,
    gyroY: Option<real>,
    gyroZ: Option<real>,
    leftTrackTicks: Option<int>,
    rightTrackTicks: Option<int>,
    infrared1MeasurementValid: Option<bool>,
    ultrasound1MeasurementValid: Option<bool>)
  {
    function Get(ch: Channel): Option<real> {
      match ch
      case InfraredAngle => infrared1Angle
      case InfraredDistance => infrared1Distance
      case UltrasoundAngle => ultrasound1Angle
      case UltrasoundDistance => ultrasound1Distance
      case Compass => compassDirection
      case AccelerationX => accelerationX
      case AccelerationY => accelerationY
      case AccelerationZ => accelerationZ
      case GyroX => gyroX
      case GyroY => gyroY
      case GyroZ => gyroZ
    }

    /** The setter of one channel. */
    function With(ch: Channel, v: real): (r: Sample)
      ensures r.Get(ch) == Some(v)
      ensures forall c :: c != ch ==> r.Get(c) == Get(c)
      ensures r.sampleString == sampleString
      ensures r.leftTrackTicks == leftTrackTicks && r.rightTrackTicks == rightTrackTicks
      ensures r.infrared1MeasurementValid == infrared1MeasurementValid
      ensures r.ultrasound1MeasurementValid == ultrasound1MeasurementValid
    {
      match ch
      case InfraredAngle => this.(infrared1Angle := Some(v))
      case InfraredDistance => this.(infrared1Distance := Some(v))
      case UltrasoundAngle => this.(ultrasound1Angle := Some(v))
      case UltrasoundDistance => this.(ultrasound1Distance := Some(v))
      case Compass => this.(compassDirection := Some(v))
      case AccelerationX => this.(accelerationX := Some(v))
      case AccelerationY => this.(accelerationY := Some(v))
      case AccelerationZ => this.(accelerationZ := Some(v))
      case GyroX => this.(gyroX := Some(v))
      case GyroY => this.(gyroY := Some(v))
      case GyroZ => this.(gyroZ := Some(v))
    }

    function Ticks(side: Side): Option<int> {
      if side == LeftTrack then leftTrackTicks else rightTrackTicks
    }
  }

  /** `new Sample()` followed by `setSampleString(s)`. */
  function Unset(s: string): (r: Sample)
    ensures r.sampleString == s
    ensures forall ch :: r.Get(ch).None?
    ensures r.leftTrackTicks.None? && r.rightTrackTicks.None?
    ensures r.infrared1MeasurementValid.None? && r.ultrasound1MeasurementValid.None?
  {
    Sample(s, None, None, None, None, None, None, None, None, None, None, None, None, None, None, None)
  }

  /** Integer.parseInt threw on the text after the tag of this part. */
  datatype ParseError = NumberFormat(part: string)

  // ---------------------------------------------------------------------------
  // One part
  // ---------------------------------------------------------------------------

  /** Which branch of the parser's if-chain a part takes. */
  datatype Tag = Marker | IR | ID | SR | SD | CD | AX | AY | AZ | GX | GY | GZ | RL | RR | Unknown

  /** The if-chain: "STA" and "END" first, then `part.startsWith(..)` for each two-letter prefix. */
  function TagOf(part: string): Tag {
    if part == "STA" || part == "END" then Marker
    else if |part| < 2 then Unknown
    else match (part[0], part[1])
      case ('I', 'R') => IR
      case ('I', 'D') => ID
      case ('S', 'R') => SR
      case ('S', 'D') => SD
      case ('C', 'D') => CD
      case ('A', 'X') => AX
      case ('A', 'Y') => AY
      case ('A', 'Z') => AZ
      case ('G', 'X') => GX
      case ('G', 'Y') => GY
      case ('G', 'Z') => GZ
      case ('R', 'L') => RL
      case ('R', 'R') => RR
      case _ => Unknown
  }

  /** A branch that reads a number from the part. */
  predicate ReadsValue(tag: Tag) {
    tag != Marker && tag != Unknown
  }

  /** IR, SR and CD: degrees to radians, turned a quarter circle. */
  function Angle(v: int): real {
    Numeric.ToRadians(v as real) - Numeric.PI / 2.0
  }

  /** ID: the infrared sensor's voltage-to-centimetre curve. */
  function InfraredCentimetres(v: int, pow: (real, real) -> real): real {
    10650.08 * pow(v as real, -0.935) - 10.0
  }

  predicate InfraredInRange(d: real) { 20.0 < d < 150.0 }

  /** SD: half the echo value, in inches, as centimetres. */
  function UltrasoundCentimetres(v: int): real {
    (v as real / 2.0) * 2.54
  }

  predicate UltrasoundInRange(d: real) { 15.0 < d < 645.0 }

  /** What decoding one part does to the sample under construction. */
  datatype Effect = Skip | SetReading(ch: Channel, v: real) | SetTicks(side: Side, ticks: int)

  /** The effect of a part whose tag reads the number `v`. */
  function EffectOf(tag: Tag, v: int, pow: (real, real) -> real): (e: Effect)
    requires ReadsValue(tag)
    ensures e.SetTicks? <==> tag == RL || tag == RR
    ensures e.SetTicks? ==> e.ticks == v
    ensures e.Skip? ==> tag == ID || tag == SD
  {
    match tag
    case IR => SetReading(InfraredAngle, Angle(v))
    case ID =>
      var d := InfraredCentimetres(v, pow);
      if InfraredInRange(d) then SetReading(InfraredDistance, d) else Skip
    case SR => SetReading(UltrasoundAngle, Angle(v))
    case SD =>
      var d := UltrasoundCentimetres(v);
      if UltrasoundInRange(d) then SetReading(UltrasoundDistance, d) else Skip
    case CD => SetReading(Compass, Angle(v))
    // `(-v) - 24`, `v - 59` and `(-v) - 8` are 32-bit int expressions in the source
    case AX => SetReading(AccelerationX, G * Numeric.Int32(-v - 24) as real / 1000.0)
    case AY => SetReading(AccelerationY, G * Numeric.Int32(v - 59) as real / 1000.0)
    case AZ => SetReading(AccelerationZ, G * Numeric.Int32(-v - 8) as real / 1000.0)
    case GX => SetReading(GyroX, -(v as real) / 1000.0)
    case GY => SetReading(GyroY, v as real / 1000.0)
    case GZ => SetReading(GyroZ, -(v as real) / 1000.0)
    case RL => SetTicks(LeftTrack, v)
    case RR => SetTicks(RightTrack, v)
  }

  /** Decoding one part: the tag dispatch, `Integer.parseInt(substring(part, 2))`, the formula and the range guard. */
  function PartEffect(part: string, pow: (real, real) -> real): (r: Result<Effect, ParseError>)
    ensures r.Failure? <==> ReadsValue(TagOf(part)) && Telegram.ParseInt(Telegram.AfterTag(part)).None?
    ensures r.Failure? ==> r.error == NumberFormat(part)
    ensures !ReadsValue(TagOf(part)) ==> r == Success(Skip)
  {
    var tag := TagOf(part);
    if !ReadsValue(tag) then Success(Skip)
    else match Telegram.ParseInt(Telegram.AfterTag(part))
      case None => Failure(NumberFormat(part))
      case Some(v) => Success(EffectOf(tag, v, pow))
  }

  // ---------------------------------------------------------------------------
  // The loop
  // ---------------------------------------------------------------------------

  /** The parser's locals: the sample being filled and the four "seen" flags. */
  datatype ParseState = ParseState(
    sample: Sample,
    infraredAngleSeen: bool,
    infraredDistanceSeen: bool,
    ultrasoundAngleSeen: bool,
    ultrasoundDistanceSeen: bool)

  /** One effect on the parser's locals: a reading sets its channel and raises its seen flag; ticks set their side. */
  function Apply(st: ParseState, e: Effect): ParseState {
    match e
    case Skip => st
    case SetReading(ch, v) =>
      st.(sample := st.sample.With(ch, v),
          infraredAngleSeen := st.infraredAngleSeen || ch == InfraredAngle,
          infraredDistanceSeen := st.infraredDistanceSeen || ch == InfraredDistance,
          ultrasoundAngleSeen := st.ultrasoundAngleSeen || ch == UltrasoundAngle,
          ultrasoundDistanceSeen := st.ultrasoundDistanceSeen || ch == UltrasoundDistance)
    case SetTicks(side, t) =>
      if side == LeftTrack then st.(sample := st.sample.(leftTrackTicks := Some(t)))
      else st.(sample := st.sample.(rightTrackTicks := Some(t)))
  }

  /** The parts decoded in order; the first part that throws ends the parse. */
  function Fold(st: ParseState, parts: seq<string>, pow: (real, real) -> real): (r: Result<ParseState, ParseError>)
    ensures r.Success? ==> r.value.sample.sampleString == st.sample.sampleString
    ensures r.Failure? ==> r.error.part in parts
    decreases |parts|
  {
    if parts == [] then Success(st)
    else match PartEffect(parts[0], pow)
      case Failure(e) => Failure(e)
      case Success(e) => Fold(Apply(st, e), parts[1..], pow)
  }

  /** After the loop: the two validity setters. */
  function Finish(st: ParseState): (r: Sample)
    ensures forall ch :: r.Get(ch) == st.sample.Get(ch)
    ensures r.sampleString == st.sample.sampleString
    ensures r.leftTrackTicks == st.sample.leftTrackTicks && r.rightTrackTicks == st.sample.rightTrackTicks
    ensures r.infrared1MeasurementValid == Some(st.infraredAngleSeen && st.infraredDistanceSeen)
    ensures r.ultrasound1MeasurementValid == Some(st.ultrasoundAngleSeen && st.ultrasoundDistanceSeen)
  {
    st.sample.(
      infrared1MeasurementValid := Some(st.infraredAngleSeen && st.infraredDistanceSeen),
      ultrasound1MeasurementValid := Some(st.ultrasoundAngleSeen && st.ultrasoundDistanceSeen))
  }

  function Initial(s: string): ParseState {
    ParseState(Unset(s), false, false, false, false)
  }

  /** What `parse` computes: a Sample, or the NumberFormatException it lets escape. */
  function ParseSpec(s: string, pow: (real, real) -> real): (r: Result<Sample, ParseError>)
    ensures !Telegram.IsValid(s) ==> r == Success(Unset(s))
  {
    if !Telegram.IsValid(s) then Success(Unset(s))
    else match Fold(Initial(s), Telegram.JavaSplit(s), pow)
      case Failure(e) => Failure(e)
      case Success(st) => Success(Finish(st))
  }

  /** SampleParser.parse. */
  method Parse(sampleString: string, pow: (real, real) -> real) returns (r: Result<Sample, ParseError>)
    ensures r == ParseSpec(sampleString, pow)
  {
    var sample := Unset(sampleString);
    var infraredAngleIsValid := false;
    var infraredDistanceIsValid := false;
    var ultrasoundAngleIsValid := false;
    var ultrasoundDistanceIsValid := false;
    if !Telegram.IsValid(sampleString) {
      return Success(sample);
    }
    var parts := Telegram.JavaSplit(sampleString);
    var i := 0;
    while i < |parts|
      invariant 0 <= i <= |parts|
      invariant Fold(ParseState(sample, infraredAngleIsValid, infraredDistanceIsValid,
                                ultrasoundAngleIsValid, ultrasoundDistanceIsValid), parts[i..], pow)
             == Fold(Initial(sampleString), parts, pow)
    {
      var part := parts[i];
      var effect := PartEffect(part, pow);
      assert parts[i..][0] == part && parts[i..][1..] == parts[i + 1..];
      match effect {
        case Failure(e) =>
          return Failure(e);
        case Success(Skip) =>
        case Success(SetReading(ch, v)) =>
          sample := sample.With(ch, v);
          if ch == InfraredAngle {
            infraredAngleIsValid := true;
          }
          if ch == InfraredDistance {
            infraredDistanceIsValid := true;
          }
          if ch == UltrasoundAngle {
            ultrasoundAngleIsValid := true;
          }
          if ch == UltrasoundDistance {
            ultrasoundDistanceIsValid := true;
          }
        case Success(SetTicks(side, t)) =>
          if side == LeftTrack {
            sample := sample.(leftTrackTicks := Some(t));
          } else {
            sample := sample.(rightTrackTicks := Some(t));
          }
      }
      i := i + 1;
    }
    sample := sample.(infrared1MeasurementValid := Some(infraredAngleIsValid && infraredDistanceIsValid));
    sample := sample.(ultrasound1MeasurementValid := Some(ultrasoundAngleIsValid && ultrasoundDistanceIsValid));
    return Success(sample);
  }

  // ---------------------------------------------------------------------------
  // What the loop computes, stated without the loop
  // ---------------------------------------------------------------------------

  /** Every part decoded on its own: the effects in order, or the first part that throws. */
  function Decode(parts: seq<string>, pow: (real, real) -> real): Result<seq<Effect>, ParseError>
    decreases |parts|
  {
    if parts == [] then Success([])
    else match PartEffect(parts[0], pow)
      case Failure(e) => Failure(e)
      case Success(e) =>
        match Decode(parts[1..], pow)
        case Failure(e') => Failure(e')
        case Success(es) => Success([e] + es)
  }

  /** The effects applied in order. */
  function ApplyAll(st: ParseState, es: seq<Effect>): ParseState
    decreases |es|
  {
    if es == [] then st else ApplyAll(Apply(st, es[0]), es[1..])
  }

  /** Decoding a part and applying it at once, as the loop does, is decoding all parts and then applying them. */
  lemma {:induction false} FoldIsDecodeThenApply(st: ParseState, parts: seq<string>, pow: (real, real) -> real)
    ensures Fold(st, parts, pow) == match Decode(parts, pow)
      case Failure(e) => Failure(e)
      case Success(es) => Success(ApplyAll(st, es))
    decreases |parts|
  {
    if parts != [] {
      match PartEffect(parts[0], pow)
      case Failure(e) =>
      case Success(e) => FoldIsDecodeThenApply(Apply(st, e), parts[1..], pow);
    }
  }

  /** Decoding succeeds exactly when every part does, and then gives each part's own effect; otherwise it reports the first part that throws. */
  lemma {:induction false} DecodeParts(parts: seq<string>, pow: (real, real) -> real)
    ensures Decode(parts, pow).Success? <==> forall i :: 0 <= i < |parts| ==> PartEffect(parts[i], pow).Success?
    ensures Decode(parts, pow).Success? ==>
      |Decode(parts, pow).value| == |parts| &&
      forall i :: 0 <= i < |parts| ==> Decode(parts, pow).value[i] == PartEffect(parts[i], pow).value
    ensures Decode(parts, pow).Failure? ==>
      exists i :: 0 <= i < |parts| && PartEffect(parts[i], pow).Failure?
        && Decode(parts, pow).error == NumberFormat(parts[i])
        && forall j :: 0 <= j < i ==> PartEffect(parts[j], pow).Success?
    decreases |parts|
  {
    if parts != [] {
      var rest := parts[1..];
      DecodeParts(rest, pow);
      forall i | 0 < i < |parts| ensures parts[i] == rest[i - 1] { }
      match PartEffect(parts[0], pow)
      case Failure(e) =>
      case Success(e) =>
        if Decode(rest, pow).Failure? {
          var i :| 0 <= i < |rest| && PartEffect(rest[i], pow).Failure?
            && Decode(rest, pow).error == NumberFormat(rest[i])
            && forall j :: 0 <= j < i ==> PartEffect(rest[j], pow).Success?;
          assert PartEffect(parts[i + 1], pow).Failure?;
        }
    }
  }

  /** The value the last effect that sets `ch` writes, searching from the end. */
  function LastReading(es: seq<Effect>, ch: Channel): Option<real>
    decreases |es|
  {
    if es == [] then None
    else match es[|es| - 1]
      case SetReading(c, v) =>
        if c == ch then Some(v) else LastReading(es[..|es| - 1], ch)
      case _ => LastReading(es[..|es| - 1], ch)
  }

  /** The ticks the last effect for that track writes, searching from the end. */
  function LastTicks(es: seq<Effect>, side: Side): Option<int>
    decreases |es|
  {
    if es == [] then None
    else match es[|es| - 1]
      case SetTicks(s, t) =>
        if s == side then Some(t) else LastTicks(es[..|es| - 1], side)
      case _ => LastTicks(es[..|es| - 1], side)
  }

  lemma {:induction false} ApplyAllSnoc(st: ParseState, es: seq<Effect>, e: Effect)
    ensures ApplyAll(st, es + [e]) == Apply(ApplyAll(st, es), e)
    decreases |es|
  {
    if es != [] {
      assert (es + [e])[1..] == es[1..] + [e];
      ApplyAllSnoc(Apply(st, es[0]), es[1..], e);
    }
  }

  /** Each reading ends as the last value written to it, or as it started when nothing writes it. */
  lemma {:induction false} ApplyAllReading(st: ParseState, es: seq<Effect>, ch: Channel)
    ensures ApplyAll(st, es).sample.Get(ch) ==
      if LastReading(es, ch).Some? then LastReading(es, ch) else st.sample.Get(ch)
    decreases |es|
  {
    if es != [] {
      var init, last := es[..|es| - 1], es[|es| - 1];
      assert es == init + [last];
      ApplyAllSnoc(st, init, last);
      ApplyAllReading(st, init, ch);
      ApplyReading(ApplyAll(st, init), last, ch);
    }
  }

  /** One effect sets the reading it writes and leaves the others. */
  lemma ApplyReading(st: ParseState, e: Effect, ch: Channel)
    ensures Apply(st, e).sample.Get(ch) == if e.SetReading? && e.ch == ch then Some(e.v) else st.sample.Get(ch)
  {
    match e
    case Skip =>
    case SetReading(c, v) =>
      assert Apply(st, e).sample == st.sample.With(c, v);
    case SetTicks(side, t) =>
      TicksKeepReadings(st.sample, side, t, ch);
  }

  lemma TicksKeepReadings(smp: Sample, side: Side, t: int, ch: Channel)
    ensures side == LeftTrack ==> smp.(leftTrackTicks := Some(t)).Get(ch) == smp.Get(ch)
    ensures side != LeftTrack ==> smp.(rightTrackTicks := Some(t)).Get(ch) == smp.Get(ch)
  {
  }

  /** Each tick count ends as the last value written to it, or as it started. */
  lemma {:induction false} ApplyAllTicks(st: ParseState, es: seq<Effect>, side: Side)
    ensures ApplyAll(st, es).sample.Ticks(side) ==
      if LastTicks(es, side).Some? then LastTicks(es, side) else st.sample.Ticks(side)
    decreases |es|
  {
    if es != [] {
      var init, last := es[..|es| - 1], es[|es| - 1];
      assert es == init + [last];
      ApplyAllSnoc(st, init, last);
      ApplyAllTicks(st, init, side);
    }
  }

  /** A "seen" flag is raised exactly when its channel has been written, and never lowered. */
  lemma {:induction false} ApplyAllFlags(st: ParseState, es: seq<Effect>)
    ensures var st' := ApplyAll(st, es);
      && st'.infraredAngleSeen == (st.infraredAngleSeen || LastReading(es, InfraredAngle).Some?)
      && st'.infraredDistanceSeen == (st.infraredDistanceSeen || LastReading(es, InfraredDistance).Some?)
      && st'.ultrasoundAngleSeen == (st.ultrasoundAngleSeen || LastReading(es, UltrasoundAngle).Some?)
      && st'.ultrasoundDistanceSeen == (st.ultrasoundDistanceSeen || LastReading(es, UltrasoundDistance).Some?)
    decreases |es|
  {
    if es != [] {
      var init, last := es[..|es| - 1], es[|es| - 1];
      assert es == init + [last];
      ApplyAllSnoc(st, init, last);
      ApplyAllFlags(st, init);
    }
  }

  lemma {:induction false} ApplyAllKeeps(st: ParseState, es: seq<Effect>)
    ensures ApplyAll(st, es).sample.sampleString == st.sample.sampleString
    ensures ApplyAll(st, es).sample.infrared1MeasurementValid == st.sample.infrared1MeasurementValid
    ensures ApplyAll(st, es).sample.ultrasound1MeasurementValid == st.sample.ultrasound1MeasurementValid
    decreases |es|
  {
    if es != [] {
      ApplyAllKeeps(Apply(st, es[0]), es[1..]);
    }
  }

  /** The search from the end finds an effect that writes the value, and no later effect writes the channel. */
  lemma {:induction false} LastReadingIsLast(es: seq<Effect>, ch: Channel)
    ensures LastReading(es, ch).None? <==> forall i :: 0 <= i < |es| ==> !(es[i].SetReading? && es[i].ch == ch)
    ensures LastReading(es, ch).Some? ==>
      exists i :: 0 <= i < |es| && es[i] == SetReading(ch, LastReading(es, ch).value)
        && forall j :: i < j < |es| ==> !(es[j].SetReading? && es[j].ch == ch)
    decreases |es|
  {
    if es != [] {
      LastReadingIsLast(es[..|es| - 1], ch);
    }
  }

  /** An effect that writes a distance writes one inside the sensor's range. */
  predicate DistanceInRange(e: Effect) {
    && (e.SetReading? && e.ch == InfraredDistance ==> InfraredInRange(e.v))
    && (e.SetReading? && e.ch == UltrasoundDistance ==> UltrasoundInRange(e.v))
  }

  /** The range guards: decoding a part never writes an out-of-range distance. */
  lemma PartDistanceInRange(part: string, pow: (real, real) -> real)
    requires PartEffect(part, pow).Success?
    ensures DistanceInRange(PartEffect(part, pow).value)
  {
  }

  /** No distance outside the sensor's range is ever written. */
  lemma {:induction false} DistancesInRange(parts: seq<string>, pow: (real, real) -> real)
    requires Decode(parts, pow).Success?
    ensures var es := Decode(parts, pow).value;
      && (LastReading(es, InfraredDistance).Some? ==> InfraredInRange(LastReading(es, InfraredDistance).value))
      && (LastReading(es, UltrasoundDistance).Some? ==> UltrasoundInRange(LastReading(es, UltrasoundDistance).value))
  {
    var es := Decode(parts, pow).value;
    DecodeParts(parts, pow);
    forall i | 0 <= i < |es| ensures DistanceInRange(es[i]) {
      PartDistanceInRange(parts[i], pow);
    }
    LastReadingInRange(es);
  }

  lemma {:induction false} LastReadingInRange(es: seq<Effect>)
    requires forall i :: 0 <= i < |es| ==> DistanceInRange(es[i])
    ensures LastReading(es, InfraredDistance).Some? ==> InfraredInRange(LastReading(es, InfraredDistance).value)
    ensures LastReading(es, UltrasoundDistance).Some? ==> UltrasoundInRange(LastReading(es, UltrasoundDistance).value)
    decreases |es|
  {
    if es != [] {
      assert DistanceInRange(es[|es| - 1]);
      LastReadingInRange(es[..|es| - 1]);
    }
  }

  // ---------------------------------------------------------------------------
  // The whole parse
  // ---------------------------------------------------------------------------

  /** A telegram's parts as `parse` loops over them. */
  function Parts(s: string): seq<string> {
    Telegram.JavaSplit(s)
  }

  /** The effects of a telegram's parts, when none throws. */
  function Effects(s: string, pow: (real, real) -> real): seq<Effect>
    requires Decode(Parts(s), pow).Success?
  {
    Decode(Parts(s), pow).value
  }

  lemma ParseIsDecodeThenApply(s: string, pow: (real, real) -> real)
    requires Telegram.IsValid(s)
    ensures ParseSpec(s, pow).Success? <==> Decode(Parts(s), pow).Success?
    ensures ParseSpec(s, pow).Success? ==> ParseSpec(s, pow).value == Finish(ApplyAll(Initial(s), Effects(s, pow)))
  {
    FoldIsDecodeThenApply(Initial(s), Parts(s), pow);
  }

  /**
   * For a valid telegram that parses: each reading and each tick count comes from the
   * last part that sets it (unset if none does), an out-of-range distance is never
   * stored, and each validity flag is set, to "angle seen AND in-range distance seen".
   */
  lemma ParseCharacterization(s: string, pow: (real, real) -> real)
    requires Telegram.IsValid(s) && ParseSpec(s, pow).Success?
    ensures Decode(Parts(s), pow).Success?
    ensures var smp := ParseSpec(s, pow).value;
      && smp.sampleString == s
      && (forall ch :: smp.Get(ch) == LastReading(Effects(s, pow), ch))
      && (forall side :: smp.Ticks(side) == LastTicks(Effects(s, pow), side))
      && smp.infrared1MeasurementValid == Some(smp.infrared1Angle.Some? && smp.infrared1Distance.Some?)
      && smp.ultrasound1MeasurementValid == Some(smp.ultrasound1Angle.Some? && smp.ultrasound1Distance.Some?)
      && (smp.infrared1Distance.Some? ==> InfraredInRange(smp.infrared1Distance.value))
      && (smp.ultrasound1Distance.Some? ==> UltrasoundInRange(smp.ultrasound1Distance.value))
  {
    ParseIsDecodeThenApply(s, pow);
    FinishApplyAll(s, Effects(s, pow));
    DistancesInRange(Parts(s), pow);
  }

  /** The sample the effects build from the initial state, whatever parts they came from. */
  lemma FinishApplyAll(s: string, es: seq<Effect>)
    ensures var smp := Finish(ApplyAll(Initial(s), es));
      && smp.sampleString == s
      && (forall ch :: smp.Get(ch) == LastReading(es, ch))
      && (forall side :: smp.Ticks(side) == LastTicks(es, side))
      && smp.infrared1MeasurementValid == Some(smp.infrared1Angle.Some? && smp.infrared1Distance.Some?)
      && smp.ultrasound1MeasurementValid == Some(smp.ultrasound1Angle.Some? && smp.ultrasound1Distance.Some?)
  {
    var st := Initial(s);
    forall ch ensures ApplyAll(st, es).sample.Get(ch) == LastReading(es, ch) {
      ApplyAllReading(st, es, ch);
    }
    forall side ensures ApplyAll(st, es).sample.Ticks(side) == LastTicks(es, side) {
      ApplyAllTicks(st, es, side);
    }
    ApplyAllFlags(st, es);
    ApplyAllKeeps(st, es);
  }

  /** Whether a part's effect writes the channel `ch`. */
  predicate WritesChannel(part: string, ch: Channel, pow: (real, real) -> real) {
    var r := PartEffect(part, pow);
    r.Success? && r.value.SetReading? && r.value.ch == ch
  }

  /** An angle channel is written exactly by the parts with its tag, when they parse. */
  lemma AngleWriters(part: string, pow: (real, real) -> real)
    requires PartEffect(part, pow).Success?
    ensures WritesChannel(part, InfraredAngle, pow) <==> TagOf(part) == IR
    ensures WritesChannel(part, UltrasoundAngle, pow) <==> TagOf(part) == SR
  {
  }

  /** A distance channel is written exactly by the parts with its tag whose distance is in range. */
  lemma DistanceWriters(part: string, pow: (real, real) -> real)
    requires PartEffect(part, pow).Success?
    ensures WritesChannel(part, InfraredDistance, pow) <==> InRangeInfraredPart(part, pow)
    ensures WritesChannel(part, UltrasoundDistance, pow) <==> InRangeUltrasoundPart(part)
  {
  }

  /** An ID part whose number parses and whose distance is inside (20, 150). */
  predicate InRangeInfraredPart(part: string, pow: (real, real) -> real) {
    var n := Telegram.ParseInt(Telegram.AfterTag(part));
    TagOf(part) == ID && n.Some? && InfraredInRange(InfraredCentimetres(n.value, pow))
  }

  /** An SD part whose number parses and whose distance is inside (15, 645). */
  predicate InRangeUltrasoundPart(part: string) {
    var n := Telegram.ParseInt(Telegram.AfterTag(part));
    TagOf(part) == SD && n.Some? && UltrasoundInRange(UltrasoundCentimetres(n.value))
  }

  /** Some effect of a parsed telegram writes `ch` exactly when some part does. */
  lemma WrittenByPart(s: string, ch: Channel, pow: (real, real) -> real)
    requires Decode(Parts(s), pow).Success?
    ensures LastReading(Effects(s, pow), ch).Some? <==>
      exists i :: 0 <= i < |Parts(s)| && WritesChannel(Parts(s)[i], ch, pow)
  {
    var ps, es := Parts(s), Effects(s, pow);
    DecodeParts(ps, pow);
    LastReadingIsLast(es, ch);
    assert forall i :: 0 <= i < |ps| ==> (WritesChannel(ps[i], ch, pow) <==> es[i].SetReading? && es[i].ch == ch);
  }

  /** Some IR part exists exactly when the infrared angle is written; likewise SR and the ultrasound angle. */
  lemma AngleSeen(s: string, pow: (real, real) -> real)
    requires Decode(Parts(s), pow).Success?
    ensures LastReading(Effects(s, pow), InfraredAngle).Some? <==> exists i :: 0 <= i < |Parts(s)| && TagOf(Parts(s)[i]) == IR
    ensures LastReading(Effects(s, pow), UltrasoundAngle).Some? <==> exists i :: 0 <= i < |Parts(s)| && TagOf(Parts(s)[i]) == SR
  {
    var ps := Parts(s);
    DecodeParts(ps, pow);
    WrittenByPart(s, InfraredAngle, pow);
    WrittenByPart(s, UltrasoundAngle, pow);
    forall i | 0 <= i < |ps|
      ensures WritesChannel(ps[i], InfraredAngle, pow) <==> TagOf(ps[i]) == IR
      ensures WritesChannel(ps[i], UltrasoundAngle, pow) <==> TagOf(ps[i]) == SR
    {
      AngleWriters(ps[i], pow);
    }
  }

  /** The infrared distance is written exactly when some ID part's distance is inside (20, 150). */
  lemma InfraredDistanceSeen(s: string, pow: (real, real) -> real)
    requires Decode(Parts(s), pow).Success?
    ensures LastReading(Effects(s, pow), InfraredDistance).Some? <==>
      exists i :: 0 <= i < |Parts(s)| && InRangeInfraredPart(Parts(s)[i], pow)
  {
    var ps := Parts(s);
    DecodeParts(ps, pow);
    WrittenByPart(s, InfraredDistance, pow);
    forall i | 0 <= i < |ps|
      ensures WritesChannel(ps[i], InfraredDistance, pow) <==> InRangeInfraredPart(ps[i], pow)
    {
      DistanceWriters(ps[i], pow);
    }
  }

  /** The ultrasound distance is written exactly when some SD part's distance is inside (15, 645). */
  lemma UltrasoundDistanceSeen(s: string, pow: (real, real) -> real)
    requires Decode(Parts(s), pow).Success?
    ensures LastReading(Effects(s, pow), UltrasoundDistance).Some? <==>
      exists i :: 0 <= i < |Parts(s)| && InRangeUltrasoundPart(Parts(s)[i])
  {
    var ps := Parts(s);
    DecodeParts(ps, pow);
    WrittenByPart(s, UltrasoundDistance, pow);
    forall i | 0 <= i < |ps|
      ensures WritesChannel(ps[i], UltrasoundDistance, pow) <==> InRangeUltrasoundPart(ps[i])
    {
      DistanceWriters(ps[i], pow);
    }
  }

  /** The two validity flags in terms of the channels the effects write. */
  lemma ParseFlags(s: string, pow: (real, real) -> real)
    requires Telegram.IsValid(s) && ParseSpec(s, pow).Success?
    ensures Decode(Parts(s), pow).Success?
    ensures ParseSpec(s, pow).value.infrared1MeasurementValid == Some(
      LastReading(Effects(s, pow), InfraredAngle).Some? && LastReading(Effects(s, pow), InfraredDistance).Some?)
    ensures ParseSpec(s, pow).value.ultrasound1MeasurementValid == Some(
      LastReading(Effects(s, pow), UltrasoundAngle).Some? && LastReading(Effects(s, pow), UltrasoundDistance).Some?)
  {
    ParseCharacterization(s, pow);
    var smp := ParseSpec(s, pow).value;
    assert smp.infrared1Angle == smp.Get(InfraredAngle) && smp.infrared1Distance == smp.Get(InfraredDistance);
    assert smp.ultrasound1Angle == smp.Get(UltrasoundAngle) && smp.ultrasound1Distance == smp.Get(UltrasoundDistance);
  }

  /** The infrared flag in terms of the parts: some IR part, and some ID part whose distance is inside (20, 150). */
  lemma InfraredValidity(s: string, pow: (real, real) -> real)
    requires Telegram.IsValid(s) && ParseSpec(s, pow).Success?
    ensures ParseSpec(s, pow).value.infrared1MeasurementValid == Some(
      (exists i :: 0 <= i < |Parts(s)| && TagOf(Parts(s)[i]) == IR) &&
      (exists i :: 0 <= i < |Parts(s)| && InRangeInfraredPart(Parts(s)[i], pow)))
  {
    ParseFlags(s, pow);
    AngleSeen(s, pow);
    InfraredDistanceSeen(s, pow);
  }

  /** The ultrasound flag in terms of the parts: some SR part, and some SD part whose distance is inside (15, 645). */
  lemma UltrasoundValidity(s: string, pow: (real, real) -> real)
    requires Telegram.IsValid(s) && ParseSpec(s, pow).Success?
    ensures ParseSpec(s, pow).value.ultrasound1MeasurementValid == Some(
      (exists i :: 0 <= i < |Parts(s)| && TagOf(Parts(s)[i]) == SR) &&
      (exists i :: 0 <= i < |Parts(s)| && InRangeUltrasoundPart(Parts(s)[i])))
  {
    ParseFlags(s, pow);
    AngleSeen(s, pow);
    UltrasoundDistanceSeen(s, pow);
  }

  /** `parse` throws exactly when the telegram is valid and some part with a known tag has text that Integer.parseInt rejects. */
  lemma ParseFailure(s: string, pow: (real, real) -> real)
    ensures ParseSpec(s, pow).Failure? <==> (Telegram.IsValid(s) &&
      exists i :: 0 <= i < |Parts(s)| && ReadsValue(TagOf(Parts(s)[i]))
        && Telegram.ParseInt(Telegram.AfterTag(Parts(s)[i])).None?)
  {
    if Telegram.IsValid(s) {
      ParseIsDecodeThenApply(s, pow);
      DecodeParts(Parts(s), pow);
    }
  }

  /**
   * For a field of a valid telegram with a known tag, Integer.parseInt fails exactly when
   * the tag has more than two letters (`IRX5`) or the number does not fit in 32 bits.
   */
  lemma FieldFailure(part: string, pow: (real, real) -> real)
    requires Telegram.IsField(part) && ReadsValue(TagOf(part))
    ensures PartEffect(part, pow).Failure? <==>
      Telegram.UpperRun(part) > 2 || !Numeric.InInt32(Telegram.ParseDecimal(Telegram.AfterTag(part)).value)
  {
    assert Telegram.UpperRun(part) >= 2 by {
      assert Telegram.IsUpper(part[0]) && Telegram.IsUpper(part[1]);
      assert part[1..][0] == part[1];
    }
    Telegram.FieldValue(part);
  }

  /** Tags the parser does not know leave the sample alone, whatever follows them. */
  lemma UnknownTagExamples(pow: (real, real) -> real)
    ensures PartEffect("NO5", pow) == Success(Skip)
    ensures PartEffect("TI123", pow) == Success(Skip)
    ensures PartEffect("OL-7", pow) == Success(Skip)
  {
    assert TagOf("NO5") == Unknown;
    assert TagOf("TI123") == Unknown;
    assert TagOf("OL-7") == Unknown;
  }

  /** RL passes its signed number through unchanged as the left track's tick count. */
  lemma LeftTicksExample(pow: (real, real) -> real)
    ensures PartEffect("RL-42", pow) == Success(SetTicks(LeftTrack, -42))
  {
    var part := "RL-42";
    assert TagOf(part) == RL;
    assert Telegram.AfterTag(part) == "-42";
    assert "-42"[1..] == "42";
    assert Telegram.DigitsValue("42") == 42 by {
      assert "42"[..1] == "4";
      assert Telegram.DigitsValue("4") == 4 by { assert "4"[..0] == ""; }
    }
    assert Telegram.ParseDecimal("-42") == Some(-42);
    assert Telegram.ParseInt("-42") == Some(-42);
  }

  /** RR passes its number through unchanged as the right track's tick count. */
  lemma RightTicksExample(pow: (real, real) -> real)
    ensures PartEffect("RR17", pow) == Success(SetTicks(RightTrack, 17))
  {
    var part := "RR17";
    assert TagOf(part) == RR;
    assert Telegram.AfterTag(part) == "17";
    assert Telegram.DigitsValue("17") == 17 by {
      assert "17"[..1] == "1";
      assert Telegram.DigitsValue("1") == 1 by { assert "1"[..0] == ""; }
    }
    assert Telegram.ParseDecimal("17") == Some(17);
    assert Telegram.ParseInt("17") == Some(17);
  }

  /** A known tag followed by text that is not a number throws. */
  lemma MalformedNumberExample(pow: (real, real) -> real)
    ensures PartEffect("IRX5", pow) == Failure(NumberFormat("IRX5"))
  {
    var part := "IRX5";
    assert TagOf(part) == IR;
    assert Telegram.AfterTag(part) == "X5";
    assert !Telegram.IsDigit("X5"[0]);
    assert Telegram.ParseDecimal("X5") == None;
  }

  /** A known tag followed by a number past the int range throws. */
  lemma OverflowExample(part: string, pow: (real, real) -> real)
    requires part == "RL9000000000"
    ensures PartEffect(part, pow).Failure?
  {
    assert |part| == 12 && part[0] == 'R' && part[1] == 'L';
    assert TagOf(part) == RL;
    var digits := Telegram.AfterTag(part);
    assert digits == part[2..];
    assert |digits| == 10 && digits[0] == '9' && Telegram.AllDigits(digits);
    TenDigitsFromNine(digits);
  }

  /** Ten digits led by a 9 are past the int range. */
  lemma TenDigitsFromNine(digits: string)
    requires |digits| == 10 && digits[0] == '9' && Telegram.AllDigits(digits)
    ensures Telegram.ParseInt(digits).None?
  {
    Telegram.DigitsValueLeadingDigit(digits);
    assert Telegram.Pow10(9) == 1000000000;
    assert Telegram.ParseDecimal(digits) == Some(Telegram.DigitsValue(digits));
  }

  /** The calibration constants: the offsets 24, 59 and 8 read as zero acceleration, and IR90 points straight ahead. */
  lemma CalibrationZeroes(pow: (real, real) -> real)
    ensures EffectOf(AX, -24, pow) == SetReading(AccelerationX, 0.0)
    ensures EffectOf(AY, 59, pow) == SetReading(AccelerationY, 0.0)
    ensures EffectOf(AZ, -8, pow) == SetReading(AccelerationZ, 0.0)
    ensures EffectOf(IR, 90, pow) == SetReading(InfraredAngle, 0.0)
    ensures EffectOf(SR, 0, pow) == SetReading(UltrasoundAngle, -Numeric.PI / 2.0)
  {
  }

  /** `Integer.parseInt(value)` of the lowest int makes `-value` wrap: AX of -2147483648 reads as G * 2147483624 / 1000. */
  lemma AccelerationWrapAround(pow: (real, real) -> real)
    ensures EffectOf(AX, Numeric.INT32_MIN, pow) == SetReading(AccelerationX, G * 2147483624.0 / 1000.0)
  {
  }

  lemma DecodeCons(part: string, rest: seq<string>, pow: (real, real) -> real, e: Effect, es: seq<Effect>)
    requires PartEffect(part, pow) == Success(e) && Decode(rest, pow) == Success(es)
    ensures Decode([part] + rest, pow) == Success([e] + es)
  {
    assert ([part] + rest)[1..] == rest;
  }

  lemma ApplyAllCons(st: ParseState, e: Effect, es: seq<Effect>)
    ensures ApplyAll(st, [e] + es) == ApplyAll(Apply(st, e), es)
  {
    assert ([e] + es)[1..] == es;
  }

  /** "STA;END;" is valid and splits into its two markers. */
  lemma EmptyTelegramParts(s: string)
    requires s == "STA;END;"
    ensures Telegram.IsValid(s) && Parts(s) == ["STA", "END"]
  {
    Telegram.ComposeIsValid([], "");
    Telegram.JavaSplitOfCompose([], "");
    assert Telegram.FieldList([]) == "";
    assert Telegram.Compose([], "") == s;
    assert ["STA"] + [] + ["END"] + [] == ["STA", "END"];
  }

  /** The two markers decode to nothing. */
  lemma MarkersDecode(parts: seq<string>, pow: (real, real) -> real)
    requires parts == ["STA", "END"]
    ensures Decode(parts, pow) == Success([Skip, Skip])
  {
    assert TagOf(parts[0]) == Marker && TagOf(parts[1]) == Marker;
    DecodeCons(parts[1], [], pow, Skip, []);
    assert [parts[1]] + [] == parts[1..] && [Skip] + [] == [Skip];
    DecodeCons(parts[0], parts[1..], pow, Skip, [Skip]);
    assert [parts[0]] + parts[1..] == parts && [Skip] + [Skip] == [Skip, Skip];
  }

  /** "STA;END;" parses to a sample with no readings and both flags false. */
  lemma EmptyTelegram(s: string, pow: (real, real) -> real)
    requires s == "STA;END;"
    ensures ParseSpec(s, pow) == Success(Unset(s).(
      infrared1MeasurementValid := Some(false), ultrasound1MeasurementValid := Some(false)))
  {
    EmptyTelegramParts(s);
    MarkersDecode(Parts(s), pow);
    ParseIsDecodeThenApply(s, pow);
    assert [Skip, Skip] == [Skip] + [Skip];
    ApplyAllCons(Initial(s), Skip, [Skip]);
    assert [Skip] == [Skip] + [];
    ApplyAllCons(Initial(s), Skip, []);
    assert ApplyAll(Initial(s), Effects(s, pow)) == Initial(s);
  }

  /** The fields of "STA;IR90;ID300;END;". */
  lemma InfraredExampleCompose(s: string, fs: seq<string>)
    requires s == "STA;IR90;ID300;END;" && fs == ["IR90", "ID300"]
    ensures Telegram.AllFields(fs) && Telegram.Compose(fs, "") == s
  {
    Telegram.UnsignedFieldExample(fs[0]);
    DistanceFieldExample(fs[1]);
    var rest := fs[1..];
    assert rest == ["ID300"] && rest[1..] == [];
    assert Telegram.FieldList(rest) == "ID300" + ";" + Telegram.FieldList([]);
    assert Telegram.FieldList(fs) == "IR90" + ";" + Telegram.FieldList(rest);
    assert Telegram.FieldList(fs) == "IR90;ID300;";
  }

  lemma DistanceFieldExample(p: string)
    requires p == "ID300"
    ensures Telegram.IsField(p)
  {
    assert |p| == 5 && p[0] == 'I' && p[1] == 'D' && p[2] == '3';
    assert Telegram.UpperRun(p) == 2;
    assert p[2..] == "300";
  }

  /** "STA;IR90;ID300;END;" is valid and splits into its four parts. */
  lemma InfraredExampleParts(s: string)
    requires s == "STA;IR90;ID300;END;"
    ensures Telegram.IsValid(s) && Parts(s) == ["STA", "IR90", "ID300", "END"]
  {
    var fs := ["IR90", "ID300"];
    InfraredExampleCompose(s, fs);
    Telegram.ComposeIsValid(fs, "");
    Telegram.JavaSplitOfCompose(fs, "");
  }

  lemma InfraredAngleExample(pow: (real, real) -> real)
    ensures PartEffect("IR90", pow) == Success(SetReading(InfraredAngle, 0.0))
  {
    assert TagOf("IR90") == IR;
    assert Telegram.AfterTag("IR90") == "90";
    assert Telegram.DigitsValue("90") == 90 by {
      assert "90"[..1] == "9";
      assert Telegram.DigitsValue("9") == 9 by { assert "9"[..0] == ""; }
    }
    assert Telegram.ParseInt("90") == Some(90);
  }

  lemma InfraredDistanceExample(pow: (real, real) -> real)
    ensures var d := InfraredCentimetres(300, pow);
      PartEffect("ID300", pow) == Success(if InfraredInRange(d) then SetReading(InfraredDistance, d) else Skip)
  {
    assert TagOf("ID300") == ID;
    assert Telegram.AfterTag("ID300") == "300";
    assert Telegram.DigitsValue("300") == 300 by {
      assert "300"[..2] == "30";
      assert "30"[..1] == "3";
      assert Telegram.DigitsValue("3") == 3 by { assert "3"[..0] == ""; }
    }
    assert Telegram.ParseInt("300") == Some(300);
  }

  /** The four parts of "STA;IR90;ID300;END;" decode to a marker, the angle, the guarded distance and a marker. */
  lemma InfraredExampleEffects(s: string, pow: (real, real) -> real)
    requires s == "STA;IR90;ID300;END;"
    ensures var d := InfraredCentimetres(300, pow);
      var e := if InfraredInRange(d) then SetReading(InfraredDistance, d) else Skip;
      Telegram.IsValid(s) && Decode(Parts(s), pow) == Success([Skip, SetReading(InfraredAngle, 0.0), e, Skip])
  {
    InfraredExampleParts(s);
    InfraredExampleDecode(pow);
  }

  lemma InfraredExampleDecode(pow: (real, real) -> real)
    ensures var d := InfraredCentimetres(300, pow);
      var e := if InfraredInRange(d) then SetReading(InfraredDistance, d) else Skip;
      Decode(["STA", "IR90", "ID300", "END"], pow) == Success([Skip, SetReading(InfraredAngle, 0.0), e, Skip])
  {
    InfraredAngleExample(pow);
    InfraredDistanceExample(pow);
    var d := InfraredCentimetres(300, pow);
    var e := if InfraredInRange(d) then SetReading(InfraredDistance, d) else Skip;
    var a := SetReading(InfraredAngle, 0.0);
    assert PartEffect("STA", pow) == Success(Skip);
    assert PartEffect("END", pow) == Success(Skip);
    DecodeCons("END", [], pow, Skip, []);
    assert ["END"] + [] == ["END"] && [Skip] + [] == [Skip];
    DecodeCons("ID300", ["END"], pow, e, [Skip]);
    assert ["ID300"] + ["END"] == ["ID300", "END"] && [e] + [Skip] == [e, Skip];
    DecodeCons("IR90", ["ID300", "END"], pow, a, [e, Skip]);
    assert ["IR90"] + ["ID300", "END"] == ["IR90", "ID300", "END"] && [a] + [e, Skip] == [a, e, Skip];
    DecodeCons("STA", ["IR90", "ID300", "END"], pow, Skip, [a, e, Skip]);
    assert ["STA"] + ["IR90", "ID300", "END"] == ["STA", "IR90", "ID300", "END"];
    assert [Skip] + [a, e, Skip] == [Skip, a, e, Skip];
  }

  /** "STA;IR90;ID300;END;": the infrared angle is 0 and the flag is exactly the range test on the ID300 distance. */
  lemma InfraredExample(s: string, pow: (real, real) -> real)
    requires s == "STA;IR90;ID300;END;"
    ensures var r := ParseSpec(s, pow);
      && r.Success?
      && r.value.infrared1Angle == Some(0.0)
      && r.value.infrared1MeasurementValid == Some(InfraredInRange(InfraredCentimetres(300, pow)))
      && r.value.ultrasound1MeasurementValid == Some(false)
  {
    InfraredExampleEffects(s, pow);
    var d := InfraredCentimetres(300, pow);
    var e := if InfraredInRange(d) then SetReading(InfraredDistance, d) else Skip;
    var a := SetReading(InfraredAngle, 0.0);
    ParseIsDecodeThenApply(s, pow);
    var st0 := Initial(s);
    var st1 := Apply(st0, a);
    var st2 := Apply(st1, e);
    ApplyAllCons(st0, Skip, [a, e, Skip]);
    ApplyAllCons(st0, a, [e, Skip]);
    ApplyAllCons(st1, e, [Skip]);
    ApplyAllCons(st2, Skip, []);
    assert [a] + [e, Skip] == [a, e, Skip] && [Skip] + [a, e, Skip] == [Skip, a, e, Skip];
    assert [e] + [Skip] == [e, Skip] && [Skip] + [] == [Skip];
  }
}


