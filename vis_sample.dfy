/**
 * raisa.vis.Sample: the visualiser's own decoding of a telegram into a map from
 * string keys to float readings, next to the robot pose it was received at.
 *
 * It uses the same grammar and the same two-letter tags as raisa.comms.SampleParser,
 * but it checks no distance range, ignores RL and RR, reads the accelerometer and
 * gyroscope with Float.parseFloat, stores the compass without the quarter-circle turn
 * and also as the heading, and files the Y and Z axes of both sensors under each
 * other's key.
 */
module VisSample {
  import opened Wrappers
  import Numeric
  import Telegram
  import SP = SampleParser

  /** The public fields `sampleString` and `data`; every value the constructor stores is a float. */
  datatype Sample = Sample(sampleString: string, data: map<string, real>)

  /** One `data.put(key, value)`. */
  datatype Put = Put(key: string, value: real)

  /** The runtime exceptions the getters can throw. */
  datatype Fault = NullPointer | ClassCast

  datatype Spot = Spot(x: real, y: real)

  datatype Vector3 = Vector3(x: real, y: real, z: real)

  /**
   * The three puts that precede the decoding: exactly the keys "x", "y" and "heading"
   * with the given values. None of them is a two-letter reading key; a CD part later
   * overwrites "heading" (ConstructPose).
   */
  function Pose(x: real, y: real, heading: real): (m: map<string, real>)
    ensures m.Keys == {"x", "y", "heading"}
    ensures m["x"] == x && m["y"] == y && m["heading"] == heading
    ensures forall k :: k in m ==> |k| != 2
  {
    map["x" := x, "y" := y, "heading" := heading]
  }

  // ---------------------------------------------------------------------------
  // One part
  // ---------------------------------------------------------------------------

  /** The branches that read their number with Integer.parseInt. */
  predicate ReadsInt(tag: SP.Tag) {
    tag == SP.IR || tag == SP.ID || tag == SP.SR || tag == SP.SD || tag == SP.CD
  }

  /** The branches that read their number with Float.parseFloat. */
  predicate ReadsFloat(tag: SP.Tag) {
    tag == SP.AX || tag == SP.AY || tag == SP.AZ || tag == SP.GX || tag == SP.GY || tag == SP.GZ
  }

  /** The puts of a branch that read the integer `v`. */
  function IntPuts(tag: SP.Tag, v: int, pow: (real, real) -> real): (ps: seq<Put>)
    requires ReadsInt(tag)
    ensures |ps| == (if tag == SP.CD then 2 else 1)
    ensures ps[0].key == KeyOf(tag)
    ensures tag == SP.CD ==> ps[1] == Put("heading", ps[0].value)
  {
    match tag
    case IR => [Put("ir", SP.Angle(v))]
    case ID => [Put("id", SP.InfraredCentimetres(v, pow))]
    case SR => [Put("sr", SP.Angle(v))]
    case SD => [Put("sd", SP.UltrasoundCentimetres(v))]
    case CD =>
      var compass := Numeric.ToRadians(v as real);
      [Put("cd", compass), Put("heading", compass)]
  }

  /** The puts of a branch that read the float `f`: AY goes to "az", AZ to "ay", GY to "gz" and GZ to "gy". */
  function FloatPuts(tag: SP.Tag, f: real): (ps: seq<Put>)
    requires ReadsFloat(tag)
    ensures |ps| == 1 && ps[0].key == KeyOf(tag)
  {
    match tag
    case AX => [Put("ax", SP.G * (-f - 24.0) / 1000.0)]
    case AY => [Put("az", SP.G * (f - 59.0) / 1000.0)]
    case AZ => [Put("ay", SP.G * (-f - 8.0) / 1000.0)]
    case GX => [Put("gx", -f / 1000.0)]
    case GY => [Put("gz", f / 1000.0)]
    case GZ => [Put("gy", -f / 1000.0)]
  }

  /** One pass of the constructor's loop: the puts of the branch the part takes, or the NumberFormatException. */
  function PartPuts(part: string, pow: (real, real) -> real): (r: Result<seq<Put>, SP.ParseError>)
    ensures r.Failure? <==>
      (ReadsInt(SP.TagOf(part)) && Telegram.ParseInt(Telegram.AfterTag(part)).None?) ||
      (ReadsFloat(SP.TagOf(part)) && Telegram.ParseFloat(Telegram.AfterTag(part)).None?)
    ensures r.Failure? ==> r.error == SP.NumberFormat(part)
    ensures !ReadsInt(SP.TagOf(part)) && !ReadsFloat(SP.TagOf(part)) ==> r == Success([])
  {
    var tag := SP.TagOf(part);
    var value := Telegram.AfterTag(part);
    if ReadsInt(tag) then
      match Telegram.ParseInt(value)
      case None => Failure(SP.NumberFormat(part))
      case Some(v) => Success(IntPuts(tag, v, pow))
    else if ReadsFloat(tag) then
      match Telegram.ParseFloat(value)
      case None => Failure(SP.NumberFormat(part))
      case Some(f) => Success(FloatPuts(tag, f))
    else Success([])
  }

  // ---------------------------------------------------------------------------
  // The constructor
  // ---------------------------------------------------------------------------

  /** The puts applied in order to the map. */
  function Store(m: map<string, real>, ps: seq<Put>): map<string, real>
    decreases |ps|
  {
    if ps == [] then m else Store(m[ps[0].key := ps[0].value], ps[1..])
  }

  /** The loop: each part's puts in turn; the first part that throws ends the constructor. */
  function Fold(m: map<string, real>, parts: seq<string>, pow: (real, real) -> real): Result<map<string, real>, SP.ParseError>
    decreases |parts|
  {
    if parts == [] then Success(m)
    else match PartPuts(parts[0], pow)
      case Failure(e) => Failure(e)
      case Success(ps) => Fold(Store(m, ps), parts[1..], pow)
  }

  /** What `new Sample(x, y, heading, sample)` builds, or the exception it lets escape. */
  function Construct(x: real, y: real, heading: real, s: string, pow: (real, real) -> real): (r: Result<Sample, SP.ParseError>)
    ensures !Telegram.IsValid(s) ==> r == Success(Sample(s, Pose(x, y, heading)))
    ensures r.Success? ==> r.value.sampleString == s
  {
    if !Telegram.IsValid(s) then Success(Sample(s, Pose(x, y, heading)))
    else match Fold(Pose(x, y, heading), Telegram.JavaSplit(s), pow)
      case Failure(e) => Failure(e)
      case Success(m) => Success(Sample(s, m))
  }

  lemma StoreOne(m: map<string, real>, k: string, v: real)
    ensures Store(m, [Put(k, v)]) == m[k := v]
  {
    assert [Put(k, v)][1..] == [];
  }

  /** The body of the constructor's loop: the if-chain on the part's tag, putting into `data`. */
  method DecodePart(data: map<string, real>, part: string, pow: (real, real) -> real)
    returns (r: Result<map<string, real>, SP.ParseError>)
    ensures PartPuts(part, pow).Failure? ==> r == Failure(PartPuts(part, pow).error)
    ensures PartPuts(part, pow).Success? ==> r == Success(Store(data, PartPuts(part, pow).value))
  {
    var value := Telegram.AfterTag(part);
    var tag := SP.TagOf(part);
    if ReadsInt(tag) {
      var n := Telegram.ParseInt(value);
      if n.None? {
        return Failure(SP.NumberFormat(part));
      }
      var m := PutInt(data, tag, n.value, pow);
      r := Success(m);
    } else if ReadsFloat(tag) {
      var n := Telegram.ParseFloat(value);
      if n.None? {
        return Failure(SP.NumberFormat(part));
      }
      var m := PutFloat(data, tag, n.value);
      r := Success(m);
    } else {
      r := Success(data);
    }
  }

  /** The branches that read an int. */
  method PutInt(data: map<string, real>, tag: SP.Tag, v: int, pow: (real, real) -> real) returns (m: map<string, real>)
    requires ReadsInt(tag)
    ensures m == Store(data, IntPuts(tag, v, pow))
  {
    if tag == SP.IR {
      StoreOne(data, "ir", SP.Angle(v));
      m := data["ir" := SP.Angle(v)];
    } else if tag == SP.ID {
      StoreOne(data, "id", SP.InfraredCentimetres(v, pow));
      m := data["id" := SP.InfraredCentimetres(v, pow)];
    } else if tag == SP.SR {
      StoreOne(data, "sr", SP.Angle(v));
      m := data["sr" := SP.Angle(v)];
    } else if tag == SP.SD {
      StoreOne(data, "sd", SP.UltrasoundCentimetres(v));
      m := data["sd" := SP.UltrasoundCentimetres(v)];
    } else {
      var compass := Numeric.ToRadians(v as real);
      assert [Put("cd", compass), Put("heading", compass)][1..] == [Put("heading", compass)];
      StoreOne(data["cd" := compass], "heading", compass);
      m := data["cd" := compass]["heading" := compass];
    }
  }

  /** The branches that read a float. */
  method PutFloat(data: map<string, real>, tag: SP.Tag, f: real) returns (m: map<string, real>)
    requires ReadsFloat(tag)
    ensures m == Store(data, FloatPuts(tag, f))
  {
    if tag == SP.AX {
      StoreOne(data, "ax", SP.G * (-f - 24.0) / 1000.0);
      m := data["ax" := SP.G * (-f - 24.0) / 1000.0];
    } else if tag == SP.AY {
      StoreOne(data, "az", SP.G * (f - 59.0) / 1000.0);
      m := data["az" := SP.G * (f - 59.0) / 1000.0];
    } else if tag == SP.AZ {
      StoreOne(data, "ay", SP.G * (-f - 8.0) / 1000.0);
      m := data["ay" := SP.G * (-f - 8.0) / 1000.0];
    } else if tag == SP.GX {
      StoreOne(data, "gx", -f / 1000.0);
      m := data["gx" := -f / 1000.0];
    } else if tag == SP.GY {
      StoreOne(data, "gz", f / 1000.0);
      m := data["gz" := f / 1000.0];
    } else {
      StoreOne(data, "gy", -f / 1000.0);
      m := data["gy" := -f / 1000.0];
    }
  }

  /** The constructor `Sample(float x, float y, float heading, String sample)`. */
  method New(x: real, y: real, heading: real, sample: string, pow: (real, real) -> real)
    returns (r: Result<Sample, SP.ParseError>)
    ensures r == Construct(x, y, heading, sample, pow)
  {
    var data := map[];
    data := data["x" := x];
    data := data["y" := y];
    data := data["heading" := heading];
    assert data == Pose(x, y, heading);
    if !Telegram.IsValid(sample) {
      return Success(Sample(sample, data));
    }
    var parts := Telegram.JavaSplit(sample);
    var i := 0;
    while i < |parts|
      invariant 0 <= i <= |parts|
      invariant Fold(data, parts[i..], pow) == Fold(Pose(x, y, heading), parts, pow)
    {
      assert parts[i..][0] == parts[i] && parts[i..][1..] == parts[i + 1..];
      var next := DecodePart(data, parts[i], pow);
      match next {
        case Failure(e) =>
          return Failure(e);
        case Success(m) =>
          data := m;
      }
      i := i + 1;
    }
    return Success(Sample(sample, data));
  }

  // ---------------------------------------------------------------------------
  // What the constructor computes, stated without the loop
  // ---------------------------------------------------------------------------

  /** Every part's puts, in order, or the first part that throws. */
  function Puts(parts: seq<string>, pow: (real, real) -> real): Result<seq<Put>, SP.ParseError>
    decreases |parts|
  {
    if parts == [] then Success([])
    else match PartPuts(parts[0], pow)
      case Failure(e) => Failure(e)
      case Success(ps) =>
        match Puts(parts[1..], pow)
        case Failure(e') => Failure(e')
        case Success(rest) => Success(ps + rest)
  }

  /** The value the last put to `k` stores, searching from the end. */
  function LastPut(ps: seq<Put>, k: string): Option<real>
    decreases |ps|
  {
    if ps == [] then None
    else if ps[|ps| - 1].key == k then Some(ps[|ps| - 1].value)
    else LastPut(ps[..|ps| - 1], k)
  }

  lemma {:induction false} StoreConcat(m: map<string, real>, a: seq<Put>, b: seq<Put>)
    ensures Store(m, a + b) == Store(Store(m, a), b)
    decreases |a|
  {
    if a == [] {
      assert a + b == b;
    } else {
      var m' := m[a[0].key := a[0].value];
      assert (a + b)[0] == a[0] && (a + b)[1..] == a[1..] + b;
      assert Store(m, a + b) == Store(m', a[1..] + b);
      StoreConcat(m', a[1..], b);
    }
  }

  /** Putting part by part, as the loop does, is collecting all the puts and then putting them. */
  lemma {:induction false} FoldIsPutsThenStore(m: map<string, real>, parts: seq<string>, pow: (real, real) -> real)
    ensures Fold(m, parts, pow) == match Puts(parts, pow)
      case Failure(e) => Failure(e)
      case Success(ps) => Success(Store(m, ps))
    decreases |parts|
  {
    if parts != [] {
      match PartPuts(parts[0], pow)
      case Failure(e) =>
      case Success(ps) =>
        FoldIsPutsThenStore(Store(m, ps), parts[1..], pow);
        match Puts(parts[1..], pow)
        case Failure(e) =>
        case Success(rest) => StoreConcat(m, ps, rest);
    }
  }

  /** A key ends up holding the last value put to it, or what it held before when nothing puts it. */
  lemma {:induction false} StoreLookup(m: map<string, real>, ps: seq<Put>, k: string)
    ensures k in Store(m, ps) <==> k in m || LastPut(ps, k).Some?
    ensures k in Store(m, ps) ==> Store(m, ps)[k] == if LastPut(ps, k).Some? then LastPut(ps, k).value else m[k]
    decreases |ps|
  {
    if ps != [] {
      var init, last := ps[..|ps| - 1], ps[|ps| - 1];
      assert ps == init + [last];
      StoreConcat(m, init, [last]);
      StoreOne(Store(m, init), last.key, last.value);
      StoreLookup(m, init, k);
    }
  }

  /** The last put to `k` in a concatenation comes from its second half if that half puts `k` at all. */
  lemma {:induction false} LastPutConcat(a: seq<Put>, b: seq<Put>, k: string)
    ensures LastPut(a + b, k) == if LastPut(b, k).Some? then LastPut(b, k) else LastPut(a, k)
    decreases |b|
  {
    if b == [] {
      assert a + b == a;
    } else {
      assert (a + b)[..|a + b| - 1] == a + b[..|b| - 1];
      LastPutConcat(a, b[..|b| - 1], k);
    }
  }

  /** Collecting the puts succeeds exactly when every part decodes. */
  lemma {:induction false} PutsParts(parts: seq<string>, pow: (real, real) -> real)
    ensures Puts(parts, pow).Success? <==> forall i :: 0 <= i < |parts| ==> PartPuts(parts[i], pow).Success?
    decreases |parts|
  {
    if parts != [] {
      var rest := parts[1..];
      PutsParts(rest, pow);
      if Puts(parts, pow).Success? {
        forall i | 0 <= i < |parts| ensures PartPuts(parts[i], pow).Success? {
          if i > 0 { assert parts[i] == rest[i - 1]; }
        }
      }
      if forall i :: 0 <= i < |parts| ==> PartPuts(parts[i], pow).Success? {
        assert PartPuts(parts[0], pow).Success?;
        forall i | 0 <= i < |rest| ensures PartPuts(rest[i], pow).Success? {
          assert rest[i] == parts[i + 1];
        }
      }
    }
  }

  /** What a part that decodes puts last under `k`. */
  function PartValue(part: string, k: string, pow: (real, real) -> real): Option<real> {
    match PartPuts(part, pow)
    case Failure(_) => None
    case Success(ps) => LastPut(ps, k)
  }

  /** No part after position `i` puts `k`. */
  predicate NoLaterPut(parts: seq<string>, k: string, pow: (real, real) -> real, i: int) {
    forall j :: 0 <= j < |parts| && i < j ==> PartValue(parts[j], k, pow).None?
  }

  /** Dropping the first part shifts every position down by one. */
  lemma NoLaterShift(parts: seq<string>, k: string, pow: (real, real) -> real, i: int)
    requires parts != [] && -1 <= i
    ensures NoLaterPut(parts, k, pow, i + 1) <==> NoLaterPut(parts[1..], k, pow, i)
  {
    var rest := parts[1..];
    if NoLaterPut(parts, k, pow, i + 1) {
      forall j | 0 <= j < |rest| && i < j ensures PartValue(rest[j], k, pow).None? {
        assert rest[j] == parts[j + 1];
      }
    }
    if NoLaterPut(rest, k, pow, i) {
      forall j | 0 <= j < |parts| && i + 1 < j ensures PartValue(parts[j], k, pow).None? {
        assert parts[j] == rest[j - 1];
      }
    }
  }

  /**
   * The last put to `k` over all parts comes from a part that puts `k`, and no later
   * part puts `k`; when no part puts `k` there is none.
   */
  lemma {:induction false} LastPutOfParts(parts: seq<string>, k: string, pow: (real, real) -> real)
    requires Puts(parts, pow).Success?
    ensures var last := LastPut(Puts(parts, pow).value, k);
      && (last.None? <==> NoLaterPut(parts, k, pow, -1))
      && (last.Some? ==> exists i :: 0 <= i < |parts| && PartValue(parts[i], k, pow) == last && NoLaterPut(parts, k, pow, i))
    decreases |parts|
  {
    if parts != [] {
      var ps := PartPuts(parts[0], pow).value;
      var rest := Puts(parts[1..], pow).value;
      var last := LastPut(Puts(parts, pow).value, k);
      assert Puts(parts, pow).value == ps + rest;
      LastPutOfParts(parts[1..], k, pow);
      LastPutConcat(ps, rest, k);
      assert PartValue(parts[0], k, pow) == LastPut(ps, k);
      NoLaterShift(parts, k, pow, -1);
      assert NoLaterPut(parts, k, pow, -1) <==> PartValue(parts[0], k, pow).None? && NoLaterPut(parts, k, pow, 0);
      if LastPut(rest, k).Some? {
        var i :| 0 <= i < |parts[1..]| && PartValue(parts[1..][i], k, pow) == LastPut(rest, k)
          && NoLaterPut(parts[1..], k, pow, i);
        NoLaterShift(parts, k, pow, i);
        assert PartValue(parts[i + 1], k, pow) == last;
      } else if last.Some? {
        assert PartValue(parts[0], k, pow) == last;
      }
    }
  }

  /** The key the branch for `tag` puts its reading under. */
  function KeyOf(tag: SP.Tag): (k: string)
    requires ReadsInt(tag) || ReadsFloat(tag)
    ensures |k| == 2
  {
    match tag
    case IR => "ir"
    case ID => "id"
    case SR => "sr"
    case SD => "sd"
    case CD => "cd"
    case AX => "ax"
    case AY => "az"
    case AZ => "ay"
    case GX => "gx"
    case GY => "gz"
    case GZ => "gy"
  }

  lemma LastPutOne(p: Put, k: string)
    ensures LastPut([p], k) == if p.key == k then Some(p.value) else None
  {
    assert [p][..0] == [];
  }

  lemma LastPutTwo(p: Put, q: Put, k: string)
    ensures LastPut([p, q], k) == if q.key == k then Some(q.value) else if p.key == k then Some(p.value) else None
  {
    assert [p, q][..1] == [p];
    LastPutOne(p, k);
  }

  /** What a decoded part puts under `k`: the value of its branch when `k` is that branch's key. */
  lemma PartValueOf(part: string, k: string, pow: (real, real) -> real)
    requires PartPuts(part, pow).Success?
    ensures var tag := SP.TagOf(part);
      PartValue(part, k, pow).Some? <==>
        (ReadsInt(tag) || ReadsFloat(tag)) && (k == KeyOf(tag) || (tag == SP.CD && k == "heading"))
    ensures SP.TagOf(part) == SP.CD ==> PartValue(part, "heading", pow) == PartValue(part, "cd", pow)
  {
    var tag, value := SP.TagOf(part), Telegram.AfterTag(part);
    var ps := PartPuts(part, pow).value;
    if ReadsInt(tag) {
      var v := Telegram.ParseInt(value).value;
      assert ps == IntPuts(tag, v, pow);
      if tag == SP.CD {
        LastPutTwo(ps[0], ps[1], k);
        LastPutTwo(ps[0], ps[1], "heading");
        LastPutTwo(ps[0], ps[1], "cd");
      } else {
        LastPutOne(ps[0], k);
      }
    } else if ReadsFloat(tag) {
      var f := Telegram.ParseFloat(value).value;
      assert ps == FloatPuts(tag, f);
      LastPutOne(ps[0], k);
    }
  }

  /** A decoded part never puts the robot position, and puts the heading exactly when it puts the compass, with the same value. */
  lemma PartPose(part: string, pow: (real, real) -> real)
    requires PartPuts(part, pow).Success?
    ensures PartValue(part, "x", pow).None? && PartValue(part, "y", pow).None?
    ensures PartValue(part, "heading", pow) == PartValue(part, "cd", pow)
  {
    PartValueOf(part, "x", pow);
    PartValueOf(part, "y", pow);
    PartValueOf(part, "heading", pow);
    PartValueOf(part, "cd", pow);
  }

  /** Different tags put under different keys. */
  lemma KeyOfInjective(a: SP.Tag, b: SP.Tag)
    requires ReadsInt(a) || ReadsFloat(a)
    requires ReadsInt(b) || ReadsFloat(b)
    ensures KeyOf(a) == KeyOf(b) <==> a == b
  {
    var ka, kb := KeyOf(a), KeyOf(b);
    if ka == kb {
      assert ka[0] == kb[0] && ka[1] == kb[1];
    }
  }

  /** A decoded part puts under a reading key exactly when it has the tag of that key. */
  lemma PartKey(part: string, tag: SP.Tag, pow: (real, real) -> real)
    requires PartPuts(part, pow).Success? && (ReadsInt(tag) || ReadsFloat(tag))
    ensures PartValue(part, KeyOf(tag), pow).Some? <==> SP.TagOf(part) == tag
  {
    PartValueOf(part, KeyOf(tag), pow);
    var t := SP.TagOf(part);
    if ReadsInt(t) || ReadsFloat(t) {
      KeyOfInjective(t, tag);
    }
    assert |"heading"| != 2;
  }

  /** Over a whole telegram the heading is put last with the same value as the compass. */
  lemma {:induction false} HeadingFollowsCompass(parts: seq<string>, pow: (real, real) -> real)
    requires Puts(parts, pow).Success?
    ensures LastPut(Puts(parts, pow).value, "heading") == LastPut(Puts(parts, pow).value, "cd")
    decreases |parts|
  {
    if parts != [] {
      var ps := PartPuts(parts[0], pow).value;
      var rest := Puts(parts[1..], pow).value;
      PartPose(parts[0], pow);
      HeadingFollowsCompass(parts[1..], pow);
      LastPutConcat(ps, rest, "heading");
      LastPutConcat(ps, rest, "cd");
    }
  }

  /** A telegram's parts as the constructor loops over them. */
  function Parts(s: string): seq<string> {
    Telegram.JavaSplit(s)
  }

  /** The pose keys after construction: x and y as given, the heading the last compass reading if any. */
  lemma ConstructPose(x: real, y: real, heading: real, s: string, pow: (real, real) -> real)
    requires Construct(x, y, heading, s, pow).Success?
    ensures var data := Construct(x, y, heading, s, pow).value.data;
      && "x" in data && data["x"] == x
      && "y" in data && data["y"] == y
      && "heading" in data && data["heading"] == (if "cd" in data then data["cd"] else heading)
  {
    if Telegram.IsValid(s) {
      var parts, m := Parts(s), Pose(x, y, heading);
      FoldIsPutsThenStore(m, parts, pow);
      var ps := Puts(parts, pow).value;
      PutsParts(parts, pow);
      forall i | 0 <= i < |parts| ensures PartValue(parts[i], "x", pow).None? && PartValue(parts[i], "y", pow).None? {
        PartPose(parts[i], pow);
      }
      LastPutOfParts(parts, "x", pow);
      LastPutOfParts(parts, "y", pow);
      HeadingFollowsCompass(parts, pow);
      StoreLookup(m, ps, "x");
      StoreLookup(m, ps, "y");
      StoreLookup(m, ps, "heading");
      StoreLookup(m, ps, "cd");
    }
  }

  /** Over a whole telegram, the last put under a reading key comes from the last part with that key's tag. */
  /** `parts[i]` has the tag and no later part does. */
  predicate LastTagged(parts: seq<string>, tag: SP.Tag, i: int) {
    0 <= i < |parts| && SP.TagOf(parts[i]) == tag && forall j :: i < j < |parts| ==> SP.TagOf(parts[j]) != tag
  }

  lemma ReadingOfParts(parts: seq<string>, tag: SP.Tag, pow: (real, real) -> real)
    requires Puts(parts, pow).Success? && (ReadsInt(tag) || ReadsFloat(tag))
    ensures var last := LastPut(Puts(parts, pow).value, KeyOf(tag));
      && (last.Some? <==> exists i :: 0 <= i < |parts| && SP.TagOf(parts[i]) == tag)
      && (last.Some? ==> exists i :: LastTagged(parts, tag, i) && PartValue(parts[i], KeyOf(tag), pow) == last)
  {
    var k := KeyOf(tag);
    PutsParts(parts, pow);
    forall i | 0 <= i < |parts| ensures PartValue(parts[i], k, pow).Some? <==> SP.TagOf(parts[i]) == tag {
      PartKey(parts[i], tag, pow);
    }
    LastPutOfParts(parts, k, pow);
  }

  /**
   * Each reading key is present exactly when some part has its tag, and then holds
   * what the last part with that tag puts.
   */
  lemma ConstructReading(x: real, y: real, heading: real, s: string, tag: SP.Tag, pow: (real, real) -> real)
    requires Telegram.IsValid(s) && Construct(x, y, heading, s, pow).Success?
    requires ReadsInt(tag) || ReadsFloat(tag)
    ensures var data, parts := Construct(x, y, heading, s, pow).value.data, Parts(s);
      && (KeyOf(tag) in data <==> exists i :: 0 <= i < |parts| && SP.TagOf(parts[i]) == tag)
      && (KeyOf(tag) in data ==>
            exists i :: LastTagged(parts, tag, i) && PartValue(parts[i], KeyOf(tag), pow) == Some(data[KeyOf(tag)]))
  {
    var parts, m, k := Parts(s), Pose(x, y, heading), KeyOf(tag);
    FoldIsPutsThenStore(m, parts, pow);
    var ps := Puts(parts, pow).value;
    var data := Construct(x, y, heading, s, pow).value.data;
    assert data == Store(m, ps);
    assert k !in m;
    StoreLookup(m, ps, k);
    ReadingOfParts(parts, tag, pow);
    assert k in data <==> LastPut(ps, k).Some?;
    if k in data {
      assert Some(data[k]) == LastPut(ps, k);
      var i :| LastTagged(parts, tag, i) && PartValue(parts[i], k, pow) == LastPut(ps, k);
    }
  }

  // ---------------------------------------------------------------------------
  // The getters
  // ---------------------------------------------------------------------------

  /** The three keys the getters unbox without a check; the constructor always puts them. */
  predicate HasPose(smp: Sample) {
    "x" in smp.data && "y" in smp.data && "heading" in smp.data
  }

  /** isIrSpot: both an infrared angle and an infrared distance were decoded. */
  predicate IsIrSpot(smp: Sample) {
    "ir" in smp.data && "id" in smp.data
  }

  /** The world direction of a reading taken at `angle`: the angle plus the heading less a quarter circle. */
  function Bearing(smp: Sample, angle: real): real
    requires HasPose(smp)
  {
    angle + (smp.data["heading"] - Numeric.PI * 0.5)
  }

  /** A reading `distance` away from the robot, at the bearing of `angle`. */
  function SpotAt(smp: Sample, angle: real, distance: real, maths: Numeric.Maths): (r: Spot)
    requires HasPose(smp)
    ensures distance == 0.0 ==> r == Spot(smp.data["x"], smp.data["y"])
  {
    var a := Bearing(smp, angle);
    Spot(smp.data["x"] + maths.cos(a) * distance, smp.data["y"] + maths.sin(a) * distance)
  }

  /**
   * getIrSpot: the infrared reading in world coordinates, `id` away from the robot at
   * the bearing `ir + heading - pi/2`, or the robot position when there is none.
   */
  function IrSpot(smp: Sample, maths: Numeric.Maths): (r: Spot)
    requires HasPose(smp)
    ensures !IsIrSpot(smp) ==> r == Spot(smp.data["x"], smp.data["y"])
    ensures IsIrSpot(smp) ==>
      var bearing, d := Bearing(smp, smp.data["ir"]), smp.data["id"];
      r == Spot(smp.data["x"] + maths.cos(bearing) * d, smp.data["y"] + maths.sin(bearing) * d)
  {
    if IsIrSpot(smp) then SpotAt(smp, smp.data["ir"], smp.data["id"], maths)
    else SpotAt(smp, 0.0, 0.0, maths)
  }

  /**
   * getSrSpot: the ultrasound reading in world coordinates, or the robot position when
   * there is no ultrasound angle. Only "sr" is checked, so an angle without a distance
   * unboxes null.
   */
  function SrSpot(smp: Sample, maths: Numeric.Maths): (r: Result<Spot, Fault>)
    requires HasPose(smp)
    ensures r.Failure? <==> "sr" in smp.data && "sd" !in smp.data
    ensures r.Failure? ==> r.error == NullPointer
    ensures "sr" !in smp.data ==> r == Success(Spot(smp.data["x"], smp.data["y"]))
    ensures "sr" in smp.data && "sd" in smp.data ==>
      var bearing, d := Bearing(smp, smp.data["sr"]), smp.data["sd"];
      r.Success? && r.value == Spot(smp.data["x"] + maths.cos(bearing) * d, smp.data["y"] + maths.sin(bearing) * d)
  {
    if "sr" in smp.data then
      if "sd" in smp.data then Success(SpotAt(smp, smp.data["sr"], smp.data["sd"], maths))
      else Failure(NullPointer)
    else Success(SpotAt(smp, 0.0, 0.0, maths))
  }

  /** The spot lies at exactly the measured distance from the robot. */
  lemma SpotDistance(smp: Sample, angle: real, distance: real, maths: Numeric.Maths)
    requires HasPose(smp) && Numeric.Pythagorean(maths)
    ensures var r, x, y := SpotAt(smp, angle, distance, maths), smp.data["x"], smp.data["y"];
      (r.x - x) * (r.x - x) + (r.y - y) * (r.y - y) == distance * distance
  {
    var a := Bearing(smp, angle);
    var c, s := maths.cos(a), maths.sin(a);
    assert s * s + c * c == 1.0;
    calc {
      (c * distance) * (c * distance) + (s * distance) * (s * distance);
      (c * c + s * s) * (distance * distance);
      distance * distance;
    }
  }

  /** An infrared spot lies at the decoded infrared distance from the robot. */
  lemma IrSpotDistance(smp: Sample, maths: Numeric.Maths)
    requires HasPose(smp) && IsIrSpot(smp) && Numeric.Pythagorean(maths)
    ensures var r := IrSpot(smp, maths);
      (r.x - smp.data["x"]) * (r.x - smp.data["x"]) + (r.y - smp.data["y"]) * (r.y - smp.data["y"])
        == smp.data["id"] * smp.data["id"]
  {
    SpotDistance(smp, smp.data["ir"], smp.data["id"], maths);
  }

  /** getIrDirection: the infrared angle, or a NullPointerException when none was decoded. */
  function IrDirection(smp: Sample): (r: Result<real, Fault>)
    ensures r.Failure? <==> "ir" !in smp.data
    ensures r.Failure? ==> r.error == NullPointer
  {
    if "ir" in smp.data then Success(smp.data["ir"]) else Failure(NullPointer)
  }

  /** A component that is absent reads as 0, which is what the null checks in the two vector getters aim at. */
  function OrZero(smp: Sample, k: string): real {
    if k in smp.data then smp.data[k] else 0.0
  }

  /**
   * getAcceleration as written. The conditional `data.get(k) == null ? 0 : data.get(k)`
   * mixes an int with an Object, so its 0 is boxed as an Integer and the cast to Float
   * throws for the first absent component.
   */
  function AccelerationAsWritten(smp: Sample): (r: Result<Vector3, Fault>)
    ensures r.Failure? <==> !("ax" in smp.data && "ay" in smp.data && "az" in smp.data)
    ensures r.Failure? ==> r.error == ClassCast
  {
    if "ax" !in smp.data || "ay" !in smp.data || "az" !in smp.data then Failure(ClassCast)
    else Success(Vector3(smp.data["ax"], smp.data["ay"], smp.data["az"]))
  }

  /** getAngularAcceleration as written; it throws in the same way. */
  function AngularAccelerationAsWritten(smp: Sample): (r: Result<Vector3, Fault>)
    ensures r.Failure? <==> !("gx" in smp.data && "gy" in smp.data && "gz" in smp.data)
    ensures r.Failure? ==> r.error == ClassCast
  {
    if "gx" !in smp.data || "gy" !in smp.data || "gz" !in smp.data then Failure(ClassCast)
    else Success(Vector3(smp.data["gx"], smp.data["gy"], smp.data["gz"]))
  }

  /** getAcceleration as intended: never throws, agrees with the code where it does not throw, and reads 0 for an absent component. */
  function Acceleration(smp: Sample): (r: Vector3)
    ensures AccelerationAsWritten(smp).Success? ==> r == AccelerationAsWritten(smp).value
    ensures "ax" in smp.data ==> r.x == smp.data["ax"]
    ensures "ax" !in smp.data ==> r.x == 0.0
    ensures "ay" in smp.data ==> r.y == smp.data["ay"]
    ensures "ay" !in smp.data ==> r.y == 0.0
    ensures "az" in smp.data ==> r.z == smp.data["az"]
    ensures "az" !in smp.data ==> r.z == 0.0
  {
    Vector3(OrZero(smp, "ax"), OrZero(smp, "ay"), OrZero(smp, "az"))
  }

  /** getAngularAcceleration as intended, in the same way. */
  function AngularAcceleration(smp: Sample): (r: Vector3)
    ensures AngularAccelerationAsWritten(smp).Success? ==> r == AngularAccelerationAsWritten(smp).value
    ensures "gx" in smp.data ==> r.x == smp.data["gx"]
    ensures "gx" !in smp.data ==> r.x == 0.0
    ensures "gy" in smp.data ==> r.y == smp.data["gy"]
    ensures "gy" !in smp.data ==> r.y == 0.0
    ensures "gz" in smp.data ==> r.z == smp.data["gz"]
    ensures "gz" !in smp.data ==> r.z == 0.0
  {
    Vector3(OrZero(smp, "gx"), OrZero(smp, "gy"), OrZero(smp, "gz"))
  }

  // ---------------------------------------------------------------------------
  // The getters on a constructed sample
  // ---------------------------------------------------------------------------

  /** Some part of the telegram has the tag. */
  predicate HasTag(s: string, tag: SP.Tag) {
    exists i :: 0 <= i < |Parts(s)| && SP.TagOf(Parts(s)[i]) == tag
  }

  /** A reading key is present in a constructed sample exactly when the telegram has that key's tag. */
  lemma KeyPresent(x: real, y: real, heading: real, s: string, tag: SP.Tag, pow: (real, real) -> real)
    requires Telegram.IsValid(s) && Construct(x, y, heading, s, pow).Success?
    requires ReadsInt(tag) || ReadsFloat(tag)
    ensures KeyOf(tag) in Construct(x, y, heading, s, pow).value.data <==> HasTag(s, tag)
  {
    ConstructReading(x, y, heading, s, tag, pow);
  }

  /** A constructed sample is an infrared spot exactly when the telegram has an IR part and an ID part, whatever the distance. */
  lemma IrSpotOfTelegram(x: real, y: real, heading: real, s: string, pow: (real, real) -> real)
    requires Telegram.IsValid(s) && Construct(x, y, heading, s, pow).Success?
    ensures IsIrSpot(Construct(x, y, heading, s, pow).value) <==> HasTag(s, SP.IR) && HasTag(s, SP.ID)
  {
    KeyPresent(x, y, heading, s, SP.IR, pow);
    KeyPresent(x, y, heading, s, SP.ID, pow);
    IrSpotKeys(Construct(x, y, heading, s, pow).value);
  }

  lemma IrSpotKeys(smp: Sample)
    ensures IsIrSpot(smp) <==> KeyOf(SP.IR) in smp.data && KeyOf(SP.ID) in smp.data
  {
    assert KeyOf(SP.IR) == "ir" && KeyOf(SP.ID) == "id";
  }

  /** getIrDirection throws on a constructed sample exactly when the telegram has no IR part. */
  lemma IrDirectionOfTelegram(x: real, y: real, heading: real, s: string, pow: (real, real) -> real)
    requires Telegram.IsValid(s) && Construct(x, y, heading, s, pow).Success?
    ensures IrDirection(Construct(x, y, heading, s, pow).value).Failure? <==> !HasTag(s, SP.IR)
  {
    KeyPresent(x, y, heading, s, SP.IR, pow);
    assert KeyOf(SP.IR) == "ir";
  }

  /** getSrSpot throws on a constructed sample exactly when the telegram has an SR part but no SD part. */
  lemma SrSpotOfTelegram(x: real, y: real, heading: real, s: string, maths: Numeric.Maths, pow: (real, real) -> real)
    requires Telegram.IsValid(s) && Construct(x, y, heading, s, pow).Success?
    ensures HasPose(Construct(x, y, heading, s, pow).value)
    ensures SrSpot(Construct(x, y, heading, s, pow).value, maths).Failure? <==> HasTag(s, SP.SR) && !HasTag(s, SP.SD)
  {
    ConstructPose(x, y, heading, s, pow);
    KeyPresent(x, y, heading, s, SP.SR, pow);
    KeyPresent(x, y, heading, s, SP.SD, pow);
    SrSpotKeys(Construct(x, y, heading, s, pow).value, maths);
  }

  lemma SrSpotKeys(smp: Sample, maths: Numeric.Maths)
    requires HasPose(smp)
    ensures SrSpot(smp, maths).Failure? <==> KeyOf(SP.SR) in smp.data && KeyOf(SP.SD) !in smp.data
  {
    assert KeyOf(SP.SR) == "sr" && KeyOf(SP.SD) == "sd";
  }

  /** getAcceleration as written throws on a constructed sample unless the telegram has all of AX, AY and AZ. */
  lemma AccelerationOfTelegram(x: real, y: real, heading: real, s: string, pow: (real, real) -> real)
    requires Telegram.IsValid(s) && Construct(x, y, heading, s, pow).Success?
    ensures AccelerationAsWritten(Construct(x, y, heading, s, pow).value).Failure? <==>
      !(HasTag(s, SP.AX) && HasTag(s, SP.AY) && HasTag(s, SP.AZ))
  {
    KeyPresent(x, y, heading, s, SP.AX, pow);
    KeyPresent(x, y, heading, s, SP.AY, pow);
    KeyPresent(x, y, heading, s, SP.AZ, pow);
    AccelerationKeys(Construct(x, y, heading, s, pow).value);
  }

  /** getAngularAcceleration as written throws on a constructed sample unless the telegram has all of GX, GY and GZ. */
  lemma AngularAccelerationOfTelegram(x: real, y: real, heading: real, s: string, pow: (real, real) -> real)
    requires Telegram.IsValid(s) && Construct(x, y, heading, s, pow).Success?
    ensures AngularAccelerationAsWritten(Construct(x, y, heading, s, pow).value).Failure? <==>
      !(HasTag(s, SP.GX) && HasTag(s, SP.GY) && HasTag(s, SP.GZ))
  {
    KeyPresent(x, y, heading, s, SP.GX, pow);
    KeyPresent(x, y, heading, s, SP.GY, pow);
    KeyPresent(x, y, heading, s, SP.GZ, pow);
    AngularAccelerationKeys(Construct(x, y, heading, s, pow).value);
  }

  lemma AccelerationKeys(smp: Sample)
    ensures AccelerationAsWritten(smp).Failure? <==>
      !(KeyOf(SP.AX) in smp.data && KeyOf(SP.AY) in smp.data && KeyOf(SP.AZ) in smp.data)
  {
    assert KeyOf(SP.AX) == "ax" && KeyOf(SP.AY) == "az" && KeyOf(SP.AZ) == "ay";
  }

  lemma AngularAccelerationKeys(smp: Sample)
    ensures AngularAccelerationAsWritten(smp).Failure? <==>
      !(KeyOf(SP.GX) in smp.data && KeyOf(SP.GY) in smp.data && KeyOf(SP.GZ) in smp.data)
  {
    assert KeyOf(SP.GX) == "gx" && KeyOf(SP.GY) == "gz" && KeyOf(SP.GZ) == "gy";
  }

  /** The empty telegram "STA;END;" constructs a sample holding only the pose. */
  lemma EmptyTelegramConstruct(x: real, y: real, heading: real, s: string, pow: (real, real) -> real)
    requires s == "STA;END;"
    ensures Construct(x, y, heading, s, pow) == Success(Sample(s, Pose(x, y, heading)))
  {
    SP.EmptyTelegramParts(s);
    MarkersFold(Pose(x, y, heading), SP.Parts(s), pow);
  }

  /** The two markers put nothing. */
  lemma MarkersFold(m: map<string, real>, parts: seq<string>, pow: (real, real) -> real)
    requires parts == ["STA", "END"]
    ensures Fold(m, parts, pow) == Success(m)
  {
    assert SP.TagOf(parts[0]) == SP.Marker && SP.TagOf(parts[1]) == SP.Marker;
    assert PartPuts(parts[0], pow) == Success([]) && PartPuts(parts[1], pow) == Success([]);
    assert Store(m, []) == m;
    assert Fold(m, parts[1..], pow) == Success(m) by { assert parts[1..][1..] == []; }
  }

  /** getAcceleration and getAngularAcceleration throw on the sample of the empty telegram. */
  lemma EmptyTelegramAcceleration(x: real, y: real, heading: real, s: string, pow: (real, real) -> real)
    requires s == "STA;END;"
    ensures Construct(x, y, heading, s, pow).Success?
    ensures AccelerationAsWritten(Construct(x, y, heading, s, pow).value) == Failure(ClassCast)
    ensures AngularAccelerationAsWritten(Construct(x, y, heading, s, pow).value) == Failure(ClassCast)
  {
    EmptyTelegramConstruct(x, y, heading, s, pow);
    var m := Pose(x, y, heading);
    assert "ax" !in m && "gx" !in m;
  }

  // ---------------------------------------------------------------------------
  // Agreement with raisa.comms.SampleParser
  // ---------------------------------------------------------------------------

  /** The tags both decoders turn into a reading with the same number and no range check. */
  predicate Shared(tag: SP.Tag) {
    tag == SP.IR || tag == SP.SR || tag == SP.CD || tag == SP.GX || tag == SP.GY || tag == SP.GZ
  }

  /** The Sample field the parser files a shared tag's reading under. */
  function ChannelOf(tag: SP.Tag): SP.Channel
    requires Shared(tag)
  {
    match tag
    case IR => SP.InfraredAngle
    case SR => SP.UltrasoundAngle
    case CD => SP.Compass
    case GX => SP.GyroX
    case GY => SP.GyroY
    case GZ => SP.GyroZ
  }

  /** What this decoder adds to the parser's reading: the compass is kept without the quarter-circle turn. */
  function OffsetOf(tag: SP.Tag): real {
    if tag == SP.CD then Numeric.PI / 2.0 else 0.0
  }

  /** On one part with a shared tag, the two decoders read the same number. */
  lemma PartAgrees(part: string, tag: SP.Tag, pow: (real, real) -> real)
    requires Shared(tag) && SP.TagOf(part) == tag
    requires PartPuts(part, pow).Success? && SP.PartEffect(part, pow).Success?
    ensures SP.PartEffect(part, pow).value.SetReading? && SP.PartEffect(part, pow).value.ch == ChannelOf(tag)
    ensures PartValue(part, KeyOf(tag), pow) == Some(SP.PartEffect(part, pow).value.v + OffsetOf(tag))
  {
    var value := Telegram.AfterTag(part);
    var v := Telegram.ParseInt(value).value;
    var ps := PartPuts(part, pow).value;
    var e := SP.PartEffect(part, pow).value;
    assert e == SP.EffectOf(tag, v, pow);
    if ReadsFloat(tag) {
      assert Telegram.ParseFloat(value) == Some(v as real);
      assert ps == FloatPuts(tag, v as real);
      FloatAgrees(tag, v, pow);
    } else {
      assert ps == IntPuts(tag, v, pow);
      IntAgrees(tag, v, pow);
    }
  }

  lemma FloatAgrees(tag: SP.Tag, v: int, pow: (real, real) -> real)
    requires Shared(tag) && ReadsFloat(tag)
    ensures var e := SP.EffectOf(tag, v, pow);
      LastPut(FloatPuts(tag, v as real), KeyOf(tag)) == Some(e.v) && e.SetReading? && e.ch == ChannelOf(tag)
  {
    LastPutOne(FloatPuts(tag, v as real)[0], KeyOf(tag));
  }

  lemma IntAgrees(tag: SP.Tag, v: int, pow: (real, real) -> real)
    requires Shared(tag) && ReadsInt(tag)
    ensures var e := SP.EffectOf(tag, v, pow);
      LastPut(IntPuts(tag, v, pow), KeyOf(tag)) == Some(e.v + OffsetOf(tag)) && e.SetReading? && e.ch == ChannelOf(tag)
  {
    var ps := IntPuts(tag, v, pow);
    if tag == SP.CD {
      LastPutTwo(ps[0], ps[1], "cd");
    } else {
      LastPutOne(ps[0], KeyOf(tag));
    }
  }

  /** The parser writes a shared tag's channel exactly for the parts with that tag. */
  lemma SharedWriters(part: string, tag: SP.Tag, pow: (real, real) -> real)
    requires Shared(tag) && SP.PartEffect(part, pow).Success?
    ensures SP.WritesChannel(part, ChannelOf(tag), pow) <==> SP.TagOf(part) == tag
  {
  }

  /**
   * The parts-level statement: the last part with a shared tag is the one both decoders
   * take their reading from.
   */
  lemma AgreeOnParts(parts: seq<string>, tag: SP.Tag, pow: (real, real) -> real)
    requires Shared(tag) && Puts(parts, pow).Success? && SP.Decode(parts, pow).Success?
    ensures var last, reading := LastPut(Puts(parts, pow).value, KeyOf(tag)), SP.LastReading(SP.Decode(parts, pow).value, ChannelOf(tag));
      && (last.Some? <==> reading.Some?)
      && (last.Some? ==> last.value == reading.value + OffsetOf(tag))
  {
    var es, ch := SP.Decode(parts, pow).value, ChannelOf(tag);
    var last := LastPut(Puts(parts, pow).value, KeyOf(tag));
    SP.DecodeParts(parts, pow);
    ReadingOfParts(parts, tag, pow);
    SP.LastReadingIsLast(es, ch);
    forall i | 0 <= i < |parts| ensures (es[i].SetReading? && es[i].ch == ch) <==> SP.TagOf(parts[i]) == tag {
      SharedWriters(parts[i], tag, pow);
    }
    if last.Some? {
      var i :| LastTagged(parts, tag, i) && PartValue(parts[i], KeyOf(tag), pow) == last;
      var reading := SP.LastReading(es, ch);
      assert es[i].SetReading? && es[i].ch == ch;
      assert reading.Some?;
      var i' :| 0 <= i' < |es| && es[i'] == SP.SetReading(ch, reading.value)
        && forall j :: i' < j < |es| ==> !(es[j].SetReading? && es[j].ch == ch);
      SameLastIndex(parts, es, tag, ch, i, i');
      PartAgrees(parts[i], tag, pow);
    }
  }

  /** When the effects that write `ch` are exactly the parts tagged `tag`, the last of each is at the same position. */
  lemma SameLastIndex(parts: seq<string>, es: seq<SP.Effect>, tag: SP.Tag, ch: SP.Channel, i: int, i': int)
    requires |es| == |parts|
    requires forall j :: 0 <= j < |parts| ==> ((es[j].SetReading? && es[j].ch == ch) <==> SP.TagOf(parts[j]) == tag)
    requires LastTagged(parts, tag, i)
    requires 0 <= i' < |es| && es[i'].SetReading? && es[i'].ch == ch
    requires forall j :: i' < j < |es| ==> !(es[j].SetReading? && es[j].ch == ch)
    ensures i == i'
  {
    assert SP.TagOf(parts[i']) == tag;
    assert es[i].SetReading? && es[i].ch == ch;
  }

  /**
   * When both decoders accept a telegram they agree on every shared reading: the same
   * infrared and ultrasound angles and gyroscope rates, the compass a quarter circle
   * apart, with the Y and Z gyroscope rates under each other's key here.
   */
  lemma AgreesWithParser(x: real, y: real, heading: real, s: string, tag: SP.Tag, pow: (real, real) -> real)
    requires Shared(tag) && Telegram.IsValid(s)
    requires Construct(x, y, heading, s, pow).Success? && SP.ParseSpec(s, pow).Success?
    ensures var data, reading := Construct(x, y, heading, s, pow).value.data, SP.ParseSpec(s, pow).value.Get(ChannelOf(tag));
      && (KeyOf(tag) in data <==> reading.Some?)
      && (KeyOf(tag) in data ==> data[KeyOf(tag)] == reading.value + OffsetOf(tag))
  {
    var parts, m, k := Parts(s), Pose(x, y, heading), KeyOf(tag);
    FoldIsPutsThenStore(m, parts, pow);
    assert k !in m;
    StoreLookup(m, Puts(parts, pow).value, k);
    SP.ParseCharacterization(s, pow);
    AgreeOnParts(parts, tag, pow);
  }
}
