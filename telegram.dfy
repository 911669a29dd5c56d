/**
 * The sensor telegram: its grammar `STA;([A-Z]+[-]?[0-9]+;)*END;[\n\r]*`,
 * Java's String.split on ';', StringUtils.substring and the two number parsers
 * the decoders apply to the text after a two-letter tag.
 */
module Telegram {
  import opened Wrappers
  import Numeric

  predicate IsUpper(c: char) { 'A' <= c <= 'Z' }
  predicate IsDigit(c: char) { '0' <= c <= '9' }
  predicate IsNewline(c: char) { c == '\n' || c == '\r' }

  predicate AllDigits(s: string) {
    forall i :: 0 <= i < |s| ==> IsDigit(s[i])
  }

  predicate AllNewlines(s: string) {
    forall i :: 0 <= i < |s| ==> IsNewline(s[i])
  }

  /** The number of upper-case letters at the start of `p`. */
  function UpperRun(p: string): (k: nat)
    ensures k <= |p|
    ensures forall i :: 0 <= i < k ==> IsUpper(p[i])
    ensures k < |p| ==> !IsUpper(p[k])
  {
    if |p| == 0 || !IsUpper(p[0]) then 0 else 1 + UpperRun(p[1..])
  }

  /** One field of a telegram, `[A-Z]+[-]?[0-9]+`. */
  predicate IsField(p: string) {
    var k := UpperRun(p);
    var rest := p[k..];
    && k >= 1
    && if |rest| > 0 && rest[0] == '-' then |rest| > 1 && AllDigits(rest[1..])
       else |rest| > 0 && AllDigits(rest)
  }

  // ---------------------------------------------------------------------------
  // Splitting on ';'
  // ---------------------------------------------------------------------------

  /** Every ';'-separated piece of `s`, empty pieces included. */
  function SplitAll(s: string): (ps: seq<string>)
    ensures |ps| >= 1
  {
    if |s| == 0 then [""]
    else
      var rest := SplitAll(s[1..]);
      if s[0] == ';' then [""] + rest else [[s[0]] + rest[0]] + rest[1..]
  }

  /** The inverse of SplitAll: the pieces glued back together with ';'. */
  function Join(ps: seq<string>): string
    requires |ps| >= 1
  {
    if |ps| == 1 then ps[0] else ps[0] + ";" + Join(ps[1..])
  }

  predicate NoSeparator(ps: seq<string>) {
    forall i :: 0 <= i < |ps| ==> ';' !in ps[i]
  }

  lemma {:induction false} SplitAllHasNoSeparator(s: string)
    ensures NoSeparator(SplitAll(s))
  {
    if |s| > 0 {
      SplitAllHasNoSeparator(s[1..]);
      var rest := SplitAll(s[1..]);
      if s[0] != ';' {
        assert ';' !in rest[0];
        var ps := SplitAll(s);
        forall i | 0 <= i < |ps| ensures ';' !in ps[i] {
          if i > 0 { assert ps[i] == rest[i]; }
        }
      }
    }
  }

  /** Gluing the pieces back gives the original string. */
  lemma {:induction false} JoinSplitAll(s: string)
    ensures Join(SplitAll(s)) == s
  {
    if |s| > 0 {
      JoinSplitAll(s[1..]);
      var rest := SplitAll(s[1..]);
      if s[0] == ';' {
        assert SplitAll(s) == [""] + rest;
        assert s == [';'] + s[1..];
      } else {
        var ps := SplitAll(s);
        if |rest| == 1 {
          assert ps == [[s[0]] + rest[0]];
        } else {
          assert ps[1..] == rest[1..];
          assert Join(rest) == rest[0] + ";" + Join(rest[1..]);
        }
        assert s == [s[0]] + s[1..];
      }
    }
  }

  /** Splitting pieces that hold no ';' after gluing them gives the pieces back. */
  lemma {:induction false} SplitAllJoin(ps: seq<string>)
    requires |ps| >= 1 && NoSeparator(ps)
    ensures SplitAll(Join(ps)) == ps
  {
    if |ps| == 1 {
      SplitAllOfPiece(ps[0]);
    } else {
      SplitAllJoin(ps[1..]);
      SplitAllConcat(ps[0], Join(ps[1..]));
    }
  }

  lemma {:induction false} SplitAllOfPiece(p: string)
    requires ';' !in p
    ensures SplitAll(p) == [p]
  {
    if |p| > 0 {
      assert ';' !in p[1..] by { assert forall i :: 0 <= i < |p[1..]| ==> p[1..][i] == p[i + 1]; }
      SplitAllOfPiece(p[1..]);
      assert p == [p[0]] + p[1..];
    }
  }

  lemma {:induction false} SplitAllConcat(p: string, t: string)
    requires ';' !in p
    ensures SplitAll(p + ";" + t) == [p] + SplitAll(t)
  {
    if |p| == 0 {
      assert p + ";" + t == [';'] + t;
      assert (p + ";" + t)[1..] == t;
    } else {
      assert ';' !in p[1..] by { assert forall i :: 0 <= i < |p[1..]| ==> p[1..][i] == p[i + 1]; }
      SplitAllConcat(p[1..], t);
      assert (p + ";" + t)[1..] == p[1..] + ";" + t;
      assert p == [p[0]] + p[1..];
    }
  }

  /** Java's `s.split("[;]")`: a string without ';' splits into itself; otherwise trailing empty pieces are dropped. */
  function JavaSplit(s: string): (ps: seq<string>)
    ensures |ps| <= |SplitAll(s)|
    ensures ps == SplitAll(s)[..|ps|]
  {
    if ';' !in s then SplitAllOfPiece(s); [s] else DropTrailingEmpty(SplitAll(s))
  }

  function DropTrailingEmpty(ps: seq<string>): (r: seq<string>)
    ensures |r| <= |ps| && r == ps[..|r|]
    ensures |r| > 0 ==> r[|r| - 1] != ""
    ensures forall i :: |r| <= i < |ps| ==> ps[i] == ""
  {
    if |ps| == 0 || ps[|ps| - 1] != "" then ps else DropTrailingEmpty(ps[..|ps| - 1])
  }

  // ---------------------------------------------------------------------------
  // The grammar
  // ---------------------------------------------------------------------------

  /**
   * `String.matches("STA;([A-Z]+[-]?[0-9]+;)*END;[\n\r]*")`, stated on the ';'-pieces:
   * "STA", then fields, then "END", then a piece of line breaks only.
   */
  predicate IsValid(s: string) {
    var ps := SplitAll(s);
    && |ps| >= 3
    && ps[0] == "STA"
    && ps[|ps| - 2] == "END"
    && AllNewlines(ps[|ps| - 1])
    && forall i :: 1 <= i < |ps| - 2 ==> IsField(ps[i])
  }

  /** The concatenation the regular expression describes: "STA;" (field ";")* "END;" line breaks. */
  function Compose(fields: seq<string>, tail: string): string {
    "STA;" + FieldList(fields) + "END;" + tail
  }

  function FieldList(fields: seq<string>): string {
    if fields == [] then "" else fields[0] + ";" + FieldList(fields[1..])
  }

  predicate AllFields(fields: seq<string>) {
    forall i :: 0 <= i < |fields| ==> IsField(fields[i])
  }

  lemma {:induction false} FieldListJoin(fields: seq<string>, t: string)
    ensures FieldList(fields) + t == Join(fields + [t])
  {
    if fields != [] {
      FieldListJoin(fields[1..], t);
      assert (fields + [t])[1..] == fields[1..] + [t];
    }
  }

  lemma ComposeIsJoin(fields: seq<string>, tail: string)
    ensures Compose(fields, tail) == Join(["STA"] + fields + ["END", tail])
  {
    FieldListJoin(fields, "END;" + tail);
    assert Join(["END", tail]) == "END" + ";" + tail;
    FieldListJoin(fields + ["END"], tail);
    assert FieldList(fields + ["END"]) == FieldList(fields) + "END;" by {
      FieldListSnoc(fields, "END");
    }
    assert ["STA"] + fields + ["END", tail] == ["STA"] + ((fields + ["END"]) + [tail]);
    assert Join(["STA"] + ((fields + ["END"]) + [tail])) == "STA" + ";" + Join((fields + ["END"]) + [tail]);
  }

  lemma {:induction false} FieldListSnoc(fields: seq<string>, f: string)
    ensures FieldList(fields + [f]) == FieldList(fields) + f + ";"
  {
    if fields != [] {
      FieldListSnoc(fields[1..], f);
      assert (fields + [f])[1..] == fields[1..] + [f];
    } else {
      assert FieldList([f]) == f + ";" + FieldList([]);
    }
  }

  lemma FieldHasNoSeparator(p: string)
    requires IsField(p)
    ensures ';' !in p
  {
    var k := UpperRun(p);
    forall i | 0 <= i < |p| ensures p[i] != ';' {
      if i >= k { assert p[i] == p[k..][i - k]; }
    }
  }

  lemma NewlinesHaveNoSeparator(p: string)
    requires AllNewlines(p)
    ensures ';' !in p
  {
  }

  /** Every composition of fields and trailing line breaks is a valid telegram. */
  lemma ComposeIsValid(fields: seq<string>, tail: string)
    requires AllFields(fields) && AllNewlines(tail)
    ensures IsValid(Compose(fields, tail))
    ensures SplitAll(Compose(fields, tail)) == ["STA"] + fields + ["END", tail]
  {
    var ps := ["STA"] + fields + ["END", tail];
    forall i | 0 <= i < |ps| ensures ';' !in ps[i] {
      if 1 <= i < |ps| - 2 { FieldHasNoSeparator(ps[i]); }
    }
    ComposeIsJoin(fields, tail);
    SplitAllJoin(ps);
  }

  /** Every valid telegram is such a composition; together with ComposeIsValid this is the whole grammar. */
  lemma ValidIsCompose(s: string)
    requires IsValid(s)
    ensures var ps := SplitAll(s);
      && AllFields(ps[1..|ps| - 2])
      && AllNewlines(ps[|ps| - 1])
      && s == Compose(ps[1..|ps| - 2], ps[|ps| - 1])
  {
    var ps := SplitAll(s);
    var fields, tail := ps[1..|ps| - 2], ps[|ps| - 1];
    assert ps == ["STA"] + fields + ["END", tail];
    ComposeIsJoin(fields, tail);
    JoinSplitAll(s);
  }

  /** What the decoders loop over for a valid telegram: "STA", the fields, "END", and the line breaks if any. */
  lemma JavaSplitOfValid(s: string)
    requires IsValid(s)
    ensures var ps := SplitAll(s);
      JavaSplit(s) == if ps[|ps| - 1] == "" then ps[..|ps| - 1] else ps
  {
    var ps := SplitAll(s);
    JoinSplitAll(s);
    assert ';' in s by {
      assert Join(ps) == ps[0] + ";" + Join(ps[1..]);
      assert s[3] == ';';
    }
    if ps[|ps| - 1] == "" {
      assert DropTrailingEmpty(ps) == DropTrailingEmpty(ps[..|ps| - 1]);
      assert ps[..|ps| - 1][|ps| - 2] == "END";
    }
  }

  /** The pieces the decoders loop over, read off the composition. */
  lemma JavaSplitOfCompose(fields: seq<string>, tail: string)
    requires AllFields(fields) && AllNewlines(tail)
    ensures JavaSplit(Compose(fields, tail)) ==
      ["STA"] + fields + ["END"] + (if tail == "" then [] else [tail])
  {
    var ps := ["STA"] + fields + ["END", tail];
    ComposeIsValid(fields, tail);
    JavaSplitOfValid(Compose(fields, tail));
    if tail == "" {
      assert ps[..|ps| - 1] == ["STA"] + fields + ["END"];
    }
  }

  /** The empty telegram is valid. */
  lemma EmptyTelegramIsValid()
    ensures IsValid("STA;END;")
  {
    ComposeIsValid([], "");
    assert Compose([], "") == "STA;END;";
  }

  /** A record that stops before "END;" is not. */
  lemma UnterminatedTelegramIsInvalid()
    ensures !IsValid("STA;IR5;")
  {
    SplitAllJoin(["STA", "IR5", ""]);
    assert Join(["STA", "IR5", ""]) == "STA;IR5;";
  }

  lemma UnsignedFieldExample(p: string)
    requires p == "IR90"
    ensures IsField(p)
  {
    assert |p| == 4 && p[0] == 'I' && p[1] == 'R' && p[2] == '9';
    assert UpperRun(p) == 2;
    assert p[2..] == "90";
  }

  lemma SignedFieldExample(p: string)
    requires p == "ID-300"
    ensures IsField(p)
  {
    assert |p| == 6 && p[0] == 'I' && p[1] == 'D' && p[2] == '-';
    assert UpperRun(p) == 2;
    assert p[2..] == "-300" && p[3..] == "300";
  }

  lemma SignedTelegramCompose(s: string, fs: seq<string>)
    requires s == "STA;IR90;ID-300;END;\r\n" && fs == ["IR90", "ID-300"]
    ensures s == Compose(fs, "\r\n")
  {
    var rest := fs[1..];
    assert rest == ["ID-300"] && rest[1..] == [];
    assert FieldList(rest) == "ID-300" + ";" + FieldList([]);
    assert FieldList(fs) == "IR90" + ";" + FieldList(rest);
    assert FieldList(fs) == "IR90;ID-300;";
  }

  /** Fields with and without a sign, followed by a CR LF. */
  lemma SignedFieldsAreValid(s: string)
    requires s == "STA;IR90;ID-300;END;\r\n"
    ensures IsValid(s)
  {
    var fs := ["IR90", "ID-300"];
    UnsignedFieldExample(fs[0]);
    SignedFieldExample(fs[1]);
    SignedTelegramCompose(s, fs);
    ComposeIsValid(fs, "\r\n");
  }

  // ---------------------------------------------------------------------------
  // The text after the tag, and the two number parsers
  // ---------------------------------------------------------------------------

  predicate StartsWith(s: string, prefix: string) {
    |prefix| <= |s| && s[..|prefix|] == prefix
  }

  /** `StringUtils.substring(part, 2)`: everything after the first two characters, or "" for shorter strings. */
  function AfterTag(part: string): (v: string)
    ensures |part| >= 2 ==> part == part[..2] + v
    ensures |part| < 2 ==> v == ""
  {
    if |part| >= 2 then part[2..] else ""
  }

  /** The value of a string of decimal digits, most significant first. */
  function DigitsValue(ds: string): (n: nat)
    requires AllDigits(ds)
  {
    if |ds| == 0 then 0
    else DigitsValue(ds[..|ds| - 1]) * 10 + (ds[|ds| - 1] as int - '0' as int)
  }

  function Pow10(n: nat): (p: nat)
    ensures p >= 1
  {
    if n == 0 then 1 else 10 * Pow10(n - 1)
  }

  /** A digit string is worth at least its leading digit times the place value of that digit. */
  lemma {:induction false} DigitsValueLeadingDigit(ds: string)
    requires |ds| > 0 && AllDigits(ds)
    ensures DigitsValue(ds) >= (ds[0] as int - '0' as int) * Pow10(|ds| - 1)
    decreases |ds|
  {
    if |ds| > 1 {
      var p := ds[..|ds| - 1];
      assert p[0] == ds[0];
      assert AllDigits(p);
      DigitsValueLeadingDigit(p);
      var last := ds[|ds| - 1] as int - '0' as int;
      assert DigitsValue(ds) == DigitsValue(p) * 10 + last;
      assert Pow10(|ds| - 1) == 10 * Pow10(|p| - 1);
      ShiftPlace(ds[0] as int - '0' as int, Pow10(|p| - 1), DigitsValue(p), last);
    }
  }

  /** Appending a digit multiplies a lower bound of the form d * q by ten. */
  lemma ShiftPlace(d: int, q: int, v: int, last: int)
    requires v >= d * q && last >= 0
    ensures v * 10 + last >= d * (10 * q)
  {
    assert d * (10 * q) == (d * q) * 10;
  }

  /** An optionally signed decimal integer `[+-]?[0-9]+`, with no width limit; None for any other text. */
  function ParseDecimal(s: string): (r: Option<int>)
    ensures r.Some? <==> |s| > 0 && (if s[0] == '-' || s[0] == '+' then |s| > 1 && AllDigits(s[1..]) else AllDigits(s))
  {
    if |s| == 0 then None
    else if s[0] == '-' || s[0] == '+' then
      if |s| > 1 && AllDigits(s[1..]) then
        var n: int := DigitsValue(s[1..]);
        Some(if s[0] == '-' then -n else n)
      else None
    else if AllDigits(s) then Some(DigitsValue(s))
    else None
  }

  /** `Integer.parseInt`: a decimal integer that fits in 32 bits, or NumberFormatException (None). */
  function ParseInt(s: string): (r: Option<int>)
    ensures r.Some? ==> Numeric.InInt32(r.value) && ParseDecimal(s) == r
    ensures r.None? ==> ParseDecimal(s).None? || !Numeric.InInt32(ParseDecimal(s).value)
  {
    match ParseDecimal(s)
    case Some(n) => if Numeric.InInt32(n) then Some(n) else None
    case None => None
  }

  /**
   * `Float.parseFloat` on the text that follows a two-letter tag in a valid telegram:
   * that text is either `-?[0-9]+` or starts with an upper-case letter, which Java rejects.
   */
  function ParseFloat(s: string): (r: Option<real>)
    ensures r.Some? <==> ParseDecimal(s).Some?
    ensures r.Some? ==> r.value == ParseDecimal(s).value as real
  {
    match ParseDecimal(s)
    case Some(n) => Some(n as real)
    case None => None
  }

  /** The text after the first two letters of a field's tag parses exactly when the tag has no third letter. */
  lemma FieldValue(p: string)
    requires IsField(p) && UpperRun(p) >= 2
    ensures ParseDecimal(AfterTag(p)).Some? <==> UpperRun(p) == 2
  {
    var k := UpperRun(p);
    var v := AfterTag(p);
    if k > 2 {
      assert v[0] == p[2];
      assert IsUpper(v[0]);
    } else {
      assert v == p[k..];
    }
  }
}
