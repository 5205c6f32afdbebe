/** The bytes of AMF0 values. */
module Amf0Wire {
  // Every spelling that the decoder accepts is covered.  The format is stated by a walk over the
  // value, which says where a value that stands at a position ends; the decoder walks over the data.
  // The two agree on every byte string.

  import opened Wrappers
  import opened Positions
  import opened Amf0

  // ---------------------------------------------------------------- the format

  predicate Length16(data: seq<byte>, p: nat, n: nat) {
    p + 2 <= |data| && var a: nat, b: nat := data[p], data[p + 1]; n == 0x100 * a + b
  }

  predicate Length32(data: seq<byte>, p: nat, n: nat) {
    p + 4 <= |data|
    && var a: nat, b: nat, c: nat, d: nat := data[p], data[p + 1], data[p + 2], data[p + 3];
       n == 0x100_0000 * a + 0x1_0000 * b + 0x100 * c + d
  }

  predicate MarkerAt(data: seq<byte>, p: nat, marker: byte) {
    p < |data| && data[p] == marker
  }

  /** The empty key and the marker that end an object. */
  predicate Ends(data: seq<byte>, p: nat) {
    p + 3 <= |data| && data[p..p + 3] == [0x00, 0x00, 0x09]
  }

  /** Where the text ends that stands at `p`. */
  function EndOfText(utf8: seq<byte> -> bool, data: seq<byte>, p: nat, text: seq<byte>): Option<nat> {
    if p + |text| <= |data| && data[p..p + |text|] == text && utf8(text) then Some(p + |text|) else None
  }

  /** Where the value ends that stands at `p`; None if it does not stand there. */
  function EndOf(utf8: seq<byte> -> bool, data: seq<byte>, p: nat, v: Value): Option<nat>
    decreases v, 1
  {
    match v
    case Number(bits) =>
      if MarkerAt(data, p, 0x00) && p + 9 <= |data| && data[p + 1..p + 9] == bits then Some(p + 9) else None
    case Boolean(flag) =>
      if MarkerAt(data, p, 0x01) && p + 2 <= |data| && flag == (data[p + 1] != 0) then Some(p + 2) else None
    case String(text) =>
      if MarkerAt(data, p, 0x02) && Length16(data, p + 1, |text|) then EndOfText(utf8, data, p + 3, text) else None
    case Object(properties) =>
      if MarkerAt(data, p, 0x03) then
        var q :- EndOfProperties(utf8, data, p + 1, properties, true);
        if Ends(data, q) then Some(q + 3) else None
      else if MarkerAt(data, p, 0x08) && Length32(data, p + 1, |properties|) then
        var q :- EndOfProperties(utf8, data, p + 5, properties, false);
        Some(if Ends(data, q) then q + 3 else q)
      else None
    case Null => if MarkerAt(data, p, 0x05) then Some(p + 1) else None
    case ObjectEnd => None
    case LongString(text) =>
      if MarkerAt(data, p, 0x0c) && Length32(data, p + 1, |text|) then EndOfText(utf8, data, p + 5, text) else None
  }

  function EndOfProperty(utf8: seq<byte> -> bool, data: seq<byte>, p: nat, property: Property): Option<nat>
    decreases property, 2
  {
    if Length16(data, p, |property.key|) then
      var q :- EndOfText(utf8, data, p + 2, property.key);
      EndOf(utf8, data, q, property.value)
    else None
  }

  /** The properties of an object may not start where the object ends. */
  function EndOfProperties(utf8: seq<byte> -> bool, data: seq<byte>, p: nat, ps: seq<Property>, closed: bool): Option<nat>
    decreases ps, 0
  {
    if ps == [] then Some(p)
    else if closed && Ends(data, p) then None
    else
      var q :- EndOfProperty(utf8, data, p, ps[0]);
      EndOfProperties(utf8, data, q, ps[1..], closed)
  }

  // ---------------------------------------------------------------- parts that both walks read

  lemma LengthsAre(data: seq<byte>, p: nat, n: nat)
    ensures Length16(data, p, n) <==> p + 2 <= |data| && U16(data, p) == n
    ensures Length32(data, p, n) <==> p + 4 <= |data| && U32(data, p) == n
  {
  }

  lemma EndsAre(data: seq<byte>, p: nat)
    ensures Ends(data, p) <==> EndMarkerAt(data, p)
  {
    if p + 3 <= |data| {
      assert data[p..p + 3] == [data[p], data[p + 1], data[p + 2]];
    }
  }

  lemma TextIs(utf8: seq<byte> -> bool, data: seq<byte>, p: nat, text: seq<byte>, q: nat)
    ensures DecodeText(utf8, data, p, |text|) == Ok((text, q)) <==> EndOfText(utf8, data, p, text) == Some(q)
  {
  }

  lemma StringIs(utf8: seq<byte> -> bool, data: seq<byte>, p: nat, text: seq<byte>, q: nat)
    ensures DecodeString(utf8, data, p) == Ok((text, q))
       <==> Length16(data, p, |text|) && EndOfText(utf8, data, p + 2, text) == Some(q)
  {
    LengthsAre(data, p, |text|);
    TextIs(utf8, data, p + 2, text, q);
  }

  // ---------------------------------------------------------------- what is decoded stands there

  lemma {:induction false} DecodedStands(utf8: seq<byte> -> bool, data: seq<byte>, p: nat)
    requires DecodeValue(utf8, data, p).Ok?
    ensures var (v, q) := DecodeValue(utf8, data, p).value; EndOf(utf8, data, p, v) == Some(q)
    decreases |data| - p, 1
  {
    var (v, q) := DecodeValue(utf8, data, p).value;
    if data[p] == 2 {
      StringIs(utf8, data, p + 1, v.text, q);
    } else if data[p] == 3 {
      PropertiesStand(utf8, data, p + 1);
    } else if data[p] == 8 {
      EcmaArrayStands(utf8, data, p);
    } else if data[p] == 12 {
      LengthsAre(data, p + 1, U32(data, p + 1));
      TextIs(utf8, data, p + 5, v.text, q);
    }
  }

  lemma {:induction false} EcmaArrayStands(utf8: seq<byte> -> bool, data: seq<byte>, p: nat)
    requires DecodeValue(utf8, data, p).Ok? && data[p] == 8
    ensures var (v, q) := DecodeValue(utf8, data, p).value; EndOf(utf8, data, p, v) == Some(q)
    decreases |data| - p, 0
  {
    var n := U32(data, p + 1);
    LengthsAre(data, p + 1, n);
    CountedStands(utf8, data, p + 5, n);
    EndsAre(data, DecodeCounted(utf8, data, p + 5, n).value.1);
  }

  lemma {:induction false} PropertyStands(utf8: seq<byte> -> bool, data: seq<byte>, p: nat)
    requires DecodeProperty(utf8, data, p).Ok?
    ensures var (property, q) := DecodeProperty(utf8, data, p).value; EndOfProperty(utf8, data, p, property) == Some(q)
    decreases |data| - p, 2
  {
    var (key, m) := DecodeString(utf8, data, p).value;
    StringIs(utf8, data, p, key, m);
    DecodedStands(utf8, data, m);
  }

  lemma {:induction false} PropertiesStand(utf8: seq<byte> -> bool, data: seq<byte>, p: nat)
    requires DecodeProperties(utf8, data, p).Ok?
    ensures var (ps, q) := DecodeProperties(utf8, data, p).value;
            q >= 3 && EndOfProperties(utf8, data, p, ps, true) == Some(q - 3) && Ends(data, q - 3)
    decreases |data| - p, 3
  {
    EndsAre(data, p);
    if !EndMarkerAt(data, p) {
      PropertyStands(utf8, data, p);
      PropertiesStand(utf8, data, DecodeProperty(utf8, data, p).value.1);
    }
  }

  lemma {:induction false} CountedStands(utf8: seq<byte> -> bool, data: seq<byte>, p: nat, n: nat)
    requires p <= |data| && DecodeCounted(utf8, data, p, n).Ok?
    ensures var (ps, q) := DecodeCounted(utf8, data, p, n).value;
            |ps| == n && EndOfProperties(utf8, data, p, ps, false) == Some(q)
    decreases |data| - p, 3
  {
    if n > 0 {
      PropertyStands(utf8, data, p);
      CountedStands(utf8, data, DecodeProperty(utf8, data, p).value.1, n - 1);
    }
  }

  // ---------------------------------------------------------------- what stands there is decoded

  lemma {:induction false} StandingIsDecoded(utf8: seq<byte> -> bool, data: seq<byte>, p: nat, v: Value, q: nat)
    requires EndOf(utf8, data, p, v) == Some(q)
    ensures DecodeValue(utf8, data, p) == Ok((v, q))
    decreases v, 1
  {
    match v
    case Number(bits) =>
    case Boolean(flag) =>
    case String(text) => StringIs(utf8, data, p + 1, text, q);
    case Object(properties) => ObjectIsDecoded(utf8, data, p, properties, q);
    case Null =>
    case LongString(text) =>
      LengthsAre(data, p + 1, |text|);
      TextIs(utf8, data, p + 5, text, q);
  }

  lemma {:induction false} ObjectIsDecoded(utf8: seq<byte> -> bool, data: seq<byte>, p: nat, ps: seq<Property>, q: nat)
    requires EndOf(utf8, data, p, Object(ps)) == Some(q)
    ensures DecodeValue(utf8, data, p) == Ok((Object(ps), q))
    decreases ps, 4
  {
    if data[p] == 3 {
      PropertiesAreDecoded(utf8, data, p + 1, ps, EndOfProperties(utf8, data, p + 1, ps, true).value);
    } else {
      var m := EndOfProperties(utf8, data, p + 5, ps, false).value;
      LengthsAre(data, p + 1, |ps|);
      CountedAreDecoded(utf8, data, p + 5, ps, m);
      EndsAre(data, m);
    }
  }

  lemma {:induction false} PropertyIsDecoded(utf8: seq<byte> -> bool, data: seq<byte>, p: nat, property: Property, q: nat)
    requires EndOfProperty(utf8, data, p, property) == Some(q)
    ensures DecodeProperty(utf8, data, p) == Ok((property, q))
    decreases property, 2
  {
    var m := EndOfText(utf8, data, p + 2, property.key).value;
    StringIs(utf8, data, p, property.key, m);
    StandingIsDecoded(utf8, data, m, property.value, q);
  }

  lemma {:induction false} PropertiesAreDecoded(utf8: seq<byte> -> bool, data: seq<byte>, p: nat, ps: seq<Property>, q: nat)
    requires EndOfProperties(utf8, data, p, ps, true) == Some(q) && Ends(data, q)
    ensures DecodeProperties(utf8, data, p) == Ok((ps, q + 3))
    decreases ps, 3
  {
    EndsAre(data, p);
    if ps != [] {
      var m := EndOfProperty(utf8, data, p, ps[0]).value;
      PropertyIsDecoded(utf8, data, p, ps[0], m);
      PropertiesAreDecoded(utf8, data, m, ps[1..], q);
      assert [ps[0]] + ps[1..] == ps;
    }
  }

  lemma {:induction false} CountedAreDecoded(utf8: seq<byte> -> bool, data: seq<byte>, p: nat, ps: seq<Property>, q: nat)
    requires p <= |data| && EndOfProperties(utf8, data, p, ps, false) == Some(q)
    ensures DecodeCounted(utf8, data, p, |ps|) == Ok((ps, q))
    decreases ps, 3
  {
    if ps != [] {
      var m := EndOfProperty(utf8, data, p, ps[0]).value;
      PropertyIsDecoded(utf8, data, p, ps[0], m);
      CountedAreDecoded(utf8, data, m, ps[1..], q);
      assert [ps[0]] + ps[1..] == ps;
    }
  }

  // ---------------------------------------------------------------- main results

  /** The decoder accepts exactly the format: at any position of any data it yields `v` and stops at
      `q` if and only if `v` stands there and ends at `q`. */
  lemma DecodesExactlyWhatStands(utf8: seq<byte> -> bool, data: seq<byte>, p: nat, v: Value, q: nat)
    ensures DecodeValue(utf8, data, p) == Ok((v, q)) <==> EndOf(utf8, data, p, v) == Some(q)
  {
    if EndOf(utf8, data, p, v) == Some(q) {
      StandingIsDecoded(utf8, data, p, v, q);
    }
    if DecodeValue(utf8, data, p) == Ok((v, q)) {
      DecodedStands(utf8, data, p);
    }
  }

  /** The markers that have no decoder, and the bytes that are no markers. */
  lemma BadMarkers(utf8: seq<byte> -> bool, data: seq<byte>, p: nat)
    ensures p >= |data| ==> DecodeValue(utf8, data, p) == Err(Truncated)
    ensures p < |data| && data[p] in {4, 6, 7, 9, 10, 11, 13, 14, 15, 16, 17} ==>
              DecodeValue(utf8, data, p) == Err(UnsupportedMarker(data[p]))
    ensures p < |data| && data[p] > 17 ==> DecodeValue(utf8, data, p) == Err(UnknownMarker(data[p]))
  {
  }

  /** Which failure a string is: no length, contents past the end of the data, or no valid text. */
  lemma BadStrings(utf8: seq<byte> -> bool, data: seq<byte>, p: nat, n: nat)
    ensures p + 2 > |data| ==> DecodeString(utf8, data, p) == Err(Truncated)
    ensures Length16(data, p, n) && p + 2 + n > |data| ==> DecodeString(utf8, data, p) == Err(OutOfRange)
    ensures Length16(data, p, n) && p + 2 + n <= |data| && !utf8(data[p + 2..p + 2 + n]) ==>
              DecodeString(utf8, data, p) == Err(NotUtf8)
  {
    LengthsAre(data, p, n);
  }

  // ---------------------------------------------------------------- ECMA arrays and long strings

  /** Four big-endian digits. */
  function Digits32(n: nat): seq<byte> {
    [n / 0x100_0000 % 0x100, n / 0x1_0000 % 0x100, n / 0x100 % 0x100, n % 0x100]
  }

  lemma DigitsAddUp(n: nat)
    requires n < 0x1_0000_0000
    ensures n == 0x100_0000 * (n / 0x100_0000 % 0x100) + 0x1_0000 * (n / 0x1_0000 % 0x100) + 0x100 * (n / 0x100 % 0x100) + n % 0x100
  {
    assert n / 0x100 / 0x100 == n / 0x1_0000;
    assert n / 0x1_0000 / 0x100 == n / 0x100_0000 < 0x100;
  }

  lemma DigitsAt(data: seq<byte>, p: nat, n: nat)
    requires n < 0x1_0000_0000 && At(data, p, Digits32(n))
    ensures Length32(data, p, n)
  {
    DigitsAddUp(n);
    assert data[p + 0] == ItemOf(Digits32(n), 0) && data[p + 1] == ItemOf(Digits32(n), 1);
    assert data[p + 2] == ItemOf(Digits32(n), 2) && data[p + 3] == ItemOf(Digits32(n), 3);
  }

  /** A marker, a 32-bit number and what follows. */
  lemma HeadStands(data: seq<byte>, p: nat, marker: byte, n: nat, rest: seq<byte>)
    requires n < 0x1_0000_0000 && At(data, p, [marker] + (Digits32(n) + rest))
    ensures MarkerAt(data, p, marker) && Length32(data, p + 1, n) && At(data, p + 5, rest)
  {
    assert data[p + 0] == ItemOf([marker] + (Digits32(n) + rest), 0);
    AtSplit(data, p, [marker], Digits32(n) + rest);
    AtSplit(data, p + 1, Digits32(n), rest);
    DigitsAt(data, p + 1, n);
  }

  lemma {:induction false} EncodedPropertiesStand(utf8: seq<byte> -> bool, data: seq<byte>, p: nat, ps: seq<Property>)
    requires CleanProperties(utf8, ps) && EncodeProperties(ps).Ok? && At(data, p, EncodeProperties(ps).value)
    ensures EndOfProperties(utf8, data, p, ps, false) == Some(p + |EncodeProperties(ps).value|)
    decreases ps
  {
    if ps != [] {
      var first, rest := EncodeProperty(ps[0]).value, EncodeProperties(ps[1..]).value;
      AtSplit(data, p, first, rest);
      PropertyBack(utf8, data, p, ps[0]);
      PropertyStands(utf8, data, p);
      EncodedPropertiesStand(utf8, data, p + |first|, ps[1..]);
    }
  }

  lemma EcmaArrayEnds(utf8: seq<byte> -> bool, data: seq<byte>, p: nat, ps: seq<Property>, q: nat)
    requires MarkerAt(data, p, 0x08) && Length32(data, p + 1, |ps|)
    requires EndOfProperties(utf8, data, p + 5, ps, false) == Some(q)
    ensures EndOf(utf8, data, p, Object(ps)) == Some(if Ends(data, q) then q + 3 else q)
  {
  }

  /** An ECMA array is decoded to its properties, and an end marker behind it is consumed. */
  lemma EcmaArrayIsDecoded(utf8: seq<byte> -> bool, data: seq<byte>, p: nat, ps: seq<Property>)
    requires CleanProperties(utf8, ps) && EncodeProperties(ps).Ok? && |ps| < 0x1_0000_0000
    requires At(data, p, [0x08] + (Digits32(|ps|) + EncodeProperties(ps).value))
    ensures var q := p + 5 + |EncodeProperties(ps).value|;
            DecodeValue(utf8, data, p) == Ok((Object(ps), if Ends(data, q) then q + 3 else q))
  {
    var q := p + 5 + |EncodeProperties(ps).value|;
    HeadStands(data, p, 0x08, |ps|, EncodeProperties(ps).value);
    EncodedPropertiesStand(utf8, data, p + 5, ps);
    EcmaArrayEnds(utf8, data, p, ps, q);
    ObjectIsDecoded(utf8, data, p, ps, if Ends(data, q) then q + 3 else q);
  }

  /** A long string is decoded, although the encoder does not write any. */
  lemma LongStringIsDecoded(utf8: seq<byte> -> bool, data: seq<byte>, p: nat, text: seq<byte>)
    requires utf8(text) && |text| < 0x1_0000_0000 && At(data, p, [0x0c] + (Digits32(|text|) + text))
    ensures DecodeValue(utf8, data, p) == Ok((LongString(text), p + 5 + |text|))
  {
    HeadStands(data, p, 0x0c, |text|, text);
    AtSlice(data, p + 5, text);
    StandingIsDecoded(utf8, data, p, LongString(text), p + 5 + |text|);
  }

  // ---------------------------------------------------------------- what the encoder writes

  /** The encoder writes one spelling: true as 1, objects with the object marker and the end marker,
      and a key behind the last 16 bits of its length; it has none for the other values. */
  lemma EncodedSpelling(v: Value, property: Property)
    ensures v.ObjectEnd? ==> Encode(v) == Err(UnsupportedValue(0x09))
    ensures v.LongString? ==> Encode(v) == Err(UnsupportedValue(0x0c))
    ensures v.String? && |v.text| >= 0x1_0000 ==> Encode(v) == Err(StringTooLong)
    ensures Encode(v).Ok? && v.Boolean? ==> Encode(v).value == [0x01, if v.flag then 1 else 0]
    ensures Encode(v).Ok? && v.Object? ==>
              var bytes := Encode(v).value; |bytes| >= 4 && bytes[0] == 0x03 && bytes[|bytes| - 3..] == [0x00, 0x00, 0x09]
    ensures EncodeProperty(property).Ok? ==>
              && Encode(property.value).Ok?
              && var bytes, n := EncodeProperty(property).value, |property.key|;
                 && |bytes| >= 2 && Length16(bytes, 0, n % 0x1_0000)
                 && bytes[2..] == property.key + Encode(property.value).value
  {
  }
}
