/** AMF0 values, their encoding and their decoding (crates/amf0). */
module Amf0 {
  // The formats are those of sections 2.2 to 2.7 of the AMF0 specification.  A number is its eight
  // bytes; UTF-8 validity is a parameter.

  import opened Wrappers
  import opened Positions
  import Bits

  type byte = Bits.byte

  /** The big-endian bytes of an `f64`. */
  type Double = s: seq<byte> | |s| == 8 witness [0, 0, 0, 0, 0, 0, 0, 0]

  datatype Value =
    | Number(bits: Double)
    | Boolean(flag: bool)
    | String(text: seq<byte>)
    | Object(properties: seq<Property>)
    | Null
    | ObjectEnd
    | LongString(text: seq<byte>)

  datatype Property = Property(key: seq<byte>, value: Value)

  /** `OutOfRange` is the panic of a slice past the end of the data. */
  datatype ReadError = UnknownMarker(marker: byte) | UnsupportedMarker(marker: byte) | Truncated | OutOfRange | NotUtf8

  datatype WriteError = StringTooLong | UnsupportedValue(marker: byte)

  const MAX_U16 := 0xffff

  // ---------------------------------------------------------------- encoding

  function Big16(n: nat): (r: seq<byte>)
    ensures |r| == 2
  {
    [n / 256 % 256, n % 256]
  }

  function EndMarker(): seq<byte> {
    [0, 0, 9]
  }

  function Encode(v: Value): Result<seq<byte>, WriteError> {
    match v
    case Number(bits) => Ok([0] + bits)
    case Boolean(flag) => Ok([1, if flag then 1 else 0])
    case String(text) => if |text| > MAX_U16 then Err(StringTooLong) else Ok([2] + (Big16(|text|) + text))
    case Object(properties) =>
      var bytes :- EncodeProperties(properties);
      Ok([3] + (bytes + EndMarker()))
    case Null => Ok([5])
    case ObjectEnd => Err(UnsupportedValue(9))
    case LongString(_) => Err(UnsupportedValue(12))
  }

  /** The length of a key is cast to `u16` without a check. */
  function EncodeProperty(p: Property): Result<seq<byte>, WriteError> {
    var bytes :- Encode(p.value);
    Ok(Big16(|p.key|) + (p.key + bytes))
  }

  function EncodeProperties(ps: seq<Property>): Result<seq<byte>, WriteError> {
    if ps == [] then Ok([])
    else
      var first :- EncodeProperty(ps[0]);
      var rest :- EncodeProperties(ps[1..]);
      Ok(first + rest)
  }

  function EncodeAll(vs: seq<Value>): Result<seq<byte>, WriteError> {
    if vs == [] then Ok([])
    else
      var first :- Encode(vs[0]);
      var rest :- EncodeAll(vs[1..]);
      Ok(first + rest)
  }

  // ---------------------------------------------------------------- decoding

  function U16(data: seq<byte>, p: nat): nat
    requires p + 2 <= |data|
  {
    var high: nat, low: nat := data[p], data[p + 1];
    256 * high + low
  }

  function U32(data: seq<byte>, p: nat): nat
    requires p + 4 <= |data|
  {
    0x1_0000 * U16(data, p) + U16(data, p + 2)
  }

  predicate EndMarkerAt(data: seq<byte>, p: nat) {
    p + 3 <= |data| && data[p] == 0 && data[p + 1] == 0 && data[p + 2] == 9
  }

  /** `n` bytes of text. */
  function DecodeText(utf8: seq<byte> -> bool, data: seq<byte>, p: nat, n: nat): Result<(seq<byte>, nat), ReadError> {
    if p + n > |data| then Err(OutOfRange)
    else if !utf8(data[p..p + n]) then Err(NotUtf8)
    else Ok((data[p..p + n], p + n))
  }

  function DecodeString(utf8: seq<byte> -> bool, data: seq<byte>, p: nat): Result<(seq<byte>, nat), ReadError> {
    if p + 2 > |data| then Err(Truncated) else DecodeText(utf8, data, p + 2, U16(data, p))
  }

  function DecodeValue(utf8: seq<byte> -> bool, data: seq<byte>, p: nat): (r: Result<(Value, nat), ReadError>)
    ensures r.Ok? ==> p < r.value.1 <= |data|
    decreases |data| - p, 0
  {
    if p >= |data| then Err(Truncated)
    else
      match data[p]
      case 0 => if p + 9 > |data| then Err(Truncated) else Ok((Number(data[p + 1..p + 9]), p + 9))
      case 1 => if p + 2 > |data| then Err(Truncated) else Ok((Boolean(data[p + 1] > 0), p + 2))
      case 2 =>
        var (text, q) :- DecodeString(utf8, data, p + 1);
        Ok((String(text), q))
      case 3 =>
        var (properties, q) :- DecodeProperties(utf8, data, p + 1);
        Ok((Object(properties), q))
      case 5 => Ok((Null, p + 1))
      case 8 =>
        if p + 5 > |data| then Err(Truncated)
        else
          var (properties, q) :- DecodeCounted(utf8, data, p + 5, U32(data, p + 1));
          Ok((Object(properties), if EndMarkerAt(data, q) then q + 3 else q))
      case 12 =>
        if p + 5 > |data| then Err(Truncated)
        else
          var (text, q) :- DecodeText(utf8, data, p + 5, U32(data, p + 1));
          Ok((LongString(text), q))
      case m => Err(if m <= 0x11 then UnsupportedMarker(m) else UnknownMarker(m))
  }

  function DecodeProperty(utf8: seq<byte> -> bool, data: seq<byte>, p: nat): (r: Result<(Property, nat), ReadError>)
    ensures r.Ok? ==> p < r.value.1 <= |data|
    decreases |data| - p, 1
  {
    var (key, q) :- DecodeString(utf8, data, p);
    var (value, end) :- DecodeValue(utf8, data, q);
    Ok((Property(key, value), end))
  }

  /** Properties up to the end marker. */
  function DecodeProperties(utf8: seq<byte> -> bool, data: seq<byte>, p: nat): (r: Result<(seq<Property>, nat), ReadError>)
    ensures r.Ok? ==> p < r.value.1 <= |data|
    decreases |data| - p, 2
  {
    if EndMarkerAt(data, p) then Ok(([], p + 3))
    else
      var (first, q) :- DecodeProperty(utf8, data, p);
      var (rest, end) :- DecodeProperties(utf8, data, q);
      Ok(([first] + rest, end))
  }

  /** A given number of properties. */
  function DecodeCounted(utf8: seq<byte> -> bool, data: seq<byte>, p: nat, n: nat): (r: Result<(seq<Property>, nat), ReadError>)
    requires p <= |data|
    ensures r.Ok? ==> p <= r.value.1 <= |data|
    decreases |data| - p, 2
  {
    if n == 0 then Ok(([], p))
    else
      var (first, q) :- DecodeProperty(utf8, data, p);
      var (rest, end) :- DecodeCounted(utf8, data, q, n - 1);
      Ok(([first] + rest, end))
  }

  function DecodeAll(utf8: seq<byte> -> bool, data: seq<byte>, p: nat): Result<seq<Value>, ReadError>
    requires p <= |data|
    decreases |data| - p
  {
    if p == |data| then Ok([])
    else
      var (first, q) :- DecodeValue(utf8, data, p);
      var rest :- DecodeAll(utf8, data, q);
      Ok([first] + rest)
  }

  // ---------------------------------------------------------------- kinds of values

  /** What `encode` supports. */
  predicate Encodable(v: Value) {
    match v
    case String(text) => |text| <= MAX_U16
    case Object(properties) => forall i :: 0 <= i < |properties| ==> Encodable(properties[i].value)
    case ObjectEnd => false
    case LongString(_) => false
    case _ => true
  }

  /** What the type `str` promises of every string. */
  predicate Textual(utf8: seq<byte> -> bool, v: Value) {
    match v
    case String(text) => utf8(text)
    case LongString(text) => utf8(text)
    case Object(properties) =>
      forall i :: 0 <= i < |properties| ==> utf8(properties[i].key) && Textual(utf8, properties[i].value)
    case _ => true
  }

  /** Every key is short enough for its length field. */
  predicate ShortKeys(v: Value) {
    match v
    case Object(properties) =>
      forall i :: 0 <= i < |properties| ==> |properties[i].key| <= MAX_U16 && ShortKeys(properties[i].value)
    case _ => true
  }

  predicate LongStringFree(v: Value) {
    match v
    case LongString(_) => false
    case Object(properties) => forall i :: 0 <= i < |properties| ==> LongStringFree(properties[i].value)
    case _ => true
  }

  predicate Clean(utf8: seq<byte> -> bool, v: Value) {
    Encodable(v) && Textual(utf8, v) && ShortKeys(v)
  }

  predicate CleanProperty(utf8: seq<byte> -> bool, p: Property) {
    utf8(p.key) && |p.key| <= MAX_U16 && Clean(utf8, p.value)
  }

  predicate CleanProperties(utf8: seq<byte> -> bool, ps: seq<Property>) {
    ps == [] || (CleanProperty(utf8, ps[0]) && CleanProperties(utf8, ps[1..]))
  }

  lemma {:induction false} CleanParts(utf8: seq<byte> -> bool, ps: seq<Property>)
    requires forall i :: 0 <= i < |ps| ==> CleanProperty(utf8, ps[i])
    ensures CleanProperties(utf8, ps)
  {
    if ps != [] {
      CleanParts(utf8, ps[1..]);
    }
  }

  /** `encode` succeeds exactly on the supported values. */
  lemma {:induction false} EncodeSucceedsExactly(v: Value)
    ensures Encode(v).Ok? <==> Encodable(v)
  {
    if v.Object? {
      PropertiesSucceed(v.properties);
    }
  }

  lemma {:induction false} PropertiesSucceed(ps: seq<Property>)
    ensures EncodeProperties(ps).Ok? <==> forall i :: 0 <= i < |ps| ==> Encodable(ps[i].value)
  {
    if ps != [] {
      EncodeSucceedsExactly(ps[0].value);
      PropertiesSucceed(ps[1..]);
      if forall i :: 0 <= i < |ps| ==> Encodable(ps[i].value) {
        forall i | 0 <= i < |ps| - 1 ensures Encodable(ps[1..][i].value) {
          assert ps[1..][i] == ps[i + 1];
        }
      } else {
        var i :| 0 <= i < |ps| && !Encodable(ps[i].value);
        assert i > 0 ==> ps[i] == ps[1..][i - 1];
      }
    }
  }

  // ---------------------------------------------------------------- bytes at a position

  lemma Big16At(data: seq<byte>, p: nat, n: nat)
    requires n <= MAX_U16 && At(data, p, Big16(n))
    ensures p + 2 <= |data| && U16(data, p) == n
  {
    assert data[p + 0] == ItemOf(Big16(n), 0) && data[p + 1] == ItemOf(Big16(n), 1);
  }

  // ---------------------------------------------------------------- round trip

  lemma StringBack(utf8: seq<byte> -> bool, data: seq<byte>, p: nat, text: seq<byte>)
    requires |text| <= MAX_U16 && utf8(text)
    requires At(data, p, Big16(|text|)) && At(data, p + 2, text)
    ensures DecodeString(utf8, data, p) == Ok((text, p + 2 + |text|))
  {
    Big16At(data, p, |text|);
    AtSlice(data, p + 2, text);
  }

  lemma NumberBack(utf8: seq<byte> -> bool, data: seq<byte>, p: nat, bits: Double)
    requires At(data, p, [0] + bits)
    ensures DecodeValue(utf8, data, p) == Ok((Number(bits), p + 9))
  {
    assert data[p + 0] == ItemOf([0] + bits, 0);
    AtSplit(data, p, [0], bits);
    AtSlice(data, p + 1, bits);
  }

  lemma StringValueBack(utf8: seq<byte> -> bool, data: seq<byte>, p: nat, text: seq<byte>)
    requires |text| <= MAX_U16 && utf8(text) && At(data, p, [2] + (Big16(|text|) + text))
    ensures DecodeValue(utf8, data, p) == Ok((String(text), p + 3 + |text|))
  {
    assert data[p + 0] == ItemOf([2] + (Big16(|text|) + text), 0);
    AtSplit(data, p, [2], Big16(|text|) + text);
    AtSplit(data, p + 1, Big16(|text|), text);
    StringBack(utf8, data, p + 1, text);
  }

  lemma {:induction false} ObjectBack(utf8: seq<byte> -> bool, data: seq<byte>, p: nat, properties: seq<Property>)
    requires CleanProperties(utf8, properties)
    requires EncodeProperties(properties).Ok? && At(data, p, [3] + (EncodeProperties(properties).value + EndMarker()))
    ensures DecodeValue(utf8, data, p) == Ok((Object(properties), p + |EncodeProperties(properties).value| + 4))
    decreases properties, 2
  {
    var bytes := EncodeProperties(properties).value;
    assert data[p + 0] == ItemOf([3] + (bytes + EndMarker()), 0);
    AtSplit(data, p, [3], bytes + EndMarker());
    PropertiesBack(utf8, data, p + 1, properties);
  }

  /** Encoded values are read back, wherever they stand. */
  lemma {:induction false} ValueBack(utf8: seq<byte> -> bool, data: seq<byte>, p: nat, v: Value)
    requires Clean(utf8, v) && Encode(v).Ok? && At(data, p, Encode(v).value)
    ensures DecodeValue(utf8, data, p) == Ok((v, p + |Encode(v).value|))
    decreases v, 1
  {
    match v
    case Number(bits) => NumberBack(utf8, data, p, bits);
    case Boolean(_) =>
      assert data[p + 0] == ItemOf(Encode(v).value, 0) && data[p + 1] == ItemOf(Encode(v).value, 1);
    case String(text) => StringValueBack(utf8, data, p, text);
    case Object(properties) =>
      CleanParts(utf8, properties);
      ObjectBack(utf8, data, p, properties);
    case Null =>
      assert data[p + 0] == ItemOf(Encode(v).value, 0);
  }

  /** A property never starts with the bytes of the end marker. */
  lemma PropertyIsNotEndMarker(data: seq<byte>, p: nat, property: Property)
    requires |property.key| <= MAX_U16 && EncodeProperty(property).Ok?
    requires At(data, p, EncodeProperty(property).value)
    ensures !EndMarkerAt(data, p)
  {
    var code := EncodeProperty(property).value;
    AtSplit(data, p, Big16(|property.key|), property.key + Encode(property.value).value);
    Big16At(data, p, |property.key|);
    if property.key == [] {
      assert data[p + 2] == ItemOf(code, 2);
      assert ItemOf(code, 2) == Encode(property.value).value[0] != 9;
    }
  }

  lemma {:induction false} PropertyBack(utf8: seq<byte> -> bool, data: seq<byte>, p: nat, property: Property)
    requires CleanProperty(utf8, property) && EncodeProperty(property).Ok?
    requires At(data, p, EncodeProperty(property).value)
    ensures DecodeProperty(utf8, data, p) == Ok((property, p + |EncodeProperty(property).value|))
    decreases property, 2
  {
    var key, bytes := property.key, Encode(property.value).value;
    AtSplit(data, p, Big16(|key|), key + bytes);
    AtSplit(data, p + 2, key, bytes);
    StringBack(utf8, data, p, key);
    ValueBack(utf8, data, p + 2 + |key|, property.value);
  }

  lemma FirstStands(data: seq<byte>, p: nat, ps: seq<Property>)
    requires ps != [] && |ps[0].key| <= MAX_U16
    requires EncodeProperties(ps).Ok? && At(data, p, EncodeProperties(ps).value + EndMarker())
    ensures var first, rest := EncodeProperty(ps[0]), EncodeProperties(ps[1..]);
            && first.Ok? && rest.Ok? && |EncodeProperties(ps).value| == |first.value| + |rest.value|
            && At(data, p, first.value) && At(data, p + |first.value|, rest.value + EndMarker())
            && !EndMarkerAt(data, p)
  {
    var first, rest := EncodeProperty(ps[0]).value, EncodeProperties(ps[1..]).value;
    assert EncodeProperties(ps).value + EndMarker() == first + (rest + EndMarker());
    AtSplit(data, p, first, rest + EndMarker());
    PropertyIsNotEndMarker(data, p, ps[0]);
  }

  lemma NoPropertiesBack(utf8: seq<byte> -> bool, data: seq<byte>, p: nat, code: seq<byte>)
    requires code == [0, 0, 9] && At(data, p, code)
    ensures DecodeProperties(utf8, data, p) == Ok(([], p + 3))
  {
    assert data[p + 0] == ItemOf(code, 0) && data[p + 1] == ItemOf(code, 1) && data[p + 2] == ItemOf(code, 2);
  }

  lemma OneMoreProperty(utf8: seq<byte> -> bool, data: seq<byte>, p: nat, ps: seq<Property>, q: nat, end: nat)
    requires ps != [] && !EndMarkerAt(data, p)
    requires DecodeProperty(utf8, data, p) == Ok((ps[0], q)) && DecodeProperties(utf8, data, q) == Ok((ps[1..], end))
    ensures DecodeProperties(utf8, data, p) == Ok((ps, end))
  {
    assert [ps[0]] + ps[1..] == ps;
  }

  lemma {:induction false} HeadBack(utf8: seq<byte> -> bool, data: seq<byte>, p: nat, ps: seq<Property>)
    requires ps != [] && CleanProperties(utf8, ps)
    requires EncodeProperties(ps).Ok? && At(data, p, EncodeProperties(ps).value + EndMarker())
    ensures EncodeProperty(ps[0]).Ok? && !EndMarkerAt(data, p)
    ensures DecodeProperty(utf8, data, p) == Ok((ps[0], p + |EncodeProperty(ps[0]).value|))
    decreases ps, 0
  {
    FirstStands(data, p, ps);
    PropertyBack(utf8, data, p, ps[0]);
  }

  lemma {:induction false} RestBack(utf8: seq<byte> -> bool, data: seq<byte>, p: nat, ps: seq<Property>)
    requires ps != [] && CleanProperties(utf8, ps)
    requires EncodeProperties(ps).Ok? && At(data, p, EncodeProperties(ps).value + EndMarker())
    ensures EncodeProperty(ps[0]).Ok?
    ensures DecodeProperties(utf8, data, p + |EncodeProperty(ps[0]).value|) == Ok((ps[1..], p + |EncodeProperties(ps).value| + 3))
    decreases ps, 0
  {
    FirstStands(data, p, ps);
    PropertiesBack(utf8, data, p + |EncodeProperty(ps[0]).value|, ps[1..]);
  }

  lemma {:induction false} PropertiesBack(utf8: seq<byte> -> bool, data: seq<byte>, p: nat, ps: seq<Property>)
    requires CleanProperties(utf8, ps)
    requires EncodeProperties(ps).Ok? && At(data, p, EncodeProperties(ps).value + EndMarker())
    ensures DecodeProperties(utf8, data, p) == Ok((ps, p + |EncodeProperties(ps).value| + 3))
    decreases ps, 1
  {
    if ps == [] {
      NoPropertiesBack(utf8, data, p, EncodeProperties(ps).value + EndMarker());
    } else {
      HeadBack(utf8, data, p, ps);
      RestBack(utf8, data, p, ps);
      OneMoreProperty(utf8, data, p, ps, p + |EncodeProperty(ps[0]).value|, p + |EncodeProperties(ps).value| + 3);
    }
  }

  // ---------------------------------------------------------------- normal forms

  /** What `decode` can produce. */
  predicate Normal(utf8: seq<byte> -> bool, v: Value) {
    Textual(utf8, v) && ShortKeys(v) && (LongStringFree(v) ==> Encodable(v))
  }

  predicate NormalProperty(utf8: seq<byte> -> bool, p: Property) {
    utf8(p.key) && |p.key| <= MAX_U16 && Normal(utf8, p.value)
  }

  lemma {:induction false} DecodedIsNormal(utf8: seq<byte> -> bool, data: seq<byte>, p: nat)
    requires DecodeValue(utf8, data, p).Ok?
    ensures Normal(utf8, DecodeValue(utf8, data, p).value.0)
    decreases |data| - p, 0
  {
    if data[p] == 3 {
      DecodedPropertiesAreNormal(utf8, data, p + 1);
    } else if data[p] == 8 {
      CountedPropertiesAreNormal(utf8, data, p + 5, U32(data, p + 1));
    }
  }

  lemma {:induction false} DecodedPropertyIsNormal(utf8: seq<byte> -> bool, data: seq<byte>, p: nat)
    requires DecodeProperty(utf8, data, p).Ok?
    ensures NormalProperty(utf8, DecodeProperty(utf8, data, p).value.0)
    decreases |data| - p, 1
  {
    var (key, q) := DecodeString(utf8, data, p).value;
    DecodedIsNormal(utf8, data, q);
  }

  lemma {:induction false} DecodedPropertiesAreNormal(utf8: seq<byte> -> bool, data: seq<byte>, p: nat)
    requires DecodeProperties(utf8, data, p).Ok?
    ensures var ps := DecodeProperties(utf8, data, p).value.0; forall i :: 0 <= i < |ps| ==> NormalProperty(utf8, ps[i])
    decreases |data| - p, 2
  {
    if !EndMarkerAt(data, p) {
      DecodedPropertyIsNormal(utf8, data, p);
      DecodedPropertiesAreNormal(utf8, data, DecodeProperty(utf8, data, p).value.1);
    }
  }

  lemma {:induction false} CountedPropertiesAreNormal(utf8: seq<byte> -> bool, data: seq<byte>, p: nat, n: nat)
    requires p <= |data| && DecodeCounted(utf8, data, p, n).Ok?
    ensures var ps := DecodeCounted(utf8, data, p, n).value.0; forall i :: 0 <= i < |ps| ==> NormalProperty(utf8, ps[i])
    decreases |data| - p, 2
  {
    if n > 0 {
      DecodedPropertyIsNormal(utf8, data, p);
      CountedPropertiesAreNormal(utf8, data, DecodeProperty(utf8, data, p).value.1, n - 1);
    }
  }

  /** Decoding yields normal forms: an accepted value without a long string, however it was
      spelled, has an encoding, and the encoding decodes to the same value. */
  lemma DecodedValueRoundTrips(utf8: seq<byte> -> bool, data: seq<byte>, p: nat)
    requires DecodeValue(utf8, data, p).Ok? && LongStringFree(DecodeValue(utf8, data, p).value.0)
    ensures var v := DecodeValue(utf8, data, p).value.0;
            Encode(v).Ok? && DecodeValue(utf8, Encode(v).value, 0) == Ok((v, |Encode(v).value|))
  {
    var v := DecodeValue(utf8, data, p).value.0;
    DecodedIsNormal(utf8, data, p);
    EncodeSucceedsExactly(v);
    AtStart(Encode(v).value);
    ValueBack(utf8, Encode(v).value, 0, v);
  }

  /** The exact round trip of one value, wherever its encoding stands: it is read back if and only
      if all its keys, at any depth, fit their length field. */
  lemma RoundTripExactly(utf8: seq<byte> -> bool, data: seq<byte>, p: nat, v: Value)
    requires Textual(utf8, v) && Encode(v).Ok? && At(data, p, Encode(v).value)
    ensures DecodeValue(utf8, data, p) == Ok((v, p + |Encode(v).value|)) <==> ShortKeys(v)
  {
    if ShortKeys(v) {
      EncodeSucceedsExactly(v);
      ValueBack(utf8, data, p, v);
    } else if DecodeValue(utf8, data, p).Ok? {
      DecodedIsNormal(utf8, data, p);
    }
  }

  // ---------------------------------------------------------------- lists

  lemma {:induction false} AllBack(utf8: seq<byte> -> bool, data: seq<byte>, p: nat, vs: seq<Value>)
    requires forall i :: 0 <= i < |vs| ==> Textual(utf8, vs[i]) && ShortKeys(vs[i])
    requires EncodeAll(vs).Ok? && At(data, p, EncodeAll(vs).value) && p + |EncodeAll(vs).value| == |data|
    ensures DecodeAll(utf8, data, p) == Ok(vs)
    decreases vs
  {
    if vs != [] {
      var first, rest := Encode(vs[0]).value, EncodeAll(vs[1..]).value;
      assert [vs[0]] + vs[1..] == vs;
      AtSplit(data, p, first, rest);
      RoundTripExactly(utf8, data, p, vs[0]);
      AllBack(utf8, data, p + |first|, vs[1..]);
    }
  }

  lemma {:induction false} AllNormal(utf8: seq<byte> -> bool, data: seq<byte>, p: nat)
    requires p <= |data| && DecodeAll(utf8, data, p).Ok?
    ensures var vs := DecodeAll(utf8, data, p).value; forall i :: 0 <= i < |vs| ==> Normal(utf8, vs[i])
    decreases |data| - p
  {
    if p < |data| {
      DecodedIsNormal(utf8, data, p);
      AllNormal(utf8, data, DecodeValue(utf8, data, p).value.1);
    }
  }

  /** The exact round trip of a list: decoding the concatenated encodings gives the list back if
      and only if every key fits its length field. */
  lemma ListRoundTripExactly(utf8: seq<byte> -> bool, vs: seq<Value>)
    requires EncodeAll(vs).Ok? && forall i :: 0 <= i < |vs| ==> Textual(utf8, vs[i])
    ensures DecodeAll(utf8, EncodeAll(vs).value, 0) == Ok(vs) <==> forall i :: 0 <= i < |vs| ==> ShortKeys(vs[i])
  {
    var data := EncodeAll(vs).value;
    if forall i :: 0 <= i < |vs| ==> ShortKeys(vs[i]) {
      AtStart(data);
      AllBack(utf8, data, 0, vs);
    } else if DecodeAll(utf8, data, 0).Ok? {
      AllNormal(utf8, data, 0);
    }
  }

  /** A key that is too long can even pass for the end marker: everything after it is lost. */
  lemma LongKeyHidesProperties(utf8: seq<byte> -> bool, tail: seq<byte>, value: Value)
    requires |tail| == MAX_U16 && Encodable(value)
    ensures var v := Object([Property([9] + tail, value)]);
            Encode(v).Ok? && DecodeValue(utf8, Encode(v).value, 0) == Ok((Object([]), 4))
  {
    var property := Property([9] + tail, value);
    var v := Object([property]);
    EncodeSucceedsExactly(value);
    assert [property][1..] == [];
    var code := EncodeProperty(property).value;
    assert code[0] == 0 && code[1] == 0 && code[2] == 9;
    assert EncodeProperties([property]) == Ok(code + []);
    assert Encode(v).value == [3] + ((code + []) + EndMarker());
    assert EndMarkerAt(Encode(v).value, 1);
  }

  // ---------------------------------------------------------------- the encoder

  /** The writer that the encoder appends to. */
  class Writer {
    var bytes: seq<byte>

    constructor ()
      ensures bytes == []
    {
      bytes := [];
    }

    /** An error leaves a part of the encoding behind. */
    method EncodeValue(v: Value) returns (r: Result<(), WriteError>)
      modifies this
      ensures r.Ok? <==> Encode(v).Ok?
      ensures r.Ok? ==> bytes == old(bytes) + Encode(v).value
      ensures r.Err? ==> r.error == Encode(v).error && old(bytes) <= bytes
      decreases v, 1
    {
      match v
      case Number(bits) =>
        bytes := bytes + [0] + bits;
        assert bytes == old(bytes) + ([0] + bits);
        return Ok(());
      case Boolean(flag) =>
        bytes := bytes + [1, if flag then 1 else 0];
        return Ok(());
      case String(text) =>
        if |text| > MAX_U16 {
          return Err(StringTooLong);
        }
        bytes := bytes + [2] + Big16(|text|) + text;
        assert bytes == old(bytes) + ([2] + (Big16(|text|) + text));
        return Ok(());
      case Object(properties) =>
        r := EncodeObject(properties);
      case Null =>
        bytes := bytes + [5];
        return Ok(());
      case ObjectEnd => return Err(UnsupportedValue(9));
      case LongString(_) => return Err(UnsupportedValue(12));
    }

    method EncodeObject(properties: seq<Property>) returns (r: Result<(), WriteError>)
      modifies this
      ensures r.Ok? <==> EncodeProperties(properties).Ok?
      ensures r.Ok? ==> bytes == old(bytes) + ([3] + (EncodeProperties(properties).value + EndMarker()))
      ensures r.Err? ==> r.error == EncodeProperties(properties).error && old(bytes) <= bytes
      decreases properties, 0
    {
      ghost var start := bytes + [3];
      ghost var whole := EncodeProperties(properties);
      bytes := bytes + [3];
      ghost var done: seq<byte> := [];
      assert properties[0..] == properties;
      assert whole.Ok? ==> [] + whole.value == whole.value;
      for i := 0 to |properties|
        invariant bytes == start + done && old(bytes) <= start
        invariant whole == After(done, EncodeProperties(properties[i..]))
      {
        AfterStep(done, properties, i);
        r := EncodePair(properties[i], start, done);
        if r.Err? {
          return;
        }
        done := done + EncodeProperty(properties[i]).value;
      }
      assert properties[|properties|..] == [] && done + [] == done;
      bytes := bytes + EndMarker();
      assert bytes == old(bytes) + ([3] + (done + EndMarker())) by {
        Regroup(old(bytes), [3], done, EndMarker());
      }
      r := Ok(());
    }

    method EncodePair(property: Property, ghost start: seq<byte>, ghost done: seq<byte>) returns (r: Result<(), WriteError>)
      requires bytes == start + done
      modifies this
      ensures r.Ok? <==> EncodeProperty(property).Ok?
      ensures r.Ok? ==> bytes == start + (done + EncodeProperty(property).value)
      ensures r.Err? ==> r.error == EncodeProperty(property).error && start <= bytes
      decreases property, 2
    {
      bytes := bytes + Big16(|property.key|) + property.key;
      ghost var head := bytes;
      r := EncodeValue(property.value);
      if r.Ok? {
        ghost var value := Encode(property.value).value;
        assert head + value == start + (done + (Big16(|property.key|) + (property.key + value)));
      } else {
        assert start <= head <= bytes;
      }
    }
  }

  lemma Regroup(a: seq<byte>, b: seq<byte>, c: seq<byte>, d: seq<byte>)
    ensures a + b + c + d == a + (b + (c + d))
  {
  }

  /** A result with bytes already written in front. */
  function After(done: seq<byte>, rest: Result<seq<byte>, WriteError>): Result<seq<byte>, WriteError> {
    if rest.Ok? then Ok(done + rest.value) else rest
  }

  lemma AfterStep(done: seq<byte>, ps: seq<Property>, i: nat)
    requires i < |ps|
    ensures var first := EncodeProperty(ps[i]);
            After(done, EncodeProperties(ps[i..]))
            == if first.Err? then Err(first.error) else After(done + first.value, EncodeProperties(ps[i + 1..]))
  {
    assert ps[i..][1..] == ps[i + 1..];
    var first, rest := EncodeProperty(ps[i]), EncodeProperties(ps[i + 1..]);
    if first.Ok? && rest.Ok? {
      assert done + (first.value + rest.value) == done + first.value + rest.value;
    }
  }

  // ---------------------------------------------------------------- the decoder

  function OnlyValue<T>(r: Result<(T, nat), ReadError>): Result<T, ReadError> {
    if r.Ok? then Ok(r.value.0) else Err(r.error)
  }

  /** Properties already read, in front of those still to come. */
  function Before(got: seq<Property>, rest: Result<(seq<Property>, nat), ReadError>): Result<(seq<Property>, nat), ReadError> {
    if rest.Ok? then Ok((got + rest.value.0, rest.value.1)) else rest
  }

  lemma BeforeNothing(rest: Result<(seq<Property>, nat), ReadError>)
    ensures Before([], rest) == rest
  {
    if rest.Ok? {
      assert [] + rest.value.0 == rest.value.0;
    }
  }

  lemma BeforeStep(got: seq<Property>, first: Property, rest: Result<(seq<Property>, nat), ReadError>)
    ensures Before(got, Before([first], rest)) == Before(got + [first], rest)
  {
    if rest.Ok? {
      assert got + ([first] + rest.value.0) == got + [first] + rest.value.0;
    }
  }

  class Decoder {
    const utf8: seq<byte> -> bool
    const data: seq<byte>
    var pos: nat

    constructor (utf8: seq<byte> -> bool, data: seq<byte>)
      ensures this.utf8 == utf8 && this.data == data && pos == 0
    {
      this.utf8, this.data, this.pos := utf8, data, 0;
    }

    method ReadText(n: nat) returns (r: Result<seq<byte>, ReadError>)
      modifies this
      ensures r == OnlyValue(DecodeText(utf8, data, old(pos), n))
      ensures r.Ok? ==> pos == old(pos) + n
    {
      var p := pos;
      pos := pos + n;
      if pos > |data| {
        return Err(OutOfRange);
      }
      r := if utf8(data[p..pos]) then Ok(data[p..pos]) else Err(NotUtf8);
    }

    method ReadString() returns (r: Result<seq<byte>, ReadError>)
      modifies this
      ensures r == OnlyValue(DecodeString(utf8, data, old(pos)))
      ensures r.Ok? ==> pos == DecodeString(utf8, data, old(pos)).value.1
    {
      if pos + 2 > |data| {
        return Err(Truncated);
      }
      var n := U16(data, pos);
      pos := pos + 2;
      r := ReadText(n);
    }

    /** Consumes the end marker, and nothing else. */
    method IsReadObjectEof() returns (r: bool)
      modifies this
      ensures r == EndMarkerAt(data, old(pos))
      ensures pos == if r then old(pos) + 3 else old(pos)
    {
      var start := pos;
      if pos + 3 <= |data| {
        var high: nat, middle: nat, low: nat := data[pos], data[pos + 1], data[pos + 2];
        pos := pos + 3;
        if 0x1_0000 * high + 0x100 * middle + low == 9 {
          return true;
        }
      }
      pos := start;
      r := false;
    }

    method ReadProperty() returns (r: Result<Property, ReadError>)
      requires pos <= |data|
      modifies this
      ensures r == OnlyValue(DecodeProperty(utf8, data, old(pos)))
      ensures r.Ok? ==> pos == DecodeProperty(utf8, data, old(pos)).value.1
      decreases |data| - pos, 1
    {
      var key := ReadString();
      if key.Err? {
        return Err(key.error);
      }
      var value := Decode();
      r := if value.Ok? then Ok(Property(key.value, value.value)) else Err(value.error);
    }

    method ReadObject() returns (r: Result<seq<Property>, ReadError>)
      requires pos <= |data|
      modifies this
      ensures r == OnlyValue(DecodeProperties(utf8, data, old(pos)))
      ensures r.Ok? ==> pos == DecodeProperties(utf8, data, old(pos)).value.1
      decreases |data| - pos, 2
    {
      ghost var whole := DecodeProperties(utf8, data, pos);
      var got: seq<Property> := [];
      BeforeNothing(whole);
      while true
        invariant old(pos) <= pos <= |data|
        invariant whole == Before(got, DecodeProperties(utf8, data, pos))
        decreases |data| - pos
      {
        var eof := IsReadObjectEof();
        if eof {
          break;
        }
        ghost var rest := DecodeProperties(utf8, data, pos);
        var property := ReadProperty();
        if property.Err? {
          return Err(property.error);
        }
        BeforeStep(got, property.value, DecodeProperties(utf8, data, pos));
        got := got + [property.value];
      }
      assert got + [] == got;
      r := Ok(got);
    }

    method ReadEcmaArray() returns (r: Result<seq<Property>, ReadError>)
      requires pos <= |data|
      modifies this
      ensures old(pos) + 4 > |data| ==> r == Err(Truncated)
      ensures old(pos) + 4 <= |data| ==>
                var d := DecodeCounted(utf8, data, old(pos) + 4, U32(data, old(pos)));
                && r == OnlyValue(d)
                && (r.Ok? ==> pos == if EndMarkerAt(data, d.value.1) then d.value.1 + 3 else d.value.1)
      decreases |data| - pos, 3
    {
      if pos + 4 > |data| {
        return Err(Truncated);
      }
      var n := U32(data, pos);
      pos := pos + 4;
      r := ReadCounted(n);
      if r.Ok? {
        var _ := IsReadObjectEof();
      }
    }

    /** The loop over the given number of properties. */
    method ReadCounted(n: nat) returns (r: Result<seq<Property>, ReadError>)
      requires pos <= |data|
      modifies this
      ensures r == OnlyValue(DecodeCounted(utf8, data, old(pos), n))
      ensures r.Ok? ==> pos == DecodeCounted(utf8, data, old(pos), n).value.1
      decreases |data| - pos, 2
    {
      ghost var whole := DecodeCounted(utf8, data, pos, n);
      var got: seq<Property> := [];
      BeforeNothing(whole);
      for i := 0 to n
        invariant old(pos) <= pos <= |data|
        invariant whole == Before(got, DecodeCounted(utf8, data, pos, n - i))
      {
        var property := ReadProperty();
        if property.Err? {
          return Err(property.error);
        }
        BeforeStep(got, property.value, DecodeCounted(utf8, data, pos, n - i - 1));
        got := got + [property.value];
      }
      assert got + [] == got;
      r := Ok(got);
    }

    method Decode() returns (r: Result<Value, ReadError>)
      requires pos <= |data|
      modifies this
      ensures r == OnlyValue(DecodeValue(utf8, data, old(pos)))
      ensures r.Ok? ==> pos == DecodeValue(utf8, data, old(pos)).value.1
      decreases |data| - pos, 0
    {
      if pos == |data| {
        return Err(Truncated);
      }
      var marker := data[pos];
      pos := pos + 1;
      match marker
      case 0 =>
        if pos + 8 > |data| {
          return Err(Truncated);
        }
        pos := pos + 8;
        return Ok(Number(data[pos - 8..pos]));
      case 1 =>
        if pos + 1 > |data| {
          return Err(Truncated);
        }
        pos := pos + 1;
        return Ok(Boolean(data[pos - 1] > 0));
      case 2 =>
        var text := ReadString();
        return if text.Ok? then Ok(String(text.value)) else Err(text.error);
      case 3 =>
        var properties := ReadObject();
        return if properties.Ok? then Ok(Object(properties.value)) else Err(properties.error);
      case 5 => return Ok(Null);
      case 8 =>
        var properties := ReadEcmaArray();
        return if properties.Ok? then Ok(Object(properties.value)) else Err(properties.error);
      case 12 =>
        if pos + 4 > |data| {
          return Err(Truncated);
        }
        pos := pos + 4;
        var text := ReadText(U32(data, pos - 4));
        return if text.Ok? then Ok(LongString(text.value)) else Err(text.error);
      case m => return Err(if m <= 0x11 then UnsupportedMarker(m) else UnknownMarker(m));
    }

    method DecodeRest() returns (r: Result<seq<Value>, ReadError>)
      requires pos <= |data|
      modifies this
      ensures r == DecodeAll(utf8, data, old(pos))
      ensures r.Ok? ==> pos == |data|
    {
      ghost var whole := DecodeAll(utf8, data, pos);
      var got: seq<Value> := [];
      assert whole.Ok? ==> [] + whole.value == whole.value;
      while pos != |data|
        invariant pos <= |data|
        invariant whole == Ahead(got, DecodeAll(utf8, data, pos))
        decreases |data| - pos
      {
        var value := Decode();
        if value.Err? {
          return Err(value.error);
        }
        AheadStep(got, value.value, DecodeAll(utf8, data, pos));
        got := got + [value.value];
      }
      assert got + [] == got;
      r := Ok(got);
    }
  }

  /** Values already read, in front of those still to come. */
  function Ahead(got: seq<Value>, rest: Result<seq<Value>, ReadError>): Result<seq<Value>, ReadError> {
    if rest.Ok? then Ok(got + rest.value) else rest
  }

  lemma AheadStep(got: seq<Value>, first: Value, rest: Result<seq<Value>, ReadError>)
    ensures Ahead(got, Ahead([first], rest)) == Ahead(got + [first], rest)
  {
    if rest.Ok? {
      assert got + ([first] + rest.value) == got + [first] + rest.value;
    }
  }
}
