/** `AV1CodecConfigurationRecord` of crates/av1/src/config.rs.  An I/O error and invalid data are
    both the outcome `None`. */
module Av1 {
  import opened Bits
  import opened Wrappers
  import opened Positions
  import opened Layouts
  import R = BitReader
  import W = BitWriter
  import P = BitPrograms

  datatype Record = Record(
    profile: nat, level: nat, tier: bool, highBitDepth: bool, twelveBit: bool, monochrome: bool,
    subsamplingX: bool, subsamplingY: bool, samplePosition: nat, hdrWcgIdc: nat,
    presentationDelayMinusOne: Option<nat>, configObu: seq<byte>)

  /** The Rust types of the fields. */
  predicate Typed(r: Record) {
    && r.profile < 0x100 && r.level < 0x100 && r.samplePosition < 0x100 && r.hdrWcgIdc < 0x100
    && (r.presentationDelayMinusOne.Some? ==> r.presentationDelayMinusOne.value < 0x100)
  }

  /** What `mux` accepts. */
  predicate Muxable(r: Record) {
    && r.profile < 8 && r.level < 32 && r.samplePosition < 4 && Delay(r) < 16
  }

  function Delay(r: Record): nat {
    if r.presentationDelayMinusOne.Some? then r.presentationDelayMinusOne.value else 0
  }

  // ---------------------------------------------------------------- wire format

  /** The fields up to the presence of the delay. */
  function HeaderSlot(i: nat): Slot {
    match i
    case 1 => Slot(0, 0, 7)     // version
    case 2 => Slot(0, 0, 3)     // profile
    case 3 => Slot(0, 0, 5)     // level
    case 10 => Slot(0, 0, 2)    // sample position
    case 11 => Slot(0, 0, 2)    // HDR and wide colour gamut
    case 12 => Slot(1, 0, 1)    // presence of the delay
    case _ => Slot(0, 0, 1)     // marker and flags
  }

  ghost predicate IsHeader(header: Layout) {
    IsBuilt(header, HeaderSlot, 13) && header.Width() == 28
  }

  lemma Slots()
    ensures forall i :: 0 <= i < 13 ==> SlotOk(HeaderSlot(i))
  {
    PowersOfTwo();
  }

  /** The width of the fields from `i` on. */
  function HeaderRest(i: nat): nat
    decreases 13 - i
  {
    if i >= 13 then 0 else HeaderSlot(i).reserved + HeaderSlot(i).width + HeaderRest(i + 1)
  }

  lemma {:induction false} HeaderWidth(i: nat)
    requires i <= 13
    ensures Build(HeaderSlot, i, 13).Width() == HeaderRest(i)
    decreases 13 - i
  {
    if i < 13 {
      HeaderWidth(i + 1);
    }
  }

  lemma HeaderWide()
    ensures HeaderRest(0) == 28
  {
    assert HeaderRest(4) == 12 by {
      assert HeaderRest(8) == 8;
    }
  }

  method MakeHeader() returns (header: Layout)
    ensures IsHeader(header)
  {
    Slots();
    BuildShape(HeaderSlot, 0, 13);
    HeaderWidth(0);
    HeaderWide();
    header := Build(HeaderSlot, 0, 13);
  }

  /** The writer puts zeros where the reader expects `hdr_wcg_idc`. */
  function HeaderValue(r: Record, i: nat): nat {
    match i
    case 0 => 1
    case 1 => 1
    case 2 => r.profile
    case 3 => r.level
    case 4 => BoolValue(r.tier)
    case 5 => BoolValue(r.highBitDepth)
    case 6 => BoolValue(r.twelveBit)
    case 7 => BoolValue(r.monochrome)
    case 8 => BoolValue(r.subsamplingX)
    case 9 => BoolValue(r.subsamplingY)
    case 10 => r.samplePosition
    case 11 => 0
    case _ => BoolValue(r.presentationDelayMinusOne.Some?)
  }

  function HeaderValues(r: Record): seq<nat> {
    seq(13, i requires 0 <= i < 13 => HeaderValue(r, i))
  }

  function FromValues(v: seq<nat>, delay: Option<nat>, configObu: seq<byte>): Record
    requires |v| == 13
  {
    Record(v[2], v[3], v[4] == 1, v[5] == 1, v[6] == 1, v[7] == 1, v[8] == 1, v[9] == 1, v[10], v[11], delay, configObu)
  }

  function EncodeRecord(header: Layout, r: Record): seq<bool>
    requires header.Fields() == 13
  {
    Encode(header, HeaderValues(r)) + (ToBits(Delay(r), 4) + BytesToBits(r.configObu))
  }

  /** The delay, or the reserved bits in its place. */
  function DecodeDelay(stream: seq<bool>, p: nat, present: bool): Option<Option<nat>> {
    if present then
      if p + 4 > |stream| then None else Some(Some(R.Value(stream, p, 4)))
    else
      if (p + 4) % 8 == 0 || p + 4 < |stream| then Some(None) else None
  }

  /** The bytes from an aligned position to the end. */
  function Remaining(stream: seq<bool>, p: nat): seq<byte>
    decreases |stream| - p
  {
    if p + 8 > |stream| then [] else P.BytesAt(stream, p, 1) + Remaining(stream, p + 8)
  }

  function DecodeRecord(header: Layout, stream: seq<bool>, p: nat): Option<Record> {
    var (v, q) :- Decode(stream, p, header);
    DecodeRest(stream, v, q)
  }

  function DecodeRest(stream: seq<bool>, v: seq<nat>, q: nat): Option<Record> {
    if |v| != 13 || v[0] != 1 || v[1] != 1 then None
    else
      var delay :- DecodeDelay(stream, q, v[12] == 1);
      if (q + 4) % 8 != 0 then None
      else Some(FromValues(v, delay, Remaining(stream, q + 4)))
  }

  // ---------------------------------------------------------------- size

  /** `size`, in bytes. */
  function Size(r: Record): nat {
    4 + |r.configObu|
  }

  /** `size` counts the bytes that `mux` writes. */
  lemma SizeIsBytesWritten(header: Layout, r: Record)
    requires IsHeader(header)
    ensures |EncodeRecord(header, r)| == 8 * Size(r)
  {
  }

  // ---------------------------------------------------------------- what the writer accepts

  predicate ValueFits(r: Record, i: nat) {
    HeaderValue(r, i) < Pow2(HeaderSlot(i).width)
  }

  lemma HeaderFits(header: Layout, r: Record)
    requires IsHeader(header)
    ensures Fitting(header, HeaderValues(r)) <==> r.profile < 8 && r.level < 32 && r.samplePosition < 4
  {
    Slots();
    BuiltFits(header, HeaderSlot, 13, HeaderValues(r));
    forall i | 0 <= i < 13 ensures ValueFits(r, i) == (HeaderValues(r)[i] < Pow2(HeaderSlot(i).width)) {
    }
    RangesDecide(r);
  }

  lemma RangesDecide(r: Record)
    ensures (forall i :: 0 <= i < 13 ==> ValueFits(r, i)) <==> r.profile < 8 && r.level < 32 && r.samplePosition < 4
  {
    PowersOfTwo();
    if forall i :: 0 <= i < 13 ==> ValueFits(r, i) {
      assert ValueFits(r, 2) && ValueFits(r, 3) && ValueFits(r, 10);
    }
  }

  // ---------------------------------------------------------------- round trip

  lemma {:induction false} BytesAtSplit(stream: seq<bool>, p: nat, m: nat, n: nat)
    requires m <= n && p + 8 * n <= |stream|
    ensures P.BytesAt(stream, p, n) == P.BytesAt(stream, p, m) + P.BytesAt(stream, p + 8 * m, n - m)
  {
    if m < n {
      BytesAtSplit(stream, p, m, n - 1);
      assert p + 8 * (n - 1) == (p + 8 * m) + 8 * (n - 1 - m);
    }
  }

  /** What `demux` makes of a written record when `rest` follows it. */
  function Received(r: Record, rest: seq<byte>): Record {
    r.(hdrWcgIdc := 0, configObu := r.configObu + rest)
  }

  /** The values are those of `r`, but for `hdr_wcg_idc`. */
  ghost predicate Restores(v: seq<nat>, r: Record) {
    && |v| == 13 && v[0] == 1 && v[1] == 1 && v[12] == BoolValue(r.presentationDelayMinusOne.Some?)
    && forall configObu {:trigger Renewed(r, configObu)} ::
         FromValues(v, r.presentationDelayMinusOne, configObu) == Renewed(r, configObu)
  }

  function Renewed(r: Record, configObu: seq<byte>): Record {
    r.(hdrWcgIdc := 0, configObu := configObu)
  }

  lemma ValuesBack(r: Record)
    ensures Restores(HeaderValues(r), r)
  {
  }

  lemma DelayBack(stream: seq<bool>, p: nat, r: Record)
    requires Delay(r) < 16 && At(stream, p, ToBits(Delay(r), 4)) && (p + 4) % 8 == 0
    ensures DecodeDelay(stream, p, r.presentationDelayMinusOne.Some?) == Some(r.presentationDelayMinusOne)
  {
    PowersOfTwo();
    P.NumberAt(stream, p, Delay(r), 4);
  }

  lemma {:induction false} RemainingSplit(stream: seq<bool>, p: nat, n: nat)
    requires p + 8 * n <= |stream|
    ensures Remaining(stream, p) == P.BytesAt(stream, p, n) + Remaining(stream, p + 8 * n)
    decreases n
  {
    if n > 0 {
      BytesAtSplit(stream, p, 1, n);
      RemainingSplit(stream, p + 8, n - 1);
      assert p + 8 + 8 * (n - 1) == p + 8 * n;
    }
  }

  lemma RemainingIs(stream: seq<bool>, p: nat, n: nat)
    requires p + 8 * n == |stream|
    ensures Remaining(stream, p) == P.BytesAt(stream, p, n)
  {
    RemainingSplit(stream, p, n);
  }

  lemma RemainingBack(stream: seq<bool>, p: nat, bytes: seq<byte>)
    requires At(stream, p, BytesToBits(bytes))
    ensures Remaining(stream, p) == bytes + Remaining(stream, p + 8 * |bytes|)
  {
    P.BytesStandAt(stream, p, bytes);
    RemainingSplit(stream, p, |bytes|);
  }

  lemma HeadBack(header: Layout, stream: seq<bool>, p: nat, r: Record)
    requires IsHeader(header) && Muxable(r)
    requires At(stream, p, EncodeRecord(header, r))
    ensures Decode(stream, p, header) == Some((HeaderValues(r), p + 28))
    ensures At(stream, p + 28, ToBits(Delay(r), 4)) && At(stream, p + 32, BytesToBits(r.configObu))
  {
    PartsStand(stream, p, Encode(header, HeaderValues(r)), ToBits(Delay(r), 4), BytesToBits(r.configObu));
    HeaderFits(header, r);
    EncodeThenDecode(stream, p, header, HeaderValues(r));
  }

  /** Wherever an accepted record stands, `demux` gives it back with `hdr_wcg_idc` zeroed and with
      all the bytes that follow counted to its configuration OBUs. */
  lemma WrittenIsReceived(header: Layout, stream: seq<bool>, p: nat, r: Record)
    requires IsHeader(header) && Muxable(r) && p % 8 == 0
    requires At(stream, p, EncodeRecord(header, r))
    ensures DecodeRecord(header, stream, p) == Some(Received(r, Remaining(stream, p + 8 * Size(r))))
  {
    HeadBack(header, stream, p, r);
    ValuesBack(r);
    RestBack(stream, p + 28, HeaderValues(r), r);
  }

  lemma RestBack(stream: seq<bool>, q: nat, v: seq<nat>, r: Record)
    requires Restores(v, r) && Delay(r) < 16 && (q + 4) % 8 == 0
    requires At(stream, q, ToBits(Delay(r), 4)) && At(stream, q + 4, BytesToBits(r.configObu))
    ensures DecodeRest(stream, v, q) == Some(Received(r, Remaining(stream, q + 4 + 8 * |r.configObu|)))
  {
    DelayBack(stream, q, r);
    RemainingBack(stream, q + 4, r.configObu);
    assert Renewed(r, Remaining(stream, q + 4)) == Received(r, Remaining(stream, q + 4 + 8 * |r.configObu|));
  }

  /** The round trip holds exactly for records without HDR information at the end of the data. */
  lemma RoundTripExactly(header: Layout, stream: seq<bool>, p: nat, r: Record)
    requires IsHeader(header) && Muxable(r) && |stream| % 8 == 0 && p % 8 == 0
    requires At(stream, p, EncodeRecord(header, r))
    ensures DecodeRecord(header, stream, p) == Some(r) <==> r.hdrWcgIdc == 0 && p + 8 * Size(r) == |stream|
  {
    SizeIsBytesWritten(header, r);
    WrittenIsReceived(header, stream, p, r);
    var rest := Remaining(stream, p + 8 * Size(r));
    assert |Received(r, rest).configObu| == |r.configObu| + |rest|;
    assert r.configObu + [] == r.configObu;
  }

  // ---------------------------------------------------------------- through the reader and the writer

  method WriteHeader(w: W.BitWriter, header: Layout, r: Record) returns (ok: bool)
    requires w.Valid() && w.Written() == [] && IsHeader(header) && Typed(r)
    modifies w
    ensures w.Valid()
    ensures ok <==> r.profile < 8 && r.level < 32 && r.samplePosition < 4
    ensures ok ==> w.Written() == Encode(header, HeaderValues(r))
  {
    HeaderFits(header, r);
    ok := WriteFields(w, header, HeaderValues(r));
    assert [] + Encode(header, HeaderValues(r)) == Encode(header, HeaderValues(r));
  }

  method WriteDelay(w: W.BitWriter, delay: nat) returns (ok: bool)
    requires w.Valid() && delay < TWO_64
    modifies w
    ensures w.Valid()
    ensures ok <==> delay < 16
    ensures ok ==> w.Written() == old(w.Written()) + ToBits(delay, 4)
  {
    PowersOfTwo();
    ok := w.WriteBits(delay, 4);
  }

  /** `mux` succeeds exactly on `Muxable` records, and then writes `size` bytes that spell the record. */
  method Mux(header: Layout, r: Record) returns (bytes: Option<seq<byte>>)
    requires IsHeader(header) && Typed(r)
    ensures bytes.Some? <==> Muxable(r)
    ensures bytes.Some? ==> BytesToBits(bytes.value) == EncodeRecord(header, r) && |bytes.value| == Size(r)
  {
    var w := new W.BitWriter();
    var ok := WriteHeader(w, header, r);
    if !ok {
      return None;
    }
    ok := WriteDelay(w, Delay(r));
    if !ok {
      return None;
    }
    var fixed := FinishWhole(w, 4);
    BytesToBitsAppend(fixed, r.configObu);
    Regroup([], Encode(header, HeaderValues(r)), ToBits(Delay(r), 4), BytesToBits(r.configObu));
    bytes := Some(fixed + r.configObu);
  }

  method ReadDelay(r: R.BitReader, present: bool) returns (delay: Option<Option<nat>>)
    requires r.Valid()
    modifies r
    ensures delay == DecodeDelay(r.stream, old(r.Position()), present)
    ensures delay.Some? ==> r.Valid() && r.Position() == old(r.Position()) + 4
  {
    if present {
      var v := r.ReadBits(4);
      return if v.Some? then Some(v) else None;
    }
    var p := r.SeekBits(4);
    delay := if p.Some? then Some(None) else None;
  }

  method ReadRemaining(r: R.BitReader) returns (bytes: seq<byte>)
    requires r.Valid() && r.bitPos == 0
    modifies r
    ensures bytes == Remaining(r.stream, old(r.Position()))
  {
    if r.pos >= |r.data| {
      return [];
    }
    RemainingIs(r.stream, r.Position(), |r.data| - r.pos);
    var all := P.PerformReadBytes(r, |r.data| - r.pos);
    bytes := all.value;
  }

  method ReadRest(r: R.BitReader, v: seq<nat>) returns (rec: Option<Record>)
    requires r.Valid() && |v| == 13
    modifies r
    ensures rec == DecodeRest(r.stream, v, old(r.Position()))
  {
    if v[0] != 1 || v[1] != 1 {
      return None;
    }
    var delay := ReadDelay(r, v[12] == 1);
    if delay.None? || r.bitPos != 0 {
      return None;
    }
    var configObu := ReadRemaining(r);
    rec := Some(FromValues(v, delay.value, configObu));
  }

  /** `demux`, at the reader's position. */
  method Demux(header: Layout, r: R.BitReader) returns (rec: Option<Record>)
    requires IsHeader(header) && r.Valid()
    modifies r
    ensures rec == DecodeRecord(header, r.stream, old(r.Position()))
  {
    ghost var p := r.Position();
    var values := ReadFields(r, header);
    if values.None? {
      return None;
    }
    DecodedFits(r.stream, p, header);
    rec := ReadRest(r, values.value);
  }
}
