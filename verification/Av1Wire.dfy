/** The bytes of an AV1 codec configuration record.  The format is stated field by field,
    apart from the table that the writer and the reader go by; both are held against it. */
module Av1Wire {
  import opened Bits
  import opened Wrappers
  import opened Positions
  import opened Layouts
  import opened Wire
  import opened Av1
  import R = BitReader
  import P = BitPrograms

  // ---------------------------------------------------------------- the format

  ghost predicate HeaderOnWire(stream: seq<bool>, p: nat, r: Record) {
    && FlagAt(stream, p, true) && Stands(stream, p + 1, 1, 7)
    && Stands(stream, p + 8, r.profile, 3) && Stands(stream, p + 11, r.level, 5)
    && FlagAt(stream, p + 16, r.tier) && FlagAt(stream, p + 17, r.highBitDepth) && FlagAt(stream, p + 18, r.twelveBit)
    && FlagAt(stream, p + 19, r.monochrome) && FlagAt(stream, p + 20, r.subsamplingX) && FlagAt(stream, p + 21, r.subsamplingY)
    && Stands(stream, p + 22, r.samplePosition, 2) && Stands(stream, p + 24, r.hdrWcgIdc, 2)
    && FlagAt(stream, p + 27, r.presentationDelayMinusOne.Some?)
  }

  ghost predicate OnWire(stream: seq<bool>, p: nat, r: Record) {
    && HeaderOnWire(stream, p, r)
    && (r.presentationDelayMinusOne.Some? ==> Stands(stream, p + 28, r.presentationDelayMinusOne.value, 4))
    && (r.configObu != [] ==> At(stream, p + 32, BytesToBits(r.configObu)))
  }

  // ---------------------------------------------------------------- the table

  /** The header, in bits; the reserved bit is zero. */
  function HeaderTable(i: nat): Row {
    match i
    case 0 => Row(0, 1, 0, 0)      // marker
    case 1 => Row(1, 7, 0, 0)      // version
    case 2 => Row(8, 3, 0, 0)      // profile
    case 3 => Row(11, 5, 0, 0)     // level
    case 10 => Row(22, 2, 0, 0)    // sample position
    case 11 => Row(24, 2, 0, 0)    // HDR and wide colour gamut
    case 12 => Row(27, 1, 1, 0)    // presence of the delay
    case _ => Row(12 + i, 1, 0, 0) // flags: bits 16 to 21, for the fields 4 to 9
  }

  lemma TableAgrees(k: nat)
    requires k < 13
    ensures RowOk(HeaderSlot, HeaderTable, k)
  {
  }

  lemma Tables()
    ensures forall k :: 0 <= k < 13 ==> SlotOk(HeaderSlot(k))
    ensures forall k :: 0 <= k < 13 ==> RowOk(HeaderSlot, HeaderTable, k)
  {
    Slots();
    forall k | 0 <= k < 13 ensures RowOk(HeaderSlot, HeaderTable, k) {
      TableAgrees(k);
    }
  }

  ghost predicate InPlace(stream: seq<bool>, p: nat, v: seq<nat>, k: nat)
    requires k < |v|
  {
    Stands(stream, p + HeaderTable(k).offset, v[k], HeaderTable(k).width)
  }

  /** The values of a record as it stands on the wire. */
  predicate Carries(v: seq<nat>, r: Record) {
    && |v| == 13 && v[0] == 1 && v[1] == 1 && v[2] == r.profile && v[3] == r.level && v[4] == BoolValue(r.tier)
    && v[5] == BoolValue(r.highBitDepth) && v[6] == BoolValue(r.twelveBit) && v[7] == BoolValue(r.monochrome)
    && v[8] == BoolValue(r.subsamplingX) && v[9] == BoolValue(r.subsamplingY) && v[10] == r.samplePosition
    && v[11] == r.hdrWcgIdc && v[12] == BoolValue(r.presentationDelayMinusOne.Some?)
  }

  lemma NumbersInPlace(stream: seq<bool>, p: nat, v: seq<nat>)
    requires |v| == 13 && forall k :: 0 <= k < 13 ==> InPlace(stream, p, v, k)
    ensures Stands(stream, p, v[0], 1) && Stands(stream, p + 1, v[1], 7) && Stands(stream, p + 8, v[2], 3)
    ensures Stands(stream, p + 11, v[3], 5) && Stands(stream, p + 22, v[10], 2) && Stands(stream, p + 24, v[11], 2)
    ensures Stands(stream, p + 27, v[12], 1)
  {
    assert InPlace(stream, p, v, 0) && InPlace(stream, p, v, 1) && InPlace(stream, p, v, 2) && InPlace(stream, p, v, 3);
    assert InPlace(stream, p, v, 10) && InPlace(stream, p, v, 11) && InPlace(stream, p, v, 12);
  }

  lemma FlagsInPlace(stream: seq<bool>, p: nat, v: seq<nat>)
    requires |v| == 13 && forall k :: 0 <= k < 13 ==> InPlace(stream, p, v, k)
    ensures Stands(stream, p + 16, v[4], 1) && Stands(stream, p + 17, v[5], 1) && Stands(stream, p + 18, v[6], 1)
    ensures Stands(stream, p + 19, v[7], 1) && Stands(stream, p + 20, v[8], 1) && Stands(stream, p + 21, v[9], 1)
  {
    assert InPlace(stream, p, v, 4) && InPlace(stream, p, v, 5) && InPlace(stream, p, v, 6);
    assert InPlace(stream, p, v, 7) && InPlace(stream, p, v, 8) && InPlace(stream, p, v, 9);
  }

  lemma HeaderInPlace(stream: seq<bool>, p: nat, v: seq<nat>, r: Record)
    requires Carries(v, r) && forall k :: 0 <= k < 13 ==> InPlace(stream, p, v, k)
    ensures HeaderOnWire(stream, p, r)
  {
    NumbersInPlace(stream, p, v);
    FlagsInPlace(stream, p, v);
    FlagStands(stream, p, true);
    FlagStands(stream, p + 16, r.tier);
    FlagStands(stream, p + 17, r.highBitDepth);
    FlagStands(stream, p + 18, r.twelveBit);
    FlagStands(stream, p + 19, r.monochrome);
    FlagStands(stream, p + 20, r.subsamplingX);
    FlagStands(stream, p + 21, r.subsamplingY);
    FlagStands(stream, p + 27, r.presentationDelayMinusOne.Some?);
  }

  // ---------------------------------------------------------------- what is written

  lemma HeaderWritten(header: Layout, stream: seq<bool>, p: nat, r: Record)
    requires IsHeader(header) && At(stream, p, Encode(header, HeaderValues(r)))
    ensures HeaderOnWire(stream, p, r.(hdrWcgIdc := 0)) && FlagAt(stream, p + 26, false)
  {
    var v := HeaderValues(r);
    Tables();
    LayoutWritten(stream, p, header, HeaderSlot, 13, v, HeaderTable);
    forall k | 0 <= k < 13 ensures InPlace(stream, p, v, k) {
      assert InRow(stream, p, HeaderTable(k), v[k]);
    }
    HeaderInPlace(stream, p, v, r.(hdrWcgIdc := 0));
    assert InRow(stream, p, HeaderTable(12), v[12]);
    FlagStands(stream, p + 26, false);
  }

  /** What `mux` writes: every field stands where the format puts it, but for zeros in the place of
      the HDR field; the reserved bit is zero, and so are four bits in the place of an absent delay. */
  lemma WrittenIsOnWire(header: Layout, stream: seq<bool>, p: nat, r: Record)
    requires IsHeader(header) && At(stream, p, EncodeRecord(header, r))
    ensures OnWire(stream, p, r.(hdrWcgIdc := 0)) && FlagAt(stream, p + 26, false)
    ensures r.presentationDelayMinusOne.None? ==> Stands(stream, p + 28, 0, 4)
  {
    PartsStand(stream, p, Encode(header, HeaderValues(r)), ToBits(Delay(r), 4), BytesToBits(r.configObu));
    HeaderWritten(header, stream, p, r);
  }

  // ---------------------------------------------------------------- what is read

  lemma RemainingStands(stream: seq<bool>, p: nat, n: nat)
    requires p + 8 * n <= |stream| < p + 8 * n + 8
    ensures |Remaining(stream, p)| == n && At(stream, p, BytesToBits(Remaining(stream, p)))
  {
    RemainingSplit(stream, p, n);
    assert P.BytesAt(stream, p, n) + [] == P.BytesAt(stream, p, n);
    P.BytesAtSpells(stream, p, n);
    AtSlice(stream, p, stream[p..p + 8 * n]);
  }

  lemma DecodedCarries(header: Layout, v: seq<nat>, delay: Option<nat>, configObu: seq<byte>)
    requires IsHeader(header) && |v| == 13 && Fitting(header, v) && v[0] == 1 && v[1] == 1
    requires delay.Some? <==> v[12] == 1
    ensures Carries(v, FromValues(v, delay, configObu))
  {
    Slots();
    BuiltFits(header, HeaderSlot, 13, v);
    PowersOfTwo();
    forall k | 4 <= k < 10 || k == 12 ensures v[k] < 2 {
      assert v[k] < Pow2(HeaderSlot(k).width);
    }
  }

  lemma DecodedRest(stream: seq<bool>, v: seq<nat>, q: nat)
    requires DecodeRest(stream, v, q).Some?
    ensures var r := DecodeRest(stream, v, q).value;
            && |v| == 13 && v[0] == 1 && v[1] == 1
            && r == FromValues(v, r.presentationDelayMinusOne, r.configObu)
            && (r.presentationDelayMinusOne.Some? <==> v[12] == 1)
            && (r.presentationDelayMinusOne.Some? ==> Stands(stream, q, r.presentationDelayMinusOne.value, 4))
            && r.configObu == Remaining(stream, q + 4)
  {
    var r := DecodeRest(stream, v, q).value;
    if v[12] == 1 {
      ValueStands(stream, q, 4);
    }
  }

  lemma HeaderRead(header: Layout, stream: seq<bool>, p: nat, r: Record)
    requires IsHeader(header) && Decode(stream, p, header).Some? && Carries(Decode(stream, p, header).value.0, r)
    ensures HeaderOnWire(stream, p, r)
  {
    var v := Decode(stream, p, header).value.0;
    Tables();
    LayoutRead(stream, p, header, HeaderSlot, 13, HeaderTable);
    forall k | 0 <= k < 13 ensures InPlace(stream, p, v, k) {
      assert Stands(stream, p + HeaderTable(k).offset, v[k], HeaderTable(k).width);
    }
    HeaderInPlace(stream, p, v, r);
  }

  /** The whole bytes between two positions. */
  function WholeBytes(p: nat, end: nat): nat {
    if p <= end then (end - p) / 8 else 0
  }

  lemma RemainingRead(stream: seq<bool>, p: nat)
    ensures var rest := Remaining(stream, p);
            |rest| == WholeBytes(p, |stream|) && (rest != [] ==> At(stream, p, BytesToBits(rest)))
  {
    if p <= |stream| {
      RemainingStands(stream, p, WholeBytes(p, |stream|));
    }
  }

  /** What `demux` reads, from any data that it accepts: the record stands there, and its
      configuration OBUs take all whole bytes up to the end. */
  lemma DecodedIsOnWire(header: Layout, stream: seq<bool>, p: nat)
    requires IsHeader(header) && DecodeRecord(header, stream, p).Some?
    ensures var r := DecodeRecord(header, stream, p).value;
            OnWire(stream, p, r) && |r.configObu| == WholeBytes(p + 32, |stream|)
  {
    var (v, q) := Decode(stream, p, header).value;
    var r := DecodeRecord(header, stream, p).value;
    DecodedFits(stream, p, header);
    DecodedRest(stream, v, q);
    DecodedCarries(header, v, r.presentationDelayMinusOne, r.configObu);
    HeaderRead(header, stream, p, r);
    RemainingRead(stream, p + 32);
  }
}
