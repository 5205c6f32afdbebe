/** `HEVCDecoderConfigurationRecord` of crates/h265/src/config.rs. */
module Hevc {
  // The format is that of section 8.3.2.1 of ISO/IEC 14496-15.  An I/O error and a panic are both the
  // outcome `None`.

  import opened Bits
  import opened Wrappers
  import opened Positions
  import opened Layouts
  import R = BitReader
  import W = BitWriter
  import P = BitPrograms

  datatype NaluType = Vps | Pps | Sps | Unknown(value: byte)

  function FromByte(b: byte): NaluType {
    match b
    case 32 => Vps
    case 33 => Sps
    case 34 => Pps
    case _ => Unknown(b)
  }

  function ToByte(t: NaluType): byte {
    match t
    case Vps => 32
    case Sps => 33
    case Pps => 34
    case Unknown(b) => b
  }

  datatype NaluArray = NaluArray(complete: bool, nalType: NaluType, nalus: seq<seq<byte>>)

  datatype Record = Record(
    version: nat, profileSpace: nat, tier: bool, profileIdc: nat, compatibility: nat, constraints: nat, level: nat,
    minSpatialSegmentation: nat, parallelism: nat, chromaFormat: nat, lumaDepthMinus8: nat, chromaDepthMinus8: nat,
    avgFrameRate: nat, constantFrameRate: nat, temporalLayers: nat, temporalIdNested: bool, lengthSizeMinusOne: nat,
    arrays: seq<NaluArray>)

  /** The Rust types of the fields. */
  predicate Typed(r: Record) {
    && r.version < 0x100 && r.profileSpace < 0x100 && r.profileIdc < 0x100
    && r.compatibility < 0x1_0000_0000 && r.constraints < TWO_64 && r.level < 0x100
    && r.minSpatialSegmentation < 0x1_0000 && r.parallelism < 0x100 && r.chromaFormat < 0x100
    && r.lumaDepthMinus8 < 0x100 && r.chromaDepthMinus8 < 0x100 && r.avgFrameRate < 0x1_0000
    && r.constantFrameRate < 0x100 && r.temporalLayers < 0x100 && r.lengthSizeMinusOne < 0x100
  }

  /** What `mux` accepts: sub-byte fields in range, 48 bits of constraint flags (the writer of a
      48-bit integer panics on more), and six bits of NAL type. */
  predicate Muxable(r: Record) {
    && FieldsInRange(r) && r.constraints < 0x1_0000_0000_0000
    && forall i :: 0 <= i < |r.arrays| ==> ArrayMuxable(r.arrays[i])
  }

  predicate FieldsInRange(r: Record) {
    && r.profileSpace < 4 && r.profileIdc < 32 && r.minSpatialSegmentation < 4096 && r.parallelism < 4
    && r.chromaFormat < 4 && r.lumaDepthMinus8 < 8 && r.chromaDepthMinus8 < 8 && r.constantFrameRate < 4
    && r.temporalLayers < 8 && r.lengthSizeMinusOne < 4
  }

  predicate ArrayMuxable(a: NaluArray) {
    ToByte(a.nalType) < 64
  }

  /** What the counts and lengths on the wire can say, and NAL types in canonical form. */
  predicate ArrayFaithful(a: NaluArray) {
    && |a.nalus| < 0x1_0000 && ShortBlobs(a.nalus)
    && FromByte(ToByte(a.nalType)) == a.nalType
  }

  predicate Faithful(r: Record) {
    |r.arrays| < 0x100 && forall i :: 0 <= i < |r.arrays| ==> ArrayFaithful(r.arrays[i])
  }

  // ---------------------------------------------------------------- wire format

  /** A little-endian integer is a run of bytes, the lowest first. */
  function LeBytes(v: nat, n: nat): (r: seq<nat>)
    ensures |r| == n && forall i :: 0 <= i < n ==> r[i] < 256
    decreases n, v
  {
    if n == 0 then [] else [v % 256] + LeBytes(v / 256, n - 1)
  }

  function LeValue(bytes: seq<nat>): nat {
    if bytes == [] then 0 else bytes[0] + 256 * LeValue(bytes[1..])
  }

  lemma {:induction false} LeBack(v: nat, n: nat)
    requires v < Pow2(8 * n)
    ensures LeValue(LeBytes(v, n)) == v
  {
    if n > 0 {
      assert Pow2(8 * n) == 256 * Pow2(8 * (n - 1)) by {
        Pow2Sum(8, 8 * (n - 1));
        PowersOfTwo();
      }
      LeBack(v / 256, n - 1);
    }
  }

  /** The fields up to the number of arrays. */
  function HeaderSlot(i: nat): Slot {
    match i
    case 0 => Slot(0, 0, 8)       // version
    case 1 => Slot(0, 0, 2)       // profile space
    case 2 => Slot(0, 0, 1)       // tier
    case 3 => Slot(0, 0, 5)       // profile
    case 15 => Slot(4, 15, 12)    // spatial segmentation
    case 16 => Slot(6, 63, 2)     // parallelism
    case 17 => Slot(6, 63, 2)     // chroma format
    case 18 => Slot(5, 31, 3)     // luma depth
    case 19 => Slot(5, 31, 3)     // chroma depth
    case 20 => Slot(0, 0, 16)     // average frame rate
    case 21 => Slot(0, 0, 2)      // constant frame rate
    case 22 => Slot(0, 0, 3)      // temporal layers
    case 23 => Slot(0, 0, 1)      // temporal nesting
    case 24 => Slot(0, 0, 2)      // length size
    case _ => Slot(0, 0, 8)       // the bytes of the flags, the level, the number of arrays
  }

  /** The width of the fields from `i` on. */
  function HeaderRest(i: nat): nat
    decreases 26 - i
  {
    if i >= 26 then 0 else HeaderSlot(i).reserved + HeaderSlot(i).width + HeaderRest(i + 1)
  }

  lemma HeaderSlots()
    ensures forall i :: 0 <= i < 26 ==> SlotOk(HeaderSlot(i))
  {
    PowersOfTwo();
  }

  lemma {:induction false} HeaderWidth(i: nat)
    requires i <= 26
    ensures Build(HeaderSlot, i, 26).Width() == HeaderRest(i)
    decreases 26 - i
  {
    if i < 26 {
      HeaderWidth(i + 1);
    }
  }

  lemma HeaderShape()
    ensures Build(HeaderSlot, 0, 26).WellFormed() && Build(HeaderSlot, 0, 26).Fields() == 26
  {
    HeaderSlots();
    BuildShape(HeaderSlot, 0, 26);
  }

  lemma HeaderTailWide()
    ensures HeaderRest(13) == 96
  {
    assert HeaderRest(17) == 56 by {
      assert HeaderRest(21) == 16;
    }
  }

  lemma HeaderWide()
    ensures HeaderRest(0) == 184
  {
    assert HeaderRest(5) == 160 by {
      HeaderTailWide();
      assert HeaderRest(9) == 128;
    }
  }

  ghost predicate IsHeader(header: Layout) {
    IsBuilt(header, HeaderSlot, 26) && header.Width() == 184
  }

  method MakeHeader() returns (header: Layout)
    ensures IsHeader(header)
  {
    HeaderShape();
    HeaderWidth(0);
    HeaderWide();
    header := Build(HeaderSlot, 0, 26);
  }

  /** Everything up to the number of NAL units. */
  function ArrayHeader(): (r: Layout)
    ensures r.WellFormed() && r.Fields() == 3 && r.Width() == 24
  {
    Field(1, Reserved(1, 0, Field(6, Field(16, End))))
  }

  /** The counts are cast to `u8` and `u16` without a check. */
  function HeaderValue(r: Record, i: nat): nat {
    match i
    case 0 => r.version
    case 1 => r.profileSpace
    case 2 => BoolValue(r.tier)
    case 3 => r.profileIdc
    case 14 => r.level
    case 15 => r.minSpatialSegmentation
    case 16 => r.parallelism
    case 17 => r.chromaFormat
    case 18 => r.lumaDepthMinus8
    case 19 => r.chromaDepthMinus8
    case 20 => r.avgFrameRate
    case 21 => r.constantFrameRate
    case 22 => r.temporalLayers
    case 23 => BoolValue(r.temporalIdNested)
    case 24 => r.lengthSizeMinusOne
    case 25 => |r.arrays| % 0x100
    case _ =>
      if 4 <= i < 8 then LeBytes(r.compatibility, 4)[i - 4]
      else if 8 <= i < 14 then LeBytes(r.constraints, 6)[i - 8] else 0
  }

  function HeaderValues(r: Record): seq<nat> {
    seq(26, i requires 0 <= i < 26 => HeaderValue(r, i))
  }

  function FromValues(v: seq<nat>, arrays: seq<NaluArray>): Record
    requires |v| == 26
  {
    Record(v[0], v[1], v[2] == 1, v[3], LeValue(v[4..8]), LeValue(v[8..14]), v[14], v[15], v[16], v[17], v[18], v[19],
           v[20], v[21], v[22], v[23] == 1, v[24], arrays)
  }

  function ArrayValues(a: NaluArray): (values: seq<nat>)
    ensures |values| == 3
  {
    [BoolValue(a.complete), ToByte(a.nalType), |a.nalus| % 0x1_0000]
  }

  function FromArrayValues(v: seq<nat>, nalus: seq<seq<byte>>): NaluArray
    requires |v| == 3 && v[1] < 256
  {
    NaluArray(v[0] == 1, FromByte(v[1]), nalus)
  }

  function EncodeArray(a: NaluArray): seq<bool> {
    EncodeSection(ArrayHeader(), ArrayValues(a), EncodeBlob, a.nalus)
  }

  function EncodeRecord(header: Layout, r: Record): seq<bool>
    requires header.Fields() == 26
  {
    EncodeSection(header, HeaderValues(r), EncodeArray, r.arrays)
  }

  function DecodeArray(stream: seq<bool>, p: nat): Option<(NaluArray, nat)> {
    var s :- DecodeSection(stream, p, ArrayHeader(), BlobAt(stream));
    ArrayDecoded(stream, p);
    Some((FromArrayValues(s.values, s.elements), s.end))
  }

  function ArrayAt(stream: seq<bool>): nat -> Option<(NaluArray, nat)> {
    p => DecodeArray(stream, p)
  }

  /** `demux` on a flat stream. */
  function DecodeRecord(header: Layout, stream: seq<bool>, p: nat): Option<(Record, nat)> {
    var s :- DecodeSection(stream, p, header, ArrayAt(stream));
    if |s.values| == 26 then Some((FromValues(s.values, s.elements), s.end)) else None
  }

  lemma ArrayFields(v: seq<nat>)
    requires |v| == 3
    ensures Fitting(ArrayHeader(), v) <==> v[0] < 2 && v[1] < 64 && v[2] < 0x1_0000
  {
    assert ArrayHeader().Widths() == [1, 6, 16];
    FittingMeans(ArrayHeader(), v);
    assert Pow2(1) == 2 && Pow2(6) == 64 && Pow2(16) == 0x1_0000 by {
      PowersOfTwo();
      Pow2Of16();
    }
  }

  lemma ArrayDecoded(stream: seq<bool>, p: nat)
    requires DecodeSection(stream, p, ArrayHeader(), BlobAt(stream)).Some?
    ensures var s := DecodeSection(stream, p, ArrayHeader(), BlobAt(stream)).value;
            |s.values| == 3 && s.values[1] < 64 && |s.elements| < 0x1_0000 && ShortBlobs(s.elements)
  {
    CountedDecoded(stream, p, ArrayHeader());
    ArrayFields(DecodeSection(stream, p, ArrayHeader(), BlobAt(stream)).value.values);
  }

  lemma ArraysFaithful(stream: seq<bool>)
    ensures forall q :: ArrayAt(stream)(q).Some? ==> ArrayFaithful(ArrayAt(stream)(q).value.0)
  {
    forall q | ArrayAt(stream)(q).Some? ensures ArrayFaithful(ArrayAt(stream)(q).value.0) {
      ArrayDecoded(stream, q);
    }
  }

  lemma CountFits(header: Layout, v: seq<nat>)
    requires IsHeader(header) && |v| == 26 && Fitting(header, v)
    ensures v[25] < 0x100
  {
    HeaderSlots();
    BuiltFits(header, HeaderSlot, 26, v);
    assert v[25] < Pow2(HeaderSlot(25).width);
    PowersOfTwo();
  }

  /** `demux` only produces what the wire can say. */
  lemma DecodedIsFaithful(header: Layout, stream: seq<bool>, p: nat)
    requires IsHeader(header) && DecodeRecord(header, stream, p).Some?
    ensures Faithful(DecodeRecord(header, stream, p).value.0)
  {
    ArraysFaithful(stream);
    SectionDecoded(stream, p, header, ArrayAt(stream), ArrayFaithful);
    CountFits(header, DecodeSection(stream, p, header, ArrayAt(stream)).value.values);
  }

  // ---------------------------------------------------------------- what the writer accepts

  predicate ValueFits(r: Record, i: nat) {
    HeaderValue(r, i) < Pow2(HeaderSlot(i).width)
  }

  /** The header fields fit exactly when the sub-byte fields are in range. */
  lemma HeaderFits(header: Layout, r: Record)
    requires IsHeader(header) && Typed(r)
    ensures Fitting(header, HeaderValues(r)) <==> FieldsInRange(r)
  {
    ValuesFit(header, r);
    if FieldsInRange(r) {
      forall i | 0 <= i < 26 ensures ValueFits(r, i) {
        RangesSuffice(r, i);
      }
    }
    if forall i :: 0 <= i < 26 ==> ValueFits(r, i) {
      RangesNeeded(r);
    }
  }

  lemma ValuesFit(header: Layout, r: Record)
    requires IsHeader(header)
    ensures Fitting(header, HeaderValues(r)) <==> forall i :: 0 <= i < 26 ==> ValueFits(r, i)
  {
    HeaderSlots();
    BuiltFits(header, HeaderSlot, 26, HeaderValues(r));
    forall i | 0 <= i < 26 ensures ValueFits(r, i) == (HeaderValues(r)[i] < Pow2(HeaderSlot(i).width)) {
    }
  }

  lemma RangesSuffice(r: Record, i: nat)
    requires Typed(r) && FieldsInRange(r) && i < 26
    ensures ValueFits(r, i)
  {
    PowersOfTwo();
    Pow2Of16();
    Pow2Sum(8, 4);
  }

  lemma RangesNeeded(r: Record)
    requires forall i :: 0 <= i < 26 ==> ValueFits(r, i)
    ensures FieldsInRange(r)
  {
    PowersOfTwo();
    Pow2Sum(8, 4);
    assert ValueFits(r, 1) && ValueFits(r, 3) && ValueFits(r, 15) && ValueFits(r, 16) && ValueFits(r, 17);
    assert ValueFits(r, 18) && ValueFits(r, 19) && ValueFits(r, 21) && ValueFits(r, 22) && ValueFits(r, 24);
  }

  // ---------------------------------------------------------------- size

  /** `size`, in bytes. */
  function Size(r: Record): nat {
    23 + ArraysSize(r.arrays)
  }

  function ArraysSize(arrays: seq<NaluArray>): nat {
    if arrays == [] then 0 else ArraysSize(arrays[..|arrays| - 1]) + 3 + BlobsSize(arrays[|arrays| - 1].nalus)
  }

  lemma {:induction false} EncodedArraysSize(arrays: seq<NaluArray>)
    ensures |EncodeMany(EncodeArray, arrays)| == 8 * ArraysSize(arrays)
  {
    if arrays != [] {
      EncodedArraysSize(arrays[..|arrays| - 1]);
      EncodedBlobsSize(arrays[|arrays| - 1].nalus);
    }
  }

  /** `size` counts the bytes that `mux` writes, for every record, truncated counts included. */
  lemma SizeIsBytesWritten(header: Layout, r: Record)
    requires IsHeader(header)
    ensures |EncodeRecord(header, r)| == 8 * Size(r)
  {
    EncodedArraysSize(r.arrays);
  }

  // ---------------------------------------------------------------- round trip

  lemma ArrayBack(stream: seq<bool>, p: nat, a: NaluArray)
    requires ArrayFaithful(a) && ArrayMuxable(a)
    requires At(stream, p, EncodeArray(a))
    ensures DecodeArray(stream, p) == Some((a, p + |EncodeArray(a)|))
  {
    assert FromArrayValues(ArrayValues(a), a.nalus) == a;
    assert DecodeSection(stream, p, ArrayHeader(), BlobAt(stream))
        == Some(Section(ArrayValues(a), a.nalus, p + |EncodeArray(a)|)) by {
      BlobInverses(stream, a.nalus);
      ArrayFields(ArrayValues(a));
      SectionBack(stream, p, ArrayHeader(), ArrayValues(a), EncodeBlob, BlobAt(stream), a.nalus);
    }
  }

  lemma ArrayInverse(stream: seq<bool>, a: NaluArray)
    requires ArrayFaithful(a) && ArrayMuxable(a)
    ensures Inverse(EncodeArray, ArrayAt(stream), a, stream)
  {
    forall p: nat | At(stream, p, EncodeArray(a)) ensures ArrayAt(stream)(p) == Some((a, p + |EncodeArray(a)|)) {
      ArrayBack(stream, p, a);
    }
  }

  lemma ArrayInverses(stream: seq<bool>, arrays: seq<NaluArray>)
    requires forall i :: 0 <= i < |arrays| ==> ArrayFaithful(arrays[i]) && ArrayMuxable(arrays[i])
    ensures forall i :: 0 <= i < |arrays| ==> Inverse(EncodeArray, ArrayAt(stream), arrays[i], stream)
  {
    forall i | 0 <= i < |arrays| ensures Inverse(EncodeArray, ArrayAt(stream), arrays[i], stream) {
      ArrayInverse(stream, arrays[i]);
    }
  }

  lemma ValuesBack(r: Record)
    requires Typed(r) && r.constraints < 0x1_0000_0000_0000
    ensures FromValues(HeaderValues(r), r.arrays) == r
  {
    var v := HeaderValues(r);
    assert LeValue(v[4..8]) == r.compatibility by {
      assert v[4..8] == LeBytes(r.compatibility, 4);
      FlagsBack(r.compatibility, 4);
    }
    assert LeValue(v[8..14]) == r.constraints by {
      assert v[8..14] == LeBytes(r.constraints, 6);
      FlagsBack(r.constraints, 6);
    }
  }

  lemma FlagsBack(v: nat, n: nat)
    requires (n == 4 && v < 0x1_0000_0000) || (n == 6 && v < 0x1_0000_0000_0000)
    ensures LeValue(LeBytes(v, n)) == v
  {
    Pow2Of16();
    Pow2Sum(16, 16);
    Pow2Sum(32, 16);
    LeBack(v, n);
  }

  /** The values are those of `r`. */
  ghost predicate Restores(values: seq<nat>, r: Record) {
    |values| == 26 && forall u {:trigger Peek(u)} :: Peek(u) ==> FromValues(values, r.arrays) == r
  }

  lemma HeaderBack(header: Layout, r: Record)
    requires IsHeader(header) && Typed(r) && Muxable(r) && Faithful(r)
    ensures Fitting(header, HeaderValues(r)) && HeaderValues(r)[25] == |r.arrays|
    ensures Restores(HeaderValues(r), r)
  {
    HeaderFits(header, r);
    ValuesBack(r);
  }

  lemma LaidOutBack(header: Layout, stream: seq<bool>, p: nat, values: seq<nat>, r: Record)
    requires header.WellFormed() && header.Fields() == |values| == 26 && Fitting(header, values)
    requires values[25] == |r.arrays| && Restores(values, r)
    requires forall i :: 0 <= i < |r.arrays| ==> ArrayFaithful(r.arrays[i]) && ArrayMuxable(r.arrays[i])
    requires At(stream, p, EncodeSection(header, values, EncodeArray, r.arrays))
    ensures DecodeRecord(header, stream, p)
         == Some((r, p + |EncodeSection(header, values, EncodeArray, r.arrays)|))
  {
    ArrayInverses(stream, r.arrays);
    SectionBack(stream, p, header, values, EncodeArray, ArrayAt(stream), r.arrays);
    assert Peek(0);
  }

  /** The exact round trip, wherever the record stands: a record that `mux` accepts is given back
      by `demux` if and only if its counts and lengths fit their width on the wire and its NAL
      types are canonical. */
  lemma RoundTripExactlyWhenFaithful(header: Layout, stream: seq<bool>, p: nat, r: Record)
    requires IsHeader(header) && Typed(r) && Muxable(r)
    requires At(stream, p, EncodeRecord(header, r))
    ensures DecodeRecord(header, stream, p) == Some((r, p + 8 * Size(r))) <==> Faithful(r)
  {
    if Faithful(r) {
      HeaderBack(header, r);
      SizeIsBytesWritten(header, r);
      LaidOutBack(header, stream, p, HeaderValues(r), r);
    } else if DecodeRecord(header, stream, p).Some? {
      DecodedIsFaithful(header, stream, p);
    }
  }

  // ---------------------------------------------------------------- through the reader and the writer

  method WriteArray(w: W.BitWriter, a: NaluArray) returns (ok: bool)
    requires w.Valid()
    modifies w
    ensures w.Valid()
    ensures ok <==> ArrayMuxable(a)
    ensures ok ==> w.Written() == old(w.Written()) + EncodeArray(a)
  {
    ArrayFields(ArrayValues(a));
    ok := WriteCounted(w, ArrayHeader(), ArrayValues(a), a.nalus);
  }

  /** `bits` spell the first `i` arrays. */
  ghost predicate SpellsArrays(bits: seq<bool>, arrays: seq<NaluArray>, i: nat) {
    i <= |arrays| && forall u {:trigger Peek(u)} :: Peek(u) ==> bits == EncodeMany(EncodeArray, arrays[..i])
  }

  method WriteNextArray(w: W.BitWriter, arrays: seq<NaluArray>, i: nat, ghost start: seq<bool>, ghost done: seq<bool>)
    returns (ok: bool, ghost more: seq<bool>)
    requires w.Valid() && i < |arrays| && SpellsArrays(done, arrays, i) && w.Written() == start + done
    modifies w
    ensures w.Valid()
    ensures ok <==> ArrayMuxable(arrays[i])
    ensures ok ==> SpellsArrays(more, arrays, i + 1) && w.Written() == start + more
  {
    assert Peek(0);
    ok := WriteArray(w, arrays[i]);
    more := EncodeMany(EncodeArray, arrays[..i + 1]);
    ManyStep(EncodeArray, arrays, i, start);
  }

  method WriteArrays(w: W.BitWriter, arrays: seq<NaluArray>) returns (ok: bool)
    requires w.Valid()
    modifies w
    ensures w.Valid()
    ensures ok <==> forall i :: 0 <= i < |arrays| ==> ArrayMuxable(arrays[i])
    ensures ok ==> w.Written() == old(w.Written()) + EncodeMany(EncodeArray, arrays)
  {
    ghost var start := w.Written();
    ghost var done: seq<bool> := [];
    assert start + done == start;
    for i := 0 to |arrays|
      invariant w.Valid() && SpellsArrays(done, arrays, i) && w.Written() == start + done
      invariant forall j :: 0 <= j < i ==> ArrayMuxable(arrays[j])
    {
      var fits;
      fits, done := WriteNextArray(w, arrays, i, start, done);
      if !fits {
        return false;
      }
    }
    assert Peek(0);
    assert arrays[..|arrays|] == arrays;
    ok := true;
  }

  lemma ValuesAreWords(r: Record)
    requires Typed(r)
    ensures forall i :: 0 <= i < 26 ==> HeaderValues(r)[i] < TWO_64
  {
    forall i | 0 <= i < 26 ensures HeaderValues(r)[i] < TWO_64 {
      assert HeaderValues(r)[i] == HeaderValue(r, i) < 0x1_0000;
    }
  }

  method WriteHeader(w: W.BitWriter, header: Layout, r: Record) returns (ok: bool)
    requires w.Valid() && w.Written() == [] && IsHeader(header) && Typed(r)
    modifies w
    ensures w.Valid()
    ensures ok <==> FieldsInRange(r) && r.constraints < 0x1_0000_0000_0000
    ensures ok ==> w.Written() == Encode(header, HeaderValues(r))
  {
    HeaderFits(header, r);
    ValuesAreWords(r);
    ok := WriteFields(w, header, HeaderValues(r));
    ok := ok && r.constraints < 0x1_0000_0000_0000;
    assert [] + Encode(header, HeaderValues(r)) == Encode(header, HeaderValues(r));
  }

  /** `mux` succeeds exactly on `Muxable` records, and then writes `size` bytes that spell the record. */
  method Mux(header: Layout, r: Record) returns (bytes: Option<seq<byte>>)
    requires IsHeader(header) && Typed(r)
    ensures bytes.Some? <==> Muxable(r)
    ensures bytes.Some? ==> BytesToBits(bytes.value) == EncodeRecord(header, r) && |bytes.value| == Size(r)
  {
    var w := new W.BitWriter();
    var ok := WriteHeader(w, header, r);
    if !ok {
      return None;
    }
    ok := WriteArrays(w, r.arrays);
    if !ok {
      return None;
    }
    SizeIsBytesWritten(header, r);
    var all := FinishWhole(w, Size(r));
    bytes := Some(all);
  }

  method ReadArray(r: R.BitReader) returns (a: Option<NaluArray>)
    requires r.Valid()
    modifies r
    ensures var d := DecodeArray(r.stream, old(r.Position()));
            && (a.Some? <==> d.Some?)
            && (a.Some? ==> r.Valid() && d.value == (a.value, r.Position()))
  {
    ghost var p := r.Position();
    var s := ReadCounted(r, ArrayHeader());
    if s.None? {
      return None;
    }
    ArrayDecoded(r.stream, p);
    a := Some(FromArrayValues(s.value.values, s.value.elements));
  }

  method ReadArrays(r: R.BitReader, n: nat) returns (arrays: Option<seq<NaluArray>>)
    requires r.Valid()
    modifies r
    ensures var d := DecodeMany(ArrayAt(r.stream), old(r.Position()), n);
            && (arrays.Some? <==> d.Some?)
            && (arrays.Some? ==> r.Valid() && d.value == (arrays.value, r.Position()))
  {
    ghost var p := r.Position();
    var got: seq<NaluArray> := [];
    for i := 0 to n
      invariant r.Valid() && DecodeMany(ArrayAt(r.stream), p, i) == Some((got, r.Position()))
    {
      var a := ReadArray(r);
      if a.None? {
        ManyFails(ArrayAt(r.stream), p, i + 1, n);
        return None;
      }
      got := got + [a.value];
    }
    arrays := Some(got);
  }

  /** `demux`, at the reader's position. */
  method Demux(header: Layout, r: R.BitReader) returns (rec: Option<Record>)
    requires IsHeader(header) && r.Valid()
    modifies r
    ensures var d := DecodeRecord(header, r.stream, old(r.Position()));
            && (rec.Some? <==> d.Some?)
            && (rec.Some? ==> r.Valid() && d.value == (rec.value, r.Position()))
  {
    ghost var p := r.Position();
    var v := ReadFields(r, header);
    if v.None? {
      return None;
    }
    DecodedFits(r.stream, p, header);
    var arrays := ReadArrays(r, v.value[25]);
    if arrays.None? {
      return None;
    }
    rec := Some(FromValues(v.value, arrays.value));
  }
}
