/** The bytes of an HEVC decoder configuration record.  The format is stated field by field, in bits
    from the start of the record, apart from the tables that the writer and the reader go by; both
    are held against it. */
module HevcWire {
  import opened Bits
  import opened Wrappers
  import opened Positions
  import opened Layouts
  import opened Wire
  import opened Hevc

  // ---------------------------------------------------------------- the format

  ghost predicate GeneralOnWire(stream: seq<bool>, p: nat, r: Record) {
    && Stands(stream, p, r.version, 8)
    && Stands(stream, p + 8, r.profileSpace, 2) && FlagAt(stream, p + 10, r.tier) && Stands(stream, p + 11, r.profileIdc, 5)
    && Stands(stream, p + 96, r.level, 8)
  }

  /** Both sets of flags are little-endian. */
  ghost predicate FlagsOnWire(stream: seq<bool>, p: nat, r: Record) {
    && Stands(stream, p + 16, r.compatibility % 0x100, 8)
    && Stands(stream, p + 24, r.compatibility / 0x100 % 0x100, 8)
    && Stands(stream, p + 32, r.compatibility / 0x1_0000 % 0x100, 8)
    && Stands(stream, p + 40, r.compatibility / 0x100_0000 % 0x100, 8)
    && Stands(stream, p + 48, r.constraints % 0x100, 8)
    && Stands(stream, p + 56, r.constraints / 0x100 % 0x100, 8)
    && Stands(stream, p + 64, r.constraints / 0x1_0000 % 0x100, 8)
    && Stands(stream, p + 72, r.constraints / 0x100_0000 % 0x100, 8)
    && Stands(stream, p + 80, r.constraints / 0x1_0000_0000 % 0x100, 8)
    && Stands(stream, p + 88, r.constraints / 0x100_0000_0000 % 0x100, 8)
  }

  ghost predicate FormatOnWire(stream: seq<bool>, p: nat, r: Record) {
    && Stands(stream, p + 108, r.minSpatialSegmentation, 12)
    && Stands(stream, p + 126, r.parallelism, 2)
    && Stands(stream, p + 134, r.chromaFormat, 2)
    && Stands(stream, p + 141, r.lumaDepthMinus8, 3)
    && Stands(stream, p + 149, r.chromaDepthMinus8, 3)
    && Stands(stream, p + 152, r.avgFrameRate, 16)
    && Stands(stream, p + 168, r.constantFrameRate, 2) && Stands(stream, p + 170, r.temporalLayers, 3)
    && FlagAt(stream, p + 173, r.temporalIdNested) && Stands(stream, p + 174, r.lengthSizeMinusOne, 2)
    && Stands(stream, p + 176, |r.arrays| % 0x100, 8)
  }

  /** The number of a NAL unit type in table 7-1 of ITU-T H.265. */
  function TypeNumber(t: NaluType): nat {
    match t
    case Vps => 32
    case Sps => 33
    case Pps => 34
    case Unknown(b) => b
  }

  ghost predicate ArrayOnWire(stream: seq<bool>, p: nat, a: NaluArray) {
    && FlagAt(stream, p, a.complete) && Stands(stream, p + 2, TypeNumber(a.nalType), 6)
    && Stands(stream, p + 8, |a.nalus| % 0x1_0000, 16) && BlobsStand(stream, p + 24, a.nalus)
  }

  /** Array `i` stands where those before it end. */
  ghost predicate NthArrayOnWire(stream: seq<bool>, p: nat, arrays: seq<NaluArray>, i: nat)
    requires i < |arrays|
  {
    ArrayOnWire(stream, p + 8 * ArraysSize(arrays[..i]), arrays[i])
  }

  ghost predicate ArraysOnWire(stream: seq<bool>, p: nat, arrays: seq<NaluArray>) {
    forall i :: 0 <= i < |arrays| ==> NthArrayOnWire(stream, p, arrays, i)
  }

  ghost predicate OnWire(stream: seq<bool>, p: nat, r: Record) {
    && GeneralOnWire(stream, p, r) && FlagsOnWire(stream, p, r) && FormatOnWire(stream, p, r)
    && ArraysOnWire(stream, p + 184, r.arrays)
  }

  /** The reserved bits of the header are ones. */
  ghost predicate ReservedOnWire(stream: seq<bool>, p: nat) {
    && Stands(stream, p + 104, 0xf, 4) && Stands(stream, p + 120, 0x3f, 6) && Stands(stream, p + 128, 0x3f, 6)
    && Stands(stream, p + 136, 0x1f, 5) && Stands(stream, p + 144, 0x1f, 5)
  }

  /** The reserved bit of an array is zero. */
  ghost predicate ArrayReserved(stream: seq<bool>, p: nat, arrays: seq<NaluArray>, i: nat)
    requires i < |arrays|
  {
    FlagAt(stream, p + 8 * ArraysSize(arrays[..i]) + 1, false)
  }

  ghost predicate ArraysReserved(stream: seq<bool>, p: nat, arrays: seq<NaluArray>) {
    forall i :: 0 <= i < |arrays| ==> ArrayReserved(stream, p, arrays, i)
  }

  // ---------------------------------------------------------------- the header

  /** The header as section 8.3.2.1 of ISO/IEC 14496-15 lays it out, in bits. */
  function HeaderTable(i: nat): Row {
    match i
    case 0 => Row(0, 8, 0, 0)             // version
    case 1 => Row(8, 2, 0, 0)             // profile space
    case 2 => Row(10, 1, 0, 0)            // tier
    case 3 => Row(11, 5, 0, 0)            // profile
    case 15 => Row(108, 12, 4, 0xf)       // spatial segmentation
    case 16 => Row(126, 2, 6, 0x3f)       // parallelism
    case 17 => Row(134, 2, 6, 0x3f)       // chroma format
    case 18 => Row(141, 3, 5, 0x1f)       // luma depth
    case 19 => Row(149, 3, 5, 0x1f)       // chroma depth
    case 20 => Row(152, 16, 0, 0)         // average frame rate
    case 21 => Row(168, 2, 0, 0)          // constant frame rate
    case 22 => Row(170, 3, 0, 0)          // temporal layers
    case 23 => Row(173, 1, 0, 0)          // temporal nesting
    case 24 => Row(174, 2, 0, 0)          // length size
    case 25 => Row(176, 8, 0, 0)          // number of arrays
    case _ => Row(8 * i - 16, 8, 0, 0)    // flags and level: bytes 2 to 12, for the fields 4 to 14
  }

  lemma TableAgrees(k: nat)
    requires k < 26
    ensures RowOk(HeaderSlot, HeaderTable, k)
  {
  }

  ghost predicate InPlace(stream: seq<bool>, p: nat, r: Record, k: nat) {
    Stands(stream, p + HeaderTable(k).offset, HeaderValue(r, k), HeaderTable(k).width)
  }

  lemma GeneralInPlace(stream: seq<bool>, p: nat, r: Record)
    requires forall k :: 0 <= k < 26 ==> InPlace(stream, p, r, k)
    ensures GeneralOnWire(stream, p, r)
  {
    assert InPlace(stream, p, r, 0) && InPlace(stream, p, r, 1) && InPlace(stream, p, r, 2);
    assert InPlace(stream, p, r, 3) && InPlace(stream, p, r, 14);
    FlagStands(stream, p + 10, r.tier);
  }

  lemma Quotients(v: nat)
    ensures v / 0x100 / 0x100 == v / 0x1_0000
    ensures v / 0x1_0000 / 0x100 == v / 0x100_0000
    ensures v / 0x100_0000 / 0x100 == v / 0x1_0000_0000
    ensures v / 0x1_0000_0000 / 0x100 == v / 0x100_0000_0000
  {
  }

  lemma TwoBytes(v: nat, n: nat)
    requires n >= 2
    ensures LeBytes(v, n) == [v % 0x100, v / 0x100 % 0x100] + LeBytes(v / 0x100 / 0x100, n - 2)
  {
    assert LeBytes(v, n) == [v % 0x100] + LeBytes(v / 0x100, n - 1);
  }

  lemma LeBytesAre(v: nat)
    ensures LeBytes(v, 4) == [v % 0x100, v / 0x100 % 0x100, v / 0x1_0000 % 0x100, v / 0x100_0000 % 0x100]
    ensures LeBytes(v, 6) == LeBytes(v, 4) + [v / 0x1_0000_0000 % 0x100, v / 0x100_0000_0000 % 0x100]
  {
    Quotients(v);
    TwoBytes(v, 4);
    TwoBytes(v / 0x1_0000, 2);
    TwoBytes(v, 6);
    TwoBytes(v / 0x1_0000, 4);
    TwoBytes(v / 0x1_0000_0000, 2);
    Quotients(v / 0x1_0000);
  }

  ghost predicate BytesStand(stream: seq<bool>, p: nat, bytes: seq<nat>) {
    forall i :: 0 <= i < |bytes| ==> Stands(stream, p + 8 * i, bytes[i], 8)
  }

  lemma FlagBytes(stream: seq<bool>, p: nat, r: Record)
    requires forall k :: 0 <= k < 26 ==> InPlace(stream, p, r, k)
    ensures BytesStand(stream, p + 16, LeBytes(r.compatibility, 4)) && BytesStand(stream, p + 48, LeBytes(r.constraints, 6))
  {
    forall i | 0 <= i < 4 ensures Stands(stream, p + 16 + 8 * i, LeBytes(r.compatibility, 4)[i], 8) {
      assert InPlace(stream, p, r, i + 4);
    }
    forall i | 0 <= i < 6 ensures Stands(stream, p + 48 + 8 * i, LeBytes(r.constraints, 6)[i], 8) {
      assert InPlace(stream, p, r, i + 8);
    }
  }

  lemma FourBytesStand(stream: seq<bool>, p: nat, bytes: seq<nat>, a: nat, b: nat, c: nat, d: nat)
    requires BytesStand(stream, p, bytes) && |bytes| >= 4 && bytes[..4] == [a, b, c, d]
    ensures Stands(stream, p, a, 8) && Stands(stream, p + 8, b, 8) && Stands(stream, p + 16, c, 8) && Stands(stream, p + 24, d, 8)
  {
    assert Stands(stream, p + 8 * 0, bytes[0], 8) && Stands(stream, p + 8 * 1, bytes[1], 8);
    assert Stands(stream, p + 8 * 2, bytes[2], 8) && Stands(stream, p + 8 * 3, bytes[3], 8);
  }

  lemma FlagsInPlace(stream: seq<bool>, p: nat, r: Record)
    requires forall k :: 0 <= k < 26 ==> InPlace(stream, p, r, k)
    ensures FlagsOnWire(stream, p, r)
  {
    var v, w := r.compatibility, r.constraints;
    FlagBytes(stream, p, r);
    LeBytesAre(v);
    LeBytesAre(w);
    FourBytesStand(stream, p + 16, LeBytes(v, 4), v % 0x100, v / 0x100 % 0x100, v / 0x1_0000 % 0x100, v / 0x100_0000 % 0x100);
    FourBytesStand(stream, p + 48, LeBytes(w, 6), w % 0x100, w / 0x100 % 0x100, w / 0x1_0000 % 0x100, w / 0x100_0000 % 0x100);
    assert Stands(stream, p + 48 + 8 * 4, LeBytes(w, 6)[4], 8) && Stands(stream, p + 48 + 8 * 5, LeBytes(w, 6)[5], 8);
  }

  lemma FormatInPlace(stream: seq<bool>, p: nat, r: Record)
    requires forall k :: 0 <= k < 26 ==> InPlace(stream, p, r, k)
    ensures FormatOnWire(stream, p, r)
  {
    assert InPlace(stream, p, r, 15) && InPlace(stream, p, r, 16) && InPlace(stream, p, r, 17) && InPlace(stream, p, r, 18);
    assert InPlace(stream, p, r, 19) && InPlace(stream, p, r, 20) && InPlace(stream, p, r, 21) && InPlace(stream, p, r, 22);
    assert InPlace(stream, p, r, 23) && InPlace(stream, p, r, 24) && InPlace(stream, p, r, 25);
    FlagStands(stream, p + 173, r.temporalIdNested);
  }

  lemma Tables()
    ensures forall k :: 0 <= k < 26 ==> SlotOk(HeaderSlot(k))
    ensures forall k :: 0 <= k < 26 ==> RowOk(HeaderSlot, HeaderTable, k)
  {
    HeaderSlots();
    forall k | 0 <= k < 26 ensures RowOk(HeaderSlot, HeaderTable, k) {
      TableAgrees(k);
    }
  }

  lemma HeaderOnWire(header: Layout, stream: seq<bool>, p: nat, r: Record)
    requires IsHeader(header) && At(stream, p, Encode(header, HeaderValues(r)))
    ensures GeneralOnWire(stream, p, r) && FlagsOnWire(stream, p, r) && FormatOnWire(stream, p, r) && ReservedOnWire(stream, p)
  {
    Tables();
    LayoutWritten(stream, p, header, HeaderSlot, 26, HeaderValues(r), HeaderTable);
    forall k | 0 <= k < 26 ensures InPlace(stream, p, r, k) {
      assert InRow(stream, p, HeaderTable(k), HeaderValues(r)[k]);
    }
    GeneralInPlace(stream, p, r);
    FlagsInPlace(stream, p, r);
    FormatInPlace(stream, p, r);
    assert InRow(stream, p, HeaderTable(15), HeaderValues(r)[15]) && InRow(stream, p, HeaderTable(16), HeaderValues(r)[16]);
    assert InRow(stream, p, HeaderTable(17), HeaderValues(r)[17]) && InRow(stream, p, HeaderTable(18), HeaderValues(r)[18]);
    assert InRow(stream, p, HeaderTable(19), HeaderValues(r)[19]);
  }

  lemma {:induction false} LeValueBack(bytes: seq<nat>)
    requires forall i :: 0 <= i < |bytes| ==> bytes[i] < 256
    ensures LeBytes(LeValue(bytes), |bytes|) == bytes
  {
    if bytes != [] {
      LeValueBack(bytes[1..]);
      assert LeValue(bytes) % 256 == bytes[0] && LeValue(bytes) / 256 == LeValue(bytes[1..]);
    }
  }

  /** What was read is what the record has. */
  lemma DecodedValue(v: seq<nat>, arrays: seq<NaluArray>, k: nat)
    requires |v| == 26 && k < 26 && |arrays| == v[25] < 0x100 && v[2] < 2 && v[23] < 2
    requires forall i :: 4 <= i < 14 ==> v[i] < 256
    ensures HeaderValue(FromValues(v, arrays), k) == v[k]
  {
    if 4 <= k < 8 {
      LeValueBack(v[4..8]);
    } else if 8 <= k < 14 {
      LeValueBack(v[8..14]);
    }
  }

  lemma DecodedRanges(header: Layout, v: seq<nat>)
    requires IsHeader(header) && |v| == 26 && Fitting(header, v)
    ensures v[2] < 2 && v[23] < 2 && v[25] < 0x100 && forall i :: 4 <= i < 14 ==> v[i] < 256
  {
    HeaderSlots();
    BuiltFits(header, HeaderSlot, 26, v);
    PowersOfTwo();
    assert v[2] < Pow2(HeaderSlot(2).width) && v[23] < Pow2(HeaderSlot(23).width) && v[25] < Pow2(HeaderSlot(25).width);
    forall i | 4 <= i < 14 ensures v[i] < 256 {
      assert v[i] < Pow2(HeaderSlot(i).width);
    }
  }

  lemma DecodedHeader(header: Layout, stream: seq<bool>, p: nat, arrays: seq<NaluArray>)
    requires IsHeader(header) && Decode(stream, p, header).Some?
    requires var v := Decode(stream, p, header).value.0; |v| == 26 && |arrays| == v[25]
    ensures var r := FromValues(Decode(stream, p, header).value.0, arrays);
            GeneralOnWire(stream, p, r) && FlagsOnWire(stream, p, r) && FormatOnWire(stream, p, r)
  {
    var v := Decode(stream, p, header).value.0;
    Tables();
    LayoutRead(stream, p, header, HeaderSlot, 26, HeaderTable);
    DecodedRanges(header, v);
    forall k | 0 <= k < 26 ensures InPlace(stream, p, FromValues(v, arrays), k) {
      DecodedValue(v, arrays, k);
    }
    GeneralInPlace(stream, p, FromValues(v, arrays));
    FlagsInPlace(stream, p, FromValues(v, arrays));
    FormatInPlace(stream, p, FromValues(v, arrays));
  }

  // ---------------------------------------------------------------- the arrays

  /** The fields of `ArrayHeader`. */
  function ArraySlot(i: nat): Slot {
    if i == 0 then Slot(0, 0, 1) else if i == 1 then Slot(1, 0, 6) else Slot(0, 0, 16)
  }

  function ArrayTable(i: nat): Row {
    if i == 0 then Row(0, 1, 0, 0) else if i == 1 then Row(2, 6, 1, 0) else Row(8, 16, 0, 0)
  }

  lemma ArrayIsBuilt()
    ensures IsBuilt(ArrayHeader(), ArraySlot, 3)
    ensures forall k :: 0 <= k < 3 ==> SlotOk(ArraySlot(k))
    ensures forall k :: 0 <= k < 3 ==> RowOk(ArraySlot, ArrayTable, k)
  {
    PowersOfTwo();
    assert Build(ArraySlot, 2, 3) == Field(16, End);
    assert Build(ArraySlot, 1, 3) == Reserved(1, 0, Field(6, Field(16, End)));
  }

  lemma ArrayFieldsWritten(header: Layout, stream: seq<bool>, p: nat, v: seq<nat>)
    requires IsBuilt(header, ArraySlot, 3) && |v| == 3 && At(stream, p, Encode(header, v))
    ensures Stands(stream, p, v[0], 1) && Stands(stream, p + 1, 0, 1) && Stands(stream, p + 2, v[1], 6) && Stands(stream, p + 8, v[2], 16)
  {
    ArrayIsBuilt();
    LayoutWritten(stream, p, header, ArraySlot, 3, v, ArrayTable);
    assert InRow(stream, p, ArrayTable(0), v[0]) && InRow(stream, p, ArrayTable(1), v[1]) && InRow(stream, p, ArrayTable(2), v[2]);
  }

  lemma ArrayWritten(stream: seq<bool>, p: nat, a: NaluArray)
    requires At(stream, p, EncodeArray(a))
    ensures ArrayOnWire(stream, p, a) && FlagAt(stream, p + 1, false)
  {
    var v := ArrayValues(a);
    AtSplit(stream, p, Encode(ArrayHeader(), v), EncodeBlobs(a.nalus));
    BlobsWritten(stream, p + 24, a.nalus);
    ArrayIsBuilt();
    ArrayFieldsWritten(ArrayHeader(), stream, p, v);
    FlagStands(stream, p, a.complete);
    FlagStands(stream, p + 1, false);
  }

  lemma ArrayFieldsRead(header: Layout, stream: seq<bool>, p: nat)
    requires IsBuilt(header, ArraySlot, 3) && Decode(stream, p, header).Some?
    ensures var (v, q) := Decode(stream, p, header).value;
            && |v| == 3 && Fitting(header, v) && q == p + header.Width()
            && Stands(stream, p, v[0], 1) && Stands(stream, p + 2, v[1], 6) && Stands(stream, p + 8, v[2], 16)
  {
    ArrayIsBuilt();
    LayoutRead(stream, p, header, ArraySlot, 3, ArrayTable);
    ArrayRows(stream, p, Decode(stream, p, header).value.0);
  }

  lemma ArrayRows(stream: seq<bool>, p: nat, v: seq<nat>)
    requires |v| == 3 && forall k :: 0 <= k < 3 ==> Stands(stream, p + ArrayTable(k).offset, v[k], ArrayTable(k).width)
    ensures Stands(stream, p, v[0], 1) && Stands(stream, p + 2, v[1], 6) && Stands(stream, p + 8, v[2], 16)
  {
    assert Stands(stream, p + ArrayTable(0).offset, v[0], ArrayTable(0).width);
    assert Stands(stream, p + ArrayTable(1).offset, v[1], ArrayTable(1).width);
    assert Stands(stream, p + ArrayTable(2).offset, v[2], ArrayTable(2).width);
  }

  lemma ArrayRead(stream: seq<bool>, p: nat)
    requires DecodeArray(stream, p).Some?
    ensures var (a, q) := DecodeArray(stream, p).value;
            ArrayOnWire(stream, p, a) && q == p + 24 + 8 * BlobsSize(a.nalus)
  {
    var header := ArrayHeader();
    var s := DecodeSection(stream, p, header, BlobAt(stream)).value;
    SectionParts(stream, p, header, BlobAt(stream));
    ArrayIsBuilt();
    ArrayFieldsRead(header, stream, p);
    ArrayDecoded(stream, p);
    ArrayFields(s.values);
    ArrayFromSection(stream, p, s);
  }

  lemma ArrayFromSection(stream: seq<bool>, p: nat, s: Section<seq<byte>>)
    requires |s.values| == 3 && s.values[0] < 2 && s.values[1] < 64 && s.values[2] < 0x1_0000
    requires Stands(stream, p, s.values[0], 1) && Stands(stream, p + 2, s.values[1], 6) && Stands(stream, p + 8, s.values[2], 16)
    requires DecodeBlobs(stream, p + 24, s.values[2]) == Some((s.elements, s.end))
    ensures ArrayOnWire(stream, p, FromArrayValues(s.values, s.elements)) && s.end == p + 24 + 8 * BlobsSize(s.elements)
  {
    BlobsRead(stream, p + 24, s.values[2]);
    FlagStands(stream, p, s.values[0] == 1);
  }

  lemma NthArrayStays(stream: seq<bool>, p: nat, arrays: seq<NaluArray>, a: NaluArray, i: nat)
    requires i < |arrays|
    ensures NthArrayOnWire(stream, p, arrays + [a], i) <==> NthArrayOnWire(stream, p, arrays, i)
  {
    assert (arrays + [a])[..i] == arrays[..i];
  }

  lemma LastArrayOnWire(stream: seq<bool>, p: nat, arrays: seq<NaluArray>, a: NaluArray)
    requires ArrayOnWire(stream, p + 8 * ArraysSize(arrays), a)
    ensures NthArrayOnWire(stream, p, arrays + [a], |arrays|)
  {
    assert (arrays + [a])[..|arrays|] == arrays;
  }

  lemma ArraysAppend(stream: seq<bool>, p: nat, arrays: seq<NaluArray>, a: NaluArray)
    requires ArraysOnWire(stream, p, arrays) && ArrayOnWire(stream, p + 8 * ArraysSize(arrays), a)
    ensures ArraysOnWire(stream, p, arrays + [a])
  {
    forall i | 0 <= i < |arrays + [a]| ensures NthArrayOnWire(stream, p, arrays + [a], i) {
      if i < |arrays| {
        NthArrayStays(stream, p, arrays, a, i);
      } else {
        LastArrayOnWire(stream, p, arrays, a);
      }
    }
  }

  lemma ReservedAppend(stream: seq<bool>, p: nat, arrays: seq<NaluArray>, a: NaluArray)
    requires ArraysReserved(stream, p, arrays) && FlagAt(stream, p + 8 * ArraysSize(arrays) + 1, false)
    ensures ArraysReserved(stream, p, arrays + [a])
  {
    var more := arrays + [a];
    forall i | 0 <= i < |more| ensures ArrayReserved(stream, p, more, i) {
      if i < |arrays| {
        assert more[..i] == arrays[..i] && ArrayReserved(stream, p, arrays, i);
      } else {
        assert more[..i] == arrays;
      }
    }
  }

  lemma {:induction false} ArraysWritten(stream: seq<bool>, p: nat, arrays: seq<NaluArray>)
    requires At(stream, p, EncodeMany(EncodeArray, arrays))
    ensures ArraysOnWire(stream, p, arrays) && ArraysReserved(stream, p, arrays)
  {
    if arrays != [] {
      var n := |arrays| - 1;
      EncodedArraysSize(arrays[..n]);
      LastStands(stream, p, EncodeArray, arrays, n);
      ArraysWritten(stream, p, arrays[..n]);
      ArrayWritten(stream, p + 8 * ArraysSize(arrays[..n]), arrays[n]);
      ArraysAppend(stream, p, arrays[..n], arrays[n]);
      ReservedAppend(stream, p, arrays[..n], arrays[n]);
      assert arrays[..n] + [arrays[n]] == arrays;
    }
  }

  lemma SizeAppend(arrays: seq<NaluArray>, a: NaluArray)
    ensures ArraysSize(arrays + [a]) == ArraysSize(arrays) + 3 + BlobsSize(a.nalus)
  {
    assert (arrays + [a])[..|arrays|] == arrays;
  }

  lemma {:induction false} ArraysRead(stream: seq<bool>, p: nat, n: nat)
    requires DecodeMany(ArrayAt(stream), p, n).Some?
    ensures var (arrays, q) := DecodeMany(ArrayAt(stream), p, n).value;
            |arrays| == n && ArraysOnWire(stream, p, arrays) && q == p + 8 * ArraysSize(arrays)
  {
    if n > 0 {
      ArraysRead(stream, p, n - 1);
      var (arrays, q) := DecodeMany(ArrayAt(stream), p, n - 1).value;
      ArrayRead(stream, q);
      var a := DecodeArray(stream, q).value.0;
      ArraysAppend(stream, p, arrays, a);
      SizeAppend(arrays, a);
    }
  }

  // ---------------------------------------------------------------- main results

  /** What `mux` writes: every field, array and NAL unit stands where the format puts it, in the
      reserved bits there are ones in the header and zeros in the arrays. */
  lemma WrittenIsOnWire(header: Layout, stream: seq<bool>, p: nat, r: Record)
    requires IsHeader(header) && At(stream, p, EncodeRecord(header, r))
    ensures OnWire(stream, p, r) && ReservedOnWire(stream, p) && ArraysReserved(stream, p + 184, r.arrays)
  {
    AtSplit(stream, p, Encode(header, HeaderValues(r)), EncodeMany(EncodeArray, r.arrays));
    HeaderOnWire(header, stream, p, r);
    ArraysWritten(stream, p + 184, r.arrays);
  }

  /** What `demux` reads, from any data that it accepts: the record stands there, and `demux` stops
      right after it. */
  lemma DecodedIsOnWire(header: Layout, stream: seq<bool>, p: nat)
    requires IsHeader(header) && DecodeRecord(header, stream, p).Some?
    ensures var (r, q) := DecodeRecord(header, stream, p).value; OnWire(stream, p, r) && q == p + 8 * Size(r)
  {
    var s := DecodeSection(stream, p, header, ArrayAt(stream)).value;
    SectionParts(stream, p, header, ArrayAt(stream));
    DecodedFits(stream, p, header);
    ArraysRead(stream, p + 184, s.values[25]);
    DecodedHeader(header, stream, p, s.elements);
  }
}
