/** The bytes of an AVC decoder configuration record.  The format is stated field by field,
    apart from the tables that the writer and the reader go by; both are held against it. */
module AvcWire {
  import opened Bits
  import opened Wrappers
  import opened Positions
  import opened Layouts
  import opened Wire
  import opened Avc

  // ---------------------------------------------------------------- the format

  ghost predicate HeaderOnWire(stream: seq<bool>, p: nat, r: Record) {
    && Stands(stream, p, r.version, 8) && Stands(stream, p + 8, r.profile, 8)
    && Stands(stream, p + 16, r.compatibility, 8) && Stands(stream, p + 24, r.level, 8)
    && Stands(stream, p + 38, r.lengthSizeMinusOne, 2)
    && Stands(stream, p + 43, |r.sps|, 5) && BlobsStand(stream, p + 48, r.sps)
  }

  ghost predicate PpsOnWire(stream: seq<bool>, p: nat, pps: seq<seq<byte>>) {
    Stands(stream, p, |pps|, 8) && BlobsStand(stream, p + 8, pps)
  }

  ghost predicate ExtendedOnWire(stream: seq<bool>, p: nat, e: Extended) {
    && Stands(stream, p + 6, e.chromaFormat, 2) && Stands(stream, p + 13, e.lumaDepthMinus8, 3)
    && Stands(stream, p + 21, e.chromaDepthMinus8, 3)
    && Stands(stream, p + 24, |e.spsExt|, 8) && BlobsStand(stream, p + 32, e.spsExt)
  }

  /** Where the picture parameter sets start. */
  function PpsStart(p: nat, r: Record): nat {
    p + 48 + 8 * BlobsSize(r.sps)
  }

  function ExtendedStart(p: nat, r: Record): nat {
    PpsStart(p, r) + 8 + 8 * BlobsSize(r.pps)
  }

  ghost predicate OnWire(stream: seq<bool>, p: nat, r: Record) {
    && HeaderOnWire(stream, p, r) && PpsOnWire(stream, PpsStart(p, r), r.pps)
    && (r.extended.Some? ==> ExtendedOnWire(stream, ExtendedStart(p, r), r.extended.value))
  }

  /** Reserved bits are ones. */
  ghost predicate HeaderReserved(stream: seq<bool>, p: nat) {
    Stands(stream, p + 32, 0x3f, 6) && Stands(stream, p + 40, 0x7, 3)
  }

  ghost predicate ExtendedReserved(stream: seq<bool>, p: nat) {
    Stands(stream, p, 0x3f, 6) && Stands(stream, p + 8, 0x1f, 5) && Stands(stream, p + 16, 0x1f, 5)
  }

  // ---------------------------------------------------------------- the tables

  /** The header as section 5.3.2.1.2 of ISO/IEC 14496-15 lays it out, in bits. */
  function HeaderTable(i: nat): Row {
    match i
    case 4 => Row(38, 2, 6, 0x3f)    // length size
    case 5 => Row(43, 5, 3, 0x7)     // number of sequence parameter sets
    case _ => Row(8 * i, 8, 0, 0)    // version, profile, compatibility, level
  }

  function ExtendedTable(i: nat): Row {
    match i
    case 0 => Row(6, 2, 6, 0x3f)     // chroma format
    case 1 => Row(13, 3, 5, 0x1f)    // luma depth
    case 2 => Row(21, 3, 5, 0x1f)    // chroma depth
    case _ => Row(24, 8, 0, 0)       // number of extensions
  }

  function PpsTable(i: nat): Row {
    Row(0, 8, 0, 0)
  }

  lemma Tables()
    ensures forall k :: 0 <= k < 6 ==> SlotOk(HeaderSlot(k))
    ensures forall k :: 0 <= k < 1 ==> SlotOk(PpsSlot(k))
    ensures forall k :: 0 <= k < 4 ==> SlotOk(ExtendedSlot(k))
    ensures forall k :: 0 <= k < 6 ==> RowOk(HeaderSlot, HeaderTable, k)
    ensures forall k :: 0 <= k < 1 ==> RowOk(PpsSlot, PpsTable, k)
    ensures forall k :: 0 <= k < 4 ==> RowOk(ExtendedSlot, ExtendedTable, k)
  {
    Slots();
  }

  ghost predicate InPlace(stream: seq<bool>, p: nat, table: nat -> Row, v: seq<nat>, k: nat)
    requires k < |v|
  {
    Stands(stream, p + table(k).offset, v[k], table(k).width)
  }

  lemma HeaderInPlace(stream: seq<bool>, p: nat, r: Record)
    requires forall k :: 0 <= k < 6 ==> InPlace(stream, p, HeaderTable, HeaderValues(r), k)
    requires BlobsStand(stream, p + 48, r.sps)
    ensures HeaderOnWire(stream, p, r)
  {
    var v := HeaderValues(r);
    assert InPlace(stream, p, HeaderTable, v, 0) && InPlace(stream, p, HeaderTable, v, 1) && InPlace(stream, p, HeaderTable, v, 2);
    assert InPlace(stream, p, HeaderTable, v, 3) && InPlace(stream, p, HeaderTable, v, 4) && InPlace(stream, p, HeaderTable, v, 5);
  }

  lemma ExtendedInPlace(stream: seq<bool>, p: nat, e: Extended)
    requires forall k :: 0 <= k < 4 ==> InPlace(stream, p, ExtendedTable, ExtendedValues(e), k)
    requires BlobsStand(stream, p + 32, e.spsExt)
    ensures ExtendedOnWire(stream, p, e)
  {
    var v := ExtendedValues(e);
    assert InPlace(stream, p, ExtendedTable, v, 0) && InPlace(stream, p, ExtendedTable, v, 1);
    assert InPlace(stream, p, ExtendedTable, v, 2) && InPlace(stream, p, ExtendedTable, v, 3);
  }

  // ---------------------------------------------------------------- what is written

  lemma HeaderWritten(f: Format, stream: seq<bool>, p: nat, r: Record)
    requires IsFormat(f) && At(stream, p, EncodeHeader(f, r))
    ensures HeaderOnWire(stream, p, r) && HeaderReserved(stream, p)
  {
    var v := HeaderValues(r);
    Tables();
    CountedWritten(stream, p, f.header, HeaderSlot, 6, v, HeaderTable, r.sps);
    forall k | 0 <= k < 6 ensures InPlace(stream, p, HeaderTable, v, k) {
      assert InRow(stream, p, HeaderTable(k), v[k]);
    }
    HeaderInPlace(stream, p, r);
    assert InRow(stream, p, HeaderTable(4), v[4]) && InRow(stream, p, HeaderTable(5), v[5]);
  }

  lemma PpsWritten(f: Format, stream: seq<bool>, p: nat, pps: seq<seq<byte>>)
    requires IsFormat(f) && At(stream, p, EncodePps(f, pps))
    ensures PpsOnWire(stream, p, pps)
  {
    Tables();
    CountedWritten(stream, p, f.pps, PpsSlot, 1, [|pps|], PpsTable, pps);
    assert InRow(stream, p, PpsTable(0), [|pps|][0]);
  }

  lemma ExtendedWritten(f: Format, stream: seq<bool>, p: nat, e: Extended)
    requires IsFormat(f) && At(stream, p, EncodeExtended(f, Some(e)))
    ensures ExtendedOnWire(stream, p, e) && ExtendedReserved(stream, p)
  {
    var v := ExtendedValues(e);
    Tables();
    CountedWritten(stream, p, f.extended, ExtendedSlot, 4, v, ExtendedTable, e.spsExt);
    forall k | 0 <= k < 4 ensures InPlace(stream, p, ExtendedTable, v, k) {
      assert InRow(stream, p, ExtendedTable(k), v[k]);
    }
    ExtendedInPlace(stream, p, e);
    assert InRow(stream, p, ExtendedTable(0), v[0]) && InRow(stream, p, ExtendedTable(1), v[1]) && InRow(stream, p, ExtendedTable(2), v[2]);
  }

  lemma PartsAt(f: Format, stream: seq<bool>, p: nat, r: Record)
    requires IsFormat(f) && At(stream, p, EncodeRecord(f, r))
    ensures At(stream, p, EncodeHeader(f, r)) && At(stream, PpsStart(p, r), EncodePps(f, r.pps))
    ensures At(stream, ExtendedStart(p, r), EncodeExtended(f, r.extended))
  {
    EncodedBlobsSize(r.sps);
    EncodedBlobsSize(r.pps);
    PartsStand(stream, p, EncodeHeader(f, r), EncodePps(f, r.pps), EncodeExtended(f, r.extended));
  }

  /** What `mux` writes: every field and every parameter set stands where the format puts it, with
      ones in the reserved bits. */
  lemma WrittenIsOnWire(f: Format, stream: seq<bool>, p: nat, r: Record)
    requires IsFormat(f) && At(stream, p, EncodeRecord(f, r))
    ensures OnWire(stream, p, r) && HeaderReserved(stream, p)
    ensures r.extended.Some? ==> ExtendedReserved(stream, ExtendedStart(p, r))
  {
    PartsAt(f, stream, p, r);
    HeaderWritten(f, stream, p, r);
    PpsWritten(f, stream, PpsStart(p, r), r.pps);
    if r.extended.Some? {
      ExtendedWritten(f, stream, ExtendedStart(p, r), r.extended.value);
    }
  }

  // ---------------------------------------------------------------- what is read

  /** The sections of a record that was read. */
  lemma RecordParts(f: Format, stream: seq<bool>, p: nat) returns (h: Section<seq<byte>>, s: Section<seq<byte>>)
    requires IsFormat(f) && DecodeRecord(f, stream, p).Some?
    ensures DecodeSection(stream, p, f.header, BlobAt(stream)) == Some(h) && |h.values| == 6
    ensures DecodeSection(stream, h.end, f.pps, BlobAt(stream)) == Some(s)
    ensures var (r, q) := DecodeRecord(f, stream, p).value;
            && r == Record(h.values[0], h.values[1], h.values[2], h.values[3], h.values[4], h.elements, s.elements, r.extended)
            && DecodeExtended(f, stream, s.end, r.profile) == Some((r.extended, q))
  {
    h := DecodeSection(stream, p, f.header, BlobAt(stream)).value;
    s := DecodeSection(stream, h.end, f.pps, BlobAt(stream)).value;
  }

  lemma HeaderRead(f: Format, stream: seq<bool>, p: nat, h: Section<seq<byte>>, r: Record)
    requires IsFormat(f) && DecodeSection(stream, p, f.header, BlobAt(stream)) == Some(h) && |h.values| == 6
    requires r == Record(h.values[0], h.values[1], h.values[2], h.values[3], h.values[4], h.elements, r.pps, r.extended)
    ensures HeaderOnWire(stream, p, r) && h.end == PpsStart(p, r)
  {
    Tables();
    CountedRead(stream, p, f.header, HeaderSlot, 6, HeaderTable);
    assert h.values == HeaderValues(r);
    forall k | 0 <= k < 6 ensures InPlace(stream, p, HeaderTable, HeaderValues(r), k) {
      assert Stands(stream, p + HeaderTable(k).offset, h.values[k], HeaderTable(k).width);
    }
    HeaderInPlace(stream, p, r);
  }

  lemma PpsRead(f: Format, stream: seq<bool>, p: nat)
    requires IsFormat(f) && DecodeSection(stream, p, f.pps, BlobAt(stream)).Some?
    ensures var s := DecodeSection(stream, p, f.pps, BlobAt(stream)).value;
            PpsOnWire(stream, p, s.elements) && s.end == p + 8 + 8 * BlobsSize(s.elements)
  {
    Tables();
    CountedRead(stream, p, f.pps, PpsSlot, 1, PpsTable);
    var s := DecodeSection(stream, p, f.pps, BlobAt(stream)).value;
    assert Stands(stream, p + PpsTable(0).offset, s.values[0], PpsTable(0).width);
  }

  /** An extended part is read exactly if the profile may have one and data is left. */
  lemma ExtendedRead(f: Format, stream: seq<bool>, p: nat, profile: nat)
    requires IsFormat(f) && DecodeExtended(f, stream, p, profile).Some?
    ensures var (e, q) := DecodeExtended(f, stream, p, profile).value;
            && (e.None? <==> profile in {66, 77, 88} || p >= |stream|)
            && (e.None? ==> q == p)
            && (e.Some? ==> ExtendedOnWire(stream, p, e.value) && q == p + 32 + 8 * BlobsSize(e.value.spsExt))
  {
    var e := DecodeExtended(f, stream, p, profile).value.0;
    if e.Some? {
      Tables();
      CountedRead(stream, p, f.extended, ExtendedSlot, 4, ExtendedTable);
      ExtendedSectionRead(stream, p, DecodeSection(stream, p, f.extended, BlobAt(stream)).value, e.value);
    }
  }

  lemma ExtendedSectionRead(stream: seq<bool>, p: nat, s: Section<seq<byte>>, e: Extended)
    requires |s.values| == 4 && |s.elements| == s.values[3] && BlobsStand(stream, p + 32, s.elements)
    requires forall k :: 0 <= k < 4 ==> Stands(stream, p + ExtendedTable(k).offset, s.values[k], ExtendedTable(k).width)
    requires e == Extended(s.values[0], s.values[1], s.values[2], s.elements)
    ensures ExtendedOnWire(stream, p, e)
  {
    assert s.values == ExtendedValues(e);
    forall k | 0 <= k < 4 ensures InPlace(stream, p, ExtendedTable, ExtendedValues(e), k) {
      assert Stands(stream, p + ExtendedTable(k).offset, s.values[k], ExtendedTable(k).width);
    }
    ExtendedInPlace(stream, p, e);
  }

  /** What `demux` reads, from any data that it accepts: the record stands there and `demux` stops
      right after it; there is an extended part exactly if the profile may have one and data is left. */
  lemma DecodedIsOnWire(f: Format, stream: seq<bool>, p: nat)
    requires IsFormat(f) && DecodeRecord(f, stream, p).Some?
    ensures var (r, q) := DecodeRecord(f, stream, p).value;
            && OnWire(stream, p, r) && q == p + 8 * Size(r)
            && (r.extended.None? <==> r.profile in {66, 77, 88} || ExtendedStart(p, r) >= |stream|)
  {
    var r := DecodeRecord(f, stream, p).value.0;
    var h, s := RecordParts(f, stream, p);
    HeaderRead(f, stream, p, h, r);
    PpsRead(f, stream, h.end);
    ExtendedRead(f, stream, s.end, r.profile);
  }
}
