/** `AVCDecoderConfigurationRecord` of crates/h264/src/config.rs (section 5.3.2.1.2 of
    ISO/IEC 14496-15).  An I/O error is the outcome `None`. */
module Avc {
  import opened Bits
  import opened Wrappers
  import opened Positions
  import opened Layouts
  import R = BitReader
  import W = BitWriter
  import P = BitPrograms

  datatype Extended = Extended(chromaFormat: nat, lumaDepthMinus8: nat, chromaDepthMinus8: nat, spsExt: seq<seq<byte>>)

  datatype Record = Record(
    version: nat, profile: nat, compatibility: nat, level: nat, lengthSizeMinusOne: nat,
    sps: seq<seq<byte>>, pps: seq<seq<byte>>, extended: Option<Extended>)

  /** The Rust types of the fields. */
  predicate Typed(r: Record) {
    && r.version < 0x100 && r.profile < 0x100 && r.compatibility < 0x100 && r.level < 0x100
    && r.lengthSizeMinusOne < 0x100 && |r.sps| < TWO_64 && |r.pps| < TWO_64
    && (r.extended.Some? ==>
          var e := r.extended.value;
          e.chromaFormat < 0x100 && e.lumaDepthMinus8 < 0x100 && e.chromaDepthMinus8 < 0x100 && |e.spsExt| < TWO_64)
  }

  /** What `mux` accepts. */
  predicate Muxable(r: Record) {
    && r.lengthSizeMinusOne < 4 && |r.sps| < 32 && |r.pps| < 256
    && (r.extended.Some? ==> ExtendedMuxable(r.extended.value))
  }

  predicate ExtendedMuxable(e: Extended) {
    e.chromaFormat < 4 && e.lumaDepthMinus8 < 8 && e.chromaDepthMinus8 < 8 && |e.spsExt| < 256
  }

  /** The profiles without an extended part. */
  predicate Basic(profile: nat) {
    profile == 66 || profile == 77 || profile == 88
  }

  /** What the wire can say: 16-bit lengths, and no extended part for the basic profiles. */
  predicate Faithful(r: Record) {
    && ShortBlobs(r.sps) && ShortBlobs(r.pps)
    && (r.extended.Some? ==> ShortBlobs(r.extended.value.spsExt) && !Basic(r.profile))
  }

  // ---------------------------------------------------------------- wire format

  function HeaderSlot(i: nat): Slot {
    match i
    case 4 => Slot(6, 63, 2)   // length size
    case 5 => Slot(3, 7, 5)    // number of sequence parameter sets
    case _ => Slot(0, 0, 8)    // version, profile, compatibility, level
  }

  /** The number of picture parameter sets. */
  function PpsSlot(i: nat): Slot {
    Slot(0, 0, 8)
  }

  function ExtendedSlot(i: nat): Slot {
    match i
    case 0 => Slot(6, 63, 2)   // chroma format
    case 1 => Slot(5, 31, 3)   // luma depth
    case 2 => Slot(5, 31, 3)   // chroma depth
    case _ => Slot(0, 0, 8)    // number of extensions
  }

  datatype Format = Format(header: Layout, pps: Layout, extended: Layout)

  ghost predicate IsFormat(f: Format) {
    && IsBuilt(f.header, HeaderSlot, 6) && f.header.Width() == 48
    && IsBuilt(f.pps, PpsSlot, 1) && f.pps.Width() == 8
    && IsBuilt(f.extended, ExtendedSlot, 4) && f.extended.Width() == 32
  }

  lemma Slots()
    ensures forall i :: 0 <= i < 6 ==> OctetSlot(HeaderSlot(i))
    ensures forall i :: 0 <= i < 1 ==> OctetSlot(PpsSlot(i))
    ensures forall i :: 0 <= i < 4 ==> OctetSlot(ExtendedSlot(i))
  {
    PowersOfTwo();
  }

  lemma {:induction false} OctetWidth(slot: nat -> Slot, i: nat, n: nat)
    requires i <= n && forall j :: i <= j < n ==> OctetSlot(slot(j))
    ensures Build(slot, i, n).Width() == 8 * (n - i)
    decreases n - i
  {
    if i < n {
      OctetWidth(slot, i + 1, n);
    }
  }

  method MakeLayout(slot: nat -> Slot, n: nat) returns (layout: Layout)
    requires forall i :: 0 <= i < n ==> OctetSlot(slot(i))
    ensures IsBuilt(layout, slot, n) && layout.Width() == 8 * n
  {
    BuildShape(slot, 0, n);
    OctetWidth(slot, 0, n);
    layout := Build(slot, 0, n);
  }

  method MakeFormat() returns (f: Format)
    ensures IsFormat(f)
  {
    Slots();
    var header := MakeLayout(HeaderSlot, 6);
    var pps := MakeLayout(PpsSlot, 1);
    var extended := MakeLayout(ExtendedSlot, 4);
    f := Format(header, pps, extended);
  }

  function HeaderValues(r: Record): (v: seq<nat>)
    ensures |v| == 6
  {
    [r.version, r.profile, r.compatibility, r.level, r.lengthSizeMinusOne, |r.sps|]
  }

  function ExtendedValues(e: Extended): (v: seq<nat>)
    ensures |v| == 4
  {
    [e.chromaFormat, e.lumaDepthMinus8, e.chromaDepthMinus8, |e.spsExt|]
  }

  function EncodeHeader(f: Format, r: Record): seq<bool>
    requires f.header.Fields() == 6
  {
    EncodeSection(f.header, HeaderValues(r), EncodeBlob, r.sps)
  }

  function EncodePps(f: Format, pps: seq<seq<byte>>): seq<bool>
    requires f.pps.Fields() == 1
  {
    EncodeSection(f.pps, [|pps|], EncodeBlob, pps)
  }

  function EncodeExtended(f: Format, extended: Option<Extended>): seq<bool>
    requires f.extended.Fields() == 4
  {
    if extended.None? then []
    else EncodeSection(f.extended, ExtendedValues(extended.value), EncodeBlob, extended.value.spsExt)
  }

  function EncodeRecord(f: Format, r: Record): seq<bool>
    requires f.header.Fields() == 6 && f.pps.Fields() == 1 && f.extended.Fields() == 4
  {
    EncodeHeader(f, r) + (EncodePps(f, r.pps) + EncodeExtended(f, r.extended))
  }

  /** Without remaining bytes there is no extended part, whatever the profile. */
  function DecodeExtended(f: Format, stream: seq<bool>, p: nat, profile: nat): Option<(Option<Extended>, nat)> {
    if Basic(profile) || p >= |stream| then Some((None, p))
    else
      var s :- DecodeSection(stream, p, f.extended, BlobAt(stream));
      if |s.values| != 4 then None
      else Some((Some(Extended(s.values[0], s.values[1], s.values[2], s.elements)), s.end))
  }

  function DecodeRecord(f: Format, stream: seq<bool>, p: nat): Option<(Record, nat)> {
    var h :- DecodeSection(stream, p, f.header, BlobAt(stream));
    var s :- DecodeSection(stream, h.end, f.pps, BlobAt(stream));
    if |h.values| != 6 then None
    else
      var v := h.values;
      var (extended, end) :- DecodeExtended(f, stream, s.end, v[1]);
      Some((Record(v[0], v[1], v[2], v[3], v[4], h.elements, s.elements, extended), end))
  }

  // ---------------------------------------------------------------- what the writer accepts

  lemma HeaderFits(f: Format, r: Record)
    requires IsFormat(f) && Typed(r)
    ensures Fitting(f.header, HeaderValues(r)) <==> r.lengthSizeMinusOne < 4 && |r.sps| < 32
  {
    Slots();
    PowersOfTwo();
    var v := HeaderValues(r);
    BuiltFits(f.header, HeaderSlot, 6, v);
    if Fitting(f.header, v) {
      assert v[4] < Pow2(HeaderSlot(4).width) && v[5] < Pow2(HeaderSlot(5).width);
    }
  }

  lemma PpsFits(f: Format, pps: seq<seq<byte>>)
    requires IsFormat(f)
    ensures Fitting(f.pps, [|pps|]) <==> |pps| < 256
  {
    Slots();
    PowersOfTwo();
    BuiltFits(f.pps, PpsSlot, 1, [|pps|]);
    if Fitting(f.pps, [|pps|]) {
      assert [|pps|][0] < Pow2(PpsSlot(0).width);
    }
  }

  lemma ExtendedFits(f: Format, e: Extended)
    requires IsFormat(f)
    ensures Fitting(f.extended, ExtendedValues(e)) <==> ExtendedMuxable(e)
  {
    Slots();
    var v := ExtendedValues(e);
    BuiltFits(f.extended, ExtendedSlot, 4, v);
    assert (forall j :: 0 <= j < 4 ==> v[j] < Pow2(ExtendedSlot(j).width)) <==> ExtendedMuxable(e) by {
      ExtendedRanges(e, v);
    }
  }

  lemma ExtendedRanges(e: Extended, v: seq<nat>)
    requires v == ExtendedValues(e)
    ensures (forall j :: 0 <= j < 4 ==> v[j] < Pow2(ExtendedSlot(j).width)) <==> ExtendedMuxable(e)
  {
    PowersOfTwo();
    if forall j :: 0 <= j < 4 ==> v[j] < Pow2(ExtendedSlot(j).width) {
      assert v[0] < Pow2(ExtendedSlot(0).width) && v[1] < Pow2(ExtendedSlot(1).width);
      assert v[2] < Pow2(ExtendedSlot(2).width) && v[3] < Pow2(ExtendedSlot(3).width);
    }
  }

  // ---------------------------------------------------------------- size

  /** `size`, in bytes. */
  function Size(r: Record): nat {
    6 + BlobsSize(r.sps) + 1 + BlobsSize(r.pps)
    + if r.extended.Some? then 4 + BlobsSize(r.extended.value.spsExt) else 0
  }

  /** `size` counts the bytes that `mux` writes. */
  lemma SizeIsBytesWritten(f: Format, r: Record)
    requires IsFormat(f)
    ensures |EncodeRecord(f, r)| == 8 * Size(r)
  {
    EncodedBlobsSize(r.sps);
    EncodedBlobsSize(r.pps);
    if r.extended.Some? {
      EncodedBlobsSize(r.extended.value.spsExt);
    }
  }

  // ---------------------------------------------------------------- round trip

  lemma HeaderBack(f: Format, stream: seq<bool>, p: nat, r: Record)
    requires IsFormat(f) && Typed(r) && Muxable(r) && ShortBlobs(r.sps)
    requires At(stream, p, EncodeHeader(f, r))
    ensures DecodeSection(stream, p, f.header, BlobAt(stream))
         == Some(Section(HeaderValues(r), r.sps, p + |EncodeHeader(f, r)|))
  {
    HeaderFits(f, r);
    CountedBack(stream, p, f.header, HeaderValues(r), r.sps);
  }

  lemma PpsBack(f: Format, stream: seq<bool>, p: nat, pps: seq<seq<byte>>)
    requires IsFormat(f) && |pps| < 256 && ShortBlobs(pps)
    requires At(stream, p, EncodePps(f, pps))
    ensures DecodeSection(stream, p, f.pps, BlobAt(stream)) == Some(Section([|pps|], pps, p + |EncodePps(f, pps)|))
  {
    PpsFits(f, pps);
    CountedBack(stream, p, f.pps, [|pps|], pps);
  }

  lemma ExtendedBack(f: Format, stream: seq<bool>, p: nat, e: Extended, profile: nat)
    requires IsFormat(f) && ExtendedMuxable(e) && ShortBlobs(e.spsExt) && !Basic(profile)
    requires At(stream, p, EncodeExtended(f, Some(e)))
    ensures DecodeExtended(f, stream, p, profile) == Some((Some(e), p + |EncodeExtended(f, Some(e))|))
  {
    ExtendedFits(f, e);
    CountedBack(stream, p, f.extended, ExtendedValues(e), e.spsExt);
  }

  /** The extended part is read back, an absent one only where the profile or the end of the data says so. */
  lemma ExtendedExactly(f: Format, stream: seq<bool>, p: nat, r: Record)
    requires IsFormat(f) && Muxable(r) && Faithful(r)
    requires At(stream, p, EncodeExtended(f, r.extended))
    ensures DecodeExtended(f, stream, p, r.profile) == Some((r.extended, p + |EncodeExtended(f, r.extended)|))
       <==> (r.extended.None? ==> Basic(r.profile) || p >= |stream|)
  {
    if r.extended.Some? {
      ExtendedBack(f, stream, p, r.extended.value, r.profile);
    }
  }

  lemma SetsBack(f: Format, stream: seq<bool>, p: nat, r: Record)
    requires IsFormat(f) && Typed(r) && Muxable(r) && Faithful(r)
    requires At(stream, p, EncodeRecord(f, r))
    ensures var q := p + |EncodeHeader(f, r)|;
            && DecodeSection(stream, p, f.header, BlobAt(stream)) == Some(Section(HeaderValues(r), r.sps, q))
            && DecodeSection(stream, q, f.pps, BlobAt(stream)) == Some(Section([|r.pps|], r.pps, q + |EncodePps(f, r.pps)|))
            && At(stream, q + |EncodePps(f, r.pps)|, EncodeExtended(f, r.extended))
  {
    PartsStand(stream, p, EncodeHeader(f, r), EncodePps(f, r.pps), EncodeExtended(f, r.extended));
    HeaderBack(f, stream, p, r);
    PpsBack(f, stream, p + |EncodeHeader(f, r)|, r.pps);
  }

  lemma FaithfulExactly(f: Format, stream: seq<bool>, p: nat, r: Record)
    requires IsFormat(f) && Typed(r) && Muxable(r) && Faithful(r)
    requires At(stream, p, EncodeRecord(f, r))
    ensures DecodeRecord(f, stream, p) == Some((r, p + |EncodeRecord(f, r)|))
       <==> (r.extended.None? ==> Basic(r.profile) || p + |EncodeRecord(f, r)| >= |stream|)
  {
    var q := p + |EncodeHeader(f, r)| + |EncodePps(f, r.pps)|;
    SetsBack(f, stream, p, r);
    assert |EncodeRecord(f, r)| == q - p + |EncodeExtended(f, r.extended)|;
    ExtendedExactly(f, stream, q, r);
    RestDecides(f, stream, p, r, q);
  }

  /** With the sets read back, the extended part decides. */
  lemma RestDecides(f: Format, stream: seq<bool>, p: nat, r: Record, q: nat)
    requires DecodeSection(stream, p, f.header, BlobAt(stream)).Some?
    requires var h := DecodeSection(stream, p, f.header, BlobAt(stream)).value;
             && h.values == HeaderValues(r) && h.elements == r.sps
             && DecodeSection(stream, h.end, f.pps, BlobAt(stream)).Some?
             && DecodeSection(stream, h.end, f.pps, BlobAt(stream)).value.elements == r.pps
             && DecodeSection(stream, h.end, f.pps, BlobAt(stream)).value.end == q
    ensures DecodeRecord(f, stream, p).Some? <==> DecodeExtended(f, stream, q, r.profile).Some?
    ensures DecodeRecord(f, stream, p).Some? ==>
              && DecodeRecord(f, stream, p).value.1 == DecodeExtended(f, stream, q, r.profile).value.1
              && DecodeRecord(f, stream, p).value.0 == r.(extended := DecodeExtended(f, stream, q, r.profile).value.0)
  {
  }

  /** `demux` only produces what the wire can say. */
  lemma DecodedIsFaithful(f: Format, stream: seq<bool>, p: nat)
    requires IsFormat(f) && DecodeRecord(f, stream, p).Some?
    ensures Faithful(DecodeRecord(f, stream, p).value.0)
  {
    var h := DecodeSection(stream, p, f.header, BlobAt(stream)).value;
    CountedDecoded(stream, p, f.header);
    CountedDecoded(stream, h.end, f.pps);
    var q := DecodeSection(stream, h.end, f.pps, BlobAt(stream)).value.end;
    if DecodeExtended(f, stream, q, h.values[1]).value.0.Some? {
      CountedDecoded(stream, q, f.extended);
    }
  }

  /** The exact round trip, wherever the record stands: a record that `mux` accepts is given back
      by `demux` if and only if its lengths fit 16 bits, a basic profile has no extended part, and
      another profile without an extended part stands at the end of the data. */
  lemma RoundTripExactly(f: Format, stream: seq<bool>, p: nat, r: Record)
    requires IsFormat(f) && Typed(r) && Muxable(r)
    requires At(stream, p, EncodeRecord(f, r))
    ensures DecodeRecord(f, stream, p) == Some((r, p + 8 * Size(r)))
       <==> Faithful(r) && (r.extended.None? ==> Basic(r.profile) || p + 8 * Size(r) >= |stream|)
  {
    SizeIsBytesWritten(f, r);
    if Faithful(r) {
      FaithfulExactly(f, stream, p, r);
    } else if DecodeRecord(f, stream, p).Some? {
      DecodedIsFaithful(f, stream, p);
    }
  }

  // ---------------------------------------------------------------- through the writer and the cursor

  method WriteExtended(w: W.BitWriter, f: Format, extended: Option<Extended>) returns (ok: bool)
    requires w.Valid() && IsFormat(f)
    requires extended.Some? ==>
               var e := extended.value;
               e.chromaFormat < 0x100 && e.lumaDepthMinus8 < 0x100 && e.chromaDepthMinus8 < 0x100 && |e.spsExt| < TWO_64
    modifies w
    ensures w.Valid()
    ensures ok <==> (extended.Some? ==> ExtendedMuxable(extended.value))
    ensures ok ==> w.Written() == old(w.Written()) + EncodeExtended(f, extended)
  {
    if extended.None? {
      assert w.Written() + [] == w.Written();
      return true;
    }
    ExtendedFits(f, extended.value);
    ok := WriteCounted(w, f.extended, ExtendedValues(extended.value), extended.value.spsExt);
  }

  method WriteHeader(w: W.BitWriter, f: Format, r: Record) returns (ok: bool)
    requires w.Valid() && w.Written() == [] && IsFormat(f) && Typed(r)
    modifies w
    ensures w.Valid()
    ensures ok <==> r.lengthSizeMinusOne < 4 && |r.sps| < 32
    ensures ok ==> w.Written() == EncodeHeader(f, r)
  {
    HeaderFits(f, r);
    ok := WriteCounted(w, f.header, HeaderValues(r), r.sps);
    assert [] + EncodeHeader(f, r) == EncodeHeader(f, r);
  }

  method WritePps(w: W.BitWriter, f: Format, pps: seq<seq<byte>>) returns (ok: bool)
    requires w.Valid() && IsFormat(f) && |pps| < TWO_64
    modifies w
    ensures w.Valid()
    ensures ok <==> |pps| < 256
    ensures ok ==> w.Written() == old(w.Written()) + EncodePps(f, pps)
  {
    PpsFits(f, pps);
    ok := WriteCounted(w, f.pps, [|pps|], pps);
  }

  /** `mux` succeeds exactly on `Muxable` records, and then writes `size` bytes that spell the record. */
  method Mux(f: Format, r: Record) returns (bytes: Option<seq<byte>>)
    requires IsFormat(f) && Typed(r)
    ensures bytes.Some? <==> Muxable(r)
    ensures bytes.Some? ==> BytesToBits(bytes.value) == EncodeRecord(f, r) && |bytes.value| == Size(r)
  {
    var w := new W.BitWriter();
    var ok := WriteHeader(w, f, r);
    if !ok {
      return None;
    }
    ok := WritePps(w, f, r.pps);
    if !ok {
      return None;
    }
    ok := WriteExtended(w, f, r.extended);
    if !ok {
      return None;
    }
    Regroup([], EncodeHeader(f, r), EncodePps(f, r.pps), EncodeExtended(f, r.extended));
    SizeIsBytesWritten(f, r);
    var all := FinishWhole(w, Size(r));
    bytes := Some(all);
  }

  method ReadHeader(f: Format, r: R.BitReader) returns (s: Option<Section<seq<byte>>>)
    requires IsFormat(f) && r.Valid() && r.Position() % 8 == 0
    modifies r
    ensures s == DecodeSection(r.stream, old(r.Position()), f.header, BlobAt(r.stream))
    ensures s.Some? ==> r.Valid() && r.Position() == s.value.end && r.Position() % 8 == 0 && |s.value.values| == 6
  {
    ghost var p := r.Position();
    Slots();
    assert Peek(0);
    s := ReadOctetCounted(r, HeaderSlot, 6);
    if s.Some? {
      CountedDecoded(r.stream, p, f.header);
    }
  }

  method ReadPps(f: Format, r: R.BitReader) returns (s: Option<Section<seq<byte>>>)
    requires IsFormat(f) && r.Valid() && r.Position() % 8 == 0
    modifies r
    ensures s == DecodeSection(r.stream, old(r.Position()), f.pps, BlobAt(r.stream))
    ensures s.Some? ==> r.Valid() && r.Position() == s.value.end && r.Position() % 8 == 0
  {
    Slots();
    assert Peek(0);
    s := ReadOctetCounted(r, PpsSlot, 1);
  }

  method ReadExtended(f: Format, r: R.BitReader, profile: nat) returns (extended: Option<Option<Extended>>)
    requires IsFormat(f) && r.Valid() && r.Position() % 8 == 0
    modifies r
    ensures var d := DecodeExtended(f, r.stream, old(r.Position()), profile);
            && (extended.Some? <==> d.Some?)
            && (extended.Some? ==> r.Valid() && d.value == (extended.value, r.Position()))
  {
    if Basic(profile) || r.pos >= |r.data| {
      return Some(None);
    }
    ghost var p := r.Position();
    Slots();
    assert Peek(0);
    var s := ReadOctetCounted(r, ExtendedSlot, 4);
    if s.None? {
      return None;
    }
    CountedDecoded(r.stream, p, f.extended);
    var v := s.value.values;
    extended := Some(Some(Extended(v[0], v[1], v[2], s.value.elements)));
  }

  /** `demux`, at the cursor's position. */
  method Demux(f: Format, r: R.BitReader) returns (rec: Option<Record>)
    requires IsFormat(f) && r.Valid() && r.Position() % 8 == 0
    modifies r
    ensures var d := DecodeRecord(f, r.stream, old(r.Position()));
            && (rec.Some? <==> d.Some?)
            && (rec.Some? ==> r.Valid() && d.value == (rec.value, r.Position()))
  {
    var h := ReadHeader(f, r);
    if h.None? {
      return None;
    }
    var s := ReadPps(f, r);
    if s.None? {
      return None;
    }
    var v := h.value.values;
    var extended := ReadExtended(f, r, v[1]);
    if extended.None? {
      return None;
    }
    rec := Some(Record(v[0], v[1], v[2], v[3], v[4], h.value.elements, s.value.elements, extended.value));
  }
}
