/** The building blocks of the decoder configuration records: runs of fixed-width fields with
    reserved bits between them, and byte strings that carry their length in 16 bits. */
module Layouts {
  import opened Bits
  import opened Wrappers
  import opened Positions
  import R = BitReader
  import W = BitWriter
  import P = BitPrograms

  // ---------------------------------------------------------------- fields

  /** A field is written with `write_bits` (or as a whole integer) and read with `read_bits`;
      reserved bits are written as `fill` and skipped with `seek_bits`. */
  datatype Layout =
    | End
    | Field(width: nat, rest: Layout)
    | Reserved(width: nat, fill: nat, rest: Layout)
  {
    predicate WellFormed() {
      match this
      case End => true
      case Field(w, rest) => 0 < w < 64 && rest.WellFormed()
      case Reserved(w, fill, rest) => 0 < w < 64 && fill < Pow2(w) && rest.Field? && rest.WellFormed()
    }

    function Fields(): nat {
      match this
      case End => 0
      case Field(_, rest) => 1 + rest.Fields()
      case Reserved(_, _, rest) => rest.Fields()
    }

    /** The widths of the fields alone. */
    function Widths(): (r: seq<nat>)
      ensures |r| == Fields()
    {
      match this
      case End => []
      case Field(w, rest) => [w] + rest.Widths()
      case Reserved(_, _, rest) => rest.Widths()
    }

    function Width(): nat {
      match this
      case End => 0
      case Field(w, rest) => w + rest.Width()
      case Reserved(w, _, rest) => w + rest.Width()
    }
  }

  /** The one-bit field of a flag. */
  function BoolValue(b: bool): nat {
    if b then 1 else 0
  }

  /** A field and the reserved bits in front of it. */
  datatype Slot = Slot(reserved: nat, fill: nat, width: nat)

  predicate SlotOk(s: Slot) {
    s.reserved < 64 && s.fill < Pow2(s.reserved) && 0 < s.width < 64
  }

  /** The layout of the fields from `i` up to `n`. */
  function Build(slot: nat -> Slot, i: nat, n: nat): Layout
    decreases n - i, slot
  {
    if i >= n then End
    else
      var field := Field(slot(i).width, Build(slot, i + 1, n));
      if slot(i).reserved == 0 then field else Reserved(slot(i).reserved, slot(i).fill, field)
  }

  lemma {:induction false} BuildShape(slot: nat -> Slot, i: nat, n: nat)
    requires i <= n && forall j :: i <= j < n ==> SlotOk(slot(j))
    ensures Build(slot, i, n).WellFormed() && Build(slot, i, n).Fields() == n - i
    ensures forall j :: i <= j < n ==> Build(slot, i, n).Widths()[j - i] == slot(j).width
    decreases n - i
  {
    if i < n {
      BuildShape(slot, i + 1, n);
      assert Build(slot, i, n).Widths() == [slot(i).width] + Build(slot, i + 1, n).Widths();
    }
  }

  lemma BuildFits(slot: nat -> Slot, n: nat, values: seq<nat>)
    requires forall j :: 0 <= j < n ==> SlotOk(slot(j))
    requires Build(slot, 0, n).Fields() == |values| == n
    ensures Fitting(Build(slot, 0, n), values) <==> forall j :: 0 <= j < n ==> values[j] < Pow2(slot(j).width)
  {
    BuildShape(slot, 0, n);
    FittingMeans(Build(slot, 0, n), values);
    forall j | 0 <= j < n ensures Build(slot, 0, n).Widths()[j] == slot(j).width {
      assert Build(slot, 0, n).Widths()[j - 0] == slot(j).width;
    }
  }

  function Peek(u: int): bool {
    true
  }

  /** `layout` has the fields that `slot` lists; the trigger keeps the list out of the proofs that
      do not need it. */
  ghost predicate IsBuilt(layout: Layout, slot: nat -> Slot, n: nat) {
    && layout.WellFormed() && layout.Fields() == n
    && forall u {:trigger Peek(u)} :: Peek(u) ==> layout == Build(slot, 0, n)
  }

  lemma BuiltFits(layout: Layout, slot: nat -> Slot, n: nat, values: seq<nat>)
    requires IsBuilt(layout, slot, n) && |values| == n
    requires forall j :: 0 <= j < n ==> SlotOk(slot(j))
    ensures Fitting(layout, values) <==> forall j :: 0 <= j < n ==> values[j] < Pow2(slot(j).width)
  {
    assert Peek(0);
    BuildFits(slot, n, values);
  }

  /** Every value fits its field. */
  predicate Fitting(layout: Layout, values: seq<nat>)
    requires |values| == layout.Fields()
    decreases layout, values
  {
    match layout
    case End => true
    case Field(w, rest) => values[0] < Pow2(w) && Fitting(rest, values[1..])
    case Reserved(_, _, rest) => Fitting(rest, values)
  }

  lemma {:induction false} FittingMeans(layout: Layout, values: seq<nat>)
    requires |values| == layout.Fields()
    ensures Fitting(layout, values) <==> forall i :: 0 <= i < |values| ==> values[i] < Pow2(layout.Widths()[i])
    decreases layout
  {
    match layout
    case End =>
    case Field(w, rest) =>
      FittingMeans(rest, values[1..]);
      if forall i :: 0 <= i < |values| ==> values[i] < Pow2(layout.Widths()[i]) {
        forall i | 0 <= i < |values| - 1 ensures values[1..][i] < Pow2(rest.Widths()[i]) {
          assert values[i + 1] < Pow2(layout.Widths()[i + 1]);
        }
      }
    case Reserved(_, _, rest) => FittingMeans(rest, values);
  }

  function Encode(layout: Layout, values: seq<nat>): (r: seq<bool>)
    requires |values| == layout.Fields()
    ensures |r| == layout.Width()
    decreases layout, values
  {
    match layout
    case End => []
    case Field(w, rest) => ToBits(values[0], w) + Encode(rest, values[1..])
    case Reserved(w, fill, rest) => ToBits(fill, w) + Encode(rest, values)
  }

  /** Reading a layout: the values and the position after it. */
  function Decode(stream: seq<bool>, p: nat, layout: Layout): (r: Option<(seq<nat>, nat)>)
    decreases layout, stream
  {
    match layout
    case End => Some(([], p))
    case Field(w, rest) =>
      if w > 64 || (w > 0 && p + w > |stream|) then None
      else
        var (values, q) :- Decode(stream, p + w, rest);
        Some(([R.Value(stream, p, w)] + values, q))
    case Reserved(w, _, rest) =>
      if w == 0 || (p + w) % 8 == 0 || p + w < |stream| then Decode(stream, p + w, rest) else None
  }

  /** The values that reading can produce fit their fields. */
  lemma {:induction false} DecodedFits(stream: seq<bool>, p: nat, layout: Layout)
    requires Decode(stream, p, layout).Some?
    ensures var (values, q) := Decode(stream, p, layout).value;
            |values| == layout.Fields() && Fitting(layout, values) && q == p + layout.Width()
    decreases layout
  {
    match layout
    case End =>
    case Field(w, rest) =>
      DecodedFits(stream, p + w, rest);
      R.ValueBound(stream, p, w);
      assert Decode(stream, p, layout).value.0[1..] == Decode(stream, p + w, rest).value.0;
    case Reserved(w, _, rest) => DecodedFits(stream, p + w, rest);
  }

  lemma FieldBack(stream: seq<bool>, p: nat, w: nat, value: nat, rest: seq<bool>)
    requires value < Pow2(w) && At(stream, p, ToBits(value, w) + rest)
    ensures p + w <= |stream| && R.Value(stream, p, w) == value && At(stream, p + w, rest)
  {
    AtSplit(stream, p, ToBits(value, w), rest);
    P.NumberAt(stream, p, value, w);
  }

  /** Encoded values are read back, wherever they stand. */
  lemma {:induction false} EncodeThenDecode(stream: seq<bool>, p: nat, layout: Layout, values: seq<nat>)
    requires layout.WellFormed() && |values| == layout.Fields() && Fitting(layout, values)
    requires At(stream, p, Encode(layout, values))
    ensures Decode(stream, p, layout) == Some((values, p + layout.Width()))
    decreases layout
  {
    match layout
    case End =>
    case Field(w, rest) =>
      assert [values[0]] + values[1..] == values;
      FieldBack(stream, p, w, values[0], Encode(rest, values[1..]));
      EncodeThenDecode(stream, p + w, rest, values[1..]);
    case Reserved(w, fill, rest) =>
      FieldBack(stream, p, w, fill, Encode(rest, values));
      EncodeThenDecode(stream, p + w, rest, values);
  }

  // ---------------------------------------------------------------- fields through the reader and the writer

  /** Writes the fields in order and stops at the first value that does not fit. */
  method WriteFields(w: W.BitWriter, layout: Layout, values: seq<nat>) returns (ok: bool)
    requires w.Valid()
    requires layout.WellFormed() && |values| == layout.Fields()
    requires forall i :: 0 <= i < |values| ==> values[i] < TWO_64
    modifies w
    ensures w.Valid()
    ensures ok <==> Fitting(layout, values)
    ensures ok ==> w.Written() == old(w.Written()) + Encode(layout, values)
  {
    ghost var start := w.Written();
    var todo, left: seq<nat> := layout, values;
    ghost var done: seq<bool> := [];
    while todo != End
      invariant w.Valid() && todo.WellFormed() && |left| == todo.Fields()
      invariant forall i :: 0 <= i < |left| ==> left[i] < TWO_64
      invariant Fitting(todo, left) == Fitting(layout, values)
      invariant w.Written() == start + done
      invariant done + Encode(todo, left) == Encode(layout, values)
      decreases todo
    {
      var v := if todo.Field? then left[0] else todo.fill;
      if todo.Reserved? {
        FillFits(todo.fill, todo.width);
      }
      var fits := w.WriteBits(v, todo.width);
      if !fits {
        return false;
      }
      ghost var bits := ToBits(v, todo.width);
      var after: seq<nat> := if todo.Field? then left[1..] else left;
      Regroup(start, done, bits, Encode(todo.rest, after));
      done := done + bits;
      todo, left := todo.rest, after;
    }
    assert done + [] == done;
    ok := true;
  }

  lemma FillFits(fill: nat, w: nat)
    requires w < 64 && fill < Pow2(w)
    ensures fill < TWO_64
  {
    Pow2Of64();
    Pow2Monotonic(w, 64);
  }

  lemma Regroup(start: seq<bool>, done: seq<bool>, bits: seq<bool>, tail: seq<bool>)
    ensures (start + done) + bits == start + (done + bits)
    ensures done + (bits + tail) == (done + bits) + tail
  {
  }

  lemma PartsStand(stream: seq<bool>, p: nat, a: seq<bool>, b: seq<bool>, c: seq<bool>)
    requires At(stream, p, a + (b + c))
    ensures At(stream, p, a) && At(stream, p + |a|, b) && At(stream, p + |a| + |b|, c)
  {
    AtSplit(stream, p, a, b + c);
    AtSplit(stream, p + |a|, b, c);
  }

  ghost function Prepend(got: seq<nat>, rest: Option<(seq<nat>, nat)>): Option<(seq<nat>, nat)> {
    if rest.None? then None else Some((got + rest.value.0, rest.value.1))
  }

  /** Reads one field or skips reserved bits. */
  method ReadField(r: R.BitReader, todo: Layout, got: seq<nat>, ghost d: Option<(seq<nat>, nat)>)
    returns (more: Option<seq<nat>>)
    requires r.Valid() && todo.WellFormed() && todo != End
    requires d == Prepend(got, Decode(r.stream, r.Position(), todo))
    modifies r
    ensures more.None? ==> d.None?
    ensures more.Some? ==> r.Valid() && d == Prepend(more.value, Decode(r.stream, r.Position(), todo.rest))
  {
    if todo.Reserved? {
      var p := r.SeekBits(todo.width);
      return if p.None? then None else Some(got);
    }
    var v := r.ReadBits(todo.width);
    if v.None? {
      return None;
    }
    PrependStep(got, v.value, Decode(r.stream, r.Position(), todo.rest));
    more := Some(got + [v.value]);
  }

  /** Reads the fields in order. */
  method ReadFields(r: R.BitReader, layout: Layout) returns (values: Option<seq<nat>>)
    requires r.Valid() && layout.WellFormed()
    modifies r
    ensures var d := Decode(r.stream, old(r.Position()), layout);
            && (values.Some? <==> d.Some?)
            && (values.Some? ==> r.Valid() && d.value == (values.value, r.Position()))
  {
    ghost var d := Decode(r.stream, r.Position(), layout);
    var todo := layout;
    var got: seq<nat> := [];
    assert d.Some? ==> [] + d.value.0 == d.value.0;
    while todo != End
      invariant r.Valid() && todo.WellFormed()
      invariant d == Prepend(got, Decode(r.stream, r.Position(), todo))
      decreases todo
    {
      var more := ReadField(r, todo, got, d);
      if more.None? {
        return None;
      }
      got, todo := more.value, todo.rest;
    }
    assert got + [] == got;
    values := Some(got);
  }

  lemma PrependStep(got: seq<nat>, v: nat, rest: Option<(seq<nat>, nat)>)
    ensures Prepend(got, Prepend([v], rest)) == Prepend(got + [v], rest)
  {
    if rest.Some? {
      assert got + ([v] + rest.value.0) == (got + [v]) + rest.value.0;
    }
  }

  // ---------------------------------------------------------------- repeated elements

  function EncodeMany<T>(encode: T -> seq<bool>, xs: seq<T>): seq<bool> {
    if xs == [] then [] else EncodeMany(encode, xs[..|xs| - 1]) + encode(xs[|xs| - 1])
  }

  function DecodeMany<T>(decode: nat -> Option<(T, nat)>, p: nat, n: nat): Option<(seq<T>, nat)> {
    if n == 0 then Some(([], p))
    else
      var (xs, q) :- DecodeMany(decode, p, n - 1);
      var (x, end) :- decode(q);
      Some((xs + [x], end))
  }

  lemma ManyStep<T>(encode: T -> seq<bool>, xs: seq<T>, i: nat, start: seq<bool>)
    requires i < |xs|
    ensures (start + EncodeMany(encode, xs[..i])) + encode(xs[i]) == start + EncodeMany(encode, xs[..i + 1])
  {
    assert xs[..i + 1][..i] == xs[..i];
    Regroup(start, EncodeMany(encode, xs[..i]), encode(xs[i]), []);
  }

  /** `decode` undoes `encode` on `x`, wherever the code of `x` stands in the stream. */
  ghost predicate Inverse<T(!new)>(encode: T -> seq<bool>, decode: nat -> Option<(T, nat)>, x: T, stream: seq<bool>) {
    forall p: nat {:trigger decode(p)} :: At(stream, p, encode(x)) ==> decode(p) == Some((x, p + |encode(x)|))
  }

  lemma {:induction false} ManyBack<T(!new)>(
    encode: T -> seq<bool>, decode: nat -> Option<(T, nat)>, xs: seq<T>, stream: seq<bool>, p: nat)
    requires forall i :: 0 <= i < |xs| ==> Inverse(encode, decode, xs[i], stream)
    requires At(stream, p, EncodeMany(encode, xs))
    ensures DecodeMany(decode, p, |xs|) == Some((xs, p + |EncodeMany(encode, xs)|))
  {
    if xs != [] {
      var n := |xs| - 1;
      AtSplit(stream, p, EncodeMany(encode, xs[..n]), encode(xs[n]));
      ManyBack(encode, decode, xs[..n], stream, p);
      assert Inverse(encode, decode, xs[n], stream);
      assert xs[..n] + [xs[n]] == xs;
    }
  }

  lemma {:induction false} ManyAll<T(!new)>(decode: nat -> Option<(T, nat)>, p: nat, n: nat, ok: T -> bool)
    requires forall q :: decode(q).Some? ==> ok(decode(q).value.0)
    requires DecodeMany(decode, p, n).Some?
    ensures var xs := DecodeMany(decode, p, n).value.0; |xs| == n && forall i :: 0 <= i < n ==> ok(xs[i])
  {
    if n > 0 {
      ManyAll(decode, p, n - 1, ok);
    }
  }

  lemma {:induction false} ManyFails<T>(decode: nat -> Option<(T, nat)>, p: nat, i: nat, n: nat)
    requires i <= n && DecodeMany(decode, p, i).None?
    ensures DecodeMany(decode, p, n).None?
  {
    if i < n {
      ManyFails(decode, p, i, n - 1);
    }
  }

  // ---------------------------------------------------------------- counted sections

  /** Fields, the last of which counts the elements that follow. */
  function EncodeSection<T>(layout: Layout, values: seq<nat>, encode: T -> seq<bool>, xs: seq<T>): seq<bool>
    requires |values| == layout.Fields()
  {
    Encode(layout, values) + EncodeMany(encode, xs)
  }

  datatype Section<T> = Section(values: seq<nat>, elements: seq<T>, end: nat)

  function DecodeSection<T>(stream: seq<bool>, p: nat, layout: Layout, decode: nat -> Option<(T, nat)>): Option<Section<T>> {
    var (values, q) :- Decode(stream, p, layout);
    if values == [] then None
    else
      var (xs, end) :- DecodeMany(decode, q, values[|values| - 1]);
      Some(Section(values, xs, end))
  }

  lemma SectionBack<T(!new)>(
    stream: seq<bool>, p: nat, layout: Layout, values: seq<nat>,
    encode: T -> seq<bool>, decode: nat -> Option<(T, nat)>, xs: seq<T>)
    requires layout.WellFormed() && |values| == layout.Fields() > 0 && Fitting(layout, values)
    requires values[|values| - 1] == |xs|
    requires forall i :: 0 <= i < |xs| ==> Inverse(encode, decode, xs[i], stream)
    requires At(stream, p, EncodeSection(layout, values, encode, xs))
    ensures DecodeSection(stream, p, layout, decode)
         == Some(Section(values, xs, p + |EncodeSection(layout, values, encode, xs)|))
  {
    var q, tail := p + layout.Width(), EncodeMany(encode, xs);
    assert Decode(stream, p, layout) == Some((values, q)) && At(stream, q, tail) by {
      SectionHeadBack(stream, p, layout, values, tail);
    }
    assert DecodeMany(decode, q, |xs|) == Some((xs, q + |tail|)) by {
      ManyBack(encode, decode, xs, stream, q);
    }
  }

  lemma SectionHeadBack(stream: seq<bool>, p: nat, layout: Layout, values: seq<nat>, rest: seq<bool>)
    requires layout.WellFormed() && |values| == layout.Fields() && Fitting(layout, values)
    requires At(stream, p, Encode(layout, values) + rest)
    ensures Decode(stream, p, layout) == Some((values, p + layout.Width())) && At(stream, p + layout.Width(), rest)
  {
    AtSplit(stream, p, Encode(layout, values), rest);
    EncodeThenDecode(stream, p, layout, values);
  }

  lemma SectionDecoded<T(!new)>(
    stream: seq<bool>, p: nat, layout: Layout, decode: nat -> Option<(T, nat)>, ok: T -> bool)
    requires DecodeSection(stream, p, layout, decode).Some?
    requires forall q :: decode(q).Some? ==> ok(decode(q).value.0)
    ensures var s := DecodeSection(stream, p, layout, decode).value;
            && |s.values| == layout.Fields() > 0 && Fitting(layout, s.values)
            && |s.elements| == s.values[|s.values| - 1]
            && forall i :: 0 <= i < |s.elements| ==> ok(s.elements[i])
  {
    DecodedFits(stream, p, layout);
    var (values, q) := Decode(stream, p, layout).value;
    ManyAll(decode, q, values[|values| - 1], ok);
  }

  // ---------------------------------------------------------------- length-prefixed byte strings

  /** The length is cast to `u16` without a check. */
  function EncodeBlob(blob: seq<byte>): seq<bool> {
    ToBits(|blob| % 0x1_0000, 16) + BytesToBits(blob)
  }

  function EncodeBlobs(blobs: seq<seq<byte>>): seq<bool> {
    EncodeMany(EncodeBlob, blobs)
  }

  /** The bytes that the `size` functions count: two for each length, and the contents. */
  function BlobsSize(blobs: seq<seq<byte>>): nat {
    if blobs == [] then 0 else BlobsSize(blobs[..|blobs| - 1]) + 2 + |blobs[|blobs| - 1]|
  }

  function DecodeBlob(stream: seq<bool>, p: nat): Option<(seq<byte>, nat)> {
    if p + 16 > |stream| then None
    else
      var len := R.Value(stream, p, 16);
      if len > 0 && p + 16 + 8 * len > |stream| then None
      else Some((P.BytesAt(stream, p + 16, len), p + 16 + 8 * len))
  }

  function BlobAt(stream: seq<bool>): nat -> Option<(seq<byte>, nat)> {
    p => DecodeBlob(stream, p)
  }

  function DecodeBlobs(stream: seq<bool>, p: nat, n: nat): Option<(seq<seq<byte>>, nat)> {
    DecodeMany(BlobAt(stream), p, n)
  }

  predicate Short(blob: seq<byte>) {
    |blob| < 0x1_0000
  }

  predicate ShortBlobs(blobs: seq<seq<byte>>) {
    forall i :: 0 <= i < |blobs| ==> Short(blobs[i])
  }

  lemma Pow2Of16()
    ensures Pow2(16) == 0x1_0000
  {
    PowersOfTwo();
    Pow2Sum(8, 8);
  }

  lemma {:induction false} EncodedBlobsSize(blobs: seq<seq<byte>>)
    ensures |EncodeBlobs(blobs)| == 8 * BlobsSize(blobs)
  {
    if blobs != [] {
      EncodedBlobsSize(blobs[..|blobs| - 1]);
    }
  }

  lemma CountedDecoded(stream: seq<bool>, p: nat, layout: Layout)
    requires DecodeSection(stream, p, layout, BlobAt(stream)).Some?
    ensures var s := DecodeSection(stream, p, layout, BlobAt(stream)).value;
            && |s.values| == layout.Fields() > 0 && Fitting(layout, s.values)
            && |s.elements| == s.values[|s.values| - 1] && ShortBlobs(s.elements)
  {
    ShortBlobAt(stream);
    SectionDecoded(stream, p, layout, BlobAt(stream), Short);
  }

  lemma ShortBlobAt(stream: seq<bool>)
    ensures forall q :: BlobAt(stream)(q).Some? ==> Short(BlobAt(stream)(q).value.0)
  {
    forall q | BlobAt(stream)(q).Some? ensures Short(BlobAt(stream)(q).value.0) {
      R.ValueBound(stream, q, 16);
      Pow2Of16();
    }
  }

  lemma BlobBack(stream: seq<bool>, p: nat, blob: seq<byte>)
    requires Short(blob) && At(stream, p, EncodeBlob(blob))
    ensures DecodeBlob(stream, p) == Some((blob, p + |EncodeBlob(blob)|))
  {
    assert EncodeBlob(blob) == ToBits(|blob|, 16) + BytesToBits(blob);
    assert p + 16 <= |stream| && R.Value(stream, p, 16) == |blob| && At(stream, p + 16, BytesToBits(blob)) by {
      Pow2Of16();
      FieldBack(stream, p, 16, |blob|, BytesToBits(blob));
    }
    BlobContents(stream, p + 16, blob);
  }

  lemma BlobContents(stream: seq<bool>, p: nat, blob: seq<byte>)
    requires At(stream, p, BytesToBits(blob))
    ensures p + 8 * |blob| <= |stream| && P.BytesAt(stream, p, |blob|) == blob
  {
    P.BytesStandAt(stream, p, blob);
  }

  lemma BlobInverse(stream: seq<bool>, blob: seq<byte>)
    requires Short(blob)
    ensures Inverse(EncodeBlob, BlobAt(stream), blob, stream)
  {
    forall q: nat | At(stream, q, EncodeBlob(blob))
      ensures BlobAt(stream)(q) == Some((blob, q + |EncodeBlob(blob)|))
    {
      BlobBack(stream, q, blob);
    }
  }

  lemma BlobInverses(stream: seq<bool>, blobs: seq<seq<byte>>)
    requires ShortBlobs(blobs)
    ensures forall i :: 0 <= i < |blobs| ==> Inverse(EncodeBlob, BlobAt(stream), blobs[i], stream)
  {
    forall i | 0 <= i < |blobs| ensures Inverse(EncodeBlob, BlobAt(stream), blobs[i], stream) {
      BlobInverse(stream, blobs[i]);
    }
  }

  lemma CountedBack(stream: seq<bool>, p: nat, layout: Layout, values: seq<nat>, blobs: seq<seq<byte>>)
    requires layout.WellFormed() && |values| == layout.Fields() > 0 && Fitting(layout, values)
    requires values[|values| - 1] == |blobs| && ShortBlobs(blobs)
    requires At(stream, p, EncodeSection(layout, values, EncodeBlob, blobs))
    ensures DecodeSection(stream, p, layout, BlobAt(stream))
         == Some(Section(values, blobs, p + |EncodeSection(layout, values, EncodeBlob, blobs)|))
  {
    BlobInverses(stream, blobs);
    SectionBack(stream, p, layout, values, EncodeBlob, BlobAt(stream), blobs);
  }

  method WriteBlob(w: W.BitWriter, blob: seq<byte>)
    requires w.Valid()
    modifies w
    ensures w.Valid() && w.Written() == old(w.Written()) + EncodeBlob(blob)
  {
    ghost var start := w.Written();
    Pow2Of16();
    var _ := w.WriteBits(|blob| % 0x1_0000, 16);
    w.Write(blob);
    Regroup(start, ToBits(|blob| % 0x1_0000, 16), BytesToBits(blob), []);
  }

  method WriteBlobs(w: W.BitWriter, blobs: seq<seq<byte>>)
    requires w.Valid()
    modifies w
    ensures w.Valid() && w.Written() == old(w.Written()) + EncodeBlobs(blobs)
  {
    ghost var start := w.Written();
    for i := 0 to |blobs|
      invariant w.Valid() && w.Written() == start + EncodeMany(EncodeBlob, blobs[..i])
    {
      WriteBlob(w, blobs[i]);
      ManyStep(EncodeBlob, blobs, i, start);
    }
    assert blobs[..|blobs|] == blobs;
  }

  method ReadBlob(r: R.BitReader) returns (blob: Option<seq<byte>>)
    requires r.Valid()
    modifies r
    ensures var d := DecodeBlob(r.stream, old(r.Position()));
            && (blob.Some? <==> d.Some?)
            && (blob.Some? ==> r.Valid() && d.value == (blob.value, r.Position()))
  {
    var len := r.ReadBits(16);
    if len.None? {
      return None;
    }
    blob := P.PerformReadBytes(r, len.value);
  }

  method ReadBlobs(r: R.BitReader, n: nat) returns (blobs: Option<seq<seq<byte>>>)
    requires r.Valid()
    modifies r
    ensures var d := DecodeBlobs(r.stream, old(r.Position()), n);
            && (blobs.Some? <==> d.Some?)
            && (blobs.Some? ==> r.Valid() && d.value == (blobs.value, r.Position()))
  {
    ghost var p := r.Position();
    var got: seq<seq<byte>> := [];
    for i := 0 to n
      invariant r.Valid() && DecodeMany(BlobAt(r.stream), p, i) == Some((got, r.Position()))
    {
      var blob := ReadBlob(r);
      if blob.None? {
        ManyFails(BlobAt(r.stream), p, i + 1, n);
        return None;
      }
      got := got + [blob.value];
    }
    blobs := Some(got);
  }

  // ---------------------------------------------------------------- counted byte strings through the reader and the writer

  method WriteCounted(w: W.BitWriter, layout: Layout, values: seq<nat>, blobs: seq<seq<byte>>) returns (ok: bool)
    requires w.Valid()
    requires layout.WellFormed() && |values| == layout.Fields()
    requires forall i :: 0 <= i < |values| ==> values[i] < TWO_64
    modifies w
    ensures w.Valid()
    ensures ok <==> Fitting(layout, values)
    ensures ok ==> w.Written() == old(w.Written()) + EncodeSection(layout, values, EncodeBlob, blobs)
  {
    ghost var start := w.Written();
    ok := WriteFields(w, layout, values);
    if ok {
      WriteBlobs(w, blobs);
      Regroup(start, Encode(layout, values), EncodeBlobs(blobs), []);
    }
  }

  method ReadCounted(r: R.BitReader, layout: Layout) returns (s: Option<Section<seq<byte>>>)
    requires r.Valid() && layout.WellFormed()
    modifies r
    ensures s == DecodeSection(r.stream, old(r.Position()), layout, BlobAt(r.stream))
    ensures s.Some? ==> r.Valid() && r.Position() == s.value.end
  {
    var values := ReadFields(r, layout);
    if values.None? || values.value == [] {
      return None;
    }
    var blobs := ReadBlobs(r, values.value[|values.value| - 1]);
    if blobs.None? {
      return None;
    }
    s := Some(Section(values.value, blobs.value, r.Position()));
  }

  /** `finish` on a whole number of bytes adds nothing. */
  method FinishWhole(w: W.BitWriter, ghost size: nat) returns (bytes: seq<byte>)
    requires w.Valid() && |w.Written()| == 8 * size
    modifies w
    ensures BytesToBits(bytes) == old(w.Written()) && |bytes| == size
  {
    ghost var written := w.Written();
    W.PaddingIs(size, 0);
    bytes := w.Finish();
    assert written + [] == written;
  }

  // ---------------------------------------------------------------- fields read as masked bytes

  /** The low bits of a number are the number that its last bits spell. */
  lemma {:induction false} LowBits(stream: seq<bool>, p: nat, n: nat, w: nat)
    requires w <= n && p + n <= |stream|
    ensures R.Value(stream, p, n) % Pow2(w) == R.Value(stream, p + n - w, w)
  {
    if w > 0 {
      LowBits(stream, p, n - 1, w - 1);
      DoubledRemainder(R.Value(stream, p, n - 1), Pow2(w - 1), if stream[p + n - 1] then 1 else 0);
    }
  }

  lemma DoubledRemainder(v: nat, m: nat, bit: nat)
    requires m > 0 && bit < 2
    ensures (2 * v + bit) % (2 * m) == 2 * (v % m) + bit
  {
    var q, r := v / m, v % m;
    assert v == m * q + r;
    assert 2 * v + bit == (2 * m) * q + (2 * r + bit);
    DivUnique(2 * v + bit, 2 * m, q, 2 * r + bit);
  }

  predicate OctetSlot(s: Slot) {
    SlotOk(s) && s.reserved + s.width == 8
  }

  lemma OctetStep(stream: seq<bool>, p: nat, slot: nat -> Slot, i: nat, n: nat)
    requires i < n && OctetSlot(slot(i)) && p % 8 == 0 && |stream| % 8 == 0
    ensures p >= |stream| ==> Decode(stream, p, Build(slot, i, n)).None?
    ensures p < |stream| ==>
              Decode(stream, p, Build(slot, i, n))
              == Prepend([R.Value(stream, p, 8) % Pow2(slot(i).width)], Decode(stream, p + 8, Build(slot, i + 1, n)))
  {
    FieldStep(stream, p + slot(i).reserved, slot(i).width, Build(slot, i + 1, n));
    if p < |stream| {
      LowBits(stream, p, 8, slot(i).width);
    }
  }

  lemma FieldStep(stream: seq<bool>, p: nat, w: nat, rest: Layout)
    requires 0 < w < 64
    ensures Decode(stream, p, Field(w, rest))
         == if p + w > |stream| then None else Prepend([R.Value(stream, p, w)], Decode(stream, p + w, rest))
  {
  }

  /** Reads a byte at a byte boundary. */
  method ReadOctet(r: R.BitReader) returns (b: Option<nat>)
    requires r.Valid() && r.Position() % 8 == 0
    modifies r
    ensures b.Some? <==> old(r.Position()) < |r.stream|
    ensures b.Some? ==>
              && r.Valid() && r.Position() == old(r.Position()) + 8 && r.Position() % 8 == 0
              && b.value == R.Value(r.stream, old(r.Position()), 8)
  {
    b := r.ReadBits(8);
  }

  /** Reads a byte and keeps its low bits. */
  method ReadMasked(r: R.BitReader, slot: nat -> Slot, i: nat, n: nat, got: seq<nat>, ghost d: Option<(seq<nat>, nat)>)
    returns (v: Option<nat>)
    requires r.Valid() && r.Position() % 8 == 0 && i < n && OctetSlot(slot(i))
    requires d == Prepend(got, Decode(r.stream, r.Position(), Build(slot, i, n)))
    modifies r
    ensures v.None? ==> d.None?
    ensures v.Some? ==>
              && r.Valid() && r.Position() % 8 == 0
              && d == Prepend(got + [v.value], Decode(r.stream, r.Position(), Build(slot, i + 1, n)))
  {
    OctetStep(r.stream, r.Position(), slot, i, n);
    var b := ReadOctet(r);
    if b.None? {
      return None;
    }
    v := Some(b.value % Pow2(slot(i).width));
    PrependStep(got, v.value, Decode(r.stream, r.Position(), Build(slot, i + 1, n)));
  }

  /** Reads one byte for each field and masks the reserved bits off. */
  method ReadOctetFields(r: R.BitReader, slot: nat -> Slot, n: nat) returns (values: Option<seq<nat>>)
    requires r.Valid() && r.Position() % 8 == 0
    requires forall i :: 0 <= i < n ==> OctetSlot(slot(i))
    modifies r
    ensures var d := Decode(r.stream, old(r.Position()), Build(slot, 0, n));
            && (values.Some? <==> d.Some?)
            && (values.Some? ==> r.Valid() && d.value == (values.value, r.Position()) && r.Position() % 8 == 0)
  {
    ghost var p := r.Position();
    ghost var d := Decode(r.stream, p, Build(slot, 0, n));
    var got: seq<nat> := [];
    assert d.Some? ==> [] + d.value.0 == d.value.0;
    for i := 0 to n
      invariant r.Valid() && r.Position() % 8 == 0
      invariant d == Prepend(got, Decode(r.stream, r.Position(), Build(slot, i, n)))
    {
      var v := ReadMasked(r, slot, i, n, got, d);
      if v.None? {
        return None;
      }
      got := got + [v.value];
    }
    assert got + [] == got;
    values := Some(got);
  }

  method ReadAlignedBlobs(r: R.BitReader, n: nat) returns (blobs: Option<seq<seq<byte>>>)
    requires r.Valid() && r.Position() % 8 == 0
    modifies r
    ensures var d := DecodeBlobs(r.stream, old(r.Position()), n);
            && (blobs.Some? <==> d.Some?)
            && (blobs.Some? ==> r.Valid() && d.value == (blobs.value, r.Position()) && r.Position() % 8 == 0)
  {
    ghost var p := r.Position();
    blobs := ReadBlobs(r, n);
    if blobs.Some? {
      BlobsAligned(r.stream, p, n);
    }
  }

  method ReadOctetCounted(r: R.BitReader, slot: nat -> Slot, n: nat) returns (s: Option<Section<seq<byte>>>)
    requires r.Valid() && r.Position() % 8 == 0
    requires forall i :: 0 <= i < n ==> OctetSlot(slot(i))
    modifies r
    ensures s == DecodeSection(r.stream, old(r.Position()), Build(slot, 0, n), BlobAt(r.stream))
    ensures s.Some? ==> r.Valid() && r.Position() == s.value.end && r.Position() % 8 == 0
  {
    var values := ReadOctetFields(r, slot, n);
    if values.None? || values.value == [] {
      return None;
    }
    var blobs := ReadAlignedBlobs(r, values.value[|values.value| - 1]);
    if blobs.None? {
      return None;
    }
    s := Some(Section(values.value, blobs.value, r.Position()));
  }

  lemma {:induction false} BlobsAligned(stream: seq<bool>, p: nat, n: nat)
    requires p % 8 == 0 && DecodeBlobs(stream, p, n).Some?
    ensures DecodeBlobs(stream, p, n).value.1 % 8 == 0
  {
    if n > 0 {
      BlobsAligned(stream, p, n - 1);
    }
  }
}
