/** Where the parts of a decoder configuration record stand in the data: fields in the rows of a
    table, and byte strings one behind the other, for what is written and for what is read.  The
    format of each record is put together from these. */
module Wire {
  import opened Bits
  import opened Wrappers
  import opened Positions
  import opened Layouts
  import R = BitReader
  import P = BitPrograms

  // ---------------------------------------------------------------- fields that were written

  /** A number stands at `p`, in `width` bits. */
  ghost predicate Stands(stream: seq<bool>, p: nat, value: nat, width: nat) {
    At(stream, p, ToBits(value, width))
  }

  /** The fields from `i` on stand at `p`. */
  ghost predicate FieldsAt(stream: seq<bool>, p: nat, slot: nat -> Slot, i: nat, n: nat, values: seq<nat>) {
    i <= n == |values| && Build(slot, i, n).Fields() == n - i && At(stream, p, Encode(Build(slot, i, n), values[i..]))
  }

  /** A field stands after its reserved bits, and the other fields stand after it. */
  lemma FieldStands(stream: seq<bool>, p: nat, slot: nat -> Slot, i: nat, n: nat, values: seq<nat>)
    requires FieldsAt(stream, p, slot, i, n, values) && i < n && forall j :: i <= j < n ==> SlotOk(slot(j))
    ensures var q := p + slot(i).reserved;
            && Stands(stream, p, slot(i).fill, slot(i).reserved)
            && Stands(stream, q, values[i], slot(i).width)
            && FieldsAt(stream, q + slot(i).width, slot, i + 1, n, values)
  {
    BuildShape(slot, i, n);
    BuildShape(slot, i + 1, n);
    var rest := Encode(Build(slot, i + 1, n), values[i + 1..]);
    var reserved, field := ToBits(slot(i).fill, slot(i).reserved), ToBits(values[i], slot(i).width);
    assert Encode(Build(slot, i, n), values[i..]) == reserved + (field + rest) by {
      assert values[i..][1..] == values[i + 1..];
      assert Encode(Field(slot(i).width, Build(slot, i + 1, n)), values[i..]) == field + rest;
      if slot(i).reserved == 0 {
        assert reserved + (field + rest) == field + rest;
      }
    }
    PartsStand(stream, p, reserved, field, rest);
  }

  /** A row of a format's table: where a field starts, how wide it is, how many reserved bits
      stand before it and what they hold. */
  datatype Row = Row(offset: nat, width: nat, reserved: nat, fill: nat)

  /** The value of field `k` stands in its row, after the reserved bits. */
  ghost predicate InRow(stream: seq<bool>, p: nat, row: Row, value: nat) {
    && row.reserved <= row.offset
    && Stands(stream, p + row.offset - row.reserved, row.fill, row.reserved)
    && Stands(stream, p + row.offset, value, row.width)
  }

  /** Row `k` describes slot `k`, and starts where the row before ends. */
  ghost predicate RowOk(slot: nat -> Slot, table: nat -> Row, k: nat) {
    var row, start := table(k), if k == 0 then 0 else table(k - 1).offset + table(k - 1).width;
    row.offset == start + row.reserved && slot(k) == Slot(row.reserved, row.fill, row.width)
  }

  lemma RowHolds(stream: seq<bool>, p: nat, slot: nat -> Slot, n: nat, values: seq<nat>, table: nat -> Row, k: nat)
    requires k < n == |values| && (forall j :: 0 <= j < n ==> SlotOk(slot(j))) && RowOk(slot, table, k)
    requires FieldsAt(stream, if k == 0 then p else p + table(k - 1).offset + table(k - 1).width, slot, k, n, values)
    ensures InRow(stream, p, table(k), values[k])
    ensures FieldsAt(stream, p + table(k).offset + table(k).width, slot, k + 1, n, values)
  {
    FieldStands(stream, p + table(k).offset - table(k).reserved, slot, k, n, values);
  }

  lemma {:induction false} TableHolds(
    stream: seq<bool>, p: nat, slot: nat -> Slot, n: nat, values: seq<nat>, table: nat -> Row, i: nat)
    requires i <= n == |values| && forall k :: 0 <= k < n ==> SlotOk(slot(k))
    requires forall k :: 0 <= k < n ==> RowOk(slot, table, k)
    requires FieldsAt(stream, p, slot, 0, n, values)
    ensures forall k :: 0 <= k < i ==> InRow(stream, p, table(k), values[k])
    ensures FieldsAt(stream, if i == 0 then p else p + table(i - 1).offset + table(i - 1).width, slot, i, n, values)
  {
    if i > 0 {
      TableHolds(stream, p, slot, n, values, table, i - 1);
      RowHolds(stream, p, slot, n, values, table, i - 1);
    }
  }

  // ---------------------------------------------------------------- fields that are read

  lemma ValueStands(stream: seq<bool>, p: nat, n: nat)
    requires p + n <= |stream|
    ensures Stands(stream, p, R.Value(stream, p, n), n)
  {
    R.ValueIsFromBits(stream, p, n);
    ToFromBits(stream[p..p + n]);
    AtSlice(stream, p, stream[p..p + n]);
  }

  /** The first field is read where it stands, after its reserved bits. */
  lemma FieldRead(stream: seq<bool>, p: nat, slot: nat -> Slot, i: nat, n: nat)
    requires i < n && SlotOk(slot(i)) && Decode(stream, p, Build(slot, i, n)).Some?
    ensures var q := p + slot(i).reserved;
            var (values, end) := Decode(stream, p, Build(slot, i, n)).value;
            && values != [] && Stands(stream, q, values[0], slot(i).width)
            && Decode(stream, q + slot(i).width, Build(slot, i + 1, n)) == Some((values[1..], end))
  {
    var q := p + slot(i).reserved;
    FieldStep(stream, q, slot(i).width, Build(slot, i + 1, n));
    assert q + slot(i).width <= |stream|;
    ValueStands(stream, q, slot(i).width);
  }

  /** The fields from `i` on are read at `p`. */
  ghost predicate ReadsAt(stream: seq<bool>, p: nat, slot: nat -> Slot, i: nat, n: nat, values: seq<nat>) {
    i <= |values| && Decode(stream, p, Build(slot, i, n)).Some? && Decode(stream, p, Build(slot, i, n)).value.0 == values[i..]
  }

  lemma RowRead(stream: seq<bool>, p: nat, slot: nat -> Slot, n: nat, values: seq<nat>, table: nat -> Row, k: nat)
    requires k < n == |values| && SlotOk(slot(k)) && RowOk(slot, table, k)
    requires ReadsAt(stream, if k == 0 then p else p + table(k - 1).offset + table(k - 1).width, slot, k, n, values)
    ensures Stands(stream, p + table(k).offset, values[k], table(k).width)
    ensures ReadsAt(stream, p + table(k).offset + table(k).width, slot, k + 1, n, values)
  {
    FieldRead(stream, p + table(k).offset - table(k).reserved, slot, k, n);
    assert values[k..][1..] == values[k + 1..];
  }

  lemma {:induction false} TableRead(
    stream: seq<bool>, p: nat, slot: nat -> Slot, n: nat, values: seq<nat>, table: nat -> Row, i: nat)
    requires i <= n == |values| && forall k :: 0 <= k < n ==> SlotOk(slot(k))
    requires forall k :: 0 <= k < n ==> RowOk(slot, table, k)
    requires ReadsAt(stream, p, slot, 0, n, values)
    ensures forall k :: 0 <= k < i ==> Stands(stream, p + table(k).offset, values[k], table(k).width)
    ensures ReadsAt(stream, if i == 0 then p else p + table(i - 1).offset + table(i - 1).width, slot, i, n, values)
  {
    if i > 0 {
      TableRead(stream, p, slot, n, values, table, i - 1);
      RowRead(stream, p, slot, n, values, table, i - 1);
    }
  }

  /** The fields of a written layout stand in the rows of its table. */
  lemma LayoutWritten(stream: seq<bool>, p: nat, layout: Layout, slot: nat -> Slot, n: nat, values: seq<nat>, table: nat -> Row)
    requires IsBuilt(layout, slot, n) && |values| == n && At(stream, p, Encode(layout, values))
    requires (forall k :: 0 <= k < n ==> SlotOk(slot(k))) && forall k :: 0 <= k < n ==> RowOk(slot, table, k)
    ensures forall k :: 0 <= k < n ==> InRow(stream, p, table(k), values[k])
  {
    assert FieldsAt(stream, p, slot, 0, n, values) by {
      assert Peek(0);
      assert values[0..] == values;
    }
    TableHolds(stream, p, slot, n, values, table, n);
  }

  /** Every value stands in its row. */
  ghost predicate InTable(stream: seq<bool>, p: nat, table: nat -> Row, v: seq<nat>) {
    forall k :: 0 <= k < |v| ==> Stands(stream, p + table(k).offset, v[k], table(k).width)
  }

  /** The fields of a layout are read from the rows of its table. */
  lemma LayoutRead(stream: seq<bool>, p: nat, layout: Layout, slot: nat -> Slot, n: nat, table: nat -> Row)
    requires IsBuilt(layout, slot, n) && Decode(stream, p, layout).Some?
    requires (forall k :: 0 <= k < n ==> SlotOk(slot(k))) && forall k :: 0 <= k < n ==> RowOk(slot, table, k)
    ensures var (v, q) := Decode(stream, p, layout).value;
            && |v| == n && Fitting(layout, v) && q == p + layout.Width()
            && InTable(stream, p, table, v)
  {
    var v := Decode(stream, p, layout).value.0;
    DecodedFits(stream, p, layout);
    assert ReadsAt(stream, p, slot, 0, n, v) by {
      assert Peek(0);
      assert v[0..] == v;
    }
    TableRead(stream, p, slot, n, v, table, n);
  }

  lemma LastStands<T>(stream: seq<bool>, p: nat, encode: T -> seq<bool>, xs: seq<T>, n: nat)
    requires |xs| == n + 1 && At(stream, p, EncodeMany(encode, xs))
    ensures At(stream, p, EncodeMany(encode, xs[..n])) && At(stream, p + |EncodeMany(encode, xs[..n])|, encode(xs[n]))
  {
    AtSplit(stream, p, EncodeMany(encode, xs[..n]), encode(xs[n]));
  }

  /** A section is its fields and the elements that the last of them counts. */
  lemma SectionParts<T>(stream: seq<bool>, p: nat, layout: Layout, decode: nat -> Option<(T, nat)>)
    requires DecodeSection(stream, p, layout, decode).Some?
    ensures Decode(stream, p, layout).Some?
    ensures var s := DecodeSection(stream, p, layout, decode).value;
            var (v, q) := Decode(stream, p, layout).value;
            && v != [] && s.values == v && DecodeMany(decode, q, v[|v| - 1]) == Some((s.elements, s.end))
  {
  }

  predicate FlagAt(stream: seq<bool>, p: nat, flag: bool) {
    p < |stream| && stream[p] == flag
  }

  lemma FlagStands(stream: seq<bool>, p: nat, flag: bool)
    requires Stands(stream, p, BoolValue(flag), 1)
    ensures FlagAt(stream, p, flag)
  {
    ToBitsAt(BoolValue(flag), 1, 0);
    assert stream[p + 0] == ItemOf(ToBits(BoolValue(flag), 1), 0);
    assert Pow2(0) == 1;
  }

  // ---------------------------------------------------------------- byte strings

  /** A byte string stands at `p`, behind its length in 16 bits. */
  ghost predicate BlobStands(stream: seq<bool>, p: nat, blob: seq<byte>) {
    Stands(stream, p, |blob| % 0x1_0000, 16) && At(stream, p + 16, BytesToBits(blob))
  }

  /** Byte string `i` stands where those before it end. */
  ghost predicate NthStands(stream: seq<bool>, p: nat, blobs: seq<seq<byte>>, i: nat)
    requires i < |blobs|
  {
    BlobStands(stream, p + 8 * BlobsSize(blobs[..i]), blobs[i])
  }

  /** Byte strings stand one after the other. */
  ghost predicate BlobsStand(stream: seq<bool>, p: nat, blobs: seq<seq<byte>>) {
    forall i :: 0 <= i < |blobs| ==> NthStands(stream, p, blobs, i)
  }

  lemma BlobsStandAppend(stream: seq<bool>, p: nat, blobs: seq<seq<byte>>, blob: seq<byte>)
    requires BlobsStand(stream, p, blobs) && BlobStands(stream, p + 8 * BlobsSize(blobs), blob)
    ensures BlobsStand(stream, p, blobs + [blob])
  {
    var more := blobs + [blob];
    forall i | 0 <= i < |more| ensures NthStands(stream, p, more, i) {
      if i < |blobs| {
        assert more[..i] == blobs[..i] && NthStands(stream, p, blobs, i);
      } else {
        assert more[..i] == blobs;
      }
    }
  }

  lemma BlobWritten(stream: seq<bool>, p: nat, blob: seq<byte>)
    requires At(stream, p, EncodeBlob(blob))
    ensures BlobStands(stream, p, blob)
  {
    AtSplit(stream, p, ToBits(|blob| % 0x1_0000, 16), BytesToBits(blob));
  }

  lemma {:induction false} BlobsWritten(stream: seq<bool>, p: nat, blobs: seq<seq<byte>>)
    requires At(stream, p, EncodeBlobs(blobs))
    ensures BlobsStand(stream, p, blobs)
  {
    if blobs != [] {
      var n := |blobs| - 1;
      EncodedBlobsSize(blobs[..n]);
      LastStands(stream, p, EncodeBlob, blobs, n);
      BlobsWritten(stream, p, blobs[..n]);
      BlobWritten(stream, p + 8 * BlobsSize(blobs[..n]), blobs[n]);
      BlobsStandAppend(stream, p, blobs[..n], blobs[n]);
      assert blobs[..n] + [blobs[n]] == blobs;
    }
  }

  lemma BytesStandRead(stream: seq<bool>, p: nat, n: nat)
    requires p + 8 * n <= |stream|
    ensures At(stream, p, BytesToBits(P.BytesAt(stream, p, n)))
  {
    P.BytesAtSpells(stream, p, n);
    AtSlice(stream, p, stream[p..p + 8 * n]);
  }

  lemma BlobRead(stream: seq<bool>, p: nat)
    requires DecodeBlob(stream, p).Some?
    ensures var (blob, q) := DecodeBlob(stream, p).value; BlobStands(stream, p, blob) && q == p + 16 + 8 * |blob|
  {
    var len := R.Value(stream, p, 16);
    assert len < 0x1_0000 by {
      R.ValueBound(stream, p, 16);
      Pow2Of16();
    }
    ValueStands(stream, p, 16);
    BytesStandRead(stream, p + 16, len);
  }

  lemma {:induction false} BlobsRead(stream: seq<bool>, p: nat, n: nat)
    requires DecodeBlobs(stream, p, n).Some?
    ensures var (blobs, q) := DecodeBlobs(stream, p, n).value;
            |blobs| == n && BlobsStand(stream, p, blobs) && q == p + 8 * BlobsSize(blobs)
  {
    if n > 0 {
      BlobsRead(stream, p, n - 1);
      var (blobs, q) := DecodeBlobs(stream, p, n - 1).value;
      var blob := DecodeBlob(stream, q).value.0;
      BlobRead(stream, q);
      assert (blobs + [blob])[..n - 1] == blobs;
      BlobsStandAppend(stream, p, blobs, blob);
    }
  }

  // ---------------------------------------------------------------- counted byte strings

  lemma CountedWritten(
    stream: seq<bool>, p: nat, layout: Layout, slot: nat -> Slot, n: nat, values: seq<nat>, table: nat -> Row, blobs: seq<seq<byte>>)
    requires IsBuilt(layout, slot, n) && |values| == n && At(stream, p, EncodeSection(layout, values, EncodeBlob, blobs))
    requires (forall k :: 0 <= k < n ==> SlotOk(slot(k))) && forall k :: 0 <= k < n ==> RowOk(slot, table, k)
    ensures forall k :: 0 <= k < n ==> InRow(stream, p, table(k), values[k])
    ensures BlobsStand(stream, p + layout.Width(), blobs)
  {
    AtSplit(stream, p, Encode(layout, values), EncodeBlobs(blobs));
    LayoutWritten(stream, p, layout, slot, n, values, table);
    BlobsWritten(stream, p + layout.Width(), blobs);
  }

  lemma CountedElements(stream: seq<bool>, q: nat, s: Section<seq<byte>>)
    requires s.values != [] && DecodeBlobs(stream, q, s.values[|s.values| - 1]) == Some((s.elements, s.end))
    ensures |s.elements| == s.values[|s.values| - 1]
    ensures BlobsStand(stream, q, s.elements) && s.end == q + 8 * BlobsSize(s.elements)
  {
    BlobsRead(stream, q, s.values[|s.values| - 1]);
  }

  lemma PartsRead(
    stream: seq<bool>, p: nat, layout: Layout, slot: nat -> Slot, n: nat, table: nat -> Row, s: Section<seq<byte>>, q: nat)
    requires IsBuilt(layout, slot, n) && Decode(stream, p, layout) == Some((s.values, q))
    requires s.values != [] && DecodeBlobs(stream, q, s.values[|s.values| - 1]) == Some((s.elements, s.end))
    requires (forall k :: 0 <= k < n ==> SlotOk(slot(k))) && forall k :: 0 <= k < n ==> RowOk(slot, table, k)
    ensures |s.values| == n > 0 && |s.elements| == s.values[n - 1] && InTable(stream, p, table, s.values)
    ensures BlobsStand(stream, p + layout.Width(), s.elements)
    ensures s.end == p + layout.Width() + 8 * BlobsSize(s.elements)
  {
    LayoutRead(stream, p, layout, slot, n, table);
    CountedElements(stream, q, s);
  }

  lemma CountedRead(stream: seq<bool>, p: nat, layout: Layout, slot: nat -> Slot, n: nat, table: nat -> Row)
    requires IsBuilt(layout, slot, n) && DecodeSection(stream, p, layout, BlobAt(stream)).Some?
    requires (forall k :: 0 <= k < n ==> SlotOk(slot(k))) && forall k :: 0 <= k < n ==> RowOk(slot, table, k)
    ensures var s := DecodeSection(stream, p, layout, BlobAt(stream)).value;
            && |s.values| == n > 0 && |s.elements| == s.values[n - 1] && InTable(stream, p, table, s.values)
            && BlobsStand(stream, p + layout.Width(), s.elements)
            && s.end == p + layout.Width() + 8 * BlobsSize(s.elements)
  {
    var s := DecodeSection(stream, p, layout, BlobAt(stream)).value;
    SectionParts(stream, p, layout, BlobAt(stream));
    PartsRead(stream, p, layout, slot, n, table, s, Decode(stream, p, layout).value.1);
  }
}
