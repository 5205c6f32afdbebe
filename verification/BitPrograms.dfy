/** Whole runs of reader and writer calls. */
module BitPrograms {
  // The reader refines a cursor over a flat bit sequence, the writer appends to one, and mirrored
  // calls undo each other.

  import opened Bits
  import opened Wrappers
  import opened Positions
  import R = BitReader
  import W = BitWriter

  // ---------------------------------------------------------------- reading

  datatype ReadOp = ReadBit | ReadBits(count: nat) | ReadBytes(len: nat) | Align | SeekBits(distance: int)

  /** What a call returns. */
  datatype Item = Bit(bit: bool) | Number(value: nat) | Bytes(bytes: seq<byte>) | Position(position: nat) | Unit

  /** The `n` bytes spelled by the bits from `p` on. */
  function BytesAt(stream: seq<bool>, p: nat, n: nat): (r: seq<byte>)
    requires n == 0 || p + 8 * n <= |stream|
    ensures |r| == n
  {
    if n == 0 then []
    else
      R.ByteAt(stream, p + 8 * (n - 1));
      BytesAt(stream, p, n - 1) + [R.Value(stream, p + 8 * (n - 1), 8)]
  }

  lemma {:induction false} BytesAtSpells(stream: seq<bool>, p: nat, n: nat)
    requires p + 8 * n <= |stream|
    ensures BytesToBits(BytesAt(stream, p, n)) == stream[p..p + 8 * n]
  {
    if n > 0 {
      BytesAtSpells(stream, p, n - 1);
      R.AppendByte(stream, p, BytesAt(stream, p, n - 1), R.Value(stream, p + 8 * (n - 1), 8));
    }
  }

  /** One call on the flat cursor. */
  function Step(stream: seq<bool>, p: nat, op: ReadOp): Option<(Item, nat)> {
    match op
    case ReadBit => if p < |stream| then Some((Bit(stream[p]), p + 1)) else None
    case ReadBits(count) =>
      var n := Width(count);
      if n == 0 || p + n <= |stream| then Some((Number(R.Value(stream, p, n)), p + n)) else None
    case ReadBytes(n) =>
      if n == 0 || p + 8 * n <= |stream| then Some((Bytes(BytesAt(stream, p, n)), p + 8 * n)) else None
    case Align => Some((Unit, 8 * R.CeilBytes(p)))
    case SeekBits(n) =>
      if n == 0 || (p + n >= 0 && ((p + n) % 8 == 0 || p + n < |stream|))
      then Some((Position(p + n), p + n)) else None
  }

  /** A sequence of calls, up to the first failure. */
  function Run(stream: seq<bool>, p: nat, ops: seq<ReadOp>): Option<(seq<Item>, nat)>
    decreases |ops|
  {
    if ops == [] then Some(([], p))
    else
      var (item, q) :- Step(stream, p, ops[0]);
      var (items, end) :- Run(stream, q, ops[1..]);
      Some(([item] + items, end))
  }

  method PerformReadBytes(r: R.BitReader, len: nat) returns (bytes: Option<seq<byte>>)
    requires r.Valid()
    modifies r
    ensures bytes.Some? <==> len == 0 || old(r.Position()) + 8 * len <= |r.stream|
    ensures bytes.Some? ==>
              && r.Valid() && r.Position() == old(r.Position()) + 8 * len
              && bytes.value == BytesAt(r.stream, old(r.Position()), len)
  {
    ghost var p := r.Position();
    bytes := r.ReadExact(len);
    if bytes.Some? && len > 0 {
      BytesAtSpells(r.stream, p, len);
      BytesToBitsInjective(bytes.value, BytesAt(r.stream, p, len));
    }
  }

  method PerformSeek(r: R.BitReader, distance: int) returns (item: Option<Item>)
    requires r.Valid()
    modifies r
    ensures var step := Step(r.stream, old(r.Position()), SeekBits(distance));
            && (item.Some? <==> step.Some?)
            && (item.Some? ==> r.Valid() && step.value == (item.value, r.Position()))
  {
    var p := r.SeekBits(distance);
    item := if p.Some? then Some(Position(p.value)) else None;
  }

  method PerformRead(r: R.BitReader, op: ReadOp) returns (item: Option<Item>)
    requires r.Valid()
    modifies r
    ensures var step := Step(r.stream, old(r.Position()), op);
            && (item.Some? <==> step.Some?)
            && (item.Some? ==> r.Valid() && step.value == (item.value, r.Position()))
  {
    match op
    case ReadBit =>
      var bit := r.ReadBit();
      return if bit.Some? then Some(Bit(bit.value)) else None;
    case ReadBits(count) =>
      var n := r.ReadBits(count);
      return if n.Some? then Some(Number(n.value)) else None;
    case ReadBytes(len) =>
      var bytes := PerformReadBytes(r, len);
      return if bytes.Some? then Some(Bytes(bytes.value)) else None;
    case Align =>
      r.Align();
      return Some(Unit);
    case SeekBits(distance) =>
      item := PerformSeek(r, distance);
  }

  ghost function Prepend(items: seq<Item>, rest: Option<(seq<Item>, nat)>): Option<(seq<Item>, nat)> {
    if rest.None? then None else Some((items + rest.value.0, rest.value.1))
  }

  /** Refinement: any sequence of reader calls behaves as on the flat cursor. */
  method RunReader(r: R.BitReader, ops: seq<ReadOp>) returns (items: Option<seq<Item>>)
    requires r.Valid()
    modifies r
    ensures var run := Run(r.stream, old(r.Position()), ops);
            && (items.Some? <==> run.Some?)
            && (items.Some? ==> r.Valid() && run.value == (items.value, r.Position()))
  {
    ghost var run := Run(r.stream, r.Position(), ops);
    var got := [];
    var i := 0;
    PrependNothing(run);
    assert ops[0..] == ops;
    while i < |ops|
      invariant 0 <= i <= |ops|
      invariant r.Valid()
      invariant run == Prepend(got, Run(r.stream, r.Position(), ops[i..]))
    {
      assert ops[i..][1..] == ops[i + 1..];
      var item := PerformRead(r, ops[i]);
      if item.None? {
        return None;
      }
      PrependStep(got, item.value, Run(r.stream, r.Position(), ops[i + 1..]));
      got, i := got + [item.value], i + 1;
    }
    assert got + [] == got;
    items := Some(got);
  }

  lemma PrependNothing(rest: Option<(seq<Item>, nat)>)
    ensures Prepend([], rest) == rest
  {
    if rest.Some? {
      assert [] + rest.value.0 == rest.value.0;
    }
  }

  lemma PrependStep(got: seq<Item>, item: Item, rest: Option<(seq<Item>, nat)>)
    ensures Prepend(got, if rest.None? then None else Some(([item] + rest.value.0, rest.value.1)))
         == Prepend(got + [item], rest)
  {
    if rest.Some? {
      assert got + ([item] + rest.value.0) == (got + [item]) + rest.value.0;
    }
  }

  // ---------------------------------------------------------------- writing

  datatype WriteOp = WriteBit(bit: bool) | WriteBits(value: nat, count: nat) | WriteBytes(bytes: seq<byte>) | Pad

  /** Values are `u64`. */
  ghost predicate Typed(op: WriteOp) {
    op.WriteBits? ==> op.value < TWO_64
  }

  predicate Accepted(op: WriteOp) {
    op.WriteBits? ==> W.Fits(op.value, op.count)
  }

  function Append(bits: seq<bool>, op: WriteOp): seq<bool> {
    match op
    case WriteBit(bit) => bits + [bit]
    case WriteBits(value, count) => if W.Fits(value, count) then bits + ToBits(value, Width(count)) else bits
    case WriteBytes(bytes) => bits + BytesToBits(bytes)
    case Pad => bits + Zeros(W.Padding(|bits|))
  }

  function AppendAll(bits: seq<bool>, ops: seq<WriteOp>): seq<bool>
    decreases |ops|
  {
    if ops == [] then bits else AppendAll(Append(bits, ops[0]), ops[1..])
  }

  method PerformWrite(w: W.BitWriter, op: WriteOp)
    requires w.Valid() && Typed(op)
    modifies w
    ensures w.Valid() && w.Written() == Append(old(w.Written()), op)
  {
    match op {
      case WriteBit(bit) => w.WriteBit(bit);
      case WriteBits(value, count) =>
        ghost var before := w.Written();
        var ok := w.WriteBits(value, count);
        assert before + [] == before;
      case WriteBytes(bytes) => w.Write(bytes);
      case Pad => w.Align();
    }
  }

  method RunWriter(w: W.BitWriter, ops: seq<WriteOp>)
    requires w.Valid()
    requires forall op :: op in ops ==> Typed(op)
    modifies w
    ensures w.Valid() && w.Written() == AppendAll(old(w.Written()), ops)
  {
    ghost var all := AppendAll(w.Written(), ops);
    var i := 0;
    assert ops[0..] == ops;
    while i < |ops|
      invariant 0 <= i <= |ops|
      invariant w.Valid() && AppendAll(w.Written(), ops[i..]) == all
    {
      assert ops[i..][1..] == ops[i + 1..];
      PerformWrite(w, ops[i]);
      i := i + 1;
    }
  }

  // ---------------------------------------------------------------- mirrored calls

  function Mirror(ops: seq<WriteOp>): seq<ReadOp> {
    if ops == [] then []
    else if !Accepted(ops[0]) then Mirror(ops[1..])
    else [match ops[0]
          case WriteBit(_) => ReadBit
          case WriteBits(_, count) => ReadBits(count)
          case WriteBytes(bytes) => ReadBytes(|bytes|)
          case Pad => Align] + Mirror(ops[1..])
  }

  function Expected(ops: seq<WriteOp>): seq<Item> {
    if ops == [] then []
    else if !Accepted(ops[0]) then Expected(ops[1..])
    else [match ops[0]
          case WriteBit(bit) => Bit(bit)
          case WriteBits(value, _) => Number(value)
          case WriteBytes(bytes) => Bytes(bytes)
          case Pad => Unit] + Expected(ops[1..])
  }

  lemma {:induction false} AppendAllGrows(bits: seq<bool>, ops: seq<WriteOp>)
    ensures bits <= AppendAll(bits, ops)
    decreases |ops|
  {
    if ops != [] {
      AppendAllGrows(Append(bits, ops[0]), ops[1..]);
    }
  }

  lemma NumberAt(stream: seq<bool>, p: nat, value: nat, n: nat)
    requires value < Pow2(n) && At(stream, p, ToBits(value, n))
    ensures R.Value(stream, p, n) == value
  {
    AtSlice(stream, p, ToBits(value, n));
    R.ValueIsFromBits(stream, p, n);
    FromToBits(value, n);
  }

  lemma BytesStandAt(stream: seq<bool>, p: nat, bytes: seq<byte>)
    requires At(stream, p, BytesToBits(bytes))
    ensures BytesAt(stream, p, |bytes|) == bytes
  {
    AtSlice(stream, p, BytesToBits(bytes));
    BytesAtSpells(stream, p, |bytes|);
    BytesToBitsInjective(bytes, BytesAt(stream, p, |bytes|));
  }

  lemma PrefixAt(stream: seq<bool>, bits: seq<bool>, more: seq<bool>)
    requires bits + more <= stream
    ensures At(stream, |bits|, more)
  {
    forall i | 0 <= i < |more| ensures stream[|bits| + i] == ItemOf(more, i) {
      assert stream[|bits| + i] == (bits + more)[|bits| + i];
    }
  }

  /** Reading back one accepted call. */
  lemma MirrorOne(bits: seq<bool>, op: WriteOp, stream: seq<bool>)
    requires Typed(op) && Accepted(op) && Append(bits, op) <= stream
    ensures Step(stream, |bits|, Mirror([op])[0]) == Some((Expected([op])[0], |Append(bits, op)|))
  {
    match op
    case WriteBit(bit) =>
    case WriteBits(value, count) =>
      Pow2Of64();
      PrefixAt(stream, bits, ToBits(value, Width(count)));
      NumberAt(stream, |bits|, value, Width(count));
    case WriteBytes(bytes) =>
      PrefixAt(stream, bits, BytesToBits(bytes));
      BytesStandAt(stream, |bits|, bytes);
    case Pad => W.PaddingIs(|bits| / 8, |bits| % 8);
  }

  /** The mirrored reads recover every accepted value, whatever follows in the stream. */
  lemma {:induction false} MirrorReads(bits: seq<bool>, ops: seq<WriteOp>, stream: seq<bool>)
    requires forall op :: op in ops ==> Typed(op)
    requires AppendAll(bits, ops) <= stream
    ensures Run(stream, |bits|, Mirror(ops)) == Some((Expected(ops), |AppendAll(bits, ops)|))
    decreases |ops|
  {
    if ops != [] {
      var next := Append(bits, ops[0]);
      MirrorReads(next, ops[1..], stream);
      if Accepted(ops[0]) {
        AppendAllGrows(next, ops[1..]);
        MirrorOne(bits, ops[0], stream);
        assert Mirror(ops)[1..] == Mirror(ops[1..]);
      }
    }
  }

  /** Round trip through the real writer and the real reader. */
  method WriteThenRead(ops: seq<WriteOp>) returns (items: Option<seq<Item>>)
    requires forall op :: op in ops ==> Typed(op)
    ensures items == Some(Expected(ops))
  {
    var w := new W.BitWriter();
    RunWriter(w, ops);
    ghost var bits := w.Written();
    var bytes := w.Finish();
    var r := new R.BitReader(bytes);
    MirrorReads([], ops, r.stream);
    items := RunReader(r, Mirror(ops));
  }
}
