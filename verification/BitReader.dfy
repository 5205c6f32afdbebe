/** `BitReader` of crates/bytes-util/src/bit_read.rs over an in-memory cursor. */
module BitReader {
  // The cursor may be moved past the end of its data; a failed one-byte read leaves it where it is.

  import opened Bits
  import opened Wrappers

  /** Integer division that truncates toward zero. */
  function Quot(a: int): int {
    if a >= 0 then a / 8 else -((-a) / 8)
  }

  function Rem(a: int): int {
    a - 8 * Quot(a)
  }

  /** `u64::div_ceil(8)` */
  function CeilBytes(bits: nat): nat {
    (bits + 7) / 8
  }

  /** The number that the `n` bits from `p` on spell. */
  function Value(stream: seq<bool>, p: nat, n: nat): nat
    requires n == 0 || p + n <= |stream|
    decreases n, p
  {
    if n == 0 then 0 else 2 * Value(stream, p, n - 1) + if stream[p + n - 1] then 1 else 0
  }

  /** Bit `x` of a byte string. */
  function BitOfByte(data: seq<byte>, x: nat): bool
    requires x < 8 * |data|
  {
    ToBits(data[x / 8], 8)[x % 8]
  }

  /** `stream` is `BytesToBits(data)`, said bit by bit. */
  ghost predicate Spells(data: seq<byte>, stream: seq<bool>) {
    |stream| == 8 * |data|
    && forall x {:trigger BitOfByte(data, x)} :: 0 <= x < 8 * |data| ==> stream[x] == BitOfByte(data, x)
  }

  lemma CachedBit(data: seq<byte>, k: nat, i: nat)
    requires k < |data| && i < 8
    ensures BitOfByte(data, 8 * k + i) == ToBits(data[k], 8)[i]
  {
  }

  lemma SpellsBytes(data: seq<byte>)
    ensures Spells(data, BytesToBits(data))
  {
    forall x | 0 <= x < 8 * |data| ensures BytesToBits(data)[x] == BitOfByte(data, x) {
      BitAt(data, x);
    }
  }

  lemma SpelledSlice(data: seq<byte>, stream: seq<bool>, i: nat, j: nat)
    requires Spells(data, stream) && i <= j <= |data|
    ensures BytesToBits(data[i..j]) == stream[8 * i..8 * j]
  {
    assert stream == BytesToBits(data) by {
      forall x | 0 <= x < 8 * |data| ensures stream[x] == BytesToBits(data)[x] {
        BitAt(data, x);
        assert stream[x] == BitOfByte(data, x);
      }
    }
    BytesToBitsSlice(data, i, j);
  }

  datatype SeekFrom = Start(to: nat) | End(offset: int) | Current(offset: int)

  class BitReader {
    const data: seq<byte>
    /** The flat bit sequence behind the reader. */
    ghost const stream: seq<bool>
    var pos: nat
    var bitPos: nat
    var currentByte: byte

    /** The cached byte is the one the cursor has just passed. */
    ghost predicate Valid()
      reads this
    {
      && Spells(data, stream)
      && bitPos < 8
      && (bitPos > 0 ==> 1 <= pos <= |data| && currentByte == data[pos - 1])
    }

    /** The index in `stream` of the next bit. */
    function Position(): nat
      requires Valid()
      reads this
    {
      if bitPos == 0 then 8 * pos else 8 * (pos - 1) + bitPos
    }

    constructor (data: seq<byte>)
      ensures Valid() && Position() == 0
      ensures this.data == data && stream == BytesToBits(data)
    {
      SpellsBytes(data);
      this.data, stream, pos, bitPos, currentByte := data, BytesToBits(data), 0, 0, 0;
    }

    method ReadBit() returns (r: Option<bool>)
      requires Valid()
      modifies this
      ensures Valid()
      ensures r.Some? <==> old(Position()) < |stream|
      ensures r.Some? ==> r.value == stream[old(Position())] && Position() == old(Position()) + 1
      ensures r.None? ==> unchanged(this)
    {
      if bitPos == 0 {
        if pos >= |data| {
          return None;
        }
        currentByte, pos := data[pos], pos + 1;
      }
      CachedBit(data, pos - 1, bitPos);
      var bit := TestBit(currentByte, 8, bitPos);
      r := Some(bit);
      bitPos := (bitPos + 1) % 8;
    }

    method ReadBits(count: nat) returns (r: Option<nat>)
      requires Valid()
      modifies this
      ensures Valid()
      ensures r.Some? <==> Width(count) == 0 || old(Position()) + Width(count) <= |stream|
      ensures r.Some? ==>
                && Position() == old(Position()) + Width(count)
                && r.value == Value(stream, old(Position()), Width(count))
    {
      var n := if count < 64 then count else 64;
      var bits := 0;
      ghost var start := Position();
      for i := 0 to n
        invariant Valid()
        invariant Position() == start + i
        invariant i == 0 || start + i <= |stream|
        invariant bits == Value(stream, start, i)
      {
        var bit := ReadBit();
        if bit.None? {
          return None;
        }
        bits := 2 * bits + if bit.value then 1 else 0;
      }
      r := Some(bits);
    }

    /** The rest of a partly read byte is skipped. */
    method Align()
      requires Valid()
      modifies this
      ensures Valid() && bitPos == 0 && Position() == 8 * CeilBytes(old(Position()))
    {
      bitPos := 0;
    }

    /** `read_exact` over `io::Read::read`: whole bytes from any bit position. */
    method ReadExact(len: nat) returns (r: Option<seq<byte>>)
      requires Valid()
      modifies this
      ensures Valid()
      ensures r.Some? <==> len == 0 || old(Position()) + 8 * len <= |stream|
      ensures r.Some? ==>
                && Position() == old(Position()) + 8 * len
                && |r.value| == len
                && (len > 0 ==> BytesToBits(r.value) == stream[old(Position())..old(Position()) + 8 * len])
    {
      if bitPos == 0 {
        if len == 0 {
          return Some([]);
        }
        if pos + len > |data| {
          pos := if pos > |data| then pos else |data|;
          return None;
        }
        SpelledSlice(data, stream, pos, pos + len);
        r := Some(data[pos..pos + len]);
        pos := pos + len;
        return;
      }
      r := ReadUnaligned(len);
    }

    /** The loop of `read` at a bit offset. */
    method ReadUnaligned(len: nat) returns (r: Option<seq<byte>>)
      requires Valid() && Position() <= |stream|
      modifies this
      ensures Valid()
      ensures r.Some? <==> old(Position()) + 8 * len <= |stream|
      ensures r.Some? ==>
                && Position() == old(Position()) + 8 * len && |r.value| == len
                && BytesToBits(r.value) == stream[old(Position())..old(Position()) + 8 * len]
    {
      ghost var start := Position();
      var buf: seq<byte> := [];
      for i := 0 to len
        invariant Valid() && |buf| == i
        invariant Position() == start + 8 * i <= |stream|
        invariant BytesToBits(buf) == stream[start..start + 8 * i]
      {
        var b := ReadBits(8);
        if b.None? {
          return None;
        }
        AppendByte(stream, start, buf, b.value);
        buf := buf + [b.value];
      }
      r := Some(buf);
    }

    method BitStreamPosition() returns (p: nat)
      requires Valid()
      ensures p == Position()
    {
      p := pos * 8 + (if bitPos == 0 then 8 else bitPos) - 8;
    }

    /** Lands at and returns the old position plus `count`; a position before the start, or one
        inside a byte that does not exist, is refused. */
    method SeekBits(count: int) returns (r: Option<nat>)
      requires Valid()
      modifies this
      ensures r.Some? <==>
                count == 0
                || (old(Position()) + count >= 0
                    && ((old(Position()) + count) % 8 == 0 || old(Position()) + count < |stream|))
      ensures r.Some? ==> Valid() && Position() == r.value == old(Position()) + count
      ensures r.None? && old(Position()) + count < 0 ==> unchanged(this)
      ensures r.None? && old(Position()) + count >= 0 ==>
                && pos == (old(Position()) + count) / 8 && bitPos == (old(Position()) + count) % 8
                && currentByte == old(currentByte)
    {
      if count == 0 {
        var p := BitStreamPosition();
        return Some(p);
      }
      ghost var start := Position();
      var total := bitPos + count;
      var bitMove := Rem(total);
      var byteMove := Quot(total);
      if bitPos != 0 {
        byteMove := byteMove - 1;
      }
      if bitMove < 0 {
        byteMove := byteMove - 1;
      }
      SeekArithmetic(pos, bitPos, count, byteMove, bitMove);
      if pos + byteMove < 0 {
        return None;
      }
      pos := pos + byteMove;
      var at := pos * 8;
      bitPos := (8 + bitMove) % 8;
      if bitPos != 0 {
        if pos >= |data| {
          return None;
        }
        currentByte, pos := data[pos], pos + 1;
        at := at + bitPos;
      }
      r := Some(at);
    }

    /** `io::Seek::seek`. */
    method Seek(to: SeekFrom) returns (r: Option<nat>)
      requires Valid()
      modifies this
      ensures to.Current? && old(bitPos) != 0 ==>
                && (r.Some? ==> Valid() && Position() == old(Position()) + 8 * to.offset && r.value == CeilBytes(Position()))
                && (r.Some? <==> to.offset == 0
                                 || (old(Position()) + 8 * to.offset >= 0 && old(Position()) + 8 * to.offset < |stream|))
      ensures !(to.Current? && old(bitPos) != 0) ==>
                var target := match to
                              case Start(n) => n
                              case End(offset) => |data| + offset
                              case Current(offset) => old(pos) + offset;
                && Valid() && bitPos == 0
                && (r.Some? <==> target >= 0)
                && (r.Some? ==> r.value == target && Position() == 8 * target)
                && (r.None? ==> pos == old(pos))
    {
      if to.Current? && bitPos != 0 {
        var p := SeekBits(to.offset * 8);
        if p.None? {
          return None;
        }
        return Some(CeilBytes(p.value));
      }
      bitPos := 0;
      var target: int := match to
                         case Start(n) => n
                         case End(offset) => |data| + offset
                         case Current(offset) => pos + offset;
      if target < 0 {
        return None;
      }
      pos := target;
      r := Some(target);
    }
  }

  /** The byte and bit moves of `seek_bits` add up to the requested move. */
  lemma SeekArithmetic(pos: int, bitPos: int, count: int, byteMove: int, bitMove: int)
    requires 0 <= bitPos < 8 && bitMove == Rem(bitPos + count)
    requires byteMove == Quot(bitPos + count) - (if bitPos != 0 then 1 else 0) - (if bitMove < 0 then 1 else 0)
    ensures -8 < bitMove < 8
    ensures 8 * (pos + byteMove) + (8 + bitMove) % 8 == (if bitPos == 0 then 8 * pos else 8 * (pos - 1) + bitPos) + count
  {
    var total := bitPos + count;
    if total >= 0 {
      assert total == 8 * (total / 8) + total % 8;
    } else {
      assert -total == 8 * ((-total) / 8) + (-total) % 8;
    }
  }

  lemma {:induction false} ValueBound(stream: seq<bool>, p: nat, n: nat)
    requires n == 0 || p + n <= |stream|
    ensures Value(stream, p, n) < Pow2(n)
  {
    if n > 0 {
      ValueBound(stream, p, n - 1);
    }
  }

  lemma {:induction false} ValueIsFromBits(stream: seq<bool>, p: nat, n: nat)
    requires p + n <= |stream|
    ensures Value(stream, p, n) == FromBits(stream[p..p + n])
  {
    if n > 0 {
      ValueIsFromBits(stream, p, n - 1);
      assert stream[p..p + n][..n - 1] == stream[p..p + n - 1];
    }
  }

  /** The eight bits at `p` as a byte. */
  lemma ByteAt(stream: seq<bool>, p: nat)
    requires p + 8 <= |stream|
    ensures Value(stream, p, 8) < 256 && ToBits(Value(stream, p, 8), 8) == stream[p..p + 8]
  {
    ValueIsFromBits(stream, p, 8);
    FromBitsBound(stream[p..p + 8]);
    PowersOfTwo();
    ToFromBits(stream[p..p + 8]);
  }

  lemma AppendByte(stream: seq<bool>, start: nat, buf: seq<byte>, b: nat)
    requires start + 8 * |buf| + 8 <= |stream|
    requires BytesToBits(buf) == stream[start..start + 8 * |buf|]
    requires b == Value(stream, start + 8 * |buf|, 8)
    ensures b < 256 && BytesToBits(buf + [b]) == stream[start..start + 8 * |buf| + 8]
  {
    ByteAt(stream, start + 8 * |buf|);
    BytesToBitsAppend(buf, [b]);
    OneByte(b);
  }
}
