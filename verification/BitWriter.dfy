/** `BitWriter` of crates/bytes-util/src/bit_write.rs over a byte vector, whose own writes
    cannot fail. */
module BitWriter {
  import opened Bits

  /** The number of zero bits that bring `n` bits to a byte boundary. */
  function Padding(n: nat): nat {
    (8 - n % 8) % 8
  }

  /** `write_bits` takes only values that fit. */
  predicate Fits(value: nat, count: nat) {
    Width(count) == 64 || value < Pow2(Width(count))
  }

  lemma PaddingIs(k: nat, p: nat)
    requires p < 8
    ensures Padding(8 * k + p) == if p == 0 then 0 else 8 - p
  {
  }

  lemma AppendStep(start: seq<bool>, bits: seq<bool>, i: nat)
    requires i < |bits|
    ensures (start + bits[..i]) + [bits[i]] == start + bits[..i + 1]
  {
  }

  lemma AppendByte(start: seq<bool>, buf: seq<byte>, i: nat)
    requires i < |buf|
    ensures (start + BytesToBits(buf[..i])) + ToBits(buf[i], 8) == start + BytesToBits(buf[..i + 1])
  {
    assert buf[..i + 1] == buf[..i] + [buf[i]];
    BytesToBitsAppend(buf[..i], [buf[i]]);
    OneByte(buf[i]);
  }

  /** The cached bits and one more make a byte. */
  lemma FullByte(writer: seq<byte>, b: byte, cached: seq<bool>, bit: bool)
    requires ToBits(b, 8)[..8] == cached + [bit]
    ensures BytesToBits(writer + [b]) + [] == BytesToBits(writer) + (cached + [bit])
  {
    assert ToBits(b, 8)[..8] == ToBits(b, 8);
    OneByte(b);
    BytesToBitsAppend(writer, [b]);
  }

  lemma ByteFits(b: byte)
    ensures Fits(b, 8) && Width(8) == 8
  {
    PowersOfTwo();
  }

  class BitWriter {
    var bitPos: nat
    var currentByte: byte
    var writer: seq<byte>

    ghost predicate Valid()
      reads this
    {
      bitPos < 8
    }

    /** Every bit written so far. */
    ghost function Written(): seq<bool>
      requires Valid()
      reads this
    {
      BytesToBits(writer) + ToBits(currentByte, 8)[..bitPos]
    }

    constructor ()
      ensures Valid() && Written() == []
    {
      bitPos, currentByte, writer := 0, 0, [];
    }

    method WriteBit(bit: bool)
      requires Valid()
      modifies this
      ensures Valid() && Written() == old(Written()) + [bit]
    {
      ghost var bytes, cached := BytesToBits(writer), ToBits(currentByte, 8)[..bitPos];
      currentByte := SetBit(currentByte, bitPos, bit);
      bitPos := bitPos + 1;
      assert ToBits(currentByte, 8)[..bitPos] == cached + [bit];
      if bitPos == 8 {
        FullByte(writer, currentByte, cached, bit);
        writer, currentByte, bitPos := writer + [currentByte], 0, 0;
      }
      assert (bytes + cached) + [bit] == bytes + (cached + [bit]);
    }

    /** Returns false for `InvalidData`; a rejected value leaves the stream unchanged. */
    method WriteBits(value: nat, count: nat) returns (ok: bool)
      requires Valid()
      requires value < TWO_64
      modifies this
      ensures Valid()
      ensures ok <==> Fits(value, count)
      ensures Written() == old(Written()) + if ok then ToBits(value, Width(count)) else []
      ensures !ok ==> unchanged(this)
    {
      var n := if count < 64 then count else 64;
      if n != 64 && value > Pow2(n) - 1 {
        return false;
      }
      ghost var start, bits := Written(), ToBits(value, n);
      for i := 0 to n
        invariant Valid()
        invariant Written() == start + bits[..i]
      {
        var bit := TestBit(value, n, i);
        WriteBit(bit);
        AppendStep(start, bits, i);
      }
      assert bits[..n] == bits;
      ok := true;
    }

    /** `io::Write::write` followed to the end of the buffer. */
    method Write(buf: seq<byte>)
      requires Valid()
      modifies this
      ensures Valid() && Written() == old(Written()) + BytesToBits(buf)
    {
      if bitPos == 0 {
        BytesToBitsAppend(writer, buf);
        writer := writer + buf;
        return;
      }
      ghost var start := Written();
      for i := 0 to |buf|
        invariant Valid()
        invariant Written() == start + BytesToBits(buf[..i])
      {
        ByteFits(buf[i]);
        var _ := WriteBits(buf[i], 8);
        AppendByte(start, buf, i);
      }
      assert buf[..|buf|] == buf;
    }

    method Align()
      requires Valid()
      modifies this
      ensures Valid() && bitPos == 0
      ensures Written() == old(Written()) + Zeros(Padding(|old(Written())|))
    {
      ghost var start := Written();
      PaddingIs(|writer|, bitPos);
      if bitPos != 0 {
        ghost var n := 8 - bitPos;
        var _ := WriteBits(0, 8 - bitPos);
        ZeroBits(n);
        assert |start| + n == 8 * |writer| + bitPos;
      } else {
        assert start + Zeros(0) == start;
      }
    }

    /** The finished bytes are the written bits, zero-padded to a byte. */
    method Finish() returns (bytes: seq<byte>)
      requires Valid()
      modifies this
      ensures BytesToBits(bytes) == old(Written()) + Zeros(Padding(|old(Written())|))
    {
      Align();
      bytes := writer;
    }
  }
}
