/** `read_leb128` of crates/av1/src/obu/utils.rs. */
module Leb128 {
  // The code is that of section 4.10.5 of the AV1 specification.

  import opened Bits
  import opened Wrappers
  import opened Positions
  import R = BitReader
  import P = BitPrograms

  function Pow128(n: nat): (r: nat)
    ensures r > 0
  {
    if n == 0 then 1 else 128 * Pow128(n - 1)
  }

  /** The code of `v` in `n` bytes, seven bits each, the lowest first; all but the last carry the
      continuation bit.  Any `n` that is large enough is a valid code. */
  function Code(v: nat, n: nat): (r: seq<byte>)
    requires n > 0 && v < Pow128(n)
    ensures |r| == n
    decreases n, v
  {
    if n == 1 then [v] else [128 + v % 128] + Code(v / 128, n - 1)
  }

  /** Reading with `left` bytes still allowed. */
  function Decoded(stream: seq<bool>, p: nat, left: nat): Option<(nat, nat)>
    decreases left, stream
  {
    if left == 0 then Some((0, p))
    else if p + 8 > |stream| then None
    else
      var b := R.Value(stream, p, 8);
      if b < 128 then Some((b, p + 8))
      else
        var (high, q) :- Decoded(stream, p + 8, left - 1);
        Some((b % 128 + 128 * high, q))
  }

  /** The value stays below 2^56 and at most eight bytes are consumed. */
  lemma {:induction false} DecodedBound(stream: seq<bool>, p: nat, left: nat)
    requires Decoded(stream, p, left).Some?
    ensures var (v, q) := Decoded(stream, p, left).value; v < Pow128(left) && p <= q <= p + 8 * left
    decreases left
  {
    if left > 0 {
      R.ValueBound(stream, p, 8);
      if R.Value(stream, p, 8) >= 128 {
        DecodedBound(stream, p + 8, left - 1);
      }
    }
  }

  /** The low seven bits of the bytes, the first byte weighing least. */
  function Groups(bytes: seq<byte>): nat {
    if bytes == [] then 0
    else
      var n := |bytes| - 1;
      Groups(bytes[..n]) + bytes[n] % 128 * Pow128(n)
  }

  lemma {:induction false} GroupsFrom(bytes: seq<byte>)
    requires bytes != []
    ensures Groups(bytes) == bytes[0] % 128 + 128 * Groups(bytes[1..])
  {
    var n := |bytes| - 1;
    if n == 0 {
      assert bytes[..0] == [] && bytes[1..] == [];
    } else {
      GroupsFrom(bytes[..n]);
      assert bytes[..n][1..] == bytes[1..][..n - 1];
      var b, w := bytes[n] % 128, Pow128(n - 1);
      assert b * (128 * w) == 128 * (b * w);
    }
  }

  /** Whatever the bytes: reading takes bytes up to the first below 128, or `left` of them, and adds up
      their groups. */
  lemma {:induction false} DecodedIsGroups(stream: seq<bool>, p: nat, bytes: seq<byte>, left: nat)
    requires 0 < |bytes| <= left && At(stream, p, BytesToBits(bytes))
    requires forall i :: 0 <= i < |bytes| - 1 ==> bytes[i] >= 128
    requires bytes[|bytes| - 1] < 128 || |bytes| == left
    ensures Decoded(stream, p, left) == Some((Groups(bytes), p + 8 * |bytes|))
    decreases |bytes|
  {
    var rest := bytes[1..];
    assert [bytes[0]] + rest == bytes;
    FirstByte(stream, p, bytes[0], rest);
    GroupsFrom(bytes);
    if rest == [] {
      LastGroup(stream, p, bytes[0], left);
    } else {
      DecodedIsGroups(stream, p + 8, rest, left - 1);
      OneMoreGroup(stream, p, bytes[0], left, Groups(rest), p + 8 * |bytes|);
    }
  }

  lemma LastGroup(stream: seq<bool>, p: nat, b: byte, left: nat)
    requires p + 8 <= |stream| && R.Value(stream, p, 8) == b && (b < 128 || left == 1) && left > 0
    ensures Decoded(stream, p, left) == Some((b % 128, p + 8))
  {
  }

  lemma OneMoreGroup(stream: seq<bool>, p: nat, b: byte, left: nat, high: nat, q: nat)
    requires p + 8 <= |stream| && R.Value(stream, p, 8) == b >= 128 && left > 0
    requires Decoded(stream, p + 8, left - 1) == Some((high, q))
    ensures Decoded(stream, p, left) == Some((b % 128 + 128 * high, q))
  {
  }

  /** Every code of every value below 2^56, minimal or padded, is read back, wherever it stands. */
  lemma {:induction false} CodeIsDecoded(stream: seq<bool>, p: nat, v: nat, n: nat, left: nat)
    requires 0 < n <= left && v < Pow128(n)
    requires At(stream, p, BytesToBits(Code(v, n)))
    ensures Decoded(stream, p, left) == Some((v, p + 8 * n))
    decreases n
  {
    if n == 1 {
      assert [v] + [] == [v];
      FirstByte(stream, p, v, []);
    } else {
      FirstByte(stream, p, 128 + v % 128, Code(v / 128, n - 1));
      CodeIsDecoded(stream, p + 8, v / 128, n - 1, left - 1);
    }
  }

  lemma FirstByte(stream: seq<bool>, p: nat, b: byte, rest: seq<byte>)
    requires At(stream, p, BytesToBits([b] + rest))
    ensures p + 8 <= |stream| && R.Value(stream, p, 8) == b && At(stream, p + 8, BytesToBits(rest))
  {
    OneByte(b);
    BytesToBitsAppend([b], rest);
    AtSplit(stream, p, ToBits(b, 8), BytesToBits(rest));
    PowersOfTwo();
    P.NumberAt(stream, p, b, 8);
  }

  /** What is left to read, weighted and added to what has been read. */
  ghost function Shifted(low: nat, weight: nat, rest: Option<(nat, nat)>): Option<(nat, nat)> {
    if rest.None? then None else Some((low + weight * rest.value.0, rest.value.1))
  }

  lemma Distributes(w: nat, b: nat, high: nat)
    ensures w * (b + 128 * high) == w * b + (128 * w) * high
  {
  }

  /** One more group of seven bits. */
  lemma ShiftedStep(low: nat, weight: nat, b: nat, rest: Option<(nat, nat)>)
    ensures Shifted(low, weight, if rest.None? then None else Some((b + 128 * rest.value.0, rest.value.1)))
         == Shifted(low + weight * b, 128 * weight, rest)
  {
    if rest.Some? {
      Distributes(weight, b, rest.value.0);
    }
  }

  /** One turn of the loop with `left` turns to go: returns the group and whether more follow. */
  method ReadGroup(r: R.BitReader, result: nat, weight: nat, left: nat, ghost d: Option<(nat, nat)>)
    returns (sum: Option<nat>, more: bool)
    requires r.Valid() && left > 0 && d == Shifted(result, weight, Decoded(r.stream, r.Position(), left))
    modifies r
    ensures sum.None? ==> d.None?
    ensures sum.Some? ==> r.Valid()
    ensures sum.Some? && !more ==> d == Some((sum.value, r.Position()))
    ensures sum.Some? && more ==> d == Shifted(sum.value, 128 * weight, Decoded(r.stream, r.Position(), left - 1))
  {
    var b := r.ReadBits(8);
    if b.None? {
      return None, false;
    }
    more := b.value >= 128;
    var group := b.value % 128;
    sum := Some(result + weight * group);
    if more {
      ShiftedStep(result, weight, group, Decoded(r.stream, r.Position(), left - 1));
    }
  }

  method ReadLeb128(r: R.BitReader) returns (v: Option<nat>)
    requires r.Valid()
    modifies r
    ensures var d := Decoded(r.stream, old(r.Position()), 8);
            && (v.Some? <==> d.Some?)
            && (v.Some? ==> r.Valid() && d.value == (v.value, r.Position()))
  {
    ghost var d := Decoded(r.stream, r.Position(), 8);
    var result: nat, weight: nat := 0, 1;
    assert d == Shifted(0, 1, d);
    for i := 0 to 8
      invariant r.Valid()
      invariant d == Shifted(result, weight, Decoded(r.stream, r.Position(), 8 - i))
    {
      var sum, more := ReadGroup(r, result, weight, 8 - i, d);
      if sum.None? || !more {
        return sum;
      }
      result, weight := sum.value, 128 * weight;
    }
    ShiftedNothing(result, weight, r.Position());
    v := Some(result);
  }

  lemma ShiftedNothing(low: nat, weight: nat, p: nat)
    ensures Shifted(low, weight, Some((0, p))) == Some((low, p))
  {
  }
}
