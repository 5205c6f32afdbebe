/** Exp-Golomb codes (crates/expgolomb/src/lib.rs). */
module ExpGolomb {
  // The AV1 variable-length code, of crates/av1/src/obu/utils.rs, is here as well.  Both run over the
  // bit reader and writer; a panic on integer overflow is the outcome `None`.

  import opened Bits
  import opened Wrappers
  import opened Positions
  import R = BitReader
  import W = BitWriter
  import P = BitPrograms
  import L = Layouts

  /** floor(log2(n)) */
  function Log2(n: nat): nat
    requires n > 0
  {
    if n == 1 then 0 else 1 + Log2(n / 2)
  }

  lemma {:induction false} Log2Bounds(n: nat)
    requires n > 0
    ensures Pow2(Log2(n)) <= n < Pow2(Log2(n) + 1)
  {
    if n > 1 {
      Log2Bounds(n / 2);
    }
  }

  lemma Log2Below(n: nat, k: nat)
    requires 0 < n < Pow2(k)
    ensures Log2(n) < k
  {
    Log2Bounds(n);
    if k <= Log2(n) {
      Pow2Monotonic(k, Log2(n));
    }
  }

  // ---------------------------------------------------------------- specification

  /** The code of `v`: as many zeros as `v + 1` has bits after its leading one, then `v + 1`. */
  function Code(v: nat): (r: seq<bool>)
    ensures |r| == 2 * Log2(v + 1) + 1
  {
    Zeros(Log2(v + 1)) + ToBits(v + 1, Log2(v + 1) + 1)
  }

  /** The number of zero bits before the first one bit, if there is one. */
  function LeadingZeros(stream: seq<bool>, p: nat): Option<nat>
    decreases |stream| - p
  {
    if p >= |stream| then None
    else if stream[p] then Some(0)
    else
      var z :- LeadingZeros(stream, p + 1);
      Some(z + 1)
  }

  lemma {:induction false} LeadingZerosIs(stream: seq<bool>, p: nat, z: nat)
    requires p + z < |stream| && stream[p + z] && forall i :: p <= i < p + z ==> !stream[i]
    ensures LeadingZeros(stream, p) == Some(z)
    decreases z
  {
    if z > 0 {
      LeadingZerosIs(stream, p + 1, z - 1);
    }
  }

  lemma {:induction false} LeadingZerosFits(stream: seq<bool>, p: nat)
    requires LeadingZeros(stream, p).Some?
    ensures p + LeadingZeros(stream, p).value < |stream|
    decreases |stream| - p
  {
    if !stream[p] {
      LeadingZerosFits(stream, p + 1);
    }
  }

  /** `read_exp_golomb` on a flat stream: the value and the next position. */
  function Decoded(stream: seq<bool>, p: nat): Option<(nat, nat)> {
    var z :- LeadingZeros(stream, p);
    LeadingZerosFits(stream, p);
    if p + 2 * z + 1 > |stream| then None
    else
      var result := (Pow2(z) + R.Value(stream, p + z + 1, z)) % TWO_64;
      if result == 0 then None else Some((result - 1, p + 2 * z + 1))
  }

  /** `read_uvlc` on a flat stream; its zero counter is a `u8`. */
  function DecodedUvlc(stream: seq<bool>, p: nat): Option<(nat, nat)> {
    var z :- LeadingZeros(stream, p);
    LeadingZerosFits(stream, p);
    if z > 255 then None
    else if z >= 32 then Some((Pow2(32) - 1, p + z + 1))
    else if p + 2 * z + 1 > |stream| then None
    else Some((R.Value(stream, p + z + 1, z) + Pow2(z) - 1, p + 2 * z + 1))
  }

  // ---------------------------------------------------------------- the code itself

  /** `write_exp_golomb`; `input + 1` must not overflow. */
  method WriteExpGolomb(w: W.BitWriter, input: nat)
    requires w.Valid()
    requires input + 1 < TWO_64
    modifies w
    ensures w.Valid() && w.Written() == old(w.Written()) + Code(input)
  {
    ghost var start := w.Written();
    var number := input + 1;
    var leadingZeros := 0;
    while number > 1
      invariant number >= 1
      invariant leadingZeros + Log2(number) == Log2(input + 1)
    {
      number := number / 2;
      leadingZeros := leadingZeros + 1;
    }
    WriteZeros(w, leadingZeros);
    WidthFits(input);
    var _ := w.WriteBits(input + 1, leadingZeros + 1);
    CodeAppended(start, input);
  }

  lemma CodeAppended(start: seq<bool>, v: nat)
    ensures (start + Zeros(Log2(v + 1))) + ToBits(v + 1, Log2(v + 1) + 1) == start + Code(v)
  {
  }

  method WriteZeros(w: W.BitWriter, n: nat)
    requires w.Valid()
    modifies w
    ensures w.Valid() && w.Written() == old(w.Written()) + Zeros(n)
  {
    ghost var start := w.Written();
    for i := 0 to n
      invariant w.Valid() && w.Written() == start + Zeros(i)
    {
      w.WriteBit(false);
      assert (start + Zeros(i)) + [false] == start + Zeros(i + 1);
    }
  }

  lemma WidthFits(input: nat)
    requires input + 1 < TWO_64
    ensures W.Fits(input + 1, Log2(input + 1) + 1) && Width(Log2(input + 1) + 1) == Log2(input + 1) + 1
  {
    Log2Bounds(input + 1);
    Pow2Of64();
    Log2Below(input + 1, 64);
  }

  /** Shifting a wrapped accumulator left and adding a bit. */
  lemma ShiftStep(x: nat, bit: nat, h: nat)
    requires bit <= 1 && h > 0
    ensures (2 * (x % (2 * h))) % (2 * h) + bit == (2 * x + bit) % (2 * h)
  {
    var m := 2 * h;
    var q, r := x / m, x % m;
    assert x == m * q + r;
    if r < h {
      DivUnique(2 * r, m, 0, 2 * r);
      assert 2 * x + bit == m * (2 * q) + (2 * r + bit);
      DivUnique(2 * x + bit, m, 2 * q, 2 * r + bit);
    } else {
      DivUnique(2 * r, m, 1, 2 * r - m);
      assert 2 * x + bit == m * (2 * q + 1) + (2 * r - m + bit);
      DivUnique(2 * x + bit, m, 2 * q + 1, 2 * r - m + bit);
    }
  }

  /** The `u64` accumulator after `i` suffix bits. */
  function Accumulated(stream: seq<bool>, q: nat, i: nat): nat
    requires i == 0 || q + i <= |stream|
  {
    if i == 0 then 1 else (2 * Accumulated(stream, q, i - 1)) % TWO_64 + if stream[q + i - 1] then 1 else 0
  }

  lemma {:induction false} AccumulatedIs(stream: seq<bool>, q: nat, i: nat)
    requires i == 0 || q + i <= |stream|
    ensures Accumulated(stream, q, i) == (Pow2(i) + R.Value(stream, q, i)) % TWO_64
  {
    if i > 0 {
      AccumulatedIs(stream, q, i - 1);
      ShiftStep(Pow2(i - 1) + R.Value(stream, q, i - 1), if stream[q + i - 1] then 1 else 0, TWO_64 / 2);
    }
  }

  lemma DecodedFromAccumulator(stream: seq<bool>, p: nat, z: nat)
    requires LeadingZeros(stream, p) == Some(z) && p + 2 * z + 1 <= |stream|
    ensures var result := Accumulated(stream, p + z + 1, z);
            Decoded(stream, p) == if result == 0 then None else Some((result - 1, p + 2 * z + 1))
  {
    AccumulatedIs(stream, p + z + 1, z);
  }

  /** Counts the zero bits up to and including the first one bit. */
  method CountZeros(r: R.BitReader) returns (zeros: Option<nat>)
    requires r.Valid()
    modifies r
    ensures r.Valid()
    ensures zeros == LeadingZeros(r.stream, old(r.Position()))
    ensures zeros.Some? ==> r.Position() == old(r.Position()) + zeros.value + 1
  {
    ghost var start := r.Position();
    var count := 0;
    while true
      invariant r.Valid() && r.Position() == start + count
      invariant LeadingZeros(r.stream, start)
             == var rest := LeadingZeros(r.stream, start + count); if rest.None? then None else Some(count + rest.value)
      decreases |r.stream| - r.Position()
    {
      var bit := r.ReadBit();
      if bit.None? {
        return None;
      }
      if bit.value {
        return Some(count);
      }
      count := count + 1;
    }
  }

  /** `read_exp_golomb`; the accumulator is a `u64` that is shifted left. */
  method ReadExpGolomb(r: R.BitReader) returns (v: Option<nat>)
    requires r.Valid()
    modifies r
    ensures var d := Decoded(r.stream, old(r.Position()));
            && (v.Some? <==> d.Some?)
            && (v.Some? ==> r.Valid() && d.value == (v.value, r.Position()))
  {
    ghost var p := r.Position();
    var zeros := CountZeros(r);
    if zeros.None? {
      return None;
    }
    LeadingZerosFits(r.stream, p);
    var z := zeros.value;
    var result := 1;
    for i := 0 to z
      invariant r.Valid() && r.Position() == p + z + 1 + i
      invariant p + z + 1 + i <= |r.stream|
      invariant result == Accumulated(r.stream, p + z + 1, i)
    {
      var bit := r.ReadBit();
      if bit.None? {
        return None;
      }
      result := (2 * result) % TWO_64 + (if bit.value then 1 else 0);
    }
    DecodedFromAccumulator(r.stream, p, z);
    v := if result == 0 then None else Some(result - 1);
  }

  /** `read_uvlc` */
  method ReadUvlc(r: R.BitReader) returns (v: Option<nat>)
    requires r.Valid()
    modifies r
    ensures var d := DecodedUvlc(r.stream, old(r.Position()));
            && (v.Some? <==> d.Some?)
            && (v.Some? ==> r.Valid() && d.value == (v.value, r.Position()))
  {
    ghost var p := r.Position();
    var zeros := CountZeros(r);
    if zeros.None? || zeros.value > 255 {
      return None;
    }
    LeadingZerosFits(r.stream, p);
    var z := zeros.value;
    if z >= 32 {
      return Some(Pow2(32) - 1);
    }
    var value := r.ReadBits(z);
    if value.None? {
      return None;
    }
    v := Some(value.value + Pow2(z) - 1);
  }

  // ---------------------------------------------------------------- results

  lemma CodeZeros(stream: seq<bool>, p: nat, v: nat)
    requires At(stream, p, Code(v))
    ensures LeadingZeros(stream, p) == Some(Log2(v + 1))
  {
    var z := Log2(v + 1);
    Log2Bounds(v + 1);
    LeadingOne(v + 1, z);
    assert stream[p + z] == ItemOf(Code(v), z) == ToBits(v + 1, z + 1)[0];
    forall i | p <= i < p + z ensures !stream[i] {
      assert stream[p + (i - p)] == ItemOf(Code(v), i - p) == Zeros(z)[i - p];
    }
    LeadingZerosIs(stream, p, z);
  }

  lemma CodeNumber(stream: seq<bool>, p: nat, v: nat)
    requires At(stream, p, Code(v))
    ensures Pow2(Log2(v + 1)) + R.Value(stream, p + Log2(v + 1) + 1, Log2(v + 1)) == v + 1
  {
    var n, z := v + 1, Log2(v + 1);
    Log2Bounds(n);
    LeadingOne(n, z);
    AtSplit(stream, p, Zeros(z), ToBits(n, z + 1));
    P.NumberAt(stream, p + z, n, z + 1);
    assert stream[p + z + 0] == ItemOf(ToBits(n, z + 1), 0);
    LeadingBitValue(stream, p + z, z);
  }

  /** The code of `v` is z zeros, a one, and the z low bits of v + 1, where 2^z is the largest power
      of two that does not exceed v + 1; so v is 2^z - 1 plus the number in the low bits. */
  lemma CodeShape(v: nat, z: nat)
    requires Pow2(z) <= v + 1 < Pow2(z + 1)
    ensures Code(v) == Zeros(z) + [true] + ToBits(v + 1 - Pow2(z), z)
  {
    Log2Is(v + 1, z);
    LeadingOneSplits(v + 1, z);
  }

  lemma Log2Is(n: nat, z: nat)
    requires Pow2(z) <= n < Pow2(z + 1)
    ensures Log2(n) == z
  {
    Log2Bounds(n);
    if Log2(n) < z {
      Pow2Monotonic(Log2(n) + 1, z);
    } else if z < Log2(n) {
      Pow2Monotonic(z + 1, Log2(n));
    }
  }

  lemma {:induction false} LeadingOneSplits(n: nat, z: nat)
    requires Pow2(z) <= n < Pow2(z + 1)
    ensures ToBits(n, z + 1) == [true] + ToBits(n - Pow2(z), z)
  {
    if z > 0 {
      LeadingOneSplits(n / 2, z - 1);
      var m := n - Pow2(z);
      assert m / 2 == n / 2 - Pow2(z - 1) && m % 2 == n % 2;
      assert ToBits(n, z + 1) == ToBits(n / 2, z) + [Odd(n)];
      assert ToBits(m, z) == ToBits(m / 2, z - 1) + [Odd(m)];
    } else {
      assert ToBits(n, 1) == ToBits(n / 2, 0) + [Odd(n)];
    }
  }

  /** A code is read back exactly, wherever it stands. */
  lemma CodeIsDecoded(stream: seq<bool>, p: nat, v: nat)
    requires v + 1 < TWO_64 && At(stream, p, Code(v))
    ensures Decoded(stream, p) == Some((v, p + |Code(v)|))
  {
    CodeZeros(stream, p, v);
    CodeNumber(stream, p, v);
  }

  /** The top bit of `n` in its own width is set. */
  lemma {:induction false} LeadingOne(n: nat, z: nat)
    requires Pow2(z) <= n < Pow2(z + 1)
    ensures ToBits(n, z + 1)[0]
  {
    if z > 0 {
      LeadingOne(n / 2, z - 1);
    }
  }

  lemma {:induction false} LeadingBitValue(stream: seq<bool>, q: nat, z: nat)
    requires q + z + 1 <= |stream| && stream[q]
    ensures R.Value(stream, q, z + 1) == Pow2(z) + R.Value(stream, q + 1, z)
  {
    if z > 0 {
      LeadingBitValue(stream, q, z - 1);
    }
  }

  /** With 64 leading zeros or more the accumulator has lost its leading one: the last 64 bits of the
      suffix decide, and zero is a panic. */
  lemma LongCodesWrap(stream: seq<bool>, p: nat, z: nat)
    requires LeadingZeros(stream, p) == Some(z) && z >= 64 && p + 2 * z + 1 <= |stream|
    ensures var low := R.Value(stream, p + 2 * z + 1 - 64, 64);
            Decoded(stream, p) == if low == 0 then None else Some((low - 1, p + 2 * z + 1))
  {
    var v := R.Value(stream, p + z + 1, z);
    Pow2Of64();
    L.LowBits(stream, p + z + 1, z, 64);
    Pow2Sum(z - 64, 64);
    Multiple(Pow2(z - 64), TWO_64, v);
  }

  lemma Multiple(k: nat, m: nat, v: nat)
    requires m > 0
    ensures (k * m + v) % m == v % m
  {
    var q, r := v / m, v % m;
    assert v == m * q + r;
    assert k * m + v == m * (k + q) + r;
    DivUnique(k * m + v, m, k + q, r);
  }

  /** The two readers agree on value and on bits consumed exactly when there are fewer than 32
      leading zeros; from there on the AV1 code saturates and has no suffix, up to the 255 zeros
      that its counter can hold. */
  lemma UvlcIsExpGolombBelow32(stream: seq<bool>, p: nat, z: nat)
    requires LeadingZeros(stream, p) == Some(z)
    ensures z <= 255 ==> (DecodedUvlc(stream, p) == Decoded(stream, p) <==> z < 32)
    ensures z > 255 ==> DecodedUvlc(stream, p) == None
    ensures 32 <= z <= 255 ==> DecodedUvlc(stream, p) == Some((0xffff_ffff, p + z + 1))
  {
    L.Pow2Of16();
    Pow2Sum(16, 16);
    LeadingZerosFits(stream, p);
    if z < 32 && p + 2 * z + 1 <= |stream| {
      R.ValueBound(stream, p + z + 1, z);
      Pow2Of64();
      Pow2Monotonic(z + 1, 64);
      DivUnique(Pow2(z) + R.Value(stream, p + z + 1, z), TWO_64, 0, Pow2(z) + R.Value(stream, p + z + 1, z));
    }
  }

  function DecodedAt(stream: seq<bool>): nat -> Option<(nat, nat)> {
    p => Decoded(stream, p)
  }

  lemma CodeInverse(stream: seq<bool>, v: nat)
    requires v + 1 < TWO_64
    ensures L.Inverse(Code, DecodedAt(stream), v, stream)
  {
    forall p: nat | At(stream, p, Code(v)) ensures DecodedAt(stream)(p) == Some((v, p + |Code(v)|)) {
      CodeIsDecoded(stream, p, v);
    }
  }

  method WriteAll(w: W.BitWriter, values: seq<nat>)
    requires w.Valid()
    requires forall i :: 0 <= i < |values| ==> values[i] + 1 < TWO_64
    modifies w
    ensures w.Valid() && w.Written() == old(w.Written()) + L.EncodeMany(Code, values)
  {
    ghost var start := w.Written();
    for i := 0 to |values|
      invariant w.Valid() && w.Written() == start + L.EncodeMany(Code, values[..i])
    {
      WriteExpGolomb(w, values[i]);
      assert values[..i + 1][..i] == values[..i];
      L.Regroup(start, L.EncodeMany(Code, values[..i]), Code(values[i]), []);
    }
    assert values[..|values|] == values;
  }

  method ReadAll(r: R.BitReader, n: nat) returns (values: Option<seq<nat>>)
    requires r.Valid()
    modifies r
    ensures var d := L.DecodeMany(DecodedAt(r.stream), old(r.Position()), n);
            && (values.Some? <==> d.Some?)
            && (values.Some? ==> r.Valid() && d.value == (values.value, r.Position()))
  {
    ghost var p := r.Position();
    var got: seq<nat> := [];
    for i := 0 to n
      invariant r.Valid() && L.DecodeMany(DecodedAt(r.stream), p, i) == Some((got, r.Position()))
    {
      var v := ReadExpGolomb(r);
      if v.None? {
        L.ManyFails(DecodedAt(r.stream), p, i + 1, n);
        return None;
      }
      got := got + [v.value];
    }
    values := Some(got);
  }

  /** Any values written back to back are read back exactly. */
  method WriteThenReadAll(values: seq<nat>) returns (back: Option<seq<nat>>)
    requires forall i :: 0 <= i < |values| ==> values[i] + 1 < TWO_64
    ensures back == Some(values)
  {
    var w := new W.BitWriter();
    WriteAll(w, values);
    ghost var codes := L.EncodeMany(Code, values);
    assert [] + codes == codes;
    var bytes := w.Finish();
    var r := new R.BitReader(bytes);
    P.PrefixAt(r.stream, [], codes);
    forall i | 0 <= i < |values| ensures L.Inverse(Code, DecodedAt(r.stream), values[i], r.stream) {
      CodeInverse(r.stream, values[i]);
    }
    L.ManyBack(Code, DecodedAt(r.stream), values, r.stream, 0);
    back := ReadAll(r, |values|);
  }

  // ---------------------------------------------------------------- signed values

  /** `write_signed_exp_golomb`: the unsigned number that stands for `n`. */
  function ToUnsigned(n: int): nat {
    if n <= 0 then 2 * (-n) else 2 * n - 1
  }

  /** `read_signed_exp_golomb` */
  function ToSigned(v: nat): int {
    if v % 2 == 0 then -(v / 2) else v / 2 + 1
  }

  const TWO_63 := 0x8000_0000_0000_0000

  /** The signed mapping is a bijection between the i64 values above the minimum and the unsigned
      values that `write_exp_golomb` accepts: 1, -1, 2, -2 and so on stand for 1, 2, 3, 4 and so on. */
  lemma SignedIsBijective(n: int, v: nat)
    ensures n > 0 ==> ToUnsigned(n) == 2 * n - 1 && ToSigned(2 * n - 1) == n
    ensures n <= 0 ==> ToUnsigned(n) == -2 * n && ToSigned(-2 * n) == n
    ensures ToSigned(ToUnsigned(n)) == n && ToUnsigned(ToSigned(v)) == v
    ensures -TWO_63 < n < TWO_63 <==> ToUnsigned(n) + 1 < TWO_64
  {
    SignedRange(n, TWO_63);
  }

  lemma SignedRange(n: int, h: int)
    ensures -h < n < h <==> ToUnsigned(n) + 1 < 2 * h
  {
  }

  /** Signed values, every i64 except the minimum, come back as well. */
  method WriteThenReadSigned(numbers: seq<int>) returns (back: seq<int>)
    requires forall i :: 0 <= i < |numbers| ==> -TWO_63 < numbers[i] < TWO_63
    ensures back == numbers
  {
    var unsigned: seq<nat> := seq(|numbers|, i requires 0 <= i < |numbers| => ToUnsigned(numbers[i]));
    forall i | 0 <= i < |numbers| ensures unsigned[i] + 1 < TWO_64 && ToSigned(unsigned[i]) == numbers[i] {
      SignedIsBijective(numbers[i], 0);
    }
    var read := WriteThenReadAll(unsigned);
    var got := read.value;
    back := seq(|got|, i requires 0 <= i < |got| => ToSigned(got[i]));
    assert back == numbers;
  }
}
