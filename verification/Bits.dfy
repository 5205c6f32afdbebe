/** Numbers and bytes as bit sequences, most significant bit first. */
module Bits {

  type byte = x: int | 0 <= x < 256

  /** A number is read or written in at most 64 bits. */
  function Width(count: nat): nat {
    if count > 64 then 64 else count
  }

  function Twice(x: nat): nat {
    2 * x
  }

  /** `f` applied `n` times to 1. */
  function Repeated(f: nat -> nat, n: nat): nat
    decreases n, f
  {
    if n == 0 then 1 else f(Repeated(f, n - 1))
  }

  function Pow2(n: nat): (r: nat)
    ensures r > 0
  {
    Pow2Positive(n);
    Repeated(Twice, n)
  }

  lemma {:induction false} Pow2Positive(n: nat)
    ensures Repeated(Twice, n) > 0
  {
    if n > 0 {
      Pow2Positive(n - 1);
    }
  }

  lemma {:induction false} Pow2Monotonic(a: nat, b: nat)
    requires a <= b
    ensures Pow2(a) <= Pow2(b)
  {
    if a < b {
      Pow2Monotonic(a, b - 1);
    }
  }

  /** One more than the largest `u64`. */
  const TWO_64 := 0x1_0000_0000_0000_0000

  lemma Pow2Of64()
    ensures Pow2(64) == TWO_64
  {
    PowersOfTwo();
    Pow2Sum(8, 8);
    Pow2Sum(16, 16);
    Pow2Sum(32, 32);
  }

  lemma {:induction false} Pow2Sum(a: nat, b: nat)
    ensures Pow2(a + b) == Pow2(a) * Pow2(b)
  {
    if b > 0 {
      Pow2Sum(a, b - 1);
    }
  }

  predicate Odd(v: nat) {
    v % 2 == 1
  }

  /** The lowest bit, as `bit` tells it, of `v`, of half of it, and so on, the lowest last. */
  function Digits(bit: nat -> bool, v: nat, n: nat): (r: seq<bool>)
    ensures |r| == n
    decreases n, v, bit
  {
    if n == 0 then [] else Digits(bit, v / 2, n - 1) + [bit(v)]
  }

  /** The low `n` bits of `v`. */
  function ToBits(v: nat, n: nat): (r: seq<bool>)
    ensures |r| == n
  {
    Digits(Odd, v, n)
  }

  function FromBits(bits: seq<bool>): nat {
    if bits == [] then 0
    else 2 * FromBits(bits[..|bits| - 1]) + (if bits[|bits| - 1] then 1 else 0)
  }

  lemma {:induction false} FromBitsBound(bits: seq<bool>)
    ensures FromBits(bits) < Pow2(|bits|)
  {
    if bits != [] {
      FromBitsBound(bits[..|bits| - 1]);
    }
  }

  lemma {:induction false} FromToBits(v: nat, n: nat)
    requires v < Pow2(n)
    ensures FromBits(ToBits(v, n)) == v
  {
    if n > 0 {
      FromToBits(v / 2, n - 1);
      assert ToBits(v, n)[..n - 1] == ToBits(v / 2, n - 1);
    }
  }

  lemma {:induction false} ToFromBits(bits: seq<bool>)
    ensures ToBits(FromBits(bits), |bits|) == bits
  {
    if bits != [] {
      var n := |bits| - 1;
      ToFromBits(bits[..n]);
      assert bits == bits[..n] + [bits[n]];
    }
  }

  /** Bit `i` is what a right shift by `n - 1 - i` and a mask with 1 give. */
  lemma {:induction false} ToBitsAt(v: nat, n: nat, i: nat)
    requires i < n
    ensures ToBits(v, n)[i] == ((v / Pow2(n - 1 - i)) % 2 == 1)
  {
    if i < n - 1 {
      ToBitsAt(v / 2, n - 1, i);
      HalveTwice(v, Pow2(n - 2 - i));
    }
  }

  lemma HalveTwice(v: nat, m: nat)
    requires m > 0
    ensures v / 2 / m == v / (2 * m)
  {
    var q, r := v / 2 / m, v / 2 % m;
    assert v / 2 == q * m + r;
    var t := v % 2;
    assert v == (2 * m) * q + (2 * r + t);
    DivUnique(v, 2 * m, q, 2 * r + t);
  }

  lemma DivUnique(v: int, d: int, q: int, r: int)
    requires d > 0 && v == d * q + r && 0 <= r < d
    ensures v / d == q && v % d == r
  {
    var k := v / d - q;
    assert d * k == r - v % d;
    MultipleSize(d, k);
    MultipleSize(d, -k);
  }

  lemma MultipleSize(d: int, k: int)
    requires d > 0
    ensures k >= 1 ==> d * k >= d
  {
  }

  /** Setting a clear bit adds its weight; the upper bits do not notice. */
  lemma {:induction false} AddWeight(v: nat, n: nat, i: nat)
    requires i < n && !ToBits(v, n)[i]
    ensures ToBits(v + Pow2(n - 1 - i), n) == ToBits(v, n)[i := true]
  {
    if i == n - 1 {
      assert v % 2 == 0 && (v + 1) / 2 == v / 2;
    } else {
      var m := Pow2(n - 2 - i);
      AddWeight(v / 2, n - 1, i);
      assert (v + 2 * m) / 2 == v / 2 + m && (v + 2 * m) % 2 == v % 2;
    }
  }

  /** `(v >> (n - 1 - i)) & 1 == 1` */
  method TestBit(v: nat, n: nat, i: nat) returns (bit: bool)
    requires i < n
    ensures bit == ToBits(v, n)[i]
  {
    ToBitsAt(v, n, i);
    bit := (v / Pow2(n - 1 - i)) % 2 == 1;
  }

  /** `byte |= 1 << (7 - i)` */
  function OrBit(b: byte, i: nat): nat
    requires i < 8
  {
    var m := Pow2(7 - i);
    if (b / m) % 2 == 1 then b else b + m
  }

  /** `byte &= !(1 << (7 - i))` */
  function ClearBit(b: byte, i: nat): nat
    requires i < 8
  {
    var m := Pow2(7 - i);
    if (b / m) % 2 == 1 && b >= m then b - m else b
  }

  lemma OrBitOk(b: byte, i: nat)
    requires i < 8
    ensures OrBit(b, i) < 256 && ToBits(OrBit(b, i), 8) == ToBits(b, 8)[i := true]
  {
    ToBitsAt(b, 8, i);
    if !ToBits(b, 8)[i] {
      PowersOfTwo();
      AddWeight(b, 8, i);
      AddWeightBound(b, 8, i);
    }
  }

  lemma PowersOfTwo()
    ensures Pow2(1) == 2 && Pow2(2) == 4 && Pow2(3) == 8 && Pow2(4) == 16
    ensures Pow2(5) == 32 && Pow2(6) == 64 && Pow2(7) == 128 && Pow2(8) == 256
  {
    Doubles(0);
    Doubles(1);
    Doubles(2);
    Doubles(3);
    Doubles(4);
    Doubles(5);
    Doubles(6);
    Doubles(7);
  }

  lemma Doubles(n: nat)
    ensures Pow2(0) == 1 && Pow2(n + 1) == 2 * Pow2(n)
  {
  }

  lemma {:induction false} AddWeightBound(v: nat, n: nat, i: nat)
    requires i < n && v < Pow2(n) && !ToBits(v, n)[i]
    ensures v + Pow2(n - 1 - i) < Pow2(n)
  {
    if i < n - 1 {
      AddWeightBound(v / 2, n - 1, i);
    }
  }

  /** Clearing a set bit subtracts its weight. */
  lemma {:induction false} SubtractWeight(v: nat, n: nat, i: nat)
    requires i < n && ToBits(v, n)[i]
    ensures v >= Pow2(n - 1 - i)
    ensures ToBits(v - Pow2(n - 1 - i), n) == ToBits(v, n)[i := false]
  {
    if i < n - 1 {
      var m := Pow2(n - 2 - i);
      SubtractWeight(v / 2, n - 1, i);
      assert (v - 2 * m) / 2 == v / 2 - m && (v - 2 * m) % 2 == v % 2;
    } else {
      assert v % 2 == 1 && (v - 1) / 2 == v / 2;
    }
  }

  lemma ClearBitOk(b: byte, i: nat)
    requires i < 8
    ensures ClearBit(b, i) < 256 && ToBits(ClearBit(b, i), 8) == ToBits(b, 8)[i := false]
  {
    ToBitsAt(b, 8, i);
    if ToBits(b, 8)[i] {
      SubtractWeight(b, 8, i);
    }
  }

  /** Sets or clears bit `i` of a byte, as `write_bit` does. */
  method SetBit(b: byte, i: nat, bit: bool) returns (r: byte)
    requires i < 8
    ensures ToBits(r, 8) == ToBits(b, 8)[i := bit]
  {
    if bit {
      OrBitOk(b, i);
      r := OrBit(b, i);
    } else {
      ClearBitOk(b, i);
      r := ClearBit(b, i);
    }
  }

  // ---------------------------------------------------------------- bytes

  function BytesToBits(bytes: seq<byte>): (r: seq<bool>)
    ensures |r| == 8 * |bytes|
  {
    if bytes == [] then [] else BytesToBits(bytes[..|bytes| - 1]) + ToBits(bytes[|bytes| - 1], 8)
  }

  lemma {:induction false} BytesToBitsAppend(a: seq<byte>, b: seq<byte>)
    ensures BytesToBits(a + b) == BytesToBits(a) + BytesToBits(b)
  {
    if b == [] {
      assert a + b == a;
    } else {
      var n := |b| - 1;
      assert (a + b)[..|a + b| - 1] == a + b[..n];
      BytesToBitsAppend(a, b[..n]);
      assert BytesToBits(a + b) == (BytesToBits(a) + BytesToBits(b[..n])) + ToBits(b[n], 8);
    }
  }

  lemma BytesToBitsPrefix(bytes: seq<byte>, j: nat)
    requires j <= |bytes|
    ensures BytesToBits(bytes[..j]) == BytesToBits(bytes)[..8 * j]
  {
    assert bytes == bytes[..j] + bytes[j..];
    BytesToBitsAppend(bytes[..j], bytes[j..]);
  }

  lemma BytesToBitsSlice(bytes: seq<byte>, i: nat, j: nat)
    requires i <= j <= |bytes|
    ensures BytesToBits(bytes[i..j]) == BytesToBits(bytes)[8 * i..8 * j]
  {
    PrefixSplits(bytes, i, j);
    Tail(BytesToBits(bytes), BytesToBits(bytes[..i]), BytesToBits(bytes[i..j]));
  }

  lemma PrefixSplits(bytes: seq<byte>, i: nat, j: nat)
    requires i <= j <= |bytes|
    ensures BytesToBits(bytes)[..8 * j] == BytesToBits(bytes[..i]) + BytesToBits(bytes[i..j])
  {
    BytesToBitsPrefix(bytes, j);
    BytesToBitsAppend(bytes[..i], bytes[i..j]);
    assert bytes[..j] == bytes[..i] + bytes[i..j];
  }

  lemma Tail<T>(s: seq<T>, a: seq<T>, b: seq<T>)
    requires |a| + |b| <= |s| && s[..|a| + |b|] == a + b
    ensures s[|a|..|a| + |b|] == b
  {
    assert s[|a|..|a| + |b|] == s[..|a| + |b|][|a|..];
  }

  lemma OneByte(b: byte)
    ensures BytesToBits([b]) == ToBits(b, 8)
  {
    assert [b][..0] == [];
  }

  /** Bit `x` belongs to byte `x / 8`. */
  lemma {:induction false} BitAt(bytes: seq<byte>, x: nat)
    requires x < 8 * |bytes|
    ensures BytesToBits(bytes)[x] == ToBits(bytes[x / 8], 8)[x % 8]
  {
    var n := |bytes| - 1;
    if x < 8 * n {
      BitAt(bytes[..n], x);
    }
  }

  lemma {:induction false} BytesToBitsInjective(a: seq<byte>, b: seq<byte>)
    requires BytesToBits(a) == BytesToBits(b)
    ensures a == b
  {
    if a != [] {
      var n := |a| - 1;
      assert BytesToBits(a)[8 * n..] == ToBits(a[n], 8) && BytesToBits(b)[8 * n..] == ToBits(b[n], 8);
      assert BytesToBits(a)[..8 * n] == BytesToBits(a[..n]) && BytesToBits(b)[..8 * n] == BytesToBits(b[..n]);
      BytesToBitsInjective(a[..n], b[..n]);
      PowersOfTwo();
      FromToBits(a[n], 8);
      FromToBits(b[n], 8);
      assert a == a[..n] + [a[n]] && b == b[..n] + [b[n]];
    }
  }

  function Zeros(n: nat): seq<bool> {
    seq(n, _ => false)
  }

  lemma {:induction false} ZeroBits(n: nat)
    ensures ToBits(0, n) == Zeros(n)
  {
    if n > 0 {
      ZeroBits(n - 1);
    }
  }
}
