/** Removal of emulation prevention bytes. */
module Sps {
  // The loop stands at the start of `Sps::parse` (crates/h264/src/sps.rs).

  import opened Wrappers
  import Bits

  type byte = Bits.byte

  // ---------------------------------------------------------------- section 7.4.1 of ITU-T H.264

  function ZerosAfter(zeros: nat, b: byte): nat {
    if b == 0 then zeros + 1 else 0
  }

  /** Escaping a payload of which `zeros` zero bytes have just been written: a byte of at most 3
      after two zeros is preceded by 3, and so is the end after a zero. */
  function EscapeFrom(zeros: nat, payload: seq<byte>): (r: seq<byte>)
    ensures |payload| <= |r|
    decreases payload
  {
    if payload == [] then if zeros > 0 then [3] else []
    else
      var b := payload[0];
      if zeros >= 2 && b <= 3 then [3, b] + EscapeFrom(ZerosAfter(0, b), payload[1..])
      else [b] + EscapeFrom(ZerosAfter(zeros, b), payload[1..])
  }

  function Escape(payload: seq<byte>): seq<byte> {
    EscapeFrom(0, payload)
  }

  // ---------------------------------------------------------------- the loop

  predicate Escaped(data: seq<byte>) {
    |data| >= 3 && data[0] == 0 && data[1] == 0 && data[2] == 3
  }

  /** What the loop makes of the rest of the data. */
  function Scan(data: seq<byte>): seq<byte> {
    if |data| <= 3 then []
    else if Escaped(data) then [0, 0] + Scan(data[3..])
    else [data[0]] + Scan(data[1..])
  }

  /** The loop; on fewer than three bytes the subtraction in its condition fails. */
  method RemoveEmulationPrevention(data: seq<byte>) returns (r: Option<seq<byte>>)
    ensures r == if |data| < 3 then None else Some(Scan(data))
  {
    if |data| < 3 {
      return None;
    }
    var out: seq<byte> := [];
    var i := 0;
    assert data[0..] == data;
    assert [] + Scan(data) == Scan(data);
    while i < |data| - 3
      invariant 0 <= i <= |data|
      invariant Scan(data) == out + Scan(data[i..])
    {
      if data[i] == 0 && data[i + 1] == 0 && data[i + 2] == 3 {
        ScanStep(data, i, out, 3, [0, 0]);
        out := out + [0, 0];
        i := i + 3;
      } else {
        ScanStep(data, i, out, 1, [data[i]]);
        out := out + [data[i]];
        i := i + 1;
      }
    }
    assert out + [] == out;
    r := Some(out);
  }

  lemma ScanStep(data: seq<byte>, i: nat, out: seq<byte>, n: nat, got: seq<byte>)
    requires i + 3 < |data|
    requires if Escaped(data[i..]) then n == 3 && got == [0, 0] else n == 1 && got == [data[i]]
    ensures out + Scan(data[i..]) == (out + got) + Scan(data[i + n..])
  {
    assert data[i..][n..] == data[i + n..];
    assert out + (got + Scan(data[i + n..])) == (out + got) + Scan(data[i + n..]);
  }

  // ---------------------------------------------------------------- what is left of the payload

  /** No escape starts among the `zeros` zero bytes before the rest `q` of the payload. */
  predicate Clear(zeros: nat, q: seq<byte>) {
    && q != []
    && (zeros == 1 && q[0] == 0 ==> |q| > 1 && q[1] > 3)
    && (zeros >= 2 ==> zeros == 2 && q[0] > 3)
  }

  /** How an escaped payload starts where the loop finds no escape. */
  lemma PlainStart(zeros: nat, q: seq<byte>)
    requires Clear(zeros, q) && |EscapeFrom(zeros, q)| > 3 && !Escaped(EscapeFrom(zeros, q))
    ensures EscapeFrom(zeros, q) == [q[0]] + EscapeFrom(ZerosAfter(zeros, q[0]), q[1..])
    ensures Clear(ZerosAfter(zeros, q[0]), q[1..])
  {
    var rest := EscapeFrom(ZerosAfter(zeros, q[0]), q[1..]);
    assert |rest| >= 3;
    if zeros == 0 && q[0] == 0 && q[1] == 0 {
      assert rest == [0] + EscapeFrom(2, q[2..]);
      assert |q| > 2;
    }
  }

  /** How an escaped payload starts where the loop finds an escape. */
  lemma EscapedStart(zeros: nat, q: seq<byte>)
    requires Clear(zeros, q) && |EscapeFrom(zeros, q)| > 3 && Escaped(EscapeFrom(zeros, q))
    ensures |q| > 2 && q[0] == q[1] == 0
    ensures EscapeFrom(zeros, q)[3..] == EscapeFrom(0, q[2..])
  {
    var code := EscapeFrom(zeros, q);
    assert code == [q[0]] + EscapeFrom(ZerosAfter(zeros, q[0]), q[1..]);
    assert zeros == 0;
    assert q[1..] != [];
    assert code[1..] == [q[1]] + EscapeFrom(2, q[2..]);
    assert q[1..][1..] == q[2..];
    assert q[2..] != [];
  }

  lemma {:induction false} ScanGivesPrefix(zeros: nat, q: seq<byte>) returns (missing: nat)
    requires Clear(zeros, q)
    ensures 1 <= missing <= 3 && missing <= |q|
    ensures Scan(EscapeFrom(zeros, q)) == q[..|q| - missing]
    decreases |q|
  {
    var code := EscapeFrom(zeros, q);
    if |code| <= 3 {
      missing := |q|;
    } else if Escaped(code) {
      EscapedStart(zeros, q);
      missing := ScanGivesPrefix(0, q[2..]);
      assert q[..|q| - missing] == [0, 0] + q[2..][..|q| - 2 - missing];
    } else {
      PlainStart(zeros, q);
      assert code[1..] == EscapeFrom(ZerosAfter(zeros, q[0]), q[1..]);
      missing := ScanGivesPrefix(ZerosAfter(zeros, q[0]), q[1..]);
      assert q[..|q| - missing] == [q[0]] + q[1..][..|q| - 1 - missing];
    }
  }

  /** For every payload, the loop yields a prefix that is at least one and at most three bytes
      short. */
  lemma PayloadIsCutShort(payload: seq<byte>)
    requires |Escape(payload)| >= 3
    ensures Scan(Escape(payload)) <= payload && 1 <= |payload| - |Scan(Escape(payload))| <= 3
  {
    var missing := ScanGivesPrefix(0, payload);
  }
}
