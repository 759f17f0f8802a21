/** Big-endian numbers and writes into a byte buffer. */
module Bytes {
  import opened Prelude

  datatype WireError = EnumConversion | BufferTooShort | Invalid

  datatype Result<+T> = Ok(value: T) | Err(error: WireError)

  function Power(n: nat): (r: nat)
    ensures r >= 1
  {
    if n == 0 then 1 else 0x100 * Power(n - 1)
  }

  /** The last n bytes of v. */
  function Put(n: nat, v: nat): (r: seq<u8>)
    ensures |r| == n
  {
    if n == 0 then [] else Put(n - 1, v / 0x100) + [v % 0x100]
  }

  function Get(s: seq<u8>): (r: nat) {
    if |s| == 0 then 0 else Get(s[..|s| - 1]) * 0x100 + s[|s| - 1]
  }

  lemma {:induction false} GetPut(n: nat, v: nat)
    requires v < Power(n)
    ensures Get(Put(n, v)) == v
  {
    if n > 0 {
      GetPut(n - 1, v / 0x100);
      assert Put(n, v)[..n - 1] == Put(n - 1, v / 0x100);
    }
  }

  lemma {:induction false} GetBound(s: seq<u8>)
    ensures Get(s) < Power(|s|)
  {
    if |s| > 0 {
      GetBound(s[..|s| - 1]);
    }
  }

  lemma {:induction false} PutGet(s: seq<u8>)
    ensures Put(|s|, Get(s)) == s
  {
    if |s| > 0 {
      PutGet(s[..|s| - 1]);
      assert Get(s) / 0x100 == Get(s[..|s| - 1]) && Get(s) % 0x100 == s[|s| - 1];
    }
  }

  lemma Powers()
    ensures Power(1) == 0x100 && Power(2) == 0x1_0000 && Power(4) == 0x1_0000_0000
    ensures Power(6) == 0x1_0000_0000_0000 && Power(8) == 0x1_0000_0000_0000_0000
  {
    assert Power(3) == 0x100_0000;
    assert Power(4) == 0x1_0000_0000;
    assert Power(5) == 0x100_0000_0000;
    assert Power(6) == 0x1_0000_0000_0000;
    assert Power(7) == 0x100_0000_0000_0000;
  }

  function Get16(s: seq<u8>): (r: u16)
    requires |s| == 2
  {
    GetBound(s); Powers(); Get(s)
  }

  function Get32(s: seq<u8>): (r: u32)
    requires |s| == 4
  {
    GetBound(s); Powers(); Get(s)
  }

  function Get48(s: seq<u8>): (r: u48)
    requires |s| == 6
  {
    GetBound(s); Powers(); Get(s)
  }

  function Get64(s: seq<u8>): (r: u64)
    requires |s| == 8
  {
    GetBound(s); Powers(); Get(s)
  }

  /** Two's complement in n bytes. */
  function Wrap(n: nat, x: int): nat
    requires Fits(n, x)
  {
    if x < 0 then x + Power(n) else x
  }

  predicate Fits(n: nat, x: int) { 0 <= 2 * x + Power(n) < 2 * Power(n) }

  function Unwrap(n: nat, v: nat): int { if 2 * v < Power(n) then v else v - Power(n) }

  function PutSigned(n: nat, x: int): (r: seq<u8>)
    requires Fits(n, x)
    ensures |r| == n
  {
    Put(n, Wrap(n, x))
  }

  function GetSigned(s: seq<u8>): (r: int)
    ensures Fits(|s|, r)
  {
    GetBound(s); Unwrap(|s|, Get(s))
  }

  lemma GetPutSigned(n: nat, x: int)
    requires Fits(n, x)
    ensures GetSigned(PutSigned(n, x)) == x
  {
    GetPut(n, Wrap(n, x));
  }

  /** Bit k, counted from the lowest. */
  predicate Bit(b: nat, k: nat) {
    if k == 0 then b % 2 == 1 else Bit(b / 2, k - 1)
  }

  function TwoTo(k: nat): (r: nat)
    ensures r >= 1
  {
    if k == 0 then 1 else 2 * TwoTo(k - 1)
  }

  /** Flags collected into a number, the first in its lowest bit. */
  function Bits(flags: seq<bool>): (r: nat)
    ensures r < TwoTo(|flags|)
  {
    if |flags| == 0 then 0 else (if flags[0] then 1 else 0) + 2 * Bits(flags[1..])
  }

  lemma {:induction false} BitsAt(flags: seq<bool>, k: nat)
    requires k < |flags|
    ensures Bit(Bits(flags), k) == flags[k]
  {
    if k > 0 {
      BitsAt(flags[1..], k - 1);
    }
  }

  lemma TwoToSeven()
    ensures TwoTo(7) == 128
  {
    assert TwoTo(3) == 8;
    assert TwoTo(5) == 32;
  }

  /** A slice of a slice. */
  lemma SubSlice(s: seq<u8>, from: nat, to: nat, a: nat, b: nat)
    requires from <= to <= |s| && a <= b <= to - from
    ensures s[from..to][a..b] == s[from + a..from + b]
  {
    var t := s[from..to];
    forall i | 0 <= i < b - a ensures t[a..b][i] == s[from + a..from + b][i] {
      assert t[a..b][i] == t[a + i] == s[from + (a + i)];
    }
  }

  // ----- buffers -----

  method Write(buffer: array<u8>, at: nat, bytes: seq<u8>)
    requires at + |bytes| <= buffer.Length
    modifies buffer
    ensures buffer[..at + |bytes|] == old(buffer[..at]) + bytes
    ensures forall k :: at + |bytes| <= k < buffer.Length ==> buffer[k] == old(buffer[k])
  {
    for i := 0 to |bytes|
      invariant buffer[..at + i] == old(buffer[..at]) + bytes[..i]
      invariant forall k :: at + i <= k < buffer.Length ==> buffer[k] == old(buffer[k])
    {
      ghost var before := buffer[..at + i];
      buffer[at + i] := bytes[i];
      assert buffer[..at + i] == before;
    }
  }
}
