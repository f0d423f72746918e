/** Little-endian integers, compactSize, script pushes and script numbers (client/encoding.js). */
module Encoding {
  import opened Bytes

  function Pow256(k: nat): (p: nat)
    ensures p > 0
  {
    if k == 0 then 1 else 256 * Pow256(k - 1)
  }

  lemma Pow256Values()
    ensures Pow256(1) == 0x100 && Pow256(2) == 0x1_0000 && Pow256(4) == 0x1_0000_0000
    ensures Pow256(8) == 0x1_0000_0000_0000_0000
  {
    assert Pow256(3) == 0x100_0000 && Pow256(5) == 0x100_0000_0000;
    assert Pow256(6) == 0x1_0000_0000_0000 && Pow256(7) == 0x100_0000_0000_0000;
  }

  /** The k low-order bytes of n, least significant first. */
  function LE(n: nat, k: nat): (b: bytes)
    ensures |b| == k
    decreases k
  {
    if k == 0 then [] else [n % 256] + LE(n / 256, k - 1)
  }

  function FromLE(b: bytes): nat {
    if b == [] then 0 else b[0] + 256 * FromLE(b[1..])
  }

  lemma {:induction false} FromLEBound(b: bytes)
    ensures FromLE(b) < Pow256(|b|)
  {
    if b != [] {
      FromLEBound(b[1..]);
    }
  }

  lemma {:induction false} FromLEofLE(n: nat, k: nat)
    requires n < Pow256(k)
    ensures FromLE(LE(n, k)) == n
    decreases k
  {
    if k > 0 {
      FromLEofLE(n / 256, k - 1);
      assert LE(n, k)[1..] == LE(n / 256, k - 1);
    }
  }

  lemma {:induction false} LEofFromLE(b: bytes)
    ensures LE(FromLE(b), |b|) == b
  {
    if b != [] {
      LEofFromLE(b[1..]);
      assert b == [b[0]] + b[1..];
    }
  }

  /** leU: encodes into a fixed number of bytes, and refuses to wrap. */
  method LeU(n: int, k: nat) returns (r: Result<bytes>)
    ensures r == if 0 <= n < Pow256(k) then Ok(LE(n, k)) else Err(RangeError)
  {
    if n < 0 || n >= Pow256(k) {
      return Err(RangeError);
    }
    var out := new byte[k](_ => 0);
    var m := n;
    for i := 0 to k
      invariant m >= 0
      invariant out[..i] + LE(m, k - i) == LE(n, k)
    {
      ghost var done := out[..i];
      assert done + LE(m, k - i) == (done + [m % 256]) + LE(m / 256, k - i - 1);
      out[i] := m % 256;
      m := m / 256;
      assert out[..i + 1] == done + [out[i]];
    }
    assert out[..] == out[..k] + LE(m, 0);
    r := Ok(out[..]);
  }

  /** compactSize, for the lengths it can hold. */
  function CompactSize(n: nat): (b: bytes)
    ensures 1 <= |b| <= 9
  {
    if n < 0xfd then [n]
    else if n <= 0xffff then [0xfd] + LE(n, 2)
    else if n <= 0xffff_ffff then [0xfe] + LE(n, 4)
    else [0xff] + LE(n, 8)
  }

  /** The least script number n: magnitude bytes, low first, with the sign in the top bit. */
  function Magnitude(a: nat): bytes {
    if a == 0 then [] else [a % 256] + Magnitude(a / 256)
  }

  function SignMagnitude(m: bytes, negative: bool): bytes
    requires m != []
  {
    var top := m[|m| - 1];
    if top >= 0x80 then m + [if negative then 0x80 else 0x00]
    else if negative then m[..|m| - 1] + [top + 0x80]
    else m
  }

  function ScriptNum(n: int): bytes {
    if n == 0 then []
    else
      var a := if n < 0 then -n else n;
      assert Magnitude(a) != [];
      SignMagnitude(Magnitude(a), n < 0)
  }

  method ScriptNumBytes(n: int) returns (r: bytes)
    ensures r == ScriptNum(n)
  {
    if n == 0 {
      return [];
    }
    var negative := n < 0;
    var a := if negative then -n else n;
    ghost var whole := Magnitude(a);
    r := [];
    while a > 0
      invariant a >= 0
      invariant r + Magnitude(a) == whole
    {
      r := r + [a % 256];
      a := a / 256;
    }
    assert r == whole;
    if r[|r| - 1] >= 0x80 {
      r := r + [if negative then 0x80 else 0x00];
    } else if negative {
      r := r[|r| - 1 := r[|r| - 1] + 0x80];
    }
  }

  /** How script reads a number back (CScriptNum): little-endian, top bit of the last byte is the sign. */
  function ScriptNumValue(b: bytes): int {
    if b == [] then 0
    else
      var top := b[|b| - 1];
      if top >= 0x80 then -(FromLE(b[..|b| - 1] + [top - 0x80]) as int)
      else FromLE(b)
  }

  lemma {:induction false} FromLEAppend(a: bytes, b: bytes)
    ensures FromLE(a + b) == FromLE(a) + Pow256(|a|) * FromLE(b)
  {
    if a == [] {
      assert a + b == b;
    } else {
      FromLEAppend(a[1..], b);
      assert (a + b)[1..] == a[1..] + b;
      assert 256 * (Pow256(|a| - 1) * FromLE(b)) == Pow256(|a|) * FromLE(b);
    }
  }

  lemma {:induction false} MagnitudeValue(a: nat)
    ensures FromLE(Magnitude(a)) == a
    ensures a > 0 ==> Magnitude(a) != [] && Magnitude(a)[|Magnitude(a)| - 1] != 0
  {
    if a > 0 {
      MagnitudeValue(a / 256);
      assert Magnitude(a)[1..] == Magnitude(a / 256);
    }
  }

  /** Script reads back exactly the number that was written, for every integer. */
  lemma ScriptNumRoundTrip(n: int)
    ensures ScriptNumValue(ScriptNum(n)) == n
  {
    if n != 0 {
      var a := if n < 0 then -n else n;
      var m := Magnitude(a);
      MagnitudeValue(a);
      var top := m[|m| - 1];
      if top >= 0x80 {
        FromLEAppend(m, [0]);
        assert FromLE([0]) == 0;
        assert (m + [0x80])[..|m|] == m;
      } else if n < 0 {
        var b := m[..|m| - 1] + [top + 0x80];
        assert b[..|b| - 1] + [top] == m;
      }
    }
  }

  /** No shorter encoding of a nonzero number exists: the last byte is needed for value or sign. */
  lemma ScriptNumMinimal(n: int)
    requires n != 0
    ensures var b := ScriptNum(n);
            && b != []
            && (b[|b| - 1] % 0x80 == 0 ==> |b| > 1 && b[|b| - 2] >= 0x80)
  {
    var a := if n < 0 then -n else n;
    MagnitudeValue(a);
  }

  lemma {:induction false} MagnitudeLength(a: nat, k: nat)
    requires a < Pow256(k)
    ensures |Magnitude(a)| <= k
  {
    if a > 0 {
      MagnitudeLength(a / 256, k - 1);
    }
  }

  /** A lock height takes one to five bytes as a script number, within what CLTV accepts. */
  lemma HeightNumLength(n: nat)
    requires 0 < n < 500_000_000
    ensures 1 <= |ScriptNum(n)| <= 5
  {
    Pow256Values();
    MagnitudeLength(n, 4);
  }

  /** The CLTV operand must be a block height. */
  predicate ValidLocktime(n: int) {
    0 < n < 500_000_000
  }

  /** pushData: the shortest push opcode for the length. */
  function PushData(data: bytes): bytes {
    var n := |data|;
    if n < 0x4c then [n] + data
    else if n <= 0xff then [0x4c, n] + data
    else if n <= 0xffff then [0x4d] + LE(n, 2) + data
    else [0x4e] + LE(n, 4) + data
  }
}
