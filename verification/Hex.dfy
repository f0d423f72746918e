/** Hex text as the coordinator compares it: party data keeps the text it was given in, hashes are written lower-case. */
module Hex {
  import opened Bytes

  const DIGITS: string := "0123456789abcdef"

  function Digit(c: char): Option<nat> {
    if '0' <= c <= '9' then Some(c as int - '0' as int)
    else if 'a' <= c <= 'f' then Some(c as int - 'a' as int + 10)
    else if 'A' <= c <= 'F' then Some(c as int - 'A' as int + 10)
    else None
  }

  /** The test /^[0-9a-f]+$/i. */
  predicate IsHex(s: string) {
    s != [] && forall i :: 0 <= i < |s| ==> Digit(s[i]).Some?
  }

  /** bytesToHex. */
  function Encode(b: bytes): (s: string)
    ensures |s| == 2 * |b|
  {
    if b == [] then [] else [DIGITS[b[0] / 16], DIGITS[b[0] % 16]] + Encode(b[1..])
  }

  function Pair(a: char, b: char): Option<byte> {
    match (Digit(a), Digit(b))
    case (Some(x), Some(y)) =>
      DigitBound(a);
      DigitBound(b);
      Some(x * 16 + y)
    case _ => None
  }

  lemma DigitBound(c: char)
    ensures Digit(c).Some? ==> Digit(c).value < 16
  {
  }

  /** hexToBytes. */
  function Decode(s: string): Result<bytes> {
    if s == [] then Ok([])
    else if |s| == 1 then Err(BadLength)
    else
      match Pair(s[0], s[1])
      case None => Err(BadChar)
      case Some(b) =>
        var rest :- Decode(s[2..]);
        Ok([b] + rest)
  }

  lemma PairOfByte(b: byte)
    ensures Pair(DIGITS[b / 16], DIGITS[b % 16]) == Some(b)
  {
    DigitOf(b / 16);
    DigitOf(b % 16);
  }

  lemma DigitOf(n: nat)
    requires n < 16
    ensures Digit(DIGITS[n]) == Some(n)
  {
  }

  lemma {:induction false} DecodeOfEncode(b: bytes)
    ensures Decode(Encode(b)) == Ok(b)
  {
    hide Pair;
    if b != [] {
      PairOfByte(b[0]);
      DecodeOfEncode(b[1..]);
      var s := Encode(b);
      assert s[0] == DIGITS[b[0] / 16] && s[1] == DIGITS[b[0] % 16] && s[2..] == Encode(b[1..]);
      assert b == [b[0]] + b[1..];
    }
  }

  /** Text that is exactly how its own bytes are written. */
  predicate Canonical(s: string) {
    Decode(s).Ok? && Encode(Decode(s).value) == s
  }
}
