/** Regrouping bytes into five-bit symbols and back (client/p2mr.js, client/addr.js), against the reference
    reading: both are digits of one number. */
module Regroup {
  import opened Bytes

  /** Digit width in bits: symbols or bytes. */
  type width = w: nat | w == 5 || w == 8 witness 5

  type symbol = x: int | 0 <= x < 32

  function Pow2(k: nat): (p: nat)
    ensures p > 0
  {
    if k == 0 then 1 else 2 * Pow2(k - 1)
  }

  function Base(w: width): nat {
    if w == 5 then 32 else 256
  }

  /** The number whose big-endian digits these are. */
  function Value(w: width, ds: seq<nat>): nat {
    if ds == [] then 0 else Value(w, ds[..|ds| - 1]) * Base(w) + ds[|ds| - 1]
  }

  /** The k low-order digits of n, most significant first. */
  function Digits(w: width, n: nat, k: nat): (ds: seq<nat>)
    ensures |ds| == k && forall i :: 0 <= i < k ==> ds[i] < Base(w)
    decreases k
  {
    if k == 0 then [] else Digits(w, n / Base(w), k - 1) + [n % Base(w)]
  }

  predicate AreDigits(w: width, ds: seq<nat>) {
    forall i :: 0 <= i < |ds| ==> ds[i] < Base(w)
  }

  lemma {:induction false} Pow2Sum(a: nat, b: nat)
    ensures Pow2(a + b) == Pow2(a) * Pow2(b)
  {
    if b > 0 {
      Pow2Sum(a, b - 1);
      Doubled(Pow2(a), Pow2(b - 1));
    }
  }

  lemma Doubled(x: nat, y: nat)
    ensures x * (2 * y) == 2 * (x * y)
  {
  }

  lemma Pow2Values()
    ensures Pow2(0) == 1 && Pow2(1) == 2 && Pow2(2) == 4 && Pow2(3) == 8 && Pow2(4) == 16
    ensures Pow2(5) == 32 && Pow2(6) == 64 && Pow2(7) == 128 && Pow2(8) == 256
  {
  }

  lemma Pow2Width(w: width)
    ensures Pow2(w) == Base(w)
  {
    Pow2Values();
  }

  lemma Pow2Shift(bits: nat, w: width)
    ensures Pow2(bits + w) == Base(w) * Pow2(bits)
  {
    Pow2Sum(bits, w);
    Pow2Width(w);
  }

  lemma Pow2Word()
    ensures Pow2(32) == WORD
  {
    hide Pow2;
    Pow2Values();
    Pow2Shift(0, 8);
    Pow2Shift(8, 8);
    Pow2Shift(16, 8);
    Pow2Shift(24, 8);
  }

  lemma Pow2Step(w: width, k: nat)
    requires k > 0
    ensures Pow2(w * k) == Base(w) * Pow2(w * (k - 1))
  {
    hide Pow2;
    assert w * k == w * (k - 1) + w;
    Pow2Shift(w * (k - 1), w);
  }

  lemma {:induction false} ValueBound(w: width, ds: seq<nat>)
    requires AreDigits(w, ds)
    ensures Value(w, ds) < Pow2(w * |ds|)
  {
    if ds != [] {
      ValueBound(w, ds[..|ds| - 1]);
      Pow2Step(w, |ds|);
    }
  }

  lemma {:induction false} ValueOfDigits(w: width, n: nat, k: nat)
    requires n < Pow2(w * k)
    ensures Value(w, Digits(w, n, k)) == n
    decreases k
  {
    hide Pow2;
    if k == 0 {
      Pow2Values();
    } else {
      Pow2Step(w, k);
      Shrinks(n, Base(w), Pow2(w * (k - 1)));
      ValueOfDigits(w, n / Base(w), k - 1);
      assert Digits(w, n, k)[..k - 1] == Digits(w, n / Base(w), k - 1);
    }
  }

  lemma Shrinks(n: nat, b: nat, m: nat)
    requires b > 0 && n < b * m
    ensures n / b < m
    ensures n / b * b + n % b == n
  {
    if n / b >= m {
      NoLess(m, n / b, b);
    }
  }

  lemma {:induction false} DigitsOfValue(w: width, ds: seq<nat>)
    requires AreDigits(w, ds)
    ensures Digits(w, Value(w, ds), |ds|) == ds
  {
    if ds != [] {
      var front, last := ds[..|ds| - 1], ds[|ds| - 1];
      DigitsOfValue(w, front);
      LastDigit(w, Value(w, front), last);
      assert ds == front + [last];
    }
  }

  lemma LastDigit(w: width, n: nat, d: nat)
    requires d < Base(w)
    ensures (n * Base(w) + d) / Base(w) == n && (n * Base(w) + d) % Base(w) == d
  {
    if w == 5 {
      assert (n * 32 + d) / 32 == n;
    } else {
      assert (n * 256 + d) / 256 == n;
    }
  }

  /** Bits of padding needed to fill the last symbol. */
  function Padding(n: nat): (p: nat)
    ensures p < 5 && (8 * n + p) % 5 == 0
  {
    (5 - 8 * n % 5) % 5
  }

  /** Bytes as five-bit symbols: the digits of their number, shifted left by the padding. */
  function ToSymbols(data: bytes): seq<symbol> {
    var p := Padding(|data|);
    Digits(5, Value(8, data) * Pow2(p), (8 * |data| + p) / 5)
  }

  /** Five-bit symbols as bytes: the left-over bits must be fewer than five and all zero. */
  function FromSymbols(data: seq<symbol>): Result<bytes> {
    var left := 5 * |data| % 8;
    if left >= 5 || Value(5, data) % Pow2(left) != 0 then Err(BadPadding)
    else Ok(Digits(8, Value(5, data) / Pow2(left), 5 * |data| / 8))
  }

  /** Multiplying by a small power of two and dividing it out again. */
  lemma ShiftBack(n: nat, p: nat)
    requires p < 5
    ensures n * Pow2(p) / Pow2(p) == n && n * Pow2(p) % Pow2(p) == 0
  {
    Pow2Values();
  }

  lemma ShiftExact(n: nat, p: nat)
    requires p < 5 && n % Pow2(p) == 0
    ensures n / Pow2(p) * Pow2(p) == n
  {
    Pow2Values();
  }

  /** The shifted number fits the symbols. */
  lemma ShiftedFits(data: bytes)
    ensures var p := Padding(|data|); Value(8, data) * Pow2(p) < Pow2(5 * ((8 * |data| + p) / 5))
  {
    hide Pow2, Value;
    var n, p := |data|, Padding(|data|);
    ValueBound(8, data);
    Pow2Sum(8 * n, p);
    ProductBound(Value(8, data), Pow2(8 * n), Pow2(p));
    assert 5 * ((8 * n + p) / 5) == 8 * n + p;
  }

  lemma SymbolCount(n: nat)
    ensures var p := Padding(n); var m := (8 * n + p) / 5; 5 * m % 8 == p && 5 * m / 8 == n
  {
    var p := Padding(n);
    assert 5 * ((8 * n + p) / 5) == 8 * n + p;
  }

  lemma ByteCount(m: nat)
    requires 5 * m % 8 < 5
    ensures var n := 5 * m / 8; Padding(n) == 5 * m % 8 && (8 * n + 5 * m % 8) / 5 == m
  {
    hide Padding;
    var n, left := 5 * m / 8, 5 * m % 8;
    assert 8 * n + left == 5 * m;
    FiveTimes(8 * n + left, m);
    OnePadding(8 * n, left, Padding(n));
  }

  lemma FiveTimes(x: nat, m: nat)
    requires x == 5 * m
    ensures x % 5 == 0 && x / 5 == m
  {
  }

  lemma OnePadding(x: nat, p: nat, q: nat)
    requires p < 5 && q < 5 && (x + p) % 5 == 0 && (x + q) % 5 == 0
    ensures p == q
  {
    var i, j := (x + p) / 5, (x + q) / 5;
    assert 5 * i - 5 * j == p - q;
  }

  /** Every byte string survives the trip through symbols. */
  lemma BytesRoundTrip(data: bytes)
    ensures FromSymbols(ToSymbols(data)) == Ok(data)
  {
    hide Pow2, Value, Digits, Padding;
    var p := Padding(|data|);
    ShiftedFits(data);
    ValueOfDigits(5, Value(8, data) * Pow2(p), (8 * |data| + p) / 5);
    SymbolCount(|data|);
    ShiftBack(Value(8, data), p);
    DigitsOfValue(8, data);
  }

  lemma ProductBound(a: nat, b: nat, c: nat)
    requires a < b && c > 0
    ensures a * c < b * c
  {
  }

  lemma UnshiftedFits(data: seq<symbol>)
    requires FromSymbols(data).Ok?
    ensures Value(5, data) / Pow2(5 * |data| % 8) < Pow2(8 * (5 * |data| / 8))
  {
    hide Pow2, Value, Digits;
    var left, n := 5 * |data| % 8, 5 * |data| / 8;
    var number := Value(5, data) / Pow2(left);
    ValueBound(5, data);
    Pow2Sum(8 * n, left);
    ShiftExact(Value(5, data), left);
    if number >= Pow2(8 * n) {
      NoLess(Pow2(8 * n), number, Pow2(left));
    }
  }

  /** Symbols that are accepted are exactly the ones their bytes would be written as. */
  lemma SymbolsRoundTrip(data: seq<symbol>)
    requires FromSymbols(data).Ok?
    ensures ToSymbols(FromSymbols(data).value) == data
  {
    hide Pow2, Value, Digits, Padding;
    var left, n := 5 * |data| % 8, 5 * |data| / 8;
    UnshiftedFits(data);
    ValueOfDigits(8, Value(5, data) / Pow2(left), n);
    ShiftExact(Value(5, data), left);
    ByteCount(|data|);
    DigitsOfValue(5, data);
  }

  lemma NoLess(a: nat, b: nat, c: nat)
    requires a <= b
    ensures a * c <= b * c
  {
  }

  // ---------------------------------------------------------------------------
  // The loops: a 32-bit accumulator that is never masked
  // ---------------------------------------------------------------------------

  const WORD: nat := 0x1_0000_0000

  lemma ModUnique(x: nat, q: nat, r: nat, m: nat)
    requires m > 0 && x == q * m + r && r < m
    ensures x % m == r && x / m == q
  {
    var q', r' := x / m, x % m;
    assert x == q' * m + r' && (q' + 1) * m == q' * m + m && (q + 1) * m == q * m + m;
    if q' < q {
      NoLess(q' + 1, q, m);
    } else if q < q' {
      NoLess(q + 1, q', m);
    }
  }

  /** Wrapping to 32 bits does not disturb the low bits. */
  lemma Wrapped(x: nat, m: nat, c: nat)
    requires m > 0 && m * c == WORD
    ensures x % WORD % m == x % m
  {
    var q, r := x / WORD, x % WORD;
    var s, t := r / m, r % m;
    assert x == (q * c + s) * m + t by {
      assert (q * c + s) * m == q * (c * m) + s * m;
    }
    ModUnique(x, q * c + s, t, m);
  }

  lemma Fits(high: nat, low: nat, m: nat, b: nat)
    requires low < m && high < b
    ensures high * m + low < b * m
  {
    NoLess(high + 1, b, m);
    assert (high + 1) * m == high * m + m;
  }

  /** Appending a digit to a number and keeping the low part keeps the low part and the digit. */
  lemma LowDigits(acc: nat, d: nat, m: nat, b: nat)
    requires m > 0 && d < b
    ensures (acc * b + d) % (b * m) == acc % m * b + d
  {
    var q, r := acc / m, acc % m;
    assert acc * b + d == q * (b * m) + (r * b + d) by {
      Regrouped(q, m, r, b);
    }
    Fits(r, d, b, m);
    ModUnique(acc * b + d, q, r * b + d, b * m);
  }

  lemma TopDigit(acc: nat, m: nat, b: nat)
    requires m > 0 && b > 0
    ensures acc % (b * m) == acc / m % b * m + acc % m
  {
    var q, r := acc / m, acc % m;
    QuotRem(acc, m);
    QuotRem(q, b);
    TopDigitOf(q / b, q % b, r, m, b);
  }

  lemma QuotRem(x: nat, m: nat)
    requires m > 0
    ensures x / m * m + x % m == x && x % m < m
  {
  }

  lemma TopDigitOf(high: nat, top: nat, r: nat, m: nat, b: nat)
    requires top < b && r < m
    ensures ((high * b + top) * m + r) % (b * m) == top * m + r
  {
    Regrouped(high, b, top, m);
    Fits(top, r, m, b);
    ModUnique((high * b + top) * m + r, high, top * m + r, b * m);
  }

  /** One digit taken in: `v` is the number written out, `acc` holds the pending bits. */
  lemma TakenIn(w: width, v: nat, acc: nat, bits: nat, d: nat)
    requires bits < 8 && d < Base(w)
    ensures v * Pow2(bits + w) + (acc * Base(w) + d) % WORD % Pow2(bits + w)
         == (v * Pow2(bits) + acc % Pow2(bits)) * Base(w) + d
  {
    hide Pow2;
    var m, b := Pow2(bits), Base(w);
    Pow2Shift(bits, w);
    Pow2Sum(bits + w, 32 - bits - w);
    Pow2Word();
    Wrapped(acc * b + d, b * m, Pow2(32 - bits - w));
    LowDigits(acc, d, m, b);
    assert (v * m + acc % m) * b + d == v * (b * m) + (acc % m * b + d) by {
      Regrouped(v, m, acc % m, b);
    }
  }

  lemma Regrouped(v: nat, m: nat, r: nat, b: nat)
    ensures (v * m + r) * b == v * (b * m) + r * b
  {
  }

  /** One digit written out. */
  lemma WrittenOut(w: width, v: nat, acc: nat, bits: nat)
    ensures (v * Base(w) + acc / Pow2(bits) % Base(w)) * Pow2(bits) + acc % Pow2(bits)
         == v * Pow2(bits + w) + acc % Pow2(bits + w)
  {
    hide Pow2;
    var m, b := Pow2(bits), Base(w);
    Pow2Shift(bits, w);
    TopDigit(acc, m, b);
    Regrouped(v, b, acc / m % b, m);
    assert v * (m * b) == v * (b * m);
  }

  lemma ValueSnoc(w: width, ds: seq<nat>, d: nat)
    ensures Value(w, ds + [d]) == Value(w, ds) * Base(w) + d
  {
    assert (ds + [d])[..|ds|] == ds;
  }

  /** The encoder's loop. `acc` is what the 32-bit accumulator holds; it is never masked. */
  method Convert8to5(data: bytes) returns (out: seq<symbol>)
    ensures out == ToSymbols(data)
  {
    hide Pow2, Value, Digits;
    var acc: nat, bits: nat := 0, 0;
    out := [];
    StartsAtZero();
    for k := 0 to |data|
      invariant bits < 5 && 5 * |out| + bits == 8 * k
      invariant Value(5, out) * Pow2(bits) + acc % Pow2(bits) == Value(8, data[..k])
    {
      TakenIn(8, Value(5, out), acc, bits, data[k]);
      assert data[..k + 1] == data[..k] + [data[k]];
      ValueSnoc(8, data[..k], data[k]);
      acc := (acc * 256 + data[k]) % WORD;
      bits := bits + 8;
      while bits >= 5
        invariant bits < 13 && 5 * |out| + bits == 8 * (k + 1)
        invariant Value(5, out) * Pow2(bits) + acc % Pow2(bits) == Value(8, data[..k + 1])
      {
        bits := bits - 5;
        WrittenOut(5, Value(5, out), acc, bits);
        ValueSnoc(5, out, acc / Pow2(bits) % 32);
        out := out + [acc / Pow2(bits) % 32];
      }
    }
    assert data[..|data|] == data;
    LastSymbol(data, out, acc, bits);
    if bits > 0 {
      out := out + [acc * Pow2(5 - bits) % 32];
    }
  }

  lemma StartsAtZero()
    ensures Pow2(0) == 1 && Value(5, []) == 0 && Value(8, []) == 0
  {
  }

  /** Shifting up to a whole digit keeps exactly the pending bits. */
  lemma Aligned(w: width, acc: nat, bits: nat)
    requires bits <= w
    ensures acc * Pow2(w - bits) % Base(w) == acc % Pow2(bits) * Pow2(w - bits)
  {
    hide Pow2;
    Pow2Sum(w - bits, bits);
    Pow2Width(w);
    LowDigits(acc, 0, Pow2(bits), Pow2(w - bits));
  }

  /** The bits left in the accumulator, shifted up, make the last symbol. */
  lemma LastSymbol(data: bytes, out: seq<symbol>, acc: nat, bits: nat)
    requires bits < 5 && 5 * |out| + bits == 8 * |data|
    requires Value(5, out) * Pow2(bits) + acc % Pow2(bits) == Value(8, data)
    ensures ToSymbols(data) == if bits == 0 then out else out + [acc * Pow2(5 - bits) % 32]
  {
    hide Pow2, Value, Digits, Padding;
    FiveTimes(8 * |data| + (5 - bits), |out| + 1);
    OnePadding(8 * |data|, (5 - bits) % 5, Padding(|data|));
    if bits == 0 {
      StartsAtZero();
      DigitsOfValue(5, out);
    } else {
      var last := acc * Pow2(5 - bits) % 32;
      Aligned(5, acc, bits);
      ValueSnoc(5, out, last);
      Joined(Value(5, out), acc % Pow2(bits), bits);
      DigitsOfValue(5, out + [last]);
    }
  }

  lemma Joined(v: nat, r: nat, bits: nat)
    requires bits <= 5
    ensures v * 32 + r * Pow2(5 - bits) == (v * Pow2(bits) + r) * Pow2(5 - bits)
  {
    hide Pow2;
    Pow2Sum(5 - bits, bits);
    Pow2Width(5);
    Regrouped(v, Pow2(bits), r, Pow2(5 - bits));
  }

  /** The decoder's loop, with the padding test of client/addr.js. */
  method Convert5to8(data: seq<symbol>) returns (r: Result<bytes>)
    ensures r == FromSymbols(data)
  {
    hide Pow2, Value, Digits;
    var acc: nat, bits: nat := 0, 0;
    var out: bytes := [];
    StartsAtZero();
    for k := 0 to |data|
      invariant bits < 8 && 8 * |out| + bits == 5 * k
      invariant Value(8, out) * Pow2(bits) + acc % Pow2(bits) == Value(5, data[..k])
    {
      TakenIn(5, Value(8, out), acc, bits, data[k]);
      assert data[..k + 1] == data[..k] + [data[k]];
      ValueSnoc(5, data[..k], data[k]);
      acc := (acc * 32 + data[k]) % WORD;
      bits := bits + 5;
      while bits >= 8
        invariant bits < 13 && 8 * |out| + bits == 5 * (k + 1)
        invariant Value(8, out) * Pow2(bits) + acc % Pow2(bits) == Value(5, data[..k + 1])
      {
        bits := bits - 8;
        WrittenOut(8, Value(8, out), acc, bits);
        ValueSnoc(8, out, acc / Pow2(bits) % 256);
        out := out + [acc / Pow2(bits) % 256];
      }
    }
    assert data[..|data|] == data;
    Finished(data, out, acc, bits);
    if bits >= 5 || acc * Pow2(8 - bits) % 256 != 0 {
      return Err(BadPadding);
    }
    r := Ok(out);
  }

  lemma Finished(data: seq<symbol>, out: bytes, acc: nat, bits: nat)
    requires bits < 8 && 8 * |out| + bits == 5 * |data|
    requires Value(8, out) * Pow2(bits) + acc % Pow2(bits) == Value(5, data)
    ensures FromSymbols(data) == if bits >= 5 || acc * Pow2(8 - bits) % 256 != 0 then Err(BadPadding) else Ok(out)
  {
    hide Pow2, Value, Digits;
    LeftOver(acc, bits);
    ModUnique(Value(5, data), Value(8, out), acc % Pow2(bits), Pow2(bits));
    DigitsOfValue(8, out);
    assert 5 * |data| % 8 == bits && 5 * |data| / 8 == |out|;
  }

  /** The test on the shifted accumulator sees exactly the pending bits. */
  lemma LeftOver(acc: nat, bits: nat)
    requires bits < 8
    ensures acc * Pow2(8 - bits) % 256 == 0 <==> acc % Pow2(bits) == 0
  {
    hide Pow2;
    Aligned(8, acc, bits);
  }
}
