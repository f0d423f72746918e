/** The BIP-144 transaction codec (client/tx.js). Decoders work on the bytes still unread. */
module TxCodec {
  import opened Bytes
  import opened Encoding

  datatype TxIn = TxIn(prevout: bytes, vout: nat, script: bytes, sequence: nat)
  datatype TxOut = TxOut(value: nat, spk: bytes)
  datatype Tx = Tx(version: nat, vin: seq<TxIn>, vout: seq<TxOut>, wit: seq<seq<bytes>>, locktime: nat)

  type Decoded<T> = Result<(T, bytes)>

  const MAX_SIZE: nat := 0x1_0000_0000_0000_0000

  // ---------------------------------------------------------------------------
  // Encoders
  // ---------------------------------------------------------------------------

  function EncodeBlob(b: bytes): bytes {
    CompactSize(|b|) + b
  }

  function EncodeIn(i: TxIn): bytes {
    i.prevout + LE(i.vout, 4) + EncodeBlob(i.script) + LE(i.sequence, 4)
  }

  function EncodeOut(o: TxOut): bytes {
    LE(o.value, 8) + EncodeBlob(o.spk)
  }

  function EncodeList<T>(enc: T -> bytes, xs: seq<T>): bytes {
    if xs == [] then [] else enc(xs[0]) + EncodeList(enc, xs[1..])
  }

  function EncodeCounted<T>(enc: T -> bytes, xs: seq<T>): bytes {
    CompactSize(|xs|) + EncodeList(enc, xs)
  }

  function EncodeStack(stack: seq<bytes>): bytes {
    EncodeCounted(EncodeBlob, stack)
  }

  predicate HasWitness(wit: seq<seq<bytes>>) {
    exists k :: 0 <= k < |wit| && |wit[k]| > 0
  }

  /** The bytes after version and marker. */
  function Body(t: Tx): bytes {
    EncodeCounted(EncodeIn, t.vin) + (EncodeCounted(EncodeOut, t.vout) +
    ((if HasWitness(t.wit) then EncodeList(EncodeStack, t.wit) else []) + LE(t.locktime, 4)))
  }

  const MARKER: bytes := [0x00, 0x01]

  /** The bytes of a transaction, with the segwit marker exactly when some witness stack is not empty. */
  function EncodeTx(t: Tx): bytes {
    LE(t.version, 4) + ((if HasWitness(t.wit) then MARKER else []) + Body(t))
  }

  // ---------------------------------------------------------------------------
  // Which values the encoders can carry without throwing
  // ---------------------------------------------------------------------------

  predicate BlobFits(b: bytes) {
    |b| < MAX_SIZE
  }

  predicate InFits(i: TxIn) {
    |i.prevout| == 32 && i.vout < 0x1_0000_0000 && BlobFits(i.script) && i.sequence < 0x1_0000_0000
  }

  predicate OutFits(o: TxOut) {
    o.value < MAX_SIZE && BlobFits(o.spk)
  }

  predicate StackFits(s: seq<bytes>) {
    |s| < MAX_SIZE && forall k :: 0 <= k < |s| ==> BlobFits(s[k])
  }

  /** A well-formed transaction: every field fits its width and there is a stack for each input. */
  predicate WellFormed(t: Tx) {
    && t.version < 0x1_0000_0000
    && t.locktime < 0x1_0000_0000
    && |t.vin| < MAX_SIZE
    && |t.vout| < MAX_SIZE
    && |t.wit| == |t.vin|
    && (forall k :: 0 <= k < |t.vin| ==> InFits(t.vin[k]))
    && (forall k :: 0 <= k < |t.vout| ==> OutFits(t.vout[k]))
    && (forall k :: 0 <= k < |t.wit| ==> StackFits(t.wit[k]))
  }

  // ---------------------------------------------------------------------------
  // Decoders
  // ---------------------------------------------------------------------------

  function Take(b: bytes, n: nat): Decoded<bytes> {
    if n > |b| then Err(Truncated) else Ok((b[..n], b[n..]))
  }

  function DecodeLE(b: bytes, n: nat): Decoded<nat> {
    var (v, rest) :- Take(b, n);
    Ok((FromLE(v), rest))
  }

  /** compactSize, refusing any form longer than the number needs. */
  function DecodeSize(b: bytes): Decoded<nat> {
    var (x, b1) :- DecodeLE(b, 1);
    if x < 0xfd then Ok((x, b1))
    else
      var (width, least) := if x == 0xfd then (2, 0xfd) else if x == 0xfe then (4, 0x1_0000) else (8, 0x1_0000_0000);
      var (y, b2) :- DecodeLE(b1, width);
      if y < least then Err(NonMinimalSize) else Ok((y, b2))
  }

  function DecodeBlob(b: bytes): Decoded<bytes> {
    var (n, b1) :- DecodeSize(b);
    Take(b1, n)
  }

  function DecodeIn(b: bytes): Decoded<TxIn> {
    var (prevout, b1) :- Take(b, 32);
    var (vout, b2) :- DecodeLE(b1, 4);
    var (script, b3) :- DecodeBlob(b2);
    var (sequence, b4) :- DecodeLE(b3, 4);
    Ok((TxIn(prevout, vout, script, sequence), b4))
  }

  function DecodeOut(b: bytes): Decoded<TxOut> {
    var (value, b1) :- DecodeLE(b, 8);
    var (spk, b2) :- DecodeBlob(b1);
    Ok((TxOut(value, spk), b2))
  }

  function DecodeList<T>(dec: bytes -> Decoded<T>, k: nat, b: bytes): Decoded<seq<T>> {
    if k == 0 then Ok(([], b))
    else
      var (x, b1) :- dec(b);
      var (xs, b2) :- DecodeList(dec, k - 1, b1);
      Ok(([x] + xs, b2))
  }

  function DecodeCounted<T>(dec: bytes -> Decoded<T>, b: bytes): Decoded<seq<T>> {
    var (n, b1) :- DecodeSize(b);
    DecodeList(dec, n, b1)
  }

  function DecodeStack(b: bytes): Decoded<seq<bytes>> {
    DecodeCounted(DecodeBlob, b)
  }

  predicate Flagged(b: bytes) {
    |b| >= 2 && b[0] == 0x00 && b[1] == 0x01
  }

  function NoStacks(n: nat): (wit: seq<seq<bytes>>)
    ensures |wit| == n && !HasWitness(wit)
  {
    seq(n, _ => [])
  }

  /** Everything after the version and the optional marker. */
  function DecodeBody(version: nat, segwit: bool, b: bytes): Result<Tx> {
    var (vin, b1) :- DecodeCounted(DecodeIn, b);
    var (vout, b2) :- DecodeCounted(DecodeOut, b1);
    var (wit, b3) :- if segwit then DecodeList(DecodeStack, |vin|, b2) else Ok((NoStacks(|vin|), b2));
    var (locktime, b4) :- DecodeLE(b3, 4);
    if b4 != [] then Err(TrailingBytes) else Ok(Tx(version, vin, vout, wit, locktime))
  }

  function DecodeTx(b: bytes): Result<Tx> {
    var (version, b1) :- DecodeLE(b, 4);
    if Flagged(b1) then DecodeBody(version, true, b1[2..]) else DecodeBody(version, false, b1)
  }

  // ---------------------------------------------------------------------------
  // Decoding undoes encoding, piece by piece
  // ---------------------------------------------------------------------------

  lemma DecodeLEofLE(n: nat, k: nat, rest: bytes)
    requires n < Pow256(k)
    ensures DecodeLE(LE(n, k) + rest, k) == Ok((n, rest))
  {
    FromLEofLE(n, k);
    assert (LE(n, k) + rest)[..k] == LE(n, k) && (LE(n, k) + rest)[k..] == rest;
  }

  lemma DecodeByte(x: byte, rest: bytes)
    ensures DecodeLE([x] + rest, 1) == Ok((x, rest))
  {
    assert ([x] + rest)[..1] == [x] && ([x] + rest)[1..] == rest;
    assert FromLE([x]) == x by { assert [x][1..] == []; }
  }

  lemma SizeRoundTrip(n: nat, rest: bytes)
    requires n < MAX_SIZE
    ensures DecodeSize(CompactSize(n) + rest) == Ok((n, rest))
  {
    if n < 0xfd {
      DecodeByte(n, rest);
    } else {
      var (tag, k) := if n <= 0xffff then (0xfd, 2) else if n <= 0xffff_ffff then (0xfe, 4) else (0xff, 8);
      assert CompactSize(n) + rest == [tag] + (LE(n, k) + rest);
      DecodeByte(tag, LE(n, k) + rest);
      assert n < Pow256(k) by { Pow256Values(); }
      DecodeLEofLE(n, k, rest);
    }
  }

  lemma BlobRoundTrip(d: bytes, rest: bytes)
    requires BlobFits(d)
    ensures DecodeBlob(EncodeBlob(d) + rest) == Ok((d, rest))
  {
    assert EncodeBlob(d) + rest == CompactSize(|d|) + (d + rest);
    SizeRoundTrip(|d|, d + rest);
    assert (d + rest)[..|d|] == d && (d + rest)[|d|..] == rest;
  }

  lemma InRoundTrip(i: TxIn, rest: bytes)
    requires InFits(i)
    ensures DecodeIn(EncodeIn(i) + rest) == Ok((i, rest))
  {
    Pow256Values();
    var b3 := LE(i.sequence, 4) + rest;
    var b2 := EncodeBlob(i.script) + b3;
    var b1 := LE(i.vout, 4) + b2;
    assert EncodeIn(i) + rest == i.prevout + b1;
    assert (i.prevout + b1)[..32] == i.prevout && (i.prevout + b1)[32..] == b1;
    DecodeLEofLE(i.vout, 4, b2);
    BlobRoundTrip(i.script, b3);
    DecodeLEofLE(i.sequence, 4, rest);
  }

  lemma OutRoundTrip(o: TxOut, rest: bytes)
    requires OutFits(o)
    ensures DecodeOut(EncodeOut(o) + rest) == Ok((o, rest))
  {
    Pow256Values();
    assert EncodeOut(o) + rest == LE(o.value, 8) + (EncodeBlob(o.spk) + rest);
    DecodeLEofLE(o.value, 8, EncodeBlob(o.spk) + rest);
    BlobRoundTrip(o.spk, rest);
  }

  ghost predicate Undoes<T(!new)>(enc: T -> bytes, dec: bytes -> Decoded<T>, x: T) {
    forall rest :: dec(enc(x) + rest) == Ok((x, rest))
  }

  lemma {:induction false} ListRoundTrip<T(!new)>(enc: T -> bytes, dec: bytes -> Decoded<T>, xs: seq<T>, rest: bytes)
    requires forall k :: 0 <= k < |xs| ==> Undoes(enc, dec, xs[k])
    ensures DecodeList(dec, |xs|, EncodeList(enc, xs) + rest) == Ok((xs, rest))
  {
    if xs == [] {
      assert EncodeList(enc, xs) + rest == rest;
    } else {
      var tail := EncodeList(enc, xs[1..]) + rest;
      assert EncodeList(enc, xs) + rest == enc(xs[0]) + tail;
      assert Undoes(enc, dec, xs[0]);
      ListRoundTrip(enc, dec, xs[1..], rest);
      assert xs == [xs[0]] + xs[1..];
    }
  }

  lemma CountedRoundTrip<T(!new)>(enc: T -> bytes, dec: bytes -> Decoded<T>, xs: seq<T>, rest: bytes)
    requires |xs| < MAX_SIZE
    requires forall k :: 0 <= k < |xs| ==> Undoes(enc, dec, xs[k])
    ensures DecodeCounted(dec, EncodeCounted(enc, xs) + rest) == Ok((xs, rest))
  {
    var tail := EncodeList(enc, xs) + rest;
    assert EncodeCounted(enc, xs) + rest == CompactSize(|xs|) + tail;
    SizeRoundTrip(|xs|, tail);
    ListRoundTrip(enc, dec, xs, rest);
  }

  lemma StackRoundTrip(s: seq<bytes>, rest: bytes)
    requires StackFits(s)
    ensures DecodeStack(EncodeStack(s) + rest) == Ok((s, rest))
  {
    forall k | 0 <= k < |s| ensures Undoes(EncodeBlob, DecodeBlob, s[k]) {
      forall r ensures DecodeBlob(EncodeBlob(s[k]) + r) == Ok((s[k], r)) { BlobRoundTrip(s[k], r); }
    }
    CountedRoundTrip(EncodeBlob, DecodeBlob, s, rest);
  }

  lemma InsRoundTrip(vin: seq<TxIn>, rest: bytes)
    requires |vin| < MAX_SIZE && forall k :: 0 <= k < |vin| ==> InFits(vin[k])
    ensures DecodeCounted(DecodeIn, EncodeCounted(EncodeIn, vin) + rest) == Ok((vin, rest))
  {
    forall k | 0 <= k < |vin| ensures Undoes(EncodeIn, DecodeIn, vin[k]) {
      forall r ensures DecodeIn(EncodeIn(vin[k]) + r) == Ok((vin[k], r)) { InRoundTrip(vin[k], r); }
    }
    CountedRoundTrip(EncodeIn, DecodeIn, vin, rest);
  }

  lemma OutsRoundTrip(vout: seq<TxOut>, rest: bytes)
    requires |vout| < MAX_SIZE && forall k :: 0 <= k < |vout| ==> OutFits(vout[k])
    ensures DecodeCounted(DecodeOut, EncodeCounted(EncodeOut, vout) + rest) == Ok((vout, rest))
  {
    forall k | 0 <= k < |vout| ensures Undoes(EncodeOut, DecodeOut, vout[k]) {
      forall r ensures DecodeOut(EncodeOut(vout[k]) + r) == Ok((vout[k], r)) { OutRoundTrip(vout[k], r); }
    }
    CountedRoundTrip(EncodeOut, DecodeOut, vout, rest);
  }

  lemma StacksRoundTrip(wit: seq<seq<bytes>>, rest: bytes)
    requires forall k :: 0 <= k < |wit| ==> StackFits(wit[k])
    ensures DecodeList(DecodeStack, |wit|, EncodeList(EncodeStack, wit) + rest) == Ok((wit, rest))
  {
    forall k | 0 <= k < |wit| ensures Undoes(EncodeStack, DecodeStack, wit[k]) {
      forall r ensures DecodeStack(EncodeStack(wit[k]) + r) == Ok((wit[k], r)) { StackRoundTrip(wit[k], r); }
    }
    ListRoundTrip(EncodeStack, DecodeStack, wit, rest);
  }

  lemma EmptyStacks(wit: seq<seq<bytes>>)
    requires !HasWitness(wit)
    ensures wit == NoStacks(|wit|)
  {
    forall k | 0 <= k < |wit| ensures wit[k] == [] { assert !(|wit[k]| > 0); }
  }

  lemma BodyRoundTrip(t: Tx)
    requires WellFormed(t)
    ensures DecodeBody(t.version, HasWitness(t.wit), Body(t)) == Ok(t)
  {
    hide DecodeCounted, EncodeCounted;
    var b3 := LE(t.locktime, 4);
    var b2 := (if HasWitness(t.wit) then EncodeList(EncodeStack, t.wit) else []) + b3;
    InsRoundTrip(t.vin, EncodeCounted(EncodeOut, t.vout) + b2);
    OutsRoundTrip(t.vout, b2);
    if HasWitness(t.wit) {
      StacksRoundTrip(t.wit, b3);
    } else {
      assert b2 == b3;
      EmptyStacks(t.wit);
    }
    assert b3 + [] == b3;
    Pow256Values();
    DecodeLEofLE(t.locktime, 4, []);
  }

  // ---------------------------------------------------------------------------
  // Encoding undoes decoding: whatever was read is exactly what would be written
  // ---------------------------------------------------------------------------

  lemma LEofDecode(b: bytes, n: nat)
    requires DecodeLE(b, n).Ok?
    ensures var (v, rest) := DecodeLE(b, n).value;
            v < Pow256(n) && b == LE(v, n) + rest
  {
    LEofFromLE(b[..n]);
    FromLEBound(b[..n]);
    assert b == b[..n] + b[n..];
  }

  lemma SizeOfDecode(b: bytes)
    requires DecodeSize(b).Ok?
    ensures var (n, rest) := DecodeSize(b).value;
            n < MAX_SIZE && b == CompactSize(n) + rest
  {
    var (x, b1) := DecodeLE(b, 1).value;
    assert b == [x] + b1 by {
      assert FromLE(b[..1]) == b[0] by { assert b[..1][1..] == []; }
    }
    if x >= 0xfd {
      var k := if x == 0xfd then 2 else if x == 0xfe then 4 else 8;
      LEofDecode(b1, k);
      var (n, rest) := DecodeLE(b1, k).value;
      assert n < MAX_SIZE && CompactSize(n) == [x] + LE(n, k) by { Pow256Values(); }
    }
  }

  lemma BlobOfDecode(b: bytes)
    requires DecodeBlob(b).Ok?
    ensures var (d, rest) := DecodeBlob(b).value;
            BlobFits(d) && b == EncodeBlob(d) + rest
  {
    hide DecodeSize, CompactSize;
    SizeOfDecode(b);
    var (n, b1) := DecodeSize(b).value;
    assert b1 == b1[..n] + b1[n..];
  }

  lemma InOfDecode(b: bytes)
    requires DecodeIn(b).Ok?
    ensures var (i, rest) := DecodeIn(b).value;
            InFits(i) && b == EncodeIn(i) + rest
  {
    hide DecodeBlob, DecodeLE, EncodeBlob;
    Pow256Values();
    var (prevout, b1) := Take(b, 32).value;
    var (vout, b2) := DecodeLE(b1, 4).value;
    var (script, b3) := DecodeBlob(b2).value;
    LEofDecode(b1, 4);
    BlobOfDecode(b2);
    LEofDecode(b3, 4);
    assert b == prevout + b1;
  }

  lemma OutOfDecode(b: bytes)
    requires DecodeOut(b).Ok?
    ensures var (o, rest) := DecodeOut(b).value;
            OutFits(o) && b == EncodeOut(o) + rest
  {
    Pow256Values();
    LEofDecode(b, 8);
    BlobOfDecode(DecodeLE(b, 8).value.1);
  }

  ghost predicate Redoes<T(!new)>(enc: T -> bytes, dec: bytes -> Decoded<T>, fits: T -> bool) {
    forall b | dec(b).Ok? :: fits(dec(b).value.0) && b == enc(dec(b).value.0) + dec(b).value.1
  }

  lemma {:induction false} ListOfDecode<T(!new)>(enc: T -> bytes, dec: bytes -> Decoded<T>, fits: T -> bool, n: nat, b: bytes)
    requires Redoes(enc, dec, fits)
    requires DecodeList(dec, n, b).Ok?
    ensures var (xs, rest) := DecodeList(dec, n, b).value;
            && |xs| == n
            && (forall k :: 0 <= k < n ==> fits(xs[k]))
            && b == EncodeList(enc, xs) + rest
  {
    if n == 0 {
      assert b == [] + b;
    } else {
      var (x, b1) := dec(b).value;
      ListOfDecode(enc, dec, fits, n - 1, b1);
      var (xs, rest) := DecodeList(dec, n - 1, b1).value;
      assert ([x] + xs)[1..] == xs;
      assert b == enc(x) + (EncodeList(enc, xs) + rest);
    }
  }

  lemma CountedOfDecode<T(!new)>(enc: T -> bytes, dec: bytes -> Decoded<T>, fits: T -> bool, b: bytes)
    requires Redoes(enc, dec, fits)
    requires DecodeCounted(dec, b).Ok?
    ensures var (xs, rest) := DecodeCounted(dec, b).value;
            && |xs| < MAX_SIZE
            && (forall k :: 0 <= k < |xs| ==> fits(xs[k]))
            && b == EncodeCounted(enc, xs) + rest
  {
    hide DecodeSize, CompactSize, DecodeList, EncodeList;
    SizeOfDecode(b);
    var (n, b1) := DecodeSize(b).value;
    ListOfDecode(enc, dec, fits, n, b1);
    var (xs, rest) := DecodeList(dec, n, b1).value;
    assert CompactSize(n) + (EncodeList(enc, xs) + rest) == EncodeCounted(enc, xs) + rest;
  }

  lemma StackOfDecode(b: bytes)
    requires DecodeStack(b).Ok?
    ensures var (s, rest) := DecodeStack(b).value;
            StackFits(s) && b == EncodeStack(s) + rest
  {
    BlobsRedo();
    CountedOfDecode(EncodeBlob, DecodeBlob, BlobFits, b);
  }

  lemma BlobsRedo()
    ensures Redoes(EncodeBlob, DecodeBlob, BlobFits)
  {
    forall b | DecodeBlob(b).Ok?
      ensures BlobFits(DecodeBlob(b).value.0) && b == EncodeBlob(DecodeBlob(b).value.0) + DecodeBlob(b).value.1
    { BlobOfDecode(b); }
  }

  lemma InsRedo()
    ensures Redoes(EncodeIn, DecodeIn, InFits)
  {
    forall b | DecodeIn(b).Ok?
      ensures InFits(DecodeIn(b).value.0) && b == EncodeIn(DecodeIn(b).value.0) + DecodeIn(b).value.1
    { InOfDecode(b); }
  }

  lemma OutsRedo()
    ensures Redoes(EncodeOut, DecodeOut, OutFits)
  {
    forall b | DecodeOut(b).Ok?
      ensures OutFits(DecodeOut(b).value.0) && b == EncodeOut(DecodeOut(b).value.0) + DecodeOut(b).value.1
    { OutOfDecode(b); }
  }

  lemma StacksRedo()
    ensures Redoes(EncodeStack, DecodeStack, StackFits)
  {
    forall b | DecodeStack(b).Ok?
      ensures StackFits(DecodeStack(b).value.0) && b == EncodeStack(DecodeStack(b).value.0) + DecodeStack(b).value.1
    { StackOfDecode(b); }
  }

  /** What was read after the marker, with the witness section present exactly when flagged. */
  function FlaggedBody(t: Tx, segwit: bool): bytes {
    EncodeCounted(EncodeIn, t.vin) + (EncodeCounted(EncodeOut, t.vout) +
    ((if segwit then EncodeList(EncodeStack, t.wit) else []) + LE(t.locktime, 4)))
  }

  lemma BodyOfDecode(version: nat, segwit: bool, b: bytes)
    requires version < 0x1_0000_0000
    requires DecodeBody(version, segwit, b).Ok?
    ensures var t := DecodeBody(version, segwit, b).value;
            && WellFormed(t)
            && t.version == version
            && (HasWitness(t.wit) ==> segwit)
            && b == FlaggedBody(t, segwit)
  {
    hide DecodeCounted, EncodeCounted;
    var (vin, b1) := DecodeCounted(DecodeIn, b).value;
    var (vout, b2) := DecodeCounted(DecodeOut, b1).value;
    InsRedo();
    CountedOfDecode(EncodeIn, DecodeIn, InFits, b);
    OutsRedo();
    CountedOfDecode(EncodeOut, DecodeOut, OutFits, b1);
    if segwit {
      StacksRedo();
      ListOfDecode(EncodeStack, DecodeStack, StackFits, |vin|, b2);
      FinalLocktime(DecodeList(DecodeStack, |vin|, b2).value.1);
    } else {
      FinalLocktime(b2);
      assert [] + b2 == b2;
    }
  }

  lemma FinalLocktime(b: bytes)
    requires DecodeLE(b, 4).Ok? && DecodeLE(b, 4).value.1 == []
    ensures DecodeLE(b, 4).value.0 < 0x1_0000_0000 && LE(DecodeLE(b, 4).value.0, 4) == b
  {
    Pow256Values();
    LEofDecode(b, 4);
    assert LE(DecodeLE(b, 4).value.0, 4) + [] == b;
  }

  // ---------------------------------------------------------------------------
  // The codec theorems
  // ---------------------------------------------------------------------------

  lemma SizeStartsWithZero(n: nat)
    requires n < MAX_SIZE
    ensures CompactSize(n)[0] == 0 <==> n == 0
    ensures CompactSize(n)[0] == 1 <==> n == 1
  {
  }

  /** A transaction without inputs and with one output starts like a segwit marker; nothing else does. */
  lemma MisreadAsMarker(t: Tx)
    requires WellFormed(t)
    ensures Flagged(Body(t)) <==> t.vin == [] && |t.vout| == 1
  {
    SizeStartsWithZero(|t.vin|);
    SizeStartsWithZero(|t.vout|);
    if t.vin == [] {
      assert CompactSize(0) == [0] && EncodeList(EncodeIn, t.vin) == [];
      assert Body(t)[1] == CompactSize(|t.vout|)[0];
    }
  }

  lemma ParsesVersion(v: nat, rest: bytes)
    requires v < 0x1_0000_0000
    ensures DecodeLE(LE(v, 4) + rest, 4) == Ok((v, rest))
  {
    Pow256Values();
    DecodeLEofLE(v, 4, rest);
  }

  /** Parsing undoes serialising for every well-formed transaction, except precisely the ones whose bytes
      are mistaken for a marker: no input and exactly one output. */
  lemma ParseOfSerialize(t: Tx)
    requires WellFormed(t)
    ensures DecodeTx(EncodeTx(t)) == Ok(t) <==> !(t.vin == [] && |t.vout| == 1)
  {
    var marker := if HasWitness(t.wit) then MARKER else [];
    ParsesVersion(t.version, marker + Body(t));
    MisreadAsMarker(t);
    if HasWitness(t.wit) {
      assert t.vin != [];
      assert Flagged(marker + Body(t)) && (marker + Body(t))[2..] == Body(t);
      BodyRoundTrip(t);
    } else {
      assert marker + Body(t) == Body(t);
      if Flagged(Body(t)) {
        MisreadIsShorter(t);
      } else {
        BodyRoundTrip(t);
      }
    }
  }

  /** The misread transaction can never come back as itself: two bytes went to the marker. */
  lemma MisreadIsShorter(t: Tx)
    requires WellFormed(t) && !HasWitness(t.wit) && Flagged(Body(t))
    ensures DecodeBody(t.version, true, Body(t)[2..]) != Ok(t)
  {
    MisreadAsMarker(t);
    assert FlaggedBody(t, true) == Body(t) by {
      assert EncodeList(EncodeStack, t.wit) == [];
    }
    if DecodeBody(t.version, true, Body(t)[2..]) == Ok(t) {
      BodyOfDecode(t.version, true, Body(t)[2..]);
    }
  }

  /** Serialising gives back every accepted byte string, except precisely the flagged ones in which no
      witness stack holds anything (their marker is dropped). The parsed fields always fit. */
  lemma SerializeOfParse(b: bytes)
    requires DecodeTx(b).Ok?
    ensures WellFormed(DecodeTx(b).value)
    ensures EncodeTx(DecodeTx(b).value) == b <==> (Flagged(b[4..]) ==> HasWitness(DecodeTx(b).value.wit))
  {
    hide DecodeBody, EncodeCounted;
    Pow256Values();
    LEofDecode(b, 4);
    var (version, b1) := DecodeLE(b, 4).value;
    var t := DecodeTx(b).value;
    if Flagged(b1) {
      BodyOfDecode(version, true, b1[2..]);
      assert b1 == MARKER + b1[2..];
      if HasWitness(t.wit) {
        assert FlaggedBody(t, true) == Body(t);
      } else {
        assert |FlaggedBody(t, true)| >= |Body(t)|;
        assert |EncodeTx(t)| == 4 + |Body(t)| < |b|;
      }
    } else {
      BodyOfDecode(version, false, b1);
      assert FlaggedBody(t, false) == Body(t);
      assert [] + Body(t) == Body(t);
    }
  }

  // ---------------------------------------------------------------------------
  // The cursor and the two routines themselves
  // ---------------------------------------------------------------------------

  /** What a list decode comes to once the elements of `done` have been read. */
  function Resume<T>(done: seq<T>, d: Decoded<seq<T>>): Decoded<seq<T>> {
    match d
    case Ok((xs, rest)) => Ok((done + xs, rest))
    case Err(e) => Err(e)
  }

  lemma ResumeNext<T>(done: seq<T>, dec: bytes -> Decoded<T>, k: nat, b: bytes)
    requires k > 0
    ensures Resume(done, DecodeList(dec, k, b)) ==
            match dec(b)
            case Ok((x, b1)) => Resume(done + [x], DecodeList(dec, k - 1, b1))
            case Err(e) => Err(e)
  {
    if dec(b).Ok? {
      var (x, b1) := dec(b).value;
      if DecodeList(dec, k - 1, b1).Ok? {
        var (xs, _) := DecodeList(dec, k - 1, b1).value;
        assert done + ([x] + xs) == done + [x] + xs;
      }
    }
  }

  lemma ResumeStart<T>(d: Decoded<seq<T>>)
    ensures Resume([], d) == d
  {
    if d.Ok? {
      assert [] + d.value.0 == d.value.0;
    }
  }

  lemma ResumeEnd<T>(done: seq<T>, dec: bytes -> Decoded<T>, b: bytes)
    ensures Resume(done, DecodeList(dec, 0, b)) == Ok((done, b))
  {
    assert done + [] == done;
  }

  class Reader {
    const b: bytes
    var i: nat

    ghost predicate Valid()
      reads this
    {
      i <= |b|
    }

    function Rest(): bytes
      requires Valid()
      reads this
    {
      b[i..]
    }

    constructor (b: bytes)
      ensures Valid() && this.b == b && Rest() == b
    {
      this.b, i := b, 0;
    }

    /** The routine returned what the decoder says and left the cursor where the decoder stopped. */
    ghost predicate Tracks<T>(d: Decoded<T>, r: Result<T>)
      reads this
    {
      && Valid()
      && (d.Err? ==> r == Err(d.error))
      && (d.Ok? ==> r == Ok(d.value.0) && Rest() == d.value.1)
    }

    method TakeBytes(n: nat) returns (r: Result<bytes>)
      requires Valid()
      modifies this
      ensures Tracks(Take(old(Rest()), n), r)
    {
      if i + n > |b| {
        return Err(Truncated);
      }
      var v := b[i..i + n];
      i := i + n;
      assert b[old(i)..][..n] == v && b[old(i)..][n..] == b[i..];
      r := Ok(v);
    }

    method Num(n: nat) returns (r: Result<nat>)
      requires Valid()
      modifies this
      ensures Tracks(DecodeLE(old(Rest()), n), r)
    {
      var v :- TakeBytes(n);
      var x: nat := 0;
      var k := n;
      while k > 0
        invariant 0 <= k <= n
        invariant x == FromLE(v[k..])
      {
        k := k - 1;
        assert v[k..][0] == v[k] && v[k..][1..] == v[k + 1..];
        x := 256 * x + v[k];
      }
      r := Ok(x);
    }

    method Size() returns (r: Result<nat>)
      requires Valid()
      modifies this
      ensures Tracks(DecodeSize(old(Rest())), r)
    {
      var x :- Num(1);
      if x < 0xfd {
        return Ok(x);
      }
      if x == 0xfd {
        var y :- Num(2);
        return if y < 0xfd then Err(NonMinimalSize) else Ok(y);
      }
      if x == 0xfe {
        var y :- Num(4);
        return if y < 0x1_0000 then Err(NonMinimalSize) else Ok(y);
      }
      var y :- Num(8);
      return if y < 0x1_0000_0000 then Err(NonMinimalSize) else Ok(y);
    }

    method Blob() returns (r: Result<bytes>)
      requires Valid()
      modifies this
      ensures Tracks(DecodeBlob(old(Rest())), r)
    {
      var n :- Size();
      r := TakeBytes(n);
    }

    method Input() returns (r: Result<TxIn>)
      requires Valid()
      modifies this
      ensures Tracks(DecodeIn(old(Rest())), r)
    {
      var prevout :- TakeBytes(32);
      var vout :- Num(4);
      var script :- Blob();
      var sequence :- Num(4);
      r := Ok(TxIn(prevout, vout, script, sequence));
    }

    method Output() returns (r: Result<TxOut>)
      requires Valid()
      modifies this
      ensures Tracks(DecodeOut(old(Rest())), r)
    {
      var value :- Num(8);
      var spk :- Blob();
      r := Ok(TxOut(value, spk));
    }

    method Inputs() returns (r: Result<seq<TxIn>>)
      requires Valid()
      modifies this
      ensures Tracks(DecodeCounted(DecodeIn, old(Rest())), r)
    {
      hide DecodeIn;
      var n :- Size();
      ghost var start := Rest();
      var vin: seq<TxIn> := [];
      ResumeStart(DecodeList(DecodeIn, n, start));
      var k := n;
      while k > 0
        invariant Valid() && k <= n
        invariant DecodeList(DecodeIn, n, start) == Resume(vin, DecodeList(DecodeIn, k, Rest()))
      {
        ResumeNext(vin, DecodeIn, k, Rest());
        var input :- Input();
        vin := vin + [input];
        k := k - 1;
      }
      ResumeEnd(vin, DecodeIn, Rest());
      r := Ok(vin);
    }

    method Outputs() returns (r: Result<seq<TxOut>>)
      requires Valid()
      modifies this
      ensures Tracks(DecodeCounted(DecodeOut, old(Rest())), r)
    {
      hide DecodeOut;
      var n :- Size();
      ghost var start := Rest();
      var vout: seq<TxOut> := [];
      ResumeStart(DecodeList(DecodeOut, n, start));
      var k := n;
      while k > 0
        invariant Valid() && k <= n
        invariant DecodeList(DecodeOut, n, start) == Resume(vout, DecodeList(DecodeOut, k, Rest()))
      {
        ResumeNext(vout, DecodeOut, k, Rest());
        var output :- Output();
        vout := vout + [output];
        k := k - 1;
      }
      ResumeEnd(vout, DecodeOut, Rest());
      r := Ok(vout);
    }

    method Stack() returns (r: Result<seq<bytes>>)
      requires Valid()
      modifies this
      ensures Tracks(DecodeStack(old(Rest())), r)
    {
      hide DecodeBlob;
      var n :- Size();
      ghost var start := Rest();
      var items: seq<bytes> := [];
      ResumeStart(DecodeList(DecodeBlob, n, start));
      var j := n;
      while j > 0
        invariant Valid() && j <= n
        invariant DecodeList(DecodeBlob, n, start) == Resume(items, DecodeList(DecodeBlob, j, Rest()))
      {
        ResumeNext(items, DecodeBlob, j, Rest());
        var item :- Blob();
        items := items + [item];
        j := j - 1;
      }
      ResumeEnd(items, DecodeBlob, Rest());
      r := Ok(items);
    }

    method Stacks(n: nat) returns (r: Result<seq<seq<bytes>>>)
      requires Valid()
      modifies this
      ensures Tracks(DecodeList(DecodeStack, n, old(Rest())), r)
    {
      ghost var start := Rest();
      var wit: seq<seq<bytes>> := [];
      ResumeStart(DecodeList(DecodeStack, n, start));
      for k := 0 to n
        invariant Valid()
        invariant DecodeList(DecodeStack, n, start) == Resume(wit, DecodeList(DecodeStack, n - k, Rest()))
      {
        ResumeNext(wit, DecodeStack, n - k, Rest());
        var stack :- Stack();
        wit := wit + [stack];
      }
      ResumeEnd(wit, DecodeStack, Rest());
      r := Ok(wit);
    }

    method AfterMarker(version: nat, segwit: bool) returns (r: Result<Tx>)
      requires Valid()
      modifies this
      ensures r == DecodeBody(version, segwit, old(Rest()))
    {
      hide DecodeIn, DecodeOut, DecodeStack, DecodeList, DecodeCounted, DecodeLE;
      var vin :- Inputs();
      var vout :- Outputs();
      var wit := NoStacks(|vin|);
      if segwit {
        wit :- Stacks(|vin|);
      }
      var locktime :- Num(4);
      if i != |b| {
        return Err(TrailingBytes);
      }
      r := Ok(Tx(version, vin, vout, wit, locktime));
    }
  }

  method ParseTx(b: bytes) returns (r: Result<Tx>)
    ensures r == DecodeTx(b)
  {
    hide DecodeBody;
    var reader := new Reader(b);
    var version :- reader.Num(4);
    var segwit := reader.i + 1 < |b| && b[reader.i] == 0x00 && b[reader.i + 1] == 0x01;
    assert segwit == Flagged(reader.Rest());
    if segwit {
      var _ :- reader.TakeBytes(2);
    }
    r := reader.AfterMarker(version, segwit);
  }

  /** What serializeTx demands: every field in range. It does not look at the length of a prevout. */
  predicate Serializable(t: Tx) {
    && t.version < 0x1_0000_0000
    && t.locktime < 0x1_0000_0000
    && |t.vin| < MAX_SIZE
    && |t.vout| < MAX_SIZE
    && (forall k :: 0 <= k < |t.vin| ==> InSerializes(t.vin[k]))
    && (forall k :: 0 <= k < |t.vout| ==> OutFits(t.vout[k]))
    && (HasWitness(t.wit) ==> forall k :: 0 <= k < |t.wit| ==> StackFits(t.wit[k]))
  }

  predicate InSerializes(i: TxIn) {
    i.vout < 0x1_0000_0000 && BlobFits(i.script) && i.sequence < 0x1_0000_0000
  }

  lemma {:induction false} EncodeListAppend<T>(enc: T -> bytes, xs: seq<T>, ys: seq<T>)
    ensures EncodeList(enc, xs + ys) == EncodeList(enc, xs) + EncodeList(enc, ys)
  {
    if xs == [] {
      assert xs + ys == ys;
    } else {
      EncodeListAppend(enc, xs[1..], ys);
      assert (xs + ys)[0] == xs[0] && (xs + ys)[1..] == xs[1..] + ys;
      var first, rest := enc(xs[0]), EncodeList(enc, xs[1..]);
      assert first + (rest + EncodeList(enc, ys)) == (first + rest) + EncodeList(enc, ys);
    }
  }

  lemma EncodeListNext<T>(enc: T -> bytes, xs: seq<T>, k: nat)
    requires k < |xs|
    ensures EncodeList(enc, xs[..k + 1]) == EncodeList(enc, xs[..k]) + enc(xs[k])
  {
    assert xs[..k + 1] == xs[..k] + [xs[k]];
    EncodeListAppend(enc, xs[..k], [xs[k]]);
    assert EncodeList(enc, [xs[k]]) == enc(xs[k]) + [];
  }

  method SerializeBlob(b: bytes) returns (r: Result<bytes>)
    ensures r == if BlobFits(b) then Ok(EncodeBlob(b)) else Err(RangeError)
  {
    r := if |b| < MAX_SIZE then Ok(CompactSize(|b|) + b) else Err(RangeError);
  }

  method SerializeStack(stack: seq<bytes>) returns (r: Result<bytes>)
    ensures r == if StackFits(stack) then Ok(EncodeStack(stack)) else Err(RangeError)
  {
    if |stack| >= MAX_SIZE {
      return Err(RangeError);
    }
    var items: bytes := [];
    for k := 0 to |stack|
      invariant forall j :: 0 <= j < k ==> BlobFits(stack[j])
      invariant items == EncodeList(EncodeBlob, stack[..k])
    {
      var item :- SerializeBlob(stack[k]);
      EncodeListNext(EncodeBlob, stack, k);
      items := items + item;
    }
    assert stack[..|stack|] == stack;
    r := Ok(CompactSize(|stack|) + items);
  }

  method SerializeIn(i: TxIn) returns (r: Result<bytes>)
    ensures r == if InSerializes(i) then Ok(EncodeIn(i)) else Err(RangeError)
  {
    Pow256Values();
    var vout :- LeU(i.vout, 4);
    var script :- SerializeBlob(i.script);
    var sequence :- LeU(i.sequence, 4);
    r := Ok(i.prevout + vout + script + sequence);
  }

  method SerializeOut(o: TxOut) returns (r: Result<bytes>)
    ensures r == if OutFits(o) then Ok(EncodeOut(o)) else Err(RangeError)
  {
    Pow256Values();
    var value :- LeU(o.value, 8);
    var spk :- SerializeBlob(o.spk);
    r := Ok(value + spk);
  }

  method SerializeIns(vin: seq<TxIn>) returns (r: Result<bytes>)
    ensures r == if |vin| < MAX_SIZE && forall k :: 0 <= k < |vin| ==> InSerializes(vin[k])
                 then Ok(EncodeCounted(EncodeIn, vin)) else Err(RangeError)
  {
    hide EncodeIn, InSerializes;
    if |vin| >= MAX_SIZE {
      return Err(RangeError);
    }
    var ins: bytes := [];
    for k := 0 to |vin|
      invariant forall j :: 0 <= j < k ==> InSerializes(vin[j])
      invariant ins == EncodeList(EncodeIn, vin[..k])
    {
      var input :- SerializeIn(vin[k]);
      assert InSerializes(vin[k]);
      EncodeListNext(EncodeIn, vin, k);
      ins := ins + input;
    }
    assert vin[..|vin|] == vin;
    r := Ok(CompactSize(|vin|) + ins);
  }

  method SerializeOuts(vout: seq<TxOut>) returns (r: Result<bytes>)
    ensures r == if |vout| < MAX_SIZE && forall k :: 0 <= k < |vout| ==> OutFits(vout[k])
                 then Ok(EncodeCounted(EncodeOut, vout)) else Err(RangeError)
  {
    hide EncodeOut, OutFits;
    if |vout| >= MAX_SIZE {
      return Err(RangeError);
    }
    var outs: bytes := [];
    for k := 0 to |vout|
      invariant forall j :: 0 <= j < k ==> OutFits(vout[j])
      invariant outs == EncodeList(EncodeOut, vout[..k])
    {
      var output :- SerializeOut(vout[k]);
      EncodeListNext(EncodeOut, vout, k);
      outs := outs + output;
    }
    assert vout[..|vout|] == vout;
    r := Ok(CompactSize(|vout|) + outs);
  }

  method SerializeStacks(wit: seq<seq<bytes>>) returns (r: Result<bytes>)
    ensures r == if forall k :: 0 <= k < |wit| ==> StackFits(wit[k])
                 then Ok(EncodeList(EncodeStack, wit)) else Err(RangeError)
  {
    var stacks: bytes := [];
    for k := 0 to |wit|
      invariant forall j :: 0 <= j < k ==> StackFits(wit[j])
      invariant stacks == EncodeList(EncodeStack, wit[..k])
    {
      var stack :- SerializeStack(wit[k]);
      EncodeListNext(EncodeStack, wit, k);
      stacks := stacks + stack;
    }
    assert wit[..|wit|] == wit;
    r := Ok(stacks);
  }

  method SerializeTx(t: Tx) returns (r: Result<bytes>)
    ensures r == if |t.wit| != |t.vin| then Err(WitnessCount)
                 else if Serializable(t) then Ok(EncodeTx(t))
                 else Err(RangeError)
  {
    hide EncodeCounted, EncodeList;
    if |t.wit| != |t.vin| {
      return Err(WitnessCount);
    }
    Pow256Values();
    var hasWit := HasWitness(t.wit);
    var version :- LeU(t.version, 4);
    var ins :- SerializeIns(t.vin);
    var outs :- SerializeOuts(t.vout);
    var stacks: bytes := [];
    if hasWit {
      stacks :- SerializeStacks(t.wit);
    }
    var locktime :- LeU(t.locktime, 4);
    r := Ok(version + ((if hasWit then MARKER else []) + (ins + (outs + (stacks + locktime)))));
  }
}
