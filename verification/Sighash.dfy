/** The two signature digests (client/bitcoin.js, client/sighash.js) and what they commit to. */
module Sighash {
  import opened Bytes
  import opened Encoding
  import opened TxCodec

  datatype Outpoint = Outpoint(txid: bytes, vout: nat, sequence: nat)

  /** What the BIP-143 digest is computed from: the transaction, which input signs, its script and amount. */
  datatype SigInput = SigInput(
    version: nat, vin: seq<Outpoint>, vout: seq<TxOut>, index: nat, script: bytes, amount: nat, locktime: nat)

  predicate OutpointFits(o: Outpoint) {
    |o.txid| == 32 && o.vout < 0x1_0000_0000 && o.sequence < 0x1_0000_0000
  }

  predicate Fits(m: SigInput) {
    && m.version < 0x1_0000_0000 && m.locktime < 0x1_0000_0000 && m.amount < MAX_SIZE
    && BlobFits(m.script)
    && m.index < |m.vin| && m.index < 0x1_0000_0000
    && (forall k :: 0 <= k < |m.vin| ==> OutpointFits(m.vin[k]))
    && (forall k :: 0 <= k < |m.vout| ==> OutFits(m.vout[k]))
  }

  function EncodePrevout(o: Outpoint): bytes {
    o.txid + LE(o.vout, 4)
  }

  function EncodeSequence(o: Outpoint): bytes {
    LE(o.sequence, 4)
  }

  function DoubleSha(h: Hash, b: bytes): Bytes32 {
    h(h(b))
  }

  function Bip143Message(h: Hash, m: SigInput): bytes
    requires m.index < |m.vin|
  {
    var signed := m.vin[m.index];
    LE(m.version, 4) + (DoubleSha(h, EncodeList(EncodePrevout, m.vin)) + (DoubleSha(h, EncodeList(EncodeSequence, m.vin)) +
    (signed.txid + (LE(signed.vout, 4) + (EncodeBlob(m.script) + (LE(m.amount, 8) + (LE(signed.sequence, 4) +
    (DoubleSha(h, EncodeList(EncodeOut, m.vout)) + (LE(m.locktime, 4) + LE(1, 4))))))))))
  }

  function Bip143Digest(h: Hash, m: SigInput): Bytes32
    requires m.index < |m.vin|
  {
    DoubleSha(h, Bip143Message(h, m))
  }

  /** Every byte string the BIP-143 digest feeds to the hash. */
  function Bip143Hashed(h: Hash, m: SigInput): set<bytes>
    requires m.index < |m.vin|
  {
    var prevouts, sequences := EncodeList(EncodePrevout, m.vin), EncodeList(EncodeSequence, m.vin);
    var outputs, message := EncodeList(EncodeOut, m.vout), Bip143Message(h, m);
    {prevouts, h(prevouts), sequences, h(sequences), outputs, h(outputs), message, h(message)}
  }

  /** The items one after the other. */
  function Joined(items: seq<bytes>): bytes {
    if items == [] then [] else items[0] + Joined(items[1..])
  }

  lemma JoinedSome(a: bytes, b: bytes, c: bytes, d: bytes, e: bytes, rest: seq<bytes>)
    ensures Joined([a, b, c, d, e] + rest) == a + (b + (c + (d + (e + Joined(rest)))))
  {
    JoinedNext(a, [b, c, d, e] + rest);
    JoinedNext(b, [c, d, e] + rest);
    JoinedNext(c, [d, e] + rest);
    JoinedNext(d, [e] + rest);
    JoinedNext(e, rest);
    assert [a, b, c, d, e] + rest == [a] + ([b, c, d, e] + rest);
    assert [b, c, d, e] + rest == [b] + ([c, d, e] + rest);
    assert [c, d, e] + rest == [c] + ([d, e] + rest);
    assert [d, e] + rest == [d] + ([e] + rest);
  }

  lemma JoinedNext(item: bytes, items: seq<bytes>)
    ensures Joined([item] + items) == item + Joined(items)
  {
    assert ([item] + items)[1..] == items;
  }

  lemma LittleOne()
    ensures LE(1, 4) == [1, 0, 0, 0]
  {
    assert LE(0, 1) == [0] && LE(0, 2) == [0, 0] && LE(0, 3) == [0, 0, 0];
  }

  /** The ten items of BIP-143, in its order, for a signature over all inputs and outputs. */
  lemma Bip143Layout(h: Hash, m: SigInput)
    requires m.index < |m.vin|
    ensures var signed := m.vin[m.index];
            Bip143Message(h, m) == Joined([LE(m.version, 4), DoubleSha(h, EncodeList(EncodePrevout, m.vin)),
                                           DoubleSha(h, EncodeList(EncodeSequence, m.vin)),
                                           signed.txid + LE(signed.vout, 4), EncodeBlob(m.script)]
                                          + [LE(m.amount, 8), LE(signed.sequence, 4), DoubleSha(h, EncodeList(EncodeOut, m.vout)),
                                             LE(m.locktime, 4), [1, 0, 0, 0]])
  {
    hide LE, DoubleSha, EncodeBlob, EncodeList, Joined;
    var signed := m.vin[m.index];
    LittleOne();
    var prevouts, sequences := DoubleSha(h, EncodeList(EncodePrevout, m.vin)), DoubleSha(h, EncodeList(EncodeSequence, m.vin));
    var outputs := DoubleSha(h, EncodeList(EncodeOut, m.vout));
    var tail := [LE(m.amount, 8), LE(signed.sequence, 4), outputs, LE(m.locktime, 4), [1, 0, 0, 0]];
    JoinedSome(LE(m.version, 4), prevouts, sequences, signed.txid + LE(signed.vout, 4), EncodeBlob(m.script), tail);
    JoinedSome(LE(m.amount, 8), LE(signed.sequence, 4), outputs, LE(m.locktime, 4), [1, 0, 0, 0], []);
    assert tail + [] == tail;
    NothingJoined();
    assert LE(m.locktime, 4) + ([1, 0, 0, 0] + []) == LE(m.locktime, 4) + [1, 0, 0, 0];
  }

  lemma NothingJoined()
    ensures Joined([]) == []
  {
  }

  // ---------------------------------------------------------------------------
  // Lists of self-delimiting records decode uniquely, even without a count
  // ---------------------------------------------------------------------------

  lemma Split(a: bytes, b: bytes, c: bytes, d: bytes)
    requires a + b == c + d && |a| == |c|
    ensures a == c && b == d
  {
    assert (a + b)[..|a|] == a && (c + d)[..|c|] == c;
    assert (a + b)[|a|..] == b && (c + d)[|c|..] == d;
  }

  lemma {:induction false} ListInjective<T(!new)>(enc: T -> bytes, dec: bytes -> Decoded<T>, xs: seq<T>, ys: seq<T>)
    requires forall k :: 0 <= k < |xs| ==> Undoes(enc, dec, xs[k]) && enc(xs[k]) != []
    requires forall k :: 0 <= k < |ys| ==> Undoes(enc, dec, ys[k]) && enc(ys[k]) != []
    requires EncodeList(enc, xs) == EncodeList(enc, ys)
    ensures xs == ys
  {
    if xs != [] && ys != [] {
      assert Undoes(enc, dec, xs[0]) && Undoes(enc, dec, ys[0]);
      assert dec(enc(xs[0]) + EncodeList(enc, xs[1..])) == dec(enc(ys[0]) + EncodeList(enc, ys[1..]));
      ListInjective(enc, dec, xs[1..], ys[1..]);
      assert xs == [xs[0]] + xs[1..] && ys == [ys[0]] + ys[1..];
    }
  }

  function DecodePrevout(b: bytes): Decoded<(bytes, nat)> {
    var (txid, b1) :- Take(b, 32);
    var (vout, b2) :- DecodeLE(b1, 4);
    Ok(((txid, vout), b2))
  }

  function EncodePair(p: (bytes, nat)): bytes {
    p.0 + LE(p.1, 4)
  }

  function DecodeWord(b: bytes): Decoded<nat> {
    DecodeLE(b, 4)
  }

  function EncodeWord(n: nat): bytes {
    LE(n, 4)
  }

  function Pairs(vin: seq<Outpoint>): seq<(bytes, nat)> {
    seq(|vin|, k requires 0 <= k < |vin| => (vin[k].txid, vin[k].vout))
  }

  function Sequences(vin: seq<Outpoint>): seq<nat> {
    seq(|vin|, k requires 0 <= k < |vin| => vin[k].sequence)
  }

  lemma {:induction false} ListsByField(vin: seq<Outpoint>)
    ensures EncodeList(EncodePrevout, vin) == EncodeList(EncodePair, Pairs(vin))
    ensures EncodeList(EncodeSequence, vin) == EncodeList(EncodeWord, Sequences(vin))
  {
    if vin != [] {
      ListsByField(vin[1..]);
      assert Pairs(vin)[1..] == Pairs(vin[1..]) && Sequences(vin)[1..] == Sequences(vin[1..]);
    }
  }

  /** The two input lists are told apart by the bytes of their outpoints and sequences. */
  lemma InputsInjective(a: seq<Outpoint>, b: seq<Outpoint>)
    requires (forall k :: 0 <= k < |a| ==> OutpointFits(a[k])) && (forall k :: 0 <= k < |b| ==> OutpointFits(b[k]))
    requires EncodeList(EncodePrevout, a) == EncodeList(EncodePrevout, b)
    requires EncodeList(EncodeSequence, a) == EncodeList(EncodeSequence, b)
    ensures a == b
  {
    ListsByField(a);
    ListsByField(b);
    PairsUndo(a);
    PairsUndo(b);
    ListInjective(EncodePair, DecodePrevout, Pairs(a), Pairs(b));
    ListInjective(EncodeWord, DecodeWord, Sequences(a), Sequences(b));
    assert |Pairs(a)| == |Pairs(b)|;
    forall k | 0 <= k < |a| ensures a[k] == b[k] {
      assert Pairs(a)[k] == Pairs(b)[k] && Sequences(a)[k] == Sequences(b)[k];
    }
  }

  lemma PairsUndo(vin: seq<Outpoint>)
    requires forall k :: 0 <= k < |vin| ==> OutpointFits(vin[k])
    ensures forall k :: 0 <= k < |Pairs(vin)| ==> Undoes(EncodePair, DecodePrevout, Pairs(vin)[k]) && EncodePair(Pairs(vin)[k]) != []
    ensures forall k :: 0 <= k < |Sequences(vin)| ==> Undoes(EncodeWord, DecodeWord, Sequences(vin)[k]) && EncodeWord(Sequences(vin)[k]) != []
  {
    Pow256Values();
    forall k | 0 <= k < |vin|
      ensures Undoes(EncodePair, DecodePrevout, Pairs(vin)[k]) && Undoes(EncodeWord, DecodeWord, Sequences(vin)[k])
    {
      var o := vin[k];
      assert OutpointFits(o);
      forall rest
        ensures DecodePrevout(EncodePair(Pairs(vin)[k]) + rest) == Ok(((o.txid, o.vout), rest))
        ensures DecodeWord(EncodeWord(o.sequence) + rest) == Ok((o.sequence, rest))
      {
        DecodeLEofLE(o.vout, 4, rest);
        DecodeLEofLE(o.sequence, 4, rest);
        var b := LE(o.vout, 4) + rest;
        assert EncodePair(Pairs(vin)[k]) + rest == o.txid + b;
        assert (o.txid + b)[..32] == o.txid && (o.txid + b)[32..] == b;
      }
    }
  }

  lemma OutputsInjective(a: seq<TxOut>, b: seq<TxOut>)
    requires (forall k :: 0 <= k < |a| ==> OutFits(a[k])) && (forall k :: 0 <= k < |b| ==> OutFits(b[k]))
    requires EncodeList(EncodeOut, a) == EncodeList(EncodeOut, b)
    ensures a == b
  {
    forall o: TxOut | OutFits(o) ensures Undoes(EncodeOut, DecodeOut, o) && EncodeOut(o) != [] {
      forall rest ensures DecodeOut(EncodeOut(o) + rest) == Ok((o, rest)) { OutRoundTrip(o, rest); }
    }
    ListInjective(EncodeOut, DecodeOut, a, b);
  }

  lemma LEInjective(a: nat, b: nat, k: nat)
    requires a < Pow256(k) && b < Pow256(k) && LE(a, k) == LE(b, k)
    ensures a == b
  {
    FromLEofLE(a, k);
    FromLEofLE(b, k);
  }

  /** BIP-143, "Specification": equal digests come from the same version, lock time, inputs, outputs, script
      and amount, and from signing the same input, unless two of the strings that were hashed collide. */
  lemma Bip143Commits(h: Hash, a: SigInput, b: SigInput)
    requires Fits(a) && Fits(b)
    requires CollisionFree(h, Bip143Hashed(h, a) + Bip143Hashed(h, b))
    requires Bip143Digest(h, a) == Bip143Digest(h, b)
    ensures a.version == b.version && a.locktime == b.locktime && a.vin == b.vin && a.vout == b.vout
    ensures a.script == b.script && a.amount == b.amount && a.vin[a.index] == b.vin[b.index]
  {
    hide EncodeList, LE, EncodeBlob;
    Pow256Values();
    var p, q := a.vin[a.index], b.vin[b.index];
    assert Bip143Message(h, a) == Bip143Message(h, b) by {
      assert h(Bip143Message(h, a)) == h(Bip143Message(h, b));
    }
    MessageFields(h, a, b);
    LEInjective(a.version, b.version, 4);
    LEInjective(p.vout, q.vout, 4);
    LEInjective(a.amount, b.amount, 8);
    LEInjective(p.sequence, q.sequence, 4);
    LEInjective(a.locktime, b.locktime, 4);
    DoubleShaInjective(h, EncodeList(EncodePrevout, a.vin), EncodeList(EncodePrevout, b.vin), Bip143Hashed(h, a) + Bip143Hashed(h, b));
    DoubleShaInjective(h, EncodeList(EncodeSequence, a.vin), EncodeList(EncodeSequence, b.vin), Bip143Hashed(h, a) + Bip143Hashed(h, b));
    DoubleShaInjective(h, EncodeList(EncodeOut, a.vout), EncodeList(EncodeOut, b.vout), Bip143Hashed(h, a) + Bip143Hashed(h, b));
    InputsInjective(a.vin, b.vin);
    OutputsInjective(a.vout, b.vout);
  }

  /** When, as consensus demands, no outpoint is spent twice, the digest also tells which input signs. */
  lemma Bip143CommitsToIndex(h: Hash, a: SigInput, b: SigInput)
    requires Fits(a) && Fits(b)
    requires CollisionFree(h, Bip143Hashed(h, a) + Bip143Hashed(h, b))
    requires forall j, k :: 0 <= j < k < |a.vin| ==> a.vin[j].(sequence := 0) != a.vin[k].(sequence := 0)
    ensures Bip143Digest(h, a) == Bip143Digest(h, b) <==> a == b
  {
    hide Bip143Digest;
    if Bip143Digest(h, a) == Bip143Digest(h, b) {
      Bip143Commits(h, a, b);
      assert a.vin[a.index] == a.vin[b.index];
    }
  }

  lemma DoubleShaInjective(h: Hash, x: bytes, y: bytes, hashed: set<bytes>)
    requires CollisionFree(h, hashed) && {x, y, h(x), h(y)} <= hashed
    requires DoubleSha(h, x) == DoubleSha(h, y)
    ensures x == y
  {
    assert x in hashed && y in hashed && h(x) in hashed && h(y) in hashed;
  }

  lemma MessageFields(h: Hash, a: SigInput, b: SigInput)
    requires Fits(a) && Fits(b)
    requires Bip143Message(h, a) == Bip143Message(h, b)
    ensures var p, q := a.vin[a.index], b.vin[b.index];
            && LE(a.version, 4) == LE(b.version, 4)
            && DoubleSha(h, EncodeList(EncodePrevout, a.vin)) == DoubleSha(h, EncodeList(EncodePrevout, b.vin))
            && DoubleSha(h, EncodeList(EncodeSequence, a.vin)) == DoubleSha(h, EncodeList(EncodeSequence, b.vin))
            && p.txid == q.txid && LE(p.vout, 4) == LE(q.vout, 4)
            && a.script == b.script
            && LE(a.amount, 8) == LE(b.amount, 8) && LE(p.sequence, 4) == LE(q.sequence, 4)
            && DoubleSha(h, EncodeList(EncodeOut, a.vout)) == DoubleSha(h, EncodeList(EncodeOut, b.vout))
            && LE(a.locktime, 4) == LE(b.locktime, 4)
  {
    hide EncodeList, LE, EncodeBlob, DoubleSha;
    var p, q := a.vin[a.index], b.vin[b.index];
    assert OutpointFits(p) && OutpointFits(q);
    var a9, b9 := LE(a.locktime, 4) + LE(1, 4), LE(b.locktime, 4) + LE(1, 4);
    var a8, b8 := DoubleSha(h, EncodeList(EncodeOut, a.vout)) + a9, DoubleSha(h, EncodeList(EncodeOut, b.vout)) + b9;
    var a7, b7 := LE(p.sequence, 4) + a8, LE(q.sequence, 4) + b8;
    var a6, b6 := LE(a.amount, 8) + a7, LE(b.amount, 8) + b7;
    var a5, b5 := EncodeBlob(a.script) + a6, EncodeBlob(b.script) + b6;
    var a4, b4 := LE(p.vout, 4) + a5, LE(q.vout, 4) + b5;
    var a3, b3 := p.txid + a4, q.txid + b4;
    var a2, b2 := DoubleSha(h, EncodeList(EncodeSequence, a.vin)) + a3, DoubleSha(h, EncodeList(EncodeSequence, b.vin)) + b3;
    var a1, b1 := DoubleSha(h, EncodeList(EncodePrevout, a.vin)) + a2, DoubleSha(h, EncodeList(EncodePrevout, b.vin)) + b2;
    Split(LE(a.version, 4), a1, LE(b.version, 4), b1);
    Split(DoubleSha(h, EncodeList(EncodePrevout, a.vin)), a2, DoubleSha(h, EncodeList(EncodePrevout, b.vin)), b2);
    Split(DoubleSha(h, EncodeList(EncodeSequence, a.vin)), a3, DoubleSha(h, EncodeList(EncodeSequence, b.vin)), b3);
    Split(p.txid, a4, q.txid, b4);
    Split(LE(p.vout, 4), a5, LE(q.vout, 4), b5);
    BlobRoundTrip(a.script, a6);
    BlobRoundTrip(b.script, b6);
    Split(LE(a.amount, 8), a7, LE(b.amount, 8), b7);
    Split(LE(p.sequence, 4), a8, LE(q.sequence, 4), b8);
    Split(DoubleSha(h, EncodeList(EncodeOut, a.vout)), a9, DoubleSha(h, EncodeList(EncodeOut, b.vout)), b9);
    Split(LE(a.locktime, 4), LE(1, 4), LE(b.locktime, 4), LE(1, 4));
  }

  // ---------------------------------------------------------------------------
  // The P2MR digest, in the style of BIP-341
  // ---------------------------------------------------------------------------

  /** `spent` holds the amount and scriptPubKey of the coin behind each input. */
  datatype P2mrInput = P2mrInput(
    version: nat, locktime: nat, vin: seq<Outpoint>, spent: seq<TxOut>, vout: seq<TxOut>, index: nat, leaf: bytes)

  predicate P2mrFits(m: P2mrInput) {
    && m.version < 0x1_0000_0000 && m.locktime < 0x1_0000_0000 && m.index < 0x1_0000_0000
    && BlobFits(m.leaf)
    && (forall k :: 0 <= k < |m.vin| ==> OutpointFits(m.vin[k]))
    && (forall k :: 0 <= k < |m.spent| ==> OutFits(m.spent[k]))
    && (forall k :: 0 <= k < |m.vout| ==> OutFits(m.vout[k]))
  }

  /** UTF-8 bytes of an ASCII text; no other character occurs in the texts encoded here. */
  function Ascii(s: string): bytes {
    seq(|s|, k requires 0 <= k < |s| => if s[k] < 128 as char then s[k] as int else '?' as int)
  }

  const LEAF_TAG: bytes := Ascii("P2MRLeaf")
  const SIGHASH_TAG: bytes := Ascii("P2MRSighash")

  function Tagged(h: Hash, tag: bytes, message: bytes): bytes {
    h(tag) + (h(tag) + message)
  }

  function LeafMessage(h: Hash, leaf: bytes): bytes {
    Tagged(h, LEAF_TAG, [0xc0] + EncodeBlob(leaf))
  }

  /** leafHash, which is also the root of the single-leaf tree. */
  function LeafHash(h: Hash, leaf: bytes): Bytes32 {
    h(LeafMessage(h, leaf))
  }

  function EncodeAmount(o: TxOut): bytes {
    LE(o.value, 8)
  }

  function EncodeSpk(o: TxOut): bytes {
    EncodeBlob(o.spk)
  }

  function P2mrMessage(h: Hash, m: P2mrInput): bytes {
    Tagged(h, SIGHASH_TAG, [0x00, 0x00] + (LE(m.version, 4) + (LE(m.locktime, 4) +
    (h(EncodeList(EncodePrevout, m.vin)) + (h(EncodeList(EncodeAmount, m.spent)) + (h(EncodeList(EncodeSpk, m.spent)) +
    (h(EncodeList(EncodeSequence, m.vin)) + (h(EncodeList(EncodeOut, m.vout)) + ([0x02] + (LE(m.index, 4) +
    (LeafHash(h, m.leaf) + ([0x00] + LE(0xffff_ffff, 4)))))))))))))
  }

  lemma AllOnes()
    ensures LE(0xffff_ffff, 4) == [0xff, 0xff, 0xff, 0xff]
  {
    assert LE(0xff, 1) == [0xff] && LE(0xffff, 2) == [0xff, 0xff] && LE(0xff_ffff, 3) == [0xff, 0xff, 0xff];
  }

  /** The items of the P2MR message, in order: epoch and hash type, the transaction's parts, the spend type, the signing
      input, the leaf, the key version and the code separator. */
  lemma P2mrLayout(h: Hash, m: P2mrInput)
    ensures P2mrMessage(h, m) == Tagged(h, Ascii("P2MRSighash"),
              Joined([[0, 0], LE(m.version, 4), LE(m.locktime, 4), h(EncodeList(EncodePrevout, m.vin)),
                      h(EncodeList(EncodeAmount, m.spent))]
                     + ([h(EncodeList(EncodeSpk, m.spent)), h(EncodeList(EncodeSequence, m.vin)),
                         h(EncodeList(EncodeOut, m.vout)), [2], LE(m.index, 4)]
                        + [LeafHash(h, m.leaf), [0], [0xff, 0xff, 0xff, 0xff]])))
  {
    hide LE, EncodeList, Joined, LeafHash, Ascii;
    AllOnes();
    var prevouts, amounts := h(EncodeList(EncodePrevout, m.vin)), h(EncodeList(EncodeAmount, m.spent));
    var spks, sequences := h(EncodeList(EncodeSpk, m.spent)), h(EncodeList(EncodeSequence, m.vin));
    var outputs, leaf := h(EncodeList(EncodeOut, m.vout)), LeafHash(h, m.leaf);
    var last := [leaf, [0], [0xff, 0xff, 0xff, 0xff]];
    JoinedSome([0, 0], LE(m.version, 4), LE(m.locktime, 4), prevouts, amounts, [spks, sequences, outputs, [2], LE(m.index, 4)] + last);
    JoinedSome(spks, sequences, outputs, [2], LE(m.index, 4), last);
    LastJoined(leaf, [0], [0xff, 0xff, 0xff, 0xff]);
  }

  lemma LastJoined(a: bytes, b: bytes, c: bytes)
    ensures Joined([a, b, c]) == a + (b + c)
  {
    NothingJoined();
    JoinedNext(c, []);
    JoinedNext(b, [c]);
    JoinedNext(a, [b, c]);
    assert [a, b, c] == [a] + [b, c] && [b, c] == [b] + [c] && [c] == [c] + [];
  }

  function P2mrDigest(h: Hash, m: P2mrInput): Bytes32 {
    h(P2mrMessage(h, m))
  }

  function P2mrHashed(h: Hash, m: P2mrInput): set<bytes> {
    {EncodeList(EncodePrevout, m.vin), EncodeList(EncodeAmount, m.spent), EncodeList(EncodeSpk, m.spent),
     EncodeList(EncodeSequence, m.vin), EncodeList(EncodeOut, m.vout), LeafMessage(h, m.leaf), P2mrMessage(h, m)}
  }

  lemma {:induction false} AmountsAndSpks(a: seq<TxOut>, b: seq<TxOut>)
    requires (forall k :: 0 <= k < |a| ==> OutFits(a[k])) && (forall k :: 0 <= k < |b| ==> OutFits(b[k]))
    requires EncodeList(EncodeAmount, a) == EncodeList(EncodeAmount, b)
    requires EncodeList(EncodeSpk, a) == EncodeList(EncodeSpk, b)
    ensures a == b
  {
    hide LE, EncodeBlob;
    if a != [] && b != [] {
      var p, q := a[0], b[0];
      Split(EncodeAmount(p), EncodeList(EncodeAmount, a[1..]), EncodeAmount(q), EncodeList(EncodeAmount, b[1..]));
      assert p.value == q.value by {
        Pow256Values();
        LEInjective(p.value, q.value, 8);
      }
      BlobRoundTrip(p.spk, EncodeList(EncodeSpk, a[1..]));
      BlobRoundTrip(q.spk, EncodeList(EncodeSpk, b[1..]));
      AmountsAndSpks(a[1..], b[1..]);
      assert a == [p] + a[1..] && b == [q] + b[1..];
    }
  }

  lemma TaggedInjective(h: Hash, tag: bytes, a: bytes, b: bytes)
    requires Tagged(h, tag, a) == Tagged(h, tag, b)
    ensures a == b
  {
    Split(h(tag), h(tag) + a, h(tag), h(tag) + b);
    Split(h(tag), a, h(tag), b);
  }

  lemma P2mrFields(h: Hash, a: P2mrInput, b: P2mrInput)
    requires P2mrMessage(h, a) == P2mrMessage(h, b)
    ensures && LE(a.version, 4) == LE(b.version, 4) && LE(a.locktime, 4) == LE(b.locktime, 4)
            && h(EncodeList(EncodePrevout, a.vin)) == h(EncodeList(EncodePrevout, b.vin))
            && h(EncodeList(EncodeAmount, a.spent)) == h(EncodeList(EncodeAmount, b.spent))
            && h(EncodeList(EncodeSpk, a.spent)) == h(EncodeList(EncodeSpk, b.spent))
            && h(EncodeList(EncodeSequence, a.vin)) == h(EncodeList(EncodeSequence, b.vin))
            && h(EncodeList(EncodeOut, a.vout)) == h(EncodeList(EncodeOut, b.vout))
            && LE(a.index, 4) == LE(b.index, 4) && LeafHash(h, a.leaf) == LeafHash(h, b.leaf)
  {
    hide EncodeList, LE, LeafHash, Tagged;
    var ac, bc := LeafHash(h, a.leaf) + ([0x00] + LE(0xffff_ffff, 4)), LeafHash(h, b.leaf) + ([0x00] + LE(0xffff_ffff, 4));
    var ab, bb := LE(a.index, 4) + ac, LE(b.index, 4) + bc;
    var aa, ba := [0x02] + ab, [0x02] + bb;
    var a9, b9 := h(EncodeList(EncodeOut, a.vout)) + aa, h(EncodeList(EncodeOut, b.vout)) + ba;
    var a8, b8 := h(EncodeList(EncodeSequence, a.vin)) + a9, h(EncodeList(EncodeSequence, b.vin)) + b9;
    var a7, b7 := h(EncodeList(EncodeSpk, a.spent)) + a8, h(EncodeList(EncodeSpk, b.spent)) + b8;
    var a6, b6 := h(EncodeList(EncodeAmount, a.spent)) + a7, h(EncodeList(EncodeAmount, b.spent)) + b7;
    var a5, b5 := h(EncodeList(EncodePrevout, a.vin)) + a6, h(EncodeList(EncodePrevout, b.vin)) + b6;
    var a4, b4 := LE(a.locktime, 4) + a5, LE(b.locktime, 4) + b5;
    var a3, b3 := LE(a.version, 4) + a4, LE(b.version, 4) + b4;
    TaggedInjective(h, SIGHASH_TAG, [0x00, 0x00] + a3, [0x00, 0x00] + b3);
    Split([0x00, 0x00], a3, [0x00, 0x00], b3);
    Split(LE(a.version, 4), a4, LE(b.version, 4), b4);
    Split(LE(a.locktime, 4), a5, LE(b.locktime, 4), b5);
    Split(h(EncodeList(EncodePrevout, a.vin)), a6, h(EncodeList(EncodePrevout, b.vin)), b6);
    Split(h(EncodeList(EncodeAmount, a.spent)), a7, h(EncodeList(EncodeAmount, b.spent)), b7);
    Split(h(EncodeList(EncodeSpk, a.spent)), a8, h(EncodeList(EncodeSpk, b.spent)), b8);
    Split(h(EncodeList(EncodeSequence, a.vin)), a9, h(EncodeList(EncodeSequence, b.vin)), b9);
    Split(h(EncodeList(EncodeOut, a.vout)), aa, h(EncodeList(EncodeOut, b.vout)), ba);
    Split([0x02], ab, [0x02], bb);
    Split(LE(a.index, 4), ac, LE(b.index, 4), bc);
    Split(LeafHash(h, a.leaf), [0x00] + LE(0xffff_ffff, 4), LeafHash(h, b.leaf), [0x00] + LE(0xffff_ffff, 4));
  }

  lemma LeafInjective(h: Hash, a: bytes, b: bytes)
    requires BlobFits(a) && BlobFits(b)
    requires LeafMessage(h, a) == LeafMessage(h, b)
    ensures a == b
  {
    TaggedInjective(h, LEAF_TAG, [0xc0] + EncodeBlob(a), [0xc0] + EncodeBlob(b));
    Split([0xc0], EncodeBlob(a), [0xc0], EncodeBlob(b));
    BlobRoundTrip(a, []);
    BlobRoundTrip(b, []);
  }

  /** BIP-341, "Common signature message": equal digests come from equal transactions, spent coins, signing
      index and leaf script, unless two of the strings that were hashed collide. */
  lemma P2mrCommits(h: Hash, a: P2mrInput, b: P2mrInput)
    requires P2mrFits(a) && P2mrFits(b)
    requires CollisionFree(h, P2mrHashed(h, a) + P2mrHashed(h, b))
    ensures P2mrDigest(h, a) == P2mrDigest(h, b) <==> a == b
  {
    hide EncodeList, LE, EncodeBlob, P2mrMessage, LeafMessage;
    if P2mrDigest(h, a) == P2mrDigest(h, b) {
      var hashed := P2mrHashed(h, a) + P2mrHashed(h, b);
      assert P2mrMessage(h, a) in hashed && P2mrMessage(h, b) in hashed;
      P2mrFields(h, a, b);
      Pow256Values();
      LEInjective(a.version, b.version, 4);
      LEInjective(a.locktime, b.locktime, 4);
      LEInjective(a.index, b.index, 4);
      assert LeafMessage(h, a.leaf) in hashed && LeafMessage(h, b.leaf) in hashed;
      LeafInjective(h, a.leaf, b.leaf);
      InputsInjective(a.vin, b.vin);
      AmountsAndSpks(a.spent, b.spent);
      OutputsInjective(a.vout, b.vout);
    }
  }
}
