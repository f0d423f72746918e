/** Building and splicing HTLC spends (client/bitcoin.js, webapp/src/swapflow.js, coordinator/swap.js). */
module Spend {
  import opened Bytes
  import opened Encoding
  import opened TxCodec
  import opened Sighash
  import opened Htlc
  import opened Legs
  import S = Script

  /** The cryptography a client brings along: SHA-256 and its signing routines, all deterministic. */
  datatype Crypto = Crypto(sha: Hash, ecdsaSign: (bytes, bytes) -> bytes, pqcSign: (bytes, bytes) -> bytes)

  /** The arguments of btcSpend. */
  datatype Request = Request(
    prevTxid: bytes, vout: int, amount: int, script: bytes, priv: bytes, destSpk: bytes, outVal: int,
    branch: Kind, preimage: bytes, locktime: int, extraOut: Option<(int, bytes)>, replay: bool)

  const MAX_SAFE_INTEGER: int := 0x1f_ffff_ffff_ffff

  // ---------------------------------------------------------------------------
  // The replay-protection marker
  // ---------------------------------------------------------------------------

  const MARKER_TEXT: bytes :=
    Ascii("shaswap replay guard: this transaction is intended for exactly one chain of a policy fork.")

  function ReplayMarkerSpk(): (spk: bytes)
    ensures |spk| == 103
  {
    [0x6a, 0x4c, 100] + (MARKER_TEXT + seq(100 - |MARKER_TEXT|, _ => 0))
  }

  predicate IsMarker(spk: bytes) {
    |spk| > 85 && spk[0] == 0x6a
  }

  predicate HasReplayMarker(outs: seq<TxOut>) {
    exists k :: 0 <= k < |outs| && IsMarker(outs[k].spk)
  }

  // ---------------------------------------------------------------------------
  // btcSpend
  // ---------------------------------------------------------------------------

  function Sequence(branch: Kind): nat {
    if branch == Refund then 0xffff_fffe else 0xffff_ffff
  }

  function Outputs(q: Request): seq<TxOut>
    requires q.outVal >= 0 && (q.extraOut.Some? ==> q.extraOut.value.0 >= 0)
  {
    [TxOut(q.outVal, q.destSpk)]
    + (match q.extraOut case None => [] case Some((value, spk)) => [TxOut(value, spk)])
    + (if q.replay then [TxOut(0, ReplayMarkerSpk())] else [])
  }

  /** The order of the guards is the order in which btcSpend throws. */
  function Refused(q: Request): Option<Error> {
    if q.branch == Claim && |q.preimage| != 32 && |q.preimage| != 0 then Some(BadPreimage)
    else if q.branch == Refund && !ValidLocktime(q.locktime) then Some(BadLocktime)
    else if q.amount <= 0 || q.outVal <= 0 || q.outVal > q.amount then Some(BadAmount)
    else if |q.prevTxid| != 32 then Some(BadLength)
    else if q.vout < 0 || q.vout > MAX_SAFE_INTEGER then Some(BadVout)
    else if q.extraOut.Some? && (q.extraOut.value.0 <= 0 || q.outVal + q.extraOut.value.0 > q.amount) then Some(BadAmount)
    else if !RequestFits(q) then Some(RangeError)
    else None
  }

  predicate RequestFits(q: Request) {
    && q.vout < 0x1_0000_0000 && q.amount < MAX_SIZE && 0 <= q.locktime < 0x1_0000_0000
    && BlobFits(q.script) && BlobFits(q.destSpk) && (q.extraOut.Some? ==> BlobFits(q.extraOut.value.1))
  }

  function SpentInput(q: Request): Outpoint
    requires Refused(q).None?
  {
    Outpoint(q.prevTxid, q.vout, Sequence(q.branch))
  }

  function Signed(q: Request): SigInput
    requires Refused(q).None?
  {
    SigInput(2, [SpentInput(q)], Outputs(q), 0, q.script, q.amount, q.locktime)
  }

  function Witness(sig: bytes, branch: Kind, preimage: bytes, script: bytes): seq<bytes> {
    if branch == Claim then [sig, preimage, [1], script] else [sig, [], script]
  }

  function BtcSpend(c: Crypto, q: Request): Result<bytes> {
    match Refused(q)
    case Some(e) => Err(e)
    case None =>
      var sig := c.ecdsaSign(q.priv, Bip143Digest(c.sha, Signed(q)));
      Ok(SerializeSegwit(2, [SpentInput(q)], Outputs(q), [Witness(sig, q.branch, q.preimage, q.script)], q.locktime))
  }

  /** The separate serialiser of client/bitcoin.js: empty input scripts, marker always present. */
  function SerializeSegwit(version: nat, vin: seq<Outpoint>, vout: seq<TxOut>, wit: seq<seq<bytes>>, locktime: nat): bytes {
    LE(version, 4) + (MARKER + (CompactSize(|vin|) + EncodeList(EncodeBareIn, vin) +
    (EncodeCounted(EncodeOut, vout) + (EncodeList(EncodeStack, wit) + LE(locktime, 4)))))
  }

  function EncodeBareIn(o: Outpoint): bytes {
    o.txid + LE(o.vout, 4) + [0x00] + LE(o.sequence, 4)
  }

  function BareIn(o: Outpoint): TxIn {
    TxIn(o.txid, o.vout, [], o.sequence)
  }

  function BareIns(vin: seq<Outpoint>): seq<TxIn> {
    seq(|vin|, k requires 0 <= k < |vin| => BareIn(vin[k]))
  }

  /** What a spend pays, in order: the destination, then the coordinator if it is to be paid, then the marker. */
  lemma OutputsExactly(q: Request)
    requires q.outVal >= 0 && (q.extraOut.Some? ==> q.extraOut.value.0 >= 0)
    ensures var outs, paid := Outputs(q), q.extraOut.Some?;
            && |outs| == 1 + (if paid then 1 else 0) + (if q.replay then 1 else 0)
            && outs[0].value == q.outVal && outs[0].spk == q.destSpk
            && (paid ==> outs[1].value == q.extraOut.value.0 && outs[1].spk == q.extraOut.value.1)
            && (q.replay ==> outs[|outs| - 1].value == 0 && outs[|outs| - 1].spk == ReplayMarkerSpk())
  {
  }

  /** A request that may be signed: a preimage of 32 bytes or a placeholder, a block height to refund at, outputs of
      some value that together stay within the coin, and an outpoint that can be written. */
  predicate Signable(q: Request) {
    && (q.branch == Claim ==> |q.preimage| == 32 || q.preimage == [])
    && (q.branch == Refund ==> 0 < q.locktime < 500_000_000)
    && 0 < q.outVal && |q.prevTxid| == 32 && 0 <= q.vout < 0x1_0000_0000
    && (match q.extraOut
        case None => q.outVal <= q.amount
        case Some((value, spk)) => 0 < value && q.outVal + value <= q.amount && BlobFits(spk))
    && q.amount < MAX_SIZE && 0 <= q.locktime < 0x1_0000_0000 && BlobFits(q.script) && BlobFits(q.destSpk)
  }

  /** A spend is built for exactly the requests that may be signed. */
  lemma SpendsExactly(c: Crypto, q: Request)
    ensures BtcSpend(c, q).Ok? <==> Signable(q)
  {
    hide SerializeSegwit, Bip143Digest, Outputs;
  }

  /** The builder itself: guards, then outputs pushed one by one. */
  method BuildBtcSpend(c: Crypto, q: Request) returns (r: Result<bytes>)
    ensures r == BtcSpend(c, q)
  {
    hide SerializeSegwit, Bip143Digest;
    if q.branch == Claim && |q.preimage| != 32 && |q.preimage| != 0 {
      return Err(BadPreimage);
    }
    if q.branch == Refund && !ValidLocktime(q.locktime) {
      return Err(BadLocktime);
    }
    if q.amount <= 0 || q.outVal <= 0 || q.outVal > q.amount {
      return Err(BadAmount);
    }
    if |q.prevTxid| != 32 {
      return Err(BadLength);
    }
    if q.vout < 0 || q.vout > MAX_SAFE_INTEGER {
      return Err(BadVout);
    }
    var outs := [TxOut(q.outVal, q.destSpk)];
    if q.extraOut.Some? {
      var (value, spk) := q.extraOut.value;
      if value <= 0 || q.outVal + value > q.amount {
        return Err(BadAmount);
      }
      outs := outs + [TxOut(value, spk)];
    }
    if q.replay {
      outs := outs + [TxOut(0, ReplayMarkerSpk())];
    }
    if !RequestFits(q) {
      return Err(RangeError);
    }
    assert outs == Outputs(q);
    assert Refused(q).None?;
    var vin := [Outpoint(q.prevTxid, q.vout, if q.branch == Refund then 0xffff_fffe else 0xffff_ffff)];
    var sig := c.ecdsaSign(q.priv, Bip143Digest(c.sha, SigInput(2, vin, outs, 0, q.script, q.amount, q.locktime)));
    var stack := if q.branch == Claim then [sig, q.preimage, [1], q.script] else [sig, [], q.script];
    var bytes := BuildSegwit(2, vin, outs, [stack], q.locktime);
    r := Ok(bytes);
  }

  method BuildSegwit(version: nat, vin: seq<Outpoint>, vout: seq<TxOut>, wit: seq<seq<bytes>>, locktime: nat)
    returns (r: bytes)
    ensures r == SerializeSegwit(version, vin, vout, wit, locktime)
  {
    hide EncodeBareIn, EncodeOut, EncodeStack;
    var ins: bytes := [];
    for k := 0 to |vin|
      invariant ins == EncodeList(EncodeBareIn, vin[..k])
    {
      EncodeListNext(EncodeBareIn, vin, k);
      ins := ins + EncodeBareIn(vin[k]);
    }
    var outs: bytes := [];
    for k := 0 to |vout|
      invariant outs == EncodeList(EncodeOut, vout[..k])
    {
      EncodeListNext(EncodeOut, vout, k);
      outs := outs + EncodeOut(vout[k]);
    }
    var stacks: bytes := [];
    for k := 0 to |wit|
      invariant stacks == EncodeList(EncodeStack, wit[..k])
    {
      EncodeListNext(EncodeStack, wit, k);
      stacks := stacks + EncodeStack(wit[k]);
    }
    assert vin[..|vin|] == vin && vout[..|vout|] == vout && wit[..|wit|] == wit;
    r := LE(version, 4) + (MARKER + (CompactSize(|vin|) + ins + ((CompactSize(|vout|) + outs) + (stacks + LE(locktime, 4)))));
  }

  /** The transaction a spend stands for. */
  function SpendTx(version: nat, vin: seq<Outpoint>, vout: seq<TxOut>, wit: seq<seq<bytes>>, locktime: nat): Tx {
    Tx(version, BareIns(vin), vout, wit, locktime)
  }

  lemma {:induction false} BareInsEncode(vin: seq<Outpoint>)
    ensures EncodeList(EncodeBareIn, vin) == EncodeList(EncodeIn, BareIns(vin))
  {
    if vin != [] {
      BareInsEncode(vin[1..]);
      assert BareIns(vin)[1..] == BareIns(vin[1..]);
      assert EncodeBlob([]) == [0x00];
    }
  }

  /** Both serialisers write the same bytes for a transaction that carries witness data. */
  lemma SerializersAgree(version: nat, vin: seq<Outpoint>, vout: seq<TxOut>, wit: seq<seq<bytes>>, locktime: nat)
    requires HasWitness(wit)
    ensures SerializeSegwit(version, vin, vout, wit, locktime) == EncodeTx(SpendTx(version, vin, vout, wit, locktime))
  {
    BareInsEncode(vin);
  }

  // ---------------------------------------------------------------------------
  // What comes out parses back, and says what was asked
  // ---------------------------------------------------------------------------

  function SignatureOf(c: Crypto, q: Request): bytes
    requires Refused(q).None?
  {
    c.ecdsaSign(q.priv, Bip143Digest(c.sha, Signed(q)))
  }

  function BtcTx(c: Crypto, q: Request): Tx
    requires Refused(q).None?
  {
    SpendTx(2, [SpentInput(q)], Outputs(q), [Witness(SignatureOf(c, q), q.branch, q.preimage, q.script)], q.locktime)
  }

  /** The transaction around a spend: version 2, the one outpoint asked for, the lock time asked for. A claim's input is
      final, so that it is not held back; a refund's is not, so that its lock time counts. */
  lemma SpendFields(c: Crypto, q: Request)
    requires Refused(q).None?
    ensures var t := BtcTx(c, q);
            && t.version == 2 && t.locktime == q.locktime && |t.vin| == 1 && |t.wit| == 1 && t.vout == Outputs(q)
            && t.vin[0].prevout == q.prevTxid && t.vin[0].vout == q.vout && t.vin[0].script == []
            && t.vin[0].sequence == (match q.branch case Claim => 0xffff_ffff case Refund => 0xffff_fffe)
  {
    hide SignatureOf, Outputs;
  }

  lemma OutputsFit(q: Request)
    requires Refused(q).None?
    ensures forall k :: 0 <= k < |Outputs(q)| ==> OutFits(Outputs(q)[k])
    ensures 1 <= |Outputs(q)| <= 3
  {
  }

  lemma BtcTxFits(c: Crypto, q: Request)
    requires Refused(q).None? && BlobFits(SignatureOf(c, q))
    ensures WellFormed(BtcTx(c, q)) && HasWitness(BtcTx(c, q).wit)
  {
    hide Outputs, SignatureOf;
    OutputsFit(q);
    var t := BtcTx(c, q);
    assert |t.wit[0]| > 0;
    assert StackFits(t.wit[0]);
  }

  /** A spend that is not refused parses to the transaction that was asked for. */
  lemma BtcSpendParses(c: Crypto, q: Request)
    requires Refused(q).None? && BlobFits(SignatureOf(c, q))
    ensures BtcSpend(c, q).Ok? && WellFormed(BtcTx(c, q))
    ensures BtcSpend(c, q).value == EncodeTx(BtcTx(c, q))
    ensures DecodeTx(BtcSpend(c, q).value) == Ok(BtcTx(c, q))
  {
    hide EncodeTx, DecodeTx, SerializeSegwit, Outputs, Bip143Digest, WellFormed, Witness;
    var t := BtcTx(c, q);
    BtcTxFits(c, q);
    SerializersAgree(2, [SpentInput(q)], Outputs(q), t.wit, q.locktime);
    ParseOfSerialize(t);
  }

  /** Money: the miner is paid the difference, never a negative one, and the coin is spent exactly. */
  lemma BtcSpendConserves(q: Request)
    requires Refused(q).None?
    ensures TotalOut(Outputs(q)) == q.outVal + (if q.extraOut.Some? then q.extraOut.value.0 else 0) <= q.amount
  {
    var outs := Outputs(q);
    if q.extraOut.Some? {
      assert outs[1..][0] == TxOut(q.extraOut.value.0, q.extraOut.value.1);
      assert outs[1..][1..] == if q.replay then [TxOut(0, ReplayMarkerSpk())] else [];
    } else {
      assert outs[1..] == if q.replay then [TxOut(0, ReplayMarkerSpk())] else [];
    }
    assert TotalOut([TxOut(0, ReplayMarkerSpk())]) == 0 by {
      assert [TxOut(0, ReplayMarkerSpk())][1..] == [];
    }
  }

  function TotalOut(outs: seq<TxOut>): nat {
    if outs == [] then 0 else outs[0].value + TotalOut(outs[1..])
  }

  /** The spending context a node derives from a parsed transaction: its lock time, the sequence of its
      input, and signatures checked over the digest recomputed from what was parsed. */
  function BtcContext(c: Crypto, verify: (bytes, bytes, bytes) -> bool, t: Tx, script: bytes, amount: nat, minimalIf: bool): S.Context
    requires |t.vin| == 1
  {
    var digest := Bip143Digest(c.sha, SigInput(t.version,
      [Outpoint(t.vin[0].prevout, t.vin[0].vout, t.vin[0].sequence)], t.vout, 0, script, amount, t.locktime));
    S.Context(c.sha, (key, sig) => verify(key, sig, digest), (key, sig) => false, t.locktime, t.vin[0].sequence, minimalIf)
  }

  /** The bytes btcSpend produces, parsed and checked by a node, satisfy the HTLC exactly when the branch
      asked for can: a claim when it carries a real preimage, a refund when its lock time reaches the
      script's; in both cases when the signature verifies for the key of that branch. */
  lemma BtcSpendSatisfies(c: Crypto, verify: (bytes, bytes, bytes) -> bool, q: Request,
                          hashH: bytes, claim: bytes, refund: bytes, locktime: int, minimalIf: bool)
    requires Refused(q).None? && BlobFits(SignatureOf(c, q))
    requires HtlcScript(P2wshEcdsa, hashH, claim, refund, locktime) == Ok(q.script)
    ensures BtcSpend(c, q).Ok? && DecodeTx(BtcSpend(c, q).value) == Ok(BtcTx(c, q))
    ensures var t := BtcTx(c, q);
            var stack := t.wit[0];
            && stack[|stack| - 1] == q.script
            && (S.Satisfies(q.script, stack[..|stack| - 1], BtcContext(c, verify, t, q.script, q.amount, minimalIf)) <==>
                 (var digest := Bip143Digest(c.sha, Signed(q));
                  if q.branch == Claim
                  then |q.preimage| == 32 && c.sha(q.preimage) == hashH && verify(claim, SignatureOf(c, q), digest)
                  else locktime <= q.locktime && verify(refund, SignatureOf(c, q), digest)))
  {
    hide DecodeTx, EncodeTx, HtlcScript, BtcSpend, Bip143Digest, S.Satisfies, S.Truthy, Outputs;
    BtcSpendParses(c, q);
    var t := BtcTx(c, q);
    var ctx := BtcContext(c, verify, t, q.script, q.amount, minimalIf);
    var sig := SignatureOf(c, q);
    var stack := if q.branch == Claim then [sig, q.preimage, [1]] else [sig, []];
    assert t.wit[0][..|t.wit[0]| - 1] == stack;
    ScriptMeaning(P2wshEcdsa, hashH, claim, refund, locktime, stack, ctx);
    SelectorTruth();
    assert [Outpoint(t.vin[0].prevout, t.vin[0].vout, t.vin[0].sequence)] == [SpentInput(q)];
  }

  /** The marker is on a spend exactly when replay protection was asked for, unless an output the caller
      supplied is itself one. */
  lemma MarkerPresent(q: Request)
    requires Refused(q).None?
    ensures HasReplayMarker(Outputs(q)) <==>
            q.replay || IsMarker(q.destSpk) || (q.extraOut.Some? && IsMarker(q.extraOut.value.1))
  {
    var outs := Outputs(q);
    assert outs[0].spk == q.destSpk;
    assert q.extraOut.Some? ==> outs[1].spk == q.extraOut.value.1;
    assert q.replay ==> outs[|outs| - 1].spk == ReplayMarkerSpk();
  }

  // ---------------------------------------------------------------------------
  // The P2MR builder of the web client
  // ---------------------------------------------------------------------------

  datatype P2mrRequest = P2mrRequest(
    prevTxid: bytes, vout: nat, amount: nat, spk: bytes, leaf: bytes, priv: bytes, destSpk: bytes, outVal: nat,
    branch: Kind, preimage: bytes, locktime: nat)

  const CONTROL: bytes := [0xc1]

  predicate P2mrRequestFits(q: P2mrRequest) {
    && |q.prevTxid| == 32 && q.vout < 0x1_0000_0000 && q.amount < MAX_SIZE && q.outVal < MAX_SIZE
    && q.locktime < 0x1_0000_0000
    && BlobFits(q.spk) && BlobFits(q.leaf) && BlobFits(q.destSpk) && BlobFits(q.preimage)
  }

  function P2mrLock(q: P2mrRequest): nat {
    if q.branch == Refund then q.locktime else 0
  }

  function P2mrSigned(q: P2mrRequest): P2mrInput {
    P2mrInput(2, P2mrLock(q), [Outpoint(q.prevTxid, q.vout, Sequence(q.branch))], [TxOut(q.amount, q.spk)],
              [TxOut(q.outVal, q.destSpk)], 0, q.leaf)
  }

  function P2mrSignature(c: Crypto, q: P2mrRequest): bytes {
    c.pqcSign(q.priv, P2mrDigest(c.sha, P2mrSigned(q)))
  }

  function P2mrWitness(sig: bytes, branch: Kind, preimage: bytes, leaf: bytes): seq<bytes> {
    if branch == Refund then [sig, [], leaf, CONTROL] else [sig, preimage, [1], leaf, CONTROL]
  }

  function P2mrTx(c: Crypto, q: P2mrRequest): Tx {
    Tx(2, [TxIn(q.prevTxid, q.vout, [], Sequence(q.branch))], [TxOut(q.outVal, q.destSpk)],
       [P2mrWitness(P2mrSignature(c, q), q.branch, q.preimage, q.leaf)], P2mrLock(q))
  }

  /** The transaction around a P2MR spend: only a refund has a lock time, and an input that lets it count. */
  lemma P2mrFields(c: Crypto, q: P2mrRequest)
    ensures var t := P2mrTx(c, q);
            && t.version == 2 && |t.vin| == 1 && |t.wit| == 1
            && t.vin[0].prevout == q.prevTxid && t.vin[0].vout == q.vout && t.vin[0].script == []
            && (match q.branch
                case Claim => t.locktime == 0 && t.vin[0].sequence == 0xffff_ffff
                case Refund => t.locktime == q.locktime && t.vin[0].sequence == 0xffff_fffe)
            && |t.vout| == 1 && t.vout[0].value == q.outVal && t.vout[0].spk == q.destSpk
  {
    hide P2mrSignature;
  }

  method BuildP2mr(c: Crypto, q: P2mrRequest) returns (r: Result<bytes>)
    requires P2mrRequestFits(q) && BlobFits(P2mrSignature(c, q))
    ensures r == Ok(EncodeTx(P2mrTx(c, q)))
  {
    var refund := q.branch == Refund;
    var lock := if refund then q.locktime else 0;
    var sequence := if refund then 0xffff_fffe else 0xffff_ffff;
    var digest := P2mrDigest(c.sha, P2mrInput(2, lock, [Outpoint(q.prevTxid, q.vout, sequence)],
                                              [TxOut(q.amount, q.spk)], [TxOut(q.outVal, q.destSpk)], 0, q.leaf));
    var sig := c.pqcSign(q.priv, digest);
    var witIf := if refund then [] else q.preimage;
    var stack := if refund then [sig, witIf, q.leaf, CONTROL] else [sig, witIf, [1], q.leaf, CONTROL];
    P2mrTxFits(c, q);
    r := SerializeTx(Tx(2, [TxIn(q.prevTxid, q.vout, [], sequence)], [TxOut(q.outVal, q.destSpk)], [stack], lock));
  }

  lemma P2mrTxFits(c: Crypto, q: P2mrRequest)
    requires P2mrRequestFits(q) && BlobFits(P2mrSignature(c, q))
    ensures WellFormed(P2mrTx(c, q)) && Serializable(P2mrTx(c, q)) && HasWitness(P2mrTx(c, q).wit)
  {
    hide P2mrSignature;
    var t := P2mrTx(c, q);
    assert |t.wit[0]| > 0;
    assert StackFits(t.wit[0]);
  }

  /** The same statement for the P2MR leg: the node's view of the client's bytes satisfies the leaf exactly
      when the branch asked for can be taken. */
  lemma P2mrSpendSatisfies(c: Crypto, verify: (bytes, bytes, bytes) -> bool, q: P2mrRequest,
                           hashH: bytes, claim: bytes, refund: bytes, locktime: int, minimalIf: bool)
    requires P2mrRequestFits(q) && BlobFits(P2mrSignature(c, q))
    requires HtlcScript(P2mrSlhdsa, hashH, claim, refund, locktime) == Ok(q.leaf)
    ensures DecodeTx(EncodeTx(P2mrTx(c, q))) == Ok(P2mrTx(c, q))
    ensures var t := P2mrTx(c, q);
            var stack := t.wit[0];
            var digest := P2mrDigest(c.sha, P2mrSigned(q));
            var ctx := S.Context(c.sha, (key, sig) => false, (key, sig) => verify(key, sig, digest), t.locktime, t.vin[0].sequence, minimalIf);
            && stack[|stack| - 2] == q.leaf && stack[|stack| - 1] == CONTROL
            && (S.Satisfies(q.leaf, stack[..|stack| - 2], ctx) <==>
                 if q.branch == Claim
                 then |q.preimage| == 32 && c.sha(q.preimage) == hashH && verify(claim, P2mrSignature(c, q), digest)
                 else locktime <= q.locktime < 500_000_000 && verify(refund, P2mrSignature(c, q), digest))
  {
    hide DecodeTx, EncodeTx, HtlcScript, P2mrDigest, S.Satisfies, S.Truthy, P2mrSignature;
    P2mrTxFits(c, q);
    var t := P2mrTx(c, q);
    ParseOfSerialize(t);
    var sig, digest := P2mrSignature(c, q), P2mrDigest(c.sha, P2mrSigned(q));
    var ctx := S.Context(c.sha, (key, sig) => false, (key, sig) => verify(key, sig, digest), t.locktime, t.vin[0].sequence, minimalIf);
    var stack := if q.branch == Claim then [sig, q.preimage, [1]] else [sig, []];
    assert t.wit[0][..|t.wit[0]| - 2] == stack;
    ScriptMeaning(P2mrSlhdsa, hashH, claim, refund, locktime, stack, ctx);
    SelectorTruth();
  }

  // ---------------------------------------------------------------------------
  // Splicing the preimage into a pre-signed claim
  // ---------------------------------------------------------------------------

  /** Writing element 1 of the first witness stack, as an array write does: a one-element stack grows. */
  function WithPreimage(t: Tx, preimage: bytes): Tx
    requires t.wit != [] && t.wit[0] != []
  {
    var stack := t.wit[0];
    t.(wit := t.wit[0 := if |stack| == 1 then stack + [preimage] else stack[1 := preimage]])
  }

  /** splicePreimage on values: the parsed transaction with the preimage written in, serialized again. */
  function Spliced(txBytes: bytes, preimage: bytes): Result<bytes> {
    var t :- DecodeTx(txBytes);
    if t.wit == [] || t.wit[0] == [] then Err(WitnessCount) else Ok(EncodeTx(WithPreimage(t, preimage)))
  }

  method SplicePreimage(txBytes: bytes, preimage: bytes) returns (r: Result<bytes>)
    requires BlobFits(preimage)
    ensures r == Spliced(txBytes, preimage)
  {
    hide DecodeTx, EncodeTx;
    var t :- ParseTx(txBytes);
    if t.wit == [] || t.wit[0] == [] {
      return Err(WitnessCount);
    }
    var stack := t.wit[0];
    if |stack| == 1 {
      stack := stack + [preimage];
    } else {
      stack := stack[1 := preimage];
    }
    SerializeOfParse(txBytes);
    SplicedFits(t, preimage);
    r := SerializeTx(t.(wit := t.wit[0 := stack]));
  }

  lemma SplicedFits(t: Tx, preimage: bytes)
    requires WellFormed(t) && BlobFits(preimage) && t.wit != [] && t.wit[0] != []
    ensures WellFormed(WithPreimage(t, preimage)) && Serializable(WithPreimage(t, preimage))
    ensures HasWitness(WithPreimage(t, preimage).wit)
  {
    var t' := WithPreimage(t, preimage);
    assert StackFits(t.wit[0]);
    assert |t'.wit[0]| > 0;
    forall k | 0 <= k < |t'.wit| ensures StackFits(t'.wit[k]) {
      assert StackFits(t.wit[k]);
    }
  }

  /** Whatever bytes are spliced, the result parses to the same transaction with that one witness element
      replaced: version, inputs, outputs, lock time, hence both digests and the replay marker, stay. */
  lemma SpliceOnlyTouchesWitness(txBytes: bytes, preimage: bytes)
    requires Spliced(txBytes, preimage).Ok? && BlobFits(preimage)
    ensures var t := DecodeTx(txBytes).value;
            t.wit != [] && t.wit[0] != []
            && DecodeTx(Spliced(txBytes, preimage).value) == Ok(WithPreimage(t, preimage))
  {
    hide DecodeTx, EncodeTx;
    SerializeOfParse(txBytes);
    SplicedFits(DecodeTx(txBytes).value, preimage);
    ParseOfSerialize(WithPreimage(DecodeTx(txBytes).value, preimage));
  }

  /** Splicing is signing late, on a P2WSH leg: the claim pre-signed without a preimage, once spliced, is
      byte for byte the claim signed with it. */
  lemma SplicedBtcClaim(c: Crypto, q: Request, preimage: bytes)
    requires q.branch == Claim && q.preimage == [] && |preimage| == 32
    requires Refused(q).None? && BlobFits(SignatureOf(c, q))
    ensures BtcSpend(c, q).Ok?
    ensures Spliced(BtcSpend(c, q).value, preimage) == BtcSpend(c, q.(preimage := preimage))
  {
    hide DecodeTx, EncodeTx, BtcSpend, Bip143Digest, Outputs;
    var q' := q.(preimage := preimage);
    assert Outputs(q') == Outputs(q) by { SameOutputs(q, preimage); }
    assert Signed(q') == Signed(q);
    BtcSpendParses(c, q);
    BtcSpendParses(c, q');
    var t := BtcTx(c, q);
    var sig := SignatureOf(c, q);
    assert t.wit[0][1 := preimage] == [sig, preimage, [1], q.script];
    assert WithPreimage(t, preimage).wit == BtcTx(c, q').wit;
  }

  lemma SameOutputs(q: Request, preimage: bytes)
    requires q.outVal >= 0 && (q.extraOut.Some? ==> q.extraOut.value.0 >= 0)
    ensures Outputs(q.(preimage := preimage)) == Outputs(q)
  {
  }

  /** Splicing is signing late, on a P2MR leg. */
  lemma SplicedP2mrClaim(c: Crypto, q: P2mrRequest, preimage: bytes)
    requires q.branch == Claim && q.preimage == [] && |preimage| == 32
    requires P2mrRequestFits(q) && BlobFits(P2mrSignature(c, q))
    ensures Spliced(EncodeTx(P2mrTx(c, q)), preimage) == Ok(EncodeTx(P2mrTx(c, q.(preimage := preimage))))
  {
    hide DecodeTx, EncodeTx, P2mrDigest;
    P2mrTxFits(c, q);
    ParseOfSerialize(P2mrTx(c, q));
    assert P2mrSigned(q.(preimage := preimage)) == P2mrSigned(q);
    assert P2mrTx(c, q).wit[0][1 := preimage] == [P2mrSignature(c, q), preimage, [1], q.leaf, CONTROL];
    assert WithPreimage(P2mrTx(c, q), preimage) == P2mrTx(c, q.(preimage := preimage));
  }
}
