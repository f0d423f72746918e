/** From the recorded secret to the participant's coins: the claim the watchtower sends spends the recorded HTLC. */
module SwapPayout {
  import opened Bytes
  import opened Legs
  import opened SwapState
  import opened SwapSound
  import opened SwapRuns
  import opened SwapPromises
  import BitcoinScript = Script
  import Hex
  import Htlc
  import Sighash
  import Spend
  import TxCodec

  /** Bob's claim was pre-signed, without the preimage, for the recorded FROM script. */
  predicate PreSigned(s: Swap, c: Spend.Crypto, q: Spend.Request, tx: bytes)
    requires s.htlc.Some?
  {
    && q.branch == Claim && q.preimage == [] && q.script == s.htlc.value.Of(FROM)
    && Spend.Refused(q).None? && TxCodec.BlobFits(Spend.SignatureOf(c, q))
    && Spend.BtcSpend(c, q) == Ok(tx)
  }

  lemma SameSignature(c: Spend.Crypto, q: Spend.Request, preimage: bytes)
    requires Spend.Refused(q).None? && q.branch == Claim && q.preimage == [] && |preimage| == 32
    ensures var q' := q.(preimage := preimage);
            && Spend.Refused(q').None? && Spend.Signed(q') == Spend.Signed(q)
            && Spend.SignatureOf(c, q') == Spend.SignatureOf(c, q)
  {
    hide Sighash.Bip143Digest, Spend.Outputs, Spend.RequestFits;
    Spend.SameOutputs(q, preimage);
    SameFits(q, preimage);
  }

  lemma SameFits(q: Spend.Request, preimage: bytes)
    ensures Spend.RequestFits(q.(preimage := preimage)) <==> Spend.RequestFits(q)
  {
  }

  /** In every run in which the preimage is on record: the tier the watchtower sends for Bob is byte for byte the
      claim signed with the preimage, it parses, and it satisfies the recorded FROM script exactly when the signature
      he made beforehand verifies for the key he joined with. */
  lemma ParticipantGetsPaid(cfg: Config, terms: Terms, events: seq<Event>, c: Spend.Crypto,
                            verify: (bytes, bytes, bytes) -> bool, q: Spend.Request, b: Ladder, tier: nat, minimalIf: bool)
    requires var s := Run(cfg, terms, events).s;
             && s.htlc.Some? && s.plan.Some? && ValidLocktimes(s.plan.value.locktimes) && s.preimage.Some?
             && cfg.rules.Of(FROM).family == Htlc.P2wshEcdsa && c.sha == cfg.sha
             && b.needsPreimage && tier < |b.tiers| && PreSigned(s, c, q, b.tiers[tier].tx)
    ensures var s := Run(cfg, terms, events).s;
            var q' := q.(preimage := s.preimage.value);
            && s.party.bob.Some? && Hex.Decode(s.party.bob.value.Of(FROM)).Ok?
            && Spend.Refused(q').None? && TierTx(s, Claim, b, tier) == Spend.BtcSpend(c, q')
            && Spend.BtcSpend(c, q').Ok?
            && var t := Spend.BtcTx(c, q');
            && TxCodec.DecodeTx(Spend.BtcSpend(c, q').value) == Ok(t)
            && var stack := t.wit[0];
            (BitcoinScript.Satisfies(q.script, stack[..|stack| - 1],
                                     Spend.BtcContext(c, verify, t, q.script, q.amount, minimalIf))
             <==> verify(Hex.Decode(s.party.bob.value.Of(FROM)).value, Spend.SignatureOf(c, q),
                         Sighash.Bip143Digest(c.sha, Spend.Signed(q))))
  {
    hide Run, Hex.Decode, Hex.Encode, Htlc.HtlcScript, Spend.Spliced, Spend.BtcSpend, TxCodec.DecodeTx,
      Spend.SignatureOf, Spend.Signed, Sighash.Bip143Digest, BitcoinScript.Satisfies, Spend.BtcTx, ValidLocktimes;
    var s := Run(cfg, terms, events).s;
    var p := s.preimage.value;
    RecordedScripts(cfg, terms, events);
    RecordsAreTrue(cfg, terms, events);
    SameSignature(c, q, p);
    Spend.SplicedBtcClaim(c, q, p);
    var h, a, bob := s.hashText.value, s.party.alice.value, s.party.bob.value;
    var lock := s.plan.value.locktimes.Of(FROM);
    Hex.DecodeOfEncode(cfg.sha(p));
    Spend.BtcSpendSatisfies(c, verify, q.(preimage := p), Hex.Decode(h).value, Hex.Decode(bob.Of(FROM)).value,
                            Hex.Decode(a.Of(FROM)).value, lock, minimalIf);
  }
}
