/** Where the engine's promises meet the chain: what a claim's witness shows, what a surfaced refund means, and what
    goes wrong when the hash is not written the way the engine compares it. */
module SwapLimits {
  import opened Bytes
  import opened Legs
  import opened SwapState
  import opened SwapSteps
  import opened SwapSound
  import opened SwapRuns
  import opened SwapPromises
  import BitcoinScript = Script
  import Depth
  import Hex
  import Htlc
  import SwapSafety

  /** A spend that satisfies a leg's script without its refund branch shows a 32-byte preimage in its witness,
      whatever script or control block follows the stack. */
  lemma ClaimWitnessCarries(cfg: Config, leg: Leg, hashText: string, claim: Keys, refund: Keys, locktime: int,
                            stack: seq<bytes>, rest: seq<bytes>, ctx: BitcoinScript.Context)
    requires Script(cfg, leg, hashText, claim, refund, locktime).Ok? && ctx.sha == cfg.sha
    requires BitcoinScript.Satisfies(Script(cfg, leg, hashText, claim, refund, locktime).value, stack, ctx)
    requires !Htlc.RefundSpend(cfg.rules.Of(leg).family, Hex.Decode(refund.Of(leg)).value, locktime, stack, ctx)
    ensures Carries(cfg, hashText, stack + rest)
  {
    hide BitcoinScript.Satisfies, Hex.Decode, Htlc.HtlcScript;
    var f, h := cfg.rules.Of(leg).family, Hex.Decode(hashText).value;
    Htlc.ScriptMeaning(f, h, Hex.Decode(claim.Of(leg)).value, Hex.Decode(refund.Of(leg)).value, locktime, stack, ctx);
    assert (stack + rest)[1] == stack[1];
  }

  /** What a poll records of one leg, from the node's answers alone: a confirmed deposit is kept, anything else is
      what findOutput reports if that is enough, kept as it was if the report is short, and gone if there is none; a
      confirmed deposit is marked spent exactly when the node says so or it was marked before; and its confirmations are
      those at the node's height. */
  lemma DepositsFollowNodes(cfg: Config, s: Swap, nodes: Per<Node>, now: nat, leg: Leg)
    requires s.state != Created && !Terminal(s.state) && s.htlc.Some? && Poll(cfg, s, nodes, now).ok
    ensures var f, g, node := s.funding.Of(leg), Poll(cfg, s, nodes, now).s.funding.Of(leg), nodes.Of(leg);
            var o := OutputAt(cfg, s, leg, node);
            var was := if Confirmed(f) then f
                       else if o.None? then None
                       else if o.value.amount >= Need(s.terms, leg)
                            then Some(Funding(o.value.at, o.value.amount, o.value.height, false, 0))
                       else f;
            && (g.Some? <==> was.Some?)
            && (was.Some? ==>
                  g.value == was.value.(spent := was.value.spent || (Confirmed(was) && !node.isUnspent(was.value.at)),
                                        confs := match was.value.height case None => 0 case Some(h) => node.height - h + 1))
  {
    hide Backfill, Regate, Settle, FoundAndMarked, Observe, OutputAt, Need, RefundOf;
    var polled := s.(heights := Some(Per(nodes.btc.height, nodes.qbit.height)));
    ObserveParts(cfg, polled, nodes);
    FoundAndMarkedIs(cfg, polled, nodes);
    SameOutput(cfg, s, polled, nodes);
    var marked := FoundAndMarked(cfg, polled, nodes);
    BackfillFunding(cfg, marked, Btc, nodes.btc);
    BackfillFunding(cfg, Backfill(cfg, marked, Btc, nodes.btc), Qbit, nodes.qbit);
    ObserveKeepsHeights(cfg, polled, nodes);
    JudgeFunding(cfg, Observe(cfg, polled, nodes), nodes, now);
  }

  /** A refund is surfaced exactly for a confirmed deposit that is not marked spent, at or above the leg's lock height,
      and for the TO leg only while the preimage is unknown; the node then calls the deposit unspent. */
  lemma SurfacedRefundIsReal(cfg: Config, s: Swap, nodes: Per<Node>, now: nat, leg: Leg)
    requires s.state != Created && !Terminal(s.state) && Poll(cfg, s, nodes, now).ok
    ensures var t := Poll(cfg, s, nodes, now).s;
            var f := Recoverable(t, leg);
            && t.refund.Some? && t.plan.Some?
            && (t.refund.value.Of(leg).available <==>
                  && Confirmed(f) && !f.value.spent
                  && nodes.Of(leg).height >= t.plan.value.locktimes.Of(leg)
                  && (leg == TO ==> t.preimage.None?))
            && (t.refund.value.Of(leg).available ==> nodes.Of(leg).isUnspent(f.value.at))
  {
    hide Discover, Backfill, Regate, Settle;
    var polled := s.(heights := Some(Per(nodes.btc.height, nodes.qbit.height)));
    var found := Discover(cfg, Discover(cfg, polled, Btc, nodes.btc), Qbit, nodes.qbit);
    var marked := MarkAllSpent(found, nodes);
    var filled := Backfill(cfg, marked, Btc, nodes.btc);
    BackfillFunding(cfg, marked, Btc, nodes.btc);
    BackfillFunding(cfg, filled, Qbit, nodes.qbit);
    JudgeFunding(cfg, Observe(cfg, polled, nodes), nodes, now);
  }

  lemma BackfillFunding(cfg: Config, s: Swap, leg: Leg, node: Node)
    ensures Backfill(cfg, s, leg, node).funding == s.funding && Backfill(cfg, s, leg, node).short == s.short
  {
    hide FindPreimage;
  }

  lemma JudgeFunding(cfg: Config, s: Swap, nodes: Per<Node>, now: nat)
    requires s.plan.Some?
    ensures var r := Settle(Regate(cfg, s, s.plan.value, nodes, now), now);
            r.funding == s.funding && r.short == s.short && r.plan == s.plan && r.preimage == s.preimage
  {
    hide Buried, PreClaimState, TooLate;
  }

  predicate BothBuried(cfg: Config, s: Swap, plan: Depth.Plan) {
    Buried(cfg, FROM, s.funding.Of(FROM), plan.targets.Of(FROM)) && Buried(cfg, TO, s.funding.Of(TO), plan.targets.Of(TO))
  }

  /** What a poll of a swap before any claim decides, both ways: CLAIMABLE is exactly an open gate at the nodes'
      present heights over an unspent deposit, COMPLETE exactly a known preimage with both deposits spent; a swap is
      too late exactly when both deposits are buried and the gate is shut by time alone; and the participant is
      cleared to fund from the first poll that sees the initiator's deposit buried. */
  lemma PollDecides(cfg: Config, s: Swap, nodes: Per<Node>, now: nat)
    requires s.state != Created && PreClaim(s.state) && Poll(cfg, s, nodes, now).ok
    ensures var t := Poll(cfg, s, nodes, now).s;
            && t.heights == Some(Per(nodes.btc.height, nodes.qbit.height))
            && (t.state == Complete <==> t.preimage.Some? && IsSpent(t.funding.Of(TO)) && IsSpent(t.funding.Of(FROM)))
            && (t.state == Claimable <==> Gate(cfg, t) && !IsSpent(t.funding.Of(TO)))
            && t.plan.Some?
            && (t.funding.Of(TO).Some? && !IsSpent(t.funding.Of(TO)) ==>
                  (t.tooLate <==> BothBuried(cfg, t, t.plan.value) && !InTime(cfg, t.plan.value, nodes.Of(TO).height)))
            && (t.fromConfirmedAt.Some? <==>
                  s.fromConfirmedAt.Some? || Buried(cfg, FROM, t.funding.Of(FROM), t.plan.value.targets.Of(FROM)))
  {
    hide Observe, RefundOf, Buried, InTime;
    var polled := s.(heights := Some(Per(nodes.btc.height, nodes.qbit.height)));
    ObserveKeepsHeights(cfg, polled, nodes);
    ObserveKeepsClearance(cfg, polled, nodes);
    FundedWhenBuried(cfg, Observe(cfg, polled, nodes));
  }

  lemma ObserveKeepsClearance(cfg: Config, s: Swap, nodes: Per<Node>)
    requires s.htlc.Some?
    ensures Observe(cfg, s, nodes).fromConfirmedAt == s.fromConfirmedAt
  {
    hide Observe, Backfill, FoundAndMarked;
    ObserveParts(cfg, s, nodes);
    FoundAndMarkedIs(cfg, s, nodes);
    var marked := FoundAndMarked(cfg, s, nodes);
    BackfillShape(cfg, marked, Btc, nodes.btc);
    BackfillShape(cfg, Backfill(cfg, marked, Btc, nodes.btc), Qbit, nodes.qbit);
  }

  lemma FundedWhenBuried(cfg: Config, s: Swap)
    ensures forall leg: Leg, target :: Buried(cfg, leg, s.funding.Of(leg), target) ==> s.funding.Of(leg).Some?
  {
  }

  // ---------------------------------------------------------------------------
  // Spends that nobody announced
  // ---------------------------------------------------------------------------

  predicate Announced(s: Swap, leg: Leg) {
    (leg, Claim) in s.broadcasts || (leg, Refund) in s.broadcasts
  }

  /** The one spend on record for this leg, and whether it counts as a claim. */
  predicate Recorded(s: Swap, leg: Leg, txid: bytes, claimed: bool) {
    var k := if claimed then Claim else Refund;
    && (forall kind: Kind :: (leg, kind) in s.broadcasts <==> kind == k)
    && s.broadcasts[(leg, k)] == txid
    && (claimed ==> s.preimage.Some?)
  }

  lemma BackfillRecords(cfg: Config, s: Swap, leg: Leg, node: Node)
    requires IsSpent(s.funding.Of(leg)) && !Announced(s, leg) && node.spendingTxid(s.funding.Of(leg).value.at).Some?
    ensures var txid := node.spendingTxid(s.funding.Of(leg).value.at).value;
            Recorded(Backfill(cfg, s, leg, node), leg, txid, FindPreimage(cfg, s.hashText, node.witnessOf(txid)).Some?)
  {
    hide FindPreimage;
  }

  /** Classifying one leg's spend leaves the other leg's record and the hash alone. */
  lemma BackfillLeaves(cfg: Config, s: Swap, leg: Leg, node: Node, other: Leg, txid: bytes, claimed: bool)
    requires other != leg
    ensures var t := Backfill(cfg, s, leg, node);
            && (Announced(t, other) <==> Announced(s, other)) && t.hashText == s.hashText && t.funding == s.funding
            && (Recorded(s, other, txid, claimed) ==> Recorded(t, other, txid, claimed))
  {
    hide FindPreimage;
  }

  lemma ObserveRecords(cfg: Config, s: Swap, nodes: Per<Node>, leg: Leg)
    requires s.htlc.Some? && !Announced(s, leg)
    requires var f := Observe(cfg, s, nodes).funding.Of(leg); IsSpent(f) && nodes.Of(leg).spendingTxid(f.value.at).Some?
    ensures var t := Observe(cfg, s, nodes);
            var txid := nodes.Of(leg).spendingTxid(t.funding.Of(leg).value.at).value;
            Recorded(t, leg, txid, FindPreimage(cfg, s.hashText, nodes.Of(leg).witnessOf(txid)).Some?)
  {
    hide Observe, FoundAndMarked, Backfill, FindPreimage, Discovered, MarkSpent, Need, Recorded, Announced;
    ObserveParts(cfg, s, nodes);
    FoundAndMarkedIs(cfg, s, nodes);
    var marked := FoundAndMarked(cfg, s, nodes);
    var first := Backfill(cfg, marked, Btc, nodes.btc);
    var both := Backfill(cfg, first, Qbit, nodes.qbit);
    SameBooksAs(s, marked, leg);
    CountingSpends(both, nodes, leg);
    BackfillFunding(cfg, marked, Btc, nodes.btc);
    BackfillFunding(cfg, first, Qbit, nodes.qbit);
    var txid := nodes.Of(leg).spendingTxid(both.funding.Of(leg).value.at).value;
    var claimed := FindPreimage(cfg, s.hashText, nodes.Of(leg).witnessOf(txid)).Some?;
    if leg == Btc {
      BackfillRecords(cfg, marked, Btc, nodes.btc);
      BackfillLeaves(cfg, first, Qbit, nodes.qbit, Btc, txid, claimed);
    } else {
      BackfillLeaves(cfg, marked, Btc, nodes.btc, Qbit, txid, claimed);
      BackfillRecords(cfg, first, Qbit, nodes.qbit);
    }
    SameRecord(both, CountConfs(both, nodes), leg, txid, claimed);
  }

  lemma SameBooksAs(s: Swap, t: Swap, leg: Leg)
    requires t.broadcasts == s.broadcasts
    ensures Announced(t, leg) <==> Announced(s, leg)
  {
  }

  lemma SameRecord(s: Swap, t: Swap, leg: Leg, txid: bytes, claimed: bool)
    requires t.broadcasts == s.broadcasts && t.preimage == s.preimage
    ensures Recorded(t, leg, txid, claimed) <==> Recorded(s, leg, txid, claimed)
  {
  }

  lemma CountingSpends(s: Swap, nodes: Per<Node>, leg: Leg)
    ensures var f, g := s.funding.Of(leg), CountConfs(s, nodes).funding.Of(leg);
            (IsSpent(g) <==> IsSpent(f)) && (f.Some? <==> g.Some?) && (f.Some? ==> g.value.at == f.value.at)
  {
  }

  /** On this leg the two records of spends agree. */
  predicate SameSpends(s: Swap, t: Swap, leg: Leg) {
    forall kind: Kind :: ((leg, kind) in t.broadcasts <==> (leg, kind) in s.broadcasts)
                         && ((leg, kind) in s.broadcasts ==> t.broadcasts[(leg, kind)] == s.broadcasts[(leg, kind)])
  }

  lemma BackfillSpares(cfg: Config, s: Swap, leg: Leg, node: Node, other: Leg)
    requires other != leg || Announced(s, leg) || !IsSpent(s.funding.Of(leg)) || node.spendingTxid(s.funding.Of(leg).value.at).None?
    ensures SameSpends(s, Backfill(cfg, s, leg, node), other)
  {
    hide FindPreimage;
  }

  /** A poll leaves a leg's record of spends alone when it has one already, when the deposit is not spent, and when the
      node cannot name the spender. */
  lemma SpendsStay(cfg: Config, s: Swap, nodes: Per<Node>, now: nat, leg: Leg)
    requires s.state != Created && !Terminal(s.state) && s.htlc.Some? && Poll(cfg, s, nodes, now).ok
    requires var f := Poll(cfg, s, nodes, now).s.funding.Of(leg);
             Announced(s, leg) || !IsSpent(f) || nodes.Of(leg).spendingTxid(f.value.at).None?
    ensures SameSpends(s, Poll(cfg, s, nodes, now).s, leg)
  {
    hide Observe, FoundAndMarked, Backfill, Discovered, MarkSpent, Need, Judge, Announced, SameSpends;
    var polled := s.(heights := Some(Per(nodes.btc.height, nodes.qbit.height)));
    ObserveParts(cfg, polled, nodes);
    FoundAndMarkedIs(cfg, polled, nodes);
    var marked := FoundAndMarked(cfg, polled, nodes);
    var first := Backfill(cfg, marked, Btc, nodes.btc);
    var both := Backfill(cfg, first, Qbit, nodes.qbit);
    ObserveKeepsHeights(cfg, polled, nodes);
    JudgedShape(cfg, Observe(cfg, polled, nodes), s.plan.value, nodes, now);
    SameBooksAs(s, marked, leg);
    CountingSpends(both, nodes, leg);
    BackfillFunding(cfg, marked, Btc, nodes.btc);
    BackfillFunding(cfg, first, Qbit, nodes.qbit);
    if leg == Qbit {
      StillAnnounced(cfg, marked, Btc, nodes.btc, Qbit);
    }
    BackfillSpares(cfg, marked, Btc, nodes.btc, leg);
    BackfillSpares(cfg, first, Qbit, nodes.qbit, leg);
    SpendsChain(s, marked, first, leg);
    SpendsChain(s, first, both, leg);
    SpendsChain(s, both, Poll(cfg, s, nodes, now).s, leg);
  }

  lemma StillAnnounced(cfg: Config, s: Swap, leg: Leg, node: Node, other: Leg)
    requires other != leg
    ensures Announced(Backfill(cfg, s, leg, node), other) <==> Announced(s, other)
  {
    hide FindPreimage;
  }

  lemma SpendsChain(a: Swap, b: Swap, c: Swap, leg: Leg)
    requires (SameSpends(a, b, leg) || a.broadcasts == b.broadcasts) && (SameSpends(b, c, leg) || b.broadcasts == c.broadcasts)
    ensures SameSpends(a, c, leg)
  {
  }

  /** What a poll finds in a witness, whatever the hash text. */
  lemma FoundExactly(cfg: Config, hashText: string, wit: seq<bytes>)
    ensures FindPreimage(cfg, Some(hashText), wit).Some? <==> Hex.Canonical(hashText) && Carries(cfg, hashText, wit)
  {
    hide Hex.Encode, Hex.Decode, FindPreimage;
    Found(cfg, Some(hashText), wit);
    var p := FindPreimage(cfg, Some(hashText), wit);
    if p.Some? {
      Hex.DecodeOfEncode(cfg.sha(p.value));
      var i :| 0 <= i < |wit| && wit[i] == p.value;
    }
    if Carries(cfg, hashText, wit) {
      RecognisedWhenCanonical(cfg, hashText, wit);
    }
  }

  /** In every run, a poll that sees a deposit spent and can name the spender records that spender, once: as a claim,
      with a preimage then on record, if and only if the hash text is canonical and the spender's witness shows a
      32-byte preimage of it, and as a refund otherwise. */
  lemma SpendIsClassified(cfg: Config, terms: Terms, events: seq<Event>, nodes: Per<Node>, now: nat, leg: Leg)
    requires var s := Run(cfg, terms, events).s;
             && s.state != Created && !Terminal(s.state) && s.htlc.Some? && !Announced(s, leg)
    requires var f := Poll(cfg, Run(cfg, terms, events).s, nodes, now).s.funding.Of(leg);
             IsSpent(f) && nodes.Of(leg).spendingTxid(f.value.at).Some?
    ensures var s, t := Run(cfg, terms, events).s, Poll(cfg, Run(cfg, terms, events).s, nodes, now).s;
            var txid := nodes.Of(leg).spendingTxid(t.funding.Of(leg).value.at).value;
            && s.hashText.Some?
            && Recorded(t, leg, txid, Hex.Canonical(s.hashText.value)
                                      && Carries(cfg, s.hashText.value, nodes.Of(leg).witnessOf(txid)))
  {
    hide Run, Known, Weighed, Armed, Counted, Gated, Tracked, Observe, Judge, Recorded, Hex.Canonical, Carries, FindPreimage,
      ValidLocktimes, Buildable, Announced;
    var s := Run(cfg, terms, events).s;
    SwapSafety.RunFine(cfg, terms, events);
    var polled := s.(heights := Some(Per(nodes.btc.height, nodes.qbit.height)));
    var seen := Observe(cfg, polled, nodes);
    ObserveKeepsHeights(cfg, polled, nodes);
    JudgedShape(cfg, seen, s.plan.value, nodes, now);
    SameBooksAs(s, polled, leg);
    ObserveRecords(cfg, polled, nodes, leg);
    var t := Judge(cfg, seen, s.plan.value, nodes, now);
    var txid := nodes.Of(leg).spendingTxid(t.funding.Of(leg).value.at).value;
    var wit := nodes.Of(leg).witnessOf(txid);
    FoundExactly(cfg, s.hashText.value, wit);
    SameRecord(seen, t, leg, txid, FindPreimage(cfg, s.hashText, wit).Some?);
  }

  /** In every run with canonical hash text: when a spend that nobody announced satisfies the recorded script, whatever
      script or control block follows the stack, it is recorded as a claim unless it takes the refund branch; and one
      that is recorded as a claim shows a 32-byte preimage, which the participant then has. */
  lemma OutOfBandSpend(cfg: Config, terms: Terms, events: seq<Event>, nodes: Per<Node>, now: nat, leg: Leg,
                       stack: seq<bytes>, rest: seq<bytes>, ctx: BitcoinScript.Context)
    requires var s := Run(cfg, terms, events).s;
             && s.state != Created && !Terminal(s.state) && s.htlc.Some? && !Announced(s, leg)
             && s.plan.Some? && ValidLocktimes(s.plan.value.locktimes)
             && s.hashText.Some? && Hex.Canonical(s.hashText.value)
             && BitcoinScript.Satisfies(s.htlc.value.Of(leg), stack, ctx)
    requires var f := Poll(cfg, Run(cfg, terms, events).s, nodes, now).s.funding.Of(leg);
             && IsSpent(f) && nodes.Of(leg).spendingTxid(f.value.at).Some?
             && nodes.Of(leg).witnessOf(nodes.Of(leg).spendingTxid(f.value.at).value) == stack + rest
    requires ctx.sha == cfg.sha
    ensures var s, t := Run(cfg, terms, events).s, Poll(cfg, Run(cfg, terms, events).s, nodes, now).s;
            var refunder := if leg == FROM then s.party.alice else s.party.bob;
            && refunder.Some? && Hex.Decode(refunder.value.Of(leg)).Ok?
            && var key, lock := Hex.Decode(refunder.value.Of(leg)).value, s.plan.value.locktimes.Of(leg);
            && (!Htlc.RefundSpend(cfg.rules.Of(leg).family, key, lock, stack, ctx) ==> (leg, Claim) in t.broadcasts)
            && ((leg, Claim) in t.broadcasts ==> t.preimage.Some? && Carries(cfg, s.hashText.value, stack + rest))
  {
    hide Run, Poll, Hex.Canonical, Hex.Decode, Htlc.HtlcScript, BitcoinScript.Satisfies, Htlc.RefundSpend, Carries,
      ValidLocktimes, Announced;
    var s := Run(cfg, terms, events).s;
    RecordedScripts(cfg, terms, events);
    SpendIsClassified(cfg, terms, events, nodes, now, leg);
    var a, b := s.party.alice.value, s.party.bob.value;
    var claim, refund := if leg == FROM then b else a, if leg == FROM then a else b;
    if !Htlc.RefundSpend(cfg.rules.Of(leg).family, Hex.Decode(refund.Of(leg)).value, s.plan.value.locktimes.Of(leg), stack, ctx) {
      ClaimWitnessCarries(cfg, leg, s.hashText.value, claim, refund, s.plan.value.locktimes.Of(leg), stack, rest, ctx);
    }
  }

  lemma NotRecognised(cfg: Config, hashText: string, wit: seq<bytes>)
    requires !Hex.Canonical(hashText)
    ensures FindPreimage(cfg, Some(hashText), wit).None?
  {
    hide FindPreimage, Hex.Encode, Hex.Decode;
    Found(cfg, Some(hashText), wit);
    if FindPreimage(cfg, Some(hashText), wit).Some? {
      Hex.DecodeOfEncode(cfg.sha(FindPreimage(cfg, Some(hashText), wit).value));
    }
  }

  /** Without canonical hash text one tick can relay both spends for the initiator: the claim's preimage is not
      recognised, so the abort refund stays open. */
  lemma BothSidesIfNotCanonical(cfg: Config, s: Swap, nodes: Per<Node>, after: Per<Node>, now: nat)
    requires s.state == Claimable && s.htlc.Some? && s.plan.Some? && s.preimage.None? && !ShortFunded(s) && s.wt == map[]
    requires s.hashText.Some? && !Hex.Canonical(s.hashText.value)
    requires s.finish.alice.Some?
    requires var b := s.finish.alice.value;
             b.refund.tiers != [] && b.claim.Some? && b.claim.value.tiers != [] && !b.claim.value.needsPreimage
    requires s.funding.btc.Some? && !s.funding.btc.value.spent && s.funding.qbit.Some? && !s.funding.qbit.value.spent
    requires HeightOf(s, FROM) >= s.plan.value.locktimes.Of(FROM)
    requires forall tx :: nodes.btc.testAccept(tx) && nodes.qbit.testAccept(tx)
    ensures var log := Drive(cfg, s, nodes, after, now).log;
            |log| >= 2 && log[0].sender == log[1].sender == Some(Alice) && log[0].kind == Claim && log[1].kind == Refund
  {
    hide Attempt, Resend, FindPreimage, Hex.Canonical;
    var a := Attempt(cfg, Done(s), Alice, Claim, nodes, now);
    ClaimUnrecognised(cfg, s, nodes, now);
    var b := Attempt(cfg, a, Bob, Claim, nodes, now);
    NothingToClaim(cfg, a, nodes, now);
    var c := Attempt(cfg, b, Alice, Refund, nodes, now);
    RefundFollows(cfg, b, nodes, now);
    var d := Attempt(cfg, c, Bob, Refund, nodes, now);
    AttemptSteps(cfg, c, Bob, Refund, nodes, now);
    var e := Resend(cfg, d, Alice, Claim, after, now);
    ResendSteps(cfg, d, Alice, Claim, after, now);
    var f := Resend(cfg, e, Bob, Claim, after, now);
    ResendSteps(cfg, e, Bob, Claim, after, now);
    var g := Resend(cfg, f, Alice, Refund, after, now);
    ResendSteps(cfg, f, Alice, Refund, after, now);
    ResendSteps(cfg, g, Bob, Refund, after, now);
  }

  lemma ClaimUnrecognised(cfg: Config, s: Swap, nodes: Per<Node>, now: nat)
    requires s.state == Claimable && s.preimage.None? && !ShortFunded(s) && s.wt == map[]
    requires s.hashText.Some? && !Hex.Canonical(s.hashText.value) && s.finish.alice.Some?
    requires var b := s.finish.alice.value; b.claim.Some? && b.claim.value.tiers != [] && !b.claim.value.needsPreimage
    requires s.funding.qbit.Some? && !s.funding.qbit.value.spent
    requires forall tx :: nodes.qbit.testAccept(tx)
    ensures var a := Attempt(cfg, Done(s), Alice, Claim, nodes, now);
            && a.ok && |a.log| == 1 && a.log[0].sender == Some(Alice) && a.log[0].kind == Claim
            && a.s.preimage.None? && a.s.wt.Keys == {(Alice, Claim)} && a.s.finish == s.finish && a.s.plan == s.plan
            && a.s.heights == s.heights && a.s.funding.btc == s.funding.btc && a.s.short == s.short
  {
    hide FindPreimage, Hex.Canonical;
    forall wit ensures FindPreimage(cfg, s.hashText, wit).None? {
      NotRecognised(cfg, s.hashText.value, wit);
    }
  }

  lemma NothingToClaim(cfg: Config, o: Outcome, nodes: Per<Node>, now: nat)
    requires o.s.preimage.None?
    ensures Attempt(cfg, o, Bob, Claim, nodes, now) == o
  {
    hide Send, PickTier, LadderOf, Recoverable;
  }

  lemma {:induction false} TierInRange(tiers: seq<Tier>, from: nat, target: real)
    requires tiers != []
    ensures 0 <= TierPaying(tiers, from, target) < |tiers|
    decreases |tiers| - from
  {
    if from < |tiers| {
      TierInRange(tiers, from + 1, target);
    }
  }

  lemma RefundFollows(cfg: Config, o: Outcome, nodes: Per<Node>, now: nat)
    requires o.ok && o.s.preimage.None? && o.s.plan.Some? && o.s.finish.alice.Some?
    requires o.s.finish.alice.value.refund.tiers != [] && (Alice, Refund) !in o.s.wt
    requires o.s.funding.btc.Some? && !o.s.funding.btc.value.spent
    requires HeightOf(o.s, FROM) >= o.s.plan.value.locktimes.Of(FROM)
    requires forall tx :: nodes.btc.testAccept(tx)
    ensures var c := Attempt(cfg, o, Alice, Refund, nodes, now);
            |c.log| == |o.log| + 1 && c.log[..|o.log|] == o.log
            && c.log[|o.log|].sender == Some(Alice) && c.log[|o.log|].kind == Refund
  {
    hide Effects, TierPaying;
    TierInRange(o.s.finish.alice.value.refund.tiers, 0,
                if nodes.btc.fastestFee != 0.0 then nodes.btc.fastestFee else 1.0);
  }

  // ---------------------------------------------------------------------------
  // Such a state is two calls away
  // ---------------------------------------------------------------------------

  /** A node on which nothing happens: deposits unspent, every transaction accepted, and this witness reported. */
  function QuietNode(height: nat, quote: Depth.Quote, wit: seq<bytes>): Node {
    Node(height, quote, 1.0, _ => None, _ => true, _ => None, _ => wit, _ => true, _ => [])
  }

  /** TO stands still while FROM has moved on to its lock height. */
  function QuietNodes(s: Swap, quote: Depth.Quote, wit: seq<bytes>): Per<Node>
    requires s.heights.Some? && s.plan.Some?
  {
    Per(QuietNode(Depth.Max(s.heights.value.btc, s.plan.value.locktimes.btc), quote, wit),
        QuietNode(s.heights.value.qbit, quote, wit))
  }

  lemma PollKeepsRest(cfg: Config, s: Swap, nodes: Per<Node>, now: nat)
    requires s.htlc.Some? && s.plan.Some?
    ensures var t := Poll(cfg, s, nodes, now).s;
            && t.finish == s.finish && t.htlc == s.htlc && t.plan == s.plan && t.wt == s.wt && t.hashText == s.hashText
            && (Confirmed(s.funding.btc) && Confirmed(s.funding.qbit) && !ShortFunded(s) ==> !ShortFunded(t))
  {
    hide FoundAndMarked, Backfill, Observe, Judge, OutputAt, Need;
    var polled := s.(heights := Some(Per(nodes.btc.height, nodes.qbit.height)));
    ObserveParts(cfg, polled, nodes);
    FoundAndMarkedIs(cfg, polled, nodes);
    var marked := FoundAndMarked(cfg, polled, nodes);
    BackfillShape(cfg, marked, Btc, nodes.btc);
    BackfillShape(cfg, Backfill(cfg, marked, Btc, nodes.btc), Qbit, nodes.qbit);
    var seen := Observe(cfg, polled, nodes);
    JudgedShape(cfg, seen, s.plan.value, nodes, now);
  }

  /** A recorded preimage would make the hash text canonical. */
  lemma UnknownIfNotCanonical(cfg: Config, s: Swap)
    requires Sound(cfg, s) && s.hashText.Some? && !Hex.Canonical(s.hashText.value)
    ensures s.preimage.None?
  {
    hide Hex.Encode, Hex.Decode, Scripted, Weighed, Armed, Counted, Gated;
    if s.preimage.Some? {
      Hex.DecodeOfEncode(cfg.sha(s.preimage.value));
    }
  }

  /** With TO standing still the gate stays open. */
  lemma QuietGate(cfg: Config, s: Swap, t: Swap, nodes: Per<Node>)
    requires Sound(cfg, s) && Sound(cfg, t) && Gate(cfg, s) && t.plan == s.plan
    requires Confirmed(s.funding.btc) && Confirmed(s.funding.qbit) && Confirmed(t.funding.btc) && Confirmed(t.funding.qbit)
    requires t.funding.btc.value.height == s.funding.btc.value.height
    requires t.funding.qbit.value.height == s.funding.qbit.value.height
    requires t.heights == Some(Per(nodes.btc.height, nodes.qbit.height))
    requires nodes.btc.height >= s.heights.value.btc && nodes.qbit.height == s.heights.value.qbit
    ensures Gate(cfg, t)
  {
    hide Scripted, Known, Weighed, Armed;
  }

  lemma QuietPoll(cfg: Config, s: Swap, quote: Depth.Quote, wit: seq<bytes>, now: nat)
    requires Sound(cfg, s) && s.state == Claimable && s.heights.Some? && s.plan.Some?
    requires s.hashText.Some? && !Hex.Canonical(s.hashText.value) && s.wt == map[] && !ShortFunded(s)
    requires Confirmed(s.funding.btc) && !s.funding.btc.value.spent && Confirmed(s.funding.qbit)
    ensures var t := Poll(cfg, s, QuietNodes(s, quote, wit), now).s;
            && t.state == Claimable && t.htlc.Some? && t.plan == s.plan && t.hashText == s.hashText && t.preimage.None?
            && !ShortFunded(t) && t.wt == map[] && t.finish == s.finish
            && t.funding.btc.Some? && !t.funding.btc.value.spent && t.funding.qbit.Some? && !t.funding.qbit.value.spent
            && HeightOf(t, FROM) >= s.plan.value.locktimes.Of(FROM)
  {
    hide Loose, Counted, Gate, Hex.Canonical, Poll, OutputAt, Need;
    var nodes := QuietNodes(s, quote, wit);
    var t := Poll(cfg, s, nodes, now).s;
    ClaimableHasHtlc(cfg, s);
    PollReturns(cfg, s, nodes, now);
    PollSound(cfg, s, nodes, now);
    PollKeepsRest(cfg, s, nodes, now);
    DepositsFollowNodes(cfg, s, nodes, now, Btc);
    DepositsFollowNodes(cfg, s, nodes, now, Qbit);
    PollDecides(cfg, s, nodes, now);
    QuietGate(cfg, s, t, nodes);
    UnknownIfNotCanonical(cfg, t);
  }

  lemma ClaimableHasHtlc(cfg: Config, s: Swap)
    requires Sound(cfg, s) && s.state == Claimable
    ensures s.htlc.Some? && Gate(cfg, s) && !IsSpent(s.funding.Of(TO))
  {
    hide Loose, Counted, Gate;
  }

  lemma PollReturns(cfg: Config, s: Swap, nodes: Per<Node>, now: nat)
    requires s.htlc.Some? && s.plan.Some?
    ensures Poll(cfg, s, nodes, now).ok
  {
    hide Observe, Judge;
    ObserveState(cfg, s.(heights := Some(Per(nodes.btc.height, nodes.qbit.height))), nodes);
  }

  /** From any reachable CLAIMABLE record whose hash text is not canonical, with both deposits confirmed, the
      initiator's bundle armed and the watchtower not yet acting, one poll and one watchtower tick lead to a run in
      which it has relayed both a claim and a refund for the initiator. */
  lemma NotCanonicalGoesWrong(cfg: Config, terms: Terms, events: seq<Event>, quote: Depth.Quote, wit: seq<bytes>)
    requires var s := Run(cfg, terms, events).s;
             && s.state == Claimable && s.heights.Some? && s.plan.Some?
             && s.hashText.Some? && !Hex.Canonical(s.hashText.value)
             && s.wt == map[] && !ShortFunded(s)
             && Confirmed(s.funding.btc) && !s.funding.btc.value.spent && Confirmed(s.funding.qbit)
             && s.finish.alice.Some? && s.finish.alice.value.claim.Some? && !s.finish.alice.value.claim.value.needsPreimage
    ensures var nodes := QuietNodes(Run(cfg, terms, events).s, quote, wit);
            var log := Run(cfg, terms, events + [PollTick(nodes, 0), WatchTick(nodes, nodes, 0)]).log;
            Watched(log, Alice, Claim) && Watched(log, Alice, Refund)
  {
    hide Sound, Poll, Drive, QuietNodes, Hex.Canonical, Run, Apply, Tracked;
    var h := Run(cfg, terms, events);
    var s := h.s;
    var nodes := QuietNodes(s, quote, wit);
    SwapSafety.RunFine(cfg, terms, events);
    QuietPoll(cfg, s, quote, wit, 0);
    var poll, tick := PollTick(nodes, 0), WatchTick(nodes, nodes, 0);
    var t := Poll(cfg, s, nodes, 0).s;
    ArmedBundle(cfg, s);
    QuietAccepts(s, quote, wit);
    BothSidesIfNotCanonical(cfg, t, nodes, nodes, 0);
    var o := Drive(cfg, t, nodes, nodes, 0);
    TwoMore(cfg, terms, events, poll, tick);
    SwapSafety.CallsKeepWt(cfg, s, poll);
    PollApplies(cfg, s, nodes);
    DriveApplies(cfg, t, nodes);
    var log := h.log + o.log;
    assert log[|h.log|] == o.log[0] && log[|h.log| + 1] == o.log[1];
    assert h.log + [] + o.log == log;
  }

  lemma PollApplies(cfg: Config, s: Swap, nodes: Per<Node>)
    ensures Apply(cfg, s, PollTick(nodes, 0)) == Poll(cfg, s, nodes, 0)
  {
    hide Poll;
  }

  lemma DriveApplies(cfg: Config, s: Swap, nodes: Per<Node>)
    ensures Apply(cfg, s, WatchTick(nodes, nodes, 0)) == Drive(cfg, s, nodes, nodes, 0)
  {
    hide Drive;
  }

  lemma ArmedBundle(cfg: Config, s: Swap)
    requires Sound(cfg, s) && s.finish.alice.Some? && s.finish.alice.value.claim.Some?
    ensures s.finish.alice.value.refund.tiers != [] && s.finish.alice.value.claim.value.tiers != []
  {
    hide Scripted, Known, Weighed, Counted, Gated;
  }

  lemma QuietAccepts(s: Swap, quote: Depth.Quote, wit: seq<bytes>)
    requires s.heights.Some? && s.plan.Some?
    ensures forall tx :: QuietNodes(s, quote, wit).btc.testAccept(tx) && QuietNodes(s, quote, wit).qbit.testAccept(tx)
  {
  }

  lemma TwoMore(cfg: Config, terms: Terms, events: seq<Event>, a: Event, b: Event)
    ensures var h := Run(cfg, terms, events);
            var o := Apply(cfg, h.s, a);
            Run(cfg, terms, events + [a, b]) == History(Apply(cfg, o.s, b).s, h.log + o.log + Apply(cfg, o.s, b).log)
  {
    hide Apply;
    assert (events + [a, b])[..|events| + 1] == events + [a];
    assert (events + [a])[..|events|] == events;
  }
}
