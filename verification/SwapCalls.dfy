/** What single calls do, both ways, in terms of the record's fields and the nodes' answers alone. */
module SwapCalls {
  import opened Bytes
  import opened Legs
  import opened SwapState
  import opened SwapSteps
  import opened SwapSound
  import opened SwapRuns
  import opened SwapSafety
  import opened SwapPromises
  import opened SwapLimits
  import Depth
  import Hex
  import Spend
  import TxCodec

  // ---------------------------------------------------------------------------
  // What a poll concludes
  // ---------------------------------------------------------------------------

  predicate Live(f: Option<Funding>) {
    f.Some? && !f.value.spent
  }

  /** At this chain height the leg's deposit has as many confirmations as the plan asks, or its leg is trusted. */
  predicate Matured(cfg: Config, t: Swap, leg: Leg, height: nat)
    requires t.plan.Some?
  {
    var f := t.funding.Of(leg);
    && f.Some?
    && (cfg.rules.Of(leg).trustUnconfirmed
        || (f.value.height.Some? && height - f.value.height.value + 1 >= t.plan.value.targets.Of(leg)))
  }

  predicate AheadOfLock(cfg: Config, t: Swap, height: nat)
    requires t.plan.Some?
  {
    height + t.plan.value.targets.Of(TO) + cfg.revealBuffer <= t.plan.value.locktimes.Of(TO)
  }

  predicate Open(cfg: Config, t: Swap, nodes: Per<Node>)
    requires t.plan.Some?
  {
    Matured(cfg, t, FROM, nodes.Of(FROM).height) && Matured(cfg, t, TO, nodes.Of(TO).height)
    && AheadOfLock(cfg, t, nodes.Of(TO).height)
  }

  /** The secret is known and both deposits are spent. */
  predicate Finished(t: Swap) {
    t.preimage.Some? && IsSpent(t.funding.Of(FROM)) && IsSpent(t.funding.Of(TO))
  }

  lemma PollReturnsExactly(cfg: Config, s: Swap, nodes: Per<Node>, now: nat)
    ensures var o := Poll(cfg, s, nodes, now);
            && (o.ok <==> s.state == Created || Terminal(s.state) || (s.htlc.Some? && s.plan.Some?))
            && o.log == []
            && (s.state == Created || Terminal(s.state) ==> o.s == s)
  {
    hide Observe, Judge;
    if s.htlc.Some? {
      ObserveState(cfg, s.(heights := Some(Per(nodes.btc.height, nodes.qbit.height))), nodes);
    }
  }

  lemma CountedNow(cfg: Config, s: Swap, nodes: Per<Node>, leg: Leg)
    requires s.htlc.Some?
    ensures Deep(Observe(cfg, s, nodes).funding.Of(leg), nodes.Of(leg).height)
  {
    hide Backfill, FoundAndMarked;
    ObserveParts(cfg, s, nodes);
  }

  lemma BuriedIsMatured(cfg: Config, t: Swap, leg: Leg, height: nat)
    requires t.plan.Some? && Deep(t.funding.Of(leg), height)
    ensures Buried(cfg, leg, t.funding.Of(leg), t.plan.value.targets.Of(leg)) <==> Matured(cfg, t, leg, height)
  {
  }

  /** What a returning poll concludes from the deposits, the plan and the nodes' heights. COMPLETE comes first; before
      any claim READY, FROM_FUNDED, TO_FUNDED, MATURING and CLAIMABLE each mean exactly what they say, and otherwise the
      state stays. */
  lemma PollStates(cfg: Config, s: Swap, nodes: Per<Node>, now: nat)
    requires s.state != Created && !Terminal(s.state) && Poll(cfg, s, nodes, now).ok
    ensures var t := Poll(cfg, s, nodes, now).s;
            && t.plan.Some? && t.plan == s.plan && t.htlc == s.htlc
            && t.heights == Some(Per(nodes.btc.height, nodes.qbit.height))
            && (t.state == Complete <==> Finished(t))
            && (!Finished(t) && !PreClaim(s.state) ==> t.state == s.state)
            && (!Finished(t) && PreClaim(s.state) ==>
                  var from, to := t.funding.Of(FROM).Some?, Live(t.funding.Of(TO));
                  && (t.state == Ready <==> !from && !to)
                  && (t.state == FromFunded <==> from && !to)
                  && (t.state == ToFunded <==> !from && to)
                  && (t.state == Maturing <==> from && to && !Open(cfg, t, nodes))
                  && (t.state == Claimable <==> from && to && Open(cfg, t, nodes)))
  {
    hide Observe, RefundOf, Buried, Matured, Deep, IsSpent;
    var polled := s.(heights := Some(Per(nodes.btc.height, nodes.qbit.height)));
    ObserveKeepsHeights(cfg, polled, nodes);
    var seen := Observe(cfg, polled, nodes);
    CountedNow(cfg, polled, nodes, FROM);
    CountedNow(cfg, polled, nodes, TO);
    BuriedIsMatured(cfg, seen, FROM, nodes.Of(FROM).height);
    BuriedIsMatured(cfg, seen, TO, nodes.Of(TO).height);
    var t := Poll(cfg, s, nodes, now).s;
    SameMaturity(cfg, seen, t, nodes);
  }

  lemma SameMaturity(cfg: Config, s: Swap, t: Swap, nodes: Per<Node>)
    requires s.plan.Some? && t.plan == s.plan && t.funding == s.funding
    ensures forall leg: Leg, height: nat :: Matured(cfg, t, leg, height) == Matured(cfg, s, leg, height)
  {
  }

  /** What else a returning poll writes: the settlement date, the too-late mark, the participant's clearance and whose
      refund opens when; and it writes nothing about the parties, their bundles and the watchtower's records. */
  lemma PollWrites(cfg: Config, s: Swap, nodes: Per<Node>, now: nat)
    requires s.state != Created && !Terminal(s.state) && Poll(cfg, s, nodes, now).ok
    ensures var t := Poll(cfg, s, nodes, now).s;
            && t.plan.Some?
            && t.settledAt == (if Finished(t) then Some(now) else s.settledAt)
            && t.tooLate == (if PreClaim(s.state) && Live(t.funding.Of(TO))
                             then Matured(cfg, t, FROM, nodes.Of(FROM).height) && Matured(cfg, t, TO, nodes.Of(TO).height)
                                  && !AheadOfLock(cfg, t, nodes.Of(TO).height)
                             else s.tooLate)
            && t.fromConfirmedAt == (if s.fromConfirmedAt.Some? then s.fromConfirmedAt
                                     else if Matured(cfg, t, FROM, nodes.Of(FROM).height) then Some(now) else None)
            && t == s.(heights := t.heights, funding := t.funding, short := t.short, preimage := t.preimage,
                       broadcasts := t.broadcasts, state := t.state, settledAt := t.settledAt, tooLate := t.tooLate,
                       fromConfirmedAt := t.fromConfirmedAt, refund := t.refund)
  {
    hide Observe, Judge, Matured, Deep, Finished, Live;
    var polled := s.(heights := Some(Per(nodes.btc.height, nodes.qbit.height)));
    var seen := Observe(cfg, polled, nodes);
    ObserveShape(cfg, polled, nodes);
    CountedNow(cfg, polled, nodes, FROM);
    CountedNow(cfg, polled, nodes, TO);
    JudgeWrites(cfg, seen, nodes, now);
    JudgedShape(cfg, seen, s.plan.value, nodes, now);
    SameMaturity(cfg, seen, Poll(cfg, s, nodes, now).s, nodes);
    SameFinish(seen, Poll(cfg, s, nodes, now).s);
  }

  lemma SameFinish(s: Swap, t: Swap)
    requires t.funding == s.funding && t.preimage == s.preimage
    ensures Finished(t) == Finished(s) && Live(t.funding.Of(TO)) == Live(s.funding.Of(TO))
  {
  }

  lemma JudgeWrites(cfg: Config, s: Swap, nodes: Per<Node>, now: nat)
    requires s.plan.Some? && !Terminal(s.state)
    requires Deep(s.funding.Of(FROM), nodes.Of(FROM).height) && Deep(s.funding.Of(TO), nodes.Of(TO).height)
    ensures var t := Judge(cfg, s, s.plan.value, nodes, now);
            && t.settledAt == (if Finished(s) then Some(now) else s.settledAt)
            && t.tooLate == (if PreClaim(s.state) && Live(s.funding.Of(TO))
                             then Matured(cfg, s, FROM, nodes.Of(FROM).height) && Matured(cfg, s, TO, nodes.Of(TO).height)
                                  && !AheadOfLock(cfg, s, nodes.Of(TO).height)
                             else s.tooLate)
            && t.fromConfirmedAt == (if s.fromConfirmedAt.Some? then s.fromConfirmedAt
                                     else if Matured(cfg, s, FROM, nodes.Of(FROM).height) then Some(now) else None)
  {
    hide RefundOf, Buried, Matured, Deep, PreClaimState, IsSpent;
    BuriedIsMatured(cfg, s, FROM, nodes.Of(FROM).height);
    BuriedIsMatured(cfg, s, TO, nodes.Of(TO).height);
    SameStates(cfg, s, s, s.plan.value, nodes.Of(TO).height);
  }

  lemma ObserveShape(cfg: Config, s: Swap, nodes: Per<Node>)
    requires s.htlc.Some?
    ensures var t := Observe(cfg, s, nodes);
            t == s.(funding := t.funding, short := t.short, preimage := t.preimage, broadcasts := t.broadcasts)
  {
    hide Observe, Backfill, FoundAndMarked;
    ObserveParts(cfg, s, nodes);
    FoundAndMarkedIs(cfg, s, nodes);
    var marked := FoundAndMarked(cfg, s, nodes);
    BackfillShape(cfg, marked, Btc, nodes.btc);
    BackfillShape(cfg, Backfill(cfg, marked, Btc, nodes.btc), Qbit, nodes.qbit);
  }

  /** Whose refund a leg's is and when it opens: the funder's, at the leg's lock height, and marked short when only an
      underfunded deposit is there. */
  lemma RefundTerms(cfg: Config, s: Swap, nodes: Per<Node>, now: nat, leg: Leg)
    requires s.state != Created && !Terminal(s.state) && Poll(cfg, s, nodes, now).ok
    ensures var t := Poll(cfg, s, nodes, now).s;
            && t.refund.Some? && t.plan.Some?
            && var r := t.refund.value.Of(leg);
            && (LegOf(r.party, Refund) == leg) && r.at == t.plan.value.locktimes.Of(leg)
            && (r.short <==> t.funding.Of(leg).None? && t.short.Of(leg).Some?)
  {
    hide Observe, Regate, Settle;
    var polled := s.(heights := Some(Per(nodes.btc.height, nodes.qbit.height)));
    var seen := Observe(cfg, polled, nodes);
    ObserveKeepsHeights(cfg, polled, nodes);
    JudgeFunding(cfg, seen, nodes, now);
  }

  /** An underfunded deposit is put on record whenever a leg without a confirmed one reports too little, it is kept
      otherwise, and once confirmed it is marked spent exactly when the node says so or it was marked before. */
  lemma ShortFollowsNodes(cfg: Config, s: Swap, nodes: Per<Node>, now: nat, leg: Leg)
    requires s.state != Created && !Terminal(s.state) && s.htlc.Some? && Poll(cfg, s, nodes, now).ok
    ensures var node, sh := nodes.Of(leg), Poll(cfg, s, nodes, now).s.short.Of(leg);
            var o := OutputAt(cfg, s, leg, node);
            var was := if !Confirmed(s.funding.Of(leg)) && o.Some? && o.value.amount < Need(s.terms, leg)
                       then Some(Funding(o.value.at, o.value.amount, o.value.height, false, 0)) else s.short.Of(leg);
            && (sh.Some? <==> was.Some?)
            && (was.Some? ==>
                  sh.value == was.value.(spent := was.value.spent || (Confirmed(was) && !node.isUnspent(was.value.at))))
  {
    hide Backfill, Regate, Settle, FoundAndMarked, Observe, OutputAt, Need, RefundOf;
    var polled := s.(heights := Some(Per(nodes.btc.height, nodes.qbit.height)));
    ObserveParts(cfg, polled, nodes);
    FoundAndMarkedIs(cfg, polled, nodes);
    SameOutput(cfg, s, polled, nodes);
    var marked := FoundAndMarked(cfg, polled, nodes);
    BackfillFunding(cfg, marked, Btc, nodes.btc);
    BackfillFunding(cfg, Backfill(cfg, marked, Btc, nodes.btc), Qbit, nodes.qbit);
    ObserveKeepsHeights(cfg, polled, nodes);
    JudgeFunding(cfg, Observe(cfg, polled, nodes), nodes, now);
  }

  // ---------------------------------------------------------------------------
  // A funded contract stays
  // ---------------------------------------------------------------------------

  /** Once FROM is confirmed the swap is past the states in which contracts are derived. */
  predicate Committed(s: Swap) {
    Confirmed(s.funding.Of(FROM)) ==> s.state != Created && s.state != Ready
  }

  lemma PollCommits(cfg: Config, s: Swap, nodes: Per<Node>, now: nat)
    requires Sound(cfg, s) && Committed(s)
    ensures var t := Poll(cfg, s, nodes, now).s; Committed(t) && t.plan == s.plan && t.htlc == s.htlc
  {
    hide Poll, Sound, Open;
    PollReturnsExactly(cfg, s, nodes, now);
    if Poll(cfg, s, nodes, now).ok {
      if s.state != Created && !Terminal(s.state) {
        PollStates(cfg, s, nodes, now);
      }
    } else {
      ThrowingPoll(cfg, s, nodes, now);
    }
  }

  lemma ThrowingPoll(cfg: Config, s: Swap, nodes: Per<Node>, now: nat)
    requires Sound(cfg, s) && !Poll(cfg, s, nodes, now).ok
    ensures var t := Poll(cfg, s, nodes, now).s;
            s.htlc.None? && t == s.(heights := Some(Per(nodes.btc.height, nodes.qbit.height)))
  {
    hide Known, Weighed, Armed, Counted, Gated, Observe, Judge, Buildable, ValidLocktimes;
    if s.htlc.Some? {
      ObserveState(cfg, s.(heights := Some(Per(nodes.btc.height, nodes.qbit.height))), nodes);
    }
  }

  /** A tick or a relay moves on only to states that follow a spend, and leaves plan, scripts and what is confirmed. */
  lemma DriveCommits(cfg: Config, s: Swap, nodes: Per<Node>, after: Per<Node>, now: nat)
    requires Committed(s)
    ensures var t := Drive(cfg, s, nodes, after, now).s; Committed(t) && t.htlc == s.htlc && t.plan == s.plan
  {
    hide Attempt, Resend, WatchtowerIdle, Fits;
    FitsSame(s);
    var a := Attempt(cfg, Done(s), Alice, Claim, nodes, now);
    AttemptFits(cfg, s, Done(s), Alice, Claim, nodes, now);
    var b := Attempt(cfg, a, Bob, Claim, nodes, now);
    AttemptFits(cfg, s, a, Bob, Claim, nodes, now);
    var c := Attempt(cfg, b, Alice, Refund, nodes, now);
    AttemptFits(cfg, s, b, Alice, Refund, nodes, now);
    var d := Attempt(cfg, c, Bob, Refund, nodes, now);
    AttemptFits(cfg, s, c, Bob, Refund, nodes, now);
    var e := Resend(cfg, d, Alice, Claim, after, now);
    ResendFits(cfg, s, d, Alice, Claim, after, now);
    var f := Resend(cfg, e, Bob, Claim, after, now);
    ResendFits(cfg, s, e, Bob, Claim, after, now);
    var g := Resend(cfg, f, Alice, Refund, after, now);
    ResendFits(cfg, s, f, Alice, Refund, after, now);
    ResendFits(cfg, s, g, Bob, Refund, after, now);
    FitsCommits(s, Drive(cfg, s, nodes, after, now).s);
  }

  predicate SameHeight(a: Option<Funding>, b: Option<Funding>) {
    Confirmed(b) ==> Confirmed(a)
  }

  predicate Fits(s: Swap, t: Swap) {
    && t.plan == s.plan && t.htlc == s.htlc && (t.state == s.state || Spending(t.state))
    && SameHeight(s.funding.btc, t.funding.btc) && SameHeight(s.funding.qbit, t.funding.qbit)
  }

  lemma FitsSame(s: Swap)
    ensures Fits(s, s)
  {
  }

  lemma FitsCommits(s: Swap, t: Swap)
    requires Fits(s, t) && Committed(s)
    ensures Committed(t) && t.plan == s.plan && t.htlc == s.htlc
  {
  }

  lemma EffectsFit(cfg: Config, base: Swap, s: Swap, wt: map<(Role, Kind), WtRecord>, leg: Leg, kind: Kind, txid: bytes, wit: seq<bytes>, now: nat)
    requires Fits(base, s)
    ensures Fits(base, Effects(cfg, s.(wt := wt), leg, kind, txid, wit, now)) && Fits(base, s.(wt := wt))
  {
    hide FindPreimage;
  }

  lemma SendFits(cfg: Config, base: Swap, s: Swap, wt: map<(Role, Kind), WtRecord>, role: Role, kind: Kind, b: Ladder, tier: int, node: Node, now: nat)
    requires Fits(base, s)
    ensures var r := Send(cfg, s.(wt := wt), role, kind, b, tier, node, now); r.Sent? ==> Fits(base, r.s)
  {
    hide Effects, TierTx, Fits;
    var tx := TierTx(s.(wt := wt), kind, b, tier);
    if tx.Ok? {
      var txid, leg := node.broadcast(tx.value), LegOf(role, kind);
      EffectsFit(cfg, base, s, wt[(role, kind) := WtRecord(txid, tier, HeightOf(s, leg), now)], leg, kind, txid,
                 node.witnessOf(txid), now);
    }
  }

  lemma AttemptFits(cfg: Config, base: Swap, o: Outcome, role: Role, kind: Kind, nodes: Per<Node>, now: nat)
    requires Fits(base, o.s)
    ensures Fits(base, Attempt(cfg, o, role, kind, nodes, now).s)
  {
    hide Send, PickTier, Fits, Recoverable;
    if o.ok && Fires(o.s, role, kind) {
      var leg := LegOf(role, kind);
      var b := LadderOf(o.s, role, kind).value;
      SendFits(cfg, base, o.s, o.s.wt, role, kind, b, PickTier(leg, b.tiers, 0, nodes.Of(leg).fastestFee), nodes.Of(leg), now);
      assert o.s.(wt := o.s.wt) == o.s;
    }
  }

  lemma ResendFits(cfg: Config, base: Swap, o: Outcome, role: Role, kind: Kind, nodes: Per<Node>, now: nat)
    requires Fits(base, o.s)
    ensures Fits(base, Resend(cfg, o, role, kind, nodes, now).s)
  {
    hide Send, PickTier, Fits, Recoverable;
    var leg := LegOf(role, kind);
    if o.ok && Resends(o.s, role, kind, nodes.Of(leg)) {
      var b := LadderOf(o.s, role, kind).value;
      var tier := Depth.Max(o.s.wt[(role, kind)].tier, PickTier(leg, b.tiers, 0, nodes.Of(leg).fastestFee));
      var wt := o.s.wt - {(role, kind)};
      SendFits(cfg, base, o.s, wt, role, kind, b, tier, nodes.Of(leg), now);
      EffectsFit(cfg, base, o.s, wt, leg, kind, [], [], now);
    }
  }

  lemma ApplyCommits(cfg: Config, s: Swap, e: Event)
    requires Sound(cfg, s) && Committed(s)
    ensures var t := Apply(cfg, s, e).s;
            Committed(t) && (Confirmed(s.funding.Of(FROM)) ==> t.plan == s.plan && t.htlc == s.htlc)
  {
    hide Sound, Poll, BundleRefused, Drive, RelayGate, CarriesMarker, FindPreimage, Derive, KeysAreHex;
    match e
    case Submit(role, keys, hashText, nodes, now) => SubmitCommits(cfg, s, role, keys, hashText, nodes, now);
    case CancelBy(role) =>
    case PollTick(nodes, now) => PollCommits(cfg, s, nodes, now);
    case Finish(role, bundle) =>
    case PartySend(leg, kind, tx, node, now) =>
    case WatchTick(nodes, after, now) => DriveCommits(cfg, s, nodes, after, now);
  }

  lemma SubmitCommits(cfg: Config, s: Swap, role: Role, keys: Keys, hashText: Option<string>, nodes: Per<Node>, now: nat)
    requires Committed(s)
    ensures var t := SubmitParty(cfg, s, role, keys, hashText, nodes, now).s;
            Committed(t) && t.funding == s.funding && (Confirmed(s.funding.Of(FROM)) ==> t == s)
  {
    hide Build, Hex.Decode, PlanOf, KeysAreHex;
  }

  lemma {:induction false} RunCommitted(cfg: Config, terms: Terms, events: seq<Event>)
    ensures Committed(Run(cfg, terms, events).s)
  {
    hide Apply, Sound, Tracked;
    if events != [] {
      var before := events[..|events| - 1];
      RunCommitted(cfg, terms, before);
      RunFine(cfg, terms, before);
      ApplyCommits(cfg, Run(cfg, terms, before).s, events[|events| - 1]);
    }
  }

  /** From any point of a run at which the initiator's deposit is confirmed: plan and scripts never change again. */
  lemma {:induction false} ContractFixedOnceFunded(cfg: Config, terms: Terms, events: seq<Event>, k: nat)
    requires k <= |events| && Confirmed(Run(cfg, terms, events[..k]).s.funding.Of(FROM))
    ensures var s, t := Run(cfg, terms, events[..k]).s, Run(cfg, terms, events).s;
            t.plan == s.plan && t.htlc == s.htlc && s.htlc.Some? && s.state != Created && s.state != Ready
    decreases |events|
  {
    hide Apply, Sound, Tracked, Kept;
    if k == |events| {
      assert events[..k] == events;
      RunCommitted(cfg, terms, events);
      RunFine(cfg, terms, events);
      FundedHasScripts(cfg, Run(cfg, terms, events).s);
    } else {
      var before := events[..|events| - 1];
      assert before[..k] == events[..k];
      ContractFixedOnceFunded(cfg, terms, before, k);
      RunCommitted(cfg, terms, before);
      RunFine(cfg, terms, before);
      SetOnce(cfg, terms, before, k);
      StaysConfirmed(Run(cfg, terms, before[..k]).s, Run(cfg, terms, before).s);
      ApplyCommits(cfg, Run(cfg, terms, before).s, events[|events| - 1]);
    }
  }

  lemma FundedHasScripts(cfg: Config, s: Swap)
    requires Sound(cfg, s) && Confirmed(s.funding.Of(FROM))
    ensures s.htlc.Some?
  {
    hide Scripted, Known, Armed, Counted, Gated;
  }

  lemma StaysConfirmed(s: Swap, t: Swap)
    requires Kept(s, t) && Confirmed(s.funding.Of(FROM))
    ensures Confirmed(t.funding.Of(FROM))
  {
  }

  // ---------------------------------------------------------------------------
  // What a party's broadcast relays
  // ---------------------------------------------------------------------------

  /** The deposit is recorded deep enough for a reveal; a target of zero asks for the leg's configured minimum. */
  predicate DeepEnough(cfg: Config, s: Swap, leg: Leg)
    requires s.plan.Some?
  {
    var f, target := s.funding.Of(leg), s.plan.value.targets.Of(leg);
    && f.Some?
    && (cfg.rules.Of(leg).trustUnconfirmed
        || (f.value.height.Some? && f.value.confs >= target && (target == 0 ==> f.value.confs >= cfg.depth.legs.Of(leg).minConfs)))
  }

  /** At the last polled height a reveal is still far enough ahead of the lock height of TO. */
  predicate MayReveal(cfg: Config, s: Swap) {
    && s.plan.Some? && DeepEnough(cfg, s, FROM) && DeepEnough(cfg, s, TO)
    && AheadOfLock(cfg, s, if s.heights.Some? then s.heights.value.Of(TO) else 0)
  }

  predicate HasMarker(tx: bytes) {
    TxCodec.DecodeTx(tx).Ok? && Spend.HasReplayMarker(TxCodec.DecodeTx(tx).value.vout)
  }

  /** How a relayed spend leaves the record. */
  predicate Spent(cfg: Config, s: Swap, leg: Leg, kind: Kind, txid: bytes, wit: seq<bytes>, now: nat, t: Swap) {
    && t == s.(broadcasts := t.broadcasts, funding := t.funding, short := t.short, preimage := t.preimage, state := t.state,
               settledAt := t.settledAt)
    && t.broadcasts == s.broadcasts[(leg, kind) := txid]
    && SpentOn(s.funding, t.funding, leg)
    && (if kind == Refund then SpentOn(s.short, t.short, leg) else t.short == s.short)
    && t.state == (if kind == Refund then Refunded else if leg == FROM then Complete else Claimed)
    && t.settledAt == (if kind == Claim && leg == TO then s.settledAt else Some(now))
    && (kind == Refund || s.preimage.Some? ==> t.preimage == s.preimage)
    && (kind == Claim && s.preimage.None? ==>
          && (t.preimage.Some? <==> s.hashText.Some? && Hex.Canonical(s.hashText.value) && Carries(cfg, s.hashText.value, wit))
          && (t.preimage.Some? ==> t.preimage.value in wit && |t.preimage.value| == 32
                                   && Hex.Decode(s.hashText.value) == Ok(cfg.sha(t.preimage.value))))
  }

  /** The deposit on this leg, if there is one, is marked spent; nothing else about the deposits changes. */
  predicate SpentOn(a: Per<Option<Funding>>, b: Per<Option<Funding>>, leg: Leg) {
    forall l: Leg :: b.Of(l) == if l == leg && a.Of(l).Some? then Some(a.Of(l).value.(spent := true)) else a.Of(l)
  }

  lemma EffectsSpend(cfg: Config, s: Swap, leg: Leg, kind: Kind, txid: bytes, wit: seq<bytes>, now: nat)
    ensures Spent(cfg, s, leg, kind, txid, wit, now, Effects(cfg, s, leg, kind, txid, wit, now))
  {
    hide FindPreimage, Hex.Canonical, Carries, Hex.Decode, Hex.Encode;
    Found(cfg, s.hashText, wit);
    if s.hashText.Some? {
      FoundExactly(cfg, s.hashText.value, wit);
    }
    if FindPreimage(cfg, s.hashText, wit).Some? {
      Hex.DecodeOfEncode(cfg.sha(FindPreimage(cfg, s.hashText, wit).value));
    }
  }

  lemma RelayGateIs(cfg: Config, s: Swap)
    ensures RelayGate(cfg, s) <==> MayReveal(cfg, s)
  {
  }

  /** A party's broadcast, for every record, leg, kind, transaction and node. A refund is relayed exactly when the node
      accepts it; a claim also needs the marker on a replay-protected leg, and a claim of TO the open gate. Whatever is
      relayed is that transaction, and the record shows it; whatever is not changes nothing. */
  lemma BroadcastExactly(cfg: Config, s: Swap, leg: Leg, kind: Kind, tx: bytes, node: Node, now: nat)
    ensures var o := Broadcast(cfg, s, leg, kind, tx, node, now);
            var goes := node.testAccept(tx)
                        && (kind == Claim && cfg.rules.Of(leg).replayOpReturn ==> HasMarker(tx))
                        && (kind == Claim && leg == TO ==> MayReveal(cfg, s));
            var txid := node.broadcast(tx);
            && (o.ok <==> goes)
            && (goes ==> o.log == [Entry(None, leg, kind, tx, node.witnessOf(txid), s)]
                         && Spent(cfg, s, leg, kind, txid, node.witnessOf(txid), now, o.s))
            && (!goes ==> o.s == s && o.log == [])
  {
    hide Effects, RelayGate, MayReveal, Spent, TxCodec.DecodeTx, Spend.HasReplayMarker;
    RelayGateIs(cfg, s);
    EffectsSpend(cfg, s, leg, kind, node.broadcast(tx), node.witnessOf(node.broadcast(tx)), now);
  }

  // ---------------------------------------------------------------------------
  // What a submission derives
  // ---------------------------------------------------------------------------

  /** The plan was made for these terms from these nodes' answers: each target from its own leg's quote at the BTC
      height, each lock height counted on from its own chain's height. */
  predicate MadeFrom(cfg: Config, terms: Terms, nodes: Per<Node>, plan: Depth.Plan) {
    && (forall leg: Leg ::
          plan.targets.Of(leg) == Depth.ReorgConfs(cfg.depth, leg, terms.btcSats, nodes.btc.height, nodes.Of(leg).quote))
    && plan.locktimes.Of(TO) - nodes.Of(TO).height
       == Depth.LocktimeBlocks(cfg.depth.legs.Of(TO), Depth.ToSecs(cfg.depth, plan.targets.Of(TO)))
    && plan.locktimes.Of(FROM) - nodes.Of(FROM).height
       == Depth.LocktimeBlocks(cfg.depth.legs.Of(FROM), Depth.FromSecs(cfg.depth, plan.targets.Of(TO)))
  }

  lemma PlanIsMade(cfg: Config, s: Swap, nodes: Per<Node>)
    ensures MadeFrom(cfg, s.terms, nodes, PlanOf(cfg, s, nodes))
  {
    hide Depth.ReorgConfs, Depth.LocktimeBlocks, Depth.ToSecs, Depth.FromSecs;
  }

  lemma MadeOnce(cfg: Config, terms: Terms, nodes: Per<Node>, a: Depth.Plan, b: Depth.Plan)
    requires MadeFrom(cfg, terms, nodes, a) && MadeFrom(cfg, terms, nodes, b)
    ensures a == b
  {
    hide Depth.ReorgConfs, Depth.LocktimeBlocks, Depth.ToSecs, Depth.FromSecs;
    assert a.targets.Of(FROM) == b.targets.Of(FROM) && a.targets.Of(TO) == b.targets.Of(TO);
  }

  /** The submission is turned down: the swap is past joining, the slot is taken by other keys, or the hash text is not
      hex or differs from the one agreed. */
  predicate TurnedDown(s: Swap, role: Role, keys: Keys, text: Option<string>) {
    var slot, gives := s.party.Of(role), role == Alice && text.Some? && text.value != "";
    || !(s.state == Created || s.state == Ready)
    || (slot.Some? && (slot.value.btc != keys.btc || slot.value.qbit != keys.qbit))
    || (gives && !Hex.IsHex(text.value))
    || (gives && slot.None? && s.hashText.Some? && s.hashText.value != text.value)
  }

  /** The record after joining: an empty slot takes the keys, an unset hash the initiator's text. */
  function JoinedBy(s: Swap, role: Role, keys: Keys, text: Option<string>): Swap {
    var party := match role case Alice => ByRole(Some(keys), s.party.bob) case Bob => ByRole(s.party.alice, Some(keys));
    s.(party := party,
       hashText := if s.hashText.Some? then s.hashText else if role == Alice && text.Some? && text.value != "" then text else None)
  }

  /** Everything a derivation needs is there and readable. */
  predicate Derivable(t: Swap) {
    && t.party.alice.Some? && t.party.bob.Some? && t.hashText.Some?
    && (forall role: Role, leg: Leg :: Hex.IsHex(t.party.Of(role).value.Of(leg)))
    && Hex.Decode(t.hashText.value).Ok?
  }

  predicate AllJoined(t: Swap) {
    t.party.alice.Some? && t.party.bob.Some? && t.hashText.Some?
  }

  lemma JoinedIs(s: Swap, role: Role, keys: Keys, text: Option<string>)
    requires !TurnedDown(s, role, keys, text)
    ensures Joined(s, role, keys, text) == JoinedBy(s, role, keys, text)
  {
    hide Hex.IsHex;
  }

  lemma RefusedIs(s: Swap, role: Role, keys: Keys, text: Option<string>)
    ensures SubmitRefused(s, role, keys, text) <==> TurnedDown(s, role, keys, text)
  {
    hide Hex.IsHex;
  }

  lemma HexIs(t: Swap)
    requires AllJoined(t)
    ensures Derivable(t) <==>
            KeysAreHex(t.party.alice.value) && KeysAreHex(t.party.bob.value) && Hex.Decode(t.hashText.value).Ok?
  {
    hide Hex.IsHex, Hex.Decode;
    if KeysAreHex(t.party.alice.value) && KeysAreHex(t.party.bob.value) {
      forall role: Role, leg: Leg ensures Hex.IsHex(t.party.Of(role).value.Of(leg)) {
      }
    }
    if Derivable(t) {
      assert Hex.IsHex(t.party.Of(Alice).value.Of(Btc)) && Hex.IsHex(t.party.Of(Alice).value.Of(Qbit));
      assert Hex.IsHex(t.party.Of(Bob).value.Of(Btc)) && Hex.IsHex(t.party.Of(Bob).value.Of(Qbit));
    }
  }

  /** A submission, for every record and every answer of the nodes: who is turned down, what joining writes, exactly when
      a plan is derived, that it is the one made from these nodes at this call, and exactly when the scripts follow. */
  lemma SubmitExactly(cfg: Config, s: Swap, role: Role, keys: Keys, text: Option<string>, nodes: Per<Node>, now: nat)
    ensures var o, t := SubmitParty(cfg, s, role, keys, text, nodes, now), JoinedBy(s, role, keys, text);
            && o.log == []
            && (TurnedDown(s, role, keys, text) ==> !o.ok && o.s == s)
            && (!TurnedDown(s, role, keys, text) ==>
                  && (!Derivable(t) ==> o.s == t && (o.ok <==> !AllJoined(t)))
                  && (Derivable(t) ==>
                        && o.s.plan.Some? && MadeFrom(cfg, s.terms, nodes, o.s.plan.value)
                        && (o.ok <==> Buildable(cfg, t.hashText.value, t.party.alice.value, t.party.bob.value)
                                      && ValidLocktimes(o.s.plan.value.locktimes))
                        && (!o.ok ==> o.s == t.(plan := o.s.plan))
                        && (o.ok ==>
                              && o.s.htlc.Some?
                              && Script(cfg, FROM, t.hashText.value, t.party.bob.value, t.party.alice.value,
                                        o.s.plan.value.locktimes.Of(FROM)) == Ok(o.s.htlc.value.Of(FROM))
                              && Script(cfg, TO, t.hashText.value, t.party.alice.value, t.party.bob.value,
                                        o.s.plan.value.locktimes.Of(TO)) == Ok(o.s.htlc.value.Of(TO))
                              && o.s == t.(plan := o.s.plan, htlc := o.s.htlc, state := Ready,
                                           readyAt := if s.readyAt.Some? then s.readyAt else Some(now)))))
  {
    hide Hex.IsHex, Hex.Decode, PlanOf, Script, KeysAreHex, Buildable, ValidLocktimes, MadeFrom, Joined, JoinedBy, TurnedDown,
      SubmitRefused, Derivable;
    RefusedIs(s, role, keys, text);
    if !TurnedDown(s, role, keys, text) {
      var t := JoinedBy(s, role, keys, text);
      JoinedIs(s, role, keys, text);
      JoinedFrame(s, role, keys, text);
      if AllJoined(t) {
        HexIs(t);
        PlanIsMade(cfg, t, nodes);
        var plan := PlanOf(cfg, t, nodes);
        BuildSucceeds(cfg, t.hashText.value, t.party.alice.value, t.party.bob.value, plan.locktimes);
      } else {
        NotDerivable(t);
      }
    }
  }

  lemma JoinedFrame(s: Swap, role: Role, keys: Keys, text: Option<string>)
    ensures var t := JoinedBy(s, role, keys, text); t.terms == s.terms && t.readyAt == s.readyAt
  {
  }

  lemma NotDerivable(t: Swap)
    requires !AllJoined(t)
    ensures !Derivable(t)
  {
  }

  // ---------------------------------------------------------------------------
  // What is stored of a bundle
  // ---------------------------------------------------------------------------

  /** Every tier carries the marker where the label names a replay-protected leg. */
  predicate MarkedWhereLabelled(cfg: Config, tag: Option<Leg>, tiers: seq<Tier>) {
    Inspected(cfg, tag) ==> forall tier <- tiers :: HasMarker(tier.tx)
  }

  /** A bundle that may be stored: something to refund with, a claim with tiers if any, a twin sweep only on a fork pair
      and from one leg to the other, and the marker wherever a label asks for it. */
  predicate Storable(cfg: Config, b: Bundle) {
    && |b.refund.tiers| > 0
    && (b.claim.Some? ==> |b.claim.value.tiers| > 0 && MarkedWhereLabelled(cfg, b.claim.value.leg, b.claim.value.tiers))
    && (b.twin.Some? ==>
          var twin := b.twin.value;
          && cfg.forkTwin && |twin.tiers| > 0 && MarkedWhereLabelled(cfg, twin.leg, twin.tiers)
          && Across(twin.leg, twin.fundLeg))
  }

  /** From one leg to the other. */
  predicate Across(a: Option<Leg>, b: Option<Leg>) {
    (a == Some(Btc) && b == Some(Qbit)) || (a == Some(Qbit) && b == Some(Btc))
  }

  lemma AcrossIs(a: Option<Leg>, b: Option<Leg>)
    ensures Across(a, b) <==> a.Some? && b.Some? && a != b
  {
    if a.Some? && b.Some? {
      assert (a.value == Btc || a.value == Qbit) && (b.value == Btc || b.value == Qbit);
    }
  }

  lemma MarkedIs(cfg: Config, tag: Option<Leg>, tiers: seq<Tier>)
    ensures MarkersMissing(cfg, tag, tiers) <==> !MarkedWhereLabelled(cfg, tag, tiers)
  {
    hide TxCodec.DecodeTx, Spend.HasReplayMarker;
    forall k | 0 <= k < |tiers| ensures CarriesMarker(tiers[k].tx) <==> HasMarker(tiers[k].tx) {
    }
  }

  /** A bundle is stored exactly when it may be, for the role that sent it, and nothing else changes. */
  lemma FinishExactly(cfg: Config, s: Swap, role: Role, b: Bundle)
    ensures var o := SubmitFinish(cfg, s, role, b);
            && o.log == [] && (o.ok <==> Storable(cfg, b)) && (!o.ok ==> o.s == s)
            && (o.ok ==> o.s == s.(finish := o.s.finish)
                         && forall r: Role :: o.s.finish.Of(r) == if r == role then Some(b) else s.finish.Of(r))
  {
    hide MarkersMissing, MarkedWhereLabelled, Across;
    if b.claim.Some? {
      MarkedIs(cfg, b.claim.value.leg, b.claim.value.tiers);
    }
    if b.twin.Some? {
      MarkedIs(cfg, b.twin.value.leg, b.twin.value.tiers);
      AcrossIs(b.twin.value.leg, b.twin.value.fundLeg);
    }
  }

  /** Cancelling: refused over any deposit, full or short, and for a finished or canceled swap; otherwise it writes the
      state and who canceled, and nothing else. */
  lemma CancelExactly(s: Swap, role: Role)
    ensures var o := Cancel(s, role);
            var open := s.state != Canceled && s.state != Complete && s.state != Refunded && s.state != Aborted;
            && (o.ok <==> open && forall leg: Leg :: s.funding.Of(leg).None? && s.short.Of(leg).None?)
            && o.log == []
            && o.s == if o.ok then s.(state := Canceled, canceledBy := Some(role)) else s
  {
    if forall leg: Leg :: s.funding.Of(leg).None? && s.short.Of(leg).None? {
      assert s.funding.Of(Btc).None? && s.funding.Of(Qbit).None? && s.short.Of(Btc).None? && s.short.Of(Qbit).None?;
    }
  }
}
