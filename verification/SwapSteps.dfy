/** What every single operation of coordinator/swap.js keeps. */
module SwapSteps {
  import opened Bytes
  import opened Legs
  import opened SwapState
  import Deposit
  import Depth
  import Hex

  // ---------------------------------------------------------------------------
  // What is written once, or only grows
  // ---------------------------------------------------------------------------

  predicate Once<T(==)>(a: Option<T>, b: Option<T>) {
    a.Some? ==> b == a
  }

  predicate Confirmed(f: Option<Funding>) {
    f.Some? && f.value.height.Some?
  }

  /** A confirmed deposit keeps its outpoint, amount and height, and once spent it stays spent. */
  predicate DepositKept(a: Option<Funding>, b: Option<Funding>) {
    Confirmed(a) ==>
      && b.Some?
      && b.value.at == a.value.at && b.value.amount == a.value.amount && b.value.height == a.value.height
      && (a.value.spent ==> b.value.spent)
  }

  /** Hash, keys and preimage are set once; confirmed deposits stay; an underfunded leg stays recorded as one. */
  predicate Kept(s: Swap, t: Swap) {
    && t.terms == s.terms
    && Once(s.hashText, t.hashText)
    && Once(s.party.alice, t.party.alice) && Once(s.party.bob, t.party.bob)
    && Once(s.preimage, t.preimage)
    && DepositKept(s.funding.btc, t.funding.btc) && DepositKept(s.funding.qbit, t.funding.qbit)
    && (s.short.btc.Some? ==> t.short.btc.Some?) && (s.short.qbit.Some? ==> t.short.qbit.Some?)
    && (s.htlc.Some? ==> t.htlc.Some?)
  }

  lemma KeptTransitive(a: Swap, b: Swap, c: Swap)
    requires Kept(a, b) && Kept(b, c)
    ensures Kept(a, c)
  {
  }

  lemma JoinedKept(s: Swap, role: Role, keys: Keys, hashText: Option<string>)
    ensures Kept(s, Joined(s, role, keys, hashText))
  {
  }

  lemma DeriveKept(cfg: Config, s: Swap, nodes: Per<Node>, now: nat)
    requires s.hashText.Some? && s.party.alice.Some? && s.party.bob.Some?
    ensures Kept(s, Derive(cfg, s, nodes, now).s)
  {
    hide Build, PlanOf, Hex.Decode;
  }

  lemma SubmitKept(cfg: Config, s: Swap, role: Role, keys: Keys, hashText: Option<string>, nodes: Per<Node>, now: nat)
    ensures Kept(s, SubmitParty(cfg, s, role, keys, hashText, nodes, now).s)
  {
    hide Derive, KeysAreHex, SubmitRefused, Joined, Kept;
    SameKept(s);
    var joined := Joined(s, role, keys, hashText);
    JoinedKept(s, role, keys, hashText);
    if joined.hashText.Some? && joined.party.alice.Some? && joined.party.bob.Some? {
      DeriveKept(cfg, joined, nodes, now);
      KeptTransitive(s, joined, Derive(cfg, joined, nodes, now).s);
    }
  }

  lemma DiscoverKept(cfg: Config, s: Swap, leg: Leg, node: Node)
    requires s.htlc.Some?
    ensures Discover(cfg, s, leg, node).htlc.Some?
    ensures Kept(s, Discover(cfg, s, leg, node))
  {
    hide Deposit.HtlcSpk, Need, Discovered;
    DiscoveredKept(s.funding.Of(leg), s.short.Of(leg), Need(s.terms, leg),
                   node.findOutput(Deposit.HtlcSpk(cfg.rules.Of(leg).family, cfg.sha, s.htlc.value.Of(leg))));
  }

  lemma DiscoveredKept(cur: Option<Funding>, short: Option<Funding>, need: nat, o: Option<Output>)
    ensures var r := Discovered(cur, short, need, o); DepositKept(cur, r.0) && (short.Some? ==> r.1.Some?)
  {
  }

  lemma BackfillKept(cfg: Config, s: Swap, leg: Leg, node: Node)
    ensures Kept(s, Backfill(cfg, s, leg, node))
  {
    hide FindPreimage;
  }

  lemma MarkKept(s: Swap, nodes: Per<Node>)
    ensures Kept(s, MarkAllSpent(s, nodes)) && Kept(s, CountConfs(s, nodes))
  {
  }

  lemma ObserveKept(cfg: Config, s: Swap, nodes: Per<Node>)
    requires s.htlc.Some?
    ensures Kept(s, Observe(cfg, s, nodes))
  {
    hide Discover, Backfill, MarkAllSpent, CountConfs, Kept;
    var found := Discover(cfg, s, Btc, nodes.btc);
    DiscoverKept(cfg, s, Btc, nodes.btc);
    var both := Discover(cfg, found, Qbit, nodes.qbit);
    var marked := MarkAllSpent(both, nodes);
    var filled := Backfill(cfg, marked, Btc, nodes.btc);
    var all := Backfill(cfg, filled, Qbit, nodes.qbit);
    DiscoverKept(cfg, found, Qbit, nodes.qbit);
    MarkKept(both, nodes);
    BackfillKept(cfg, marked, Btc, nodes.btc);
    BackfillKept(cfg, filled, Qbit, nodes.qbit);
    MarkKept(all, nodes);
    KeptTransitive(s, found, both);
    KeptTransitive(s, both, marked);
    KeptTransitive(s, marked, filled);
    KeptTransitive(s, filled, all);
    KeptTransitive(s, all, CountConfs(all, nodes));
  }

  lemma RegateKept(cfg: Config, s: Swap, plan: Depth.Plan, nodes: Per<Node>, now: nat)
    ensures Kept(s, Regate(cfg, s, plan, nodes, now))
  {
    hide Buried, PreClaimState, TooLate;
  }

  lemma SettleKept(s: Swap, plan: Depth.Plan, nodes: Per<Node>, now: nat)
    ensures Kept(s, SurfaceRefunds(Settle(s, now), plan, nodes))
  {
    hide RefundOf;
  }

  lemma PollKept(cfg: Config, s: Swap, nodes: Per<Node>, now: nat)
    ensures Kept(s, Poll(cfg, s, nodes, now).s)
  {
    hide Observe, Regate, Settle, SurfaceRefunds, Kept;
    SameKept(s);
    var polled := s.(heights := Some(Per(nodes.btc.height, nodes.qbit.height)));
    HeightsKept(s, polled.heights);
    if polled.htlc.Some? {
      var seen := Observe(cfg, polled, nodes);
      ObserveKept(cfg, polled, nodes);
      KeptTransitive(s, polled, seen);
      if seen.plan.Some? {
        var gated := Regate(cfg, seen, seen.plan.value, nodes, now);
        RegateKept(cfg, seen, seen.plan.value, nodes, now);
        SettleKept(gated, seen.plan.value, nodes, now);
        KeptTransitive(s, seen, gated);
        KeptTransitive(s, gated, SurfaceRefunds(Settle(gated, now), seen.plan.value, nodes));
      }
    }
  }

  lemma HeightsKept(s: Swap, heights: Option<Per<nat>>)
    ensures Kept(s, s.(heights := heights))
  {
  }

  lemma EffectsKept(cfg: Config, s: Swap, leg: Leg, kind: Kind, txid: bytes, wit: seq<bytes>, now: nat)
    ensures Kept(s, Effects(cfg, s, leg, kind, txid, wit, now))
  {
    hide FindPreimage;
  }

  lemma BroadcastKept(cfg: Config, s: Swap, leg: Leg, kind: Kind, tx: bytes, node: Node, now: nat)
    ensures Kept(s, Broadcast(cfg, s, leg, kind, tx, node, now).s)
  {
    hide Effects, CarriesMarker, RelayGate, Kept;
    SameKept(s);
    EffectsKept(cfg, s, leg, kind, node.broadcast(tx), node.witnessOf(node.broadcast(tx)), now);
  }

  lemma SameKept(s: Swap)
    ensures Kept(s, s)
  {
  }

  lemma WtKept(s: Swap, wt: map<(Role, Kind), WtRecord>)
    ensures Kept(s, s.(wt := wt))
  {
  }

  lemma SendKept(cfg: Config, s: Swap, role: Role, kind: Kind, b: Ladder, tier: int, node: Node, now: nat)
    ensures var r := Send(cfg, s, role, kind, b, tier, node, now); r.Sent? ==> Kept(s, r.s)
  {
    hide Effects, TierTx, Kept;
    if TierTx(s, kind, b, tier).Ok? {
      var txid := node.broadcast(TierTx(s, kind, b, tier).value);
      var leg := LegOf(role, kind);
      var recorded := s.(wt := s.wt[(role, kind) := WtRecord(txid, tier, HeightOf(s, leg), now)]);
      WtKept(s, recorded.wt);
      EffectsKept(cfg, recorded, leg, kind, txid, node.witnessOf(txid), now);
      KeptTransitive(s, recorded, Effects(cfg, recorded, leg, kind, txid, node.witnessOf(txid), now));
    }
  }

  lemma AttemptKept(cfg: Config, o: Outcome, role: Role, kind: Kind, nodes: Per<Node>, now: nat)
    ensures Kept(o.s, Attempt(cfg, o, role, kind, nodes, now).s)
  {
    hide Send, PickTier, Kept;
    SameKept(o.s);
    if LadderOf(o.s, role, kind).Some? {
      var leg := LegOf(role, kind);
      var b := LadderOf(o.s, role, kind).value;
      SendKept(cfg, o.s, role, kind, b, PickTier(leg, b.tiers, 0, nodes.Of(leg).fastestFee), nodes.Of(leg), now);
    }
  }

  lemma ResendKept(cfg: Config, o: Outcome, role: Role, kind: Kind, nodes: Per<Node>, now: nat)
    ensures Kept(o.s, Resend(cfg, o, role, kind, nodes, now).s)
  {
    hide Send, PickTier, Kept;
    SameKept(o.s);
    if Resends(o.s, role, kind, nodes.Of(LegOf(role, kind))) {
      var leg := LegOf(role, kind);
      var b := LadderOf(o.s, role, kind).value;
      var tier := Depth.Max(o.s.wt[(role, kind)].tier, PickTier(leg, b.tiers, 0, nodes.Of(leg).fastestFee));
      var dropped := o.s.(wt := o.s.wt - {(role, kind)});
      WtKept(o.s, dropped.wt);
      SendKept(cfg, dropped, role, kind, b, tier, nodes.Of(leg), now);
      if Send(cfg, dropped, role, kind, b, tier, nodes.Of(leg), now).Sent? {
        KeptTransitive(o.s, dropped, Send(cfg, dropped, role, kind, b, tier, nodes.Of(leg), now).s);
      }
    }
  }

  lemma DriveKept(cfg: Config, s: Swap, nodes: Per<Node>, after: Per<Node>, now: nat)
    ensures Kept(s, Drive(cfg, s, nodes, after, now).s)
  {
    hide Attempt, Resend, WatchtowerIdle, Kept;
    SameKept(s);
    var a := Attempt(cfg, Done(s), Alice, Claim, nodes, now);
    var b := Attempt(cfg, a, Bob, Claim, nodes, now);
    var c := Attempt(cfg, b, Alice, Refund, nodes, now);
    var d := Attempt(cfg, c, Bob, Refund, nodes, now);
    AttemptKept(cfg, Done(s), Alice, Claim, nodes, now);
    AttemptKept(cfg, a, Bob, Claim, nodes, now);
    AttemptKept(cfg, b, Alice, Refund, nodes, now);
    AttemptKept(cfg, c, Bob, Refund, nodes, now);
    KeptTransitive(s, a.s, b.s);
    KeptTransitive(s, b.s, c.s);
    KeptTransitive(s, c.s, d.s);
    var e := Resend(cfg, d, Alice, Claim, after, now);
    var f := Resend(cfg, e, Bob, Claim, after, now);
    var g := Resend(cfg, f, Alice, Refund, after, now);
    ResendKept(cfg, d, Alice, Claim, after, now);
    ResendKept(cfg, e, Bob, Claim, after, now);
    ResendKept(cfg, f, Alice, Refund, after, now);
    ResendKept(cfg, g, Bob, Refund, after, now);
    KeptTransitive(s, d.s, e.s);
    KeptTransitive(s, e.s, f.s);
    KeptTransitive(s, f.s, g.s);
    KeptTransitive(s, g.s, Resend(cfg, g, Bob, Refund, after, now).s);
  }
}
