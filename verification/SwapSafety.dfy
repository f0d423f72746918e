/** The promises of coordinator/swap.js, over every run. */
module SwapSafety {
  import opened Bytes
  import opened Legs
  import opened SwapState
  import opened SwapSteps
  import opened SwapSound
  import opened SwapRuns
  import Deposit
  import Depth
  import Hex

  // ---------------------------------------------------------------------------
  // Every call keeps the invariants
  // ---------------------------------------------------------------------------

  lemma ApplyKept(cfg: Config, s: Swap, e: Event)
    ensures Kept(s, Apply(cfg, s, e).s)
  {
    hide Kept, SubmitParty, Poll, BundleRefused, Broadcast, Drive;
    SameKept(s);
    match e
    case Submit(role, keys, hashText, nodes, now) => SubmitKept(cfg, s, role, keys, hashText, nodes, now);
    case CancelBy(role) => CancelKept(s, role);
    case PollTick(nodes, now) => PollKept(cfg, s, nodes, now);
    case Finish(role, bundle) => FinishKept(s, s.finish.With(role, Some(bundle)));
    case PartySend(leg, kind, tx, node, now) => BroadcastKept(cfg, s, leg, kind, tx, node, now);
    case WatchTick(nodes, after, now) => DriveKept(cfg, s, nodes, after, now);
  }

  lemma CancelKept(s: Swap, role: Role)
    ensures Kept(s, Cancel(s, role).s)
  {
  }

  lemma FinishKept(s: Swap, finish: ByRole<Option<Bundle>>)
    ensures Kept(s, s.(finish := finish))
  {
  }

  lemma {:induction false} SameTerms(cfg: Config, terms: Terms, events: seq<Event>)
    ensures Run(cfg, terms, events).s.terms == terms
  {
    hide Apply;
    if events != [] {
      SameTerms(cfg, terms, events[..|events| - 1]);
      ApplyKept(cfg, Run(cfg, terms, events[..|events| - 1]).s, events[|events| - 1]);
    }
  }

  lemma SameBooks(cfg: Config, s: Swap, log: seq<Entry>, t: Swap)
    requires Tracked(cfg, s, log) && t.wt == s.wt
    ensures Tracked(cfg, t, log)
  {
    hide FirstRevealGated, Lawful, Watched;
  }

  lemma CallsKeepWt(cfg: Config, s: Swap, e: Event)
    requires !e.PartySend? && !e.WatchTick?
    ensures Apply(cfg, s, e).log == [] && Apply(cfg, s, e).s.wt == s.wt
  {
    hide Build, Hex.Decode, PlanOf, KeysAreHex, MarkersMissing, SubmitRefused, Observe, Regate, RefundOf;
    if e.PollTick? {
      var polled := s.(heights := Some(Per(e.nodes.btc.height, e.nodes.qbit.height)));
      if polled.htlc.Some? {
        ObserveWt(cfg, polled, e.nodes);
        var seen := Observe(cfg, polled, e.nodes);
        if seen.plan.Some? {
          RegateWt(cfg, seen, seen.plan.value, e.nodes, e.now);
        }
      }
    }
  }

  lemma ObserveWt(cfg: Config, s: Swap, nodes: Per<Node>)
    requires s.htlc.Some?
    ensures Observe(cfg, s, nodes).wt == s.wt
  {
    hide Discovered, MarkSpent, FindPreimage, WithConfs, Deposit.HtlcSpk;
    var marked := MarkAllSpent(Discover(cfg, Discover(cfg, s, Btc, nodes.btc), Qbit, nodes.qbit), nodes);
    BackfillWt(cfg, marked, Btc, nodes.btc);
    BackfillWt(cfg, Backfill(cfg, marked, Btc, nodes.btc), Qbit, nodes.qbit);
  }

  lemma BackfillWt(cfg: Config, s: Swap, leg: Leg, node: Node)
    ensures Backfill(cfg, s, leg, node).wt == s.wt
  {
    hide FindPreimage;
  }

  lemma RegateWt(cfg: Config, s: Swap, plan: Depth.Plan, nodes: Per<Node>, now: nat)
    ensures Regate(cfg, s, plan, nodes, now).wt == s.wt
  {
    hide Buried, PreClaimState, TooLate;
  }

  lemma PartySendFine(cfg: Config, h: History, leg: Leg, kind: Kind, tx: bytes, node: Node, now: nat)
    requires Fine(cfg, h.s, h.log)
    ensures var o := Broadcast(cfg, h.s, leg, kind, tx, node, now); Fine(cfg, o.s, h.log + o.log)
  {
    hide Sound, Effects, CarriesMarker, RelayGate, FirstRevealGated, Gate;
    var o := Broadcast(cfg, h.s, leg, kind, tx, node, now);
    BroadcastSound(cfg, h.s, leg, kind, tx, node, now);
    if o.log == [] {
      assert h.log + o.log == h.log;
    } else {
      var txid := node.broadcast(tx);
      EffectsRelayed(cfg, h.s, leg, kind, txid, node.witnessOf(txid), now);
      if RelayGate(cfg, h.s) {
        RelayGateIsGate(cfg, h.s);
      }
      TrackedNext(cfg, h.s, h.log, o.s, o.log[0]);
    }
  }

  lemma ApplySound(cfg: Config, s: Swap, e: Event)
    requires Sound(cfg, s) && !e.PartySend? && !e.WatchTick?
    ensures Sound(cfg, Apply(cfg, s, e).s)
  {
    hide Sound, SubmitParty, Cancel, Poll, SubmitFinish;
    match e
    case Submit(role, keys, hashText, nodes, now) => SubmitSound(cfg, s, role, keys, hashText, nodes, now);
    case CancelBy(role) => CancelSound(cfg, s, role);
    case PollTick(nodes, now) => PollSound(cfg, s, nodes, now);
    case Finish(role, bundle) => FinishSound(cfg, s, role, bundle);
  }

  lemma ApplyFine(cfg: Config, h: History, e: Event)
    requires Fine(cfg, h.s, h.log)
    ensures var o := Apply(cfg, h.s, e); Fine(cfg, o.s, h.log + o.log)
  {
    hide Sound, Tracked, SubmitParty, Cancel, Poll, SubmitFinish, Broadcast, Drive;
    if e.PartySend? {
      PartySendFine(cfg, h, e.leg, e.kind, e.tx, e.node, e.now);
    } else if e.WatchTick? {
      DriveFine(cfg, h.log, h.s, e.nodes, e.after, e.now);
    } else {
      ApplySound(cfg, h.s, e);
      CallsKeepWt(cfg, h.s, e);
      SameBooks(cfg, h.s, h.log, Apply(cfg, h.s, e).s);
      assert h.log + [] == h.log;
    }
  }

  lemma {:induction false} RunFine(cfg: Config, terms: Terms, events: seq<Event>)
    ensures var h := Run(cfg, terms, events); Fine(cfg, h.s, h.log)
  {
    hide Sound, FirstRevealGated, Lawful, Apply;
    if events == [] {
      InitialSound(cfg, terms);
      NothingYet(cfg, terms);
    } else {
      RunFine(cfg, terms, events[..|events| - 1]);
      ApplyFine(cfg, Run(cfg, terms, events[..|events| - 1]), events[|events| - 1]);
    }
  }

  lemma NothingYet(cfg: Config, terms: Terms)
    ensures Tracked(cfg, Initial(terms), [])
  {
    hide Gate;
  }

  // ---------------------------------------------------------------------------
  // Reveal safety
  // ---------------------------------------------------------------------------

  /** Over every run: in CLAIMABLE the gate is open at the last polled heights and the deposit to be claimed is not
      spent; and whatever relays the first claim of TO, the watchtower or broadcast, does so through an open gate. */
  lemma RevealSafety(cfg: Config, terms: Terms, events: seq<Event>)
    ensures var h := Run(cfg, terms, events);
            && (h.s.state == Claimable ==> Gate(cfg, h.s) && !IsSpent(h.s.funding.Of(TO)))
            && (forall i :: 0 <= i < |h.log| && IsReveal(h.log[i]) && !Revealed(h.log[..i]) ==> Gate(cfg, h.log[i].before))
  {
    hide Loose, Counted, Gate, Lawful;
    RunFine(cfg, terms, events);
  }

  /** Over every run: a claim that a party sends on a replay-protected leg carries the replay marker, and so does every
      claim the watchtower relays from a bundle that labels it with a replay-protected leg. */
  lemma ClaimsAreMarked(cfg: Config, terms: Terms, events: seq<Event>)
    ensures forall e <- Run(cfg, terms, events).log ::
              e.kind == Claim && Inspected(cfg, if e.sender.None? then Some(e.leg) else Label(e.before, e.sender.value)) ==>
                CarriesMarker(e.tx)
  {
    hide Sound, FirstRevealGated, CarriesMarker, Label, Inspected;
    RunFine(cfg, terms, events);
    var h := Run(cfg, terms, events);
    assert forall i :: 0 <= i < |h.log| ==> Marked(cfg, h.log[i]);
  }

  /** Over every run, every tier of a stored twin sweep labelled with a replay-protected leg carries the marker, and the
      sweep spends on the other leg than the one it was funded on. */
  lemma TwinsAreMarked(cfg: Config, terms: Terms, events: seq<Event>, role: Role)
    ensures var b := Run(cfg, terms, events).s.finish.Of(role);
            b.Some? && b.value.twin.Some? ==>
              var twin := b.value.twin.value;
              && cfg.forkTwin && twin.tiers != [] && twin.leg.Some? && twin.fundLeg.Some? && twin.leg != twin.fundLeg
              && (cfg.rules.Of(twin.leg.value).replayOpReturn ==> forall tier <- twin.tiers :: CarriesMarker(tier.tx))
  {
    hide Scripted, Known, Weighed, Counted, Gated, Tracked, CarriesMarker;
    RunFine(cfg, terms, events);
  }

  /** Over every run the watchtower relays no abort refund once the preimage is known and no claim while a leg is
      recorded underfunded. */
  lemma WatchtowerLawful(cfg: Config, terms: Terms, events: seq<Event>)
    ensures var log := Run(cfg, terms, events).log;
            forall i :: 0 <= i < |log| && log[i].sender.Some? ==>
              && log[i].leg == LegOf(log[i].sender.value, log[i].kind)
              && (log[i].kind == Refund ==> log[i].before.preimage.None?)
              && (log[i].kind == Claim ==> !ShortFunded(log[i].before))
  {
    hide Sound, FirstRevealGated;
    RunFine(cfg, terms, events);
    var h := Run(cfg, terms, events);
    assert forall i :: 0 <= i < |h.log| ==> Lawful(cfg, h.log[i]);
  }

  // ---------------------------------------------------------------------------
  // Never both sides
  // ---------------------------------------------------------------------------

  lemma PollStopped(cfg: Config, s: Swap, nodes: Per<Node>, now: nat)
    requires Stopped(s.state)
    ensures var t := Poll(cfg, s, nodes, now).s;
            && (t.state == s.state || t.state == Complete) && t.plan == s.plan
            && (Terminal(s.state) ==> t == s)
  {
    hide Observe, Buried, PreClaimState, TooLate, RefundOf;
    var polled := s.(heights := Some(Per(nodes.btc.height, nodes.qbit.height)));
    if polled.htlc.Some? {
      ObserveState(cfg, polled, nodes);
    }
  }

  lemma PollPlan(cfg: Config, s: Swap, nodes: Per<Node>, now: nat)
    ensures Poll(cfg, s, nodes, now).s.plan == s.plan
  {
    hide Observe, Buried, PreClaimState, TooLate, RefundOf;
    var polled := s.(heights := Some(Per(nodes.btc.height, nodes.qbit.height)));
    if polled.htlc.Some? {
      ObserveState(cfg, polled, nodes);
    }
  }

  lemma SubmitTargets(cfg: Config, s: Swap, role: Role, keys: Keys, hashText: Option<string>, nodes: Per<Node>, now: nat)
    ensures var t := SubmitParty(cfg, s, role, keys, hashText, nodes, now).s;
            && (t.plan == s.plan || (t.plan.Some? && t.plan.value.targets.Of(TO) >= Depth.LeastConfs(cfg.depth, TO, s.terms.btcSats)))
            && (s.state != Created && s.state != Ready ==> t == s)
  {
    hide Build, Hex.Decode, KeysAreHex, Depth.ReorgConfs, Depth.LeastConfs, Depth.LocktimeBlocks, Depth.ToSecs;
    Depth.NoGateBelowLeast(cfg.depth, TO, s.terms.btcSats, nodes.btc.height, nodes.qbit.quote);
  }

  lemma CallsSided(cfg: Config, s: Swap, log: seq<Entry>, e: Event)
    requires OneSided(cfg, s, log) && !e.PartySend? && !e.WatchTick?
    ensures OneSided(cfg, Apply(cfg, s, e).s, log)
  {
    hide SubmitParty, Poll, BundleRefused, Watched;
    match e
    case Submit(role, keys, hashText, nodes, now) =>
      SubmitTargets(cfg, s, role, keys, hashText, nodes, now);
      SubmitKept(cfg, s, role, keys, hashText, nodes, now);
    case CancelBy(role) =>
    case PollTick(nodes, now) =>
      PollKept(cfg, s, nodes, now);
      PollPlan(cfg, s, nodes, now);
      if Stopped(s.state) {
        PollStopped(cfg, s, nodes, now);
      }
    case Finish(role, bundle) =>
  }

  lemma PartySendSided(cfg: Config, s: Swap, log: seq<Entry>, leg: Leg, kind: Kind, tx: bytes, node: Node, now: nat)
    requires OneSided(cfg, s, log)
    ensures var o := Broadcast(cfg, s, leg, kind, tx, node, now); OneSided(cfg, o.s, log + o.log)
  {
    hide Effects, CarriesMarker, Watched, RelayBuried, LearntFrom;
    var o := Broadcast(cfg, s, leg, kind, tx, node, now);
    BroadcastKept(cfg, s, leg, kind, tx, node, now);
    if o.log == [] {
      assert log + o.log == log;
    } else {
      var txid := node.broadcast(tx);
      EffectsRelayed(cfg, s, leg, kind, txid, node.witnessOf(txid), now);
      WatchedNext(log, o.log[0], Alice, Claim);
      WatchedNext(log, o.log[0], Alice, Refund);
      WatchedNext(log, o.log[0], Bob, Claim);
      WatchedNext(log, o.log[0], Bob, Refund);
    }
  }

  lemma ApplySided(cfg: Config, h: History, e: Event)
    requires Fine(cfg, h.s, h.log) && OneSided(cfg, h.s, h.log)
    requires AllTruthful(cfg, Apply(cfg, h.s, e).log)
    ensures var o := Apply(cfg, h.s, e); OneSided(cfg, o.s, h.log + o.log)
  {
    hide Sound, Tracked, Truthful, OneSided, SubmitParty, Cancel, Poll, SubmitFinish, Broadcast, Drive;
    if e.PartySend? {
      PartySendSided(cfg, h.s, h.log, e.leg, e.kind, e.tx, e.node, e.now);
    } else if e.WatchTick? {
      DriveSided(cfg, h.log, h.s, e.nodes, e.after, e.now);
    } else {
      CallsSided(cfg, h.s, h.log, e);
      CallsKeepWt(cfg, h.s, e);
      assert h.log + [] == h.log;
    }
  }

  lemma {:induction false} RunSided(cfg: Config, terms: Terms, events: seq<Event>)
    requires AllTruthful(cfg, Run(cfg, terms, events).log)
    ensures var h := Run(cfg, terms, events); OneSided(cfg, h.s, h.log)
  {
    hide Fine, Apply, Truthful;
    if events == [] {
      assert OneSided(cfg, Initial(terms), []);
    } else {
      var h := Run(cfg, terms, events[..|events| - 1]);
      var o := Apply(cfg, h.s, events[|events| - 1]);
      TruthfulParts(cfg, h.log, o.log);
      RunSided(cfg, terms, events[..|events| - 1]);
      RunFine(cfg, terms, events[..|events| - 1]);
      ApplySided(cfg, h, events[|events| - 1]);
    }
  }

  lemma TruthfulParts(cfg: Config, a: seq<Entry>, b: seq<Entry>)
    requires AllTruthful(cfg, a + b)
    ensures AllTruthful(cfg, a) && AllTruthful(cfg, b)
  {
    hide Truthful;
    assert forall e :: e in a ==> e in a + b;
    assert forall e :: e in b ==> e in a + b;
  }

  /** In no run has the watchtower relayed both a claim and a refund for the same party, provided its accepted claims
      for the initiator carry the preimage of a canonically written hash and, for the participant, the configuration
      keeps claims off the lock height. */
  lemma NeverBothSides(cfg: Config, terms: Terms, events: seq<Event>, role: Role)
    requires AllTruthful(cfg, Run(cfg, terms, events).log)
    requires role == Bob ==> Guarded(cfg, terms)
    ensures var log := Run(cfg, terms, events).log; !(Watched(log, role, Claim) && Watched(log, role, Refund))
  {
    hide Truthful, Watched, Guarded;
    RunSided(cfg, terms, events);
    SameTerms(cfg, terms, events);
  }
}
