/** Tier-Nolan ordering over whole runs: a reveal leaves the participant time before the initiator can refund. */
module SwapMargin {
  import opened Bytes
  import opened Legs
  import opened SwapState
  import opened SwapSound
  import opened SwapRuns
  import opened SwapSafety
  import opened SwapCalls
  import Depth

  predicate SameDeal(s: Swap, t: Swap) {
    t.plan == s.plan && t.terms == s.terms
  }

  /** Nothing in a call's relays saw another plan than the one the call started and ended with. */
  predicate SamePlan(s: Swap, o: Outcome) {
    SameDeal(s, o.s) && forall e <- o.log :: SameDeal(s, e.before)
  }

  lemma StepPlan(cfg: Config, s: Swap, role: Role, kind: Kind, t: Swap, entries: seq<Entry>)
    requires StepOk(cfg, s, role, kind, t, entries)
    ensures SameDeal(s, t) && forall e <- entries :: SameDeal(s, e.before)
  {
    hide FromBundle, MayStart, LearntFrom;
  }

  lemma AttemptPlan(cfg: Config, base: Swap, o: Outcome, role: Role, kind: Kind, nodes: Per<Node>, now: nat)
    requires SamePlan(base, o)
    ensures SamePlan(base, Attempt(cfg, o, role, kind, nodes, now))
  {
    hide Attempt, StepOk;
    var o' := Attempt(cfg, o, role, kind, nodes, now);
    AttemptSteps(cfg, o, role, kind, nodes, now);
    StepPlan(cfg, o.s, role, kind, o'.s, o'.log[|o.log|..]);
  }

  lemma ResendPlan(cfg: Config, base: Swap, o: Outcome, role: Role, kind: Kind, nodes: Per<Node>, now: nat)
    requires SamePlan(base, o)
    ensures SamePlan(base, Resend(cfg, o, role, kind, nodes, now))
  {
    hide Resend, StepOk;
    var o' := Resend(cfg, o, role, kind, nodes, now);
    ResendSteps(cfg, o, role, kind, nodes, now);
    StepPlan(cfg, o.s, role, kind, o'.s, o'.log[|o.log|..]);
  }

  lemma DrivePlan(cfg: Config, s: Swap, nodes: Per<Node>, after: Per<Node>, now: nat)
    ensures SamePlan(s, Drive(cfg, s, nodes, after, now))
  {
    hide Attempt, Resend, WatchtowerIdle;
    var a := Attempt(cfg, Done(s), Alice, Claim, nodes, now);
    AttemptPlan(cfg, s, Done(s), Alice, Claim, nodes, now);
    var b := Attempt(cfg, a, Bob, Claim, nodes, now);
    AttemptPlan(cfg, s, a, Bob, Claim, nodes, now);
    var c := Attempt(cfg, b, Alice, Refund, nodes, now);
    AttemptPlan(cfg, s, b, Alice, Refund, nodes, now);
    var d := Attempt(cfg, c, Bob, Refund, nodes, now);
    AttemptPlan(cfg, s, c, Bob, Refund, nodes, now);
    var e := Resend(cfg, d, Alice, Claim, after, now);
    ResendPlan(cfg, s, d, Alice, Claim, after, now);
    var f := Resend(cfg, e, Bob, Claim, after, now);
    ResendPlan(cfg, s, e, Bob, Claim, after, now);
    var g := Resend(cfg, f, Alice, Refund, after, now);
    ResendPlan(cfg, s, f, Alice, Refund, after, now);
    ResendPlan(cfg, s, g, Bob, Refund, after, now);
  }

  lemma BroadcastPlan(cfg: Config, s: Swap, leg: Leg, kind: Kind, tx: bytes, node: Node, now: nat)
    ensures SamePlan(s, Broadcast(cfg, s, leg, kind, tx, node, now))
  {
    hide CarriesMarker, RelayGate, FindPreimage;
  }

  // ---------------------------------------------------------------------------
  // The derivation a plan comes from
  // ---------------------------------------------------------------------------

  /** This call derives a plan. */
  predicate Derives(s: Swap, e: Event) {
    e.Submit? && !TurnedDown(s, e.role, e.keys, e.hashText) && Derivable(JoinedBy(s, e.role, e.keys, e.hashText))
  }

  /** The last submission of a run that derived a plan. */
  function LastDerivation(cfg: Config, terms: Terms, events: seq<Event>): (k: Option<nat>)
    ensures k.Some? ==> k.value < |events| && Derives(Run(cfg, terms, events[..k.value]).s, events[k.value])
  {
    if events == [] then None
    else
      var n := |events| - 1;
      if Derives(Run(cfg, terms, events[..n]).s, events[n]) then Some(n)
      else
        var k := LastDerivation(cfg, terms, events[..n]);
        assert k.Some? ==> events[..n][..k.value] == events[..k.value];
        k
  }

  /** A call writes a plan exactly if it derives one, from the nodes it was given, and its relays see the plan there was. */
  lemma ApplyPlan(cfg: Config, s: Swap, e: Event)
    ensures var o := Apply(cfg, s, e);
            && (forall x <- o.log :: SameDeal(s, x.before))
            && (if Derives(s, e) then o.s.plan.Some? && MadeFrom(cfg, s.terms, e.nodes, o.s.plan.value) else o.s.plan == s.plan)
  {
    hide SubmitParty, Poll, Broadcast, Drive, BundleRefused, TurnedDown, Derivable, MadeFrom, JoinedBy, Buildable, ValidLocktimes;
    match e
    case Submit(role, keys, hashText, nodes, now) =>
      SubmitExactly(cfg, s, role, keys, hashText, nodes, now);
      JoinedPlan(s, role, keys, hashText);
    case CancelBy(role) =>
    case PollTick(nodes, now) =>
      PollPlan(cfg, s, nodes, now);
      CallsKeepWt(cfg, s, e);
    case Finish(role, bundle) =>
    case PartySend(leg, kind, tx, node, now) => BroadcastPlan(cfg, s, leg, kind, tx, node, now);
    case WatchTick(nodes, after, now) => DrivePlan(cfg, s, nodes, after, now);
  }

  lemma JoinedPlan(s: Swap, role: Role, keys: Keys, text: Option<string>)
    ensures JoinedBy(s, role, keys, text).plan == s.plan
  {
  }

  /** In every run the plan on record is the one that the last derivation made from the answers of its nodes. */
  lemma {:induction false} PlanIsLastMade(cfg: Config, terms: Terms, events: seq<Event>)
    ensures var s, k := Run(cfg, terms, events).s, LastDerivation(cfg, terms, events);
            && (s.plan.Some? <==> k.Some?)
            && (k.Some? ==> MadeFrom(cfg, terms, events[k.value].nodes, s.plan.value))
  {
    hide Apply, Derives, MadeFrom;
    if events != [] {
      var n := |events| - 1;
      PlanIsLastMade(cfg, terms, events[..n]);
      ApplyPlan(cfg, Run(cfg, terms, events[..n]).s, events[n]);
      SameTerms(cfg, terms, events[..n]);
    }
  }

  /** The relay at this place of the log happened in event n. */
  predicate RelayedIn(cfg: Config, terms: Terms, events: seq<Event>, i: nat, n: nat) {
    n < |events| && |Run(cfg, terms, events[..n]).log| <= i < |Run(cfg, terms, events[..n + 1]).log|
  }

  /** Every relay happened in some event, and saw the plan that the last derivation before it had made. */
  lemma {:induction false} RelayPlan(cfg: Config, terms: Terms, events: seq<Event>, i: nat) returns (n: nat)
    requires i < |Run(cfg, terms, events).log|
    ensures RelayedIn(cfg, terms, events, i, n)
    ensures SameDeal(Run(cfg, terms, events[..n]).s, Run(cfg, terms, events).log[i].before)
  {
    hide Apply, Derives;
    var last := |events| - 1;
    var before := events[..last];
    if i < |Run(cfg, terms, before).log| {
      n := RelayPlan(cfg, terms, before, i);
      assert before[..n] == events[..n] && before[..n + 1] == events[..n + 1];
    } else {
      n := last;
      assert events[..n + 1] == events;
      var s := Run(cfg, terms, before).s;
      ApplyPlan(cfg, s, events[last]);
      assert Run(cfg, terms, events).log[i] in Apply(cfg, s, events[last]).log;
    }
  }

  function HeightsOf(nodes: Per<Node>): Per<nat> {
    Per(nodes.btc.height, nodes.qbit.height)
  }

  /** The two chains at their nominal intervals, counted from these heights: the reveal happens at a time t when TO
      stands at the polled height, the refund at a time when FROM has reached its lock height. */
  predicate OnTime(cfg: Config, s: Swap, heights: Per<nat>, t: real, refundAt: real)
    requires s.plan.Some? && s.heights.Some?
  {
    && Depth.HeightAt(heights.Of(TO), t, cfg.depth.legs.Of(TO).blockSecs) == s.heights.value.Of(TO)
    && Depth.HeightAt(heights.Of(FROM), refundAt, cfg.depth.legs.Of(FROM).blockSecs) >= s.plan.value.locktimes.Of(FROM)
  }

  lemma MadeLeavesTime(cfg: Config, s: Swap, nodes: Per<Node>, t: real, refundAt: real)
    requires cfg.depth.windows.Derived? && Gate(cfg, s) && MadeFrom(cfg, s.terms, nodes, s.plan.value)
    requires OnTime(cfg, s, HeightsOf(nodes), t, refundAt)
    ensures refundAt - t > cfg.depth.windows.fromGapSecs as real
                           + Depth.Times((s.plan.value.targets.Of(TO) + cfg.revealBuffer - 2) as real,
                                         cfg.depth.legs.Of(TO).blockSecs)
  {
    hide Depth.PlanFor, Depth.ToSecs, Buried, Depth.HeightAt, Depth.Times, MadeFrom;
    PlanIsMade(cfg, s, nodes);
    MadeOnce(cfg, s.terms, nodes, s.plan.value, PlanOf(cfg, s, nodes));
    Depth.RevealLeavesTime(cfg.depth, s.terms.btcSats, HeightsOf(nodes), Per(nodes.btc.quote, nodes.qbit.quote),
                           cfg.revealBuffer, t, refundAt);
  }

  /** In every run, whatever relays the first claim of TO: counted at nominal block intervals from the heights that the
      last derivation before it was given, the initiator's refund opens more than the configured gap plus
      (confirmations + buffer - 2) blocks of TO after the reveal. */
  lemma FirstRevealLeavesTime(cfg: Config, terms: Terms, events: seq<Event>, i: nat)
    requires cfg.depth.windows.Derived?
    requires var log := Run(cfg, terms, events).log; i < |log| && IsReveal(log[i]) && !Revealed(log[..i])
    ensures var s := Run(cfg, terms, events).log[i].before;
            && s.plan.Some? && s.heights.Some?
            && exists n: nat, k: nat ::
                 && n < |events| && RelayedIn(cfg, terms, events, i, n) && LastDerivation(cfg, terms, events[..n]) == Some(k)
                 && events[k].Submit? && MadeFrom(cfg, terms, events[k].nodes, s.plan.value)
                 && forall t, refundAt :: OnTime(cfg, s, HeightsOf(events[k].nodes), t, refundAt) ==>
                      refundAt - t > cfg.depth.windows.fromGapSecs as real
                                     + Depth.Times((s.plan.value.targets.Of(TO) + cfg.revealBuffer - 2) as real,
                                                   cfg.depth.legs.Of(TO).blockSecs)
  {
    hide Run, MadeFrom, Buried, Depth.HeightAt, Depth.Times, Derives, OnTime, RelayedIn;
    RevealSafety(cfg, terms, events);
    var s := Run(cfg, terms, events).log[i].before;
    assert Gate(cfg, s);
    var n := RelayPlan(cfg, terms, events, i);
    assert n < |events| by { InRange(cfg, terms, events, i, n); }
    PlanIsLastMade(cfg, terms, events[..n]);
    var k := LastDerivation(cfg, terms, events[..n]).value;
    IsSubmit(Run(cfg, terms, events[..n][..k]).s, events[..n][k]);
    SameTerms(cfg, terms, events[..n]);
    forall t, refundAt | OnTime(cfg, s, HeightsOf(events[k].nodes), t, refundAt)
      ensures refundAt - t > cfg.depth.windows.fromGapSecs as real
                             + Depth.Times((s.plan.value.targets.Of(TO) + cfg.revealBuffer - 2) as real,
                                           cfg.depth.legs.Of(TO).blockSecs)
    {
      MadeLeavesTime(cfg, s, events[k].nodes, t, refundAt);
    }
  }

  lemma InRange(cfg: Config, terms: Terms, events: seq<Event>, i: nat, n: nat)
    requires RelayedIn(cfg, terms, events, i, n)
    ensures n < |events|
  {
  }

  lemma IsSubmit(s: Swap, e: Event)
    requires Derives(s, e)
    ensures e.Submit?
  {
  }
}
