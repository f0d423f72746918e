/** A run in which a swap changes after it was evicted. */
module StoreExhibits {
  import opened Bytes
  import opened Legs
  import opened SwapState
  import opened SwapScenario
  import opened Store
  import SwapExhibits
  import SwapRuns
  import SwapSound
  import Twin

  /** In memory with this record and no twin, and touched. */
  predicate Holds(d: Db, id: Id, s: Swap) {
    && d.backend == Sqlite && id in d.mem && id in d.disk
    && d.mem[id] == Live(Rec(s, Twin.FRESH), Some(SigOf(Rec(s, Twin.FRESH))))
  }

  lemma AfterNext(u: Setup, calls: seq<Call>, c: Call)
    ensures var d := After(u, calls);
            After(u, calls + [c]) == match Effect(u, d, c) case None => d case Some(e) => Store.Apply(d, e)
  {
    hide Effect, Store.Apply;
    assert (calls + [c])[..|calls|] == calls;
    var e := Effect(u, After(u, calls), c);
    if e.Some? {
      Extended(u, Trace(u, calls), e.value);
    }
  }

  lemma HeldFirst(u: Setup, id: Id, terms: Terms)
    requires u.backend == Sqlite
    ensures Holds(After(u, [Starts(id, terms)]), id, Initial(terms))
  {
    hide SigOf;
    AfterNext(u, [], Starts(id, terms));
    assert [] + [Starts(id, terms)] == [Starts(id, terms)];
    CreatedDb(After(u, []), id, Rec(Initial(terms), Twin.FRESH));
  }

  lemma TouchedHolds(d: Db, id: Id, s: Swap, t: Swap)
    requires Holds(d, id, s)
    ensures var d' := Touch(d, id, Rec(t, Twin.FRESH));
            Holds(d', id, t) && (t.state != s.state ==> d'.disk[id] == Rec(t, Twin.FRESH))
  {
  }

  lemma HeldNext(u: Setup, calls: seq<Call>, id: Id, s: Swap, e: SwapRuns.Event)
    requires Holds(After(u, calls), id, s) && SwapRuns.Apply(u.cfg, s, e).ok
    ensures var d, t := After(u, calls + [Calls(id, e)]), SwapRuns.Apply(u.cfg, s, e).s;
            Holds(d, id, t) && (t.state != s.state ==> d.disk[id] == Rec(t, Twin.FRESH))
  {
    hide SwapRuns.Apply, After, SigOf, Touch;
    AfterNext(u, calls, Calls(id, e));
    TouchedHolds(After(u, calls), id, s, SwapRuns.Apply(u.cfg, s, e).s);
  }

  /** A party's refund of FROM, which broadcast relays in any state. */
  function SendRefund(node: Node): SwapRuns.Event {
    SwapRuns.PartySend(FROM, Refund, [], node, 1)
  }

  lemma RefundSent(cfg: Config, s: Swap, node: Node)
    requires forall tx :: node.testAccept(tx)
    ensures var o := SwapRuns.Apply(cfg, s, SendRefund(node));
            && o.ok && o.s.state == Refunded && o.s.settledAt == Some(1)
            && o.s.plan == s.plan && o.s.heights == s.heights && o.s.hashText == s.hashText && o.s.preimage == s.preimage
            && o.s.funding == s.funding.With(FROM, MarkedSpent(s.funding.Of(FROM)))
  {
  }

  lemma Dropped(u: Setup, calls: seq<Call>, id: Id, s: Swap)
    requires Holds(After(u, calls), id, s) && After(u, calls).disk[id] == Rec(s, Twin.FRESH)
    requires Terminal(s.state) && s.settledAt == Some(1)
    ensures var d := After(u, calls + [Cleans(After(u, calls).evictMs + 2)]);
            d.backend == Sqlite && id !in d.mem && id in d.disk && d.disk[id] == Rec(s, Twin.FRESH)
  {
    hide After, SigOf;
    AfterNext(u, calls, Cleans(After(u, calls).evictMs + 2));
  }

  lemma ChangedOnDisk(u: Setup, calls: seq<Call>, id: Id, s: Swap, e: SwapRuns.Event)
    requires var d := After(u, calls); d.backend == Sqlite && id !in d.mem && id in d.disk && d.disk[id] == Rec(s, Twin.FRESH)
    requires SwapRuns.Apply(u.cfg, s, e).ok
    ensures var d := After(u, calls + [Calls(id, e)]);
            d.backend == Sqlite && id !in d.mem && id in d.disk && d.disk[id].s == SwapRuns.Apply(u.cfg, s, e).s
  {
    hide SwapRuns.Apply, After, SigOf;
    AfterNext(u, calls, Calls(id, e));
  }

  /** The four calls after which the swap stands in CLAIMABLE: each returns. */
  lemma HeldClaimable(u: Setup, id: Id, terms: Terms, nodes: Per<Node>, heights: Per<nat>)
    returns (calls: seq<Call>, s: Swap)
    requires u.backend == Sqlite && SwapExhibits.Openable(u.cfg, terms, nodes, heights)
    ensures Holds(After(u, calls), id, s) && s.state == Claimable && RelayGate(u.cfg, s)
    ensures s.preimage.None? && s.hashText == Some(ZeroHashText(u.cfg))
  {
    hide After, Holds, HashText, SwapSound.ValidLocktimes, SubmitParty, SubmitFinish, Poll, PlanOf, Opened, SomeKeys, PlainBundle,
      FundedNodes, RelayGate, SwapSound.Gate, ZeroHashText, CarriesMarker, Opens, PaidIn, Need, Initial;
    var cfg, text := u.cfg, ZeroHashText(u.cfg);
    var a := SwapRuns.Submit(Alice, SomeKeys(cfg), Some(text), nodes, 0);
    var b := SwapRuns.Submit(Bob, SomeKeys(cfg), None, nodes, 0);
    var bundle := PlainBundle(None, []);
    var arm := SwapRuns.Finish(Bob, bundle);
    var poll := SwapRuns.PollTick(FundedNodes(terms, heights, []), 0);
    ZeroHashFits(cfg);
    HeldFirst(u, id, terms);
    AliceJoins(cfg, terms, text, nodes);
    calls := [Starts(id, terms)];
    s := Initial(terms);
    HeldNext(u, calls, id, s, a);
    calls, s := calls + [Calls(id, a)], SubmitParty(cfg, s, Alice, SomeKeys(cfg), Some(text), nodes, 0).s;
    BobJoins(cfg, terms, text, nodes);
    HeldNext(u, calls, id, s, b);
    var plan := PlanOf(cfg, Initial(terms), nodes);
    var ready := Opened(cfg, terms, text, plan);
    calls := calls + [Calls(id, b)];
    SwapExhibits.OpenedIsFresh(cfg, terms, text, plan);
    SwapExhibits.OpenedTerms(cfg, terms, text, plan);
    PlainBundleStored(cfg, ready, Bob, None, []);
    HeldNext(u, calls, id, ready, arm);
    calls, s := calls + [Calls(id, arm)], ready.(finish := ready.finish.With(Bob, Some(bundle)));
    FundingPoll(cfg, s, heights, []);
    HeldNext(u, calls, id, s, poll);
    calls, s := calls + [Calls(id, poll)], Poll(cfg, s, FundedNodes(terms, heights, []), 0).s;
    GateOpens(cfg, ready, Bob, bundle, heights, s);
  }

  /** Whenever the gate can open: some calls leave a swap out of memory although it is only CLAIMED. */
  lemma EvictedReopens(u: Setup, id: Id, terms: Terms, nodes: Per<Node>, heights: Per<nat>)
    requires u.backend == Sqlite && SwapExhibits.Openable(u.cfg, terms, nodes, heights)
    ensures exists calls :: var d := After(u, calls);
              id !in d.mem && id in d.disk && d.disk[id].s.state == Claimed && !AlwaysComplete(u, calls)
  {
    hide After, Holds, RelayGate, ZeroHashText, FundedNodes, Reveal, SendRefund, SwapRuns.Apply, MarkedSpent, AlwaysComplete,
      SwapExhibits.Openable;
    var calls, s := HeldClaimable(u, id, terms, nodes, heights);
    var node := FundedNodes(terms, heights, [Zeros()]).qbit;
    FundedNodesServe(terms, heights);
    RefundSent(u.cfg, s, node);
    HeldNext(u, calls, id, s, SendRefund(node));
    var refunded := SwapRuns.Apply(u.cfg, s, SendRefund(node)).s;
    var sent := calls + [Calls(id, SendRefund(node))];
    Dropped(u, sent, id, refunded);
    var evicted := sent + [Cleans(After(u, sent).evictMs + 2)];
    StillRelays(u.cfg, s, refunded);
    RevealLearns(u.cfg, refunded, node);
    ReturnsWhenRelayed(u.cfg, refunded, node);
    ChangedOnDisk(u, evicted, id, refunded, Reveal(u.cfg, node));
    var all := evicted + [Calls(id, Reveal(u.cfg, node))];
    ClaimedIsMissing(u, all, id);
  }

  lemma ReturnsWhenRelayed(cfg: Config, s: Swap, node: Node)
    requires RelayGate(cfg, s) && forall tx :: node.testAccept(tx)
    ensures SwapRuns.Apply(cfg, s, Reveal(cfg, node)).ok
  {
    hide RelayGate, CarriesMarker, MarkedTx;
    MarkedTxCarries(cfg);
  }

  lemma ClaimedIsMissing(u: Setup, calls: seq<Call>, id: Id)
    requires var d := After(u, calls); id !in d.mem && id in d.disk && d.disk[id].s.state == Claimed
    ensures !AlwaysComplete(u, calls)
  {
    hide SigOf, Trace, Run, Reference;
    RunInStep(u.backend, u.evictMs, Trace(u, calls));
    SameState(After(u, calls).disk[id], Reference(Trace(u, calls))[id]);
  }

  lemma SameState(a: Rec, b: Rec)
    requires SigOf(a) == SigOf(b)
    ensures a.s.state == b.s.state
  {
  }
}
