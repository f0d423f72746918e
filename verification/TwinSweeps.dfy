/** When a replayed deposit is recorded and swept: both ways, from the looks' answers. */
module TwinSweeps {
  import opened Bytes
  import opened Legs
  import opened SwapState
  import opened Twin
  import SwapCalls
  import SwapTicks

  // ---------------------------------------------------------------------------
  // One role's turn
  // ---------------------------------------------------------------------------

  /** The role left a ladder for a twin, is not done with it, and the deposit it is for is on record. */
  predicate Handled(l: Look, w: Sweeper, role: Role, b: TwinLadder, f: Funding) {
    && l.s.finish.Of(role).Some? && l.s.finish.Of(role).value.twin == Some(b)
    && b.tiers != [] && b.leg.Some? && b.fundLeg.Some?
    && (w.marks.Of(role).Some? ==> !w.marks.Of(role).value.done)
    && SwapTicks.Deposited(l.s, b.fundLeg.value, f)
  }

  /** The twin is on record, or the other chain shows it now. */
  predicate Seen(l: Look, w: Sweeper, b: TwinLadder, f: Funding)
    requires b.leg.Some? && b.fundLeg.Some?
  {
    w.found.Of(b.fundLeg.value).Some? || l.nodes.Of(b.leg.value).isUnspent(f.at)
  }

  predicate SpentAtHome(l: Look, b: TwinLadder, f: Funding)
    requires b.fundLeg.Some?
  {
    !l.nodes.Of(b.fundLeg.value).isUnspent(f.at)
  }

  /** When the home spend was first seen, this look included. */
  function Dated(l: Look, w: Sweeper, b: TwinLadder, f: Funding): Option<nat>
    requires b.fundLeg.Some?
  {
    var known := match w.found.Of(b.fundLeg.value) case None => None case Some(t) => t.homeSpentAt;
    if known.None? && SpentAtHome(l, b, f) then Some(l.now) else known
  }

  function Lock(l: Look, b: TwinLadder): int
    requires b.fundLeg.Some? && l.s.plan.Some?
  {
    l.s.plan.value.locktimes.Of(b.fundLeg.value)
  }

  /** Spent at home, the delay ago, and the twin chain is at the lock height. */
  predicate Ripe(rules: Rules, l: Look, w: Sweeper, b: TwinLadder, f: Funding)
    requires b.leg.Some? && b.fundLeg.Some? && l.s.plan.Some?
  {
    && SpentAtHome(l, b, f) && Dated(l, w, b, f).Some? && Dated(l, w, b, f).value + rules.delayMs <= l.now
    && Lock(l, b) <= l.nodes.Of(b.leg.value).height
  }

  function Floor(w: Sweeper, role: Role): nat {
    match w.marks.Of(role) case None => 0 case Some(m) => m.tier
  }

  /** The first tier from `start` on that the twin chain's node takes. */
  predicate FirstTaken(b: TwinLadder, start: int, node: TwinNode, k: int) {
    && 0 <= start <= k < |b.tiers| && node.judge(b.tiers[k].tx).Allowed?
    && forall j :: start <= j < k ==> node.judge(b.tiers[j].tx).Denied?
  }

  predicate NoneTaken(b: TwinLadder, start: int, node: TwinNode) {
    0 <= start < |b.tiers| && forall j :: start <= j < |b.tiers| ==> node.judge(b.tiers[j].tx).Denied?
  }

  /** What every turn with a twin in sight leaves on the twin's record. */
  predicate OnRecord(l: Look, w: Sweeper, b: TwinLadder, f: Funding, w': Sweeper)
    requires b.leg.Some? && b.fundLeg.Some? && l.s.plan.Some?
  {
    var leg := b.fundLeg.value;
    var was, now := w.found.Of(leg), w'.found.Of(leg);
    && now.Some?
    && now.value.detectedAt == (if was.Some? then was.value.detectedAt else l.now)
    && now.value.lockHeight == (if was.Some? && was.value.lockHeight.Some? then was.value.lockHeight else Some(Lock(l, b)))
    && now.value.homeSpentAt == Dated(l, w, b, f)
  }

  /** Nothing but this leg's twin record and this role's mark changes. */
  predicate OnlyTurn(o: Probed, role: Role, leg: Leg, o': Probed) {
    && o'.w.probedAt == o.w.probedAt
    && (forall other: Leg :: other != leg ==> o'.w.found.Of(other) == o.w.found.Of(other))
    && (forall r: Role :: r != role ==> o'.w.marks.Of(r) == o.w.marks.Of(r))
  }

  function Resolved(w: Sweeper, leg: Leg): Option<Resolution> {
    match w.found.Of(leg) case None => None case Some(t) => t.resolved
  }

  lemma TurnsLadder(l: Look, w: Sweeper, role: Role, b: TwinLadder, f: Funding)
    requires Handled(l, w, role, b, f)
    ensures LadderFor(l.s, role) == Some(b) && Recoverable(l.s, b.fundLeg.value) == Some(f) && !IsDone(w, role)
  {
  }

  lemma NoTurn(rules: Rules, l: Look, o: Probed, role: Role)
    requires l.s.plan.Some? && forall b, f :: !Handled(l, o.w, role, b, f)
    ensures ProbeRole(rules, l.s, o, role, l.nodes, l.now) == o
  {
    hide Watch, HeldBack, Launch, Handled;
    var ladder := LadderFor(l.s, role);
    if ladder.Some? && !IsDone(o.w, role) && Recoverable(l.s, ladder.value.fundLeg.value).Some? {
      LadderHandled(l, o.w, role, ladder.value, Recoverable(l.s, ladder.value.fundLeg.value).value);
    }
  }

  lemma LadderHandled(l: Look, w: Sweeper, role: Role, b: TwinLadder, f: Funding)
    requires LadderFor(l.s, role) == Some(b) && !IsDone(w, role) && Recoverable(l.s, b.fundLeg.value) == Some(f)
    ensures Handled(l, w, role, b, f)
  {
  }

  /** A turn with nothing in sight, or with a twin that is not ripe. */
  lemma EarlyTurn(rules: Rules, l: Look, o: Probed, role: Role, b: TwinLadder, f: Funding)
    requires l.s.plan.Some? && o.ok && Handled(l, o.w, role, b, f)
    ensures var o' := ProbeRole(rules, l.s, o, role, l.nodes, l.now);
            && (!Seen(l, o.w, b, f) ==> o' == o)
            && (Seen(l, o.w, b, f) && !Ripe(rules, l, o.w, b, f) ==>
                  && o'.ok && o'.sweeps == o.sweeps && o'.w.marks == o.w.marks && OnlyTurn(o, role, b.fundLeg.value, o')
                  && OnRecord(l, o.w, b, f, o'.w) && Resolved(o'.w, b.fundLeg.value) == Resolved(o.w, b.fundLeg.value)
                  && o'.w.found.Of(b.fundLeg.value).value.waiting
                     == Some(if !SpentAtHome(l, b, f) then HomeUnspent
                             else if l.now < Dated(l, o.w, b, f).value + rules.delayMs then ReorgDelay else BelowLock))
  {
    hide Launch, Handled, LadderFor, Recoverable;
    TurnsLadder(l, o.w, role, b, f);
    HandledHas(l, o.w, role, b, f);
  }

  lemma HandledHas(l: Look, w: Sweeper, role: Role, b: TwinLadder, f: Funding)
    requires Handled(l, w, role, b, f)
    ensures b.tiers != [] && b.leg.Some? && b.fundLeg.Some? && !IsDone(w, role)
  {
  }

  lemma TakenIs(b: TwinLadder, start: nat, node: TwinNode, k: int)
    ensures FirstTaken(b, start, node, k) <==> start < |b.tiers| && FirstAllowed(b.tiers, start, node.judge) == Some(k)
    ensures NoneTaken(b, start, node) <==> start < |b.tiers| && FirstAllowed(b.tiers, start, node.judge).None?
  {
    hide FirstAllowed;
  }

  /** What a launch makes of the records. */
  ghost predicate LaunchedAs(l: Look, o: Probed, role: Role, b: TwinLadder, start: int, o': Probed)
    requires b.leg.Some? && b.fundLeg.Some?
  {
    var twin, leg := l.nodes.Of(b.leg.value), b.fundLeg.value;
    && (o'.ok <==> 0 <= start < |b.tiers|)
    && (!o'.ok ==> o'.sweeps == o.sweeps && o'.w.marks == o.w.marks)
    && (forall k :: FirstTaken(b, start, twin, k) ==>
          && o'.sweeps == o.sweeps + [Sweep(role, leg, k, b.tiers[k].tx, l.now)]
          && o'.w.marks.Of(role) == Some(Mark(true, k))
          && Resolved(o'.w, leg) == Some(Swept(twin.broadcast(b.tiers[k].tx))))
    && (NoneTaken(b, start, twin) ==>
          && o'.sweeps == o.sweeps && Resolved(o'.w, leg) == Resolved(o.w, leg)
          && o'.w.marks.Of(role) == (if twin.judge(b.tiers[|b.tiers| - 1].tx).economic
                                     then Some(Mark(false, |b.tiers| - 1)) else o.w.marks.Of(role)))
  }

  predicate SameDates(a: Found, b: Found) {
    a.detectedAt == b.detectedAt && a.lockHeight == b.lockHeight && a.homeSpentAt == b.homeSpentAt
  }

  lemma LaunchExactly(l: Look, o: Probed, role: Role, b: TwinLadder, t: Found)
    requires o.ok && b.leg.Some? && b.fundLeg.Some? && b.tiers != [] && t.resolved == Resolved(o.w, b.fundLeg.value)
    ensures var twin, leg := l.nodes.Of(b.leg.value), b.fundLeg.value;
            var o' := Launch(o, l.s, role, leg, b, t, twin, l.now);
            && OnlyTurn(o, role, leg, o')
            && o'.w.found.Of(leg).Some? && SameDates(o'.w.found.Of(leg).value, t)
            && LaunchedAs(l, o, role, b, StartTier(o.w, role, b, twin), o')
  {
    hide FirstAllowed, PickTier, FirstTaken, NoneTaken;
    var twin := l.nodes.Of(b.leg.value);
    var start := StartTier(o.w, role, b, twin);
    if 0 <= start < |b.tiers| {
      forall k ensures FirstTaken(b, start, twin, k) <==> FirstAllowed(b.tiers, start, twin.judge) == Some(k) {
        TakenIs(b, start, twin, k);
      }
      TakenIs(b, start, twin, 0);
    } else {
      NotTaken(b, start, twin);
    }
  }

  /** The record a ripe twin gets before it is handled. */
  lemma RipeRecord(rules: Rules, l: Look, w: Sweeper, b: TwinLadder, f: Funding)
    requires b.leg.Some? && b.fundLeg.Some? && l.s.plan.Some? && Seen(l, w, b, f) && Ripe(rules, l, w, b, f)
    ensures var home, twin, leg := l.nodes.Of(b.fundLeg.value), l.nodes.Of(b.leg.value), b.fundLeg.value;
            var t := Watch(w.found.Of(leg), f.at, Lock(l, b), home, twin, l.now);
            && t.Some? && HeldBack(rules, t.value, f.at, Lock(l, b), home, twin, l.now).None?
            && OnRecord(l, w, b, f, Put(w, leg, t.value)) && t.value.resolved == Resolved(w, leg)
  {
  }

  lemma SameRecord(l: Look, w: Sweeper, b: TwinLadder, f: Funding, w': Sweeper, t: Found)
    requires b.leg.Some? && b.fundLeg.Some? && l.s.plan.Some? && OnRecord(l, w, b, f, Put(w, b.fundLeg.value, t))
    requires w'.found.Of(b.fundLeg.value).Some? && SameDates(w'.found.Of(b.fundLeg.value).value, t)
    ensures OnRecord(l, w, b, f, w')
  {
  }

  /** A turn with a ripe twin: swept by someone else already, or swept now at the first tier the node takes from the
      starting one, or kept waiting; a starting tier that is not there throws. */
  lemma RipeTurn(rules: Rules, l: Look, o: Probed, role: Role, b: TwinLadder, f: Funding)
    requires l.s.plan.Some? && o.ok && Handled(l, o.w, role, b, f) && Seen(l, o.w, b, f) && Ripe(rules, l, o.w, b, f)
    ensures var o', twin, leg := ProbeRole(rules, l.s, o, role, l.nodes, l.now), l.nodes.Of(b.leg.value), b.fundLeg.value;
            && OnlyTurn(o, role, leg, o') && OnRecord(l, o.w, b, f, o'.w)
            && (!twin.isUnspent(f.at) ==>
                  o'.ok && o'.sweeps == o.sweeps && IsDone(o'.w, role) && Resolved(o'.w, leg) == Some(External))
            && (twin.isUnspent(f.at) ==>
                  forall start :: SwapTicks.Chosen(b.leg.value, b.tiers, Floor(o.w, role), twin.fastestFee, start) ==>
                    LaunchedAs(l, o, role, b, start, o'))
  {
    hide Handled, LadderFor, Recoverable, PickTier, SwapTicks.Chosen, LaunchedAs, Launch, Watch, HeldBack, OnRecord, Ripe, Seen;
    TurnsLadder(l, o.w, role, b, f);
    HandledHas(l, o.w, role, b, f);
    var home, twin, leg := l.nodes.Of(b.fundLeg.value), l.nodes.Of(b.leg.value), b.fundLeg.value;
    RipeRecord(rules, l, o.w, b, f);
    var t := Watch(o.w.found.Of(leg), f.at, Lock(l, b), home, twin, l.now).value;
    LaunchExactly(l, o, role, b, t);
    var o' := ProbeRole(rules, l.s, o, role, l.nodes, l.now);
    SameRecord(l, o.w, b, f, o'.w, t);
    forall start | SwapTicks.Chosen(b.leg.value, b.tiers, Floor(o.w, role), twin.fastestFee, start)
      ensures start == StartTier(o.w, role, b, twin)
    {
      SwapTicks.PickedIsChosen(b.leg.value, b.tiers, Floor(o.w, role), twin.fastestFee, start);
    }
  }

  lemma NotTaken(b: TwinLadder, start: int, twin: TwinNode)
    requires !(0 <= start < |b.tiers|)
    ensures !NoneTaken(b, start, twin) && forall k :: !FirstTaken(b, start, twin, k)
  {
  }

  // ---------------------------------------------------------------------------
  // A whole look
  // ---------------------------------------------------------------------------

  /** The look is not skipped: a fork pair with contracts, not canceled, and not probed too recently. */
  predicate Probing(rules: Rules, l: Look, w: Sweeper) {
    && rules.forkTwin && l.s.htlc.Some? && l.s.plan.Some? && l.s.state != Created && l.s.state != Canceled
    && (w.probedAt.Some? && w.probedAt.value != 0 ==> l.now >= w.probedAt.value + rules.checkMs)
  }

  /** Everything is there for a sweep of this role's twin, and k is the tier it goes out at. */
  predicate SweepDue(rules: Rules, l: Look, w: Sweeper, role: Role, b: TwinLadder, f: Funding, start: int, k: int) {
    && l.s.plan.Some? && Handled(l, w, role, b, f) && Seen(l, w, b, f) && Ripe(rules, l, w, b, f)
    && l.nodes.Of(b.leg.value).isUnspent(f.at)
    && SwapTicks.Chosen(b.leg.value, b.tiers, Floor(w, role), l.nodes.Of(b.leg.value).fastestFee, start)
    && FirstTaken(b, start, l.nodes.Of(b.leg.value), k)
  }

  /** The role's turn throws: a twin is due for a sweep, and the starting tier is not on its ladder. */
  predicate LostTier(rules: Rules, l: Look, w: Sweeper, role: Role, b: TwinLadder, f: Funding, start: int) {
    && l.s.plan.Some? && Handled(l, w, role, b, f) && Seen(l, w, b, f) && Ripe(rules, l, w, b, f)
    && l.nodes.Of(b.leg.value).isUnspent(f.at)
    && SwapTicks.Chosen(b.leg.value, b.tiers, Floor(w, role), l.nodes.Of(b.leg.value).fastestFee, start)
    && !(0 <= start < |b.tiers|)
  }

  function SweepOf(l: Look, role: Role, b: TwinLadder, k: nat): Sweep
    requires b.fundLeg.Some? && k < |b.tiers|
  {
    Sweep(role, b.fundLeg.value, k, b.tiers[k].tx, l.now)
  }

  lemma OneLadder(l: Look, w: Sweeper, role: Role, b: TwinLadder, f: Funding)
    requires Handled(l, w, role, b, f)
    ensures forall b', f' :: Handled(l, w, role, b', f') ==> b' == b && f' == f
  {
    hide Handled, LadderFor, Recoverable;
    forall b', f' | Handled(l, w, role, b', f') ensures b' == b && f' == f {
      TurnsLadder(l, w, role, b, f);
      TurnsLadder(l, w, role, b', f');
    }
  }

  lemma OneChoice(leg: Leg, tiers: seq<Tier>, from: nat, fastestFee: real) returns (start: int)
    ensures SwapTicks.Chosen(leg, tiers, from, fastestFee, start)
    ensures forall j :: SwapTicks.Chosen(leg, tiers, from, fastestFee, j) ==> j == start
  {
    hide SwapTicks.Chosen, PickTier;
    start := PickTier(leg, tiers, from, fastestFee);
    forall j ensures SwapTicks.Chosen(leg, tiers, from, fastestFee, j) <==> j == start {
      SwapTicks.PickedIsChosen(leg, tiers, from, fastestFee, j);
    }
  }

  /** What a turn adds for this ladder and deposit: the sweep that is due, or none; it throws exactly on a lost tier. */
  ghost predicate TurnAdds(rules: Rules, l: Look, o: Probed, role: Role, b: TwinLadder, f: Funding, o': Probed) {
    && (forall start, k :: SweepDue(rules, l, o.w, role, b, f, start, k) ==> o'.sweeps == o.sweeps + [SweepOf(l, role, b, k)])
    && ((forall start, k :: !SweepDue(rules, l, o.w, role, b, f, start, k)) ==> o'.sweeps == o.sweeps)
    && (!o'.ok <==> exists start :: LostTier(rules, l, o.w, role, b, f, start))
  }

  lemma TurnFor(rules: Rules, l: Look, o: Probed, role: Role, b: TwinLadder, f: Funding)
    requires l.s.plan.Some? && o.ok && Handled(l, o.w, role, b, f)
    ensures var o' := ProbeRole(rules, l.s, o, role, l.nodes, l.now);
            && TurnAdds(rules, l, o, role, b, f, o') && OnlyTurn(o, role, b.fundLeg.value, o')
            && (if Seen(l, o.w, b, f) then OnRecord(l, o.w, b, f, o'.w) else o'.w == o.w)
  {
    hide ProbeRole, Handled, Ripe, Seen, SwapTicks.Chosen, OnRecord, LaunchedAs, FirstTaken;
    HandledHas(l, o.w, role, b, f);
    EarlyTurn(rules, l, o, role, b, f);
    if Seen(l, o.w, b, f) && Ripe(rules, l, o.w, b, f) {
      RipeTurn(rules, l, o, role, b, f);
      if l.nodes.Of(b.leg.value).isUnspent(f.at) {
        var start := OneChoice(b.leg.value, b.tiers, Floor(o.w, role), l.nodes.Of(b.leg.value).fastestFee);
        LaunchAdds(rules, l, o, role, b, f, start, ProbeRole(rules, l.s, o, role, l.nodes, l.now));
      }
    }
  }

  lemma LaunchAdds(rules: Rules, l: Look, o: Probed, role: Role, b: TwinLadder, f: Funding, start: int, o': Probed)
    requires l.s.plan.Some? && Handled(l, o.w, role, b, f) && Seen(l, o.w, b, f) && Ripe(rules, l, o.w, b, f)
    requires l.nodes.Of(b.leg.value).isUnspent(f.at)
    requires forall j :: SwapTicks.Chosen(b.leg.value, b.tiers, Floor(o.w, role), l.nodes.Of(b.leg.value).fastestFee, j) <==> j == start
    requires LaunchedAs(l, o, role, b, start, o')
    ensures TurnAdds(rules, l, o, role, b, f, o')
  {
    hide Handled, Ripe, Seen, SwapTicks.Chosen;
    HandledHas(l, o.w, role, b, f);
    var twin := l.nodes.Of(b.leg.value);
    if 0 <= start < |b.tiers| {
      SomeTaken(b, start, twin);
      if k :| FirstTaken(b, start, twin, k) {
        assert SweepDue(rules, l, o.w, role, b, f, start, k);
      }
    } else {
      assert LostTier(rules, l, o.w, role, b, f, start);
    }
  }

  lemma SomeTaken(b: TwinLadder, start: nat, node: TwinNode)
    requires start < |b.tiers|
    ensures NoneTaken(b, start, node) || exists k :: FirstTaken(b, start, node, k)
  {
    hide FirstTaken, NoneTaken;
    TakenIs(b, start, node, if FirstAllowed(b.tiers, start, node.judge).Some? then FirstAllowed(b.tiers, start, node.judge).value else 0);
  }

  /** Twin ladders are for the other leg than the one they were funded on. */
  predicate Paired(s: Swap) {
    forall role: Role ::
      s.finish.Of(role).Some? && s.finish.Of(role).value.twin.Some? ==>
        s.finish.Of(role).value.twin.value.leg != s.finish.Of(role).value.twin.value.fundLeg
  }

  /** What another turn in the same look left for this ladder is as good as what was there. */
  predicate AsGood(l: Look, w: Sweeper, w': Sweeper, role: Role, b: TwinLadder, f: Funding)
    requires b.leg.Some? && b.fundLeg.Some?
  {
    && w'.marks.Of(role) == w.marks.Of(role) && (Seen(l, w', b, f) <==> Seen(l, w, b, f))
    && (Seen(l, w, b, f) ==> Dated(l, w', b, f) == Dated(l, w, b, f))
  }

  lemma AsGoodDue(rules: Rules, l: Look, w: Sweeper, w': Sweeper, role: Role, b: TwinLadder, f: Funding)
    requires b.leg.Some? && b.fundLeg.Some? && AsGood(l, w, w', role, b, f)
    ensures Handled(l, w', role, b, f) <==> Handled(l, w, role, b, f)
    ensures forall start, k :: SweepDue(rules, l, w', role, b, f, start, k) <==> SweepDue(rules, l, w, role, b, f, start, k)
    ensures forall start :: LostTier(rules, l, w', role, b, f, start) <==> LostTier(rules, l, w, role, b, f, start)
  {
    hide SwapTicks.Chosen, SwapTicks.Deposited;
  }

  /** The first turn of a look leaves the second role's twin as good as it was. */
  lemma FirstTurnLeaves(rules: Rules, l: Look, o: Probed, b: TwinLadder, f: Funding)
    requires l.s.plan.Some? && o.ok && Paired(l.s) && Handled(l, o.w, Bob, b, f)
    ensures b.leg.Some? && b.fundLeg.Some?
    ensures AsGood(l, o.w, ProbeRole(rules, l.s, o, Alice, l.nodes, l.now).w, Bob, b, f)
  {
    hide ProbeRole, TurnAdds, OnRecord, AsGood, Handled;
    HandledHas(l, o.w, Bob, b, f);
    var a := ProbeRole(rules, l.s, o, Alice, l.nodes, l.now);
    if b', f' :| Handled(l, o.w, Alice, b', f') {
      HandledHas(l, o.w, Alice, b', f');
      TurnFor(rules, l, o, Alice, b', f');
      if b'.fundLeg == b.fundLeg && Seen(l, o.w, b', f') {
        SameTwin(l, o.w, b', f', b, f);
        RecordAsGood(l, o, a, b', b, f);
      } else {
        LeftAlone(l, o, a, b', b, f);
      }
    } else {
      NoTurn(rules, l, o, Alice);
      SelfAsGood(l, o.w, Bob, b, f);
    }
  }

  lemma SelfAsGood(l: Look, w: Sweeper, role: Role, b: TwinLadder, f: Funding)
    requires b.leg.Some? && b.fundLeg.Some?
    ensures AsGood(l, w, w, role, b, f)
  {
  }

  lemma SameTwin(l: Look, w: Sweeper, b': TwinLadder, f': Funding, b: TwinLadder, f: Funding)
    requires Handled(l, w, Alice, b', f') && Handled(l, w, Bob, b, f) && Paired(l.s) && b'.fundLeg == b.fundLeg
    ensures b'.leg == b.leg && f' == f
  {
    var x, y := b'.leg.value, b.leg.value;
    assert l.s.finish.Of(Alice).value.twin == Some(b') && l.s.finish.Of(Bob).value.twin == Some(b);
    assert x != b.fundLeg.value && y != b.fundLeg.value;
    assert x == y;
  }

  lemma RecordAsGood(l: Look, o: Probed, a: Probed, b': TwinLadder, b: TwinLadder, f: Funding)
    requires b.leg.Some? && b.fundLeg.Some? && b'.leg == b.leg && b'.fundLeg == b.fundLeg && l.s.plan.Some?
    requires OnlyTurn(o, Alice, b.fundLeg.value, a) && Seen(l, o.w, b', f) && OnRecord(l, o.w, b', f, a.w)
    ensures AsGood(l, o.w, a.w, Bob, b, f)
  {
  }

  lemma LeftAlone(l: Look, o: Probed, a: Probed, b': TwinLadder, b: TwinLadder, f: Funding)
    requires b.leg.Some? && b.fundLeg.Some? && b'.fundLeg.Some?
    requires OnlyTurn(o, Alice, b'.fundLeg.value, a) && (b'.fundLeg != b.fundLeg || a.w == o.w)
    ensures AsGood(l, o.w, a.w, Bob, b, f)
  {
  }

  lemma TurnSweeps(rules: Rules, l: Look, o: Probed, role: Role)
    requires l.s.plan.Some? && o.ok
    ensures var o' := ProbeRole(rules, l.s, o, role, l.nodes, l.now);
            && (o'.sweeps == o.sweeps
                || exists b, f, start, k :: SweepDue(rules, l, o.w, role, b, f, start, k) && o'.sweeps == o.sweeps + [SweepOf(l, role, b, k)])
            && (!o'.ok ==> exists b, f, start :: LostTier(rules, l, o.w, role, b, f, start))
  {
    hide ProbeRole, Handled, Ripe, SwapTicks.Chosen, LostTier, OnlyTurn, OnRecord, Seen;
    if b, f :| Handled(l, o.w, role, b, f) {
      HandledHas(l, o.w, role, b, f);
      TurnFor(rules, l, o, role, b, f);
      if start, k :| SweepDue(rules, l, o.w, role, b, f, start, k) {
        assert ProbeRole(rules, l.s, o, role, l.nodes, l.now).sweeps == o.sweeps + [SweepOf(l, role, b, k)];
      }
    } else {
      NoTurn(rules, l, o, role);
    }
  }

  lemma ClockOnly(rules: Rules, l: Look, w: Sweeper, at: Option<nat>)
    ensures var w' := w.(probedAt := at);
            && (forall role, b, f, start, k :: SweepDue(rules, l, w', role, b, f, start, k) <==> SweepDue(rules, l, w, role, b, f, start, k))
            && (forall role, b, f, start :: LostTier(rules, l, w', role, b, f, start) <==> LostTier(rules, l, w, role, b, f, start))
            && (forall role, b, f :: Handled(l, w', role, b, f) <==> Handled(l, w, role, b, f))
  {
    hide SwapTicks.Chosen, SwapTicks.Deposited, FirstTaken;
  }

  lemma DueHas(rules: Rules, l: Look, w: Sweeper, role: Role, b: TwinLadder, f: Funding, start: int, k: int)
    requires SweepDue(rules, l, w, role, b, f, start, k)
    ensures Handled(l, w, role, b, f) && b.leg.Some? && b.fundLeg.Some? && 0 <= k < |b.tiers|
  {
  }

  /** The role's turn in the sequence of a look sweeps its twin exactly when that is due. */
  ghost predicate SweepsExactly(rules: Rules, l: Look, w: Sweeper, role: Role, before: seq<Sweep>, after: seq<Sweep>) {
    && (after == before
        || exists b, f, start, k :: SweepDue(rules, l, w, role, b, f, start, k) && after == before + [SweepOf(l, role, b, k)])
    && (forall b, f, start, k :: SweepDue(rules, l, w, role, b, f, start, k) ==> after == before + [SweepOf(l, role, b, k)])
  }

  lemma TurnSweepsExactly(rules: Rules, l: Look, o: Probed, role: Role)
    requires l.s.plan.Some? && o.ok
    ensures SweepsExactly(rules, l, o.w, role, o.sweeps, ProbeRole(rules, l.s, o, role, l.nodes, l.now).sweeps)
  {
    hide ProbeRole, Ripe, Seen, SwapTicks.Chosen, SwapTicks.Deposited, LostTier, OnlyTurn, OnRecord;
    TurnSweeps(rules, l, o, role);
    forall b, f, start, k | SweepDue(rules, l, o.w, role, b, f, start, k)
      ensures ProbeRole(rules, l.s, o, role, l.nodes, l.now).sweeps == o.sweeps + [SweepOf(l, role, b, k)]
    {
      DueHas(rules, l, o.w, role, b, f, start, k);
      TurnFor(rules, l, o, role, b, f);
    }
  }

  /** The second turn, told from the records before the look. */
  lemma SecondTurn(rules: Rules, l: Look, o: Probed)
    requires l.s.plan.Some? && o.ok && Paired(l.s)
    requires var a := ProbeRole(rules, l.s, o, Alice, l.nodes, l.now); a.ok
    ensures var a := ProbeRole(rules, l.s, o, Alice, l.nodes, l.now);
            SweepsExactly(rules, l, o.w, Bob, a.sweeps, ProbeRole(rules, l.s, a, Bob, l.nodes, l.now).sweeps)
  {
    hide ProbeRole, Handled, SweepDue, LostTier, AsGood;
    var a := ProbeRole(rules, l.s, o, Alice, l.nodes, l.now);
    TurnSweepsExactly(rules, l, a, Bob);
    SameMark(rules, l, o);
    forall b, f, start, k ensures SweepDue(rules, l, a.w, Bob, b, f, start, k) <==> SweepDue(rules, l, o.w, Bob, b, f, start, k) {
      if SweepDue(rules, l, a.w, Bob, b, f, start, k) {
        DueHas(rules, l, a.w, Bob, b, f, start, k);
        HandledByMark(l, o.w, a.w, Bob, b, f);
        FirstTurnLeaves(rules, l, o, b, f);
        AsGoodDue(rules, l, o.w, a.w, Bob, b, f);
      }
      if SweepDue(rules, l, o.w, Bob, b, f, start, k) {
        DueHas(rules, l, o.w, Bob, b, f, start, k);
        FirstTurnLeaves(rules, l, o, b, f);
        AsGoodDue(rules, l, o.w, a.w, Bob, b, f);
      }
    }
  }

  lemma SameMark(rules: Rules, l: Look, o: Probed)
    requires l.s.plan.Some? && o.ok
    ensures ProbeRole(rules, l.s, o, Alice, l.nodes, l.now).w.marks.Of(Bob) == o.w.marks.Of(Bob)
  {
    hide ProbeRole, Handled, TurnAdds, OnRecord, Seen;
    if b, f :| Handled(l, o.w, Alice, b, f) {
      TurnFor(rules, l, o, Alice, b, f);
    } else {
      NoTurn(rules, l, o, Alice);
    }
  }

  lemma HandledByMark(l: Look, w: Sweeper, w': Sweeper, role: Role, b: TwinLadder, f: Funding)
    requires w'.marks.Of(role) == w.marks.Of(role)
    ensures Handled(l, w', role, b, f) <==> Handled(l, w, role, b, f)
  {
  }

  predicate Skipped(rules: Rules, l: Look, w: Sweeper) {
    !Probing(rules, l, w)
  }

  lemma SkipsIs(rules: Rules, l: Look, w: Sweeper)
    ensures Skips(rules, l.s, w, l.now) <==> Skipped(rules, l, w)
  {
  }

  /** One look, with the records as they are before it. A skipped look does nothing. In any other the initiator's twin is
      swept exactly when that is due, and so is the participant's unless the initiator's turn throws; each at the tier it
      is due at, and once. */
  lemma LookSweeps(rules: Rules, l: Look, p: Probed)
    requires Paired(l.s)
    ensures var q := Probe(rules, l.s, p, l.nodes, l.now);
            && (!Probing(rules, l, p.w) ==> q == p)
            && (Probing(rules, l, p.w) ==>
                  && q.w.probedAt == Some(l.now)
                  && exists mid ::
                    && SweepsExactly(rules, l, p.w, Alice, p.sweeps, mid)
                    && (if exists b, f, start :: LostTier(rules, l, p.w, Alice, b, f, start) then q.sweeps == mid
                        else SweepsExactly(rules, l, p.w, Bob, mid, q.sweeps)))
  {
    hide ProbeRole, Handled, SweepDue, LostTier, Probing;
    SkipsIs(rules, l, p.w);
    if Probing(rules, l, p.w) {
      HasPlan(rules, l, p.w);
      var o := Probed(p.w.(probedAt := Some(l.now)), true, p.sweeps);
      ClockOnly(rules, l, p.w, Some(l.now));
      var a := ProbeRole(rules, l.s, o, Alice, l.nodes, l.now);
      TurnSweepsExactly(rules, l, o, Alice);
      LostIs(rules, l, o, Alice);
      TurnClock(rules, l, o, Alice);
      TurnClock(rules, l, a, Bob);
      assert SweepsExactly(rules, l, p.w, Alice, p.sweeps, a.sweeps);
      if a.ok {
        SecondTurn(rules, l, o);
      } else {
        DeadTurn(rules, l, a, Bob);
      }
    }
  }

  lemma TurnClock(rules: Rules, l: Look, o: Probed, role: Role)
    requires l.s.plan.Some?
    ensures ProbeRole(rules, l.s, o, role, l.nodes, l.now).w.probedAt == o.w.probedAt
  {
    hide FirstAllowed, PickTier, Watch, HeldBack, LadderFor, Recoverable;
  }

  lemma HasPlan(rules: Rules, l: Look, w: Sweeper)
    requires Probing(rules, l, w)
    ensures l.s.plan.Some?
  {
  }

  lemma DeadTurn(rules: Rules, l: Look, o: Probed, role: Role)
    requires l.s.plan.Some? && !o.ok
    ensures ProbeRole(rules, l.s, o, role, l.nodes, l.now) == o
  {
    hide Watch, HeldBack, Launch;
  }

  lemma LostIs(rules: Rules, l: Look, o: Probed, role: Role)
    requires l.s.plan.Some? && o.ok
    ensures !ProbeRole(rules, l.s, o, role, l.nodes, l.now).ok <==> exists b, f, start :: LostTier(rules, l, o.w, role, b, f, start)
  {
    hide ProbeRole, Handled, Ripe, Seen, SwapTicks.Chosen, OnlyTurn, OnRecord, SweepDue;
    if b, f :| Handled(l, o.w, role, b, f) {
      OneLadder(l, o.w, role, b, f);
      TurnFor(rules, l, o, role, b, f);
    } else {
      NoTurn(rules, l, o, role);
    }
  }

  // ---------------------------------------------------------------------------
  // A twin in sight is on record
  // ---------------------------------------------------------------------------

  lemma RecordTwice(l: Look, w: Sweeper, b: TwinLadder, f: Funding, w1: Sweeper, b2: TwinLadder, w2: Sweeper)
    requires b.leg.Some? && b.fundLeg.Some? && l.s.plan.Some? && b2.leg == b.leg && b2.fundLeg == b.fundLeg
    requires OnRecord(l, w, b, f, w1) && OnRecord(l, w1, b2, f, w2)
    ensures OnRecord(l, w, b, f, w2)
  {
  }

  lemma RecordKept(l: Look, w: Sweeper, b: TwinLadder, f: Funding, w1: Sweeper, w2: Sweeper)
    requires b.leg.Some? && b.fundLeg.Some? && l.s.plan.Some?
    requires OnRecord(l, w, b, f, w1) && w2.found.Of(b.fundLeg.value) == w1.found.Of(b.fundLeg.value)
    ensures OnRecord(l, w, b, f, w2)
  {
  }

  lemma RecordFrom(l: Look, w: Sweeper, w1: Sweeper, role: Role, b: TwinLadder, f: Funding, w2: Sweeper)
    requires b.leg.Some? && b.fundLeg.Some? && l.s.plan.Some?
    requires w1.found.Of(b.fundLeg.value) == w.found.Of(b.fundLeg.value)
    ensures OnRecord(l, w1, b, f, w2) <==> OnRecord(l, w, b, f, w2)
    ensures Seen(l, w1, b, f) <==> Seen(l, w, b, f)
  {
  }

  /** The second turn leaves what the first one put on record. */
  lemma SecondKeeps(rules: Rules, l: Look, o: Probed, a: Probed, b: TwinLadder, f: Funding)
    requires l.s.plan.Some? && Paired(l.s) && Handled(l, o.w, Alice, b, f) && b.leg.Some? && b.fundLeg.Some?
    requires OnRecord(l, o.w, b, f, a.w) && a.w.marks.Of(Bob) == o.w.marks.Of(Bob)
    ensures OnRecord(l, o.w, b, f, ProbeRole(rules, l.s, a, Bob, l.nodes, l.now).w)
  {
    hide ProbeRole, Handled, OnRecord, Seen, TurnAdds;
    if a.ok {
      if b2, f2 :| Handled(l, a.w, Bob, b2, f2) {
        HandledHas(l, a.w, Bob, b2, f2);
        HandledByMark(l, o.w, a.w, Bob, b2, f2);
        TurnFor(rules, l, a, Bob, b2, f2);
        var q := ProbeRole(rules, l.s, a, Bob, l.nodes, l.now);
        if b2.fundLeg == b.fundLeg && Seen(l, a.w, b2, f2) {
          SameTwin(l, o.w, b, f, b2, f2);
          RecordTwice(l, o.w, b, f, a.w, b2, q.w);
        } else {
          RecordKept(l, o.w, b, f, a.w, q.w);
        }
      } else {
        NoTurn(rules, l, a, Bob);
      }
    } else {
      DeadTurn(rules, l, a, Bob);
    }
  }

  lemma SecondRecord(rules: Rules, l: Look, o: Probed, b: TwinLadder, f: Funding)
    requires l.s.plan.Some? && o.ok && Paired(l.s) && Handled(l, o.w, Bob, b, f) && b.leg.Some? && b.fundLeg.Some?
    requires Seen(l, o.w, b, f) && ProbeRole(rules, l.s, o, Alice, l.nodes, l.now).ok
    ensures OnRecord(l, o.w, b, f, ProbeRole(rules, l.s, ProbeRole(rules, l.s, o, Alice, l.nodes, l.now), Bob, l.nodes, l.now).w)
  {
    hide ProbeRole, Handled, OnRecord, Seen, TurnAdds, AsGood;
    var a := ProbeRole(rules, l.s, o, Alice, l.nodes, l.now);
    SameMark(rules, l, o);
    HandledByMark(l, o.w, a.w, Bob, b, f);
    FirstTurnLeaves(rules, l, o, b, f);
    SeenAsGood(l, o.w, a.w, Bob, b, f);
    TurnFor(rules, l, a, Bob, b, f);
    var q := ProbeRole(rules, l.s, a, Bob, l.nodes, l.now);
    if b', f' :| Handled(l, o.w, Alice, b', f') {
      HandledHas(l, o.w, Alice, b', f');
      TurnFor(rules, l, o, Alice, b', f');
      if b'.fundLeg == b.fundLeg && Seen(l, o.w, b', f') {
        SameTwin(l, o.w, b', f', b, f);
        SameLegs(l, o.w, b', b, f, a.w);
        RecordTwice(l, o.w, b, f, a.w, b, q.w);
      } else {
        RecordFrom(l, o.w, a.w, Bob, b, f, q.w);
      }
    } else {
      NoTurn(rules, l, o, Alice);
    }
  }

  lemma SameLegs(l: Look, w: Sweeper, b': TwinLadder, b: TwinLadder, f: Funding, w': Sweeper)
    requires b.leg.Some? && b.fundLeg.Some? && b'.leg == b.leg && b'.fundLeg == b.fundLeg && l.s.plan.Some?
    ensures OnRecord(l, w, b', f, w') <==> OnRecord(l, w, b, f, w')
  {
  }

  lemma SeenAsGood(l: Look, w: Sweeper, w': Sweeper, role: Role, b: TwinLadder, f: Funding)
    requires b.leg.Some? && b.fundLeg.Some? && AsGood(l, w, w', role, b, f)
    ensures Seen(l, w', b, f) <==> Seen(l, w, b, f)
  {
  }

  /** After a look that is not skipped, a role's twin that is on record or unspent on the other chain is on record: since
      when, at which lock height, and since when its home outpoint is known to be spent. */
  lemma LookRecords(rules: Rules, l: Look, p: Probed, role: Role, b: TwinLadder, f: Funding)
    requires Probing(rules, l, p.w) && Paired(l.s) && Handled(l, p.w, role, b, f)
    requires b.leg.Some? && b.fundLeg.Some? && Seen(l, p.w, b, f)
    requires role == Bob ==> forall b, f, start :: !LostTier(rules, l, p.w, Alice, b, f, start)
    ensures l.s.plan.Some? && OnRecord(l, p.w, b, f, Probe(rules, l.s, p, l.nodes, l.now).w)
  {
    hide ProbeRole, Handled, SweepDue, LostTier, Probing, OnRecord, Seen, TurnAdds;
    SkipsIs(rules, l, p.w);
    HasPlan(rules, l, p.w);
    var o := Probed(p.w.(probedAt := Some(l.now)), true, p.sweeps);
    var a := ProbeRole(rules, l.s, o, Alice, l.nodes, l.now);
    var q := ProbeRole(rules, l.s, a, Bob, l.nodes, l.now);
    ClockOnly(rules, l, p.w, Some(l.now));
    RecordFrom(l, p.w, o.w, role, b, f, q.w);
    LostIs(rules, l, o, Alice);
    SameMark(rules, l, o);
    if role == Alice {
      TurnFor(rules, l, o, Alice, b, f);
      SecondKeeps(rules, l, o, a, b, f);
    } else {
      SecondRecord(rules, l, o, b, f);
    }
  }

  // ---------------------------------------------------------------------------
  // Over all looks
  // ---------------------------------------------------------------------------

  predicate Forward(looks: seq<Look>) {
    forall i, j :: 0 <= i <= j < |looks| ==> looks[i].now <= looks[j].now
  }

  /** At look j, one that was not skipped, this role had a twin in sight whose home outpoint was spent. */
  predicate SawSpend(rules: Rules, looks: seq<Look>, j: nat, role: Role, b: TwinLadder, f: Funding)
    requires j < |looks|
  {
    var l, p := looks[j], Probes(rules, looks[..j]);
    && Probing(rules, l, p.w) && Paired(l.s) && Handled(l, p.w, role, b, f)
    && b.leg.Some? && b.fundLeg.Some? && Seen(l, p.w, b, f) && SpentAtHome(l, b, f)
  }

  /** No turn of the initiator throws at this look. */
  ghost predicate NoLostTier(rules: Rules, l: Look, w: Sweeper) {
    forall b, f, start :: !LostTier(rules, l, w, Alice, b, f, start)
  }

  lemma DatedByNow(rules: Rules, looks: seq<Look>, leg: Leg)
    requires Forward(looks) && looks != [] && SpentAt(Probes(rules, looks).w, leg).Some?
    ensures SpentAt(Probes(rules, looks).w, leg).value <= looks[|looks| - 1].now
  {
    hide Probes, Justified, HomeSpent;
    ProbesOrderly(rules, looks);
    var at := SpentAt(Probes(rules, looks).w, leg).value;
    var k :| 0 <= k < |looks| && looks[k].now == at && HomeSpent(looks[k], leg);
  }

  lemma {:induction false} DateStays(rules: Rules, looks: seq<Look>, j: nat, leg: Leg)
    requires j <= |looks| && SpentAt(Probes(rules, looks[..j]).w, leg).Some?
    ensures SpentAt(Probes(rules, looks).w, leg) == SpentAt(Probes(rules, looks[..j]).w, leg)
    decreases |looks|
  {
    hide Probes;
    if j == |looks| {
      assert looks[..j] == looks;
    } else {
      var before := looks[..|looks| - 1];
      assert before[..j] == looks[..j] && before + [looks[|looks| - 1]] == looks;
      DateStays(rules, before, j, leg);
      FoundStays(rules, before, looks[|looks| - 1], leg);
    }
  }

  /** A home spend seen at some look is dated no later than that look, from then on. */
  lemma SpendIsDated(rules: Rules, looks: seq<Look>, j: nat, role: Role, b: TwinLadder, f: Funding)
    requires j < |looks| && Forward(looks) && SawSpend(rules, looks, j, role, b, f)
    requires role == Bob ==> NoLostTier(rules, looks[j], Probes(rules, looks[..j]).w)
    ensures b.fundLeg.Some?
    ensures var at := SpentAt(Probes(rules, looks).w, b.fundLeg.value); at.Some? && at.value <= looks[j].now
  {
    hide Probes, Probe, Handled, Probing, Seen, LostTier;
    var l, p := looks[j], Probes(rules, looks[..j]);
    LookRecords(rules, l, p, role, b, f);
    assert looks[..j] + [l] == looks[..j + 1];
    ProbesNext(rules, looks[..j], l);
    assert Forward(looks[..j + 1]);
    DatedByNow(rules, looks[..j + 1], b.fundLeg.value);
    DateStays(rules, looks, j + 1, b.fundLeg.value);
  }

  /** All that a sweep asks of a look: the role's ladder and deposit, the outpoint spent at home and unspent on the twin
      chain, that chain at the lock height, and a tier its node takes, the first from the starting one. */
  predicate Allowing(l: Look, w: Sweeper, role: Role, b: TwinLadder, f: Funding, start: int, k: int) {
    && l.s.plan.Some? && Handled(l, w, role, b, f)
    && SpentAtHome(l, b, f) && l.nodes.Of(b.leg.value).isUnspent(f.at)
    && Lock(l, b) <= l.nodes.Of(b.leg.value).height
    && SwapTicks.Chosen(b.leg.value, b.tiers, Floor(w, role), l.nodes.Of(b.leg.value).fastestFee, start)
    && FirstTaken(b, start, l.nodes.Of(b.leg.value), k)
  }

  lemma AllowedIsDue(rules: Rules, l: Look, w: Sweeper, role: Role, b: TwinLadder, f: Funding, start: int, k: int)
    requires Allowing(l, w, role, b, f, start, k)
    requires var at := SpentAt(w, b.fundLeg.value); if at.Some? then at.value + rules.delayMs <= l.now else rules.delayMs == 0
    ensures SweepDue(rules, l, w, role, b, f, start, k)
  {
    hide SwapTicks.Chosen, SwapTicks.Deposited, FirstTaken;
  }

  /** Over any looks with a clock that does not go back: at a look that is not skipped, a role whose twin is unspent while
      its home outpoint is spent, the delay after an earlier look that saw that spend (or with no delay), the twin chain
      at the lock height and some tier taken, has its twin swept in this very look, at the first tier taken, and once.
      The participant's turn needs the initiator's not to throw. */
  lemma SweptWhenDue(rules: Rules, looks: seq<Look>, l: Look, role: Role, b: TwinLadder, f: Funding, start: int, k: int,
                     j: nat, earlier: Role, b': TwinLadder, f': Funding)
    requires var w := Probes(rules, looks).w;
             && Probing(rules, l, w) && Paired(l.s) && Allowing(l, w, role, b, f, start, k)
             && (role == Bob ==> NoLostTier(rules, l, w))
    requires Forward(looks)
    requires b.fundLeg.Some?
    requires (rules.delayMs == 0 && SpentAt(Probes(rules, looks).w, b.fundLeg.value).None?)
             || (j < |looks| && SawSpend(rules, looks, j, earlier, b', f') && b'.fundLeg == b.fundLeg
                 && (earlier == Bob ==> NoLostTier(rules, looks[j], Probes(rules, looks[..j]).w))
                 && looks[j].now + rules.delayMs <= l.now)
    ensures 0 <= k < |b.tiers|
    ensures var before, after := Probes(rules, looks).sweeps, Probes(rules, looks + [l]).sweeps;
            && before <= after
            && exists i :: |before| <= i < |after| && after[i] == SweepOf(l, role, b, k)
                           && forall m :: |before| <= m < |after| && after[m].role == role ==> m == i
  {
    hide Probes, Probe, Handled, Probing, Seen, LostTier, SawSpend, SweepDue, SwapTicks.Chosen, Paired;
    var p := Probes(rules, looks);
    AllowingHas(l, p.w, role, b, f, start, k);
    if !(rules.delayMs == 0 && SpentAt(p.w, b.fundLeg.value).None?) {
      SpendIsDated(rules, looks, j, earlier, b', f');
    }
    AllowedIsDue(rules, l, p.w, role, b, f, start, k);
    LookSweeps(rules, l, p);
    ProbesNext(rules, looks, l);
    var q := Probe(rules, l.s, p, l.nodes, l.now);
    var mid :| SweepsExactly(rules, l, p.w, Alice, p.sweeps, mid)
               && (if exists b, f, start :: LostTier(rules, l, p.w, Alice, b, f, start) then q.sweeps == mid
                   else SweepsExactly(rules, l, p.w, Bob, mid, q.sweeps));
    Placed(rules, l, p, role, b, f, start, k, mid, q.sweeps);
  }

  lemma AllowingHas(l: Look, w: Sweeper, role: Role, b: TwinLadder, f: Funding, start: int, k: int)
    requires Allowing(l, w, role, b, f, start, k)
    ensures b.leg.Some? && b.fundLeg.Some? && 0 <= k < |b.tiers|
  {
  }

  lemma Placed(rules: Rules, l: Look, p: Probed, role: Role, b: TwinLadder, f: Funding, start: int, k: int, mid: seq<Sweep>, after: seq<Sweep>)
    requires SweepDue(rules, l, p.w, role, b, f, start, k) && b.fundLeg.Some? && 0 <= k < |b.tiers|
    requires SweepsExactly(rules, l, p.w, Alice, p.sweeps, mid)
    requires after == mid || SweepsExactly(rules, l, p.w, Bob, mid, after)
    requires role == Bob ==> SweepsExactly(rules, l, p.w, Bob, mid, after)
    ensures p.sweeps <= after
    ensures exists i :: |p.sweeps| <= i < |after| && after[i] == SweepOf(l, role, b, k)
                        && forall m :: |p.sweeps| <= m < |after| && after[m].role == role ==> m == i
  {
    hide SweepDue;
    var i := if role == Alice then |p.sweeps| else |mid|;
    assert after[i] == SweepOf(l, role, b, k);
  }
}
