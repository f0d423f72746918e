/** The fork-pair twin sweep (coordinator/swap.js, driveTwinSweep): a deposit replayed onto the other chain goes back
    to its sender. */
module Twin {
  import opened Bytes
  import opened Legs
  import opened SwapState

  datatype Resolution = External | Swept(txid: bytes)

  /** Why a sweep has not gone out yet. */
  datatype Waiting = HomeUnspent | ReorgDelay | BelowLock | Mempool

  datatype Found = Found(detectedAt: nat, homeSpentAt: Option<nat>, lockHeight: Option<int>,
                         waiting: Option<Waiting>, resolved: Option<Resolution>)

  /** The `role:twin` record: done, and the tier reached so far. */
  datatype Mark = Mark(done: bool, tier: nat)

  /** What the sweep keeps: a record per funding leg, a mark per role, the time of the last probe. */
  datatype Sweeper = Sweeper(found: Per<Option<Found>>, marks: ByRole<Option<Mark>>, probedAt: Option<nat>)

  const FRESH: Sweeper := Sweeper(Per(None, None), ByRole(None, None), None)

  /** testAccept's answer, with whether a refusal was about the fee. */
  datatype Verdict = Allowed | Denied(economic: bool)

  /** A node during one probe. */
  datatype TwinNode = TwinNode(height: nat, isUnspent: Outpoint -> bool, judge: bytes -> Verdict,
                               broadcast: bytes -> bytes, fastestFee: real)

  datatype Rules = Rules(forkTwin: bool, checkMs: nat, delayMs: nat)

  /** A sweep handed to a node. */
  datatype Sweep = Sweep(role: Role, fundLeg: Leg, tier: nat, tx: bytes, now: nat)

  datatype Probed = Probed(w: Sweeper, ok: bool, sweeps: seq<Sweep>)

  predicate Pending(w: Sweeper) {
    (w.found.btc.Some? && w.found.btc.value.resolved.None?) || (w.found.qbit.Some? && w.found.qbit.value.resolved.None?)
  }

  // ---------------------------------------------------------------------------
  // Climbing the ladder
  // ---------------------------------------------------------------------------

  /** The first tier from `from` on that the node accepts. */
  function FirstAllowed(tiers: seq<Tier>, from: nat, judge: bytes -> Verdict): (r: Option<nat>)
    ensures r.Some? ==> from <= r.value < |tiers| && judge(tiers[r.value].tx).Allowed?
                        && forall k :: from <= k < r.value ==> judge(tiers[k].tx).Denied?
    ensures r.None? ==> forall k :: from <= k < |tiers| ==> judge(tiers[k].tx).Denied?
    decreases |tiers| - from
  {
    if from >= |tiers| then None
    else if judge(tiers[from].tx).Allowed? then Some(from)
    else FirstAllowed(tiers, from + 1, judge)
  }

  /** The loop that walks up on rejection; when all are rejected it stops at the last tier. */
  method Climb(tiers: seq<Tier>, from: nat, judge: bytes -> Verdict) returns (tier: nat, verdict: Verdict)
    requires from < |tiers|
    ensures from <= tier < |tiers| && verdict == judge(tiers[tier].tx)
    ensures FirstAllowed(tiers, from, judge) == if verdict.Allowed? then Some(tier) else None
    ensures verdict.Denied? ==> tier == |tiers| - 1
  {
    tier, verdict := from, judge(tiers[from].tx);
    while verdict.Denied? && tier + 1 < |tiers|
      invariant from <= tier < |tiers| && verdict == judge(tiers[tier].tx)
      invariant FirstAllowed(tiers, from, judge) == FirstAllowed(tiers, tier, judge)
    {
      tier := tier + 1;
      verdict := judge(tiers[tier].tx);
    }
  }

  // ---------------------------------------------------------------------------
  // One role's probe
  // ---------------------------------------------------------------------------

  function LadderFor(s: Swap, role: Role): (r: Option<TwinLadder>)
    ensures r.Some? ==> r.value.tiers != [] && r.value.leg.Some? && r.value.fundLeg.Some?
  {
    match s.finish.Of(role)
    case None => None
    case Some(b) => if b.twin.Some? && b.twin.value.tiers != [] && b.twin.value.leg.Some? && b.twin.value.fundLeg.Some?
                    then b.twin else None
  }

  function StartTier(w: Sweeper, role: Role, ladder: TwinLadder, node: TwinNode): int
    requires ladder.leg.Some?
  {
    var floor := if w.marks.Of(role).Some? then w.marks.Of(role).value.tier else 0;
    PickTier(ladder.leg.value, ladder.tiers, floor, node.fastestFee)
  }

  function Put(w: Sweeper, leg: Leg, t: Found): Sweeper {
    w.(found := w.found.With(leg, Some(t)))
  }

  /** Steps 1 and 2: the twin is recorded once seen, and the first time its home outpoint is seen spent is kept.
      None when there is no twin to handle. */
  function Watch(found: Option<Found>, at: Outpoint, lock: int, home: TwinNode, twin: TwinNode, now: nat): Option<Found> {
    if found.None? && !twin.isUnspent(at) then None
    else
      var t := if found.Some? then found.value else Found(now, None, None, None, None);
      var locked := t.(lockHeight := if t.lockHeight.Some? then t.lockHeight else Some(lock));
      if home.isUnspent(at) then Some(locked)
      else Some(locked.(homeSpentAt := if t.homeSpentAt.Some? then t.homeSpentAt else Some(now)))
  }

  /** Steps 2 to 4 hold the sweep back, for this reason. */
  function HeldBack(rules: Rules, t: Found, at: Outpoint, lock: int, home: TwinNode, twin: TwinNode, now: nat): Option<Waiting> {
    if home.isUnspent(at) || t.homeSpentAt.None? then Some(HomeUnspent)
    else if now - t.homeSpentAt.value < rules.delayMs then Some(ReorgDelay)
    else if twin.height < lock then Some(BelowLock)
    else None
  }

  function ProbeRole(rules: Rules, s: Swap, o: Probed, role: Role, nodes: Per<TwinNode>, now: nat): Probed
    requires s.plan.Some?
  {
    var w := o.w;
    var ladder := LadderFor(s, role);
    if !o.ok || ladder.None? || (w.marks.Of(role).Some? && w.marks.Of(role).value.done) then o
    else
      var fundLeg, leg := ladder.value.fundLeg.value, ladder.value.leg.value;
      var f := Recoverable(s, fundLeg);
      if f.None? then o
      else
        var home, twin, lock := nodes.Of(fundLeg), nodes.Of(leg), s.plan.value.locktimes.Of(fundLeg);
        match Watch(w.found.Of(fundLeg), f.value.at, lock, home, twin, now)
        case None => o
        case Some(t) =>
          var held := HeldBack(rules, t, f.value.at, lock, home, twin, now);
          if held.Some? then o.(w := Put(w, fundLeg, t.(waiting := held)))
          else if !twin.isUnspent(f.value.at) then
            o.(w := Put(w, fundLeg, t.(resolved := Some(External), waiting := None)).(marks := w.marks.With(role, Some(Mark(true, 0)))))
          else Launch(o, s, role, fundLeg, ladder.value, t, twin, now)
  }

  /** The sweep itself, at the first tier the node takes. */
  function Launch(o: Probed, s: Swap, role: Role, fundLeg: Leg, ladder: TwinLadder, t: Found, twin: TwinNode, now: nat): Probed
    requires ladder.leg.Some?
  {
    var start := StartTier(o.w, role, ladder, twin);
    if start < 0 || start >= |ladder.tiers| then Probed(Put(o.w, fundLeg, t), false, o.sweeps)
    else
      match FirstAllowed(ladder.tiers, start, twin.judge)
      case None =>
        var last := |ladder.tiers| - 1;
        var held := Put(o.w, fundLeg, t.(waiting := Some(Mempool)));
        o.(w := if twin.judge(ladder.tiers[last].tx).economic
                then held.(marks := o.w.marks.With(role, Some(Mark(false, last)))) else held)
      case Some(tier) =>
        var tx := ladder.tiers[tier].tx;
        var swept := Put(o.w, fundLeg, t.(resolved := Some(Swept(twin.broadcast(tx))), waiting := None));
        Probed(swept.(marks := o.w.marks.With(role, Some(Mark(true, tier)))), true, o.sweeps + [Sweep(role, fundLeg, tier, tx, now)])
  }

  predicate Skips(rules: Rules, s: Swap, w: Sweeper, now: nat) {
    !rules.forkTwin || s.htlc.None? || s.plan.None? || s.state == Created || s.state == Canceled
    || (w.probedAt.Some? && w.probedAt.value != 0 && now - w.probedAt.value < rules.checkMs)
  }

  /** driveTwinSweep, continuing from what earlier probes left and relayed. */
  function Probe(rules: Rules, s: Swap, p: Probed, nodes: Per<TwinNode>, now: nat): Probed {
    if Skips(rules, s, p.w, now) then p
    else
      var o := Probed(p.w.(probedAt := Some(now)), true, p.sweeps);
      ProbeRole(rules, s, ProbeRole(rules, s, o, Alice, nodes, now), Bob, nodes, now)
  }

  // ---------------------------------------------------------------------------
  // All probes of a swap
  // ---------------------------------------------------------------------------

  /** One call: the record as it then is, the nodes' answers, the clock. */
  datatype Look = Look(s: Swap, nodes: Per<TwinNode>, now: nat)

  function Probes(rules: Rules, looks: seq<Look>): Probed {
    if looks == [] then Probed(FRESH, true, [])
    else
      var l := looks[|looks| - 1];
      Probe(rules, l.s, Probes(rules, looks[..|looks| - 1]), l.nodes, l.now)
  }

  predicate HomeSpent(l: Look, fundLeg: Leg) {
    var f := Recoverable(l.s, fundLeg);
    f.Some? && !l.nodes.Of(fundLeg).isUnspent(f.value.at)
  }

  /** At this look the sweep may go out: the deposit's outpoint is spent at home and unspent on the twin chain, that
      chain has reached the lock height, and its node takes the tier and refuses every cheaper one from `start`. */
  predicate Ready(l: Look, w: Sweep, start: nat) {
    var ladder := LadderFor(l.s, w.role);
    && ladder.Some? && ladder.value.fundLeg == Some(w.fundLeg)
    && HomeSpent(l, w.fundLeg)
    && var twin := l.nodes.Of(ladder.value.leg.value);
    && twin.isUnspent(Recoverable(l.s, w.fundLeg).value.at)
    && l.s.plan.Some? && twin.height >= l.s.plan.value.locktimes.Of(w.fundLeg)
    && start <= w.tier < |ladder.value.tiers| && ladder.value.tiers[w.tier].tx == w.tx
    && twin.judge(w.tx).Allowed? && forall k :: start <= k < w.tier ==> twin.judge(ladder.value.tiers[k].tx).Denied?
  }

  predicate IsDone(w: Sweeper, role: Role) {
    w.marks.Of(role).Some? && w.marks.Of(role).value.done
  }

  predicate FoundKept(a: Option<Found>, b: Option<Found>) {
    a.Some? ==>
      && b.Some? && b.value.detectedAt == a.value.detectedAt && Kept(a.value.homeSpentAt, b.value.homeSpentAt)
      && Kept(a.value.lockHeight, b.value.lockHeight) && (a.value.resolved.Some? ==> b.value.resolved.Some?)
  }

  predicate Kept<T(==)>(a: Option<T>, b: Option<T>) {
    a.Some? ==> b == a
  }

  function SpentAt(w: Sweeper, leg: Leg): Option<nat> {
    match w.found.Of(leg) case None => None case Some(t) => t.homeSpentAt
  }

  /** The twin records only gain: what was seen stays, and a home spend is dated when it was looked at. */
  predicate Gains(l: Look, w: Sweeper, w': Sweeper) {
    && (forall leg: Leg :: FoundKept(w.found.Of(leg), w'.found.Of(leg)))
    && (forall leg: Leg :: SpentAt(w', leg) == SpentAt(w, leg) || (SpentAt(w', leg) == Some(l.now) && HomeSpent(l, leg)))
    && (forall r: Role :: IsDone(w, r) ==> IsDone(w', r))
  }

  function OtherRole(role: Role): Role {
    if role == Alice then Bob else Alice
  }

  /** What one role's turn may change. */
  predicate Turn(rules: Rules, l: Look, o: Probed, role: Role, o': Probed) {
    && Gains(l, o.w, o'.w)
    && o'.w.marks.Of(OtherRole(role)) == o.w.marks.Of(OtherRole(role))
    && (o'.sweeps == o.sweeps
        || (|o'.sweeps| == |o.sweeps| + 1 && Launched(rules, l, o, role, o', o'.sweeps[|o.sweeps|])))
  }

  predicate Launched(rules: Rules, l: Look, o: Probed, role: Role, o': Probed, w: Sweep) {
    && o'.sweeps == o.sweeps + [w] && w.role == role && w.now == l.now
    && !IsDone(o.w, role) && IsDone(o'.w, role)
    && SpentAt(o'.w, w.fundLeg).Some? && l.now - SpentAt(o'.w, w.fundLeg).value >= rules.delayMs
    && LadderFor(l.s, role).Some?
    && var start := StartTier(o.w, role, LadderFor(l.s, role).value, l.nodes.Of(LadderFor(l.s, role).value.leg.value));
    start >= 0 && Ready(l, w, start)
  }

  lemma WatchGains(found: Option<Found>, at: Outpoint, lock: int, home: TwinNode, twin: TwinNode, now: nat)
    ensures var r := Watch(found, at, lock, home, twin, now);
            r.Some? ==>
              && FoundKept(found, r)
              && (r.value.homeSpentAt == (if found.None? then None else found.value.homeSpentAt)
                  || (r.value.homeSpentAt == Some(now) && !home.isUnspent(at)))
  {
  }

  /** Writing one leg's record and one role's mark. */
  lemma PutGains(l: Look, w: Sweeper, leg: Leg, t: Found, marks: ByRole<Option<Mark>>)
    requires FoundKept(w.found.Of(leg), Some(t))
    requires t.homeSpentAt == SpentAt(w, leg) || (t.homeSpentAt == Some(l.now) && HomeSpent(l, leg))
    requires forall r: Role :: IsDone(w, r) ==> marks.Of(r).Some? && marks.Of(r).value.done
    ensures Gains(l, w, Put(w, leg, t).(marks := marks))
  {
    hide FoundKept, HomeSpent;
    forall other: Leg ensures FoundKept(w.found.Of(other), Put(w, leg, t).found.Of(other)) {
      if other != leg {
        SameFound(w.found.Of(other));
      }
    }
  }

  lemma SameFound(a: Option<Found>)
    ensures FoundKept(a, a)
  {
  }

  lemma SameGains(l: Look, w: Sweeper)
    ensures Gains(l, w, w)
  {
  }

  lemma MarksWith(marks: ByRole<Option<Mark>>, role: Role, m: Mark)
    requires marks.Of(role).Some? && marks.Of(role).value.done ==> m.done
    ensures forall r: Role :: marks.Of(r).Some? && marks.Of(r).value.done ==>
              marks.With(role, Some(m)).Of(r).Some? && marks.With(role, Some(m)).Of(r).value.done
  {
  }

  lemma LaunchTurn(rules: Rules, l: Look, o: Probed, role: Role, fundLeg: Leg, ladder: TwinLadder, t: Found, twin: TwinNode)
    requires LadderFor(l.s, role) == Some(ladder) && ladder.fundLeg == Some(fundLeg) && twin == l.nodes.Of(ladder.leg.value)
    requires !IsDone(o.w, role) && HomeSpent(l, fundLeg)
    requires FoundKept(o.w.found.Of(fundLeg), Some(t))
    requires t.homeSpentAt == SpentAt(o.w, fundLeg) || t.homeSpentAt == Some(l.now)
    requires t.homeSpentAt.Some? && l.now - t.homeSpentAt.value >= rules.delayMs
    requires twin.isUnspent(Recoverable(l.s, fundLeg).value.at)
    requires l.s.plan.Some? && twin.height >= l.s.plan.value.locktimes.Of(fundLeg)
    ensures Turn(rules, l, o, role, Launch(o, l.s, role, fundLeg, ladder, t, twin, l.now))
  {
    hide LadderFor, Recoverable, PickTier, FirstAllowed, Gains;
    var start := StartTier(o.w, role, ladder, twin);
    if start < 0 || start >= |ladder.tiers| {
      PutGains(l, o.w, fundLeg, t, o.w.marks);
    } else {
      var r := FirstAllowed(ladder.tiers, start, twin.judge);
      var last := |ladder.tiers| - 1;
      if r.None? {
        MarksWith(o.w.marks, role, Mark(false, last));
        PutGains(l, o.w, fundLeg, t.(waiting := Some(Mempool)), o.w.marks.With(role, Some(Mark(false, last))));
        PutGains(l, o.w, fundLeg, t.(waiting := Some(Mempool)), o.w.marks);
      } else {
        var tx := ladder.tiers[r.value].tx;
        var t' := t.(resolved := Some(Swept(twin.broadcast(tx))), waiting := None);
        MarksWith(o.w.marks, role, Mark(true, r.value));
        PutGains(l, o.w, fundLeg, t', o.w.marks.With(role, Some(Mark(true, r.value))));
      }
    }
  }

  lemma ProbeRoleTurn(rules: Rules, l: Look, o: Probed, role: Role)
    requires l.s.plan.Some?
    ensures Turn(rules, l, o, role, ProbeRole(rules, l.s, o, role, l.nodes, l.now))
  {
    hide Launch, Gains, Launched, Watch, Recoverable;
    SameGains(l, o.w);
    var ladder := LadderFor(l.s, role);
    if o.ok && ladder.Some? && !IsDone(o.w, role) {
      var fundLeg, leg := ladder.value.fundLeg.value, ladder.value.leg.value;
      var f := Recoverable(l.s, fundLeg);
      if f.Some? {
        var home, twin, lock := l.nodes.Of(fundLeg), l.nodes.Of(leg), l.s.plan.value.locktimes.Of(fundLeg);
        WatchGains(o.w.found.Of(fundLeg), f.value.at, lock, home, twin, l.now);
        var r := Watch(o.w.found.Of(fundLeg), f.value.at, lock, home, twin, l.now);
        if r.Some? {
          var t := r.value;
          var held := HeldBack(rules, t, f.value.at, lock, home, twin, l.now);
          if held.Some? {
            PutGains(l, o.w, fundLeg, t.(waiting := held), o.w.marks);
          } else if !twin.isUnspent(f.value.at) {
            MarksWith(o.w.marks, role, Mark(true, 0));
            PutGains(l, o.w, fundLeg, t.(resolved := Some(External), waiting := None), o.w.marks.With(role, Some(Mark(true, 0))));
          } else {
            LaunchTurn(rules, l, o, role, fundLeg, ladder.value, t, twin);
          }
        }
      }
    }
  }

  // ---------------------------------------------------------------------------
  // Swept once, late enough, and at the lowest tier that goes through
  // ---------------------------------------------------------------------------

  ghost predicate SeenSpent(looks: seq<Look>, leg: Leg, at: nat) {
    exists k :: 0 <= k < |looks| && looks[k].now == at && HomeSpent(looks[k], leg)
  }

  function StartAt(rules: Rules, looks: seq<Look>, j: nat, w: Sweep): int
    requires j < |looks| && LadderFor(looks[j].s, w.role).Some?
  {
    var ladder := LadderFor(looks[j].s, w.role).value;
    StartTier(Probes(rules, looks[..j]).w, w.role, ladder, looks[j].nodes.Of(ladder.leg.value))
  }

  /** The sweep went out at look j, ready from the starting tier left by the earlier looks. */
  predicate SentAt(rules: Rules, looks: seq<Look>, j: nat, w: Sweep)
    requires j < |looks|
  {
    && looks[j].now == w.now && LadderFor(looks[j].s, w.role).Some?
    && StartAt(rules, looks, j, w) >= 0 && Ready(looks[j], w, StartAt(rules, looks, j, w))
  }

  /** It was sent at some look, the delay after some look had seen the home outpoint spent. */
  ghost predicate Justified(rules: Rules, looks: seq<Look>, w: Sweep) {
    && (exists j :: 0 <= j < |looks| && SentAt(rules, looks, j, w))
    && (exists at :: SeenSpent(looks, w.fundLeg, at) && w.now - at >= rules.delayMs)
  }

  ghost predicate Orderly(rules: Rules, looks: seq<Look>, o: Probed) {
    && (forall i :: 0 <= i < |o.sweeps| ==> IsDone(o.w, o.sweeps[i].role) && Justified(rules, looks, o.sweeps[i]))
    && (forall i, j :: 0 <= i < j < |o.sweeps| ==> o.sweeps[i].role != o.sweeps[j].role)
    && (forall leg: Leg :: SpentAt(o.w, leg).Some? ==> SeenSpent(looks, leg, SpentAt(o.w, leg).value))
  }

  lemma SeenLater(looks: seq<Look>, l: Look, leg: Leg, at: nat)
    requires SeenSpent(looks, leg, at)
    ensures SeenSpent(looks + [l], leg, at)
  {
    hide HomeSpent;
    var k :| 0 <= k < |looks| && looks[k].now == at && HomeSpent(looks[k], leg);
    assert (looks + [l])[k] == looks[k];
  }

  lemma JustifiedLater(rules: Rules, looks: seq<Look>, l: Look, w: Sweep)
    requires Justified(rules, looks, w)
    ensures Justified(rules, looks + [l], w)
  {
    hide Ready, Probes, StartTier, LadderFor, SeenSpent;
    var j :| 0 <= j < |looks| && SentAt(rules, looks, j, w);
    assert (looks + [l])[j] == looks[j] && (looks + [l])[..j] == looks[..j];
    assert SentAt(rules, looks + [l], j, w);
    var at :| SeenSpent(looks, w.fundLeg, at) && w.now - at >= rules.delayMs;
    SeenLater(looks, l, w.fundLeg, at);
  }

  lemma OrderlyLater(rules: Rules, looks: seq<Look>, l: Look, o: Probed)
    requires Orderly(rules, looks, o)
    ensures Orderly(rules, looks + [l], o)
  {
    hide Justified, SeenSpent;
    forall i | 0 <= i < |o.sweeps| ensures Justified(rules, looks + [l], o.sweeps[i]) {
      JustifiedLater(rules, looks, l, o.sweeps[i]);
    }
    forall leg: Leg | SpentAt(o.w, leg).Some? ensures SeenSpent(looks + [l], leg, SpentAt(o.w, leg).value) {
      SeenLater(looks, l, leg, SpentAt(o.w, leg).value);
    }
  }

  /** One role's turn at the last look keeps the order; its mark is still the one the earlier looks left. */
  lemma TurnOrderly(rules: Rules, looks: seq<Look>, l: Look, o: Probed, role: Role, o': Probed)
    requires Orderly(rules, looks + [l], o) && Turn(rules, l, o, role, o')
    requires o.w.marks.Of(role) == Probes(rules, looks).w.marks.Of(role)
    ensures Orderly(rules, looks + [l], o')
  {
    hide Justified, SeenSpent, Launched, FoundKept, Probes, HomeSpent;
    var all := looks + [l];
    forall leg: Leg | SpentAt(o'.w, leg).Some? ensures SeenSpent(all, leg, SpentAt(o'.w, leg).value) {
      if SpentAt(o'.w, leg) != SpentAt(o.w, leg) {
        SeenNow(looks, l, leg);
      }
    }
    if o'.sweeps != o.sweeps {
      var w := o'.sweeps[|o.sweeps|];
      LaunchedShape(rules, l, o, role, o', w);
      LaunchedJustified(rules, looks, l, o, role, o', w);
      forall i | 0 <= i < |o'.sweeps| ensures IsDone(o'.w, o'.sweeps[i].role) && Justified(rules, all, o'.sweeps[i]) {
        if i < |o.sweeps| {
          assert o'.sweeps[i] == o.sweeps[i];
        }
      }
    }
  }

  lemma LaunchedShape(rules: Rules, l: Look, o: Probed, role: Role, o': Probed, w: Sweep)
    requires Launched(rules, l, o, role, o', w)
    ensures o'.sweeps == o.sweeps + [w] && w.role == role && IsDone(o'.w, role) && !IsDone(o.w, role)
    ensures SpentAt(o'.w, w.fundLeg).Some?
  {
  }

  lemma SeenNow(looks: seq<Look>, l: Look, leg: Leg)
    requires HomeSpent(l, leg)
    ensures SeenSpent(looks + [l], leg, l.now)
  {
    hide HomeSpent;
    assert (looks + [l])[|looks|] == l;
  }

  lemma LaunchedJustified(rules: Rules, looks: seq<Look>, l: Look, o: Probed, role: Role, o': Probed, w: Sweep)
    requires Launched(rules, l, o, role, o', w)
    requires o.w.marks.Of(role) == Probes(rules, looks).w.marks.Of(role)
    requires SeenSpent(looks + [l], w.fundLeg, SpentAt(o'.w, w.fundLeg).value)
    ensures Justified(rules, looks + [l], w)
  {
    hide Ready, Probes, PickTier, LadderFor, SeenSpent;
    var all := looks + [l];
    assert all[|looks|] == l && all[..|looks|] == looks;
    assert SentAt(rules, all, |looks|, w);
  }

  lemma ProbeOrderly(rules: Rules, looks: seq<Look>, l: Look)
    requires Orderly(rules, looks, Probes(rules, looks))
    ensures Orderly(rules, looks + [l], Probes(rules, looks + [l]))
  {
    hide Orderly, ProbeRole, Turn, Probes;
    var p := Probes(rules, looks);
    OrderlyLater(rules, looks, l, p);
    ProbesNext(rules, looks, l);
    if !Skips(rules, l.s, p.w, l.now) {
      var o := Probed(p.w.(probedAt := Some(l.now)), true, p.sweeps);
      SameOrder(rules, looks + [l], p, o);
      var a := ProbeRole(rules, l.s, o, Alice, l.nodes, l.now);
      ProbeRoleTurn(rules, l, o, Alice);
      TurnOrderly(rules, looks, l, o, Alice, a);
      KeepsOther(rules, l, o, Alice, a);
      ProbeRoleTurn(rules, l, a, Bob);
      TurnOrderly(rules, looks, l, a, Bob, ProbeRole(rules, l.s, a, Bob, l.nodes, l.now));
    }
  }

  lemma KeepsOther(rules: Rules, l: Look, o: Probed, role: Role, o': Probed)
    requires Turn(rules, l, o, role, o')
    ensures o'.w.marks.Of(OtherRole(role)) == o.w.marks.Of(OtherRole(role))
  {
  }

  lemma SameOrder(rules: Rules, looks: seq<Look>, p: Probed, o: Probed)
    requires Orderly(rules, looks, p) && o.sweeps == p.sweeps && o.w.found == p.w.found && o.w.marks == p.w.marks
    ensures Orderly(rules, looks, o)
  {
    hide Justified, SeenSpent;
    assert forall r: Role :: IsDone(o.w, r) == IsDone(p.w, r);
    assert forall leg: Leg :: SpentAt(o.w, leg) == SpentAt(p.w, leg);
  }

  lemma ProbesNext(rules: Rules, looks: seq<Look>, l: Look)
    ensures Probes(rules, looks + [l]) == Probe(rules, l.s, Probes(rules, looks), l.nodes, l.now)
  {
    hide Probe;
    assert (looks + [l])[..|looks|] == looks;
  }

  lemma {:induction false} ProbesOrderly(rules: Rules, looks: seq<Look>)
    ensures Orderly(rules, looks, Probes(rules, looks))
  {
    hide Justified, Probe;
    if looks != [] {
      var before, l := looks[..|looks| - 1], looks[|looks| - 1];
      ProbesOrderly(rules, before);
      ProbeOrderly(rules, before, l);
      assert before + [l] == looks;
    }
  }

  /** Over all probes of a swap, whatever happens to it in between: each role's twin is swept at most once. */
  lemma SweptOnce(rules: Rules, looks: seq<Look>, i: nat, j: nat)
    requires i < j < |Probes(rules, looks).sweeps|
    ensures Probes(rules, looks).sweeps[i].role != Probes(rules, looks).sweeps[j].role
  {
    hide Justified, Probes, SeenSpent;
    ProbesOrderly(rules, looks);
  }

  /** A sweep goes out at a look where the home outpoint is spent and the twin chain is at the lock height, the delay
      after a look that saw that spend, at the lowest accepted tier from the starting one. */
  lemma SweptInTime(rules: Rules, looks: seq<Look>, w: Sweep)
    requires w in Probes(rules, looks).sweeps
    ensures exists j :: 0 <= j < |looks| && SentAt(rules, looks, j, w)
    ensures exists at :: SeenSpent(looks, w.fundLeg, at) && w.now - at >= rules.delayMs
  {
    hide SentAt, Probes, SeenSpent;
    ProbesOrderly(rules, looks);
    var i :| 0 <= i < |Probes(rules, looks).sweeps| && Probes(rules, looks).sweeps[i] == w;
    assert Justified(rules, looks, w);
  }

  /** A twin once found stays on record, with its dates, and once resolved stays resolved. */
  lemma FoundStays(rules: Rules, looks: seq<Look>, l: Look, leg: Leg)
    ensures FoundKept(Probes(rules, looks).w.found.Of(leg), Probes(rules, looks + [l]).w.found.Of(leg))
  {
    hide ProbeRole, Launched, Probes;
    var p := Probes(rules, looks);
    ProbesNext(rules, looks, l);
    if !Skips(rules, l.s, p.w, l.now) {
      var o := Probed(p.w.(probedAt := Some(l.now)), true, p.sweeps);
      ProbeRoleTurn(rules, l, o, Alice);
      ProbeRoleTurn(rules, l, ProbeRole(rules, l.s, o, Alice, l.nodes, l.now), Bob);
    }
  }
}
