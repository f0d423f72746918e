/** Secrets, scripts, deposits and terminal states over whole runs, and what one poll leaves behind. */
module SwapPromises {
  import opened Bytes
  import opened Legs
  import opened SwapState
  import opened SwapSteps
  import opened SwapSound
  import opened SwapRuns
  import opened SwapSafety
  import Deposit
  import Depth
  import Hex
  import Htlc

  // ---------------------------------------------------------------------------
  // Written once
  // ---------------------------------------------------------------------------

  /** From any point of a run to its end: terms, hash, keys and preimage do not change once set, a confirmed
      deposit keeps its outpoint, amount and height and never becomes unspent again, and an underfunded leg stays
      marked as one. */
  lemma {:induction false} SetOnce(cfg: Config, terms: Terms, events: seq<Event>, k: nat)
    requires k <= |events|
    ensures Kept(Run(cfg, terms, events[..k]).s, Run(cfg, terms, events).s)
    decreases |events|
  {
    hide Kept, Apply;
    if k == |events| {
      assert events[..k] == events;
      SameKept(Run(cfg, terms, events).s);
    } else {
      var before := events[..|events| - 1];
      assert before[..k] == events[..k];
      SetOnce(cfg, terms, before, k);
      var s := Run(cfg, terms, before).s;
      ApplyKept(cfg, s, events[|events| - 1]);
      KeptTransitive(Run(cfg, terms, events[..k]).s, s, Run(cfg, terms, events).s);
    }
  }

  /** In every run a recorded preimage has 32 bytes and hashes to the agreed text; recorded funding meets the agreed
      amount, on the BTC leg with the fee on top, and recorded short funding does not; and a deposit's confirmations
      are those at the last polled height. */
  lemma RecordsAreTrue(cfg: Config, terms: Terms, events: seq<Event>)
    ensures var s := Run(cfg, terms, events).s;
            && (s.preimage.Some? ==>
                  |s.preimage.value| == 32 && s.hashText == Some(Hex.Encode(cfg.sha(s.preimage.value))))
            && (s.funding.btc.Some? ==> s.funding.btc.value.amount >= terms.btcSats + terms.feeSats)
            && (s.funding.qbit.Some? ==> s.funding.qbit.value.amount >= terms.qbtSats)
            && (s.short.btc.Some? ==> s.short.btc.value.amount < terms.btcSats + terms.feeSats)
            && (s.short.qbit.Some? ==> s.short.qbit.value.amount < terms.qbtSats)
            && (forall leg: Leg :: Confirmed(s.funding.Of(leg)) ==>
                  s.heights.Some?
                  && s.funding.Of(leg).value.confs == s.heights.value.Of(leg) - s.funding.Of(leg).value.height.value + 1)
  {
    hide Scripted, Armed, Gated, Tracked, Hex.Encode;
    RunFine(cfg, terms, events);
    SetOnce(cfg, terms, events, 0);
    StartsWithTerms(cfg, terms, events);
    var s := Run(cfg, terms, events).s;
    forall leg: Leg | Confirmed(s.funding.Of(leg))
      ensures s.heights.Some?
              && s.funding.Of(leg).value.confs == s.heights.value.Of(leg) - s.funding.Of(leg).value.height.value + 1
    {
      assert leg == Btc || leg == Qbit;
    }
  }

  lemma StartsWithTerms(cfg: Config, terms: Terms, events: seq<Event>)
    ensures Run(cfg, terms, events[..0]).s == Initial(terms)
  {
    hide Apply;
  }

  // ---------------------------------------------------------------------------
  // Scripts and the clients' own check
  // ---------------------------------------------------------------------------

  function Other(role: Role): Role {
    if role == Alice then Bob else Alice
  }

  /** The key a client uses for a role on a leg: its own, or the counterparty's as the view shows it. */
  function KeyFor(s: Swap, self: Role, own: Per<bytes>, role: Role, leg: Leg): Result<bytes>
    requires s.party.Of(Other(self)).Some?
  {
    if role == self then Ok(own.Of(leg)) else Hex.Decode(s.party.Of(Other(self)).value.Of(leg))
  }

  function ClientSpk(cfg: Config, s: Swap, self: Role, own: Per<bytes>, leg: Leg, claim: Role, refund: Role): Result<bytes>
    requires s.party.Of(Other(self)).Some? && s.hashText.Some? && s.plan.Some?
  {
    var h :- Hex.Decode(s.hashText.value);
    var c :- KeyFor(s, self, own, claim, leg);
    var r :- KeyFor(s, self, own, refund, leg);
    var script :- Htlc.HtlcScript(cfg.rules.Of(leg).family, h, c, r, s.plan.value.locktimes.Of(leg));
    Ok(Deposit.HtlcSpk(cfg.rules.Of(leg).family, cfg.sha, script))
  }

  /** verifyHtlc on a view that shows HTLCs. */
  predicate ClientAccepts(cfg: Config, s: Swap, self: Role, own: Per<bytes>)
    requires s.htlc.Some?
  {
    if s.plan.None? || s.party.Of(Other(self)).None? || s.hashText.None? then true
    else
      && ClientSpk(cfg, s, self, own, FROM, Bob, Alice)
         == Ok(Deposit.HtlcSpk(cfg.rules.Of(FROM).family, cfg.sha, s.htlc.value.Of(FROM)))
      && ClientSpk(cfg, s, self, own, TO, Alice, Bob)
         == Ok(Deposit.HtlcSpk(cfg.rules.Of(TO).family, cfg.sha, s.htlc.value.Of(TO)))
  }

  predicate OwnKeys(s: Swap, self: Role, own: Per<bytes>) {
    s.party.Of(self).Some? && Hex.Decode(s.party.Of(self).value.btc) == Ok(own.btc)
    && Hex.Decode(s.party.Of(self).value.qbit) == Ok(own.qbit)
  }

  lemma ClientBuildsScript(cfg: Config, s: Swap, self: Role, own: Per<bytes>, leg: Leg, claim: Role)
    requires s.party.alice.Some? && s.party.bob.Some? && s.hashText.Some? && s.plan.Some? && OwnKeys(s, self, own)
    ensures var script := Script(cfg, leg, s.hashText.value, s.party.Of(claim).value, s.party.Of(Other(claim)).value,
                                 s.plan.value.locktimes.Of(leg));
            var spk := ClientSpk(cfg, s, self, own, leg, claim, Other(claim));
            if script.Ok? then spk == Ok(Deposit.HtlcSpk(cfg.rules.Of(leg).family, cfg.sha, script.value)) else spk.Err?
  {
    hide Hex.Decode, Htlc.HtlcScript, Deposit.HtlcSpk;
  }

  /** In every run, a client that joined with its real keys accepts the published HTLCs exactly when the recorded
      locktimes are valid lock heights, which the last derivation fails to ensure only by throwing. */
  lemma HonestClientAccepts(cfg: Config, terms: Terms, events: seq<Event>, self: Role, own: Per<bytes>)
    requires var s := Run(cfg, terms, events).s; s.htlc.Some? && OwnKeys(s, self, own)
    ensures var s := Run(cfg, terms, events).s;
            s.plan.Some? && (ClientAccepts(cfg, s, self, own) <==> ValidLocktimes(s.plan.value.locktimes))
  {
    hide Known, Weighed, Armed, Counted, Gated, Tracked, Run, Hex.Decode, ValidLocktimes, OwnKeys, ClientSpk, Script;
    RunFine(cfg, terms, events);
    var s := Run(cfg, terms, events).s;
    var l := s.plan.value.locktimes;
    BuildSucceeds(cfg, s.hashText.value, s.party.alice.value, s.party.bob.value, l);
    ClientBuildsScript(cfg, s, self, own, FROM, Bob);
    ClientBuildsScript(cfg, s, self, own, TO, Alice);
  }

  /** In every run, while the locktimes are valid lock heights, the recorded scripts are the HTLCs of the recorded
      hash, keys and locktimes: on FROM Bob claims and Alice refunds, on TO Alice claims and Bob refunds. */
  lemma RecordedScripts(cfg: Config, terms: Terms, events: seq<Event>)
    ensures var s := Run(cfg, terms, events).s;
            s.htlc.Some? ==>
              && s.plan.Some? && s.hashText.Some? && s.party.alice.Some? && s.party.bob.Some?
              && (ValidLocktimes(s.plan.value.locktimes) ==>
                    var l, h, a, b := s.plan.value.locktimes, s.hashText.value, s.party.alice.value, s.party.bob.value;
                    && Script(cfg, FROM, h, b, a, l.Of(FROM)) == Ok(s.htlc.value.Of(FROM))
                    && Script(cfg, TO, h, a, b, l.Of(TO)) == Ok(s.htlc.value.Of(TO)))
  {
    hide Known, Weighed, Armed, Counted, Gated, Tracked, Run, ValidLocktimes, Script;
    RunFine(cfg, terms, events);
  }

  // ---------------------------------------------------------------------------
  // Terminal states
  // ---------------------------------------------------------------------------

  /** Only a party's own broadcast leaves a terminal state; every other call changes nothing but the pre-signed
      bundles. */
  lemma TerminalStays(cfg: Config, s: Swap, e: Event)
    requires Terminal(s.state) && !e.PartySend?
    ensures var o := Apply(cfg, s, e); o.log == [] && o.s == s.(finish := o.s.finish)
  {
    hide Build, Observe, Derive, BundleRefused, FirstMoves, Resending, KeysAreHex, Joined;
  }

  /** A party's claim of TO that broadcast relays: the gate is open, the marker is there where it must be, and the node
      accepts. It does not ask for the swap's state. */
  predicate RelaysReveal(cfg: Config, s: Swap, e: Event) {
    && e.PartySend? && e.leg == TO && e.kind == Claim && RelayGate(cfg, s)
    && (cfg.rules.Of(TO).replayOpReturn ==> CarriesMarker(e.tx)) && e.node.testAccept(e.tx)
  }

  /** What leads out of a terminal state: exactly a relayed claim of TO. */
  lemma LeavesTerminalExactly(cfg: Config, s: Swap, e: Event)
    requires Terminal(s.state)
    ensures var o := Apply(cfg, s, e);
            && (!Terminal(o.s.state) <==> RelaysReveal(cfg, s, e))
            && (RelaysReveal(cfg, s, e) ==> o.ok && o.s.state == Claimed)
  {
    hide SubmitParty, Poll, BundleRefused, Drive, RelayGate, CarriesMarker, FindPreimage;
    if !e.PartySend? {
      TerminalStays(cfg, s, e);
    }
  }

  // ---------------------------------------------------------------------------
  // Cancelling
  // ---------------------------------------------------------------------------

  predicate Spending(st: State) {
    st == Claimed || st == Complete || st == Refunded
  }

  lemma StepState(cfg: Config, s: Swap, role: Role, kind: Kind, t: Swap, entries: seq<Entry>)
    requires StepOk(cfg, s, role, kind, t, entries)
    ensures t.state == s.state || Spending(t.state)
  {
    hide FromBundle, MayStart, LearntFrom;
  }

  lemma AttemptState(cfg: Config, o: Outcome, role: Role, kind: Kind, nodes: Per<Node>, now: nat)
    ensures var t := Attempt(cfg, o, role, kind, nodes, now).s; t.state == o.s.state || Spending(t.state)
  {
    hide Attempt, StepOk;
    var o' := Attempt(cfg, o, role, kind, nodes, now);
    AttemptSteps(cfg, o, role, kind, nodes, now);
    StepState(cfg, o.s, role, kind, o'.s, o'.log[|o.log|..]);
  }

  lemma ResendState(cfg: Config, o: Outcome, role: Role, kind: Kind, nodes: Per<Node>, now: nat)
    ensures var t := Resend(cfg, o, role, kind, nodes, now).s; t.state == o.s.state || Spending(t.state)
  {
    hide Resend, StepOk;
    var o' := Resend(cfg, o, role, kind, nodes, now);
    ResendSteps(cfg, o, role, kind, nodes, now);
    StepState(cfg, o.s, role, kind, o'.s, o'.log[|o.log|..]);
  }

  lemma DriveState(cfg: Config, s: Swap, nodes: Per<Node>, after: Per<Node>, now: nat)
    ensures var t := Drive(cfg, s, nodes, after, now).s; t.state == s.state || Spending(t.state)
  {
    hide Attempt, Resend, WatchtowerIdle, Spending;
    var a := Attempt(cfg, Done(s), Alice, Claim, nodes, now);
    AttemptState(cfg, Done(s), Alice, Claim, nodes, now);
    var b := Attempt(cfg, a, Bob, Claim, nodes, now);
    AttemptState(cfg, a, Bob, Claim, nodes, now);
    var c := Attempt(cfg, b, Alice, Refund, nodes, now);
    AttemptState(cfg, b, Alice, Refund, nodes, now);
    var d := Attempt(cfg, c, Bob, Refund, nodes, now);
    AttemptState(cfg, c, Bob, Refund, nodes, now);
    var e := Resend(cfg, d, Alice, Claim, after, now);
    ResendState(cfg, d, Alice, Claim, after, now);
    var f := Resend(cfg, e, Bob, Claim, after, now);
    ResendState(cfg, e, Bob, Claim, after, now);
    var g := Resend(cfg, f, Alice, Refund, after, now);
    ResendState(cfg, f, Alice, Refund, after, now);
    ResendState(cfg, g, Bob, Refund, after, now);
  }

  lemma SubmitState(cfg: Config, s: Swap, role: Role, keys: Keys, hashText: Option<string>, nodes: Per<Node>, now: nat)
    ensures var t := SubmitParty(cfg, s, role, keys, hashText, nodes, now).s;
            t.state == s.state || ((s.state == Created || s.state == Ready) && t.state == Ready)
  {
    hide Build, Hex.Decode, PlanOf, KeysAreHex;
  }

  lemma PollState(cfg: Config, s: Swap, nodes: Per<Node>, now: nat)
    ensures var t := Poll(cfg, s, nodes, now).s;
            (t.state == Canceled ==> s.state == Canceled) && (Stopped(s.state) ==> Stopped(t.state))
  {
    hide Observe, Buried, InTime, RefundOf;
    var polled := s.(heights := Some(Per(nodes.btc.height, nodes.qbit.height)));
    if polled.htlc.Some? {
      ObserveState(cfg, polled, nodes);
    }
  }

  /** Any call: a swap becomes CANCELED exactly by a party cancelling it while it is unfinished and shows no deposit,
      full or short; and nothing leads from a claimed, finished or canceled swap back to an open one. */
  lemma CanceledExactly(cfg: Config, s: Swap, e: Event)
    ensures var t := Apply(cfg, s, e).s;
            && (s.state != Canceled ==>
                  (t.state == Canceled <==> e.CancelBy? && !AnyDeposit(s) && !Terminal(s.state)))
            && (Stopped(s.state) ==> Stopped(t.state))
  {
    hide SubmitParty, Poll, BundleRefused, Drive, RelayGate, CarriesMarker, FindPreimage;
    match e
    case Submit(role, keys, hashText, nodes, now) => SubmitState(cfg, s, role, keys, hashText, nodes, now);
    case CancelBy(role) =>
    case PollTick(nodes, now) => PollState(cfg, s, nodes, now);
    case Finish(role, bundle) =>
    case PartySend(leg, kind, tx, node, now) =>
    case WatchTick(nodes, after, now) => DriveState(cfg, s, nodes, after, now);
  }

  /** A deposit is on record for good: confirmed, or short. */
  predicate Pinned(s: Swap) {
    Confirmed(s.funding.btc) || Confirmed(s.funding.qbit) || ShortFunded(s)
  }

  /** From any point of a run on: once a deposit is confirmed or short, a swap that is not canceled never is; and once
      it is claimed, finished or canceled it never opens again. */
  lemma {:induction false} NeverCanceledOnceFunded(cfg: Config, terms: Terms, events: seq<Event>, k: nat)
    requires k <= |events|
    ensures var s, t := Run(cfg, terms, events[..k]).s, Run(cfg, terms, events).s;
            && (Pinned(s) && s.state != Canceled ==> t.state != Canceled)
            && (Stopped(s.state) ==> Stopped(t.state))
    decreases |events|
  {
    hide Apply, Kept, Stopped;
    if k == |events| {
      assert events[..k] == events;
    } else {
      var before := events[..|events| - 1];
      assert before[..k] == events[..k];
      NeverCanceledOnceFunded(cfg, terms, before, k);
      SetOnce(cfg, terms, before, k);
      PinnedStays(Run(cfg, terms, events[..k]).s, Run(cfg, terms, before).s);
      CanceledExactly(cfg, Run(cfg, terms, before).s, events[|events| - 1]);
    }
  }

  lemma PinnedStays(s: Swap, t: Swap)
    requires Kept(s, t)
    ensures Pinned(s) ==> Pinned(t)
  {
  }

  // ---------------------------------------------------------------------------
  // The fee ladder
  // ---------------------------------------------------------------------------

  predicate Pays(tiers: seq<Tier>, k: int, target: real) {
    0 <= k < |tiers| && tiers[k].feerate >= target
  }

  /** The tier picked on the priced leg is the first one from `from` on that pays the target, or the last one when
      none does. */
  lemma {:induction false} TierIsCheapest(tiers: seq<Tier>, from: nat, target: real)
    ensures var k := TierPaying(tiers, from, target);
            || (from <= k && Pays(tiers, k, target) && forall j :: from <= j < k ==> !Pays(tiers, j, target))
            || (k == |tiers| - 1 && forall j :: from <= j ==> !Pays(tiers, j, target))
    decreases |tiers| - from
  {
    if from < |tiers| && tiers[from].feerate < target {
      TierIsCheapest(tiers, from + 1, target);
    }
  }

  /** A re-send never goes out at a lower tier than the one on record. */
  lemma ResendNeverDowngrades(cfg: Config, o: Outcome, role: Role, kind: Kind, nodes: Per<Node>, now: nat)
    requires (role, kind) in o.s.wt
    ensures var t := Resend(cfg, o, role, kind, nodes, now).s;
            (role, kind) in t.wt ==> t.wt[(role, kind)].tier >= o.s.wt[(role, kind)].tier
  {
    hide TierTx, PickTier, Recoverable, FindPreimage;
  }

  // ---------------------------------------------------------------------------
  // A poll is a function of the chains
  // ---------------------------------------------------------------------------

  /** One leg on which a poll finds nothing new. */
  predicate StillLeg(f: Option<Funding>, short: Option<Funding>, need: nat, o: Option<Output>, node: Node) {
    var (g, sh) := Discovered(f, short, need, o);
    WithConfs(MarkSpent(g, node), node.height) == f && MarkSpent(sh, node) == short
  }

  lemma DiscoveredOnce(cur: Option<Funding>, short: Option<Funding>, need: nat, o: Option<Output>, node: Node)
    ensures var (f, sh) := Discovered(cur, short, need, o);
            StillLeg(WithConfs(MarkSpent(f, node), node.height), MarkSpent(sh, node), need, o, node)
  {
  }

  function OutputAt(cfg: Config, s: Swap, leg: Leg, node: Node): Option<Output>
    requires s.htlc.Some?
  {
    node.findOutput(Deposit.HtlcSpk(cfg.rules.Of(leg).family, cfg.sha, s.htlc.value.Of(leg)))
  }

  /** Spends that the node can name are already classified. */
  predicate Classified(s: Swap, leg: Leg, node: Node) {
    IsSpent(s.funding.Of(leg)) && node.spendingTxid(s.funding.Of(leg).value.at).Some? ==>
      (leg, Claim) in s.broadcasts || (leg, Refund) in s.broadcasts
  }

  predicate Still(cfg: Config, s: Swap, nodes: Per<Node>) {
    && s.htlc.Some?
    && StillLeg(s.funding.btc, s.short.btc, Need(s.terms, Btc), OutputAt(cfg, s, Btc, nodes.btc), nodes.btc)
    && StillLeg(s.funding.qbit, s.short.qbit, Need(s.terms, Qbit), OutputAt(cfg, s, Qbit, nodes.qbit), nodes.qbit)
    && Classified(s, Btc, nodes.btc) && Classified(s, Qbit, nodes.qbit)
  }

  lemma BackfillShape(cfg: Config, s: Swap, leg: Leg, node: Node)
    ensures var t := Backfill(cfg, s, leg, node);
            && t == s.(preimage := t.preimage, broadcasts := t.broadcasts)
            && s.broadcasts.Keys <= t.broadcasts.Keys
            && Classified(t, leg, node) && (Classified(s, leg, node) ==> t == s)
  {
    hide FindPreimage;
  }

  lemma BackfillKeepsClassified(cfg: Config, s: Swap, leg: Leg, node: Node, other: Leg, otherNode: Node)
    requires Classified(s, other, otherNode)
    ensures Classified(Backfill(cfg, s, leg, node), other, otherNode)
  {
    hide Backfill;
    BackfillShape(cfg, s, leg, node);
  }

  /** The deposits as found and marked, before spends are classified and confirmations counted. */
  function FoundAndMarked(cfg: Config, s: Swap, nodes: Per<Node>): Swap
    requires s.htlc.Some?
  {
    MarkAllSpent(Discover(cfg, Discover(cfg, s, Btc, nodes.btc), Qbit, nodes.qbit), nodes)
  }

  lemma FoundAndMarkedIs(cfg: Config, s: Swap, nodes: Per<Node>)
    requires s.htlc.Some?
    ensures var b := Discovered(s.funding.btc, s.short.btc, Need(s.terms, Btc), OutputAt(cfg, s, Btc, nodes.btc));
            var q := Discovered(s.funding.qbit, s.short.qbit, Need(s.terms, Qbit), OutputAt(cfg, s, Qbit, nodes.qbit));
            FoundAndMarked(cfg, s, nodes)
            == s.(funding := Per(MarkSpent(b.0, nodes.btc), MarkSpent(q.0, nodes.qbit)),
                  short := Per(MarkSpent(b.1, nodes.btc), MarkSpent(q.1, nodes.qbit)))
  {
    hide Discovered, MarkSpent, Need, Deposit.HtlcSpk;
  }

  lemma ObserveStill(cfg: Config, s: Swap, nodes: Per<Node>)
    requires s.htlc.Some?
    ensures Still(cfg, Observe(cfg, s, nodes), nodes)
  {
    hide Observe, Backfill, FoundAndMarked, Discovered, MarkSpent, Need, OutputAt, StillLeg, Classified, WithConfs;
    ObserveParts(cfg, s, nodes);
    var marked := FoundAndMarked(cfg, s, nodes);
    FoundAndMarkedIs(cfg, s, nodes);
    DiscoveredOnce(s.funding.btc, s.short.btc, Need(s.terms, Btc), OutputAt(cfg, s, Btc, nodes.btc), nodes.btc);
    DiscoveredOnce(s.funding.qbit, s.short.qbit, Need(s.terms, Qbit), OutputAt(cfg, s, Qbit, nodes.qbit), nodes.qbit);
    BackfillShape(cfg, marked, Btc, nodes.btc);
    var filled := Backfill(cfg, marked, Btc, nodes.btc);
    BackfillShape(cfg, filled, Qbit, nodes.qbit);
    BackfillKeepsClassified(cfg, filled, Qbit, nodes.qbit, Btc, nodes.btc);
    var all := Backfill(cfg, filled, Qbit, nodes.qbit);
    CountingClassified(all, nodes, Btc, nodes.btc);
    CountingClassified(all, nodes, Qbit, nodes.qbit);
    SameOutput(cfg, s, CountConfs(all, nodes), nodes);
  }

  lemma SameOutput(cfg: Config, s: Swap, t: Swap, nodes: Per<Node>)
    requires s.htlc.Some? && t.htlc == s.htlc
    ensures OutputAt(cfg, t, Btc, nodes.btc) == OutputAt(cfg, s, Btc, nodes.btc)
    ensures OutputAt(cfg, t, Qbit, nodes.qbit) == OutputAt(cfg, s, Qbit, nodes.qbit)
  {
  }

  lemma ObserveParts(cfg: Config, s: Swap, nodes: Per<Node>)
    requires s.htlc.Some?
    ensures Observe(cfg, s, nodes)
         == CountConfs(Backfill(cfg, Backfill(cfg, FoundAndMarked(cfg, s, nodes), Btc, nodes.btc), Qbit, nodes.qbit), nodes)
  {
    hide Backfill, CountConfs, MarkAllSpent, Discover;
  }

  lemma CountingClassified(s: Swap, nodes: Per<Node>, leg: Leg, node: Node)
    ensures Classified(CountConfs(s, nodes), leg, node) <==> Classified(s, leg, node)
  {
  }

  lemma StillObserve(cfg: Config, s: Swap, nodes: Per<Node>)
    requires Still(cfg, s, nodes)
    ensures Observe(cfg, s, nodes) == s
  {
    hide Backfill, FoundAndMarked, Discovered, MarkSpent, Need, OutputAt, Classified, WithConfs;
    ObserveParts(cfg, s, nodes);
    var marked := FoundAndMarked(cfg, s, nodes);
    FoundAndMarkedIs(cfg, s, nodes);
    assert CountConfs(marked, nodes) == s;
    CountingClassified(marked, nodes, Btc, nodes.btc);
    CountingClassified(marked, nodes, Qbit, nodes.qbit);
    BackfillShape(cfg, marked, Btc, nodes.btc);
    BackfillShape(cfg, marked, Qbit, nodes.qbit);
  }

  lemma RegateShape(cfg: Config, s: Swap, plan: Depth.Plan, nodes: Per<Node>, now: nat)
    ensures var t := Regate(cfg, s, plan, nodes, now);
            t == s.(state := t.state, tooLate := t.tooLate, fromConfirmedAt := t.fromConfirmedAt)
    ensures s.state != Created ==> Regate(cfg, s, plan, nodes, now).state != Created
  {
    hide Buried, InTime;
  }

  lemma SettleShape(s: Swap, now: nat)
    ensures var t := Settle(s, now); t == s.(state := t.state, settledAt := t.settledAt)
    ensures !Terminal(Settle(s, now).state) ==> Settle(s, now) == s
    ensures s.state != Created ==> Settle(s, now).state != Created
  {
  }

  lemma JudgedShape(cfg: Config, s: Swap, plan: Depth.Plan, nodes: Per<Node>, now: nat)
    ensures var t := Judge(cfg, s, plan, nodes, now);
            && t == s.(state := t.state, tooLate := t.tooLate, fromConfirmedAt := t.fromConfirmedAt,
                       settledAt := t.settledAt, refund := t.refund)
            && (s.state != Created ==> t.state != Created)
  {
    hide Regate, Settle, RefundOf;
    RegateShape(cfg, s, plan, nodes, now);
    SettleShape(Regate(cfg, s, plan, nodes, now), now);
  }

  lemma StillAfter(cfg: Config, s: Swap, plan: Depth.Plan, nodes: Per<Node>, now: nat)
    requires Still(cfg, s, nodes)
    ensures Still(cfg, Judge(cfg, s, plan, nodes, now), nodes)
  {
    hide Judge, StillLeg, Need, Deposit.HtlcSpk;
    JudgedShape(cfg, s, plan, nodes, now);
  }

  lemma RegateAgain(cfg: Config, s: Swap, plan: Depth.Plan, nodes: Per<Node>, now: nat, refund: Option<Per<Refundable>>, later: nat)
    ensures var t := Regate(cfg, s, plan, nodes, now).(refund := refund); Regate(cfg, t, plan, nodes, later) == t
  {
    hide Buried, InTime;
    var r := Regate(cfg, s, plan, nodes, now);
    RegateShape(cfg, s, plan, nodes, now);
    SameStates(cfg, s, r.(refund := refund), plan, nodes.Of(TO).height);
  }

  lemma SameStates(cfg: Config, s: Swap, t: Swap, plan: Depth.Plan, height: nat)
    requires t.funding == s.funding
    ensures PreClaimState(cfg, t, plan, height) == PreClaimState(cfg, s, plan, height)
    ensures t.tooLate == TooLate(cfg, s, plan, height) ==> TooLate(cfg, t, plan, height) == t.tooLate
    ensures PreClaim(PreClaimState(cfg, s, plan, height))
  {
    hide Buried, InTime;
  }

  /** Judging the same deposits again changes nothing. */
  lemma JudgedOnce(cfg: Config, s: Swap, plan: Depth.Plan, nodes: Per<Node>, now: nat, later: nat)
    ensures var t := Judge(cfg, s, plan, nodes, now); !Terminal(t.state) ==> Judge(cfg, t, plan, nodes, later) == t
  {
    hide Regate, Settle, RefundOf, Terminal;
    var r := Regate(cfg, s, plan, nodes, now);
    SettleShape(r, now);
    var t := Judge(cfg, s, plan, nodes, now);
    if !Terminal(t.state) {
      RegateAgain(cfg, s, plan, nodes, now, t.refund, later);
      SettledAgain(r, t.refund, now, later);
      SameRefunds(r, t, plan, nodes);
    }
  }

  lemma SettledAgain(r: Swap, refund: Option<Per<Refundable>>, now: nat, later: nat)
    requires Settle(r, now) == r && !Terminal(r.state)
    ensures Settle(r.(refund := refund), later) == r.(refund := refund)
  {
  }

  lemma SameRefunds(r: Swap, t: Swap, plan: Depth.Plan, nodes: Per<Node>)
    requires t == SurfaceRefunds(r, plan, nodes)
    ensures SurfaceRefunds(t, plan, nodes) == t
  {
  }

  lemma ObserveKeepsHeights(cfg: Config, s: Swap, nodes: Per<Node>)
    requires s.htlc.Some?
    ensures var t := Observe(cfg, s, nodes); t.heights == s.heights && t.plan == s.plan && t.htlc == s.htlc && t.state == s.state
  {
    hide Backfill, Observe, FoundAndMarked;
    ObserveParts(cfg, s, nodes);
    FoundAndMarkedIs(cfg, s, nodes);
    var marked := FoundAndMarked(cfg, s, nodes);
    BackfillShape(cfg, marked, Btc, nodes.btc);
    BackfillShape(cfg, Backfill(cfg, marked, Btc, nodes.btc), Qbit, nodes.qbit);
  }

  /** Polling again while the nodes answer the same changes nothing at all, whatever the clock says. */
  lemma PollIdempotent(cfg: Config, s: Swap, nodes: Per<Node>, now: nat, later: nat)
    ensures var o := Poll(cfg, s, nodes, now); Poll(cfg, o.s, nodes, later) == o
  {
    hide Observe, Judge, Still;
    if s.state != Created && !Terminal(s.state) && s.htlc.Some? {
      var polled := s.(heights := Some(Per(nodes.btc.height, nodes.qbit.height)));
      var seen := Observe(cfg, polled, nodes);
      ObserveStill(cfg, polled, nodes);
      ObserveKeepsHeights(cfg, polled, nodes);
      if seen.plan.None? {
        StillObserve(cfg, seen, nodes);
        assert seen.(heights := Some(Per(nodes.btc.height, nodes.qbit.height))) == seen;
      } else {
        var plan := seen.plan.value;
        var t := Judge(cfg, seen, plan, nodes, now);
        StillAfter(cfg, seen, plan, nodes, now);
        JudgedOnce(cfg, seen, plan, nodes, now, later);
        JudgedShape(cfg, seen, plan, nodes, now);
        StillObserve(cfg, t, nodes);
        assert t.(heights := Some(Per(nodes.btc.height, nodes.qbit.height))) == t;
      }
    }
  }
}
