/** The invariant of the swap record: scripts, preimage, deposits, depths and the claim gate fit together. */
module SwapSound {
  import opened Bytes
  import opened Legs
  import opened SwapState
  import Depth
  import Deposit
  import Encoding
  import Hex
  import Htlc

  // ---------------------------------------------------------------------------
  // Scripts
  // ---------------------------------------------------------------------------

  predicate ValidLocktimes(l: Per<int>) {
    Encoding.ValidLocktime(l.btc) && Encoding.ValidLocktime(l.qbit)
  }

  /** Hash and keys decode to the lengths both script families want. */
  predicate Buildable(cfg: Config, hashText: string, alice: Keys, bob: Keys) {
    Build(cfg, hashText, alice, bob, Per(1, 1)).Ok?
  }

  lemma ScriptBuilds(cfg: Config, leg: Leg, hashText: string, claim: Keys, refund: Keys, locktime: int)
    ensures Script(cfg, leg, hashText, claim, refund, locktime).Ok?
       <==> Script(cfg, leg, hashText, claim, refund, 1).Ok? && Encoding.ValidLocktime(locktime)
  {
    hide Hex.Decode, Htlc.ScriptBytes;
  }

  /** Building fails only for the hash, the keys or a locktime out of range. */
  lemma BuildSucceeds(cfg: Config, hashText: string, alice: Keys, bob: Keys, locktimes: Per<int>)
    ensures Build(cfg, hashText, alice, bob, locktimes).Ok?
       <==> Buildable(cfg, hashText, alice, bob) && ValidLocktimes(locktimes)
  {
    hide Script;
    ScriptBuilds(cfg, FROM, hashText, bob, alice, locktimes.Of(FROM));
    ScriptBuilds(cfg, TO, hashText, alice, bob, locktimes.Of(TO));
  }

  /** The recorded scripts are those of the recorded hash, keys and locktimes; only a re-derivation whose
      locktimes are out of range leaves older ones behind. */
  predicate Scripted(cfg: Config, s: Swap) {
    s.htlc.Some? ==>
      && s.plan.Some? && s.hashText.Some? && s.party.alice.Some? && s.party.bob.Some?
      && Buildable(cfg, s.hashText.value, s.party.alice.value, s.party.bob.value)
      && (ValidLocktimes(s.plan.value.locktimes) ==>
            Build(cfg, s.hashText.value, s.party.alice.value, s.party.bob.value, s.plan.value.locktimes) == Ok(s.htlc.value))
  }

  // ---------------------------------------------------------------------------
  // The rest of the record
  // ---------------------------------------------------------------------------

  /** A recorded preimage has 32 bytes and hashes to the agreed text. */
  predicate Known(cfg: Config, s: Swap) {
    s.preimage.Some? ==> |s.preimage.value| == 32 && s.hashText == Some(Hex.Encode(cfg.sha(s.preimage.value)))
  }

  predicate Holds(f: Option<Funding>, need: nat) {
    f.Some? ==> f.value.amount >= need
  }

  predicate Lacks(f: Option<Funding>, need: nat) {
    f.Some? ==> f.value.amount < need
  }

  predicate AnyDeposit(s: Swap) {
    s.funding.btc.Some? || s.funding.qbit.Some? || ShortFunded(s)
  }

  /** Funding meets what the terms ask, short funding does not, and neither is seen before HTLCs exist. */
  predicate Weighed(s: Swap) {
    && Holds(s.funding.btc, Need(s.terms, Btc)) && Holds(s.funding.qbit, Need(s.terms, Qbit))
    && Lacks(s.short.btc, Need(s.terms, Btc)) && Lacks(s.short.qbit, Need(s.terms, Qbit))
    && (AnyDeposit(s) ==> s.htlc.Some? && s.heights.Some?)
  }

  /** A stored bundle has tiers to send, and a claim or twin sweep labelled with a replay-protected leg carries the
      marker; a twin sweep is for a fork pair and spends on the other leg than the one it was funded on. */
  predicate BundleArmed(cfg: Config, b: Option<Bundle>) {
    b.Some? ==>
      && b.value.refund.tiers != []
      && (b.value.claim.Some? ==>
            b.value.claim.value.tiers != [] && !MarkersMissing(cfg, b.value.claim.value.leg, b.value.claim.value.tiers))
      && (b.value.twin.Some? ==>
            var twin := b.value.twin.value;
            && cfg.forkTwin && twin.tiers != [] && twin.leg.Some? && twin.fundLeg.Some? && twin.leg != twin.fundLeg
            && !MarkersMissing(cfg, twin.leg, twin.tiers))
  }

  predicate Armed(cfg: Config, s: Swap) {
    BundleArmed(cfg, s.finish.alice) && BundleArmed(cfg, s.finish.bob)
  }

  predicate Deep(f: Option<Funding>, height: nat) {
    f.Some? ==> f.value.confs == if f.value.height.Some? then height - f.value.height.value + 1 else 0
  }

  /** Confirmation counts are those at the last polled heights. */
  predicate Counted(s: Swap) {
    s.heights.Some? ==> Deep(s.funding.btc, s.heights.value.btc) && Deep(s.funding.qbit, s.heights.value.qbit)
  }

  /** Both deposits buried to their targets, and the TO timelock still far enough ahead. */
  predicate Gate(cfg: Config, s: Swap) {
    && s.plan.Some? && s.heights.Some?
    && Buried(cfg, FROM, s.funding.Of(FROM), s.plan.value.targets.Of(FROM))
    && Buried(cfg, TO, s.funding.Of(TO), s.plan.value.targets.Of(TO))
    && InTime(cfg, s.plan.value, s.heights.value.Of(TO))
  }

  predicate Running(st: State) {
    st == Ready || st == FromFunded || st == ToFunded || st == Maturing || st == Claimable
  }

  predicate Gated(cfg: Config, s: Swap) {
    && (Running(s.state) ==> s.htlc.Some?)
    && (s.state == Claimable ==> Gate(cfg, s) && !IsSpent(s.funding.Of(TO)))
  }

  /** What holds even in the middle of a poll. */
  predicate Loose(cfg: Config, s: Swap) {
    Scripted(cfg, s) && Known(cfg, s) && Weighed(s) && Armed(cfg, s)
  }

  predicate Sound(cfg: Config, s: Swap) {
    Loose(cfg, s) && Counted(s) && Gated(cfg, s)
  }

  lemma InitialSound(cfg: Config, terms: Terms)
    ensures Sound(cfg, Initial(terms))
  {
    hide Build, Hex.Encode;
  }

  // ---------------------------------------------------------------------------
  // Submitting, cancelling, arming
  // ---------------------------------------------------------------------------

  lemma JoinedSound(cfg: Config, s: Swap, role: Role, keys: Keys, hashText: Option<string>)
    requires Sound(cfg, s) && (s.state == Created || s.state == Ready)
    ensures Sound(cfg, Joined(s, role, keys, hashText))
    ensures var t := Joined(s, role, keys, hashText);
            t.state == s.state && (s.htlc.Some? ==> t.hashText == s.hashText && t.party == s.party)
  {
    hide Build, Hex.Encode, Buildable, BundleArmed;
  }

  lemma DeriveSound(cfg: Config, s: Swap, nodes: Per<Node>, now: nat)
    requires Sound(cfg, s) && (s.state == Created || s.state == Ready)
    requires s.hashText.Some? && s.party.alice.Some? && s.party.bob.Some?
    ensures Sound(cfg, Derive(cfg, s, nodes, now).s)
  {
    hide Build, Hex.Encode, Hex.Decode, PlanOf, Buildable, ValidLocktimes;
    BuildSucceeds(cfg, s.hashText.value, s.party.alice.value, s.party.bob.value, PlanOf(cfg, s, nodes).locktimes);
  }

  lemma SubmitSound(cfg: Config, s: Swap, role: Role, keys: Keys, hashText: Option<string>, nodes: Per<Node>, now: nat)
    requires Sound(cfg, s)
    ensures Sound(cfg, SubmitParty(cfg, s, role, keys, hashText, nodes, now).s)
  {
    hide Derive, KeysAreHex, Joined, Sound;
    if !SubmitRefused(s, role, keys, hashText) {
      var joined := Joined(s, role, keys, hashText);
      JoinedSound(cfg, s, role, keys, hashText);
      if joined.hashText.Some? && joined.party.alice.Some? && joined.party.bob.Some? {
        DeriveSound(cfg, joined, nodes, now);
      }
    }
  }

  lemma CancelSound(cfg: Config, s: Swap, role: Role)
    requires Sound(cfg, s)
    ensures Sound(cfg, Cancel(s, role).s)
  {
    hide Build, Hex.Encode, Buildable, BundleArmed;
  }

  lemma FinishSound(cfg: Config, s: Swap, role: Role, b: Bundle)
    requires Sound(cfg, s)
    ensures Sound(cfg, SubmitFinish(cfg, s, role, b).s)
  {
    hide Build, Hex.Encode, Buildable, MarkersMissing;
  }

  // ---------------------------------------------------------------------------
  // Polling
  // ---------------------------------------------------------------------------

  lemma DiscoveredSound(cur: Option<Funding>, short: Option<Funding>, need: nat, o: Option<Output>)
    requires Holds(cur, need) && Lacks(short, need)
    ensures var r := Discovered(cur, short, need, o); Holds(r.0, need) && Lacks(r.1, need)
  {
  }

  lemma DiscoverLoose(cfg: Config, s: Swap, leg: Leg, node: Node)
    requires Loose(cfg, s) && s.htlc.Some? && s.heights.Some?
    ensures var t := Discover(cfg, s, leg, node); Loose(cfg, t) && t.htlc.Some? && t.heights == s.heights
  {
    hide Build, Hex.Encode, Buildable, Deposit.HtlcSpk, Discovered, BundleArmed, Need, Holds, Lacks;
    DiscoveredSound(s.funding.Of(leg), s.short.Of(leg), Need(s.terms, leg),
                    node.findOutput(Deposit.HtlcSpk(cfg.rules.Of(leg).family, cfg.sha, s.htlc.value.Of(leg))));
  }

  lemma MarkLoose(cfg: Config, s: Swap, nodes: Per<Node>)
    requires Loose(cfg, s) && s.htlc.Some? && s.heights.Some?
    ensures var t := MarkAllSpent(s, nodes); Loose(cfg, t) && t.htlc.Some? && t.heights == s.heights
  {
    hide Build, Hex.Encode, Buildable, BundleArmed, Need;
  }

  lemma {:induction false} Found(cfg: Config, hashText: Option<string>, wit: seq<bytes>)
    ensures var p := FindPreimage(cfg, hashText, wit);
            p.Some? ==> p.value in wit && |p.value| == 32 && hashText == Some(Hex.Encode(cfg.sha(p.value)))
  {
    if wit != [] {
      Found(cfg, hashText, wit[1..]);
    }
  }

  lemma BackfillLoose(cfg: Config, s: Swap, leg: Leg, node: Node)
    requires Loose(cfg, s) && s.htlc.Some?
    ensures var t := Backfill(cfg, s, leg, node);
            Loose(cfg, t) && t.htlc.Some? && t.heights == s.heights && t.state == s.state
  {
    hide Build, Hex.Encode, Buildable, FindPreimage, Weighed, Armed;
    var f := s.funding.Of(leg);
    if f.Some? && node.spendingTxid(f.value.at).Some? {
      Found(cfg, s.hashText, node.witnessOf(node.spendingTxid(f.value.at).value));
    }
    BackfillFrame(cfg, s, leg, node);
  }

  lemma BackfillFrame(cfg: Config, s: Swap, leg: Leg, node: Node)
    ensures var t := Backfill(cfg, s, leg, node);
            (Weighed(s) ==> Weighed(t)) && (Armed(cfg, s) ==> Armed(cfg, t))
  {
    hide FindPreimage, BundleArmed, Holds, Lacks, Need;
  }

  lemma CountLoose(cfg: Config, s: Swap, nodes: Per<Node>)
    requires Loose(cfg, s) && s.htlc.Some?
    requires s.heights == Some(Per(nodes.btc.height, nodes.qbit.height))
    ensures var t := CountConfs(s, nodes); Loose(cfg, t) && t.htlc.Some? && Counted(t) && t.heights == s.heights
  {
    hide Build, Hex.Encode, Buildable, BundleArmed, Need;
  }

  lemma ObserveLoose(cfg: Config, s: Swap, nodes: Per<Node>)
    requires Loose(cfg, s) && s.htlc.Some?
    requires s.heights == Some(Per(nodes.btc.height, nodes.qbit.height))
    ensures var t := Observe(cfg, s, nodes); Loose(cfg, t) && Counted(t) && t.htlc.Some? && t.heights == s.heights
  {
    hide Loose, Counted, Discover, MarkAllSpent, Backfill, CountConfs;
    DiscoverLoose(cfg, s, Btc, nodes.btc);
    var found := Discover(cfg, s, Btc, nodes.btc);
    DiscoverLoose(cfg, found, Qbit, nodes.qbit);
    var both := Discover(cfg, found, Qbit, nodes.qbit);
    MarkLoose(cfg, both, nodes);
    var marked := MarkAllSpent(both, nodes);
    BackfillLoose(cfg, marked, Btc, nodes.btc);
    var filled := Backfill(cfg, marked, Btc, nodes.btc);
    BackfillLoose(cfg, filled, Qbit, nodes.qbit);
    CountLoose(cfg, Backfill(cfg, filled, Qbit, nodes.qbit), nodes);
  }

  lemma RegateSound(cfg: Config, s: Swap, nodes: Per<Node>, now: nat)
    requires Loose(cfg, s) && Counted(s) && s.htlc.Some? && s.plan.Some? && s.state != Created
    requires s.heights == Some(Per(nodes.btc.height, nodes.qbit.height))
    ensures Sound(cfg, Regate(cfg, s, s.plan.value, nodes, now)) && Regate(cfg, s, s.plan.value, nodes, now).htlc.Some?
  {
    hide Build, Hex.Encode, Buildable, BundleArmed, Need, Holds, Lacks, Deep, TooLate, Buried, InTime;
  }

  lemma SettleSound(cfg: Config, s: Swap, plan: Depth.Plan, nodes: Per<Node>, now: nat)
    requires Sound(cfg, s) && s.htlc.Some?
    ensures Sound(cfg, SurfaceRefunds(Settle(s, now), plan, nodes))
  {
    hide Build, Hex.Encode, Buildable, BundleArmed, Need, Holds, Lacks, Deep, Buried, InTime, RefundOf;
  }

  lemma HeightsLoose(cfg: Config, s: Swap, heights: Per<nat>)
    requires Loose(cfg, s)
    ensures Loose(cfg, s.(heights := Some(heights)))
  {
    hide Build, Hex.Encode, Buildable, BundleArmed, Need, Holds, Lacks;
  }

  lemma UnderivedSound(cfg: Config, s: Swap, heights: Per<nat>)
    requires Sound(cfg, s) && s.htlc.None?
    ensures Sound(cfg, s.(heights := Some(heights)))
  {
    hide Build, Hex.Encode, Buildable, BundleArmed, Need, Holds, Lacks;
  }

  lemma PollSound(cfg: Config, s: Swap, nodes: Per<Node>, now: nat)
    requires Sound(cfg, s)
    ensures Sound(cfg, Poll(cfg, s, nodes, now).s)
  {
    hide Scripted, Known, Weighed, Armed, Counted, Gated, Observe, Regate, Settle, SurfaceRefunds;
    var heights := Per(nodes.btc.height, nodes.qbit.height);
    var polled := s.(heights := Some(heights));
    HeightsLoose(cfg, s, heights);
    if s.htlc.None? {
      UnderivedSound(cfg, s, heights);
    } else {
      var seen := Observe(cfg, polled, nodes);
      ObserveLoose(cfg, polled, nodes);
      ObserveState(cfg, polled, nodes);
      HasPlan(cfg, seen);
      if s.state != Created {
        RegateSound(cfg, seen, nodes, now);
        SettleSound(cfg, Regate(cfg, seen, seen.plan.value, nodes, now), seen.plan.value, nodes, now);
      }
    }
  }

  lemma HasPlan(cfg: Config, s: Swap)
    requires Scripted(cfg, s) && s.htlc.Some?
    ensures s.plan.Some?
  {
  }

  lemma ObserveState(cfg: Config, s: Swap, nodes: Per<Node>)
    requires s.htlc.Some?
    ensures Observe(cfg, s, nodes).state == s.state && Observe(cfg, s, nodes).plan == s.plan
    ensures Observe(cfg, s, nodes).htlc == s.htlc
  {
    hide Discovered, MarkSpent, FindPreimage, WithConfs, Deposit.HtlcSpk;
    var found := Discover(cfg, s, Btc, nodes.btc);
    var marked := MarkAllSpent(Discover(cfg, found, Qbit, nodes.qbit), nodes);
    BackfillState(cfg, marked, Btc, nodes.btc);
    BackfillState(cfg, Backfill(cfg, marked, Btc, nodes.btc), Qbit, nodes.qbit);
  }

  lemma BackfillState(cfg: Config, s: Swap, leg: Leg, node: Node)
    ensures var t := Backfill(cfg, s, leg, node); t.state == s.state && t.plan == s.plan && t.htlc == s.htlc
  {
    hide FindPreimage;
  }

  // ---------------------------------------------------------------------------
  // Relaying
  // ---------------------------------------------------------------------------

  lemma EffectsSound(cfg: Config, s: Swap, leg: Leg, kind: Kind, txid: bytes, wit: seq<bytes>, now: nat)
    requires Sound(cfg, s)
    ensures Sound(cfg, Effects(cfg, s, leg, kind, txid, wit, now))
  {
    hide Build, Hex.Encode, Buildable, FindPreimage, BundleArmed, Need, Gate;
    Found(cfg, s.hashText, wit);
  }

  lemma BroadcastSound(cfg: Config, s: Swap, leg: Leg, kind: Kind, tx: bytes, node: Node, now: nat)
    requires Sound(cfg, s)
    ensures Sound(cfg, Broadcast(cfg, s, leg, kind, tx, node, now).s)
  {
    hide Sound, Effects, CarriesMarker, RelayGate;
    EffectsSound(cfg, s, leg, kind, node.broadcast(tx), node.witnessOf(node.broadcast(tx)), now);
  }

  lemma WtSound(cfg: Config, s: Swap, wt: map<(Role, Kind), WtRecord>)
    requires Sound(cfg, s)
    ensures Sound(cfg, s.(wt := wt))
  {
    hide Build, Hex.Encode, Buildable, BundleArmed, Need, Holds, Lacks, Deep, Buried, InTime;
  }

  lemma SendSound(cfg: Config, s: Swap, role: Role, kind: Kind, b: Ladder, tier: int, node: Node, now: nat)
    requires Sound(cfg, s)
    ensures var r := Send(cfg, s, role, kind, b, tier, node, now); r.Sent? ==> Sound(cfg, r.s)
  {
    hide Sound, Effects, TierTx;
    if TierTx(s, kind, b, tier).Ok? {
      var txid := node.broadcast(TierTx(s, kind, b, tier).value);
      var leg := LegOf(role, kind);
      var recorded := s.(wt := s.wt[(role, kind) := WtRecord(txid, tier, HeightOf(s, leg), now)]);
      WtSound(cfg, s, recorded.wt);
      EffectsSound(cfg, recorded, leg, kind, txid, node.witnessOf(txid), now);
    }
  }
}
