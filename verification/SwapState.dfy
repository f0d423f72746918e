/** The swap record and what each operation of coordinator/swap.js makes of it, as functions of the record and of
    the answers the two nodes give. */
module SwapState {
  import opened Bytes
  import opened Legs
  import Deposit
  import Depth
  import Hex
  import Htlc
  import Spend
  import TxCodec

  datatype State =
    | Created | Ready | FromFunded | ToFunded | Maturing | Claimable | Claimed
    | Complete | Refunded | Aborted | Canceled

  predicate Terminal(st: State) {
    st == Complete || st == Refunded || st == Aborted
  }

  // ---------------------------------------------------------------------------
  // Configuration, nodes and what parties send
  // ---------------------------------------------------------------------------

  datatype LegRules = LegRules(family: Htlc.Family, trustUnconfirmed: bool, replayOpReturn: bool)

  type DepthConfig = c: Depth.Config | Depth.ValidConfig(c) witness DEFAULT_DEPTH

  const DEFAULT_DEPTH: Depth.Config :=
    Depth.Config(Per(Depth.LegConfig(600.0, 1, Depth.BtcSubsidy, 3, 6, 1000000.0, 0),
                     Depth.LegConfig(60.0, 1, Depth.ConfTargetRpc, 0, 6, 1000000.0, 12)),
                 3.0, 6, Depth.Derived(10800, 2.0, 10800.0, 7200))

  datatype Config = Config(sha: Hash, depth: DepthConfig, rules: Per<LegRules>, revealBuffer: int, forkTwin: bool)

  datatype Outpoint = Outpoint(txid: bytes, vout: nat)

  /** findOutput's answer; a missing height means the output is still in the mempool. */
  datatype Output = Output(at: Outpoint, amount: nat, height: Option<nat>)

  /** Everything one leg's node may be asked during one call. The answers are arbitrary. */
  datatype Node = Node(
    height: nat, quote: Depth.Quote, fastestFee: real,
    findOutput: bytes -> Option<Output>, isUnspent: Outpoint -> bool, spendingTxid: Outpoint -> Option<bytes>,
    witnessOf: bytes -> seq<bytes>, testAccept: bytes -> bool, broadcast: bytes -> bytes)

  datatype ByRole<T> = ByRole(alice: T, bob: T) {
    function Of(role: Role): T {
      if role == Alice then alice else bob
    }

    function With(role: Role, value: T): ByRole<T> {
      if role == Alice then this.(alice := value) else this.(bob := value)
    }
  }

  /** Public keys as the hex text the party sent. */
  datatype Keys = Keys(qbit: string, btc: string) {
    function Of(leg: Leg): string {
      if leg == Qbit then qbit else btc
    }
  }

  datatype Tier = Tier(feerate: real, tx: bytes)

  /** A fee ladder of pre-signed transactions; `leg` is the label the client put on it, if any. */
  datatype Ladder = Ladder(leg: Option<Leg>, needsPreimage: bool, tiers: seq<Tier>)

  datatype TwinLadder = TwinLadder(leg: Option<Leg>, fundLeg: Option<Leg>, tiers: seq<Tier>)

  datatype Bundle = Bundle(claim: Option<Ladder>, refund: Ladder, twin: Option<TwinLadder>)

  // ---------------------------------------------------------------------------
  // The record
  // ---------------------------------------------------------------------------

  datatype Terms = Terms(btcSats: nat, qbtSats: nat, feeSats: nat)

  /** A deposit seen on a leg: unconfirmed while it has no height. */
  datatype Funding = Funding(at: Outpoint, amount: nat, height: Option<nat>, spent: bool, confs: int)

  datatype WtRecord = WtRecord(txid: bytes, tier: nat, at: nat, ts: nat)

  datatype Refundable = Refundable(party: Role, at: int, available: bool, short: bool)

  /** `plan` holds confsTarget, fromConfsTarget and locktimes, which are written together. */
  datatype Swap = Swap(
    terms: Terms, state: State, hashText: Option<string>, party: ByRole<Option<Keys>>,
    plan: Option<Depth.Plan>, htlc: Option<Per<bytes>>, heights: Option<Per<nat>>,
    funding: Per<Option<Funding>>, short: Per<Option<Funding>>,
    preimage: Option<bytes>, broadcasts: map<(Leg, Kind), bytes>,
    wt: map<(Role, Kind), WtRecord>, finish: ByRole<Option<Bundle>>,
    tooLate: bool, refund: Option<Per<Refundable>>,
    fromConfirmedAt: Option<nat>, readyAt: Option<nat>, settledAt: Option<nat>, canceledBy: Option<Role>)

  /** createSwap, after its amount and capacity checks. */
  function Initial(terms: Terms): Swap {
    Swap(terms, Created, None, ByRole(None, None), None, None, None, Per(None, None), Per(None, None),
         None, map[], map[], ByRole(None, None), false, None, None, None, None, None)
  }

  predicate ShortFunded(s: Swap) {
    s.short.btc.Some? || s.short.qbit.Some?
  }

  /** A transaction handed to a node: by a party (None) or by the watchtower for a role. `wit` is the witness the
      node then reports for it, `before` the record at that moment. */
  datatype Entry = Entry(sender: Option<Role>, leg: Leg, kind: Kind, tx: bytes, wit: seq<bytes>, before: Swap)

  /** How a call ends: the record it leaves, whether it returned rather than threw, and what it relayed. */
  datatype Outcome = Outcome(s: Swap, ok: bool, log: seq<Entry>)

  function Done(s: Swap): Outcome {
    Outcome(s, true, [])
  }

  function Throws(s: Swap): Outcome {
    Outcome(s, false, [])
  }

  // ---------------------------------------------------------------------------
  // submitParty and deriveHtlcs
  // ---------------------------------------------------------------------------

  function Script(cfg: Config, leg: Leg, hashText: string, claim: Keys, refund: Keys, locktime: int): Result<bytes> {
    var h :- Hex.Decode(hashText);
    var c :- Hex.Decode(claim.Of(leg));
    var r :- Hex.Decode(refund.Of(leg));
    Htlc.HtlcScript(cfg.rules.Of(leg).family, h, c, r, locktime)
  }

  /** Both scripts: on FROM Bob claims and Alice refunds, on TO the other way round. */
  function Build(cfg: Config, hashText: string, alice: Keys, bob: Keys, locktimes: Per<int>): Result<Per<bytes>> {
    var from :- Script(cfg, FROM, hashText, bob, alice, locktimes.Of(FROM));
    var to :- Script(cfg, TO, hashText, alice, bob, locktimes.Of(TO));
    Ok(Per(from, to))
  }

  function PlanOf(cfg: Config, s: Swap, nodes: Per<Node>): Depth.Plan {
    Depth.PlanFor(cfg.depth, s.terms.btcSats, Per(nodes.btc.height, nodes.qbit.height),
                  Per(nodes.btc.quote, nodes.qbit.quote))
  }

  /** deriveHtlcs: the plan is written before the scripts are built, so it stays when building throws. */
  function Derive(cfg: Config, s: Swap, nodes: Per<Node>, now: nat): Outcome
    requires s.hashText.Some? && s.party.alice.Some? && s.party.bob.Some?
  {
    if Hex.Decode(s.hashText.value).Err? then Throws(s)
    else
      var plan := PlanOf(cfg, s, nodes);
      var planned := s.(plan := Some(plan));
      match Build(cfg, s.hashText.value, s.party.alice.value, s.party.bob.value, plan.locktimes)
      case Err(_) => Throws(planned)
      case Ok(htlc) =>
        Done(planned.(htlc := Some(htlc), state := Ready, readyAt := Since(s.readyAt, now)))
  }

  /** `field ||= now`. */
  function Since(field: Option<nat>, now: nat): Option<nat> {
    if field.Some? then field else Some(now)
  }

  predicate Given(text: Option<string>) {
    text.Some? && text.value != ""
  }

  /** Why submitParty turns the data down before it writes anything. */
  predicate SubmitRefused(s: Swap, role: Role, keys: Keys, hashText: Option<string>) {
    var existing := s.party.Of(role);
    || (s.state != Created && s.state != Ready)
    || (existing.Some? && existing.value != keys)
    || (role == Alice && s.hashText.Some? && existing.None? && Given(hashText) && hashText != s.hashText)
    || (role == Alice && Given(hashText) && !Hex.IsHex(hashText.value))
  }

  /** First come, first served: a filled slot and a set hash stay as they are. */
  function Joined(s: Swap, role: Role, keys: Keys, hashText: Option<string>): Swap {
    s.(hashText := if role == Alice && Given(hashText) && s.hashText.None? then hashText else s.hashText,
       party := if s.party.Of(role).None? then s.party.With(role, Some(keys)) else s.party)
  }

  predicate KeysAreHex(keys: Keys) {
    Hex.IsHex(keys.qbit) && Hex.IsHex(keys.btc)
  }

  function SubmitParty(cfg: Config, s: Swap, role: Role, keys: Keys, hashText: Option<string>, nodes: Per<Node>, now: nat): Outcome {
    if SubmitRefused(s, role, keys, hashText) then Throws(s)
    else
      var joined := Joined(s, role, keys, hashText);
      if joined.party.alice.None? || joined.party.bob.None? || joined.hashText.None? then Done(joined)
      else if !KeysAreHex(joined.party.alice.value) || !KeysAreHex(joined.party.bob.value) then Throws(joined)
      else Derive(cfg, joined, nodes, now)
  }

  // ---------------------------------------------------------------------------
  // cancelSwap
  // ---------------------------------------------------------------------------

  function Cancel(s: Swap, role: Role): Outcome {
    if s.funding.btc.Some? || s.funding.qbit.Some? || ShortFunded(s) then Throws(s)
    else if s.state == Canceled || Terminal(s.state) then Throws(s)
    else Done(s.(canceledBy := Some(role), state := Canceled))
  }

  // ---------------------------------------------------------------------------
  // poll
  // ---------------------------------------------------------------------------

  /** What a leg's deposit must hold: the buyer's leg carries the coordinator's fee on top. */
  function Need(terms: Terms, leg: Leg): nat {
    if leg == Btc then terms.btcSats + terms.feeSats else terms.qbtSats
  }

  function Seen(o: Output): Funding {
    Funding(o.at, o.amount, o.height, false, 0)
  }

  predicate Settling(f: Option<Funding>) {
    f.None? || f.value.height.None?
  }

  /** The leg's deposit and its underfunded one, after findOutput answered `o`; a confirmed deposit is left alone. */
  function Discovered(cur: Option<Funding>, short: Option<Funding>, need: nat, o: Option<Output>): (Option<Funding>, Option<Funding>) {
    if !Settling(cur) then (cur, short)
    else
      match o
      case None => (None, short)
      case Some(found) => if found.amount >= need then (Some(Seen(found)), short) else (cur, Some(Seen(found)))
  }

  function Discover(cfg: Config, s: Swap, leg: Leg, node: Node): (t: Swap)
    requires s.htlc.Some?
    ensures t.htlc == s.htlc
  {
    var o := node.findOutput(Deposit.HtlcSpk(cfg.rules.Of(leg).family, cfg.sha, s.htlc.value.Of(leg)));
    var (f, short) := Discovered(s.funding.Of(leg), s.short.Of(leg), Need(s.terms, leg), o);
    s.(funding := s.funding.With(leg, f), short := s.short.With(leg, short))
  }

  function MarkSpent(f: Option<Funding>, node: Node): Option<Funding> {
    if f.Some? && f.value.height.Some? && !f.value.spent && !node.isUnspent(f.value.at)
    then Some(f.value.(spent := true))
    else f
  }

  function MarkAllSpent(s: Swap, nodes: Per<Node>): Swap {
    s.(funding := Per(MarkSpent(s.funding.btc, nodes.btc), MarkSpent(s.funding.qbit, nodes.qbit)),
       short := Per(MarkSpent(s.short.btc, nodes.btc), MarkSpent(s.short.qbit, nodes.qbit)))
  }

  /** The first witness element of 32 bytes whose hash is written exactly like the agreed text. */
  function FindPreimage(cfg: Config, hashText: Option<string>, wit: seq<bytes>): Option<bytes> {
    if wit == [] then None
    else if |wit[0]| == 32 && hashText == Some(Hex.Encode(cfg.sha(wit[0]))) then Some(wit[0])
    else FindPreimage(cfg, hashText, wit[1..])
  }

  /** A known preimage is never replaced. */
  function Learnt(known: Option<bytes>, found: Option<bytes>): Option<bytes> {
    if known.Some? then known else found
  }

  /** Classify a spend that landed without us. */
  function Backfill(cfg: Config, s: Swap, leg: Leg, node: Node): Swap {
    var f := s.funding.Of(leg);
    if f.None? || !f.value.spent || (leg, Claim) in s.broadcasts || (leg, Refund) in s.broadcasts then s
    else
      match node.spendingTxid(f.value.at)
      case None => s
      case Some(txid) =>
        var found := FindPreimage(cfg, s.hashText, node.witnessOf(txid));
        var kind := if found.Some? then Claim else Refund;
        s.(preimage := Learnt(s.preimage, found), broadcasts := s.broadcasts[(leg, kind) := txid])
  }

  function WithConfs(f: Option<Funding>, height: nat): Option<Funding> {
    if f.None? then f
    else Some(f.value.(confs := if f.value.height.Some? then height - f.value.height.value + 1 else 0))
  }

  function CountConfs(s: Swap, nodes: Per<Node>): Swap {
    s.(funding := Per(WithConfs(s.funding.btc, nodes.btc.height), WithConfs(s.funding.qbit, nodes.qbit.height)))
  }

  /** The deposit is as deep as `target` asks, or its leg is trusted unconfirmed. */
  predicate Buried(cfg: Config, leg: Leg, f: Option<Funding>, target: int) {
    f.Some? && (cfg.rules.Of(leg).trustUnconfirmed || (f.value.height.Some? && f.value.confs >= target))
  }

  predicate InTime(cfg: Config, plan: Depth.Plan, height: nat) {
    plan.locktimes.Of(TO) - height >= plan.targets.Of(TO) + cfg.revealBuffer
  }

  predicate PreClaim(st: State) {
    st != Claimed && st != Canceled && !Terminal(st)
  }

  /** The state before any claim, recomputed from the deposits. */
  function PreClaimState(cfg: Config, s: Swap, plan: Depth.Plan, height: nat): State {
    var from, to := s.funding.Of(FROM), s.funding.Of(TO);
    if to.Some? && !to.value.spent then
      if from.None? then ToFunded
      else if Buried(cfg, FROM, from, plan.targets.Of(FROM)) && Buried(cfg, TO, to, plan.targets.Of(TO)) && InTime(cfg, plan, height)
      then Claimable else Maturing
    else if from.Some? then FromFunded else Ready
  }

  function TooLate(cfg: Config, s: Swap, plan: Depth.Plan, height: nat): bool {
    var from, to := s.funding.Of(FROM), s.funding.Of(TO);
    if to.Some? && !to.value.spent then
      Buried(cfg, FROM, from, plan.targets.Of(FROM)) && Buried(cfg, TO, to, plan.targets.Of(TO)) && !InTime(cfg, plan, height)
    else s.tooLate
  }

  function Regate(cfg: Config, s: Swap, plan: Depth.Plan, nodes: Per<Node>, now: nat): Swap {
    var cleared := if Buried(cfg, FROM, s.funding.Of(FROM), plan.targets.Of(FROM))
                   then s.(fromConfirmedAt := Since(s.fromConfirmedAt, now)) else s;
    if !PreClaim(s.state) then cleared
    else cleared.(state := PreClaimState(cfg, s, plan, nodes.Of(TO).height), tooLate := TooLate(cfg, s, plan, nodes.Of(TO).height))
  }

  predicate IsSpent(f: Option<Funding>) {
    f.Some? && f.value.spent
  }

  function Settle(s: Swap, now: nat): Swap {
    if s.preimage.Some? && IsSpent(s.funding.Of(TO)) && IsSpent(s.funding.Of(FROM)) && !Terminal(s.state)
    then s.(state := Complete, settledAt := Some(now)) else s
  }

  /** The deposit a refund would reclaim: the full one, else an underfunded one. */
  function Recoverable(s: Swap, leg: Leg): Option<Funding> {
    if s.funding.Of(leg).Some? then s.funding.Of(leg) else s.short.Of(leg)
  }

  function RefundOf(s: Swap, leg: Leg, plan: Depth.Plan, height: nat): Refundable {
    var f := Recoverable(s, leg);
    Refundable(if leg == FROM then Alice else Bob, plan.locktimes.Of(leg),
               f.Some? && !f.value.spent && f.value.height.Some? && height >= plan.locktimes.Of(leg)
               && (leg == FROM || s.preimage.None?),
               s.funding.Of(leg).None? && s.short.Of(leg).Some?)
  }

  function SurfaceRefunds(s: Swap, plan: Depth.Plan, nodes: Per<Node>): Swap {
    s.(refund := Some(Per(RefundOf(s, Btc, plan, nodes.btc.height), RefundOf(s, Qbit, plan, nodes.qbit.height))))
  }

  /** What a poll concludes from the deposits it sees. */
  function Judge(cfg: Config, s: Swap, plan: Depth.Plan, nodes: Per<Node>, now: nat): Swap {
    SurfaceRefunds(Settle(Regate(cfg, s, plan, nodes, now), now), plan, nodes)
  }

  /** The chain reads of a poll: deposits, spends, confirmations. */
  function Observe(cfg: Config, s: Swap, nodes: Per<Node>): Swap
    requires s.htlc.Some?
  {
    var found := Discover(cfg, Discover(cfg, s, Btc, nodes.btc), Qbit, nodes.qbit);
    var marked := MarkAllSpent(found, nodes);
    var filled := Backfill(cfg, Backfill(cfg, marked, Btc, nodes.btc), Qbit, nodes.qbit);
    CountConfs(filled, nodes)
  }

  function Poll(cfg: Config, s: Swap, nodes: Per<Node>, now: nat): Outcome {
    if s.state == Created || Terminal(s.state) then Done(s)
    else
      var polled := s.(heights := Some(Per(nodes.btc.height, nodes.qbit.height)));
      if polled.htlc.None? then Throws(polled)
      else
        var seen := Observe(cfg, polled, nodes);
        if seen.plan.None? then Throws(seen)
        else Done(Judge(cfg, seen, seen.plan.value, nodes, now))
  }

  // ---------------------------------------------------------------------------
  // broadcast and applyEffects
  // ---------------------------------------------------------------------------

  function MarkedSpent(f: Option<Funding>): Option<Funding> {
    if f.Some? then Some(f.value.(spent := true)) else f
  }

  /** applyEffects, with the witness the node reports for the transaction. */
  function Effects(cfg: Config, s: Swap, leg: Leg, kind: Kind, txid: bytes, wit: seq<bytes>, now: nat): Swap {
    var broadcasts := s.broadcasts[(leg, kind) := txid];
    var funding := s.funding.With(leg, MarkedSpent(s.funding.Of(leg)));
    if kind == Refund then
      s.(broadcasts := broadcasts, funding := funding, short := s.short.With(leg, MarkedSpent(s.short.Of(leg))),
         state := Refunded, settledAt := Some(now))
    else
      s.(broadcasts := broadcasts, funding := funding,
         preimage := Learnt(s.preimage, FindPreimage(cfg, s.hashText, wit)),
         state := if leg == FROM then Complete else Claimed,
         settledAt := if leg == FROM then Some(now) else s.settledAt)
  }

  /** broadcast's own burial test: a target of zero falls back to the leg's minimum. */
  predicate RelayBuried(cfg: Config, s: Swap, leg: Leg) {
    var target := if s.plan.Some? then s.plan.value.targets.Of(leg) else 0;
    Buried(cfg, leg, s.funding.Of(leg), if target != 0 then target else cfg.depth.legs.Of(leg).minConfs)
  }

  function HeightOf(s: Swap, leg: Leg): nat {
    if s.heights.Some? then s.heights.value.Of(leg) else 0
  }

  /** broadcast's hold on the preimage-revealing claim. */
  predicate RelayGate(cfg: Config, s: Swap) {
    RelayBuried(cfg, s, FROM) && RelayBuried(cfg, s, TO) && s.plan.Some? && InTime(cfg, s.plan.value, HeightOf(s, TO))
  }

  predicate CarriesMarker(tx: bytes) {
    TxCodec.DecodeTx(tx).Ok? && Spend.HasReplayMarker(TxCodec.DecodeTx(tx).value.vout)
  }

  function Broadcast(cfg: Config, s: Swap, leg: Leg, kind: Kind, tx: bytes, node: Node, now: nat): Outcome {
    if kind == Claim && leg == TO && !RelayGate(cfg, s) then Throws(s)
    else if kind == Claim && cfg.rules.Of(leg).replayOpReturn && !CarriesMarker(tx) then Throws(s)
    else if !node.testAccept(tx) then Throws(s)
    else
      var txid := node.broadcast(tx);
      var wit := node.witnessOf(txid);
      Outcome(Effects(cfg, s, leg, kind, txid, wit, now), true, [Entry(None, leg, kind, tx, wit, s)])
  }

  // ---------------------------------------------------------------------------
  // The watchtower
  // ---------------------------------------------------------------------------

  predicate TiersMarked(tiers: seq<Tier>) {
    forall k :: 0 <= k < |tiers| ==> CarriesMarker(tiers[k].tx)
  }

  predicate MarkersMissing(cfg: Config, leg: Option<Leg>, tiers: seq<Tier>) {
    leg.Some? && cfg.rules.Of(leg.value).replayOpReturn && !TiersMarked(tiers)
  }

  predicate BundleRefused(cfg: Config, b: Bundle) {
    || b.refund.tiers == []
    || (b.claim.Some? && b.claim.value.tiers == [])
    || (b.twin.Some? && (!cfg.forkTwin || b.twin.value.tiers == [] || b.twin.value.leg.None? || b.twin.value.fundLeg.None?
                         || b.twin.value.leg == b.twin.value.fundLeg))
    || (b.claim.Some? && MarkersMissing(cfg, b.claim.value.leg, b.claim.value.tiers))
    || (b.twin.Some? && MarkersMissing(cfg, b.twin.value.leg, b.twin.value.tiers))
  }

  function SubmitFinish(cfg: Config, s: Swap, role: Role, b: Bundle): Outcome {
    if BundleRefused(cfg, b) then Throws(s) else Done(s.(finish := s.finish.With(role, Some(b))))
  }

  function LadderOf(s: Swap, role: Role, kind: Kind): Option<Ladder> {
    match s.finish.Of(role)
    case None => None
    case Some(b) => if kind == Claim then b.claim else Some(b.refund)
  }

  /** Cheapest tier from `from` on that pays the target, else the last one. */
  function TierPaying(tiers: seq<Tier>, from: nat, target: real): int
    decreases |tiers| - from
  {
    if from >= |tiers| then |tiers| - 1
    else if tiers[from].feerate >= target then from
    else TierPaying(tiers, from + 1, target)
  }

  /** pickTier: only the btc slot is priced. */
  function PickTier(leg: Leg, tiers: seq<Tier>, minIndex: nat, fastestFee: real): int {
    if leg != Btc then minIndex
    else TierPaying(tiers, minIndex, if fastestFee != 0.0 then fastestFee else 1.0)
  }

  /** The transaction of a tier, with the preimage spliced in where the ladder asks for it. */
  function TierTx(s: Swap, kind: Kind, b: Ladder, tier: int): (r: Result<bytes>)
    ensures r.Ok? ==> 0 <= tier < |b.tiers|
  {
    if tier < 0 || tier >= |b.tiers| then Err(RangeError)
    else if kind == Claim && b.needsPreimage then
      if s.preimage.None? then Err(BadPreimage) else Spend.Spliced(b.tiers[tier].tx, s.preimage.value)
    else Ok(b.tiers[tier].tx)
  }

  datatype Sending = Sent(s: Swap, entry: Entry) | Refused | Threw

  /** wtBroadcast and wtSend. */
  function Send(cfg: Config, s: Swap, role: Role, kind: Kind, b: Ladder, tier: int, node: Node, now: nat): Sending {
    var leg := LegOf(role, kind);
    match TierTx(s, kind, b, tier)
    case Err(_) => Threw
    case Ok(tx) =>
      if !node.testAccept(tx) then Refused
      else
        var txid := node.broadcast(tx);
        var wit := node.witnessOf(txid);
        var recorded := s.(wt := s.wt[(role, kind) := WtRecord(txid, tier, HeightOf(s, leg), now)]);
        Sent(Effects(cfg, recorded, leg, kind, txid, wit, now), Entry(Some(role), leg, kind, tx, wit, s))
  }

  /** When the watchtower makes its first move for a role. */
  predicate Fires(s: Swap, role: Role, kind: Kind) {
    var leg := LegOf(role, kind);
    var f := Recoverable(s, leg);
    && LadderOf(s, role, kind).Some? && f.Some? && !f.value.spent && (role, kind) !in s.wt
    && (if kind == Claim then
          !ShortFunded(s) && (if role == Alice then s.state == Claimable else s.preimage.Some?)
        else
          s.preimage.None? && s.plan.Some? && HeightOf(s, leg) >= s.plan.value.locktimes.Of(leg))
  }

  function Attempt(cfg: Config, o: Outcome, role: Role, kind: Kind, nodes: Per<Node>, now: nat): Outcome {
    if !o.ok || !Fires(o.s, role, kind) then o
    else
      var leg := LegOf(role, kind);
      var b := LadderOf(o.s, role, kind).value;
      match Send(cfg, o.s, role, kind, b, PickTier(leg, b.tiers, 0, nodes.Of(leg).fastestFee), nodes.Of(leg), now)
      case Sent(s, entry) => Outcome(s, true, o.log + [entry])
      case Refused => o
      case Threw => o.(ok := false)
  }

  predicate Resends(s: Swap, role: Role, kind: Kind, node: Node) {
    var f := Recoverable(s, LegOf(role, kind));
    && (role, kind) in s.wt && LadderOf(s, role, kind).Some? && f.Some?
    && (if kind == Claim then !ShortFunded(s) else s.preimage.None?)
    && node.isUnspent(f.value.at)
  }

  /** Fee management: a spend that is no longer in flight goes out again, never at a lower tier. The record is
      dropped for the attempt and put back unless the attempt throws. */
  function Resend(cfg: Config, o: Outcome, role: Role, kind: Kind, nodes: Per<Node>, now: nat): Outcome {
    var leg := LegOf(role, kind);
    if !o.ok || !Resends(o.s, role, kind, nodes.Of(leg)) then o
    else
      var b := LadderOf(o.s, role, kind).value;
      var tier := Depth.Max(o.s.wt[(role, kind)].tier, PickTier(leg, b.tiers, 0, nodes.Of(leg).fastestFee));
      var dropped := o.s.(wt := o.s.wt - {(role, kind)});
      match Send(cfg, dropped, role, kind, b, tier, nodes.Of(leg), now)
      case Sent(s, entry) => Outcome(s, true, o.log + [entry])
      case Refused => o
      case Threw => Outcome(dropped, false, o.log)
  }

  predicate WatchtowerIdle(s: Swap) {
    s.htlc.None? || s.state == Created || s.state == Canceled || Terminal(s.state)
  }

  function FirstMoves(cfg: Config, o: Outcome, nodes: Per<Node>, now: nat): Outcome {
    var a := Attempt(cfg, o, Alice, Claim, nodes, now);
    var b := Attempt(cfg, a, Bob, Claim, nodes, now);
    var c := Attempt(cfg, b, Alice, Refund, nodes, now);
    Attempt(cfg, c, Bob, Refund, nodes, now)
  }

  function Resending(cfg: Config, o: Outcome, nodes: Per<Node>, now: nat): Outcome {
    var a := Resend(cfg, o, Alice, Claim, nodes, now);
    var b := Resend(cfg, a, Bob, Claim, nodes, now);
    var c := Resend(cfg, b, Alice, Refund, nodes, now);
    Resend(cfg, c, Bob, Refund, nodes, now)
  }

  /** driveWatchtower: first moves against the nodes' answers `nodes`, fee management against the later `after`. */
  function Drive(cfg: Config, s: Swap, nodes: Per<Node>, after: Per<Node>, now: nat): Outcome {
    if WatchtowerIdle(s) then Done(s)
    else Resending(cfg, FirstMoves(cfg, Done(s), nodes, now), after, now)
  }
}
