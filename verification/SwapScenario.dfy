/** Concrete runs of one swap, from its creation on: joining, funding, arming, revealing. */
module SwapScenario {
  import opened Bytes
  import opened Legs
  import opened SwapState
  import opened SwapSteps
  import opened SwapSound
  import opened SwapRuns
  import opened SwapPromises
  import Depth
  import Hex
  import Htlc
  import Spend
  import TxCodec

  // ---------------------------------------------------------------------------
  // Texts and keys
  // ---------------------------------------------------------------------------

  function Repeat(c: char, n: nat): (s: string)
    ensures |s| == n
  {
    seq(n, _ => c)
  }

  /** The bytes that a repeated digit stands for. */
  function Doubles(d: nat, n: nat): (b: bytes)
    requires d < 16
    ensures |b| == n
  {
    if n == 0 then [] else [17 * d] + Doubles(d, n - 1)
  }

  lemma {:induction false} RepeatDecodes(c: char, d: nat, n: nat)
    requires d < 16 && Hex.Digit(c) == Some(d)
    ensures Hex.Decode(Repeat(c, 2 * n)) == Ok(Doubles(d, n))
    ensures n > 0 ==> Hex.IsHex(Repeat(c, 2 * n))
  {
    hide Hex.Digit;
    if n > 0 {
      var s := Repeat(c, 2 * n);
      RepeatDecodes(c, d, n - 1);
      assert s[2..] == Repeat(c, 2 * (n - 1)) && s[0] == c && s[1] == c;
    }
  }

  function KeyText(f: Htlc.Family): string {
    Repeat('0', 2 * Htlc.KeyLength(f))
  }

  /** Keys of the right lengths, for both parties. */
  function SomeKeys(cfg: Config): Keys {
    Keys(KeyText(cfg.rules.qbit.family), KeyText(cfg.rules.btc.family))
  }

  predicate HashText(text: string) {
    Hex.IsHex(text) && Hex.Decode(text).Ok? && |Hex.Decode(text).value| == 32
  }

  lemma KeysFit(cfg: Config, text: string)
    requires HashText(text)
    ensures KeysAreHex(SomeKeys(cfg)) && Buildable(cfg, text, SomeKeys(cfg), SomeKeys(cfg))
  {
    hide Hex.Decode, Hex.IsHex, Htlc.ScriptBytes, Repeat;
    RepeatDecodes('0', 0, Htlc.KeyLength(cfg.rules.qbit.family));
    RepeatDecodes('0', 0, Htlc.KeyLength(cfg.rules.btc.family));
  }

  // ---------------------------------------------------------------------------
  // Joining
  // ---------------------------------------------------------------------------

  /** The record after both parties joined and the first derivation made this plan. */
  function Opened(cfg: Config, terms: Terms, text: string, plan: Depth.Plan): Swap {
    var k := SomeKeys(cfg);
    var built := Build(cfg, text, k, k, plan.locktimes);
    Initial(terms).(hashText := Some(text), party := ByRole(Some(k), Some(k)), plan := Some(plan),
                    htlc := if built.Ok? then Some(built.value) else None, state := Ready, readyAt := Some(0))
  }

  function Joining(cfg: Config, text: string, nodes: Per<Node>): seq<Event> {
    [Submit(Alice, SomeKeys(cfg), Some(text), nodes, 0), Submit(Bob, SomeKeys(cfg), None, nodes, 0)]
  }

  lemma RunNext(cfg: Config, terms: Terms, events: seq<Event>, e: Event)
    ensures var h := Run(cfg, terms, events);
            var o := Apply(cfg, h.s, e);
            Run(cfg, terms, events + [e]) == History(o.s, h.log + o.log)
  {
    hide Apply;
    assert (events + [e])[..|events|] == events;
  }

  lemma AliceJoins(cfg: Config, terms: Terms, text: string, nodes: Per<Node>)
    requires HashText(text)
    ensures SubmitParty(cfg, Initial(terms), Alice, SomeKeys(cfg), Some(text), nodes, 0)
         == Done(Initial(terms).(hashText := Some(text), party := ByRole(Some(SomeKeys(cfg)), None)))
  {
    hide Derive, KeysAreHex, Hex.IsHex, Hex.Decode, SomeKeys;
    assert text != "" by { NotEmpty(text); }
  }

  lemma NotEmpty(text: string)
    requires HashText(text)
    ensures text != ""
  {
  }

  lemma BobJoins(cfg: Config, terms: Terms, text: string, nodes: Per<Node>)
    requires HashText(text)
    requires ValidLocktimes(PlanOf(cfg, Initial(terms), nodes).locktimes)
    ensures var s := Initial(terms).(hashText := Some(text), party := ByRole(Some(SomeKeys(cfg)), None));
            var t := Opened(cfg, terms, text, PlanOf(cfg, Initial(terms), nodes));
            t.htlc.Some? && SubmitParty(cfg, s, Bob, SomeKeys(cfg), None, nodes, 0) == Done(t)
  {
    hide KeysAreHex, Hex.IsHex, Hex.Decode, SomeKeys, Build, Depth.PlanFor, Buildable, ValidLocktimes;
    var plan := PlanOf(cfg, Initial(terms), nodes);
    KeysFit(cfg, text);
    BuildSucceeds(cfg, text, SomeKeys(cfg), SomeKeys(cfg), plan.locktimes);
  }

  /** Two submissions open the swap. */
  lemma Joined2(cfg: Config, terms: Terms, text: string, nodes: Per<Node>)
    requires HashText(text) && ValidLocktimes(PlanOf(cfg, Initial(terms), nodes).locktimes)
    ensures var t := Opened(cfg, terms, text, PlanOf(cfg, Initial(terms), nodes));
            t.htlc.Some? && Run(cfg, terms, Joining(cfg, text, nodes)) == History(t, [])
  {
    hide SubmitParty, Opened, Initial, Run, SomeKeys, HashText, ValidLocktimes, PlanOf;
    AliceJoins(cfg, terms, text, nodes);
    BobJoins(cfg, terms, text, nodes);
    var a, b := Submit(Alice, SomeKeys(cfg), Some(text), nodes, 0), Submit(Bob, SomeKeys(cfg), None, nodes, 0);
    RunEmpty(cfg, terms);
    RunNext(cfg, terms, [], a);
    RunNext(cfg, terms, [a], b);
    assert [] + [a] == [a] && [a] + [b] == Joining(cfg, text, nodes);
  }

  lemma RunEmpty(cfg: Config, terms: Terms)
    ensures Run(cfg, terms, []) == History(Initial(terms), [])
  {
  }

  /** Re-submitting the same keys replaces the plan, and the scripts where they can be built. */
  lemma Rederived(cfg: Config, terms: Terms, text: string, plan: Depth.Plan, nodes: Per<Node>)
    requires HashText(text) && Opened(cfg, terms, text, plan).htlc.Some?
    ensures var s := Opened(cfg, terms, text, plan);
            var o := SubmitParty(cfg, s, Bob, SomeKeys(cfg), None, nodes, 0);
            var next := PlanOf(cfg, Initial(terms), nodes);
            && o.log == [] && o.s == s.(plan := Some(next), htlc := o.s.htlc) && o.s.htlc.Some?
            && (!ValidLocktimes(next.locktimes) ==> o.s.htlc == s.htlc)
  {
    hide KeysAreHex, Hex.IsHex, Hex.Decode, SomeKeys, Build, Depth.PlanFor, Buildable, ValidLocktimes;
    var next := PlanOf(cfg, Initial(terms), nodes);
    KeysFit(cfg, text);
    BuildSucceeds(cfg, text, SomeKeys(cfg), SomeKeys(cfg), next.locktimes);
  }

  // ---------------------------------------------------------------------------
  // Funding
  // ---------------------------------------------------------------------------

  /** A node that shows one deposit from block 0 on, accepts every transaction, and reports this witness for it. */
  function FundedNode(height: nat, quote: Depth.Quote, amount: nat, wit: seq<bytes>): Node {
    Node(height, quote, 1.0, _ => Some(Output(Outpoint([], 0), amount, Some(0))), _ => true, _ => None,
         _ => wit, _ => true, tx => tx)
  }

  /** The same node once what it accepted is in flight: no deposit is unspent any more. */
  function InFlight(node: Node): Node {
    Node(node.height, node.quote, node.fastestFee, node.findOutput, _ => false, node.spendingTxid, node.witnessOf,
         node.testAccept, node.broadcast)
  }

  const NO_QUOTE: Depth.Quote := Depth.Quote(0.0, 0, 0.0)

  function FundedNodes(terms: Terms, heights: Per<nat>, wit: seq<bytes>): Per<Node> {
    Per(FundedNode(heights.btc, NO_QUOTE, Need(terms, Btc), wit), FundedNode(heights.qbit, NO_QUOTE, Need(terms, Qbit), wit))
  }

  function PaidIn(amount: nat, height: nat): Funding {
    Funding(Outpoint([], 0), amount, Some(0), false, height + 1)
  }

  predicate Unfunded(s: Swap) {
    s.funding == Per(None, None) && s.short == Per(None, None) && s.preimage.None?
  }

  lemma FundedObserve(cfg: Config, s: Swap, heights: Per<nat>, wit: seq<bytes>)
    requires s.htlc.Some? && Unfunded(s)
    ensures Observe(cfg, s, FundedNodes(s.terms, heights, wit))
         == s.(funding := Per(Some(PaidIn(Need(s.terms, Btc), heights.btc)), Some(PaidIn(Need(s.terms, Qbit), heights.qbit))))
  {
    hide Backfill, FoundAndMarked, Need;
    var nodes := FundedNodes(s.terms, heights, wit);
    ObserveParts(cfg, s, nodes);
    FoundAndMarkedIs(cfg, s, nodes);
    var marked := FoundAndMarked(cfg, s, nodes);
    BackfillShape(cfg, marked, Btc, nodes.btc);
    BackfillShape(cfg, marked, Qbit, nodes.qbit);
  }

  /** The first poll that sees both deposits. */
  lemma FundingPoll(cfg: Config, s: Swap, heights: Per<nat>, wit: seq<bytes>)
    requires s.htlc.Some? && s.plan.Some? && s.state == Ready && Unfunded(s)
    ensures var o := Poll(cfg, s, FundedNodes(s.terms, heights, wit), 0);
            var t := o.s;
            && o.ok && o.log == []
            && t == s.(heights := Some(heights), state := t.state, tooLate := t.tooLate, refund := t.refund,
                       fromConfirmedAt := t.fromConfirmedAt, settledAt := t.settledAt,
                       funding := Per(Some(PaidIn(Need(s.terms, Btc), heights.btc)), Some(PaidIn(Need(s.terms, Qbit), heights.qbit))))
            && (t.state == Claimable || t.state == Maturing)
            && (Gate(cfg, t) ==> t.state == Claimable)
  {
    hide Observe, Judge, Buried, InTime, RefundOf, Need, FundedNode;
    var nodes := FundedNodes(s.terms, heights, wit);
    SameHeights(s.terms, heights, wit);
    var polled := s.(heights := Some(heights));
    FundedObserve(cfg, polled, heights, wit);
    var seen := Observe(cfg, polled, nodes);
    JudgedShape(cfg, seen, s.plan.value, nodes, 0);
    JudgedState(cfg, seen, s.plan.value, nodes);
  }

  lemma SameHeights(terms: Terms, heights: Per<nat>, wit: seq<bytes>)
    ensures var nodes := FundedNodes(terms, heights, wit); nodes.btc.height == heights.btc && nodes.qbit.height == heights.qbit
  {
  }

  lemma JudgedState(cfg: Config, s: Swap, plan: Depth.Plan, nodes: Per<Node>)
    requires s.plan == Some(plan) && s.state == Ready && s.preimage.None?
    requires s.funding.btc.Some? && s.funding.qbit.Some? && !s.funding.qbit.value.spent
    requires s.heights == Some(Per(nodes.btc.height, nodes.qbit.height))
    ensures var t := Judge(cfg, s, plan, nodes, 0);
            (t.state == Claimable || t.state == Maturing) && (Gate(cfg, s) ==> t.state == Claimable)
  {
    hide RefundOf, Regate, Gate;
    RegatedState(cfg, s, plan, nodes);
    RegateShape(cfg, s, plan, nodes, 0);
  }

  lemma RegatedState(cfg: Config, s: Swap, plan: Depth.Plan, nodes: Per<Node>)
    requires s.plan == Some(plan) && s.state == Ready
    requires s.funding.btc.Some? && s.funding.qbit.Some? && !s.funding.qbit.value.spent
    requires s.heights == Some(Per(nodes.btc.height, nodes.qbit.height))
    ensures var t := Regate(cfg, s, plan, nodes, 0);
            (t.state == Claimable || t.state == Maturing) && (Gate(cfg, s) ==> t.state == Claimable)
  {
    hide Buried, InTime, TooLate;
  }

  // ---------------------------------------------------------------------------
  // Arming, then funding
  // ---------------------------------------------------------------------------

  function OneTier(leg: Option<Leg>, tx: bytes): Ladder {
    Ladder(leg, false, [Tier(1.0, tx)])
  }

  /** A bundle of one-tier ladders, whose claim carries this label. */
  function PlainBundle(tag: Option<Leg>, tx: bytes): Bundle {
    Bundle(Some(OneTier(tag, tx)), OneTier(None, tx), None)
  }

  lemma PlainBundleStored(cfg: Config, s: Swap, role: Role, tag: Option<Leg>, tx: bytes)
    ensures var o := SubmitFinish(cfg, s, role, PlainBundle(tag, tx));
            o == if Inspected(cfg, tag) && !CarriesMarker(tx) then Throws(s)
                 else Done(s.(finish := s.finish.With(role, Some(PlainBundle(tag, tx)))))
  {
    hide CarriesMarker;
    var tiers := [Tier(1.0, tx)];
    assert tiers[0].tx == tx;
  }

  /** Derived, and nothing has happened since. */
  predicate Fresh(s: Swap) {
    && s.htlc.Some? && s.plan.Some? && s.hashText.Some? && s.state == Ready && Unfunded(s)
    && s.wt == map[] && s.finish == ByRole(None, None)
  }

  /** What a bundle and the first poll that sees both deposits make of such a record. */
  predicate ArmedAndFunded(s: Swap, role: Role, b: Bundle, heights: Per<nat>, t: Swap) {
    && t == s.(heights := Some(heights), state := t.state, tooLate := t.tooLate, refund := t.refund,
               fromConfirmedAt := t.fromConfirmedAt, settledAt := t.settledAt, finish := s.finish.With(role, Some(b)),
               funding := Per(Some(PaidIn(Need(s.terms, Btc), heights.btc)), Some(PaidIn(Need(s.terms, Qbit), heights.qbit))))
    && (t.state == Claimable || t.state == Maturing)
  }

  function ArmAndFund(terms: Terms, role: Role, b: Bundle, heights: Per<nat>, wit: seq<bytes>): seq<Event> {
    [Finish(role, b), PollTick(FundedNodes(terms, heights, wit), 0)]
  }

  lemma RunArmAndFund(cfg: Config, terms: Terms, events: seq<Event>, role: Role, tag: Option<Leg>, tx: bytes,
                      heights: Per<nat>, wit: seq<bytes>)
    requires var h := Run(cfg, terms, events); h.log == [] && Fresh(h.s) && h.s.terms == terms
    requires !Inspected(cfg, tag) || CarriesMarker(tx)
    ensures var b := PlainBundle(tag, tx);
            var h := Run(cfg, terms, events + ArmAndFund(terms, role, b, heights, wit));
            && h.log == [] && ArmedAndFunded(Run(cfg, terms, events).s, role, b, heights, h.s)
            && (Gate(cfg, h.s) ==> h.s.state == Claimable)
  {
    hide Run, SubmitFinish, Poll, Gate, FundedNodes, CarriesMarker, PlainBundle, PaidIn, Need, Inspected;
    var s, b := Run(cfg, terms, events).s, PlainBundle(tag, tx);
    var arm, poll := Finish(role, b), PollTick(FundedNodes(terms, heights, wit), 0);
    RunNext(cfg, terms, events, arm);
    RunNext(cfg, terms, events + [arm], poll);
    assert events + [arm] + [poll] == events + ArmAndFund(terms, role, b, heights, wit);
    PlainBundleStored(cfg, s, role, tag, tx);
    FundingPoll(cfg, s.(finish := s.finish.With(role, Some(b))), heights, wit);
  }

  /** Deposits as old as the chains are deep enough, and the lock height is far enough ahead. */
  predicate Opens(cfg: Config, plan: Depth.Plan, heights: Per<nat>) {
    && (forall leg: Leg :: heights.Of(leg) + 1 >= plan.targets.Of(leg) && heights.Of(leg) + 1 >= cfg.depth.legs.Of(leg).minConfs)
    && InTime(cfg, plan, heights.Of(TO))
  }

  lemma GateOpens(cfg: Config, s: Swap, role: Role, b: Bundle, heights: Per<nat>, t: Swap)
    requires ArmedAndFunded(s, role, b, heights, t) && s.plan.Some? && Opens(cfg, s.plan.value, heights)
    ensures Gate(cfg, t) && RelayGate(cfg, t)
  {
    hide InTime;
  }

  // ---------------------------------------------------------------------------
  // A party reveals
  // ---------------------------------------------------------------------------

  function Zeros(): Bytes32 {
    seq(32, _ => 0)
  }

  /** The hash of 32 zero bytes as the engine writes it. */
  function ZeroHashText(cfg: Config): string {
    Hex.Encode(cfg.sha(Zeros()))
  }

  lemma {:induction false} EncodedIsHex(b: bytes)
    ensures forall i :: 0 <= i < |Hex.Encode(b)| ==> Hex.Digit(Hex.Encode(b)[i]).Some?
  {
    if b != [] {
      Hex.DigitOf(b[0] / 16);
      Hex.DigitOf(b[0] % 16);
      EncodedIsHex(b[1..]);
    }
  }

  lemma ZeroHashFits(cfg: Config)
    ensures HashText(ZeroHashText(cfg)) && FindPreimage(cfg, Some(ZeroHashText(cfg)), [Zeros()]) == Some(Zeros())
  {
    hide Hex.Decode, Hex.Encode, Hex.Digit;
    EncodedIsHex(cfg.sha(Zeros()));
    Hex.DecodeOfEncode(cfg.sha(Zeros()));
  }

  function ClaimRequest(): Spend.Request {
    Spend.Request(Zeros(), 0, 1, [], [], [], 1, Claim, [], 0, None, true)
  }

  function NoSignature(priv: bytes, digest: bytes): bytes {
    []
  }

  /** Some spend that carries the replay marker. */
  function MarkedTx(cfg: Config): bytes {
    match Spend.BtcSpend(Spend.Crypto(cfg.sha, NoSignature, NoSignature), ClaimRequest())
    case Ok(tx) => tx
    case Err(_) => []
  }

  lemma MarkedTxCarries(cfg: Config)
    ensures CarriesMarker(MarkedTx(cfg))
  {
    hide TxCodec.DecodeTx, Spend.HasReplayMarker, Spend.BtcSpend, Spend.Outputs;
    var c := Spend.Crypto(cfg.sha, NoSignature, NoSignature);
    assert Spend.Refused(ClaimRequest()).None?;
    Spend.BtcSpendParses(c, ClaimRequest());
    Spend.MarkerPresent(ClaimRequest());
  }

  function Reveal(cfg: Config, node: Node): Event {
    PartySend(TO, Claim, MarkedTx(cfg), node, 0)
  }

  /** Through an open gate a party's claim of TO goes out and leaves the secret on record. */
  lemma RevealLearns(cfg: Config, s: Swap, node: Node)
    requires RelayGate(cfg, s) && s.preimage.None? && s.hashText == Some(ZeroHashText(cfg))
    requires (forall tx :: node.testAccept(tx)) && (forall txid :: node.witnessOf(txid) == [Zeros()])
    ensures var o := Apply(cfg, s, Reveal(cfg, node));
            && o.s.state == Claimed && o.s.preimage == Some(Zeros()) && |o.log| == 1 && o.log[0].sender.None?
            && o.s == s.(state := Claimed, preimage := Some(Zeros()), broadcasts := o.s.broadcasts,
                         funding := s.funding.With(TO, MarkedSpent(s.funding.Of(TO))))
  {
    hide RelayGate, CarriesMarker, MarkedTx, FindPreimage, ZeroHashText, MarkedSpent;
    MarkedTxCarries(cfg);
    ZeroHashFits(cfg);
  }

  // ---------------------------------------------------------------------------
  // Ticks that serve Bob
  // ---------------------------------------------------------------------------

  ghost predicate AcceptsAll(nodes: Per<Node>) {
    && nodes.btc.fastestFee == 1.0
    && forall tx :: nodes.btc.testAccept(tx) && nodes.qbit.testAccept(tx)
  }

  ghost predicate NothingUnspent(nodes: Per<Node>) {
    forall at :: !nodes.btc.isUnspent(at) && !nodes.qbit.isUnspent(at)
  }

  /** Only Bob left a bundle. */
  predicate BobArmed(s: Swap, tag: Option<Leg>, tx: bytes) {
    s.finish == ByRole(None, Some(PlainBundle(tag, tx)))
  }

  lemma AliceIdle(cfg: Config, o: Outcome, kind: Kind, nodes: Per<Node>, now: nat)
    requires o.s.finish.alice.None?
    ensures Attempt(cfg, o, Alice, kind, nodes, now) == o && Resend(cfg, o, Alice, kind, nodes, now) == o
  {
    hide Send, PickTier;
  }

  lemma BobClaims(cfg: Config, o: Outcome, tag: Option<Leg>, tx: bytes, nodes: Per<Node>, now: nat)
    requires BobArmed(o.s, tag, tx) && AcceptsAll(nodes)
    ensures var f := Recoverable(o.s, FROM);
            var fires := o.ok && f.Some? && !f.value.spent && (Bob, Claim) !in o.s.wt && !ShortFunded(o.s) && o.s.preimage.Some?;
            var o' := Attempt(cfg, o, Bob, Claim, nodes, now);
            if fires then
              && o'.ok && o'.log == o.log + [Entry(Some(Bob), FROM, Claim, tx, nodes.btc.witnessOf(nodes.btc.broadcast(tx)), o.s)]
              && o'.s.finish == o.s.finish && o'.s.preimage == o.s.preimage && o'.s.wt.Keys == o.s.wt.Keys + {(Bob, Claim)}
            else o' == o
  {
    hide FindPreimage, Recoverable, MarkedSpent;
  }

  lemma BobRefunds(cfg: Config, o: Outcome, tag: Option<Leg>, tx: bytes, nodes: Per<Node>, now: nat)
    requires BobArmed(o.s, tag, tx) && AcceptsAll(nodes)
    ensures var f := Recoverable(o.s, TO);
            var fires := o.ok && f.Some? && !f.value.spent && (Bob, Refund) !in o.s.wt && o.s.preimage.None?
                         && o.s.plan.Some? && HeightOf(o.s, TO) >= o.s.plan.value.locktimes.Of(TO);
            var o' := Attempt(cfg, o, Bob, Refund, nodes, now);
            if fires then
              && o'.ok && |o'.log| == |o.log| + 1 && o'.log[..|o.log|] == o.log
              && o'.log[|o.log|].sender == Some(Bob) && o'.log[|o.log|].kind == Refund
              && o'.s == o.s.(state := Refunded, broadcasts := o'.s.broadcasts, settledAt := Some(now), wt := o'.s.wt,
                              funding := o.s.funding.With(TO, MarkedSpent(o.s.funding.Of(TO))),
                              short := o.s.short.With(TO, MarkedSpent(o.s.short.Of(TO))))
              && o'.s.wt.Keys == o.s.wt.Keys + {(Bob, Refund)}
            else o' == o
  {
    hide Recoverable, MarkedSpent, HeightOf;
  }

  lemma NothingResent(cfg: Config, o: Outcome, role: Role, kind: Kind, after: Per<Node>, now: nat)
    requires NothingUnspent(after)
    ensures Resend(cfg, o, role, kind, after, now) == o
  {
    hide Send, PickTier, Recoverable;
  }

  lemma NoneResent(cfg: Config, o: Outcome, after: Per<Node>, now: nat)
    requires NothingUnspent(after)
    ensures Resending(cfg, o, after, now) == o
  {
    hide Resend, NothingUnspent;
    NothingResent(cfg, o, Alice, Claim, after, now);
    NothingResent(cfg, o, Bob, Claim, after, now);
    NothingResent(cfg, o, Alice, Refund, after, now);
    NothingResent(cfg, o, Bob, Refund, after, now);
  }

  /** A tick at the lock height of TO, while nothing is revealed, refunds Bob. */
  lemma RefundTick(cfg: Config, s: Swap, tag: Option<Leg>, tx: bytes, nodes: Per<Node>, after: Per<Node>, now: nat)
    requires BobArmed(s, tag, tx) && AcceptsAll(nodes) && NothingUnspent(after)
    requires !WatchtowerIdle(s) && s.preimage.None? && s.wt == map[] && s.plan.Some?
    requires HeightOf(s, TO) >= s.plan.value.locktimes.Of(TO)
    requires s.funding.Of(TO).Some? && !s.funding.Of(TO).value.spent
    ensures var o := Drive(cfg, s, nodes, after, now);
            && |o.log| == 1 && o.log[0].sender == Some(Bob) && o.log[0].kind == Refund
            && o.s == s.(state := Refunded, broadcasts := o.s.broadcasts, settledAt := Some(now), wt := o.s.wt,
                         funding := s.funding.With(TO, MarkedSpent(s.funding.Of(TO))),
                         short := s.short.With(TO, MarkedSpent(s.short.Of(TO))))
            && o.s.wt.Keys == {(Bob, Refund)}
  {
    hide Attempt, Resending, WatchtowerIdle, AcceptsAll, NothingUnspent, MarkedSpent, HeightOf, PlainBundle;
    AliceIdle(cfg, Done(s), Claim, nodes, now);
    BobClaims(cfg, Done(s), tag, tx, nodes, now);
    AliceIdle(cfg, Done(s), Refund, nodes, now);
    BobRefunds(cfg, Done(s), tag, tx, nodes, now);
    NoneResent(cfg, FirstMoves(cfg, Done(s), nodes, now), after, now);
  }

  /** A tick once the secret is on record claims for Bob. */
  lemma ClaimTick(cfg: Config, s: Swap, tag: Option<Leg>, tx: bytes, nodes: Per<Node>, after: Per<Node>, now: nat)
    requires BobArmed(s, tag, tx) && AcceptsAll(nodes) && NothingUnspent(after)
    requires !WatchtowerIdle(s) && s.preimage.Some? && (Bob, Claim) !in s.wt && !ShortFunded(s)
    requires s.funding.Of(FROM).Some? && !s.funding.Of(FROM).value.spent
    ensures var log := Drive(cfg, s, nodes, after, now).log;
            log == [Entry(Some(Bob), FROM, Claim, tx, nodes.btc.witnessOf(nodes.btc.broadcast(tx)), s)]
  {
    hide Attempt, Resending, WatchtowerIdle, AcceptsAll, NothingUnspent, PlainBundle, ShortFunded;
    AliceIdle(cfg, Done(s), Claim, nodes, now);
    BobClaims(cfg, Done(s), tag, tx, nodes, now);
    var b := Attempt(cfg, Done(s), Bob, Claim, nodes, now);
    AliceIdle(cfg, b, Refund, nodes, now);
    BobRefunds(cfg, b, tag, tx, nodes, now);
    NoneResent(cfg, FirstMoves(cfg, Done(s), nodes, now), after, now);
  }

  // ---------------------------------------------------------------------------
  // The calls that follow
  // ---------------------------------------------------------------------------

  /** The funded nodes as they answer a tick, and later in it. */
  function Tick(terms: Terms, heights: Per<nat>, now: nat): Event {
    WatchTick(FundedNodes(terms, heights, [Zeros()]), AllInFlight(FundedNodes(terms, heights, [Zeros()])), now)
  }

  function AllInFlight(nodes: Per<Node>): Per<Node> {
    Per(InFlight(nodes.btc), InFlight(nodes.qbit))
  }

  lemma FundedNodesServe(terms: Terms, heights: Per<nat>)
    ensures var nodes := FundedNodes(terms, heights, [Zeros()]);
            && AcceptsAll(nodes) && NothingUnspent(AllInFlight(nodes))
            && (forall tx :: nodes.qbit.testAccept(tx)) && (forall txid :: nodes.qbit.witnessOf(txid) == [Zeros()])
  {
  }

  lemma TickRefunds(cfg: Config, s: Swap, tag: Option<Leg>, tx: bytes, terms: Terms, heights: Per<nat>, now: nat)
    requires BobArmed(s, tag, tx) && !WatchtowerIdle(s) && s.preimage.None? && s.wt == map[] && s.plan.Some?
    requires HeightOf(s, TO) >= s.plan.value.locktimes.Of(TO)
    requires s.funding.Of(TO).Some? && !s.funding.Of(TO).value.spent
    ensures var o := Apply(cfg, s, Tick(terms, heights, now));
            && |o.log| == 1 && o.log[0].sender == Some(Bob) && o.log[0].kind == Refund
            && o.s == s.(state := Refunded, broadcasts := o.s.broadcasts, settledAt := Some(now), wt := o.s.wt,
                         funding := s.funding.With(TO, MarkedSpent(s.funding.Of(TO))),
                         short := s.short.With(TO, MarkedSpent(s.short.Of(TO))))
            && o.s.wt.Keys == {(Bob, Refund)}
  {
    hide Drive, AcceptsAll, NothingUnspent, WatchtowerIdle, FundedNodes, AllInFlight, BobArmed, HeightOf, MarkedSpent;
    var nodes := FundedNodes(terms, heights, [Zeros()]);
    FundedNodesServe(terms, heights);
    RefundTick(cfg, s, tag, tx, nodes, AllInFlight(nodes), now);
  }

  lemma TickClaims(cfg: Config, s: Swap, tag: Option<Leg>, tx: bytes, terms: Terms, heights: Per<nat>, now: nat)
    requires BobArmed(s, tag, tx) && !WatchtowerIdle(s) && s.preimage.Some? && (Bob, Claim) !in s.wt && !ShortFunded(s)
    requires s.funding.Of(FROM).Some? && !s.funding.Of(FROM).value.spent
    ensures var log := Apply(cfg, s, Tick(terms, heights, now)).log;
            && |log| == 1 && log[0].sender == Some(Bob) && log[0].leg == FROM && log[0].kind == Claim && log[0].tx == tx
            && log[0].before == s
  {
    hide Drive, AcceptsAll, NothingUnspent, WatchtowerIdle, FundedNodes, AllInFlight, BobArmed, ShortFunded;
    var nodes := FundedNodes(terms, heights, [Zeros()]);
    FundedNodesServe(terms, heights);
    ClaimTick(cfg, s, tag, tx, nodes, AllInFlight(nodes), now);
  }

  /** Marking a deposit as spent does not shut the relay gate. */
  lemma StillRelays(cfg: Config, s: Swap, t: Swap)
    requires RelayGate(cfg, s) && t.plan == s.plan && t.heights == s.heights
    requires t.funding.Of(FROM) == s.funding.Of(FROM) || t.funding.Of(FROM) == MarkedSpent(s.funding.Of(FROM))
    requires t.funding.Of(TO) == s.funding.Of(TO) || t.funding.Of(TO) == MarkedSpent(s.funding.Of(TO))
    ensures RelayGate(cfg, t)
  {
    hide InTime;
  }
}
