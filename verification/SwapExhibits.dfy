/** Runs on which a promise of the engine fails, and the exact conditions under which such runs exist. */
module SwapExhibits {
  import opened Bytes
  import opened Legs
  import opened SwapState
  import opened SwapSteps
  import opened SwapSound
  import opened SwapRuns
  import opened SwapSafety
  import opened SwapPromises
  import opened SwapLimits
  import opened SwapScenario
  import Depth
  import Encoding
  import Hex
  import Htlc

  // ---------------------------------------------------------------------------
  // From nothing to an open gate
  // ---------------------------------------------------------------------------

  /** A plan made on these nodes has valid lock heights, and a poll at these heights, with deposits as old as the
      chains, finds the gate open. */
  predicate Openable(cfg: Config, terms: Terms, nodes: Per<Node>, heights: Per<nat>) {
    var plan := PlanOf(cfg, Initial(terms), nodes);
    ValidLocktimes(plan.locktimes) && Opens(cfg, plan, heights)
  }

  function OpenRun(cfg: Config, terms: Terms, text: string, nodes: Per<Node>, heights: Per<nat>, role: Role, b: Bundle,
                   wit: seq<bytes>): seq<Event> {
    Joining(cfg, text, nodes) + ArmAndFund(terms, role, b, heights, wit)
  }

  lemma OpenedIsFresh(cfg: Config, terms: Terms, text: string, plan: Depth.Plan)
    requires Opened(cfg, terms, text, plan).htlc.Some?
    ensures Fresh(Opened(cfg, terms, text, plan))
  {
    hide Build, SomeKeys;
  }

  /** Two parties join, one arms its bundle, both fund: the swap is CLAIMABLE. */
  lemma OpenReached(cfg: Config, terms: Terms, text: string, nodes: Per<Node>, heights: Per<nat>, role: Role,
                    tag: Option<Leg>, tx: bytes, wit: seq<bytes>)
    requires HashText(text) && Openable(cfg, terms, nodes, heights) && (Inspected(cfg, tag) ==> CarriesMarker(tx))
    ensures var s := Opened(cfg, terms, text, PlanOf(cfg, Initial(terms), nodes));
            var b := PlainBundle(tag, tx);
            var h := Run(cfg, terms, OpenRun(cfg, terms, text, nodes, heights, role, b, wit));
            && h.log == [] && Fresh(s) && ArmedAndFunded(s, role, b, heights, h.s)
            && h.s.state == Claimable && Gate(cfg, h.s) && RelayGate(cfg, h.s)
  {
    hide Run, Opened, HashText, ValidLocktimes, Fresh, ArmedAndFunded, Inspected, CarriesMarker, PlainBundle, Gate,
      RelayGate, PlanOf, Joining, ArmAndFund, Opens;
    var s := Opened(cfg, terms, text, PlanOf(cfg, Initial(terms), nodes));
    Joined2(cfg, terms, text, nodes);
    OpenedIsFresh(cfg, terms, text, PlanOf(cfg, Initial(terms), nodes));
    OpenedTerms(cfg, terms, text, PlanOf(cfg, Initial(terms), nodes));
    RunArmAndFund(cfg, terms, Joining(cfg, text, nodes), role, tag, tx, heights, wit);
    var h := Run(cfg, terms, OpenRun(cfg, terms, text, nodes, heights, role, PlainBundle(tag, tx), wit));
    GateOpens(cfg, s, role, PlainBundle(tag, tx), heights, h.s);
  }

  lemma OpenedTerms(cfg: Config, terms: Terms, text: string, plan: Depth.Plan)
    ensures var s := Opened(cfg, terms, text, plan);
            s.terms == terms && s.plan == Some(plan) && s.hashText == Some(text) && s.party.alice == Some(SomeKeys(cfg))
  {
    hide Build, SomeKeys;
  }

  // ---------------------------------------------------------------------------
  // Both sides for the initiator
  // ---------------------------------------------------------------------------

  ghost predicate BothSides(cfg: Config, terms: Terms, events: seq<Event>, role: Role) {
    var log := Run(cfg, terms, events).log; Watched(log, role, Claim) && Watched(log, role, Refund)
  }

  /** From any hash text that is accepted but not canonical there is a run with both, and every witness the node
      reports may be `wit`. */
  lemma NotCanonicalRun(cfg: Config, terms: Terms, text: string, nodes: Per<Node>, heights: Per<nat>, wit: seq<bytes>)
    requires HashText(text) && !Hex.Canonical(text) && Openable(cfg, terms, nodes, heights)
    ensures var run := OpenRun(cfg, terms, text, nodes, heights, Alice, PlainBundle(Some(TO), MarkedTx(cfg)), wit);
            var s := Run(cfg, terms, run).s;
            && s.state == Claimable && s.heights.Some? && s.plan.Some? && s.hashText == Some(text)
            && s.wt == map[] && !ShortFunded(s)
            && Confirmed(s.funding.btc) && !s.funding.btc.value.spent && Confirmed(s.funding.qbit)
            && s.finish.alice.Some? && s.finish.alice.value.claim.Some? && !s.finish.alice.value.claim.value.needsPreimage
    ensures var run := OpenRun(cfg, terms, text, nodes, heights, Alice, PlainBundle(Some(TO), MarkedTx(cfg)), wit);
            var quiet := QuietNodes(Run(cfg, terms, run).s, NO_QUOTE, wit);
            BothSides(cfg, terms, run + [PollTick(quiet, 0), WatchTick(quiet, quiet, 0)], Alice)
  {
    hide Run, HashText, Openable, Gate, RelayGate, Hex.Canonical, OpenRun, MarkedTx, CarriesMarker, Inspected, Opened,
      Watched, QuietNodes, Need;
    MarkedTxCarries(cfg);
    OpenReached(cfg, terms, text, nodes, heights, Alice, Some(TO), MarkedTx(cfg), wit);
    OpenedTerms(cfg, terms, text, PlanOf(cfg, Initial(terms), nodes));
    var run := OpenRun(cfg, terms, text, nodes, heights, Alice, PlainBundle(Some(TO), MarkedTx(cfg)), wit);
    NotCanonicalGoesWrong(cfg, terms, run, NO_QUOTE, wit);
  }

  /** The watchtower's accepted claims for the initiator were made under this hash text and show a preimage of it. */
  predicate Shown(cfg: Config, text: string, e: Entry) {
    e.sender == Some(Alice) && e.kind == Claim ==> e.before.hashText == Some(text) && Carries(cfg, text, e.wit)
  }

  predicate AllShown(cfg: Config, text: string, log: seq<Entry>) {
    forall e <- log :: Shown(cfg, text, e)
  }

  predicate Showing(cfg: Config, text: string, o: Outcome) {
    o.s.hashText == Some(text) && AllShown(cfg, text, o.log)
  }

  ghost predicate Reports(cfg: Config, text: string, nodes: Per<Node>) {
    forall txid :: Carries(cfg, text, nodes.btc.witnessOf(txid)) && Carries(cfg, text, nodes.qbit.witnessOf(txid))
  }

  lemma SendShows(cfg: Config, s: Swap, role: Role, kind: Kind, b: Ladder, tier: int, node: Node, now: nat, text: string)
    requires s.hashText == Some(text) && forall txid :: Carries(cfg, text, node.witnessOf(txid))
    ensures var r := Send(cfg, s, role, kind, b, tier, node, now);
            r.Sent? ==> r.s.hashText == Some(text) && Shown(cfg, text, r.entry)
  {
    hide TierTx, FindPreimage, Carries;
  }

  lemma AttemptShows(cfg: Config, o: Outcome, role: Role, kind: Kind, nodes: Per<Node>, now: nat, text: string)
    requires Reports(cfg, text, nodes) && Showing(cfg, text, o)
    ensures Showing(cfg, text, Attempt(cfg, o, role, kind, nodes, now))
  {
    hide Send, PickTier, Recoverable, Carries, Shown;
    if o.ok && Fires(o.s, role, kind) {
      var leg := LegOf(role, kind);
      var b := LadderOf(o.s, role, kind).value;
      SendShows(cfg, o.s, role, kind, b, PickTier(leg, b.tiers, 0, nodes.Of(leg).fastestFee), nodes.Of(leg), now, text);
    }
  }

  lemma ResendShows(cfg: Config, o: Outcome, role: Role, kind: Kind, nodes: Per<Node>, now: nat, text: string)
    requires Reports(cfg, text, nodes) && Showing(cfg, text, o)
    ensures Showing(cfg, text, Resend(cfg, o, role, kind, nodes, now))
  {
    hide Send, PickTier, Recoverable, Carries, Shown;
    var leg := LegOf(role, kind);
    if o.ok && Resends(o.s, role, kind, nodes.Of(leg)) {
      var b := LadderOf(o.s, role, kind).value;
      var tier := Depth.Max(o.s.wt[(role, kind)].tier, PickTier(leg, b.tiers, 0, nodes.Of(leg).fastestFee));
      SendShows(cfg, o.s.(wt := o.s.wt - {(role, kind)}), role, kind, b, tier, nodes.Of(leg), now, text);
    }
  }

  lemma DriveShows(cfg: Config, s: Swap, nodes: Per<Node>, now: nat, text: string)
    requires Reports(cfg, text, nodes) && s.hashText == Some(text)
    ensures AllShown(cfg, text, Drive(cfg, s, nodes, nodes, now).log)
  {
    hide Attempt, Resend, Reports, WatchtowerIdle, Shown;
    var a := Attempt(cfg, Done(s), Alice, Claim, nodes, now);
    AttemptShows(cfg, Done(s), Alice, Claim, nodes, now, text);
    var b := Attempt(cfg, a, Bob, Claim, nodes, now);
    AttemptShows(cfg, a, Bob, Claim, nodes, now, text);
    var c := Attempt(cfg, b, Alice, Refund, nodes, now);
    AttemptShows(cfg, b, Alice, Refund, nodes, now, text);
    var d := Attempt(cfg, c, Bob, Refund, nodes, now);
    AttemptShows(cfg, c, Bob, Refund, nodes, now, text);
    var e := Resend(cfg, d, Alice, Claim, nodes, now);
    ResendShows(cfg, d, Alice, Claim, nodes, now, text);
    var f := Resend(cfg, e, Bob, Claim, nodes, now);
    ResendShows(cfg, e, Bob, Claim, nodes, now, text);
    var g := Resend(cfg, f, Alice, Refund, nodes, now);
    ResendShows(cfg, f, Alice, Refund, nodes, now, text);
    ResendShows(cfg, g, Bob, Refund, nodes, now, text);
  }

  lemma PollThenTickShows(cfg: Config, terms: Terms, run: seq<Event>, text: string, nodes: Per<Node>)
    requires var h := Run(cfg, terms, run); h.log == [] && h.s.hashText == Some(text)
    requires Reports(cfg, text, nodes)
    ensures AllShown(cfg, text, Run(cfg, terms, run + [PollTick(nodes, 0), WatchTick(nodes, nodes, 0)]).log)
  {
    hide Run, Apply, Drive, Poll, Reports, AllShown, Kept;
    var s := Run(cfg, terms, run).s;
    var t := Poll(cfg, s, nodes, 0).s;
    TwoMore(cfg, terms, run, PollTick(nodes, 0), WatchTick(nodes, nodes, 0));
    PollApplies(cfg, s, nodes);
    DriveApplies(cfg, t, nodes);
    CallsKeepWt(cfg, s, PollTick(nodes, 0));
    PollKept(cfg, s, nodes, 0);
    KeepsText(s, t, text);
    DriveShows(cfg, t, nodes, 0, text);
    assert [] + [] + Drive(cfg, t, nodes, nodes, 0).log == Drive(cfg, t, nodes, nodes, 0).log;
  }

  lemma KeepsText(s: Swap, t: Swap, text: string)
    requires Kept(s, t) && s.hashText == Some(text)
    ensures t.hashText == Some(text)
  {
  }

  lemma QuietReports(cfg: Config, s: Swap, text: string, wit: seq<bytes>)
    requires s.heights.Some? && s.plan.Some? && Carries(cfg, text, wit)
    ensures Reports(cfg, text, QuietNodes(s, NO_QUOTE, wit))
  {
    hide Carries;
  }

  lemma ShownIsTruthful(cfg: Config, text: string, log: seq<Entry>)
    requires AllShown(cfg, text, log) && Hex.Canonical(text)
    ensures AllTruthful(cfg, log)
  {
    hide Hex.Canonical, Carries;
  }

  /** Whenever the gate can open: some run has the watchtower relay both a claim and a refund for the initiator, every
      accepted claim of his showing the preimage behind `text`, if and only if `text` is not canonical. */
  lemma InitiatorBothSidesExactly(cfg: Config, terms: Terms, text: string, secret: bytes, nodes: Per<Node>, heights: Per<nat>)
    requires Openable(cfg, terms, nodes, heights)
    requires Hex.IsHex(text) && |secret| == 32 && Hex.Decode(text) == Ok(cfg.sha(secret))
    ensures (exists events :: AllShown(cfg, text, Run(cfg, terms, events).log) && BothSides(cfg, terms, events, Alice))
            <==> !Hex.Canonical(text)
  {
    hide Run, Hex.Canonical, Openable, Hex.IsHex, Hex.Decode, QuietNodes, Watched, AllShown, OpenRun, ShortFunded, MarkedTx;
    if Hex.Canonical(text) {
      forall events ensures !(AllShown(cfg, text, Run(cfg, terms, events).log) && BothSides(cfg, terms, events, Alice)) {
        if AllShown(cfg, text, Run(cfg, terms, events).log) {
          ShownIsTruthful(cfg, text, Run(cfg, terms, events).log);
          NeverBothSides(cfg, terms, events, Alice);
        }
      }
    } else {
      var wit := [secret];
      assert Carries(cfg, text, wit) by { assert wit[0] == secret; }
      NotCanonicalRun(cfg, terms, text, nodes, heights, wit);
      var run := OpenRun(cfg, terms, text, nodes, heights, Alice, PlainBundle(Some(TO), MarkedTx(cfg)), wit);
      var s := Run(cfg, terms, run).s;
      var quiet := QuietNodes(s, NO_QUOTE, wit);
      QuietReports(cfg, s, text, wit);
      OpenRunSilent(cfg, terms, text, nodes, heights, wit);
      PollThenTickShows(cfg, terms, run, text, quiet);
    }
  }

  lemma OpenRunSilent(cfg: Config, terms: Terms, text: string, nodes: Per<Node>, heights: Per<nat>, wit: seq<bytes>)
    requires HashText(text) && Openable(cfg, terms, nodes, heights)
    ensures Run(cfg, terms, OpenRun(cfg, terms, text, nodes, heights, Alice, PlainBundle(Some(TO), MarkedTx(cfg)), wit)).log == []
  {
    hide Run, HashText, Openable, Gate, RelayGate, OpenRun, MarkedTx, CarriesMarker, Inspected, Opened, PlainBundle,
      ArmedAndFunded;
    MarkedTxCarries(cfg);
    OpenReached(cfg, terms, text, nodes, heights, Alice, Some(TO), MarkedTx(cfg), wit);
  }

  // ---------------------------------------------------------------------------
  // With the default depths
  // ---------------------------------------------------------------------------

  const SOME_TERMS: Terms := Terms(100_000, 500_000, 0)

  function NodesAt(btc: nat, qbit: nat): Per<Node> {
    Per(FundedNode(btc, NO_QUOTE, 0, []), FundedNode(qbit, Depth.Quote(1.0, 0, 0.0), 0, []))
  }

  lemma DefaultConfs()
    ensures Depth.ReorgConfs(DEFAULT_DEPTH, Btc, 100_000, 0, NO_QUOTE) == 1
    ensures Depth.ReorgConfs(DEFAULT_DEPTH, Qbit, 100_000, 0, Depth.Quote(1.0, 0, 0.0)) == 1
  {
    assert Depth.SubsidySats(0) == 5_000_000_000;
    assert Depth.Ceil(Depth.Ratio(Depth.Times(3.0, 100_000.0), 5_000_000_000.0)) == 1;
  }

  lemma DefaultWindows()
    ensures Depth.LocktimeBlocks(DEFAULT_DEPTH.legs.btc, Depth.FromSecs(DEFAULT_DEPTH, 1)) == 31
    ensures Depth.LocktimeBlocks(DEFAULT_DEPTH.legs.qbit, Depth.ToSecs(DEFAULT_DEPTH, 1)) == 182
  {
    assert Depth.ToSecs(DEFAULT_DEPTH, 1) == 10_920;
    assert Depth.Ceil(Depth.Ratio(18_120.0, 600.0)) == 31;
    assert Depth.Ceil(Depth.Ratio(10_920.0, 60.0)) == 182;
  }

  /** With the default depths and a buffer of at most 181 blocks a small swap's gate can open. */
  lemma DefaultOpens(cfg: Config)
    requires cfg.depth == DEFAULT_DEPTH && cfg.revealBuffer <= 181
    ensures Openable(cfg, SOME_TERMS, NodesAt(0, 0), Per(0, 0))
  {
    hide Depth.ReorgConfs, Depth.LocktimeBlocks, Depth.FromSecs, Depth.ToSecs;
    DefaultConfs();
    DefaultWindows();
  }

  lemma UpperCaseText()
    ensures HashText(Repeat('A', 64)) && !Hex.Canonical(Repeat('A', 64))
  {
    hide Hex.Decode, Hex.IsHex;
    RepeatDecodes('A', 10, 32);
    var b := Doubles(10, 32);
    assert b[0] == 170;
    assert Hex.Encode(b)[0] == 'a';
  }

  /** 64 times the letter A: accepted, and then both the initiator's claim and his refund can go out. */
  lemma UpperCaseGoesWrong(cfg: Config)
    requires cfg.depth == DEFAULT_DEPTH && cfg.revealBuffer <= 181
    ensures exists more :: BothSides(cfg, SOME_TERMS, Joining(cfg, Repeat('A', 64), NodesAt(0, 0)) + more, Alice)
  {
    hide Run, HashText, Hex.Canonical, Openable, Repeat, BothSides, QuietNodes, Joining, NodesAt, PlainBundle, MarkedTx;
    var text, nodes := Repeat('A', 64), NodesAt(0, 0);
    UpperCaseText();
    DefaultOpens(cfg);
    NotCanonicalRun(cfg, SOME_TERMS, text, nodes, Per(0, 0), []);
    var b := PlainBundle(Some(TO), MarkedTx(cfg));
    var run := OpenRun(cfg, SOME_TERMS, text, nodes, Per(0, 0), Alice, b, []);
    var quiet := QuietNodes(Run(cfg, SOME_TERMS, run).s, NO_QUOTE, []);
    var last := [PollTick(quiet, 0), WatchTick(quiet, quiet, 0)];
    assert run + last == Joining(cfg, text, nodes) + (ArmAndFund(SOME_TERMS, Alice, b, Per(0, 0), []) + last);
  }

  // ---------------------------------------------------------------------------
  // Scripts that fell behind their locktimes
  // ---------------------------------------------------------------------------

  lemma AboveHeights(cfg: Config, s: Swap, nodes: Per<Node>)
    requires nodes.btc.height >= 500_000_000
    ensures !ValidLocktimes(PlanOf(cfg, s, nodes).locktimes)
  {
    hide Depth.ReorgConfs, Depth.FromSecs, Depth.ToSecs;
  }

  /** After a second submission by Bob at a height that no longer fits a lock height, the record shows new locktimes
      beside the old scripts, and Alice's client refuses it. */
  lemma StaleScripts(cfg: Config, terms: Terms, text: string, nodes: Per<Node>, later: Per<Node>)
    requires HashText(text) && ValidLocktimes(PlanOf(cfg, Initial(terms), nodes).locktimes)
    requires later.btc.height >= 500_000_000
    ensures var own := Per(Doubles(0, Htlc.KeyLength(cfg.rules.btc.family)), Doubles(0, Htlc.KeyLength(cfg.rules.qbit.family)));
            var s := Run(cfg, terms, Joining(cfg, text, nodes) + [Submit(Bob, SomeKeys(cfg), None, later, 0)]).s;
            && s.htlc.Some? && s.plan == Some(PlanOf(cfg, Initial(terms), later))
            && !ValidLocktimes(s.plan.value.locktimes)
            && s.htlc == Run(cfg, terms, Joining(cfg, text, nodes)).s.htlc
            && OwnKeys(s, Alice, own) && !ClientAccepts(cfg, s, Alice, own)
  {
    hide Run, HashText, ValidLocktimes, Opened, SomeKeys, Joining, SubmitParty, PlanOf, ClientAccepts, OwnKeys, Repeat;
    var plan := PlanOf(cfg, Initial(terms), nodes);
    var e := Submit(Bob, SomeKeys(cfg), None, later, 0);
    var events := Joining(cfg, text, nodes) + [e];
    Joined2(cfg, terms, text, nodes);
    RunNext(cfg, terms, Joining(cfg, text, nodes), e);
    Rederived(cfg, terms, text, plan, later);
    AboveHeights(cfg, Initial(terms), later);
    OpenedTerms(cfg, terms, text, plan);
    var s := Run(cfg, terms, events).s;
    KeysDecode(cfg, s);
    var own := Per(Doubles(0, Htlc.KeyLength(cfg.rules.btc.family)), Doubles(0, Htlc.KeyLength(cfg.rules.qbit.family)));
    HonestClientAccepts(cfg, terms, events, Alice, own);
  }

  /** So under the default depths: join at height 0, submit again at height 500,000,000. */
  lemma StaleByDefault(cfg: Config)
    requires cfg.depth == DEFAULT_DEPTH && cfg.revealBuffer <= 181
    ensures exists events, own :: var s := Run(cfg, SOME_TERMS, events).s;
              s.htlc.Some? && OwnKeys(s, Alice, own) && !ClientAccepts(cfg, s, Alice, own)
  {
    hide Run, HashText, Openable, Repeat, OwnKeys, ClientAccepts, Joining, NodesAt, ValidLocktimes, PlanOf, SomeKeys;
    DefaultOpens(cfg);
    OpenableIsValid(cfg, SOME_TERMS, NodesAt(0, 0), Per(0, 0));
    UpperCaseText();
    LaterHeight();
    StaleScripts(cfg, SOME_TERMS, Repeat('A', 64), NodesAt(0, 0), NodesAt(500_000_000, 0));
  }

  lemma OpenableIsValid(cfg: Config, terms: Terms, nodes: Per<Node>, heights: Per<nat>)
    requires Openable(cfg, terms, nodes, heights)
    ensures ValidLocktimes(PlanOf(cfg, Initial(terms), nodes).locktimes)
  {
  }

  lemma LaterHeight()
    ensures NodesAt(500_000_000, 0).btc.height == 500_000_000
  {
  }

  lemma KeysDecode(cfg: Config, s: Swap)
    requires s.party.alice == Some(SomeKeys(cfg))
    ensures OwnKeys(s, Alice, Per(Doubles(0, Htlc.KeyLength(cfg.rules.btc.family)), Doubles(0, Htlc.KeyLength(cfg.rules.qbit.family))))
  {
    hide Hex.Decode, Repeat, Htlc.KeyLength;
    RepeatDecodes('0', 0, Htlc.KeyLength(cfg.rules.qbit.family));
    RepeatDecodes('0', 0, Htlc.KeyLength(cfg.rules.btc.family));
  }

  // ---------------------------------------------------------------------------
  // Both sides for the participant
  // ---------------------------------------------------------------------------

  /** A refund at the lock height of TO, then a reveal through a gate that is still open, then a claim. */
  lemma RefundRevealClaim(cfg: Config, terms: Terms, events: seq<Event>, tag: Option<Leg>, tx: bytes, heights: Per<nat>)
    requires var h := Run(cfg, terms, events);
             && h.log == [] && BobArmed(h.s, tag, tx) && !WatchtowerIdle(h.s) && RelayGate(cfg, h.s)
             && h.s.preimage.None? && h.s.wt == map[] && h.s.short == Per(None, None) && h.s.plan.Some? && h.s.htlc.Some?
             && h.s.hashText == Some(ZeroHashText(cfg))
             && HeightOf(h.s, TO) >= h.s.plan.value.locktimes.Of(TO)
             && h.s.funding.btc.Some? && !h.s.funding.btc.value.spent
             && h.s.funding.qbit.Some? && !h.s.funding.qbit.value.spent
    ensures var tick := Tick(terms, heights, 0);
            var more := events + [tick] + [Reveal(cfg, FundedNodes(terms, heights, [Zeros()]).qbit)] + [tick];
            BothSides(cfg, terms, more, Bob) && AllTruthful(cfg, Run(cfg, terms, more).log)
  {
    hide Run, Apply, Tick, Reveal, RelayGate, BobArmed, WatchtowerIdle, ZeroHashText, HeightOf, FundedNodes, MarkedSpent;
    var tick, opening := Tick(terms, heights, 0), Reveal(cfg, FundedNodes(terms, heights, [Zeros()]).qbit);
    var s := Run(cfg, terms, events).s;
    RunNext(cfg, terms, events, tick);
    RunNext(cfg, terms, events + [tick], opening);
    RunNext(cfg, terms, events + [tick] + [opening], tick);
    TickRefunds(cfg, s, tag, tx, terms, heights, 0);
    var refunded := Apply(cfg, s, tick);
    StillRelays(cfg, s, refunded.s);
    FundedNodesServe(terms, heights);
    RevealLearns(cfg, refunded.s, FundedNodes(terms, heights, [Zeros()]).qbit);
    var revealed := Apply(cfg, refunded.s, opening);
    KeptArmed(s, refunded.s, revealed.s, tag, tx);
    TickClaims(cfg, revealed.s, tag, tx, terms, heights, 0);
    var claimed := Apply(cfg, revealed.s, tick);
    BothAtOnce(cfg, refunded.log[0], revealed.log[0], claimed.log[0]);
    assert [] + refunded.log + revealed.log + claimed.log == [refunded.log[0], revealed.log[0], claimed.log[0]];
  }

  lemma KeptArmed(s: Swap, refunded: Swap, revealed: Swap, tag: Option<Leg>, tx: bytes)
    requires BobArmed(s, tag, tx) && s.short == Per(None, None) && s.funding.btc.Some? && s.htlc.Some?
    requires refunded == s.(state := refunded.state, broadcasts := refunded.broadcasts, settledAt := refunded.settledAt,
                            wt := refunded.wt, funding := s.funding.With(TO, MarkedSpent(s.funding.Of(TO))),
                            short := s.short.With(TO, MarkedSpent(s.short.Of(TO))))
    requires revealed == refunded.(state := Claimed, preimage := Some(Zeros()), broadcasts := revealed.broadcasts,
                                   funding := refunded.funding.With(TO, MarkedSpent(refunded.funding.Of(TO))))
    ensures BobArmed(revealed, tag, tx) && !WatchtowerIdle(revealed) && !ShortFunded(revealed)
    ensures revealed.funding.btc == s.funding.btc && revealed.wt == refunded.wt
  {
    hide PlainBundle;
  }

  lemma BothAtOnce(cfg: Config, a: Entry, b: Entry, c: Entry)
    requires a.sender == Some(Bob) && a.kind == Refund && b.sender.None? && c.sender == Some(Bob) && c.kind == Claim
    ensures var log := [a, b, c]; Watched(log, Bob, Claim) && Watched(log, Bob, Refund) && AllTruthful(cfg, log)
  {
    hide Hex.Canonical, Carries;
    var log := [a, b, c];
    assert log[0] == a && log[2] == c;
  }

  /** Where some plan has valid lock heights: some run has the watchtower relay both a claim and a refund for the
      participant if and only if some derivation can set a TO target that with the buffer comes to zero or less. */
  lemma ParticipantBothSidesExactly(cfg: Config, terms: Terms, nodes: Per<Node>)
    requires ValidLocktimes(PlanOf(cfg, Initial(terms), nodes).locktimes)
    ensures (exists events :: AllTruthful(cfg, Run(cfg, terms, events).log) && BothSides(cfg, terms, events, Bob))
            <==> !Guarded(cfg, terms)
  {
    hide Run, ValidLocktimes, PlanOf, Guarded, AllTruthful, Watched;
    if Guarded(cfg, terms) {
      forall events ensures !(AllTruthful(cfg, Run(cfg, terms, events).log) && BothSides(cfg, terms, events, Bob)) {
        if AllTruthful(cfg, Run(cfg, terms, events).log) {
          NeverBothSides(cfg, terms, events, Bob);
        }
      }
    } else {
      UnguardedRun(cfg, terms, nodes);
    }
  }

  /** Nodes on which a derivation sets the least TO target, TO being old enough for it. */
  function LeastNodes(cfg: Config, terms: Terms): Per<Node> {
    var (height, q) := Depth.LeastAt(cfg.depth, TO, terms.btcSats);
    var grown := Depth.Max(0, Depth.LeastConfs(cfg.depth, TO, terms.btcSats)) + cfg.depth.legs.Of(TO).minConfs;
    Per(FundedNode(height, NO_QUOTE, 0, []), FundedNode(grown, q, 0, []))
  }

  /** FROM old enough for its target, TO at the lock height. */
  function LockHeights(cfg: Config, plan: Depth.Plan): Per<nat> {
    Per(Depth.Max(0, plan.targets.btc) + cfg.depth.legs.btc.minConfs, Depth.Max(0, plan.locktimes.qbit))
  }

  lemma LeastOpens(cfg: Config, terms: Terms)
    requires !Guarded(cfg, terms)
    ensures var plan := PlanOf(cfg, Initial(terms), LeastNodes(cfg, terms));
            Opens(cfg, plan, LockHeights(cfg, plan)) && LockHeights(cfg, plan).qbit == plan.locktimes.qbit
  {
    hide Depth.ReorgConfs, Depth.LeastConfs, Depth.LeastAt, Depth.LocktimeBlocks, Depth.FromSecs, Depth.ToSecs;
    Depth.LeastIsReached(cfg.depth, TO, terms.btcSats);
    BlocksPositive(cfg.depth.legs.Of(TO), Depth.ToSecs(cfg.depth, Depth.LeastConfs(cfg.depth, TO, terms.btcSats)));
  }

  lemma BlocksPositive(c: Depth.LegConfig, secs: int)
    requires c.blockSecs > 0.0
    ensures Depth.LocktimeBlocks(c, secs) >= 1
  {
    hide Depth.Ratio, Depth.Ceil;
  }

  lemma UnguardedRun(cfg: Config, terms: Terms, nodes: Per<Node>)
    requires ValidLocktimes(PlanOf(cfg, Initial(terms), nodes).locktimes) && !Guarded(cfg, terms)
    ensures exists events :: AllTruthful(cfg, Run(cfg, terms, events).log) && BothSides(cfg, terms, events, Bob)
  {
    hide Run, Opened, HashText, ValidLocktimes, Gate, RelayGate, CarriesMarker, MarkedTx, Opens, LockHeights, LeastNodes,
      ZeroHashText, Guarded, Joining, PlanOf, Tick, Reveal, FundedNodes, SubmitParty, SomeKeys, AllTruthful, BothSides,
      ArmAndFund;
    var text, least := ZeroHashText(cfg), LeastNodes(cfg, terms);
    var first, plan := PlanOf(cfg, Initial(terms), nodes), PlanOf(cfg, Initial(terms), least);
    var heights := LockHeights(cfg, plan);
    var again := Submit(Bob, SomeKeys(cfg), None, least, 0);
    var joined := Joining(cfg, text, nodes) + [again];
    ZeroHashFits(cfg);
    Joined2(cfg, terms, text, nodes);
    RunNext(cfg, terms, Joining(cfg, text, nodes), again);
    Rederived(cfg, terms, text, first, least);
    OpenedTerms(cfg, terms, text, first);
    OpenedIsFresh(cfg, terms, text, first);
    var s := Run(cfg, terms, joined).s;
    MarkedTxCarries(cfg);
    RunArmAndFund(cfg, terms, joined, Bob, Some(FROM), MarkedTx(cfg), heights, [Zeros()]);
    var b := PlainBundle(Some(FROM), MarkedTx(cfg));
    var funded := joined + ArmAndFund(terms, Bob, b, heights, [Zeros()]);
    LeastOpens(cfg, terms);
    GateOpens(cfg, s, Bob, b, heights, Run(cfg, terms, funded).s);
    RefundRevealClaim(cfg, terms, funded, Some(FROM), MarkedTx(cfg), heights);
  }

  // ---------------------------------------------------------------------------
  // Claims without a marker
  // ---------------------------------------------------------------------------

  /** The watchtower relayed, for Bob and from a bundle with this label, a claim of FROM that carries no marker. */
  ghost predicate UnmarkedSent(cfg: Config, terms: Terms, events: seq<Event>, tag: Option<Leg>) {
    var log := Run(cfg, terms, events).log;
    exists i :: 0 <= i < |log| && log[i].sender == Some(Bob) && log[i].leg == FROM && log[i].kind == Claim
                && Label(log[i].before, Bob) == tag && !CarriesMarker(log[i].tx)
  }

  /** Whenever the gate can open: some run has the watchtower relay Bob's claim without a marker from a bundle with
      this label if and only if the label does not name a replay-protected leg, whatever the rules of FROM itself. */
  lemma UnmarkedExactly(cfg: Config, terms: Terms, nodes: Per<Node>, heights: Per<nat>, tag: Option<Leg>)
    requires Openable(cfg, terms, nodes, heights)
    ensures (exists events :: UnmarkedSent(cfg, terms, events, tag)) <==> !Inspected(cfg, tag)
  {
    hide Run, Openable, Inspected, Label, CarriesMarker;
    if Inspected(cfg, tag) {
      forall events ensures !UnmarkedSent(cfg, terms, events, tag) {
        ClaimsAreMarked(cfg, terms, events);
      }
    } else {
      UnmarkedRun(cfg, terms, nodes, heights, tag);
    }
  }

  lemma NothingMarked()
    ensures !CarriesMarker([])
  {
  }

  lemma TagOf(s: Swap, tag: Option<Leg>, tx: bytes)
    requires BobArmed(s, tag, tx)
    ensures Label(s, Bob) == tag
  {
  }

  lemma UnmarkedRun(cfg: Config, terms: Terms, nodes: Per<Node>, heights: Per<nat>, tag: Option<Leg>)
    requires Openable(cfg, terms, nodes, heights) && !Inspected(cfg, tag)
    ensures exists events :: UnmarkedSent(cfg, terms, events, tag)
  {
    hide Run, Apply, HashText, Openable, Gate, RelayGate, CarriesMarker, Inspected, Opened, ZeroHashText, Tick, Reveal, OpenRun,
      PlanOf, FundedNodes, PaidIn, Label, Need, PlainBundle;
    var text, b := ZeroHashText(cfg), PlainBundle(tag, []);
    var run := OpenRun(cfg, terms, text, nodes, heights, Bob, b, []);
    var opening, tick := Reveal(cfg, FundedNodes(terms, heights, [Zeros()]).qbit), Tick(terms, heights, 0);
    ZeroHashFits(cfg);
    OpenReached(cfg, terms, text, nodes, heights, Bob, tag, [], []);
    OpenedTerms(cfg, terms, text, PlanOf(cfg, Initial(terms), nodes));
    var s := Run(cfg, terms, run).s;
    RunNext(cfg, terms, run, opening);
    RunNext(cfg, terms, run + [opening], tick);
    FundedNodesServe(terms, heights);
    RevealLearns(cfg, s, FundedNodes(terms, heights, [Zeros()]).qbit);
    var o := Apply(cfg, s, opening);
    Unspent(terms, heights);
    StillArmed(s, o.s, tag);
    TickClaims(cfg, o.s, tag, [], terms, heights, 0);
    TagOf(o.s, tag, []);
    NothingMarked();
    var events := run + [opening] + [tick];
    var log := Run(cfg, terms, events).log;
    assert log[1] == Apply(cfg, o.s, tick).log[0];
    assert UnmarkedSent(cfg, terms, events, tag);
  }

  lemma Unspent(terms: Terms, heights: Per<nat>)
    ensures !PaidIn(Need(terms, Btc), heights.btc).spent && !PaidIn(Need(terms, Qbit), heights.qbit).spent
  {
  }

  lemma StillArmed(s: Swap, t: Swap, tag: Option<Leg>)
    requires BobArmed(s, tag, []) && s.short == Per(None, None) && s.funding.btc.Some? && s.htlc.Some? && s.wt == map[]
    requires t == s.(state := Claimed, preimage := Some(Zeros()), broadcasts := t.broadcasts,
                     funding := s.funding.With(TO, MarkedSpent(s.funding.Of(TO))))
    ensures BobArmed(t, tag, []) && !WatchtowerIdle(t) && !ShortFunded(t) && t.wt == map[]
    ensures t.funding.btc == s.funding.btc
  {
    hide PlainBundle;
  }
}
