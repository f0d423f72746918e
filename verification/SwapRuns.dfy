/** Whole runs of one swap: any sequence of calls, with any answers from the two nodes. */
module SwapRuns {
  import opened Bytes
  import opened Legs
  import opened SwapState
  import opened SwapSteps
  import opened SwapSound
  import Depth
  import Hex
  import Spend
  import TxCodec

  datatype Event =
    | Submit(role: Role, keys: Keys, hashText: Option<string>, nodes: Per<Node>, now: nat)
    | CancelBy(role: Role)
    | PollTick(nodes: Per<Node>, now: nat)
    | Finish(role: Role, bundle: Bundle)
    | PartySend(leg: Leg, kind: Kind, tx: bytes, node: Node, now: nat)
    | WatchTick(nodes: Per<Node>, after: Per<Node>, now: nat)

  function Apply(cfg: Config, s: Swap, e: Event): Outcome {
    match e
    case Submit(role, keys, hashText, nodes, now) => SubmitParty(cfg, s, role, keys, hashText, nodes, now)
    case CancelBy(role) => Cancel(s, role)
    case PollTick(nodes, now) => Poll(cfg, s, nodes, now)
    case Finish(role, bundle) => SubmitFinish(cfg, s, role, bundle)
    case PartySend(leg, kind, tx, node, now) => Broadcast(cfg, s, leg, kind, tx, node, now)
    case WatchTick(nodes, after, now) => Drive(cfg, s, nodes, after, now)
  }

  /** The record, and everything relayed so far. */
  datatype History = History(s: Swap, log: seq<Entry>)

  function Run(cfg: Config, terms: Terms, events: seq<Event>): History {
    if events == [] then History(Initial(terms), [])
    else
      var h := Run(cfg, terms, events[..|events| - 1]);
      var o := Apply(cfg, h.s, events[|events| - 1]);
      History(o.s, h.log + o.log)
  }

  // ---------------------------------------------------------------------------
  // The log
  // ---------------------------------------------------------------------------

  /** A claim of the leg that carries the secret into the open. */
  predicate IsReveal(e: Entry) {
    e.leg == TO && e.kind == Claim
  }

  predicate Revealed(log: seq<Entry>) {
    exists i :: 0 <= i < |log| && IsReveal(log[i])
  }

  /** The watchtower relayed this kind of spend for this role. */
  predicate Watched(log: seq<Entry>, role: Role, kind: Kind) {
    exists i :: 0 <= i < |log| && log[i].sender == Some(role) && log[i].kind == kind
  }

  lemma WatchedNext(log: seq<Entry>, e: Entry, role: Role, kind: Kind)
    ensures Watched(log + [e], role, kind) <==> Watched(log, role, kind) || (e.sender == Some(role) && e.kind == kind)
  {
    if Watched(log, role, kind) {
      var i :| 0 <= i < |log| && log[i].sender == Some(role) && log[i].kind == kind;
      assert (log + [e])[i] == log[i];
    }
    if e.sender == Some(role) && e.kind == kind {
      assert (log + [e])[|log|] == e;
    }
  }

  /** A ladder with this label is looked through for the marker when it is submitted. */
  predicate Inspected(cfg: Config, tag: Option<Leg>) {
    tag.Some? && cfg.rules.Of(tag.value).replayOpReturn
  }

  /** The label on the claim of a role's bundle. */
  function Label(s: Swap, role: Role): Option<Leg> {
    match LadderOf(s, role, Claim)
    case None => None
    case Some(b) => b.leg
  }

  /** Whether a claim is looked through for the marker: a party's by the leg it is sent on, the watchtower's by the
      label on its bundle. */
  predicate Checked(cfg: Config, e: Entry) {
    Inspected(cfg, if e.sender.None? then Some(e.leg) else Label(e.before, e.sender.value))
  }

  predicate Marked(cfg: Config, e: Entry) {
    e.kind == Claim && Checked(cfg, e) ==> CarriesMarker(e.tx)
  }

  /** Relays happen only where the rules allow them. */
  predicate Lawful(cfg: Config, e: Entry) {
    && Marked(cfg, e)
    && (e.sender.Some? ==>
          && e.leg == LegOf(e.sender.value, e.kind)
          && (e.kind == Refund ==> e.before.preimage.None?)
          && (e.kind == Claim ==> !ShortFunded(e.before)))
  }

  /** Nothing reveals the secret before the gate was open once. */
  predicate FirstRevealGated(cfg: Config, log: seq<Entry>) {
    forall i :: 0 <= i < |log| && IsReveal(log[i]) && !Revealed(log[..i]) ==> Gate(cfg, log[i].before)
  }

  predicate Tracked(cfg: Config, s: Swap, log: seq<Entry>) {
    && (forall role, kind :: (role, kind) in s.wt ==> Watched(log, role, kind))
    && (forall i :: 0 <= i < |log| ==> Lawful(cfg, log[i]))
    && FirstRevealGated(cfg, log)
  }

  lemma WatchedReveal(cfg: Config, log: seq<Entry>)
    requires forall i :: 0 <= i < |log| ==> Lawful(cfg, log[i])
    requires Watched(log, Alice, Claim)
    ensures Revealed(log)
  {
    var i :| 0 <= i < |log| && log[i].sender == Some(Alice) && log[i].kind == Claim;
    assert IsReveal(log[i]);
  }

  /** One more relay keeps the books in order. */
  lemma TrackedNext(cfg: Config, s: Swap, log: seq<Entry>, t: Swap, e: Entry)
    requires Tracked(cfg, s, log) && Lawful(cfg, e)
    requires forall role, kind :: (role, kind) in t.wt ==> (role, kind) in s.wt || (e.sender == Some(role) && e.kind == kind)
    requires IsReveal(e) && !Revealed(log) ==> Gate(cfg, e.before)
    ensures Tracked(cfg, t, log + [e])
  {
    hide Gate, Lawful, Revealed, IsReveal, Watched;
    var next := log + [e];
    forall role, kind | (role, kind) in t.wt ensures Watched(next, role, kind) {
      WatchedNext(log, e, role, kind);
    }
    forall i | 0 <= i < |next| && IsReveal(next[i]) && !Revealed(next[..i]) ensures Gate(cfg, next[i].before) {
      if i < |log| {
        assert next[..i] == log[..i] && next[i] == log[i];
      } else {
        assert next[..i] == log;
      }
    }
    assert forall i :: 0 <= i < |next| ==> Lawful(cfg, next[i]);
  }

  // ---------------------------------------------------------------------------
  // Gates
  // ---------------------------------------------------------------------------

  /** broadcast's gate is at least as strict as the one behind CLAIMABLE. */
  lemma RelayGateIsGate(cfg: Config, s: Swap)
    requires Sound(cfg, s) && RelayGate(cfg, s)
    ensures Gate(cfg, s)
  {
    hide Build, Buildable, Hex.Encode, BundleArmed, InTime;
  }

  /** In CLAIMABLE, broadcast's separate gate refuses exactly when an untrusted leg has a target of zero and fewer
      confirmations than its configured minimum. */
  lemma ClaimableGateAgrees(cfg: Config, s: Swap)
    requires Sound(cfg, s) && s.state == Claimable
    ensures RelayGate(cfg, s) <==>
            forall leg: Leg :: cfg.rules.Of(leg).trustUnconfirmed || s.plan.value.targets.Of(leg) != 0
                               || s.funding.Of(leg).value.confs >= cfg.depth.legs.Of(leg).minConfs
  {
    hide Build, Buildable, Hex.Encode, BundleArmed, InTime, Deep, Holds, Lacks;
    if RelayGate(cfg, s) {
      assert RelayBuried(cfg, s, FROM) && RelayBuried(cfg, s, TO);
      forall leg: Leg ensures cfg.rules.Of(leg).trustUnconfirmed || s.plan.value.targets.Of(leg) != 0
                              || s.funding.Of(leg).value.confs >= cfg.depth.legs.Of(leg).minConfs {
        assert leg == FROM || leg == TO;
      }
    }
  }

  // ---------------------------------------------------------------------------
  // One relay
  // ---------------------------------------------------------------------------

  function StateAfter(leg: Leg, kind: Kind): State {
    if kind == Refund then Refunded else if leg == FROM then Complete else Claimed
  }

  predicate LearntFrom(cfg: Config, s: Swap, kind: Kind, wit: seq<bytes>, t: Swap) {
    if kind == Refund then t.preimage == s.preimage
    else t.preimage == if s.preimage.Some? then s.preimage else FindPreimage(cfg, s.hashText, wit)
  }

  /** What a relay leaves alone, and what it decides. */
  predicate Relayed(cfg: Config, s: Swap, e: Entry, t: Swap) {
    && e.before == s && t.terms == s.terms
    && t.plan == s.plan && t.heights == s.heights && t.htlc == s.htlc
    && t.state == StateAfter(e.leg, e.kind)
    && LearntFrom(cfg, s, e.kind, e.wit, t)
  }

  lemma EffectsRelayed(cfg: Config, s: Swap, leg: Leg, kind: Kind, txid: bytes, wit: seq<bytes>, now: nat)
    ensures var t := Effects(cfg, s, leg, kind, txid, wit, now);
            && t.terms == s.terms && t.plan == s.plan && t.heights == s.heights && t.htlc == s.htlc
            && t.wt == s.wt && t.finish == s.finish
            && t.state == StateAfter(leg, kind) && LearntFrom(cfg, s, kind, wit, t)
  {
    hide FindPreimage;
  }

  lemma SendRelayed(cfg: Config, s: Swap, role: Role, kind: Kind, b: Ladder, tier: int, node: Node, now: nat)
    ensures var r := Send(cfg, s, role, kind, b, tier, node, now);
            r.Sent? ==>
              && Relayed(cfg, s, r.entry, r.s)
              && r.entry.sender == Some(role) && r.entry.kind == kind && r.entry.leg == LegOf(role, kind)
              && r.s.wt.Keys == s.wt.Keys + {(role, kind)}
              && TierTx(s, kind, b, tier) == Ok(r.entry.tx)
  {
    hide Effects, TierTx, FindPreimage;
    if TierTx(s, kind, b, tier).Ok? {
      var txid := node.broadcast(TierTx(s, kind, b, tier).value);
      var leg := LegOf(role, kind);
      var recorded := s.(wt := s.wt[(role, kind) := WtRecord(txid, tier, HeightOf(s, leg), now)]);
      EffectsRelayed(cfg, recorded, leg, kind, txid, node.witnessOf(txid), now);
    }
  }

  /** What makes the watchtower move for the first time. */
  predicate MayStart(s: Swap, role: Role, kind: Kind) {
    if kind == Refund then s.plan.Some? && HeightOf(s, LegOf(role, kind)) >= s.plan.value.locktimes.Of(LegOf(role, kind))
    else if role == Alice then s.state == Claimable
    else s.preimage.Some?
  }

  /** The relayed transaction is a tier of the role's bundle, spliced where the ladder asks for it. */
  ghost predicate FromBundle(s: Swap, role: Role, kind: Kind, tx: bytes) {
    LadderOf(s, role, kind).Some? && exists tier :: TierTx(s, kind, LadderOf(s, role, kind).value, tier) == Ok(tx)
  }

  /** What a watchtower step does: nothing, one lawful relay, or it dies dropping its own record. */
  ghost predicate StepOk(cfg: Config, s: Swap, role: Role, kind: Kind, t: Swap, entries: seq<Entry>) {
    if entries == [] then
      t == s || t == s.(wt := s.wt - {(role, kind)})
    else
      && |entries| == 1
      && (Relayed(cfg, s, entries[0], t) || Relayed(cfg, s.(wt := s.wt - {(role, kind)}), entries[0], t))
      && entries[0].sender == Some(role) && entries[0].kind == kind && entries[0].leg == LegOf(role, kind)
      && t.wt.Keys == s.wt.Keys + {(role, kind)}
      && FromBundle(s, role, kind, entries[0].tx)
      && (kind == Refund ==> s.preimage.None?)
      && (kind == Claim ==> !ShortFunded(s))
      && ((role, kind) in s.wt || MayStart(s, role, kind))
  }

  lemma AttemptSteps(cfg: Config, o: Outcome, role: Role, kind: Kind, nodes: Per<Node>, now: nat)
    ensures var o' := Attempt(cfg, o, role, kind, nodes, now);
            && |o'.log| >= |o.log| && o'.log == o.log + o'.log[|o.log|..]
            && StepOk(cfg, o.s, role, kind, o'.s, o'.log[|o.log|..])
  {
    hide Send, PickTier, Relayed, LadderOf, Recoverable;
    if o.ok && Fires(o.s, role, kind) {
      var leg := LegOf(role, kind);
      var b := LadderOf(o.s, role, kind).value;
      var tier := PickTier(leg, b.tiers, 0, nodes.Of(leg).fastestFee);
      SendRelayed(cfg, o.s, role, kind, b, tier, nodes.Of(leg), now);
      var r := Send(cfg, o.s, role, kind, b, tier, nodes.Of(leg), now);
      if r.Sent? {
        assert (o.log + [r.entry])[|o.log|..] == [r.entry];
      }
    }
  }

  lemma SameTier(s: Swap, wt: map<(Role, Kind), WtRecord>, kind: Kind, b: Ladder, tier: int)
    ensures TierTx(s.(wt := wt), kind, b, tier) == TierTx(s, kind, b, tier)
  {
  }

  lemma ResendSteps(cfg: Config, o: Outcome, role: Role, kind: Kind, nodes: Per<Node>, now: nat)
    ensures var o' := Resend(cfg, o, role, kind, nodes, now);
            && |o'.log| >= |o.log| && o'.log == o.log + o'.log[|o.log|..]
            && StepOk(cfg, o.s, role, kind, o'.s, o'.log[|o.log|..])
            && (o'.log != o.log ==> (role, kind) in o.s.wt)
  {
    hide Send, PickTier, Relayed, LadderOf, Recoverable, TierTx;
    if o.ok && Resends(o.s, role, kind, nodes.Of(LegOf(role, kind))) {
      var leg := LegOf(role, kind);
      var b := LadderOf(o.s, role, kind).value;
      var tier := Depth.Max(o.s.wt[(role, kind)].tier, PickTier(leg, b.tiers, 0, nodes.Of(leg).fastestFee));
      var dropped := o.s.(wt := o.s.wt - {(role, kind)});
      SendRelayed(cfg, dropped, role, kind, b, tier, nodes.Of(leg), now);
      SameTier(o.s, dropped.wt, kind, b, tier);
      var r := Send(cfg, dropped, role, kind, b, tier, nodes.Of(leg), now);
      if r.Sent? {
        assert (o.log + [r.entry])[|o.log|..] == [r.entry];
      }
    }
  }

  lemma StepTracked(cfg: Config, s: Swap, log: seq<Entry>, role: Role, kind: Kind, t: Swap, entries: seq<Entry>)
    requires Sound(cfg, s) && Tracked(cfg, s, log) && StepOk(cfg, s, role, kind, t, entries)
    ensures Tracked(cfg, t, log + entries)
  {
    hide Loose, Counted, Gate, LearntFrom, StateAfter, Watched, FirstRevealGated, CarriesMarker, FromBundle;
    if entries == [] {
      assert log + entries == log;
    } else {
      var e := entries[0];
      assert entries == [e];
      SameGate(cfg, s, e.before);
      if kind == Claim {
        BundleMarked(cfg, s, role, e.tx);
      }
      if IsReveal(e) && (role, kind) in s.wt {
        WatchedReveal(cfg, log);
      }
      TrackedNext(cfg, s, log, t, e);
    }
  }

  lemma BundleMarked(cfg: Config, s: Swap, role: Role, tx: bytes)
    requires Sound(cfg, s) && FromBundle(s, role, Claim, tx)
    ensures Inspected(cfg, Label(s, role)) ==> CarriesMarker(tx)
  {
    hide Scripted, Weighed, Counted, Gated, Spend.HasReplayMarker, Hex.Encode, CarriesMarker;
    var b := LadderOf(s, role, Claim).value;
    var tier :| TierTx(s, Claim, b, tier) == Ok(tx);
    if b.needsPreimage {
      SplicedMarked(b.tiers[tier].tx, s.preimage.value);
    }
  }

  /** Splicing a preimage in leaves the marker where it was. */
  lemma SplicedMarked(tx: bytes, preimage: bytes)
    requires Spend.Spliced(tx, preimage).Ok? && |preimage| == 32
    ensures CarriesMarker(Spend.Spliced(tx, preimage).value) <==> CarriesMarker(tx)
  {
    hide TxCodec.DecodeTx, Spend.HasReplayMarker, TxCodec.EncodeTx;
    Spend.SpliceOnlyTouchesWitness(tx, preimage);
  }

  lemma SameGate(cfg: Config, s: Swap, t: Swap)
    ensures t == s || (exists wt :: t == s.(wt := wt)) ==> (Gate(cfg, t) <==> Gate(cfg, s))
  {
    hide Buried, InTime;
  }

  // ---------------------------------------------------------------------------
  // Never both sides for one party
  // ---------------------------------------------------------------------------

  /** The witness holds a 32-byte preimage of the bytes the hash text stands for. */
  predicate Carries(cfg: Config, hashText: string, wit: seq<bytes>) {
    exists i :: 0 <= i < |wit| && |wit[i]| == 32 && Hex.Decode(hashText) == Ok(cfg.sha(wit[i]))
  }

  /** The engine recognises the preimage of a claim exactly when the hash was given in canonical lower-case hex. */
  lemma {:induction false} RecognisedWhenCanonical(cfg: Config, hashText: string, wit: seq<bytes>)
    requires Carries(cfg, hashText, wit)
    ensures FindPreimage(cfg, Some(hashText), wit).Some? <==> Hex.Canonical(hashText)
  {
    hide Hex.Encode, Hex.Decode;
    var i :| 0 <= i < |wit| && |wit[i]| == 32 && Hex.Decode(hashText) == Ok(cfg.sha(wit[i]));
    if hashText == Hex.Encode(cfg.sha(wit[0])) {
      Hex.DecodeOfEncode(cfg.sha(wit[0]));
    }
    if i > 0 {
      assert wit[1..][i - 1] == wit[i];
      RecognisedWhenCanonical(cfg, hashText, wit[1..]);
    } else if Hex.Encode(cfg.sha(wit[0])) != hashText && FindPreimage(cfg, Some(hashText), wit).Some? {
      Found(cfg, Some(hashText), wit);
      Hex.DecodeOfEncode(cfg.sha(FindPreimage(cfg, Some(hashText), wit).value));
    }
  }

  /** Ground truth about the watchtower's own claims for the initiator: the hash is canonical, and the accepted
      claim carries its preimage. */
  predicate Truthful(cfg: Config, e: Entry) {
    e.sender == Some(Alice) && e.kind == Claim ==>
      e.before.hashText.Some? && Hex.Canonical(e.before.hashText.value) && Carries(cfg, e.before.hashText.value, e.wit)
  }

  predicate Stopped(st: State) {
    Terminal(st) || st == Claimed || st == Canceled
  }

  /** Whatever heights and quotes a derivation meets, its TO target and the reveal buffer keep a claim off the lock
      height itself. */
  predicate Guarded(cfg: Config, terms: Terms) {
    Depth.LeastConfs(cfg.depth, TO, terms.btcSats) + cfg.revealBuffer > 0
  }

  /** Claims leave the secret on record; a refund for Alice leaves only states in which nothing is revealed; and where
      claims are kept off the lock height, a refund for Bob ends the swap past it. */
  predicate OneSided(cfg: Config, s: Swap, log: seq<Entry>) {
    && (s.plan.Some? ==> s.plan.value.targets.Of(TO) >= Depth.LeastConfs(cfg.depth, TO, s.terms.btcSats))
    && (Watched(log, Alice, Claim) || Watched(log, Bob, Claim) ==> s.preimage.Some?)
    && (Watched(log, Alice, Refund) ==> Stopped(s.state))
    && !(Watched(log, Alice, Claim) && Watched(log, Alice, Refund))
    && (Guarded(cfg, s.terms) ==>
          && (Watched(log, Bob, Refund) ==>
                Terminal(s.state) && s.plan.Some? && HeightOf(s, TO) >= s.plan.value.locktimes.Of(TO))
          && !(Watched(log, Alice, Claim) && Watched(log, Bob, Refund))
          && !(Watched(log, Bob, Claim) && Watched(log, Bob, Refund)))
  }

  lemma LearntTruth(cfg: Config, s: Swap, e: Entry, t: Swap)
    requires LearntFrom(cfg, e.before, e.kind, e.wit, t) && e.before.preimage == s.preimage
    requires e.kind == Claim && (s.preimage.Some? || (e.sender == Some(Alice) && Truthful(cfg, e)))
    ensures t.preimage.Some?
  {
    hide Hex.Canonical, FindPreimage, Carries;
    if s.preimage.None? {
      RecognisedWhenCanonical(cfg, e.before.hashText.value, e.wit);
    }
  }

  lemma StepSided(cfg: Config, s: Swap, log: seq<Entry>, role: Role, kind: Kind, t: Swap, entries: seq<Entry>)
    requires Tracked(cfg, s, log) && OneSided(cfg, s, log) && StepOk(cfg, s, role, kind, t, entries)
    requires forall e <- entries :: Truthful(cfg, e)
    requires role == Bob && kind == Claim && (role, kind) !in s.wt ==> !Terminal(s.state)
    ensures OneSided(cfg, t, log + entries)
  {
    hide Watched, Truthful, LearntFrom, Lawful, FirstRevealGated, FromBundle;
    if entries == [] {
      assert log + entries == log;
    } else {
      var e := entries[0];
      assert entries == [e] && e in entries;
      WatchedNext(log, e, Alice, Claim);
      WatchedNext(log, e, Alice, Refund);
      WatchedNext(log, e, Bob, Claim);
      WatchedNext(log, e, Bob, Refund);
      if kind == Claim {
        LearntTruth(cfg, s, e, t);
      } else {
        RefundLearnsNothing(cfg, e, t);
      }
    }
  }

  lemma RefundLearnsNothing(cfg: Config, e: Entry, t: Swap)
    requires LearntFrom(cfg, e.before, e.kind, e.wit, t) && e.kind == Refund
    ensures t.preimage == e.before.preimage
  {
  }

  // ---------------------------------------------------------------------------
  // A whole tick
  // ---------------------------------------------------------------------------

  predicate Fine(cfg: Config, s: Swap, log: seq<Entry>) {
    Sound(cfg, s) && Tracked(cfg, s, log)
  }

  lemma AttemptSound(cfg: Config, o: Outcome, role: Role, kind: Kind, nodes: Per<Node>, now: nat)
    requires Sound(cfg, o.s)
    ensures Sound(cfg, Attempt(cfg, o, role, kind, nodes, now).s)
  {
    hide Send, PickTier, Sound, Recoverable;
    if LadderOf(o.s, role, kind).Some? {
      var leg := LegOf(role, kind);
      var b := LadderOf(o.s, role, kind).value;
      SendSound(cfg, o.s, role, kind, b, PickTier(leg, b.tiers, 0, nodes.Of(leg).fastestFee), nodes.Of(leg), now);
    }
  }

  lemma ResendSound(cfg: Config, o: Outcome, role: Role, kind: Kind, nodes: Per<Node>, now: nat)
    requires Sound(cfg, o.s)
    ensures Sound(cfg, Resend(cfg, o, role, kind, nodes, now).s)
  {
    hide Send, PickTier, Sound, Recoverable;
    var leg := LegOf(role, kind);
    if Resends(o.s, role, kind, nodes.Of(leg)) {
      var b := LadderOf(o.s, role, kind).value;
      var tier := Depth.Max(o.s.wt[(role, kind)].tier, PickTier(leg, b.tiers, 0, nodes.Of(leg).fastestFee));
      var dropped := o.s.(wt := o.s.wt - {(role, kind)});
      WtSound(cfg, o.s, dropped.wt);
      SendSound(cfg, dropped, role, kind, b, tier, nodes.Of(leg), now);
    }
  }

  lemma AttemptFine(cfg: Config, base: seq<Entry>, o: Outcome, role: Role, kind: Kind, nodes: Per<Node>, now: nat)
    requires Fine(cfg, o.s, base + o.log)
    ensures var o' := Attempt(cfg, o, role, kind, nodes, now); Fine(cfg, o'.s, base + o'.log) && o.log <= o'.log
  {
    hide Attempt, Sound, Tracked, StepOk;
    var o' := Attempt(cfg, o, role, kind, nodes, now);
    AttemptSteps(cfg, o, role, kind, nodes, now);
    AttemptSound(cfg, o, role, kind, nodes, now);
    StepTracked(cfg, o.s, base + o.log, role, kind, o'.s, o'.log[|o.log|..]);
    assert base + o'.log == base + o.log + o'.log[|o.log|..];
  }

  lemma ResendFine(cfg: Config, base: seq<Entry>, o: Outcome, role: Role, kind: Kind, nodes: Per<Node>, now: nat)
    requires Fine(cfg, o.s, base + o.log)
    ensures var o' := Resend(cfg, o, role, kind, nodes, now); Fine(cfg, o'.s, base + o'.log) && o.log <= o'.log
  {
    hide Resend, Sound, Tracked, StepOk;
    var o' := Resend(cfg, o, role, kind, nodes, now);
    ResendSteps(cfg, o, role, kind, nodes, now);
    ResendSound(cfg, o, role, kind, nodes, now);
    StepTracked(cfg, o.s, base + o.log, role, kind, o'.s, o'.log[|o.log|..]);
    assert base + o'.log == base + o.log + o'.log[|o.log|..];
  }

  lemma FirstMovesFine(cfg: Config, base: seq<Entry>, s: Swap, nodes: Per<Node>, now: nat)
    requires Fine(cfg, s, base)
    ensures var o := FirstMoves(cfg, Done(s), nodes, now); Fine(cfg, o.s, base + o.log)
  {
    hide Attempt, Fine;
    assert base + Done(s).log == base;
    AttemptFine(cfg, base, Done(s), Alice, Claim, nodes, now);
    var a := Attempt(cfg, Done(s), Alice, Claim, nodes, now);
    AttemptFine(cfg, base, a, Bob, Claim, nodes, now);
    var b := Attempt(cfg, a, Bob, Claim, nodes, now);
    AttemptFine(cfg, base, b, Alice, Refund, nodes, now);
    AttemptFine(cfg, base, Attempt(cfg, b, Alice, Refund, nodes, now), Bob, Refund, nodes, now);
  }

  lemma ResendingFine(cfg: Config, base: seq<Entry>, o: Outcome, nodes: Per<Node>, now: nat)
    requires Fine(cfg, o.s, base + o.log)
    ensures var o' := Resending(cfg, o, nodes, now); Fine(cfg, o'.s, base + o'.log) && o.log <= o'.log
  {
    hide Resend, Fine;
    ResendFine(cfg, base, o, Alice, Claim, nodes, now);
    var a := Resend(cfg, o, Alice, Claim, nodes, now);
    ResendFine(cfg, base, a, Bob, Claim, nodes, now);
    var b := Resend(cfg, a, Bob, Claim, nodes, now);
    ResendFine(cfg, base, b, Alice, Refund, nodes, now);
    ResendFine(cfg, base, Resend(cfg, b, Alice, Refund, nodes, now), Bob, Refund, nodes, now);
  }

  lemma DriveFine(cfg: Config, base: seq<Entry>, s: Swap, nodes: Per<Node>, after: Per<Node>, now: nat)
    requires Fine(cfg, s, base)
    ensures var o := Drive(cfg, s, nodes, after, now); Fine(cfg, o.s, base + o.log)
  {
    hide FirstMoves, Resending, WatchtowerIdle, Fine;
    assert base + Done(s).log == base;
    FirstMovesFine(cfg, base, s, nodes, now);
    ResendingFine(cfg, base, FirstMoves(cfg, Done(s), nodes, now), after, now);
  }

  predicate AllTruthful(cfg: Config, log: seq<Entry>) {
    forall e <- log :: Truthful(cfg, e)
  }

  lemma AttemptSided(cfg: Config, base: seq<Entry>, o: Outcome, role: Role, kind: Kind, nodes: Per<Node>, now: nat)
    requires Fine(cfg, o.s, base + o.log) && OneSided(cfg, o.s, base + o.log)
    requires AllTruthful(cfg, Attempt(cfg, o, role, kind, nodes, now).log)
    requires role == Bob && kind == Claim ==> !Terminal(o.s.state)
    ensures var o' := Attempt(cfg, o, role, kind, nodes, now); OneSided(cfg, o'.s, base + o'.log)
  {
    hide Attempt, Sound, Tracked, StepOk, OneSided, Truthful;
    var o' := Attempt(cfg, o, role, kind, nodes, now);
    AttemptSteps(cfg, o, role, kind, nodes, now);
    StepSided(cfg, o.s, base + o.log, role, kind, o'.s, o'.log[|o.log|..]);
    assert base + o'.log == base + o.log + o'.log[|o.log|..];
  }

  lemma ResendSided(cfg: Config, base: seq<Entry>, o: Outcome, role: Role, kind: Kind, nodes: Per<Node>, now: nat)
    requires Fine(cfg, o.s, base + o.log) && OneSided(cfg, o.s, base + o.log)
    requires AllTruthful(cfg, Resend(cfg, o, role, kind, nodes, now).log)
    ensures var o' := Resend(cfg, o, role, kind, nodes, now); OneSided(cfg, o'.s, base + o'.log)
  {
    hide Sound, Tracked, StepOk, OneSided, Truthful, Send, Recoverable, LadderOf, PickTier;
    var o' := Resend(cfg, o, role, kind, nodes, now);
    if (role, kind) in o.s.wt {
      ResendSteps(cfg, o, role, kind, nodes, now);
      StepSided(cfg, o.s, base + o.log, role, kind, o'.s, o'.log[|o.log|..]);
      assert base + o'.log == base + o.log + o'.log[|o.log|..];
    }
  }

  /** Up to Bob's claim a tick does not reach a terminal state. */
  lemma AliceClaimNotTerminal(cfg: Config, s: Swap, nodes: Per<Node>, now: nat)
    requires !Terminal(s.state)
    ensures !Terminal(Attempt(cfg, Done(s), Alice, Claim, nodes, now).s.state)
  {
    hide Attempt, LearntFrom;
    AttemptSteps(cfg, Done(s), Alice, Claim, nodes, now);
  }

  lemma FirstMovesSided(cfg: Config, base: seq<Entry>, s: Swap, nodes: Per<Node>, now: nat)
    requires Fine(cfg, s, base) && OneSided(cfg, s, base) && !Terminal(s.state)
    requires AllTruthful(cfg, FirstMoves(cfg, Done(s), nodes, now).log)
    ensures var o := FirstMoves(cfg, Done(s), nodes, now); OneSided(cfg, o.s, base + o.log)
  {
    hide Attempt, Fine, OneSided, Truthful;
    assert base + Done(s).log == base;
    var a := Attempt(cfg, Done(s), Alice, Claim, nodes, now);
    var b := Attempt(cfg, a, Bob, Claim, nodes, now);
    var c := Attempt(cfg, b, Alice, Refund, nodes, now);
    AttemptFine(cfg, base, Done(s), Alice, Claim, nodes, now);
    AttemptFine(cfg, base, a, Bob, Claim, nodes, now);
    AttemptFine(cfg, base, b, Alice, Refund, nodes, now);
    AttemptFine(cfg, base, c, Bob, Refund, nodes, now);
    TruthfulPrefix(cfg, c.log, Attempt(cfg, c, Bob, Refund, nodes, now).log);
    TruthfulPrefix(cfg, b.log, c.log);
    TruthfulPrefix(cfg, a.log, b.log);
    AttemptSided(cfg, base, Done(s), Alice, Claim, nodes, now);
    AliceClaimNotTerminal(cfg, s, nodes, now);
    AttemptSided(cfg, base, a, Bob, Claim, nodes, now);
    AttemptSided(cfg, base, b, Alice, Refund, nodes, now);
    AttemptSided(cfg, base, c, Bob, Refund, nodes, now);
  }

  lemma TruthfulPrefix(cfg: Config, a: seq<Entry>, b: seq<Entry>)
    requires a <= b && AllTruthful(cfg, b)
    ensures AllTruthful(cfg, a)
  {
    hide Truthful;
    assert forall i :: 0 <= i < |a| ==> a[i] == b[i];
    assert forall e <- a :: e in b;
  }

  lemma ResendingSided(cfg: Config, base: seq<Entry>, o: Outcome, nodes: Per<Node>, now: nat)
    requires Fine(cfg, o.s, base + o.log) && OneSided(cfg, o.s, base + o.log)
    requires AllTruthful(cfg, Resending(cfg, o, nodes, now).log)
    ensures var o' := Resending(cfg, o, nodes, now); OneSided(cfg, o'.s, base + o'.log)
  {
    hide Resend, Fine, OneSided, Truthful;
    var a := Resend(cfg, o, Alice, Claim, nodes, now);
    var b := Resend(cfg, a, Bob, Claim, nodes, now);
    var c := Resend(cfg, b, Alice, Refund, nodes, now);
    ResendFine(cfg, base, o, Alice, Claim, nodes, now);
    ResendFine(cfg, base, a, Bob, Claim, nodes, now);
    ResendFine(cfg, base, b, Alice, Refund, nodes, now);
    ResendFine(cfg, base, c, Bob, Refund, nodes, now);
    TruthfulPrefix(cfg, c.log, Resend(cfg, c, Bob, Refund, nodes, now).log);
    TruthfulPrefix(cfg, b.log, c.log);
    TruthfulPrefix(cfg, a.log, b.log);
    ResendSided(cfg, base, o, Alice, Claim, nodes, now);
    ResendSided(cfg, base, a, Bob, Claim, nodes, now);
    ResendSided(cfg, base, b, Alice, Refund, nodes, now);
    ResendSided(cfg, base, c, Bob, Refund, nodes, now);
  }

  lemma DriveSided(cfg: Config, base: seq<Entry>, s: Swap, nodes: Per<Node>, after: Per<Node>, now: nat)
    requires Fine(cfg, s, base) && OneSided(cfg, s, base)
    requires AllTruthful(cfg, Drive(cfg, s, nodes, after, now).log)
    ensures var o := Drive(cfg, s, nodes, after, now); OneSided(cfg, o.s, base + o.log)
  {
    hide FirstMoves, Resending, Fine, OneSided, Truthful;
    assert base + Done(s).log == base;
    if !WatchtowerIdle(s) {
      var o := FirstMoves(cfg, Done(s), nodes, now);
      FirstMovesFine(cfg, base, s, nodes, now);
      ResendingFine(cfg, base, o, after, now);
      TruthfulPrefix(cfg, o.log, Resending(cfg, o, after, now).log);
      FirstMovesSided(cfg, base, s, nodes, now);
      ResendingSided(cfg, base, o, after, now);
    }
  }
}
