/** What a watchtower tick relays, both ways, in terms of the record's fields and the nodes' answers alone. */
module SwapTicks {
  import opened Bytes
  import opened Legs
  import opened SwapState
  import opened SwapSteps
  import opened SwapSound
  import opened SwapRuns
  import opened SwapSafety
  import opened SwapPromises
  import opened SwapCalls
  import Depth
  import Hex
  import Spend
  import TxCodec

  // ---------------------------------------------------------------------------
  // Tiers and transactions
  // ---------------------------------------------------------------------------

  /** The first tier from `from` on that pays the rate, or the last one when none does. */
  predicate Cheapest(tiers: seq<Tier>, from: nat, rate: real, k: int) {
    || (from <= k && Pays(tiers, k, rate) && forall j :: from <= j < k ==> !Pays(tiers, j, rate))
    || (k == |tiers| - 1 && forall j :: from <= j < |tiers| ==> !Pays(tiers, j, rate))
  }

  /** On the btc leg the cheapest tier for the node's live rate, on the other leg the tier to start from. A missing rate
      counts as one. */
  predicate Chosen(leg: Leg, tiers: seq<Tier>, from: nat, fastestFee: real, k: int) {
    if leg == Qbit then k == from else Cheapest(tiers, from, if fastestFee == 0.0 then 1.0 else fastestFee, k)
  }

  lemma CheapestIs(tiers: seq<Tier>, from: nat, rate: real, k: int)
    ensures Cheapest(tiers, from, rate, k) <==> k == TierPaying(tiers, from, rate)
  {
    hide TierPaying;
    TierIsCheapest(tiers, from, rate);
    var p := TierPaying(tiers, from, rate);
    assert Cheapest(tiers, from, rate, p);
  }

  lemma PickedIsChosen(leg: Leg, tiers: seq<Tier>, from: nat, fastestFee: real, k: int)
    ensures Chosen(leg, tiers, from, fastestFee, k) <==> k == PickTier(leg, tiers, from, fastestFee)
  {
    hide TierPaying, Cheapest;
    CheapestIs(tiers, from, if fastestFee == 0.0 then 1.0 else fastestFee, k);
  }

  /** The role's bundle has this ladder for this kind of spend. */
  predicate Has(s: Swap, role: Role, kind: Kind, b: Ladder) {
    var bundle := s.finish.Of(role);
    bundle.Some? && if kind == Claim then bundle.value.claim == Some(b) else bundle.value.refund == b
  }

  /** What goes out at a tier: the transaction as it was signed, with the preimage put in where a claim asks for it. */
  predicate Payload(preimage: Option<bytes>, kind: Kind, b: Ladder, k: int, tx: bytes) {
    && 0 <= k < |b.tiers|
    && if kind == Claim && b.needsPreimage then preimage.Some? && Spend.Spliced(b.tiers[k].tx, preimage.value) == Ok(tx)
       else tx == b.tiers[k].tx
  }

  lemma TierTxIsPayload(s: Swap, kind: Kind, b: Ladder, k: int)
    ensures forall tx :: Payload(s.preimage, kind, b, k, tx) <==> TierTx(s, kind, b, k) == Ok(tx)
  {
    hide Spend.Spliced;
  }

  /** The deposit a spend of this leg would take: the full one, or else the underfunded one. */
  predicate Deposited(s: Swap, leg: Leg, f: Funding) {
    s.funding.Of(leg) == Some(f) || (s.funding.Of(leg).None? && s.short.Of(leg) == Some(f))
  }

  predicate NoneShort(s: Swap) {
    forall leg: Leg :: s.short.Of(leg).None?
  }

  function LastHeight(s: Swap, leg: Leg): nat {
    match s.heights case None => 0 case Some(h) => h.Of(leg)
  }

  /** How a tick leaves the record when it relays: the spend's effects, and the watchtower's own note. */
  predicate Noted(cfg: Config, s: Swap, role: Role, kind: Kind, k: int, node: Node, now: nat, tx: bytes, t: Swap) {
    var leg, txid := LegOf(role, kind), node.broadcast(tx);
    && k >= 0 && t.wt == s.wt[(role, kind) := WtRecord(txid, k, LastHeight(s, leg), now)]
    && Spent(cfg, s.(wt := t.wt), leg, kind, txid, node.witnessOf(txid), now, t)
  }

  /** This tier was relayed, and nothing else. */
  predicate RelayedOnce(cfg: Config, o: Outcome, s: Swap, role: Role, kind: Kind, k: int, node: Node, now: nat, tx: bytes, o': Outcome) {
    && o'.ok && o'.log == o.log + [Entry(Some(role), LegOf(role, kind), kind, tx, node.witnessOf(node.broadcast(tx)), s)]
    && Noted(cfg, s, role, kind, k, node, now, tx, o'.s)
  }

  lemma SendExactly(cfg: Config, s: Swap, role: Role, kind: Kind, b: Ladder, k: int, node: Node, now: nat)
    ensures var r, leg := Send(cfg, s, role, kind, b, k, node, now), LegOf(role, kind);
            && (forall tx :: Payload(s.preimage, kind, b, k, tx) ==>
                  if node.testAccept(tx) then
                    && r.Sent? && Noted(cfg, s, role, kind, k, node, now, tx, r.s)
                    && r.entry == Entry(Some(role), leg, kind, tx, node.witnessOf(node.broadcast(tx)), s)
                  else r == Refused)
            && ((forall tx :: !Payload(s.preimage, kind, b, k, tx)) ==> r == Threw)
  {
    hide Effects, TierTx, Spent, Payload;
    TierTxIsPayload(s, kind, b, k);
    var tx := TierTx(s, kind, b, k);
    if tx.Ok? {
      assert Payload(s.preimage, kind, b, k, tx.value);
      var txid, leg := node.broadcast(tx.value), LegOf(role, kind);
      var noted := s.(wt := s.wt[(role, kind) := WtRecord(txid, k, HeightOf(s, leg), now)]);
      EffectsSpend(cfg, noted, leg, kind, txid, node.witnessOf(txid), now);
      SpentKeepsWt(cfg, noted, leg, kind, txid, node.witnessOf(txid), now, Effects(cfg, noted, leg, kind, txid, node.witnessOf(txid), now));
    }
  }

  lemma SpentKeepsWt(cfg: Config, s: Swap, leg: Leg, kind: Kind, txid: bytes, wit: seq<bytes>, now: nat, t: Swap)
    requires Spent(cfg, s, leg, kind, txid, wit, now, t)
    ensures t.wt == s.wt
  {
  }

  // ---------------------------------------------------------------------------
  // First moves
  // ---------------------------------------------------------------------------

  /** A first move is due: nothing was sent for it yet, its deposit is unspent on record, and its hour has come. */
  predicate FirstDue(s: Swap, role: Role, kind: Kind, b: Ladder, f: Funding) {
    && Has(s, role, kind, b) && Deposited(s, LegOf(role, kind), f) && !f.spent && (role, kind) !in s.wt
    && match (role, kind)
       case (Alice, Claim) => NoneShort(s) && s.state == Claimable
       case (Bob, Claim) => NoneShort(s) && s.preimage.Some?
       case (_, Refund) => s.preimage.None? && s.plan.Some?
                           && LastHeight(s, LegOf(role, kind)) >= s.plan.value.locktimes.Of(LegOf(role, kind))
  }

  lemma FiresIsDue(s: Swap, role: Role, kind: Kind)
    ensures Fires(s, role, kind) <==>
            LadderOf(s, role, kind).Some? && Recoverable(s, LegOf(role, kind)).Some?
            && FirstDue(s, role, kind, LadderOf(s, role, kind).value, Recoverable(s, LegOf(role, kind)).value)
  {
    assert NoneShort(s) <==> !ShortFunded(s) by { ShortIs(s); }
  }

  lemma ShortIs(s: Swap)
    ensures NoneShort(s) <==> !ShortFunded(s)
  {
    if NoneShort(s) {
      assert s.short.Of(Btc).None? && s.short.Of(Qbit).None?;
    }
  }

  lemma LadderIs(s: Swap, role: Role, kind: Kind, b: Ladder)
    ensures Has(s, role, kind, b) <==> LadderOf(s, role, kind) == Some(b)
  {
  }

  lemma DepositIs(s: Swap, leg: Leg, f: Funding)
    ensures Deposited(s, leg, f) <==> Recoverable(s, leg) == Some(f)
  {
  }

  /** One first move of a tick that is still alive. When it is due the chosen tier goes out if the node accepts it, and
      the tick dies if the tier cannot be put together; otherwise nothing happens. */
  lemma FirstMoveExactly(cfg: Config, o: Outcome, role: Role, kind: Kind, nodes: Per<Node>, now: nat)
    requires o.ok
    ensures var o', node := Attempt(cfg, o, role, kind, nodes, now), nodes.Of(LegOf(role, kind));
            && (forall b, f, k, tx :: FirstDue(o.s, role, kind, b, f) && Chosen(LegOf(role, kind), b.tiers, 0, node.fastestFee, k)
                                      && Payload(o.s.preimage, kind, b, k, tx) ==>
                  if node.testAccept(tx) then RelayedOnce(cfg, o, o.s, role, kind, k, node, now, tx, o') else o' == o)
            && ((forall b, f :: !FirstDue(o.s, role, kind, b, f)) ==> o' == o)
            && (!o'.ok <==> exists b, f, k :: FirstDue(o.s, role, kind, b, f)
                                              && Chosen(LegOf(role, kind), b.tiers, 0, node.fastestFee, k)
                                              && forall tx :: !Payload(o.s.preimage, kind, b, k, tx))
            && (!o'.ok ==> o' == o.(ok := false))
  {
    hide Send, PickTier, Chosen, Payload, Noted, FirstDue, Fires, LadderOf, Recoverable;
    var leg := LegOf(role, kind);
    var node := nodes.Of(leg);
    FiresIsDue(o.s, role, kind);
    forall b, f | FirstDue(o.s, role, kind, b, f) ensures LadderOf(o.s, role, kind) == Some(b) && Recoverable(o.s, leg) == Some(f) {
      DueHas(o.s, role, kind, b, f);
    }
    if Fires(o.s, role, kind) {
      var b := LadderOf(o.s, role, kind).value;
      var k := PickTier(leg, b.tiers, 0, node.fastestFee);
      forall j ensures Chosen(leg, b.tiers, 0, node.fastestFee, j) <==> j == k {
        PickedIsChosen(leg, b.tiers, 0, node.fastestFee, j);
      }
      SendExactly(cfg, o.s, role, kind, b, k, node, now);
      assert Chosen(leg, b.tiers, 0, node.fastestFee, k);
      assert FirstDue(o.s, role, kind, b, Recoverable(o.s, leg).value);
    }
  }

  lemma DueHas(s: Swap, role: Role, kind: Kind, b: Ladder, f: Funding)
    requires FirstDue(s, role, kind, b, f)
    ensures LadderOf(s, role, kind) == Some(b) && Recoverable(s, LegOf(role, kind)) == Some(f)
  {
    LadderIs(s, role, kind, b);
    DepositIs(s, LegOf(role, kind), f);
  }

  // ---------------------------------------------------------------------------
  // Re-sends
  // ---------------------------------------------------------------------------

  /** A re-send is due: the spend is on the watchtower's record, the node calls the deposit unspent again, whatever the
      record says of it, and it is still the right kind of spend. */
  predicate AgainDue(s: Swap, role: Role, kind: Kind, node: Node, b: Ladder, f: Funding) {
    && (role, kind) in s.wt && Has(s, role, kind, b) && Deposited(s, LegOf(role, kind), f) && node.isUnspent(f.at)
    && (kind == Claim ==> NoneShort(s)) && (kind == Refund ==> s.preimage.None?)
  }

  /** The spend's own note, put aside for the attempt. */
  function Aside(s: Swap, role: Role, kind: Kind): Swap {
    s.(wt := s.wt - {(role, kind)})
  }

  function AtLeast(tier: nat, k: int): int {
    if k < tier then tier else k
  }

  lemma ResendsIsDue(s: Swap, role: Role, kind: Kind, node: Node)
    ensures Resends(s, role, kind, node) <==>
            LadderOf(s, role, kind).Some? && Recoverable(s, LegOf(role, kind)).Some?
            && AgainDue(s, role, kind, node, LadderOf(s, role, kind).value, Recoverable(s, LegOf(role, kind)).value)
  {
    ShortIs(s);
  }

  lemma AgainHas(s: Swap, role: Role, kind: Kind, node: Node, b: Ladder, f: Funding)
    requires AgainDue(s, role, kind, node, b, f)
    ensures LadderOf(s, role, kind) == Some(b) && Recoverable(s, LegOf(role, kind)) == Some(f) && (role, kind) in s.wt
  {
    LadderIs(s, role, kind, b);
    DepositIs(s, LegOf(role, kind), f);
  }

  /** One re-send of a tick that is still alive. When it is due the tier chosen now, but never one below the tier on
      record, goes out again if the node accepts it, and the tick dies, its note lost, if that tier cannot be put
      together; otherwise nothing happens. */
  lemma ResendExactly(cfg: Config, o: Outcome, role: Role, kind: Kind, nodes: Per<Node>, now: nat)
    requires o.ok
    ensures var o', node, leg := Resend(cfg, o, role, kind, nodes, now), nodes.Of(LegOf(role, kind)), LegOf(role, kind);
            && (forall b, f, j, tx :: AgainDue(o.s, role, kind, node, b, f) && Chosen(leg, b.tiers, 0, node.fastestFee, j)
                                      && Payload(o.s.preimage, kind, b, AtLeast(o.s.wt[(role, kind)].tier, j), tx) ==>
                  if node.testAccept(tx) then
                    RelayedOnce(cfg, o, Aside(o.s, role, kind), role, kind, AtLeast(o.s.wt[(role, kind)].tier, j), node, now, tx, o')
                  else o' == o)
            && ((forall b, f :: !AgainDue(o.s, role, kind, node, b, f)) ==> o' == o)
            && (!o'.ok <==> exists b, f, j :: AgainDue(o.s, role, kind, node, b, f) && Chosen(leg, b.tiers, 0, node.fastestFee, j)
                                              && forall tx :: !Payload(o.s.preimage, kind, b, AtLeast(o.s.wt[(role, kind)].tier, j), tx))
            && (!o'.ok ==> o' == Outcome(Aside(o.s, role, kind), false, o.log))
  {
    hide Send, PickTier, Chosen, Payload, Noted, AgainDue, Resends, LadderOf, Recoverable;
    var leg := LegOf(role, kind);
    var node := nodes.Of(leg);
    ResendsIsDue(o.s, role, kind, node);
    forall b, f | AgainDue(o.s, role, kind, node, b, f)
      ensures LadderOf(o.s, role, kind) == Some(b) && Recoverable(o.s, leg) == Some(f) && (role, kind) in o.s.wt
    {
      AgainHas(o.s, role, kind, node, b, f);
    }
    if Resends(o.s, role, kind, node) {
      var b := LadderOf(o.s, role, kind).value;
      var j := PickTier(leg, b.tiers, 0, node.fastestFee);
      forall i ensures Chosen(leg, b.tiers, 0, node.fastestFee, i) <==> i == j {
        PickedIsChosen(leg, b.tiers, 0, node.fastestFee, i);
      }
      assert AgainDue(o.s, role, kind, node, b, Recoverable(o.s, leg).value);
      SendExactly(cfg, Aside(o.s, role, kind), role, kind, b, AtLeast(o.s.wt[(role, kind)].tier, j), node, now);
    }
  }

  // ---------------------------------------------------------------------------
  // What a move leaves for the next one
  // ---------------------------------------------------------------------------

  /** The role's first move is due, and the node accepts the chosen tier. */
  ghost predicate FirstGoes(s: Swap, role: Role, kind: Kind, nodes: Per<Node>) {
    var leg := LegOf(role, kind);
    exists b, f, k, tx :: FirstDue(s, role, kind, b, f) && Chosen(leg, b.tiers, 0, nodes.Of(leg).fastestFee, k)
                          && Payload(s.preimage, kind, b, k, tx) && nodes.Of(leg).testAccept(tx)
  }

  /** The role's re-send is due, and the node accepts the chosen tier or, if that is higher, the one on record. */
  ghost predicate AgainGoes(s: Swap, role: Role, kind: Kind, nodes: Per<Node>) {
    var leg := LegOf(role, kind);
    (role, kind) in s.wt
    && exists b, f, j, tx :: AgainDue(s, role, kind, nodes.Of(leg), b, f) && Chosen(leg, b.tiers, 0, nodes.Of(leg).fastestFee, j)
                             && Payload(s.preimage, kind, b, AtLeast(s.wt[(role, kind)].tier, j), tx) && nodes.Of(leg).testAccept(tx)
  }

  /** After a relay for this role: its leg's deposit is spent and its note written; the rest is as it was, but a claim
      may have brought out the secret. */
  predicate Moved(s: Swap, role: Role, kind: Kind, t: Swap) {
    && t.finish == s.finish && t.plan == s.plan && t.heights == s.heights && t.htlc == s.htlc
    && SpentOn(s.funding, t.funding, LegOf(role, kind))
    && (if kind == Refund then SpentOn(s.short, t.short, LegOf(role, kind)) else t.short == s.short)
    && (kind == Refund || s.preimage.Some? ==> t.preimage == s.preimage)
    && (role, kind) in t.wt && t.wt - {(role, kind)} == s.wt - {(role, kind)}
  }

  lemma NotedMoves(cfg: Config, s: Swap, base: Swap, role: Role, kind: Kind, k: int, node: Node, now: nat, tx: bytes, t: Swap)
    requires Noted(cfg, s, role, kind, k, node, now, tx, t) && (s == base || s == Aside(base, role, kind))
    ensures Moved(base, role, kind, t)
  {
    hide Carries, Hex.Canonical, SpentOn;
    assert t.wt - {(role, kind)} == s.wt - {(role, kind)};
    assert s.wt - {(role, kind)} == base.wt - {(role, kind)};
  }

  /** One entry longer, for this role and kind. */
  predicate OneMore(o: Outcome, role: Role, kind: Kind, o': Outcome) {
    && |o'.log| == |o.log| + 1 && o'.log == o.log + [o'.log[|o.log|]]
    && o'.log[|o.log|].sender == Some(role) && o'.log[|o.log|].kind == kind
  }

  lemma FirstMoveGoes(cfg: Config, o: Outcome, role: Role, kind: Kind, nodes: Per<Node>, now: nat)
    requires o.ok && Attempt(cfg, o, role, kind, nodes, now).ok
    ensures var o' := Attempt(cfg, o, role, kind, nodes, now);
            if FirstGoes(o.s, role, kind, nodes) then OneMore(o, role, kind, o') && Moved(o.s, role, kind, o'.s) else o' == o
  {
    hide Attempt, FirstDue, Chosen, Payload, Noted, Moved;
    var leg := LegOf(role, kind);
    var node := nodes.Of(leg);
    var o' := Attempt(cfg, o, role, kind, nodes, now);
    FirstMoveExactly(cfg, o, role, kind, nodes, now);
    if b, f :| FirstDue(o.s, role, kind, b, f) {
      var k := PickTier(leg, b.tiers, 0, node.fastestFee);
      PickedIsChosen(leg, b.tiers, 0, node.fastestFee, k);
      var tx :| Payload(o.s.preimage, kind, b, k, tx);
      if node.testAccept(tx) {
        NotedMoves(cfg, o.s, o.s, role, kind, k, node, now, tx, o'.s);
      } else {
        RefusedFirst(o.s, role, kind, nodes, b, f, k, tx);
      }
    }
  }

  lemma RefusedFirst(s: Swap, role: Role, kind: Kind, nodes: Per<Node>, b: Ladder, f: Funding, k: int, tx: bytes)
    requires FirstDue(s, role, kind, b, f) && Payload(s.preimage, kind, b, k, tx)
    requires var leg := LegOf(role, kind);
             Chosen(leg, b.tiers, 0, nodes.Of(leg).fastestFee, k) && !nodes.Of(leg).testAccept(tx)
    ensures !FirstGoes(s, role, kind, nodes)
  {
    hide FirstDue, Chosen, PickTier;
    var leg := LegOf(role, kind);
    forall b', f', k' | FirstDue(s, role, kind, b', f') && Chosen(leg, b'.tiers, 0, nodes.Of(leg).fastestFee, k')
      ensures b' == b && k' == k
    {
      DueHas(s, role, kind, b, f);
      DueHas(s, role, kind, b', f');
      PickedIsChosen(leg, b.tiers, 0, nodes.Of(leg).fastestFee, k);
      PickedIsChosen(leg, b.tiers, 0, nodes.Of(leg).fastestFee, k');
    }
  }

  lemma ResendGoes(cfg: Config, o: Outcome, role: Role, kind: Kind, nodes: Per<Node>, now: nat)
    requires o.ok && Resend(cfg, o, role, kind, nodes, now).ok
    ensures var o' := Resend(cfg, o, role, kind, nodes, now);
            if AgainGoes(o.s, role, kind, nodes) then OneMore(o, role, kind, o') && Moved(o.s, role, kind, o'.s) else o' == o
  {
    hide Resend, AgainDue, Chosen, Payload, Noted, Moved;
    var leg := LegOf(role, kind);
    var node := nodes.Of(leg);
    var o' := Resend(cfg, o, role, kind, nodes, now);
    ResendExactly(cfg, o, role, kind, nodes, now);
    if b, f :| AgainDue(o.s, role, kind, node, b, f) {
      AgainHas(o.s, role, kind, node, b, f);
      var j := PickTier(leg, b.tiers, 0, node.fastestFee);
      PickedIsChosen(leg, b.tiers, 0, node.fastestFee, j);
      var k := AtLeast(o.s.wt[(role, kind)].tier, j);
      var tx :| Payload(o.s.preimage, kind, b, k, tx);
      if node.testAccept(tx) {
        NotedMoves(cfg, Aside(o.s, role, kind), o.s, role, kind, k, node, now, tx, o'.s);
      } else {
        RefusedAgain(o.s, role, kind, nodes, b, f, j, tx);
      }
    }
  }

  lemma RefusedAgain(s: Swap, role: Role, kind: Kind, nodes: Per<Node>, b: Ladder, f: Funding, j: int, tx: bytes)
    requires (role, kind) in s.wt && AgainDue(s, role, kind, nodes.Of(LegOf(role, kind)), b, f)
    requires Payload(s.preimage, kind, b, AtLeast(s.wt[(role, kind)].tier, j), tx)
    requires var leg := LegOf(role, kind);
             Chosen(leg, b.tiers, 0, nodes.Of(leg).fastestFee, j) && !nodes.Of(leg).testAccept(tx)
    ensures !AgainGoes(s, role, kind, nodes)
  {
    hide AgainDue, Chosen, PickTier;
    var leg := LegOf(role, kind);
    forall b', f', j' | AgainDue(s, role, kind, nodes.Of(leg), b', f') && Chosen(leg, b'.tiers, 0, nodes.Of(leg).fastestFee, j')
      ensures b' == b && j' == j
    {
      AgainHas(s, role, kind, nodes.Of(leg), b, f);
      AgainHas(s, role, kind, nodes.Of(leg), b', f');
      PickedIsChosen(leg, b.tiers, 0, nodes.Of(leg).fastestFee, j);
      PickedIsChosen(leg, b.tiers, 0, nodes.Of(leg).fastestFee, j');
    }
  }

  // ---------------------------------------------------------------------------
  // The first moves of a tick
  // ---------------------------------------------------------------------------

  /** The record with the secret as it turns out. */
  function Knowing(s: Swap, preimage: Option<bytes>): Swap {
    s.(preimage := preimage)
  }

  /** What a first move looks at, besides the state. */
  predicate SameView(s: Swap, t: Swap, leg: Leg) {
    && t.finish == s.finish && t.plan == s.plan && t.heights == s.heights && t.preimage == s.preimage
    && t.funding.Of(leg) == s.funding.Of(leg) && t.short.Of(leg) == s.short.Of(leg)
  }

  lemma SameFirst(s: Swap, t: Swap, role: Role, kind: Kind, nodes: Per<Node>)
    requires SameView(s, t, LegOf(role, kind)) && ((role, kind) in t.wt <==> (role, kind) in s.wt)
    requires kind == Claim ==> (NoneShort(t) <==> NoneShort(s)) && role == Bob
    ensures FirstGoes(t, role, kind, nodes) <==> FirstGoes(s, role, kind, nodes)
  {
    hide Chosen, Payload;
    assert forall b, f :: FirstDue(t, role, kind, b, f) <==> FirstDue(s, role, kind, b, f);
  }

  lemma NotFirst(s: Swap, role: Role, kind: Kind, nodes: Per<Node>)
    requires (role, kind) in s.wt || (kind == Refund && s.preimage.Some?) || (role == Bob && kind == Claim && s.preimage.None?)
             || (s.funding.Of(LegOf(role, kind)).Some? && s.funding.Of(LegOf(role, kind)).value.spent)
    ensures !FirstGoes(s, role, kind, nodes)
  {
    hide Chosen, Payload;
  }

  lemma FirstClaimDeposit(s: Swap, nodes: Per<Node>)
    requires FirstGoes(s, Alice, Claim, nodes)
    ensures s.funding.Of(TO).Some?
  {
    hide Chosen, Payload;
  }

  /** The first moves of a tick that does not die in them: from the record it starts with, and the secret as known after
      them, each of the four goes out exactly when it is due and accepted, the participant's refund only if the
      initiator's claim did not just take the same deposit. Nothing else goes out. */
  lemma FirstMovesExactly(cfg: Config, s: Swap, nodes: Per<Node>, now: nat)
    requires FirstMoves(cfg, Done(s), nodes, now).ok
    ensures var o := FirstMoves(cfg, Done(s), nodes, now);
            var t := Knowing(s, o.s.preimage);
            var ac, bc := FirstGoes(s, Alice, Claim, nodes), FirstGoes(t, Bob, Claim, nodes);
            var ar, br := FirstGoes(t, Alice, Refund, nodes), FirstGoes(t, Bob, Refund, nodes) && !ac;
            && (Watched(o.log, Alice, Claim) <==> ac) && (Watched(o.log, Bob, Claim) <==> bc)
            && (Watched(o.log, Alice, Refund) <==> ar) && (Watched(o.log, Bob, Refund) <==> br)
            && |o.log| == (if ac then 1 else 0) + (if bc then 1 else 0) + (if ar then 1 else 0) + (if br then 1 else 0)
            && (s.preimage.Some? ==> o.s.preimage == s.preimage)
  {
    hide Attempt, FirstGoes, Watched, OneMore, Moved, Knowing;
    var a := Attempt(cfg, Done(s), Alice, Claim, nodes, now);
    var b := Attempt(cfg, a, Bob, Claim, nodes, now);
    var c := Attempt(cfg, b, Alice, Refund, nodes, now);
    var d := Attempt(cfg, c, Bob, Refund, nodes, now);
    StaysDead(cfg, Done(s), Alice, Claim, nodes, now);
    StaysDead(cfg, a, Bob, Claim, nodes, now);
    StaysDead(cfg, b, Alice, Refund, nodes, now);
    StaysDead(cfg, c, Bob, Refund, nodes, now);
    FirstMoveGoes(cfg, Done(s), Alice, Claim, nodes, now);
    FirstMoveGoes(cfg, a, Bob, Claim, nodes, now);
    FirstMoveGoes(cfg, b, Alice, Refund, nodes, now);
    FirstMoveGoes(cfg, c, Bob, Refund, nodes, now);
    Turns(s, a.s, b.s, c.s, d.s, nodes);
    NoLog();
    LogStep(Done(s), Alice, Claim, a);
    LogStep(a, Bob, Claim, b);
    LogStep(b, Alice, Refund, c);
    LogStep(c, Bob, Refund, d);
  }

  lemma NoLog()
    ensures forall role, kind :: !Watched([], role, kind)
  {
  }

  lemma LogStep(o: Outcome, role: Role, kind: Kind, o': Outcome)
    requires OneMore(o, role, kind, o') || o' == o
    ensures forall r, k :: Watched(o'.log, r, k) <==> Watched(o.log, r, k) || (o' != o && r == role && k == kind)
    ensures |o'.log| == |o.log| + (if o' != o then 1 else 0)
    ensures OneMore(o, role, kind, o') ==> o' != o
  {
    hide Watched;
    if o' != o {
      forall r, k ensures Watched(o'.log, r, k) <==> Watched(o.log, r, k) || (r == role && k == kind) {
        WatchedNext(o.log, o'.log[|o.log|], r, k);
      }
    }
  }

  lemma StaysDead(cfg: Config, o: Outcome, role: Role, kind: Kind, nodes: Per<Node>, now: nat)
    ensures !o.ok ==> Attempt(cfg, o, role, kind, nodes, now) == o && Resend(cfg, o, role, kind, nodes, now) == o
  {
    hide Send, Fires, Resends, PickTier;
  }

  /** The four turns, told from the record at the start. */
  lemma Turns(s: Swap, a: Swap, b: Swap, c: Swap, d: Swap, nodes: Per<Node>)
    requires if FirstGoes(s, Alice, Claim, nodes) then Moved(s, Alice, Claim, a) else a == s
    requires if FirstGoes(a, Bob, Claim, nodes) then Moved(a, Bob, Claim, b) else b == a
    requires if FirstGoes(b, Alice, Refund, nodes) then Moved(b, Alice, Refund, c) else c == b
    requires if FirstGoes(c, Bob, Refund, nodes) then Moved(c, Bob, Refund, d) else d == c
    ensures var t := Knowing(s, d.preimage);
            && (FirstGoes(a, Bob, Claim, nodes) <==> FirstGoes(t, Bob, Claim, nodes))
            && (FirstGoes(b, Alice, Refund, nodes) <==> FirstGoes(t, Alice, Refund, nodes))
            && (FirstGoes(c, Bob, Refund, nodes) <==> FirstGoes(t, Bob, Refund, nodes) && !FirstGoes(s, Alice, Claim, nodes))
            && (s.preimage.Some? ==> d.preimage == s.preimage)
  {
    hide FirstGoes;
    var t := Knowing(s, d.preimage);
    if a.preimage.None? {
      NotFirst(a, Bob, Claim, nodes);
    }
    assert d.preimage == a.preimage;
    KeyStays(s, Alice, Claim, a);
    KeyStays(a, Bob, Claim, b);
    KeyStays(b, Alice, Refund, c);
    SameFirst(t, a, Bob, Claim, nodes);
    if d.preimage.Some? {
      NotFirst(b, Alice, Refund, nodes);
      NotFirst(t, Alice, Refund, nodes);
      NotFirst(c, Bob, Refund, nodes);
      NotFirst(t, Bob, Refund, nodes);
    } else {
      assert b == a;
      SameFirst(t, b, Alice, Refund, nodes);
      if FirstGoes(s, Alice, Claim, nodes) {
        FirstClaimDeposit(s, nodes);
        NotFirst(c, Bob, Refund, nodes);
      } else {
        SameFirst(t, c, Bob, Refund, nodes);
      }
    }
  }

  lemma KeyStays(s: Swap, role: Role, kind: Kind, t: Swap)
    requires t == s || Moved(s, role, kind, t)
    ensures forall r, k :: (r, k) != (role, kind) ==> ((r, k) in t.wt <==> (r, k) in s.wt)
    ensures forall r, k :: (r, k) != (role, kind) && (r, k) in s.wt ==> t.wt[(r, k)] == s.wt[(r, k)]
    ensures (role, kind) in s.wt ==> (role, kind) in t.wt
  {
    hide SpentOn;
    forall r, k | (r, k) != (role, kind)
      ensures ((r, k) in t.wt <==> (r, k) in s.wt) && ((r, k) in s.wt ==> t.wt[(r, k)] == s.wt[(r, k)])
    {
      assert (r, k) in t.wt <==> (r, k) in t.wt - {(role, kind)};
      assert (r, k) in s.wt <==> (r, k) in s.wt - {(role, kind)};
      if (r, k) in s.wt {
        assert (t.wt - {(role, kind)})[(r, k)] == (s.wt - {(role, kind)})[(r, k)];
      }
    }
  }

  // ---------------------------------------------------------------------------
  // The re-sends of a tick
  // ---------------------------------------------------------------------------

  predicate SameOutpoints(a: Option<Funding>, b: Option<Funding>) {
    (a.Some? <==> b.Some?) && (a.Some? ==> a.value.at == b.value.at)
  }

  /** What a re-send looks at, besides the secret. */
  predicate SameNotes(s: Swap, t: Swap, role: Role, kind: Kind) {
    && t.finish == s.finish && (NoneShort(t) <==> NoneShort(s))
    && SameOutpoints(s.funding.Of(LegOf(role, kind)), t.funding.Of(LegOf(role, kind)))
    && SameOutpoints(s.short.Of(LegOf(role, kind)), t.short.Of(LegOf(role, kind)))
    && ((role, kind) in t.wt <==> (role, kind) in s.wt) && ((role, kind) in s.wt ==> t.wt[(role, kind)] == s.wt[(role, kind)])
  }

  ghost predicate DueFor(s: Swap, role: Role, kind: Kind, node: Node, b: Ladder) {
    exists f :: AgainDue(s, role, kind, node, b, f)
  }

  lemma SameNotesDue(s: Swap, t: Swap, role: Role, kind: Kind, node: Node, b: Ladder)
    requires SameNotes(s, t, role, kind) && (kind == Refund ==> t.preimage == s.preimage)
    ensures DueFor(t, role, kind, node, b) <==> DueFor(s, role, kind, node, b)
  {
    hide NoneShort;
    var leg := LegOf(role, kind);
    if f :| AgainDue(t, role, kind, node, b, f) {
      var g := if s.funding.Of(leg).Some? then s.funding.Of(leg).value else s.short.Of(leg).value;
      assert AgainDue(s, role, kind, node, b, g);
    }
    if f :| AgainDue(s, role, kind, node, b, f) {
      var g := if t.funding.Of(leg).Some? then t.funding.Of(leg).value else t.short.Of(leg).value;
      assert AgainDue(t, role, kind, node, b, g);
    }
  }

  lemma AgainFrom(s: Swap, t: Swap, role: Role, kind: Kind, nodes: Per<Node>)
    requires SameNotes(s, t, role, kind) && t.preimage == s.preimage && AgainGoes(s, role, kind, nodes)
    ensures AgainGoes(t, role, kind, nodes)
  {
    hide Chosen, Payload, AgainDue;
    var leg := LegOf(role, kind);
    var b, f, j, tx :| AgainDue(s, role, kind, nodes.Of(leg), b, f) && Chosen(leg, b.tiers, 0, nodes.Of(leg).fastestFee, j)
                       && Payload(s.preimage, kind, b, AtLeast(s.wt[(role, kind)].tier, j), tx) && nodes.Of(leg).testAccept(tx);
    SameNotesDue(s, t, role, kind, nodes.Of(leg), b);
    assert DueFor(s, role, kind, nodes.Of(leg), b);
    var g :| AgainDue(t, role, kind, nodes.Of(leg), b, g);
    assert Payload(t.preimage, kind, b, AtLeast(t.wt[(role, kind)].tier, j), tx);
  }

  /** A re-send goes out alike from two records that agree on what it looks at. */
  lemma SameAgain(s: Swap, t: Swap, role: Role, kind: Kind, nodes: Per<Node>)
    requires SameNotes(s, t, role, kind) && t.preimage == s.preimage
    ensures AgainGoes(t, role, kind, nodes) <==> AgainGoes(s, role, kind, nodes)
  {
    hide AgainGoes, NoneShort;
    if AgainGoes(s, role, kind, nodes) {
      AgainFrom(s, t, role, kind, nodes);
    }
    if AgainGoes(t, role, kind, nodes) {
      AgainFrom(t, s, role, kind, nodes);
    }
  }

  /** What a claim looks at in its turn is the secret as known in the end, unless the tick died over it. */
  lemma SecretInTurn(cfg: Config, o: Outcome, role: Role, nodes: Per<Node>, now: nat, preimage: Option<bytes>)
    requires o.ok && Resend(cfg, o, role, Claim, nodes, now).ok && (o.s.preimage.Some? ==> preimage == o.s.preimage)
    ensures AgainGoes(Knowing(o.s, preimage), role, Claim, nodes) <==> AgainGoes(o.s, role, Claim, nodes)
  {
    hide Resend, Chosen;
    var s, t, leg := o.s, Knowing(o.s, preimage), LegOf(role, Claim);
    if t != s {
      ResendExactly(cfg, o, role, Claim, nodes, now);
      assert forall b, f :: AgainDue(t, role, Claim, nodes.Of(leg), b, f) <==> AgainDue(s, role, Claim, nodes.Of(leg), b, f);
      forall b, f | AgainDue(s, role, Claim, nodes.Of(leg), b, f) ensures !b.needsPreimage {
        var j := PickTier(leg, b.tiers, 0, nodes.Of(leg).fastestFee);
        PickedIsChosen(leg, b.tiers, 0, nodes.Of(leg).fastestFee, j);
        assert exists tx :: Payload(s.preimage, Claim, b, AtLeast(s.wt[(role, Claim)].tier, j), tx);
      }
    }
  }

  lemma MovedKeeps(s: Swap, role: Role, kind: Kind, t: Swap, r: Role, k: Kind)
    requires Moved(s, role, kind, t) || t == s
    requires (r, k) != (role, kind)
    ensures SameNotes(s, t, r, k)
  {
    KeyStays(s, role, kind, t);
    if t != s {
      var leg := LegOf(r, k);
      assert NoneShort(t) <==> NoneShort(s) by {
        if NoneShort(t) {
          assert forall l: Leg :: t.short.Of(l).None?;
        }
      }
    }
  }

  lemma NotesChain(a: Swap, b: Swap, c: Swap, role: Role, kind: Kind)
    requires SameNotes(a, b, role, kind) && SameNotes(b, c, role, kind)
    ensures SameNotes(a, c, role, kind)
  {
    hide NoneShort;
  }

  lemma NotesKnowing(s: Swap, t: Swap, preimage: Option<bytes>, role: Role, kind: Kind)
    requires SameNotes(s, t, role, kind)
    ensures SameNotes(Knowing(s, preimage), t, role, kind) && SameNotes(s, s, role, kind)
  {
  }

  /** The re-sends of a tick that does not die: from the record after the first moves, and the secret as known in the
      end, each of the four goes out again exactly when it is due and accepted. */
  lemma ResendsExactly(cfg: Config, o: Outcome, nodes: Per<Node>, now: nat, role: Role, kind: Kind)
    requires o.ok && Resending(cfg, o, nodes, now).ok
    ensures var o' := Resending(cfg, o, nodes, now);
            && (Watched(o'.log, role, kind) <==>
                  Watched(o.log, role, kind) || AgainGoes(Knowing(o.s, o'.s.preimage), role, kind, nodes))
            && (o.s.preimage.Some? ==> o'.s.preimage == o.s.preimage)
  {
    hide Resend, AgainGoes, Watched, OneMore, Moved, Knowing, SameNotes;
    var a := Resend(cfg, o, Alice, Claim, nodes, now);
    var b := Resend(cfg, a, Bob, Claim, nodes, now);
    var c := Resend(cfg, b, Alice, Refund, nodes, now);
    var d := Resend(cfg, c, Bob, Refund, nodes, now);
    StaysDead(cfg, a, Bob, Claim, nodes, now);
    StaysDead(cfg, b, Alice, Refund, nodes, now);
    StaysDead(cfg, c, Bob, Refund, nodes, now);
    ResendGoes(cfg, o, Alice, Claim, nodes, now);
    ResendGoes(cfg, a, Bob, Claim, nodes, now);
    ResendGoes(cfg, b, Alice, Refund, nodes, now);
    ResendGoes(cfg, c, Bob, Refund, nodes, now);
    LogStep(o, Alice, Claim, a);
    LogStep(a, Bob, Claim, b);
    LogStep(b, Alice, Refund, c);
    LogStep(c, Bob, Refund, d);
    Secrets(o.s, a.s, b.s, c.s, d.s);
    SecretInTurn(cfg, o, Alice, nodes, now, d.s.preimage);
    SecretInTurn(cfg, a, Bob, nodes, now, d.s.preimage);
    AgainTurns(o.s, a.s, b.s, c.s, d.s.preimage, nodes);
  }

  lemma Secrets(s: Swap, a: Swap, b: Swap, c: Swap, d: Swap)
    requires (Moved(s, Alice, Claim, a) || a == s) && (Moved(a, Bob, Claim, b) || b == a)
    requires (Moved(b, Alice, Refund, c) || c == b) && (Moved(c, Bob, Refund, d) || d == c)
    ensures d.preimage == c.preimage == b.preimage
    ensures (s.preimage.Some? ==> d.preimage == s.preimage) && (a.preimage.Some? ==> d.preimage == a.preimage)
  {
    hide SpentOn;
  }

  lemma AgainTurns(s: Swap, a: Swap, b: Swap, c: Swap, preimage: Option<bytes>, nodes: Per<Node>)
    requires (Moved(s, Alice, Claim, a) || a == s) && (Moved(a, Bob, Claim, b) || b == a)
    requires (Moved(b, Alice, Refund, c) || c == b) && b.preimage == c.preimage == preimage
    ensures AgainGoes(Knowing(a, preimage), Bob, Claim, nodes) <==> AgainGoes(Knowing(s, preimage), Bob, Claim, nodes)
    ensures AgainGoes(b, Alice, Refund, nodes) <==> AgainGoes(Knowing(s, preimage), Alice, Refund, nodes)
    ensures AgainGoes(c, Bob, Refund, nodes) <==> AgainGoes(Knowing(s, preimage), Bob, Refund, nodes)
  {
    hide AgainGoes, Moved, SameNotes;
    var t := Knowing(s, preimage);
    MovedKeeps(s, Alice, Claim, a, Bob, Claim);
    NotesKnowing(s, a, preimage, Bob, Claim);
    KnowingNotes(t, a, preimage, Bob, Claim);
    SameAgain(t, Knowing(a, preimage), Bob, Claim, nodes);
    MovedKeeps(s, Alice, Claim, a, Alice, Refund);
    MovedKeeps(a, Bob, Claim, b, Alice, Refund);
    NotesChain(s, a, b, Alice, Refund);
    NotesKnowing(s, b, preimage, Alice, Refund);
    SameAgain(t, b, Alice, Refund, nodes);
    MovedKeeps(s, Alice, Claim, a, Bob, Refund);
    MovedKeeps(a, Bob, Claim, b, Bob, Refund);
    MovedKeeps(b, Alice, Refund, c, Bob, Refund);
    NotesChain(s, a, b, Bob, Refund);
    NotesChain(s, b, c, Bob, Refund);
    NotesKnowing(s, c, preimage, Bob, Refund);
    SameAgain(t, c, Bob, Refund, nodes);
  }

  lemma KnowingNotes(s: Swap, t: Swap, preimage: Option<bytes>, role: Role, kind: Kind)
    requires SameNotes(s, t, role, kind)
    ensures SameNotes(s, Knowing(t, preimage), role, kind)
  {
  }

  // ---------------------------------------------------------------------------
  // The whole tick
  // ---------------------------------------------------------------------------

  predicate Watching(s: Swap) {
    s.htlc.Some? && s.state != Created && s.state != Canceled && s.state != Complete && s.state != Refunded && s.state != Aborted
  }

  /** A tick on a swap that is not being watched does nothing. On one that is, and that it does not die over: a spend on
      the watchtower's record goes out again exactly when its bundle and deposit are still there, the later node calls
      the outpoint unspent and accepts the tier, and (a claim) no leg is short or (a refund) no secret is known in the
      end. A spend not on record goes out exactly as a first move, or as a re-send right after one. */
  lemma TickExactly(cfg: Config, s: Swap, nodes: Per<Node>, after: Per<Node>, now: nat, role: Role, kind: Kind)
    requires Drive(cfg, s, nodes, after, now).ok
    ensures var o, first := Drive(cfg, s, nodes, after, now), FirstMoves(cfg, Done(s), nodes, now);
            && (!Watching(s) ==> o == Done(s))
            && (Watching(s) ==>
                  && first.ok
                  && ((role, kind) in s.wt ==>
                        (Watched(o.log, role, kind) <==> AgainGoes(Knowing(s, o.s.preimage), role, kind, after)))
                  && ((role, kind) !in s.wt ==> (Watched(o.log, role, kind) <==> Watched(first.log, role, kind))))
  {
    hide FirstMoves, Resending, FirstGoes, AgainGoes, Watched, SameNotes;
    var o, first := Drive(cfg, s, nodes, after, now), FirstMoves(cfg, Done(s), nodes, now);
    if Watching(s) {
      DeadTick(cfg, first, after, now);
      ResendsExactly(cfg, first, after, now, role, kind);
      FirstMovesExactly(cfg, s, nodes, now);
      FirstKeeps(cfg, s, nodes, now, role, kind);
      if (role, kind) in s.wt {
        NotFirst(s, role, kind, nodes);
        NotFirst(Knowing(s, first.s.preimage), role, kind, nodes);
        NotesKnowing(s, first.s, o.s.preimage, role, kind);
        KnowingNotes(Knowing(s, o.s.preimage), first.s, o.s.preimage, role, kind);
        SameAgain(Knowing(s, o.s.preimage), Knowing(first.s, o.s.preimage), role, kind, after);
      } else if !Watched(first.log, role, kind) {
        NotAgain(first.s, o.s.preimage, role, kind, after);
      }
    }
  }

  lemma DeadTick(cfg: Config, o: Outcome, nodes: Per<Node>, now: nat)
    ensures !o.ok ==> Resending(cfg, o, nodes, now) == o
  {
    hide Resend;
    StaysDead(cfg, o, Alice, Claim, nodes, now);
    StaysDead(cfg, o, Bob, Claim, nodes, now);
    StaysDead(cfg, o, Alice, Refund, nodes, now);
    StaysDead(cfg, o, Bob, Refund, nodes, now);
  }

  lemma NotAgain(s: Swap, preimage: Option<bytes>, role: Role, kind: Kind, nodes: Per<Node>)
    requires (role, kind) !in s.wt
    ensures !AgainGoes(Knowing(s, preimage), role, kind, nodes)
  {
    hide Chosen, Payload, AgainDue;
  }

  /** The first moves leave what a re-send looks at, and add notes only for what they relay. */
  lemma FirstKeeps(cfg: Config, s: Swap, nodes: Per<Node>, now: nat, role: Role, kind: Kind)
    requires FirstMoves(cfg, Done(s), nodes, now).ok
    ensures var o := FirstMoves(cfg, Done(s), nodes, now);
            && ((role, kind) in s.wt ==> SameNotes(s, o.s, role, kind))
            && ((role, kind) in o.s.wt ==> (role, kind) in s.wt || Watched(o.log, role, kind))
  {
    hide Attempt, FirstGoes, Watched, OneMore, Moved, SameNotes;
    var a := Attempt(cfg, Done(s), Alice, Claim, nodes, now);
    var b := Attempt(cfg, a, Bob, Claim, nodes, now);
    var c := Attempt(cfg, b, Alice, Refund, nodes, now);
    var d := Attempt(cfg, c, Bob, Refund, nodes, now);
    StaysDead(cfg, a, Bob, Claim, nodes, now);
    StaysDead(cfg, b, Alice, Refund, nodes, now);
    StaysDead(cfg, c, Bob, Refund, nodes, now);
    FirstMoveNotes(cfg, Done(s), Alice, Claim, nodes, now, role, kind);
    FirstMoveNotes(cfg, a, Bob, Claim, nodes, now, role, kind);
    FirstMoveNotes(cfg, b, Alice, Refund, nodes, now, role, kind);
    FirstMoveNotes(cfg, c, Bob, Refund, nodes, now, role, kind);
    if (role, kind) in s.wt {
      NotesHere(s, a.s, role, kind);
      NotesHere(a.s, b.s, role, kind);
      NotesHere(b.s, c.s, role, kind);
      NotesChain(s, a.s, b.s, role, kind);
      NotesChain(s, b.s, c.s, role, kind);
      NotesChain(s, c.s, d.s, role, kind);
    }
  }

  lemma NotesHere(s: Swap, t: Swap, role: Role, kind: Kind)
    requires (role, kind) in s.wt && SameNotes(s, t, role, kind)
    ensures (role, kind) in t.wt
  {
  }

  lemma FirstMoveNotes(cfg: Config, o: Outcome, role: Role, kind: Kind, nodes: Per<Node>, now: nat, r: Role, k: Kind)
    requires o.ok && Attempt(cfg, o, role, kind, nodes, now).ok
    ensures var o' := Attempt(cfg, o, role, kind, nodes, now);
            && ((r, k) in o.s.wt ==> SameNotes(o.s, o'.s, r, k))
            && ((r, k) in o'.s.wt ==> (r, k) in o.s.wt || Watched(o'.log, r, k))
            && (Watched(o.log, r, k) ==> Watched(o'.log, r, k))
  {
    hide Attempt, FirstGoes, Watched, Moved, SameNotes;
    var o' := Attempt(cfg, o, role, kind, nodes, now);
    FirstMoveGoes(cfg, o, role, kind, nodes, now);
    LogStep(o, role, kind, o');
    KeyStays(o.s, role, kind, o'.s);
    if (r, k) in o.s.wt {
      if (r, k) == (role, kind) {
        NotFirst(o.s, role, kind, nodes);
        SelfNotes(o.s, r, k);
      } else {
        MovedKeeps(o.s, role, kind, o'.s, r, k);
      }
    }
  }

  lemma SelfNotes(s: Swap, role: Role, kind: Kind)
    ensures SameNotes(s, s, role, kind)
  {
  }

  // ---------------------------------------------------------------------------
  // Ticks that come to an end
  // ---------------------------------------------------------------------------

  /** A preimage can be put into this transaction. */
  predicate Spliceable(tx: bytes) {
    var t := TxCodec.DecodeTx(tx); t.Ok? && t.value.wit != [] && t.value.wit[0] != []
  }

  predicate Fit(b: Ladder) {
    b.tiers != [] && (b.needsPreimage ==> forall k :: 0 <= k < |b.tiers| ==> Spliceable(b.tiers[k].tx))
  }

  /** A ladder the watchtower can send from, at the tier on record too, with the secret it needs. */
  predicate LadderFits(s: Swap, role: Role, kind: Kind, b: Ladder) {
    && Fit(b)
    && ((role, kind) in s.wt ==> s.wt[(role, kind)].tier < |b.tiers|)
    && (kind == Claim && b.needsPreimage && (role == Alice || (role, kind) in s.wt) ==> s.preimage.Some?)
  }

  predicate AllFit(s: Swap) {
    forall role: Role, kind: Kind :: LadderOf(s, role, kind).Some? ==> LadderFits(s, role, kind, LadderOf(s, role, kind).value)
  }

  lemma ChosenInRange(leg: Leg, tiers: seq<Tier>, fastestFee: real, k: int)
    requires tiers != [] && Chosen(leg, tiers, 0, fastestFee, k)
    ensures 0 <= k < |tiers|
  {
  }

  lemma PayloadFor(preimage: Option<bytes>, kind: Kind, b: Ladder, k: int)
    requires Fit(b) && 0 <= k < |b.tiers| && (kind == Claim && b.needsPreimage ==> preimage.Some?)
    ensures exists tx :: Payload(preimage, kind, b, k, tx)
  {
    hide TxCodec.DecodeTx, TxCodec.EncodeTx;
    if kind == Claim && b.needsPreimage {
      assert Spliceable(b.tiers[k].tx);
      assert Payload(preimage, kind, b, k, Spend.Spliced(b.tiers[k].tx, preimage.value).value);
    } else {
      assert Payload(preimage, kind, b, k, b.tiers[k].tx);
    }
  }

  lemma MovedFits(cfg: Config, s: Swap, base: Swap, role: Role, kind: Kind, b: Ladder, k: int, node: Node, now: nat, tx: bytes, t: Swap)
    requires AllFit(base) && LadderOf(base, role, kind) == Some(b) && 0 <= k < |b.tiers|
    requires s == base || s == Aside(base, role, kind)
    requires Noted(cfg, s, role, kind, k, node, now, tx, t)
    requires role == Bob && kind == Claim && b.needsPreimage ==> base.preimage.Some?
    ensures AllFit(t)
  {
    hide Fit, Spent;
    NotedMoves(cfg, s, base, role, kind, k, node, now, tx, t);
    KeyStays(base, role, kind, t);
    NotedHere(cfg, s, role, kind, k, node, now, tx, t);
    forall r: Role, j: Kind | LadderOf(t, r, j).Some? ensures LadderFits(t, r, j, LadderOf(t, r, j).value) {
      assert LadderOf(base, r, j) == LadderOf(t, r, j);
      assert LadderFits(base, r, j, LadderOf(base, r, j).value);
    }
  }

  lemma NotedHere(cfg: Config, s: Swap, role: Role, kind: Kind, k: int, node: Node, now: nat, tx: bytes, t: Swap)
    requires Noted(cfg, s, role, kind, k, node, now, tx, t)
    ensures (role, kind) in t.wt && t.wt[(role, kind)].tier == k
  {
    hide Spent;
  }

  lemma FirstMoveFits(cfg: Config, o: Outcome, role: Role, kind: Kind, nodes: Per<Node>, now: nat)
    requires o.ok && AllFit(o.s)
    ensures var o' := Attempt(cfg, o, role, kind, nodes, now); o'.ok && AllFit(o'.s)
  {
    hide Attempt, AllFit, FirstDue, Chosen, Payload, Noted, LadderOf, Fit;
    var leg := LegOf(role, kind);
    var node := nodes.Of(leg);
    FirstMoveExactly(cfg, o, role, kind, nodes, now);
    if b, f :| FirstDue(o.s, role, kind, b, f) {
      DueHas(o.s, role, kind, b, f);
      FitHere(o.s, role, kind, b);
      DueKnows(o.s, role, kind, b, f);
      forall k | Chosen(leg, b.tiers, 0, node.fastestFee, k) ensures exists tx :: Payload(o.s.preimage, kind, b, k, tx) {
        ChosenInRange(leg, b.tiers, node.fastestFee, k);
        PayloadFor(o.s.preimage, kind, b, k);
      }
      OnlyDue(o.s, role, kind, b, f);
      var k := PickTier(leg, b.tiers, 0, node.fastestFee);
      PickedIsChosen(leg, b.tiers, 0, node.fastestFee, k);
      ChosenInRange(leg, b.tiers, node.fastestFee, k);
      var tx :| Payload(o.s.preimage, kind, b, k, tx);
      if node.testAccept(tx) {
        MovedFits(cfg, o.s, o.s, role, kind, b, k, node, now, tx, Attempt(cfg, o, role, kind, nodes, now).s);
      }
    }
  }

  lemma OnlyDue(s: Swap, role: Role, kind: Kind, b: Ladder, f: Funding)
    requires FirstDue(s, role, kind, b, f)
    ensures forall b', f' :: FirstDue(s, role, kind, b', f') ==> b' == b && f' == f
  {
    hide FirstDue;
    forall b', f' | FirstDue(s, role, kind, b', f') ensures b' == b && f' == f {
      DueHas(s, role, kind, b, f);
      DueHas(s, role, kind, b', f');
    }
  }

  lemma FitHere(s: Swap, role: Role, kind: Kind, b: Ladder)
    requires AllFit(s) && LadderOf(s, role, kind) == Some(b)
    ensures LadderFits(s, role, kind, b) && Fit(b) && b.tiers != []
  {
  }

  lemma DueKnows(s: Swap, role: Role, kind: Kind, b: Ladder, f: Funding)
    requires FirstDue(s, role, kind, b, f)
    ensures role == Bob && kind == Claim ==> s.preimage.Some?
  {
  }

  lemma ResendFits(cfg: Config, o: Outcome, role: Role, kind: Kind, nodes: Per<Node>, now: nat)
    requires o.ok && AllFit(o.s)
    ensures var o' := Resend(cfg, o, role, kind, nodes, now); o'.ok && AllFit(o'.s)
  {
    hide Resend, AllFit, AgainDue, Chosen, Payload, Noted, LadderOf, Fit;
    var leg := LegOf(role, kind);
    var node := nodes.Of(leg);
    ResendExactly(cfg, o, role, kind, nodes, now);
    if b, f :| AgainDue(o.s, role, kind, node, b, f) {
      AgainHas(o.s, role, kind, node, b, f);
      FitHere(o.s, role, kind, b);
      var tier := o.s.wt[(role, kind)].tier;
      forall j | Chosen(leg, b.tiers, 0, node.fastestFee, j)
        ensures exists tx :: Payload(o.s.preimage, kind, b, AtLeast(tier, j), tx)
      {
        ChosenInRange(leg, b.tiers, node.fastestFee, j);
        PayloadFor(o.s.preimage, kind, b, AtLeast(tier, j));
      }
      OnlyAgain(o.s, role, kind, node, b, f);
      var j := PickTier(leg, b.tiers, 0, node.fastestFee);
      PickedIsChosen(leg, b.tiers, 0, node.fastestFee, j);
      ChosenInRange(leg, b.tiers, node.fastestFee, j);
      var tx :| Payload(o.s.preimage, kind, b, AtLeast(tier, j), tx);
      if node.testAccept(tx) {
        MovedFits(cfg, Aside(o.s, role, kind), o.s, role, kind, b, AtLeast(tier, j), node, now, tx,
                  Resend(cfg, o, role, kind, nodes, now).s);
      }
    }
  }

  lemma OnlyAgain(s: Swap, role: Role, kind: Kind, node: Node, b: Ladder, f: Funding)
    requires AgainDue(s, role, kind, node, b, f)
    ensures forall b', f' :: AgainDue(s, role, kind, node, b', f') ==> b' == b && f' == f
  {
    hide AgainDue;
    forall b', f' | AgainDue(s, role, kind, node, b', f') ensures b' == b && f' == f {
      AgainHas(s, role, kind, node, b, f);
      AgainHas(s, role, kind, node, b', f');
    }
  }

  /** A tick does not die while every stored ladder can be sent from. */
  lemma TickReturns(cfg: Config, s: Swap, nodes: Per<Node>, after: Per<Node>, now: nat)
    requires AllFit(s)
    ensures var o := Drive(cfg, s, nodes, after, now); o.ok && AllFit(o.s)
  {
    hide Attempt, Resend, AllFit, WatchtowerIdle;
    var a := Attempt(cfg, Done(s), Alice, Claim, nodes, now);
    FirstMoveFits(cfg, Done(s), Alice, Claim, nodes, now);
    var b := Attempt(cfg, a, Bob, Claim, nodes, now);
    FirstMoveFits(cfg, a, Bob, Claim, nodes, now);
    var c := Attempt(cfg, b, Alice, Refund, nodes, now);
    FirstMoveFits(cfg, b, Alice, Refund, nodes, now);
    var d := Attempt(cfg, c, Bob, Refund, nodes, now);
    FirstMoveFits(cfg, c, Bob, Refund, nodes, now);
    var e := Resend(cfg, d, Alice, Claim, after, now);
    ResendFits(cfg, d, Alice, Claim, after, now);
    var f := Resend(cfg, e, Bob, Claim, after, now);
    ResendFits(cfg, e, Bob, Claim, after, now);
    var g := Resend(cfg, f, Alice, Refund, after, now);
    ResendFits(cfg, f, Alice, Refund, after, now);
    ResendFits(cfg, g, Bob, Refund, after, now);
  }

  /** From any point of a run: a claim on the watchtower's record whose outpoint the node calls unspent again goes out
      again with the next tick, while no leg is short and the stored ladders can be sent from. */
  lemma DroppedClaimGoesAgain(cfg: Config, terms: Terms, events: seq<Event>, role: Role, b: Ladder, f: Funding,
                              nodes: Per<Node>, after: Per<Node>, now: nat)
    requires var s := Run(cfg, terms, events).s;
             && Watching(s) && AllFit(s) && (role, Claim) in s.wt && Has(s, role, Claim, b)
             && Deposited(s, LegOf(role, Claim), f) && NoneShort(s)
    requires after.Of(LegOf(role, Claim)).isUnspent(f.at)
    requires forall k, tx :: Payload(Run(cfg, terms, events + [WatchTick(nodes, after, now)]).s.preimage, Claim, b, k, tx) ==>
                               after.Of(LegOf(role, Claim)).testAccept(tx)
    ensures var h, h' := Run(cfg, terms, events), Run(cfg, terms, events + [WatchTick(nodes, after, now)]);
            h.log <= h'.log && Watched(h'.log[|h.log|..], role, Claim)
  {
    hide Run, Drive, AllFit, AgainGoes, Payload, Watched, Chosen, Has, Deposited, NoneShort, Watching, PickTier;
    var h, e := Run(cfg, terms, events), WatchTick(nodes, after, now);
    var s, leg := h.s, LegOf(role, Claim);
    OneTick(cfg, terms, events, nodes, after, now);
    var o := Drive(cfg, s, nodes, after, now);
    TickReturns(cfg, s, nodes, after, now);
    TickExactly(cfg, s, nodes, after, now, role, Claim);
    TickSecret(cfg, s, nodes, after, now);
    var t := Knowing(s, o.s.preimage);
    KnowingAgain(s, o.s.preimage, role, after, b, f);
    LadderIs(s, role, Claim, b);
    FitHere(s, role, Claim, b);
    var j := PickTier(leg, b.tiers, 0, after.Of(leg).fastestFee);
    PickedIsChosen(leg, b.tiers, 0, after.Of(leg).fastestFee, j);
    ChosenInRange(leg, b.tiers, after.Of(leg).fastestFee, j);
    PayloadFor(o.s.preimage, Claim, b, AtLeast(s.wt[(role, Claim)].tier, j));
    var tx :| Payload(o.s.preimage, Claim, b, AtLeast(s.wt[(role, Claim)].tier, j), tx);
    GoesAgain(t, role, after, b, f, j, tx);
  }

  lemma OneTick(cfg: Config, terms: Terms, events: seq<Event>, nodes: Per<Node>, after: Per<Node>, now: nat)
    ensures var h := Run(cfg, terms, events);
            var o := Drive(cfg, h.s, nodes, after, now);
            var h' := Run(cfg, terms, events + [WatchTick(nodes, after, now)]);
            h'.s == o.s && h'.log == h.log + o.log && h'.log[|h.log|..] == o.log
  {
    hide Drive;
    assert (events + [WatchTick(nodes, after, now)])[..|events|] == events;
  }

  lemma KnowingAgain(s: Swap, preimage: Option<bytes>, role: Role, nodes: Per<Node>, b: Ladder, f: Funding)
    requires (role, Claim) in s.wt && Has(s, role, Claim, b) && Deposited(s, LegOf(role, Claim), f) && NoneShort(s)
    requires nodes.Of(LegOf(role, Claim)).isUnspent(f.at)
    ensures AgainDue(Knowing(s, preimage), role, Claim, nodes.Of(LegOf(role, Claim)), b, f)
  {
  }

  lemma GoesAgain(s: Swap, role: Role, nodes: Per<Node>, b: Ladder, f: Funding, j: int, tx: bytes)
    requires (role, Claim) in s.wt && AgainDue(s, role, Claim, nodes.Of(LegOf(role, Claim)), b, f)
    requires Chosen(LegOf(role, Claim), b.tiers, 0, nodes.Of(LegOf(role, Claim)).fastestFee, j)
    requires Payload(s.preimage, Claim, b, AtLeast(s.wt[(role, Claim)].tier, j), tx) && nodes.Of(LegOf(role, Claim)).testAccept(tx)
    ensures AgainGoes(s, role, Claim, nodes)
  {
    hide AgainDue, Chosen, Payload;
  }

  /** A tick never loses the secret. */
  lemma TickSecret(cfg: Config, s: Swap, nodes: Per<Node>, after: Per<Node>, now: nat)
    ensures s.preimage.Some? ==> Drive(cfg, s, nodes, after, now).s.preimage == s.preimage
  {
    hide Drive;
    DriveKept(cfg, s, nodes, after, now);
  }
}
