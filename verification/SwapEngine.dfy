/** The coordinator's swap object: the operations of coordinator/swap.js as methods that update the record in place. */
module SwapEngine {
  import opened Bytes
  import opened Legs
  import opened SwapState
  import Deposit
  import Depth
  import Hex

  class LiveSwap {
    const cfg: Config
    const terms: Terms
    var state: State
    var hashText: Option<string>
    var party: ByRole<Option<Keys>>
    var plan: Option<Depth.Plan>
    var htlc: Option<Per<bytes>>
    var heights: Option<Per<nat>>
    var funding: Per<Option<Funding>>
    var short: Per<Option<Funding>>
    var preimage: Option<bytes>
    var broadcasts: map<(Leg, Kind), bytes>
    var wt: map<(Role, Kind), WtRecord>
    var finish: ByRole<Option<Bundle>>
    var tooLate: bool
    var refund: Option<Per<Refundable>>
    var fromConfirmedAt: Option<nat>
    var readyAt: Option<nat>
    var settledAt: Option<nat>
    var canceledBy: Option<Role>

    /** The record as a value. */
    function View(): Swap
      reads this
    {
      Swap(terms, state, hashText, party, plan, htlc, heights, funding, short, preimage, broadcasts, wt, finish,
           tooLate, refund, fromConfirmedAt, readyAt, settledAt, canceledBy)
    }

    constructor (cfg: Config, terms: Terms)
      ensures View() == Initial(terms) && this.cfg == cfg
    {
      this.cfg, this.terms := cfg, terms;
      state, hashText, party, plan, htlc, heights := Created, None, ByRole(None, None), None, None, None;
      funding, short, preimage := Per(None, None), Per(None, None), None;
      broadcasts, wt, finish := map[], map[], ByRole(None, None);
      tooLate, refund := false, None;
      fromConfirmedAt, readyAt, settledAt, canceledBy := None, None, None, None;
    }

    method CancelSwap(role: Role) returns (ok: bool)
      modifies this
      ensures View() == Cancel(old(View()), role).s && ok == Cancel(old(View()), role).ok
    {
      if funding.btc.Some? || funding.qbit.Some? || short.btc.Some? || short.qbit.Some? {
        return false;
      }
      if state == Canceled || Terminal(state) {
        return false;
      }
      canceledBy := Some(role);
      state := Canceled;
      return true;
    }

    /** The first-come lock: slot and hash are filled only while empty. */
    method Join(role: Role, keys: Keys, text: Option<string>)
      modifies this`hashText, this`party
      ensures View() == Joined(old(View()), role, keys, text)
    {
      if role == Alice && Given(text) && hashText.None? {
        hashText := text;
      }
      if party.Of(role).None? {
        party := party.With(role, Some(keys));
      }
    }

    /** The checks made before anything is written. */
    method TurnsDown(role: Role, keys: Keys, text: Option<string>) returns (refused: bool)
      ensures refused == SubmitRefused(View(), role, keys, text)
    {
      hide Hex.IsHex;
      if state == Canceled || (state != Created && state != Ready) {
        return true;
      }
      var existing := party.Of(role);
      if existing.Some? && (existing.value.btc != keys.btc || existing.value.qbit != keys.qbit) {
        return true;
      }
      if role == Alice && hashText.Some? && existing.None? && Given(text) && text != hashText {
        return true;
      }
      return role == Alice && Given(text) && !Hex.IsHex(text.value);
    }

    method SubmitParty(role: Role, keys: Keys, text: Option<string>, nodes: Per<Node>, now: nat) returns (ok: bool)
      modifies this
      ensures var o := SwapState.SubmitParty(cfg, old(View()), role, keys, text, nodes, now); View() == o.s && ok == o.ok
    {
      hide Derive, KeysAreHex, SubmitRefused, Joined;
      var refused := TurnsDown(role, keys, text);
      if refused {
        return false;
      }
      Join(role, keys, text);
      if party.alice.None? || party.bob.None? || hashText.None? {
        return true;
      }
      if !KeysAreHex(party.alice.value) || !KeysAreHex(party.bob.value) {
        return false;
      }
      ok := DeriveHtlcs(nodes, now);
    }

    method DeriveHtlcs(nodes: Per<Node>, now: nat) returns (ok: bool)
      requires hashText.Some? && party.alice.Some? && party.bob.Some?
      modifies this
      ensures var o := Derive(cfg, old(View()), nodes, now); View() == o.s && ok == o.ok
    {
      hide Script, PlanOf, Hex.Decode;
      if Hex.Decode(hashText.value).Err? {
        return false;
      }
      var made := PlanOf(cfg, View(), nodes);
      plan := Some(made);
      var from := Script(cfg, FROM, hashText.value, party.bob.value, party.alice.value, made.locktimes.Of(FROM));
      if from.Err? {
        return false;
      }
      var to := Script(cfg, TO, hashText.value, party.alice.value, party.bob.value, made.locktimes.Of(TO));
      if to.Err? {
        return false;
      }
      htlc := Some(Per(from.value, to.value));
      state := Ready;
      if readyAt.None? {
        readyAt := Some(now);
      }
      return true;
    }

    method SubmitFinish(role: Role, bundle: Bundle) returns (ok: bool)
      modifies this`finish
      ensures var o := SwapState.SubmitFinish(cfg, old(View()), role, bundle); View() == o.s && ok == o.ok
    {
      hide MarkersMissing;
      if bundle.refund.tiers == [] || (bundle.claim.Some? && bundle.claim.value.tiers == []) {
        return false;
      }
      if bundle.twin.Some? {
        var twin := bundle.twin.value;
        if !cfg.forkTwin {
          return false;
        }
        if twin.tiers == [] || twin.leg.None? || twin.fundLeg.None? || twin.leg == twin.fundLeg {
          return false;
        }
      }
      if bundle.claim.Some? && MarkersMissing(cfg, bundle.claim.value.leg, bundle.claim.value.tiers) {
        return false;
      }
      if bundle.twin.Some? && MarkersMissing(cfg, bundle.twin.value.leg, bundle.twin.value.tiers) {
        return false;
      }
      finish := finish.With(role, Some(bundle));
      return true;
    }

    // ------------------------------------------------------------------------
    // poll
    // ------------------------------------------------------------------------

    method DiscoverLeg(leg: Leg, node: Node)
      requires htlc.Some?
      modifies this`funding, this`short
      ensures View() == Discover(cfg, old(View()), leg, node)
    {
      hide Deposit.HtlcSpk, Need;
      var cur := funding.Of(leg);
      if cur.None? || cur.value.height.None? {
        var o := node.findOutput(Deposit.HtlcSpk(cfg.rules.Of(leg).family, cfg.sha, htlc.value.Of(leg)));
        if o.Some? && o.value.amount >= Need(terms, leg) {
          funding := funding.With(leg, Some(Seen(o.value)));
        } else if o.Some? {
          short := short.With(leg, Some(Seen(o.value)));
        } else if cur.Some? {
          funding := funding.With(leg, None);
        }
      }
    }

    method BackfillLeg(leg: Leg, node: Node)
      modifies this`preimage, this`broadcasts
      ensures View() == Backfill(cfg, old(View()), leg, node)
    {
      hide FindPreimage;
      var f := funding.Of(leg);
      if f.None? || !f.value.spent || (leg, Claim) in broadcasts || (leg, Refund) in broadcasts {
        return;
      }
      var txid := node.spendingTxid(f.value.at);
      if txid.None? {
        return;
      }
      var found := FindPreimage(cfg, hashText, node.witnessOf(txid.value));
      if found.Some? {
        if preimage.None? {
          preimage := found;
        }
        broadcasts := broadcasts[(leg, Claim) := txid.value];
      } else {
        broadcasts := broadcasts[(leg, Refund) := txid.value];
      }
    }

    method Recompute(p: Depth.Plan, nodes: Per<Node>, now: nat)
      modifies this`state, this`tooLate, this`fromConfirmedAt
      ensures View() == Regate(cfg, old(View()), p, nodes, now)
    {
      hide Buried, InTime;
      var from, to := funding.Of(FROM), funding.Of(TO);
      var fromBuried := Buried(cfg, FROM, from, p.targets.Of(FROM));
      if fromBuried && fromConfirmedAt.None? {
        fromConfirmedAt := Some(now);
      }
      if state != Claimed && state != Canceled && !Terminal(state) {
        var st := Ready;
        if from.Some? {
          st := FromFunded;
        }
        if to.Some? && !to.value.spent {
          var toReady := Buried(cfg, TO, to, p.targets.Of(TO));
          var inTime := InTime(cfg, p, nodes.Of(TO).height);
          tooLate := from.Some? && fromBuried && toReady && !inTime;
          st := if from.None? then ToFunded else if fromBuried && toReady && inTime then Claimable else Maturing;
          BuriedIsFunded(cfg, FROM, from, p.targets.Of(FROM));
        }
        state := st;
      }
    }

    method ObserveChains(nodes: Per<Node>)
      requires htlc.Some?
      modifies this`funding, this`short, this`preimage, this`broadcasts
      ensures View() == Observe(cfg, old(View()), nodes)
    {
      hide Discover, Backfill, MarkSpent, WithConfs;
      DiscoverLeg(Btc, nodes.btc);
      DiscoverLeg(Qbit, nodes.qbit);
      funding := Per(MarkSpent(funding.btc, nodes.btc), MarkSpent(funding.qbit, nodes.qbit));
      short := Per(MarkSpent(short.btc, nodes.btc), MarkSpent(short.qbit, nodes.qbit));
      BackfillLeg(Btc, nodes.btc);
      BackfillLeg(Qbit, nodes.qbit);
      funding := Per(WithConfs(funding.btc, nodes.btc.height), WithConfs(funding.qbit, nodes.qbit.height));
    }

    method Conclude(p: Depth.Plan, nodes: Per<Node>, now: nat)
      modifies this`state, this`tooLate, this`fromConfirmedAt, this`settledAt, this`refund
      ensures View() == Judge(cfg, old(View()), p, nodes, now)
    {
      hide Regate, RefundOf;
      Recompute(p, nodes, now);
      if preimage.Some? && IsSpent(funding.Of(TO)) && IsSpent(funding.Of(FROM)) && !Terminal(state) {
        state := Complete;
        settledAt := Some(now);
      }
      refund := Some(Per(RefundOf(View(), Btc, p, nodes.btc.height), RefundOf(View(), Qbit, p, nodes.qbit.height)));
    }

    method Poll(nodes: Per<Node>, now: nat) returns (ok: bool)
      modifies this
      ensures var o := SwapState.Poll(cfg, old(View()), nodes, now); View() == o.s && ok == o.ok
    {
      hide Observe, Judge;
      if state == Created || Terminal(state) {
        return true;
      }
      heights := Some(Per(nodes.btc.height, nodes.qbit.height));
      if htlc.None? {
        return false;
      }
      ObserveChains(nodes);
      if plan.None? {
        return false;
      }
      Conclude(plan.value, nodes, now);
      return true;
    }

    // ------------------------------------------------------------------------
    // Relaying
    // ------------------------------------------------------------------------

    method ApplyClaim(leg: Leg, txid: bytes, wit: seq<bytes>, now: nat)
      modifies this`broadcasts, this`funding, this`preimage, this`state, this`settledAt
      ensures View() == Effects(cfg, old(View()), leg, Claim, txid, wit, now)
    {
      hide FindPreimage, MarkedSpent, Per.With, Per.Of;
      broadcasts := broadcasts[(leg, Claim) := txid];
      var pre := FindPreimage(cfg, hashText, wit);
      if preimage.None? {
        preimage := pre;
      }
      funding := funding.With(leg, MarkedSpent(funding.Of(leg)));
      if leg == FROM {
        state := Complete;
        settledAt := Some(now);
      } else {
        state := Claimed;
      }
    }

    method ApplyRefund(leg: Leg, txid: bytes, wit: seq<bytes>, now: nat)
      modifies this`broadcasts, this`funding, this`short, this`state, this`settledAt
      ensures View() == Effects(cfg, old(View()), leg, Refund, txid, wit, now)
    {
      hide FindPreimage, MarkedSpent, Per.With, Per.Of;
      broadcasts := broadcasts[(leg, Refund) := txid];
      funding := funding.With(leg, MarkedSpent(funding.Of(leg)));
      short := short.With(leg, MarkedSpent(short.Of(leg)));
      state := Refunded;
      settledAt := Some(now);
    }

    method ApplyEffects(leg: Leg, kind: Kind, txid: bytes, wit: seq<bytes>, now: nat)
      modifies this`broadcasts, this`funding, this`short, this`preimage, this`state, this`settledAt
      ensures View() == Effects(cfg, old(View()), leg, kind, txid, wit, now)
    {
      hide Effects;
      if kind == Claim {
        ApplyClaim(leg, txid, wit, now);
      } else {
        ApplyRefund(leg, txid, wit, now);
      }
    }

    /** broadcast; `log` holds the relay, if there was one. */
    method Broadcast(leg: Leg, kind: Kind, tx: bytes, node: Node, now: nat) returns (ok: bool, ghost log: seq<Entry>)
      modifies this
      ensures var o := SwapState.Broadcast(cfg, old(View()), leg, kind, tx, node, now);
              View() == o.s && ok == o.ok && log == o.log
    {
      hide Effects, CarriesMarker, RelayGate;
      log := [];
      if kind == Claim && leg == TO {
        var safe := RelayGate(cfg, View());
        if !safe {
          return false, [];
        }
      }
      if kind != Refund && cfg.rules.Of(leg).replayOpReturn && !CarriesMarker(tx) {
        return false, [];
      }
      if !node.testAccept(tx) {
        return false, [];
      }
      var txid := node.broadcast(tx);
      log := [Entry(None, leg, kind, tx, node.witnessOf(txid), View())];
      ApplyEffects(leg, kind, txid, node.witnessOf(txid), now);
      ok := true;
    }

    // ------------------------------------------------------------------------
    // The watchtower
    // ------------------------------------------------------------------------

    /** wtBroadcast with wtSend. */
    method WtBroadcast(role: Role, kind: Kind, ladder: Ladder, tier: int, node: Node, now: nat) returns (ghost r: Sending, done: bool, threw: bool)
      modifies this
      ensures r == Send(cfg, old(View()), role, kind, ladder, tier, node, now)
      ensures done == r.Sent? && threw == r.Threw? && View() == if r.Sent? then r.s else old(View())
    {
      hide Effects, TierTx;
      r, done, threw := SwapState.Send(cfg, View(), role, kind, ladder, tier, node, now), false, false;
      var tx := TierTx(View(), kind, ladder, tier);
      if tx.Err? {
        threw := true;
      } else if node.testAccept(tx.value) {
        var leg := LegOf(role, kind);
        var txid := node.broadcast(tx.value);
        wt := wt[(role, kind) := WtRecord(txid, tier, HeightOf(View(), leg), now)];
        ApplyEffects(leg, kind, txid, node.witnessOf(txid), now);
        done := true;
      }
    }

    /** A first move of the watchtower, in a tick that is still alive. */
    method FirstMove(role: Role, kind: Kind, nodes: Per<Node>, now: nat, alive: bool, ghost log: seq<Entry>)
      returns (live: bool, ghost log': seq<Entry>)
      modifies this
      ensures Attempt(cfg, Outcome(old(View()), alive, log), role, kind, nodes, now) == Outcome(View(), live, log')
    {
      hide Send, PickTier, Fires;
      live, log' := alive, log;
      if alive && Fires(View(), role, kind) {
        FiresHasLadder(View(), role, kind);
        var leg := LegOf(role, kind);
        var ladder := LadderOf(View(), role, kind).value;
        var tier := PickTier(leg, ladder.tiers, 0, nodes.Of(leg).fastestFee);
        ghost var r;
        var done, threw;
        r, done, threw := WtBroadcast(role, kind, ladder, tier, nodes.Of(leg), now);
        live := !threw;
        log' := if r.Sent? then log + [r.entry] else log;
      }
    }

    method ResendMove(role: Role, kind: Kind, nodes: Per<Node>, now: nat, alive: bool, ghost log: seq<Entry>)
      returns (live: bool, ghost log': seq<Entry>)
      modifies this
      ensures Resend(cfg, Outcome(old(View()), alive, log), role, kind, nodes, now) == Outcome(View(), live, log')
    {
      hide Send, PickTier, Resends;
      live, log' := alive, log;
      var leg := LegOf(role, kind);
      if alive && Resends(View(), role, kind, nodes.Of(leg)) {
        ResendsHasRecord(View(), role, kind, nodes.Of(leg));
        var ladder := LadderOf(View(), role, kind).value;
        var rec := wt[(role, kind)];
        var tier := Depth.Max(rec.tier, PickTier(leg, ladder.tiers, 0, nodes.Of(leg).fastestFee));
        ghost var was := wt;
        wt := wt - {(role, kind)};
        ghost var r;
        var done, threw;
        r, done, threw := WtBroadcast(role, kind, ladder, tier, nodes.Of(leg), now);
        if !done && !threw {
          wt := wt[(role, kind) := rec];
          assert wt == was;
        }
        live := !threw;
        log' := if r.Sent? then log + [r.entry] else log;
      }
    }

    /** driveWatchtower: `ok` is false when a call in it threw; `log` lists what it relayed. */
    method DriveWatchtower(nodes: Per<Node>, after: Per<Node>, now: nat) returns (ok: bool, ghost log: seq<Entry>)
      modifies this
      ensures Drive(cfg, old(View()), nodes, after, now) == Outcome(View(), ok, log)
    {
      hide Attempt, Resend;
      ok, log := true, [];
      if htlc.None? || state == Created || state == Canceled || Terminal(state) {
        return;
      }
      ok, log := FirstMove(Alice, Claim, nodes, now, ok, log);
      ok, log := FirstMove(Bob, Claim, nodes, now, ok, log);
      ok, log := FirstMove(Alice, Refund, nodes, now, ok, log);
      ok, log := FirstMove(Bob, Refund, nodes, now, ok, log);
      ok, log := ResendMove(Alice, Claim, after, now, ok, log);
      ok, log := ResendMove(Bob, Claim, after, now, ok, log);
      ok, log := ResendMove(Alice, Refund, after, now, ok, log);
      ok, log := ResendMove(Bob, Refund, after, now, ok, log);
    }
  }

  lemma FiresHasLadder(s: Swap, role: Role, kind: Kind)
    requires Fires(s, role, kind)
    ensures LadderOf(s, role, kind).Some?
  {
  }

  lemma ResendsHasRecord(s: Swap, role: Role, kind: Kind, node: Node)
    requires Resends(s, role, kind, node)
    ensures LadderOf(s, role, kind).Some? && (role, kind) in s.wt
  {
  }

  lemma BuriedIsFunded(cfg: Config, leg: Leg, f: Option<Funding>, target: int)
    ensures Buried(cfg, leg, f, target) ==> f.Some?
  {
  }
}
