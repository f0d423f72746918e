/** Package-priced coin selection over the wallet's own spend graph (maker-bot/light/lightwallet.js). Feerates are
    real numbers, amounts and sizes whole. */
module LightWallet {
  import opened Bytes
  import opened Depth

  type Txid = string

  /** One of the wallet's own broadcasts that is not known to be confirmed. */
  datatype Pending = Pending(fee: nat, vsize: nat, parents: seq<Txid>)

  datatype Utxo = Utxo(txid: Txid, vout: nat, value: nat, confirmed: bool)

  /** Size model of a transaction: bytes per input, per output, and overhead. */
  datatype Vb = Vb(perIn: nat, perOut: nat, base: nat)

  type Graph = map<Txid, Pending>

  // ---------------------------------------------------------------------------
  // Reachability
  // ---------------------------------------------------------------------------

  /** From child to parent, through pending transactions only. */
  predicate IsPath(g: Graph, path: seq<Txid>) {
    && path != []
    && (forall i :: 0 <= i < |path| ==> path[i] in g)
    && forall i :: 0 <= i < |path| - 1 ==> path[i + 1] in g[path[i]].parents
  }

  ghost predicate Reaches(g: Graph, from: Txid, to: Txid) {
    exists path :: IsPath(g, path) && path[0] == from && path[|path| - 1] == to
  }

  lemma ReachesSelf(g: Graph, t: Txid)
    requires t in g
    ensures Reaches(g, t, t)
  {
    assert IsPath(g, [t]);
  }

  lemma ReachesFurther(g: Graph, from: Txid, parent: Txid, to: Txid)
    requires from in g && parent in g[from].parents && Reaches(g, parent, to)
    ensures Reaches(g, from, to)
  {
    var path :| IsPath(g, path) && path[0] == parent && path[|path| - 1] == to;
    var longer := [from] + path;
    forall i | 0 <= i < |longer| - 1 ensures longer[i + 1] in g[longer[i]].parents {
      if i > 0 {
        assert longer[i] == path[i - 1] && longer[i + 1] == path[i];
      }
    }
    assert IsPath(g, longer) && longer[0] == from && longer[|longer| - 1] == to;
  }

  /** Everything in the set has its pending parents in it too. */
  predicate Closed(g: Graph, seen: set<Txid>, except: set<Txid>) {
    forall t, p :: t in seen && t !in except && t in g && p in g[t].parents && p in g ==> p in seen
  }

  lemma {:induction false} ClosedContains(g: Graph, seen: set<Txid>, path: seq<Txid>)
    requires Closed(g, seen, {}) && IsPath(g, path) && path[0] in seen
    ensures path[|path| - 1] in seen
    decreases |path|
  {
    if |path| > 1 {
      var rest := path[1..];
      assert path[1] in g[path[0]].parents;
      assert IsPath(g, rest) by {
        forall i | 0 <= i < |rest| - 1 ensures rest[i + 1] in g[rest[i]].parents {
          assert rest[i] == path[i + 1] && rest[i + 1] == path[i + 2];
        }
      }
      ClosedContains(g, seen, rest);
    }
  }

  /** The wallet's own unconfirmed transactions that a set of inputs builds on. */
  ghost function Ancestors(g: Graph, us: seq<Utxo>): (anc: set<Txid>)
    ensures anc <= g.Keys
  {
    set t | t in g.Keys && exists u :: u in us && !u.confirmed && Reaches(g, u.txid, t)
  }

  // ---------------------------------------------------------------------------
  // Shortfalls
  // ---------------------------------------------------------------------------

  /** What a transaction lacks at the target rate, never negative. */
  function Shortfall(p: Pending, rate: real): (d: real)
    ensures d >= 0.0 && d >= Times(rate, p.vsize as real) - p.fee as real
    ensures d == 0.0 || d == Times(rate, p.vsize as real) - p.fee as real
  {
    var d := Times(rate, p.vsize as real) - p.fee as real;
    if d > 0.0 then d else 0.0
  }

  ghost function TotalShort(g: Graph, rate: real, anc: set<Txid>): real
    requires anc <= g.Keys
  {
    if anc == {} then 0.0
    else var t :| t in anc; Shortfall(g[t], rate) + TotalShort(g, rate, anc - {t})
  }

  lemma {:induction false} TotalShortLess(g: Graph, rate: real, anc: set<Txid>, t: Txid)
    requires anc <= g.Keys && t in anc
    ensures TotalShort(g, rate, anc) == Shortfall(g[t], rate) + TotalShort(g, rate, anc - {t})
    decreases anc
  {
    hide Shortfall;
    var first :| first in anc && TotalShort(g, rate, anc) == Shortfall(g[first], rate) + TotalShort(g, rate, anc - {first});
    if first != t {
      TotalShortLess(g, rate, anc - {first}, t);
      TotalShortLess(g, rate, anc - {t}, first);
      assert anc - {first} - {t} == anc - {t} - {first};
    }
  }

  /** Fees and sizes of a set of pending transactions. */
  ghost function TotalFee(g: Graph, s: set<Txid>): nat
    requires s <= g.Keys
  {
    if s == {} then 0 else var t :| t in s; g[t].fee + TotalFee(g, s - {t})
  }

  ghost function TotalSize(g: Graph, s: set<Txid>): nat
    requires s <= g.Keys
  {
    if s == {} then 0 else var t :| t in s; g[t].vsize + TotalSize(g, s - {t})
  }

  lemma {:induction false} TotalFeeLess(g: Graph, s: set<Txid>, t: Txid)
    requires s <= g.Keys && t in s
    ensures TotalFee(g, s) == g[t].fee + TotalFee(g, s - {t})
    decreases s
  {
    var first :| first in s && TotalFee(g, s) == g[first].fee + TotalFee(g, s - {first});
    if first != t {
      TotalFeeLess(g, s - {first}, t);
      TotalFeeLess(g, s - {t}, first);
      assert s - {first} - {t} == s - {t} - {first};
    }
  }

  lemma {:induction false} TotalSizeLess(g: Graph, s: set<Txid>, t: Txid)
    requires s <= g.Keys && t in s
    ensures TotalSize(g, s) == g[t].vsize + TotalSize(g, s - {t})
    decreases s
  {
    var first :| first in s && TotalSize(g, s) == g[first].vsize + TotalSize(g, s - {first});
    if first != t {
      TotalSizeLess(g, s - {first}, t);
      TotalSizeLess(g, s - {t}, first);
      assert s - {first} - {t} == s - {t} - {first};
    }
  }

  /** The ancestors' shortfalls cover what any part of them lacks: no rich one is made to pay for a poor one. */
  lemma {:induction false} ShortCoversPart(g: Graph, rate: real, anc: set<Txid>, part: set<Txid>)
    requires part <= anc <= g.Keys
    ensures TotalShort(g, rate, anc) >= Times(rate, TotalSize(g, part) as real) - TotalFee(g, part) as real
    ensures TotalShort(g, rate, anc) >= 0.0
    decreases anc
  {
    hide Shortfall, Times;
    if anc == {} {
      RateTimesZero(rate);
    } else {
      var t :| t in anc;
      TotalShortLess(g, rate, anc, t);
      ShortCoversPart(g, rate, anc - {t}, part - {t});
      if t in part {
        TotalFeeLess(g, part, t);
        TotalSizeLess(g, part, t);
        RateTimesSum(rate, g[t].vsize, TotalSize(g, part - {t}));
      } else {
        assert part - {t} == part;
      }
    }
  }

  lemma RateTimesZero(rate: real)
    ensures Times(rate, 0.0) == 0.0
  {
  }

  lemma RateTimesSum(rate: real, a: nat, b: nat)
    ensures Times(rate, (a + b) as real) == Times(rate, a as real) + Times(rate, b as real)
  {
  }

  // ---------------------------------------------------------------------------
  // The wallet
  // ---------------------------------------------------------------------------

  function TxSize(vb: Vb, inputs: nat, outputs: nat): nat {
    vb.base + vb.perIn * inputs + vb.perOut * outputs
  }

  function TotalValue(us: seq<Utxo>): nat {
    if us == [] then 0 else us[0].value + TotalValue(us[1..])
  }

  lemma {:induction false} TotalValueSnoc(us: seq<Utxo>, u: Utxo)
    ensures TotalValue(us + [u]) == TotalValue(us) + u.value
  {
    if us == [] {
      assert [] + [u] == [u];
    } else {
      assert (us + [u])[1..] == us[1..] + [u];
      TotalValueSnoc(us[1..], u);
    }
  }

  /** What the ancestors of a set of inputs lack at the target rate, rounded up. */
  ghost function Deficit(g: Graph, us: seq<Utxo>, rate: real): int {
    Ceil(TotalShort(g, rate, Ancestors(g, us)))
  }

  /** The fee the wallet wants on a set of inputs, given what their ancestors lack. */
  function WantedFee(vb: Vb, rate: real, inputs: nat, deficit: int): real {
    Times(rate, TxSize(vb, inputs, 2) as real) + deficit as real
  }

  /** The inputs pay for the amount and the fee they then need. */
  ghost predicate Covers(g: Graph, us: seq<Utxo>, amount: nat, rate: real, vb: Vb) {
    TotalValue(us) as real >= amount as real + WantedFee(vb, rate, |us|, Deficit(g, us, rate))
  }

  datatype Selection = Picked(picked: seq<Utxo>, fee: int, inVal: nat) | Insufficient(have: nat)

  class Wallet {
    var pending: Graph
    var spent: set<(Txid, nat)>

    constructor ()
      ensures pending == map[] && spent == {}
    {
      pending, spent := map[], {};
    }

    /** chainOf: grows `seen` by the pending transactions reachable from txid. Terminates on any graph. */
    method ChainOf(txid: Txid, seen: set<Txid>) returns (grown: set<Txid>)
      requires seen <= pending.Keys
      ensures seen <= grown <= pending.Keys && (txid in pending ==> txid in grown)
      ensures forall t :: t in grown && t !in seen ==> Reaches(pending, txid, t)
      ensures Closed(pending, grown, seen)
      decreases pending.Keys - seen
    {
      grown := seen;
      if txid in seen || txid !in pending {
        return;
      }
      grown := grown + {txid};
      ReachesSelf(pending, txid);
      var parents := pending[txid].parents;
      for i := 0 to |parents|
        invariant seen + {txid} <= grown <= pending.Keys
        invariant forall t :: t in grown && t !in seen ==> Reaches(pending, txid, t)
        invariant Closed(pending, grown, seen + {txid})
        invariant forall k :: 0 <= k < i && parents[k] in pending ==> parents[k] in grown
      {
        ghost var before := grown;
        grown := ChainOf(parents[i], grown);
        forall t | t in grown && t !in before ensures Reaches(pending, txid, t) {
          ReachesFurther(pending, txid, parents[i], t);
        }
      }
    }

    /** The ancestry of a set of inputs: exactly the pending transactions they reach. */
    method Ancestry(inputs: seq<Utxo>) returns (anc: set<Txid>)
      ensures anc == Ancestors(pending, inputs)
    {
      hide Closed, Ancestors;
      anc := {};
      NothingGathered(pending, inputs);
      for i := 0 to |inputs|
        invariant Gathered(pending, inputs, i, anc)
      {
        ghost var before := anc;
        if !inputs[i].confirmed {
          anc := ChainOf(inputs[i].txid, anc);
        }
        GatheredNext(pending, inputs, i, before, anc);
      }
      Complete(pending, inputs, anc);
    }

    /** ancestorDeficit: over exactly the unconfirmed own ancestors, in whatever order they are visited. */
    method AncestorDeficit(inputs: seq<Utxo>, rate: real) returns (d: int)
      ensures d == Deficit(pending, inputs, rate)
    {
      hide Shortfall, Ceil, Ancestors;
      var left := Ancestry(inputs);
      ghost var anc := left;
      var sum := 0.0;
      while left != {}
        invariant left <= anc
        invariant sum + TotalShort(pending, rate, left) == TotalShort(pending, rate, anc)
      {
        var t :| t in left;
        TotalShortLess(pending, rate, left, t);
        sum := sum + Shortfall(pending[t], rate);
        left := left - {t};
      }
      d := Ceil(sum);
    }

    /** select over coins already sorted by value, largest first: the shortest prefix that covers the amount and the
        fee it then needs. */
    method Select(sorted: seq<Utxo>, amount: nat, rate: real, vb: Vb) returns (s: Selection)
      ensures s.Picked? ==>
                && s.picked <= sorted && s.picked != [] && s.inVal == TotalValue(s.picked)
                && s.fee == Ceil(Times(rate, (vb.base + vb.perIn * |s.picked| + vb.perOut * 2) as real)
                                 + Deficit(pending, s.picked, rate) as real)
                && s.inVal >= amount + s.fee
                && forall k :: 0 < k < |s.picked| ==> !Covers(pending, sorted[..k], amount, rate, vb)
      ensures s.Insufficient? ==>
                s.have == TotalValue(sorted) && forall k :: 0 < k <= |sorted| ==> !Covers(pending, sorted[..k], amount, rate, vb)
    {
      hide Ceil, Times, TotalValue, Deficit;
      var picked: seq<Utxo> := [];
      var inVal := 0;
      NoValue();
      for i := 0 to |sorted|
        invariant picked == sorted[..i] && inVal == TotalValue(picked)
        invariant forall k :: 0 < k <= i ==> !Covers(pending, sorted[..k], amount, rate, vb)
      {
        TotalValueSnoc(picked, sorted[i]);
        picked := picked + [sorted[i]];
        assert picked == sorted[..i + 1];
        inVal := inVal + sorted[i].value;
        var d := AncestorDeficit(picked, rate);
        var fee := WantedFee(vb, rate, |picked|, d);
        if inVal as real >= amount as real + fee {
          CeilLeast(fee, inVal - amount);
          return Picked(picked, Ceil(fee), inVal);
        }
      }
      assert sorted[..|sorted|] == sorted;
      s := Insufficient(inVal);
    }

    /** track: the new transaction joins the graph, its inputs are taken. Whoever spends one of its outputs next
        builds on the transaction itself and on exactly what its inputs built on. */
    method Track(txid: Txid, fee: nat, vsize: nat, picked: seq<Utxo>)
      modifies this
      ensures pending == old(pending)[txid := Pending(fee, vsize, UnconfirmedOf(picked))]
      ensures spent == old(spent) + (set u | u in picked :: (u.txid, u.vout))
      ensures txid !in old(pending) ==>
                forall vout, value :: Ancestors(pending, [Utxo(txid, vout, value, false)]) == {txid} + Ancestors(old(pending), picked)
    {
      hide Ancestors;
      pending := pending[txid := Pending(fee, vsize, UnconfirmedOf(picked))];
      spent := spent + (set u | u in picked :: (u.txid, u.vout));
      if txid !in old(pending) {
        forall vout, value
          ensures Ancestors(pending, [Utxo(txid, vout, value, false)]) == {txid} + Ancestors(old(pending), picked)
        {
          TrackExtendsAncestry(old(pending), txid, fee, vsize, picked, vout, value);
        }
      }
    }
  }

  function UnconfirmedOf(us: seq<Utxo>): seq<Txid> {
    if us == [] then []
    else (if us[0].confirmed then [] else [us[0].txid]) + UnconfirmedOf(us[1..])
  }

  lemma NoValue()
    ensures TotalValue([]) == 0
  {
  }

  /** What the first i inputs' walks have gathered. */
  ghost predicate Gathered(g: Graph, inputs: seq<Utxo>, i: nat, anc: set<Txid>) {
    && i <= |inputs| && anc <= g.Keys && Closed(g, anc, {})
    && (forall t :: t in anc ==> exists u :: u in inputs && !u.confirmed && Reaches(g, u.txid, t))
    && (forall k :: 0 <= k < i && !inputs[k].confirmed && inputs[k].txid in g ==> inputs[k].txid in anc)
  }

  lemma NothingGathered(g: Graph, inputs: seq<Utxo>)
    ensures Gathered(g, inputs, 0, {})
  {
  }

  lemma ClosedJoin(g: Graph, small: set<Txid>, large: set<Txid>)
    requires small <= large && Closed(g, small, {}) && Closed(g, large, small)
    ensures Closed(g, large, {})
  {
  }

  lemma GatheredNext(g: Graph, inputs: seq<Utxo>, i: nat, before: set<Txid>, anc: set<Txid>)
    requires i < |inputs| && Gathered(g, inputs, i, before) && before <= anc <= g.Keys
    requires if inputs[i].confirmed then anc == before
             else
               && (inputs[i].txid in g ==> inputs[i].txid in anc)
               && (forall t :: t in anc && t !in before ==> Reaches(g, inputs[i].txid, t))
               && Closed(g, anc, before)
    ensures Gathered(g, inputs, i + 1, anc)
  {
    hide Closed, Reaches;
    if !inputs[i].confirmed {
      ClosedJoin(g, before, anc);
      assert inputs[i] in inputs;
    }
  }

  lemma Complete(g: Graph, inputs: seq<Utxo>, anc: set<Txid>)
    requires Gathered(g, inputs, |inputs|, anc)
    ensures anc == Ancestors(g, inputs)
  {
    forall u, t | u in inputs && !u.confirmed && Reaches(g, u.txid, t) ensures t in anc {
      var path :| IsPath(g, path) && path[0] == u.txid && path[|path| - 1] == t;
      var k :| 0 <= k < |inputs| && inputs[k] == u;
      ClosedContains(g, anc, path);
    }
  }

  // ---------------------------------------------------------------------------
  // A new transaction and what it builds on
  // ---------------------------------------------------------------------------

  lemma {:induction false} UnconfirmedIs(us: seq<Utxo>, t: Txid)
    ensures t in UnconfirmedOf(us) <==> exists u :: u in us && !u.confirmed && u.txid == t
  {
    if us != [] {
      UnconfirmedIs(us[1..], t);
      assert us == [us[0]] + us[1..];
    }
  }

  lemma ReachesInLarger(g: Graph, larger: Graph, from: Txid, to: Txid)
    requires Reaches(g, from, to) && forall t :: t in g ==> t in larger && larger[t] == g[t]
    ensures Reaches(larger, from, to)
  {
    var path :| IsPath(g, path) && path[0] == from && path[|path| - 1] == to;
    assert IsPath(larger, path);
  }

  lemma ReachesOn(g: Graph, from: Txid, to: Txid, parent: Txid)
    requires Reaches(g, from, to) && parent in g[to].parents && parent in g
    ensures Reaches(g, from, parent)
  {
    var path :| IsPath(g, path) && path[0] == from && path[|path| - 1] == to;
    var longer := path + [parent];
    forall i | 0 <= i < |longer| - 1 ensures longer[i + 1] in g[longer[i]].parents {
      if i < |path| - 1 {
        assert longer[i] == path[i] && longer[i + 1] == path[i + 1];
      }
    }
    assert IsPath(g, longer) && longer[0] == from && longer[|longer| - 1] == parent;
  }

  /** The new transaction's ancestors and itself have all their pending parents among them. */
  lemma TrackedClosed(g: Graph, txid: Txid, fee: nat, vsize: nat, picked: seq<Utxo>)
    requires txid !in g
    ensures Closed(g[txid := Pending(fee, vsize, UnconfirmedOf(picked))], {txid} + Ancestors(g, picked), {})
  {
    hide Reaches;
    var larger, seen := g[txid := Pending(fee, vsize, UnconfirmedOf(picked))], {txid} + Ancestors(g, picked);
    forall t, p | t in seen && t in larger && p in larger[t].parents && p in larger ensures p in seen {
      if p != txid {
        if t == txid {
          UnconfirmedIs(picked, p);
          ReachesSelf(g, p);
        } else {
          var u :| u in picked && !u.confirmed && Reaches(g, u.txid, t);
          ReachesOn(g, u.txid, t, p);
        }
      }
    }
  }

  lemma TrackedReaches(g: Graph, txid: Txid, fee: nat, vsize: nat, picked: seq<Utxo>, t: Txid)
    requires txid !in g && t in Ancestors(g, picked)
    ensures Reaches(g[txid := Pending(fee, vsize, UnconfirmedOf(picked))], txid, t)
  {
    hide Reaches;
    var larger := g[txid := Pending(fee, vsize, UnconfirmedOf(picked))];
    var u :| u in picked && !u.confirmed && Reaches(g, u.txid, t);
    UnconfirmedIs(picked, u.txid);
    ReachesInLarger(g, larger, u.txid, t);
    ReachesFurther(larger, txid, u.txid, t);
  }

  /** An output of a newly tracked transaction has as ancestors the transaction and the ancestors of its inputs. */
  lemma TrackExtendsAncestry(g: Graph, txid: Txid, fee: nat, vsize: nat, picked: seq<Utxo>, vout: nat, value: nat)
    requires txid !in g
    ensures Ancestors(g[txid := Pending(fee, vsize, UnconfirmedOf(picked))], [Utxo(txid, vout, value, false)])
         == {txid} + Ancestors(g, picked)
  {
    var larger, seen := g[txid := Pending(fee, vsize, UnconfirmedOf(picked))], {txid} + Ancestors(g, picked);
    var us := [Utxo(txid, vout, value, false)];
    assert us[0] in us;
    TrackedClosed(g, txid, fee, vsize, picked);
    ReachesSelf(larger, txid);
    forall t | t in larger && Reaches(larger, txid, t) ensures t in seen {
      var path :| IsPath(larger, path) && path[0] == txid && path[|path| - 1] == t;
      ClosedContains(larger, seen, path);
    }
    forall t | t in Ancestors(g, picked) ensures Reaches(larger, txid, t) {
      TrackedReaches(g, txid, fee, vsize, picked, t);
    }
  }

  // ---------------------------------------------------------------------------
  // The package pays its way
  // ---------------------------------------------------------------------------

  /** The fee that select picks makes the child, with one or two outputs, together with any part of its unconfirmed
      own ancestors pay at least the target rate; so the package still does after some of them confirm. */
  lemma PackagePays(g: Graph, vb: Vb, rate: real, picked: seq<Utxo>, part: set<Txid>, outputs: nat)
    requires part <= Ancestors(g, picked) && rate >= 0.0 && outputs <= 2
    ensures var fee := Ceil(WantedFee(vb, rate, |picked|, Deficit(g, picked, rate)));
            (fee + TotalFee(g, part)) as real >= Times(rate, (TxSize(vb, |picked|, outputs) + TotalSize(g, part)) as real)
  {
    hide Ceil, Times, TotalShort, TotalFee, TotalSize, TxSize, Ancestors;
    var anc, inputs := Ancestors(g, picked), |picked|;
    ShortCoversPart(g, rate, anc, part);
    CeilIs(TotalShort(g, rate, anc));
    CeilIs(WantedFee(vb, rate, inputs, Deficit(g, picked, rate)));
    RateTimesSum(rate, TxSize(vb, inputs, outputs), TotalSize(g, part));
    SmallerChild(vb, inputs, outputs);
    Commutes(rate, TxSize(vb, inputs, outputs) as real);
    Commutes(rate, TxSize(vb, inputs, 2) as real);
    Scale(TxSize(vb, inputs, outputs) as real, TxSize(vb, inputs, 2) as real, rate);
  }

  lemma SmallerChild(vb: Vb, inputs: nat, outputs: nat)
    requires outputs <= 2
    ensures TxSize(vb, inputs, outputs) <= TxSize(vb, inputs, 2)
  {
    assert vb.perOut * outputs <= vb.perOut * 2;
  }
}
