/** Taking a multi-maker fill: the makers' quotes and matches, updated in place (coordinator/rfq.js, takeFill, openLeg). */
module RfqDesk {
  import opened Bytes
  import opened Depth
  import opened Fees
  import opened Rfq

  datatype Match = Match(maker: string, side: Side, price: real, qbt: nat, btc: int)

  datatype Taken = Filled(legs: seq<Leg>, qbt: nat, btc: int, complete: bool) | NoLiquidity | PriceMoved | BadRequest

  /** One leg opened: the maker's remaining size goes down, never below zero. */
  function Opened(makers: map<string, Maker>, side: Side, leg: Leg): map<string, Maker> {
    if leg.maker in makers && SideOf(makers[leg.maker], side).Some? then
      var left := SideOf(makers[leg.maker], side).value.size - leg.qbt;
      makers[leg.maker := WithSize(makers[leg.maker], side, if left > 0 then left else 0)]
    else makers
  }

  function OpenedAll(makers: map<string, Maker>, side: Side, legs: seq<Leg>): map<string, Maker> {
    if legs == [] then makers else OpenedAll(Opened(makers, side, legs[0]), side, legs[1..])
  }

  function MatchesOf(side: Side, legs: seq<Leg>): seq<Match> {
    if legs == [] then []
    else [Match(legs[0].maker, side, legs[0].price, legs[0].qbt, legs[0].btc)] + MatchesOf(side, legs[1..])
  }

  /** The plan's volume-weighted price is worse than the limit, beyond the tolerance of one part in a billion. */
  predicate Worse(side: Side, qbt: nat, btc: int, limit: real)
    requires qbt > 0
  {
    var price := Ratio(btc as real, qbt as real);
    if side == Buy then price > Times(limit, 1.000000001) else price < Times(limit, 0.999999999)
  }

  /** The plan keeps to the limit: a buy costs at most the limit times its size and one part in a billion more, a sell
      yields at least that much less. */
  predicate WithinLimit(side: Side, qbt: nat, btc: int, limit: real) {
    if side == Buy then btc as real <= limit * qbt as real * 1.000000001
    else btc as real >= limit * qbt as real * 0.999999999
  }

  lemma WorseExactly(side: Side, qbt: nat, btc: int, limit: real)
    requires qbt > 0
    ensures Worse(side, qbt, btc, limit) <==> !WithinLimit(side, qbt, btc, limit)
  {
    hide Ratio, Times;
    var x, y := btc as real, qbt as real;
    var price := Ratio(x, y);
    var bound := if side == Buy then Times(limit, 1.000000001) else Times(limit, 0.999999999);
    RatioTimes(x, y);
    Divided(price, y, bound);
    Divided(bound, y, price);
    Reordered(limit, y, if side == Buy then 1.000000001 else 0.999999999);
  }

  lemma Reordered(a: real, b: real, c: real)
    ensures Times(Times(a, c), b) == a * b * c
  {
    assert (a * c) * b == a * (c * b) == a * (b * c) == (a * b) * c;
  }

  class Desk {
    const names: seq<string>
    var makers: map<string, Maker>
    var matches: seq<Match>

    constructor (names: seq<string>, makers: map<string, Maker>)
      ensures this.names == names && this.makers == makers && matches == []
    {
      this.names, this.makers, matches := names, makers, [];
    }

    /** The live quotes on a side, best price first. */
    function Book(side: Side): seq<Slot>
      reads this
    {
      Rank(side, LiveSides(names, makers, side))
    }

    /** openLeg, every createSwap succeeding. */
    method OpenLeg(side: Side, leg: Leg)
      modifies this
      ensures makers == Opened(old(makers), side, leg)
      ensures matches == old(matches) + [Match(leg.maker, side, leg.price, leg.qbt, leg.btc)]
    {
      if leg.maker in makers && SideOf(makers[leg.maker], side).Some? {
        var m := makers[leg.maker];
        var left := SideOf(m, side).value.size - leg.qbt;
        makers := makers[leg.maker := WithSize(m, side, if left > 0 then left else 0)];
      }
      matches := matches + [Match(leg.maker, side, leg.price, leg.qbt, leg.btc)];
    }

    method OpenLegs(side: Side, legs: seq<Leg>)
      modifies this
      ensures makers == OpenedAll(old(makers), side, legs)
      ensures matches == old(matches) + MatchesOf(side, legs)
    {
      hide Opened;
      var i := 0;
      assert legs[0..] == legs;
      while i < |legs|
        invariant 0 <= i <= |legs|
        invariant OpenedAll(old(makers), side, legs) == OpenedAll(makers, side, legs[i..])
        invariant old(matches) + MatchesOf(side, legs) == matches + MatchesOf(side, legs[i..])
      {
        assert legs[i..][0] == legs[i] && legs[i..][1..] == legs[i + 1..];
        OpenLeg(side, legs[i]);
        i := i + 1;
      }
    }

    /** takeFill: a limit price and an amount are needed; plan now, hold the plan to the limit, then open every leg. */
    method TakeFill(l: Limits, r: Request, limit: real) returns (t: Taken)
      requires Priced(Book(r.side))
      modifies this
      ensures t == BadRequest <==> limit <= 0.0 || (r.qbt == 0 && r.btc == 0)
      ensures t.Filled? && t.qbt > 0 ==> WithinLimit(r.side, t.qbt, t.btc, limit)
      ensures var f := FillAll(l, r, old(Book(r.side)));
              var legs := PlanLegs(old(Book(r.side)), f);
              && t == (if limit <= 0.0 || (r.qbt == 0 && r.btc == 0) then BadRequest
                       else if legs == [] then NoLiquidity
                       else if TotalQbt(f) > 0 && Worse(r.side, TotalQbt(f), TotalBtc(f), limit) then PriceMoved
                       else Filled(legs, TotalQbt(f), TotalBtc(f), Complete(r, TotalQbt(f), TotalBtc(f))))
              && makers == (if t.Filled? then OpenedAll(old(makers), r.side, legs) else old(makers))
              && matches == (if t.Filled? then old(matches) + MatchesOf(r.side, legs) else old(matches))
    {
      hide Fill, FillAll, PlanLegs, TotalQbt, TotalBtc, Rank, LiveSides, OpenedAll, MatchesOf, Worse, Priced, WithinLimit;
      if !(limit > 0.0) || (r.qbt == 0 && r.btc == 0) {
        return BadRequest;
      }
      var legs, gotQbt, gotBtc, complete := PlanFill(l, r, Book(r.side));
      if legs == [] {
        return NoLiquidity;
      }
      if gotQbt > 0 {
        WorseExactly(r.side, gotQbt, gotBtc, limit);
      }
      if gotQbt > 0 && Worse(r.side, gotQbt, gotBtc, limit) {
        return PriceMoved;
      }
      OpenLegs(r.side, legs);
      t := Filled(legs, gotQbt, gotBtc, complete);
    }
  }

  /** One match for each leg, for its maker, on its side and with its amounts, in the same order. */
  lemma {:induction false} MatchesExactly(side: Side, legs: seq<Leg>, i: nat)
    ensures |MatchesOf(side, legs)| == |legs|
    ensures i < |legs| ==>
              var x := MatchesOf(side, legs)[i];
              && x.maker == legs[i].maker && x.side == side && x.price == legs[i].price
              && x.qbt == legs[i].qbt && x.btc == legs[i].btc
  {
    if legs != [] {
      MatchesExactly(side, legs[1..], if i > 0 then i - 1 else 0);
    }
  }

  // ---------------------------------------------------------------------------
  // The book pays out exactly the plan
  // ---------------------------------------------------------------------------

  predicate Distinct(names: seq<string>) {
    forall i, j :: 0 <= i < j < |names| ==> names[i] != names[j]
  }

  function SizeOn(makers: map<string, Maker>, name: string, side: Side): nat {
    if name in makers && SideOf(makers[name], side).Some? then SideOf(makers[name], side).value.size else 0
  }

  /** Everything quoted on a side. */
  function BookSize(names: seq<string>, makers: map<string, Maker>, side: Side): nat {
    if names == [] then 0 else SizeOn(makers, names[0], side) + BookSize(names[1..], makers, side)
  }

  function LegMakers(legs: seq<Leg>): seq<string> {
    seq(|legs|, i requires 0 <= i < |legs| => legs[i].maker)
  }

  function Sold(legs: seq<Leg>, name: string): nat {
    if legs == [] then 0 else (if legs[0].maker == name then legs[0].qbt else 0) + Sold(legs[1..], name)
  }

  function LegsQbt(legs: seq<Leg>): nat {
    if legs == [] then 0 else legs[0].qbt + LegsQbt(legs[1..])
  }

  /** Each leg is covered by its own maker's quote. */
  predicate Backed(names: seq<string>, makers: map<string, Maker>, side: Side, legs: seq<Leg>) {
    && Distinct(LegMakers(legs))
    && forall i :: 0 <= i < |legs| ==>
         && legs[i].maker in names && legs[i].maker in makers && SideOf(makers[legs[i].maker], side).Some?
         && legs[i].qbt <= SizeOn(makers, legs[i].maker, side)
  }

  predicate OnlySizeChanged(a: Maker, b: Maker, side: Side) {
    && b.serving == a.serving
    && (if side == Buy then b.bid == a.bid else b.ask == a.ask)
    && (SideOf(a, side).Some? <==> SideOf(b, side).Some?)
    && (SideOf(a, side).Some? ==> SideOf(b, side).value.price == SideOf(a, side).value.price)
  }

  lemma {:induction false} NotSold(legs: seq<Leg>, name: string)
    requires forall i :: 0 <= i < |legs| ==> legs[i].maker != name
    ensures Sold(legs, name) == 0
  {
    if legs != [] {
      NotSold(legs[1..], name);
    }
  }

  lemma BackedTail(names: seq<string>, makers: map<string, Maker>, side: Side, legs: seq<Leg>)
    requires Backed(names, makers, side, legs) && legs != []
    ensures Backed(names, Opened(makers, side, legs[0]), side, legs[1..])
    ensures forall i :: 0 <= i < |legs[1..]| ==> legs[1..][i].maker != legs[0].maker
  {
    forall i | 0 <= i < |legs| - 1 ensures legs[1..][i].maker != legs[0].maker {
      assert LegMakers(legs)[0] == legs[0].maker && LegMakers(legs)[i + 1] == legs[i + 1].maker;
    }
    forall i, j | 0 <= i < j < |legs| - 1 ensures LegMakers(legs[1..])[i] != LegMakers(legs[1..])[j] {
      assert LegMakers(legs)[i + 1] != LegMakers(legs)[j + 1];
    }
    forall i | 0 <= i < |legs| - 1
      ensures var m := Opened(makers, side, legs[0]); var leg := legs[1..][i];
              leg.maker in names && leg.maker in m && SideOf(m[leg.maker], side).Some? && leg.qbt <= SizeOn(m, leg.maker, side)
    {
      assert legs[1..][i] == legs[i + 1];
    }
  }

  /** A covered fill takes from each quote exactly its slice, and changes nothing else. */
  lemma {:induction false} EachPaysItsSlice(names: seq<string>, makers: map<string, Maker>, side: Side, legs: seq<Leg>, name: string)
    requires Backed(names, makers, side, legs) && name in makers
    ensures var after := OpenedAll(makers, side, legs);
            && after.Keys == makers.Keys
            && OnlySizeChanged(makers[name], after[name], side)
            && Sold(legs, name) <= SizeOn(makers, name, side)
            && SizeOn(after, name, side) == SizeOn(makers, name, side) - Sold(legs, name)
    decreases |legs|
  {
    hide Backed;
    if legs != [] {
      var leg := legs[0];
      var next := Opened(makers, side, leg);
      HeadBacked(names, makers, side, legs);
      BackedTail(names, makers, side, legs);
      EachPaysItsSlice(names, next, side, legs[1..], name);
      if name == leg.maker {
        NotSold(legs[1..], name);
      }
    }
  }

  lemma HeadBacked(names: seq<string>, makers: map<string, Maker>, side: Side, legs: seq<Leg>)
    requires Backed(names, makers, side, legs) && legs != []
    ensures legs[0].maker in names && legs[0].maker in makers && SideOf(makers[legs[0].maker], side).Some?
            && legs[0].qbt <= SizeOn(makers, legs[0].maker, side)
  {
  }

  lemma {:induction false} OpenedShrinks(names: seq<string>, makers: map<string, Maker>, side: Side, leg: Leg)
    requires Distinct(names) && leg.maker in names && leg.maker in makers && SideOf(makers[leg.maker], side).Some?
    requires leg.qbt <= SizeOn(makers, leg.maker, side)
    ensures BookSize(names, Opened(makers, side, leg), side) == BookSize(names, makers, side) - leg.qbt
  {
    var rest := names[1..];
    assert Distinct(rest) by {
      forall i, j | 0 <= i < j < |rest| ensures rest[i] != rest[j] {
        assert rest[i] == names[i + 1] && rest[j] == names[j + 1];
      }
    }
    if names[0] == leg.maker {
      assert leg.maker !in rest;
      OthersUnchanged(rest, makers, side, leg);
    } else {
      OpenedShrinks(rest, makers, side, leg);
    }
  }

  lemma {:induction false} OthersUnchanged(names: seq<string>, makers: map<string, Maker>, side: Side, leg: Leg)
    requires leg.maker !in names
    ensures BookSize(names, Opened(makers, side, leg), side) == BookSize(names, makers, side)
  {
    if names != [] {
      OthersUnchanged(names[1..], makers, side, leg);
    }
  }

  lemma {:induction false} AllPayTheTotal(names: seq<string>, makers: map<string, Maker>, side: Side, legs: seq<Leg>)
    requires Distinct(names) && Backed(names, makers, side, legs)
    ensures BookSize(names, OpenedAll(makers, side, legs), side) == BookSize(names, makers, side) - LegsQbt(legs)
    decreases |legs|
  {
    hide Backed, Opened;
    if legs != [] {
      HeadBacked(names, makers, side, legs);
      BackedTail(names, makers, side, legs);
      OpenedShrinks(names, makers, side, legs[0]);
      AllPayTheTotal(names, Opened(makers, side, legs[0]), side, legs[1..]);
    }
  }

  // ---------------------------------------------------------------------------
  // The plan's legs are backed
  // ---------------------------------------------------------------------------

  function Makers(slots: seq<Slot>): seq<string> {
    seq(|slots|, i requires 0 <= i < |slots| => slots[i].maker)
  }

  predicate Quoting(names: seq<string>, makers: map<string, Maker>, side: Side, slot: Slot) {
    && slot.maker in names && slot.maker in makers && SideOf(makers[slot.maker], side).Some?
    && SideOf(makers[slot.maker], side).value == Quoted(slot.price, slot.size)
  }

  lemma {:induction false} LiveSidesQuote(names: seq<string>, makers: map<string, Maker>, side: Side)
    requires Distinct(names)
    ensures var slots := LiveSides(names, makers, side);
            (forall i :: 0 <= i < |slots| ==> Quoting(names, makers, side, slots[i])) && Distinct(Makers(slots))
  {
    if names != [] {
      var rest := names[1..];
      forall i, j | 0 <= i < j < |rest| ensures rest[i] != rest[j] {
        assert rest[i] == names[i + 1] && rest[j] == names[j + 1];
      }
      LiveSidesQuote(rest, makers, side);
      var tail := LiveSides(rest, makers, side);
      var slots := LiveSides(names, makers, side);
      NamesGrow(names, makers, side, tail);
      if slots != tail {
        FirstDistinct(names, slots, tail);
      }
    }
  }

  lemma NamesGrow(names: seq<string>, makers: map<string, Maker>, side: Side, slots: seq<Slot>)
    requires names != [] && forall i :: 0 <= i < |slots| ==> Quoting(names[1..], makers, side, slots[i])
    ensures forall i :: 0 <= i < |slots| ==> Quoting(names, makers, side, slots[i]) && slots[i].maker in names[1..]
  {
  }

  lemma FirstDistinct(names: seq<string>, slots: seq<Slot>, tail: seq<Slot>)
    requires Distinct(names) && names != [] && |slots| > 0 && slots == [slots[0]] + tail && slots[0].maker == names[0]
    requires Distinct(Makers(tail)) && forall i :: 0 <= i < |tail| ==> tail[i].maker in names[1..]
    ensures Distinct(Makers(slots))
  {
    forall i, j | 0 <= i < j < |slots| ensures Makers(slots)[i] != Makers(slots)[j] {
      assert slots[j] == tail[j - 1];
      if i == 0 {
        assert tail[j - 1].maker in names[1..];
      } else {
        assert slots[i] == tail[i - 1] && Makers(tail)[i - 1] != Makers(tail)[j - 1];
      }
    }
  }

  lemma {:induction false} InsertKeepsDistinct(side: Side, s: Slot, ranked: seq<Slot>)
    requires Distinct(Makers(ranked)) && forall i :: 0 <= i < |ranked| ==> ranked[i].maker != s.maker
    ensures Distinct(Makers(Insert(side, s, ranked)))
    ensures forall x :: x in Insert(side, s, ranked) <==> x == s || x in ranked
  {
    hide Key;
    var all := Insert(side, s, ranked);
    if ranked == [] || Key(side, s.price) <= Key(side, ranked[0].price) {
      ConsDistinct(s, ranked);
    } else {
      DistinctTail(ranked);
      InsertKeepsDistinct(side, s, ranked[1..]);
      var rest := Insert(side, s, ranked[1..]);
      assert ranked == [ranked[0]] + ranked[1..];
      forall i | 0 <= i < |rest| ensures rest[i].maker != ranked[0].maker {
        assert rest[i] in rest;
        if rest[i] != s {
          var k :| 0 <= k < |ranked[1..]| && ranked[1..][k] == rest[i];
          assert Makers(ranked)[0] != Makers(ranked)[k + 1];
        }
      }
      ConsDistinct(ranked[0], rest);
    }
  }

  lemma ConsDistinct(s: Slot, rest: seq<Slot>)
    requires Distinct(Makers(rest)) && forall i :: 0 <= i < |rest| ==> rest[i].maker != s.maker
    ensures Distinct(Makers([s] + rest))
  {
    var all := [s] + rest;
    forall i, j | 0 <= i < j < |all| ensures Makers(all)[i] != Makers(all)[j] {
      assert all[j] == rest[j - 1];
      if i > 0 {
        assert all[i] == rest[i - 1] && Makers(rest)[i - 1] != Makers(rest)[j - 1];
      }
    }
  }

  lemma DistinctTail(slots: seq<Slot>)
    requires Distinct(Makers(slots)) && slots != []
    ensures Distinct(Makers(slots[1..])) && forall i :: 0 <= i < |slots[1..]| ==> slots[1..][i].maker != slots[0].maker
  {
    var rest := slots[1..];
    forall i, j | 0 <= i < j < |rest| ensures Makers(rest)[i] != Makers(rest)[j] {
      assert Makers(slots)[i + 1] != Makers(slots)[j + 1];
    }
    forall i | 0 <= i < |rest| ensures rest[i].maker != slots[0].maker {
      assert Makers(slots)[0] != Makers(slots)[i + 1];
    }
  }

  lemma {:induction false} RankKeepsDistinct(side: Side, slots: seq<Slot>)
    requires Distinct(Makers(slots))
    ensures Distinct(Makers(Rank(side, slots))) && forall x :: x in Rank(side, slots) <==> x in slots
  {
    hide Insert;
    if slots != [] {
      DistinctTail(slots);
      RankKeepsDistinct(side, slots[1..]);
      var rest := Rank(side, slots[1..]);
      forall i | 0 <= i < |rest| ensures rest[i].maker != slots[0].maker {
        assert rest[i] in slots[1..];
      }
      InsertKeepsDistinct(side, slots[0], rest);
      assert slots == [slots[0]] + slots[1..];
    }
  }

  /** Some quote of the same maker is large enough for the leg. */
  predicate Covered(ranked: seq<Slot>, leg: Leg) {
    exists k :: 0 <= k < |ranked| && ranked[k].maker == leg.maker && leg.qbt <= ranked[k].size
  }

  lemma CoveredByTail(ranked: seq<Slot>, leg: Leg)
    requires ranked != [] && Distinct(Makers(ranked)) && Covered(ranked[1..], leg)
    ensures Covered(ranked, leg) && leg.maker != ranked[0].maker
  {
    DistinctTail(ranked);
    var k :| 0 <= k < |ranked| - 1 && ranked[1..][k].maker == leg.maker && leg.qbt <= ranked[1..][k].size;
    assert ranked[k + 1] == ranked[1..][k];
  }

  lemma ConsLegs(leg: Leg, rest: seq<Leg>)
    requires Distinct(LegMakers(rest)) && forall i :: 0 <= i < |rest| ==> rest[i].maker != leg.maker
    ensures Distinct(LegMakers([leg] + rest))
  {
    var all := [leg] + rest;
    var names := LegMakers(all);
    forall i, j | 0 <= i < j < |names| ensures names[i] != names[j] {
      assert names[j] == rest[j - 1].maker;
      if i > 0 {
        assert LegMakers(rest)[i - 1] == rest[i - 1].maker && LegMakers(rest)[j - 1] == rest[j - 1].maker;
        assert names[i] == rest[i - 1].maker;
      }
    }
  }

  lemma ConsQbt(leg: Leg, rest: seq<Leg>)
    ensures LegsQbt([leg] + rest) == leg.qbt + LegsQbt(rest)
  {
    assert ([leg] + rest)[1..] == rest;
  }

  lemma SizesOfTail(ranked: seq<Slot>, slices: seq<Slice>)
    requires WithinSizes(ranked, slices) && ranked != []
    ensures slices[0].qbt <= ranked[0].size && WithinSizes(ranked[1..], slices[1..])
  {
    assert forall i :: 0 <= i < |ranked| - 1 ==> slices[1..][i] == slices[i + 1] && ranked[1..][i] == ranked[i + 1];
  }

  /** The legs of a plan come from distinct quotes, each within its size. */
  lemma {:induction false} LegsFromSlots(ranked: seq<Slot>, slices: seq<Slice>)
    requires WithinSizes(ranked, slices) && Distinct(Makers(ranked))
    ensures var legs := PlanLegs(ranked, slices);
            && LegsQbt(legs) == TotalQbt(slices)
            && Distinct(LegMakers(legs))
            && forall i :: 0 <= i < |legs| ==> Covered(ranked, legs[i])
  {
    hide Covered, Distinct, LegMakers, Makers;
    if ranked == [] {
      NoLegs();
    } else {
      DistinctTail(ranked);
      SizesOfTail(ranked, slices);
      LegsFromSlots(ranked[1..], slices[1..]);
      var rest := PlanLegs(ranked[1..], slices[1..]);
      forall i | 0 <= i < |rest| ensures Covered(ranked, rest[i]) && rest[i].maker != ranked[0].maker {
        CoveredByTail(ranked, rest[i]);
      }
      if slices[0].taken {
        var own := Leg(ranked[0].maker, ranked[0].price, slices[0].qbt, slices[0].btc);
        ConsLegs(own, rest);
        ConsQbt(own, rest);
        CoveredByFirst(ranked, own);
      } else {
        assert PlanLegs(ranked, slices) == rest;
      }
    }
  }

  lemma NoLegs()
    ensures Distinct(LegMakers([])) && LegsQbt([]) == 0
  {
  }

  lemma CoveredByFirst(ranked: seq<Slot>, leg: Leg)
    requires ranked != [] && leg.maker == ranked[0].maker && leg.qbt <= ranked[0].size
    ensures Covered(ranked, leg)
  {
  }

  lemma PlanIsBacked(l: Limits, r: Request, names: seq<string>, makers: map<string, Maker>)
    requires Distinct(names) && Priced(Rank(r.side, LiveSides(names, makers, r.side)))
    ensures var ranked := Rank(r.side, LiveSides(names, makers, r.side));
            var legs := PlanLegs(ranked, FillAll(l, r, ranked));
            Backed(names, makers, r.side, legs) && LegsQbt(legs) == TotalQbt(FillAll(l, r, ranked))
  {
    hide Rank, LiveSides, Fill, PlanLegs;
    var slots := LiveSides(names, makers, r.side);
    var ranked := Rank(r.side, slots);
    LiveSidesQuote(names, makers, r.side);
    RankKeepsDistinct(r.side, slots);
    PlanBounds(l, r, ranked);
    LegsFromSlots(ranked, FillAll(l, r, ranked));
    var legs := PlanLegs(ranked, FillAll(l, r, ranked));
    forall i | 0 <= i < |legs|
      ensures legs[i].maker in names && legs[i].maker in makers && SideOf(makers[legs[i].maker], r.side).Some?
              && legs[i].qbt <= SizeOn(makers, legs[i].maker, r.side)
    {
      var k :| 0 <= k < |ranked| && ranked[k].maker == legs[i].maker && legs[i].qbt <= ranked[k].size;
      assert ranked[k] in slots;
      var j :| 0 <= j < |slots| && slots[j] == ranked[k];
      assert Quoting(names, makers, r.side, slots[j]);
    }
  }

  /** What takeFill does to the book: every quote on the side goes down by exactly its own slice, never below zero,
      nothing else about any maker changes, and the side as a whole goes down by exactly the plan's total. */
  lemma FillConservesBook(l: Limits, r: Request, names: seq<string>, makers: map<string, Maker>)
    requires Distinct(names) && Priced(Rank(r.side, LiveSides(names, makers, r.side)))
    ensures var ranked := Rank(r.side, LiveSides(names, makers, r.side));
            var legs := PlanLegs(ranked, FillAll(l, r, ranked));
            var after := OpenedAll(makers, r.side, legs);
            && after.Keys == makers.Keys
            && (forall name :: name in makers ==>
                  && OnlySizeChanged(makers[name], after[name], r.side)
                  && Sold(legs, name) <= SizeOn(makers, name, r.side)
                  && SizeOn(after, name, r.side) == SizeOn(makers, name, r.side) - Sold(legs, name))
            && BookSize(names, after, r.side) == BookSize(names, makers, r.side) - TotalQbt(FillAll(l, r, ranked))
  {
    hide Rank, LiveSides, Fill, PlanLegs, OpenedAll, Sold, SizeOn, BookSize, Backed, OnlySizeChanged;
    var ranked := Rank(r.side, LiveSides(names, makers, r.side));
    var legs := PlanLegs(ranked, FillAll(l, r, ranked));
    PlanIsBacked(l, r, names, makers);
    forall name | name in makers
      ensures OpenedAll(makers, r.side, legs).Keys == makers.Keys
      ensures OnlySizeChanged(makers[name], OpenedAll(makers, r.side, legs)[name], r.side)
      ensures Sold(legs, name) <= SizeOn(makers, name, r.side)
      ensures SizeOn(OpenedAll(makers, r.side, legs), name, r.side) == SizeOn(makers, name, r.side) - Sold(legs, name)
    {
      EachPaysItsSlice(names, makers, r.side, legs, name);
    }
    AllPayTheTotal(names, makers, r.side, legs);
    SameMakers(names, makers, r.side, legs);
  }

  lemma {:induction false} SameMakers(names: seq<string>, makers: map<string, Maker>, side: Side, legs: seq<Leg>)
    requires Backed(names, makers, side, legs)
    ensures OpenedAll(makers, side, legs).Keys == makers.Keys
    decreases |legs|
  {
    hide Backed;
    if legs != [] {
      BackedTail(names, makers, side, legs);
      SameMakers(names, Opened(makers, side, legs[0]), side, legs[1..]);
    }
  }
}
