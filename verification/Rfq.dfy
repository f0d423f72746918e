/** Routing a request over the makers' standing quotes (coordinator/rfq.js). Prices are real numbers, BTC per QBT. */
module Rfq {
  import opened Bytes
  import opened Depth
  import opened Fees

  datatype Side = Buy | Sell

  datatype Quoted = Quoted(price: real, size: nat)

  /** `serving`: the quote is within its lifetime and the maker is not suspended. */
  datatype Maker = Maker(bid: Option<Quoted>, ask: Option<Quoted>, serving: bool)

  function SideOf(m: Maker, side: Side): Option<Quoted> {
    if side == Buy then m.ask else m.bid
  }

  function WithSize(m: Maker, side: Side, size: nat): Maker
    requires SideOf(m, side).Some?
  {
    if side == Buy then m.(ask := Some(m.ask.value.(size := size))) else m.(bid := Some(m.bid.value.(size := size)))
  }

  /** One maker's live quote on the side asked for. */
  datatype Slot = Slot(maker: string, price: real, size: nat)

  /** Minimum swap sizes and the fee policy of the moment. */
  datatype Limits = Limits(minQbt: nat, minBtc: nat, fees: Policy)

  /** The floored amounts; zero means not given. */
  datatype Request = Request(side: Side, qbt: nat, btc: nat)

  // ---------------------------------------------------------------------------
  // The book, best price first
  // ---------------------------------------------------------------------------

  /** liveSides, makers in the order they were configured. */
  function LiveSides(names: seq<string>, makers: map<string, Maker>, side: Side): seq<Slot> {
    if names == [] then []
    else
      var rest := LiveSides(names[1..], makers, side);
      if names[0] in makers && makers[names[0]].serving && SideOf(makers[names[0]], side).Some?
         && SideOf(makers[names[0]], side).value.size > 0
      then
        var q := SideOf(makers[names[0]], side).value;
        [Slot(names[0], q.price, q.size)] + rest
      else rest
  }

  /** The price as a cost: what a seller gets counts negative. */
  function Key(side: Side, price: real): real {
    if side == Buy then price else -price
  }

  function Insert(side: Side, s: Slot, ranked: seq<Slot>): seq<Slot> {
    if ranked == [] || Key(side, s.price) <= Key(side, ranked[0].price) then [s] + ranked
    else [ranked[0]] + Insert(side, s, ranked[1..])
  }

  /** The stable sort by price. */
  function Rank(side: Side, slots: seq<Slot>): seq<Slot> {
    if slots == [] then [] else Insert(side, slots[0], Rank(side, slots[1..]))
  }

  predicate Ranked(side: Side, slots: seq<Slot>) {
    forall i, j :: 0 <= i < j < |slots| ==> Key(side, slots[i].price) <= Key(side, slots[j].price)
  }

  lemma RankedCons(side: Side, s: Slot, rest: seq<Slot>)
    requires Ranked(side, rest) && (rest == [] || Key(side, s.price) <= Key(side, rest[0].price))
    ensures Ranked(side, [s] + rest)
  {
    hide Key;
    var all := [s] + rest;
    forall i, j | 0 <= i < j < |all| ensures Key(side, all[i].price) <= Key(side, all[j].price) {
      assert all[j] == rest[j - 1];
      if i > 0 {
        assert all[i] == rest[i - 1];
      } else if j > 1 {
        assert Key(side, rest[0].price) <= Key(side, rest[j - 1].price);
      }
    }
  }

  lemma RankedTail(side: Side, ranked: seq<Slot>)
    requires Ranked(side, ranked) && ranked != []
    ensures Ranked(side, ranked[1..])
  {
    hide Key;
    var rest := ranked[1..];
    forall i, j | 0 <= i < j < |rest| ensures Key(side, rest[i].price) <= Key(side, rest[j].price) {
      assert rest[i] == ranked[i + 1] && rest[j] == ranked[j + 1];
    }
  }

  lemma {:induction false} InsertRanks(side: Side, s: Slot, ranked: seq<Slot>)
    requires Ranked(side, ranked)
    ensures Ranked(side, Insert(side, s, ranked))
    ensures multiset(Insert(side, s, ranked)) == multiset(ranked) + multiset{s}
    ensures var first := Insert(side, s, ranked)[0]; first == s || (ranked != [] && first == ranked[0])
  {
    hide Key, Ranked;
    if ranked == [] || Key(side, s.price) <= Key(side, ranked[0].price) {
      RankedCons(side, s, ranked);
    } else {
      RankedTail(side, ranked);
      InsertRanks(side, s, ranked[1..]);
      SecondAfterFirst(side, ranked);
      RankedCons(side, ranked[0], Insert(side, s, ranked[1..]));
      assert ranked == [ranked[0]] + ranked[1..];
    }
  }

  lemma SecondAfterFirst(side: Side, ranked: seq<Slot>)
    requires Ranked(side, ranked) && ranked != []
    ensures ranked[1..] != [] ==> Key(side, ranked[0].price) <= Key(side, ranked[1..][0].price)
  {
    hide Key;
    if |ranked| > 1 {
      assert ranked[1..][0] == ranked[1];
    }
  }

  lemma {:induction false} RankRanks(side: Side, slots: seq<Slot>)
    ensures Ranked(side, Rank(side, slots)) && multiset(Rank(side, slots)) == multiset(slots)
  {
    hide Insert, Ranked;
    if slots == [] {
      EmptyRanked(side);
    } else {
      RankRanks(side, slots[1..]);
      InsertRanks(side, slots[0], Rank(side, slots[1..]));
      assert slots == [slots[0]] + slots[1..];
    }
  }

  lemma EmptyRanked(side: Side)
    ensures Ranked(side, [])
  {
  }

  // ---------------------------------------------------------------------------
  // One slice and the whole plan
  // ---------------------------------------------------------------------------

  /** derive, for an amount given in QBT: rounded in the maker's favour. */
  function Derive(l: Limits, side: Side, price: real, qbt: nat): int {
    if side == Buy then Ceil(Times(qbt as real, price)) else TakerNetOfGross(l.fees, Times(qbt as real, price).Floor)
  }

  /** What one maker is asked for; a slice below the minimum swap size is sized but not taken. */
  datatype Slice = Slice(qbt: nat, btc: int, taken: bool)

  predicate Reached(r: Request, gotQbt: nat, gotBtc: int) {
    (r.qbt > 0 && gotQbt >= r.qbt) || (r.btc > 0 && gotBtc >= r.btc)
  }

  /** The remaining BTC in QBT at this price: never over the budget on a buy. */
  function Affordable(side: Side, btc: int, price: real): int
    requires price > 0.0
  {
    if side == Buy then Ratio(btc as real, price).Floor else Ceil(Ratio(btc as real, price))
  }

  function Sized(r: Request, slot: Slot, gotQbt: nat, gotBtc: int): int
    requires slot.price > 0.0
  {
    var bySize := slot.size;
    var byQbt := if r.qbt > 0 then Min(bySize, r.qbt - gotQbt) else bySize;
    if r.btc > 0 then Min(byQbt, Affordable(r.side, r.btc - gotBtc, slot.price)) else byQbt
  }

  function SliceFor(l: Limits, r: Request, slot: Slot, gotQbt: nat, gotBtc: int): Slice
    requires slot.price > 0.0
  {
    var qbt := Sized(r, slot, gotQbt, gotBtc);
    if Reached(r, gotQbt, gotBtc) || qbt <= 0 then Slice(0, 0, false)
    else
      var btc := Derive(l, r.side, slot.price, qbt);
      Slice(qbt, btc, qbt >= l.minQbt && btc >= l.minBtc)
  }

  predicate Priced(slots: seq<Slot>) {
    forall i :: 0 <= i < |slots| ==> slots[i].price > 0.0
  }

  function TakenQbt(s: Slice): nat {
    if s.taken then s.qbt else 0
  }

  function TakenBtc(s: Slice): int {
    if s.taken then s.btc else 0
  }

  /** planFill's walk over the ranked quotes, one slice a quote. */
  function Fill(l: Limits, r: Request, ranked: seq<Slot>, gotQbt: nat, gotBtc: int): (slices: seq<Slice>)
    requires Priced(ranked)
    ensures |slices| == |ranked|
  {
    if ranked == [] then []
    else
      var s := SliceFor(l, r, ranked[0], gotQbt, gotBtc);
      [s] + Fill(l, r, ranked[1..], gotQbt + TakenQbt(s), gotBtc + TakenBtc(s))
  }

  function TotalQbt(slices: seq<Slice>): nat {
    if slices == [] then 0 else TakenQbt(slices[0]) + TotalQbt(slices[1..])
  }

  function TotalBtc(slices: seq<Slice>): int {
    if slices == [] then 0 else TakenBtc(slices[0]) + TotalBtc(slices[1..])
  }

  /** A slice of the plan that becomes a swap. */
  datatype Leg = Leg(maker: string, price: real, qbt: nat, btc: int)

  function PlanLegs(ranked: seq<Slot>, slices: seq<Slice>): seq<Leg>
    requires |slices| == |ranked|
  {
    if ranked == [] then []
    else
      (if slices[0].taken then [Leg(ranked[0].maker, ranked[0].price, slices[0].qbt, slices[0].btc)] else [])
      + PlanLegs(ranked[1..], slices[1..])
  }

  function FillAll(l: Limits, r: Request, ranked: seq<Slot>): seq<Slice>
    requires Priced(ranked)
  {
    Fill(l, r, ranked, 0, 0)
  }

  predicate Complete(r: Request, gotQbt: nat, gotBtc: int) {
    if r.qbt > 0 then gotQbt >= r.qbt else gotBtc >= r.btc
  }

  lemma {:induction false} NothingAfterReached(l: Limits, r: Request, ranked: seq<Slot>, gotQbt: nat, gotBtc: int)
    requires Priced(ranked) && Reached(r, gotQbt, gotBtc)
    ensures var f := Fill(l, r, ranked, gotQbt, gotBtc);
            TotalQbt(f) == 0 && TotalBtc(f) == 0 && PlanLegs(ranked, f) == [] && forall i :: 0 <= i < |f| ==> f[i].qbt == 0
  {
    hide Sized, Derive;
    if ranked != [] {
      NothingAfterReached(l, r, ranked[1..], gotQbt, gotBtc);
    }
  }

  /** The plan so far, and what the walk still adds to it. */
  predicate SoFar(l: Limits, r: Request, ranked: seq<Slot>, i: nat, legs: seq<Leg>, gotQbt: nat, gotBtc: int)
    requires Priced(ranked) && i <= |ranked|
  {
    var all, rest := FillAll(l, r, ranked), Fill(l, r, ranked[i..], gotQbt, gotBtc);
    && PlanLegs(ranked, all) == legs + PlanLegs(ranked[i..], rest)
    && TotalQbt(all) == gotQbt + TotalQbt(rest)
    && TotalBtc(all) == gotBtc + TotalBtc(rest)
  }

  lemma SoFarNext(l: Limits, r: Request, ranked: seq<Slot>, i: nat, legs: seq<Leg>, gotQbt: nat, gotBtc: int)
    requires Priced(ranked) && i < |ranked| && SoFar(l, r, ranked, i, legs, gotQbt, gotBtc)
    ensures var s := SliceFor(l, r, ranked[i], gotQbt, gotBtc);
            SoFar(l, r, ranked, i + 1, legs + if s.taken then [Leg(ranked[i].maker, ranked[i].price, s.qbt, s.btc)] else [],
                  gotQbt + TakenQbt(s), gotBtc + TakenBtc(s))
  {
    hide SliceFor, FillAll;
    assert ranked[i..][1..] == ranked[i + 1..] && ranked[i..][0] == ranked[i];
    var s := SliceFor(l, r, ranked[i], gotQbt, gotBtc);
    var rest := Fill(l, r, ranked[i..], gotQbt, gotBtc);
    var next := Fill(l, r, ranked[i + 1..], gotQbt + TakenQbt(s), gotBtc + TakenBtc(s));
    assert rest == [s] + next && rest[1..] == next;
    var own := if s.taken then [Leg(ranked[i].maker, ranked[i].price, s.qbt, s.btc)] else [];
    assert PlanLegs(ranked[i..], rest) == own + PlanLegs(ranked[i + 1..], next);
    assert legs + (own + PlanLegs(ranked[i + 1..], next)) == (legs + own) + PlanLegs(ranked[i + 1..], next);
  }

  /** planFill's loop; the slots are already ranked. */
  method PlanFill(l: Limits, r: Request, ranked: seq<Slot>) returns (legs: seq<Leg>, gotQbt: nat, gotBtc: int, complete: bool)
    requires Priced(ranked)
    ensures var f := FillAll(l, r, ranked);
            legs == PlanLegs(ranked, f) && gotQbt == TotalQbt(f) && gotBtc == TotalBtc(f) && complete == Complete(r, gotQbt, gotBtc)
  {
    hide SliceFor, SoFar, FillAll;
    legs, gotQbt, gotBtc := [], 0, 0;
    SoFarStart(l, r, ranked);
    var i := 0;
    while i < |ranked| && !Reached(r, gotQbt, gotBtc)
      invariant i <= |ranked| && SoFar(l, r, ranked, i, legs, gotQbt, gotBtc)
    {
      var s := SliceFor(l, r, ranked[i], gotQbt, gotBtc);
      SoFarNext(l, r, ranked, i, legs, gotQbt, gotBtc);
      legs := legs + if s.taken then [Leg(ranked[i].maker, ranked[i].price, s.qbt, s.btc)] else [];
      gotQbt := gotQbt + TakenQbt(s);
      gotBtc := gotBtc + TakenBtc(s);
      i := i + 1;
    }
    SoFarEnd(l, r, ranked, i, legs, gotQbt, gotBtc);
    complete := Complete(r, gotQbt, gotBtc);
  }

  lemma SoFarStart(l: Limits, r: Request, ranked: seq<Slot>)
    requires Priced(ranked)
    ensures SoFar(l, r, ranked, 0, [], 0, 0)
  {
    hide Fill;
    assert ranked[0..] == ranked;
  }

  lemma SoFarEnd(l: Limits, r: Request, ranked: seq<Slot>, i: nat, legs: seq<Leg>, gotQbt: nat, gotBtc: int)
    requires Priced(ranked) && i <= |ranked| && SoFar(l, r, ranked, i, legs, gotQbt, gotBtc)
    requires i == |ranked| || Reached(r, gotQbt, gotBtc)
    ensures var f := FillAll(l, r, ranked); legs == PlanLegs(ranked, f) && gotQbt == TotalQbt(f) && gotBtc == TotalBtc(f)
  {
    hide SliceFor, FillAll;
    if i < |ranked| {
      NothingAfterReached(l, r, ranked[i..], gotQbt, gotBtc);
    }
  }

  // ---------------------------------------------------------------------------
  // Bounds
  // ---------------------------------------------------------------------------

  lemma PricedTail(ranked: seq<Slot>)
    requires Priced(ranked) && ranked != []
    ensures ranked[0].price > 0.0 && Priced(ranked[1..])
  {
    forall i | 0 <= i < |ranked| - 1 ensures ranked[1..][i].price > 0.0 {
      assert ranked[1..][i] == ranked[i + 1];
    }
  }

  /** A buy slice sized from a BTC budget costs no more than the budget. */
  lemma WithinBudget(budget: int, qbt: nat, price: real)
    requires price > 0.0 && qbt <= Affordable(Buy, budget, price)
    ensures Ceil(Times(qbt as real, price)) <= budget
  {
    hide Ceil, Times, Ratio;
    FloorSpan(budget as real, price);
    Scale(qbt as real, Ratio(budget as real, price).Floor as real, price);
    CeilLeast(Times(qbt as real, price), budget);
  }

  lemma SliceBounds(l: Limits, r: Request, slot: Slot, gotQbt: nat, gotBtc: int)
    requires slot.price > 0.0
    requires (r.qbt > 0 ==> gotQbt <= r.qbt) && (r.side == Buy && r.btc > 0 ==> gotBtc <= r.btc)
    ensures var s := SliceFor(l, r, slot, gotQbt, gotBtc);
            && s.qbt <= slot.size
            && (r.qbt > 0 ==> gotQbt + s.qbt <= r.qbt)
            && (r.side == Buy && r.btc > 0 ==> gotBtc + s.btc <= r.btc)
  {
    hide Ceil, Times, Affordable, TakerNetOfGross;
    var s := SliceFor(l, r, slot, gotQbt, gotBtc);
    if r.side == Buy && r.btc > 0 && s.qbt > 0 {
      WithinBudget(r.btc - gotBtc, s.qbt, slot.price);
    }
  }

  predicate WithinSizes(ranked: seq<Slot>, slices: seq<Slice>) {
    |slices| == |ranked| && forall i :: 0 <= i < |ranked| ==> slices[i].qbt <= ranked[i].size
  }

  lemma {:induction false} FillBounds(l: Limits, r: Request, ranked: seq<Slot>, gotQbt: nat, gotBtc: int)
    requires Priced(ranked)
    requires (r.qbt > 0 ==> gotQbt <= r.qbt) && (r.side == Buy && r.btc > 0 ==> gotBtc <= r.btc)
    ensures var f := Fill(l, r, ranked, gotQbt, gotBtc);
            && WithinSizes(ranked, f)
            && (r.qbt > 0 ==> gotQbt + TotalQbt(f) <= r.qbt)
            && (r.side == Buy && r.btc > 0 ==> gotBtc + TotalBtc(f) <= r.btc)
  {
    hide SliceFor;
    if ranked != [] {
      PricedTail(ranked);
      SliceBounds(l, r, ranked[0], gotQbt, gotBtc);
      var s := SliceFor(l, r, ranked[0], gotQbt, gotBtc);
      FillBounds(l, r, ranked[1..], gotQbt + TakenQbt(s), gotBtc + TakenBtc(s));
      var f := Fill(l, r, ranked, gotQbt, gotBtc);
      forall i | 0 <= i < |ranked| ensures f[i].qbt <= ranked[i].size {
        if i > 0 {
          assert f[i] == f[1..][i - 1] && ranked[i] == ranked[1..][i - 1];
        }
      }
    }
  }

  /** Every slice fits its maker's size, the plan never exceeds the QBT asked for, and a buy for a BTC amount never
      spends more than that amount. */
  lemma PlanBounds(l: Limits, r: Request, ranked: seq<Slot>)
    requires Priced(ranked)
    ensures var f := FillAll(l, r, ranked);
            && WithinSizes(ranked, f)
            && (r.qbt > 0 ==> TotalQbt(f) <= r.qbt)
            && (r.side == Buy && r.btc > 0 ==> TotalBtc(f) <= r.btc)
  {
    hide SliceFor;
    FillBounds(l, r, ranked, 0, 0);
  }

  /** Rounding is in the maker's favour: a buyer pays at least price times size, and what a seller's maker lays out,
      fee included, is at most price times size. */
  lemma RoundedForMaker(l: Limits, side: Side, price: real, qbt: nat)
    requires l.fees.on ==> l.fees.feeMin > 0
    ensures var btc := Derive(l, side, price, qbt);
            if side == Buy then btc as real >= Times(qbt as real, price)
            else btc > 0 ==> (btc + FeeOn(l.fees, btc)) as real <= Times(qbt as real, price)
  {
    hide Times, TakerNetOfGross, FeeOn, Ceil;
    var x := Times(qbt as real, price);
    if side == Buy {
      CeilIs(x);
    } else {
      NetFits(l.fees, x.Floor);
    }
  }

  /** What a slice costs or yields, exactly: on a buy the price of the size rounded up, on a sell what a taker nets of it
      rounded down. */
  lemma DeriveExactly(l: Limits, side: Side, price: real, qbt: nat)
    ensures var btc, value := Derive(l, side, price, qbt), Times(qbt as real, price);
            if side == Buy then btc as real - 1.0 < value <= btc as real
            else exists gross: int :: gross as real <= value < gross as real + 1.0 && btc == TakerNetOfGross(l.fees, gross)
  {
    hide Times, TakerNetOfGross, Ceil;
    var value := Times(qbt as real, price);
    CeilIs(value);
    if side == Sell {
      var gross := value.Floor;
      assert gross as real <= value < gross as real + 1.0;
      assert Derive(l, side, price, qbt) == TakerNetOfGross(l.fees, gross);
    }
  }

  /** So much QBT for a BTC amount at this price: on a buy all that the amount pays for, on a sell the least that is worth
      it. */
  predicate Worth(side: Side, btc: int, price: real, qbt: int) {
    if side == Buy then Times(qbt as real, price) <= btc as real < Times((qbt + 1) as real, price)
    else Times((qbt - 1) as real, price) < btc as real <= Times(qbt as real, price)
  }

  predicate WorthMissing(r: Request, gotBtc: int, price: real, qbt: int) {
    Worth(r.side, r.btc - gotBtc, price, qbt)
  }

  lemma AffordableIs(side: Side, btc: int, price: real)
    requires price > 0.0
    ensures Worth(side, btc, price, Affordable(side, btc, price))
  {
    hide Times, Ratio, Ceil;
    FloorSpan(btc as real, price);
    CeilSpan(btc as real, price);
    var n, c := Ratio(btc as real, price).Floor, Ceil(Ratio(btc as real, price));
    Depth.Distribute(n as real, 1.0, price);
    Depth.Distribute(c as real, 1.0, price);
    Once(price);
  }

  /** What a slice is asked for, exactly: the least of the maker's size, the QBT still missing and what the BTC still
      missing comes to, where given; nothing once the request is met. It becomes a swap exactly when both its amounts
      reach the minimum. */
  lemma SliceExactly(l: Limits, r: Request, slot: Slot, gotQbt: nat, gotBtc: int)
    requires slot.price > 0.0
    ensures var s := SliceFor(l, r, slot, gotQbt, gotBtc);
            var met := (r.qbt > 0 && gotQbt >= r.qbt) || (r.btc > 0 && gotBtc >= r.btc);
            && (met ==> s == Slice(0, 0, false))
            && (!met ==>
                  exists byBtc :: WorthMissing(r, gotBtc, slot.price, byBtc)
                    && var size := if r.qbt > 0 && r.qbt - gotQbt < slot.size then r.qbt - gotQbt else slot.size;
                    var least := if r.btc > 0 && byBtc < size then byBtc else size;
                    s.qbt == if least > 0 then least else 0)
            && (s.taken <==> s.qbt > 0 && s.qbt >= l.minQbt && s.btc >= l.minBtc)
            && (s.qbt > 0 ==> s.btc == Derive(l, r.side, slot.price, s.qbt))
  {
    hide Derive, Affordable, Worth;
    AffordableIs(r.side, r.btc - gotBtc, slot.price);
    assert WorthMissing(r, gotBtc, slot.price, Affordable(r.side, r.btc - gotBtc, slot.price));
  }

  /** A leg is at its maker's quoted price, within its size, for what that comes to, and no smaller than a swap may be. */
  predicate LegFits(l: Limits, r: Request, ranked: seq<Slot>, leg: Leg) {
    && leg.btc == Derive(l, r.side, leg.price, leg.qbt) && leg.qbt >= l.minQbt && leg.btc >= l.minBtc
    && exists slot <- ranked :: leg.maker == slot.maker && leg.price == slot.price && leg.qbt <= slot.size
  }

  lemma FitsLonger(l: Limits, r: Request, ranked: seq<Slot>, leg: Leg)
    requires ranked != [] && LegFits(l, r, ranked[1..], leg)
    ensures LegFits(l, r, ranked, leg)
  {
    hide Derive;
    assert forall slot <- ranked[1..] :: slot in ranked;
  }

  lemma FitsFirst(l: Limits, r: Request, ranked: seq<Slot>, gotQbt: nat, gotBtc: int)
    requires ranked != [] && ranked[0].price > 0.0 && SliceFor(l, r, ranked[0], gotQbt, gotBtc).taken
    ensures var s := SliceFor(l, r, ranked[0], gotQbt, gotBtc);
            LegFits(l, r, ranked, Leg(ranked[0].maker, ranked[0].price, s.qbt, s.btc))
  {
    hide Derive;
    SliceWithin(l, r, ranked[0], gotQbt, gotBtc);
    assert ranked[0] in ranked;
  }

  /** Every leg of a plan fits its quote, and together they come to the plan's BTC total. */
  lemma {:induction false} LegsExactly(l: Limits, r: Request, ranked: seq<Slot>, gotQbt: nat, gotBtc: int)
    requires Priced(ranked)
    ensures var f := Fill(l, r, ranked, gotQbt, gotBtc);
            var legs := PlanLegs(ranked, f);
            (forall leg <- legs :: LegFits(l, r, ranked, leg)) && TotalOfLegs(legs) == TotalBtc(f)
  {
    hide LegFits, SliceFor, Priced;
    if ranked != [] {
      PricedTail(ranked);
      var s := SliceFor(l, r, ranked[0], gotQbt, gotBtc);
      FillNext(l, r, ranked, gotQbt, gotBtc);
      LegsExactly(l, r, ranked[1..], gotQbt + TakenQbt(s), gotBtc + TakenBtc(s));
      var rest := PlanLegs(ranked[1..], Fill(l, r, ranked[1..], gotQbt + TakenQbt(s), gotBtc + TakenBtc(s)));
      forall leg <- rest ensures LegFits(l, r, ranked, leg) {
        FitsLonger(l, r, ranked, leg);
      }
      if s.taken {
        FitsFirst(l, r, ranked, gotQbt, gotBtc);
        LegsCons(Leg(ranked[0].maker, ranked[0].price, s.qbt, s.btc), rest);
      } else {
        assert [] + rest == rest;
      }
    }
  }

  lemma LegsCons(leg: Leg, rest: seq<Leg>)
    ensures TotalOfLegs([leg] + rest) == leg.btc + TotalOfLegs(rest)
  {
    assert ([leg] + rest)[1..] == rest;
  }

  lemma SliceWithin(l: Limits, r: Request, slot: Slot, gotQbt: nat, gotBtc: int)
    requires slot.price > 0.0
    ensures var s := SliceFor(l, r, slot, gotQbt, gotBtc);
            s.taken ==> s.qbt <= slot.size && s.btc == Derive(l, r.side, slot.price, s.qbt) && s.qbt >= l.minQbt && s.btc >= l.minBtc
  {
    hide Derive, Affordable;
  }

  function TotalOfLegs(legs: seq<Leg>): int {
    if legs == [] then 0 else legs[0].btc + TotalOfLegs(legs[1..])
  }

  // ---------------------------------------------------------------------------
  // Who is in the book
  // ---------------------------------------------------------------------------

  /** A maker's live quote on a side: it is serving and has something left. */
  predicate Quotes(makers: map<string, Maker>, side: Side, name: string, slot: Slot) {
    && slot.maker == name && name in makers && makers[name].serving
    && (match side
        case Buy => makers[name].ask == Some(Quoted(slot.price, slot.size))
        case Sell => makers[name].bid == Some(Quoted(slot.price, slot.size)))
    && slot.size > 0
  }

  lemma QuotesIs(makers: map<string, Maker>, side: Side, name: string, slot: Slot)
    ensures Quotes(makers, side, name, slot) <==>
            name in makers && makers[name].serving && SideOf(makers[name], side).Some?
            && SideOf(makers[name], side).value.size > 0
            && slot == Slot(name, SideOf(makers[name], side).value.price, SideOf(makers[name], side).value.size)
  {
  }

  /** The book lists exactly the live quotes. */
  lemma {:induction false} LiveSidesExactly(names: seq<string>, makers: map<string, Maker>, side: Side, slot: Slot)
    ensures slot in LiveSides(names, makers, side) <==> slot.maker in names && Quotes(makers, side, slot.maker, slot)
  {
    hide Quotes;
    if names != [] {
      LiveSidesExactly(names[1..], makers, side, slot);
      QuotesIs(makers, side, slot.maker, slot);
      assert names == [names[0]] + names[1..];
    }
  }

  /** The slots quoted at this price, in the order they come. */
  function At(price: real, slots: seq<Slot>): seq<Slot> {
    if slots == [] then []
    else (if slots[0].price == price then [slots[0]] else []) + At(price, slots[1..])
  }

  lemma {:induction false} InsertStable(side: Side, s: Slot, ranked: seq<Slot>, price: real)
    requires Ranked(side, ranked)
    ensures At(price, Insert(side, s, ranked)) == At(price, [s] + ranked)
  {
    hide Ranked;
    assert ([s] + ranked)[1..] == ranked;
    if ranked != [] && Key(side, s.price) > Key(side, ranked[0].price) {
      RankedTail(side, ranked);
      InsertStable(side, s, ranked[1..], price);
      assert ([s] + ranked[1..])[1..] == ranked[1..];
      var rest := Insert(side, s, ranked[1..]);
      assert ([ranked[0]] + rest)[1..] == rest;
    }
  }

  /** Quotes at the same price stay in the order the makers were configured in. */
  lemma {:induction false} RankStable(side: Side, slots: seq<Slot>, price: real)
    ensures At(price, Rank(side, slots)) == At(price, slots)
  {
    hide Insert, Ranked;
    if slots != [] {
      RankRanks(side, slots[1..]);
      RankStable(side, slots[1..], price);
      InsertStable(side, slots[0], Rank(side, slots[1..]), price);
      var rest := Rank(side, slots[1..]);
      assert ([slots[0]] + rest)[1..] == rest;
    }
  }

  // ---------------------------------------------------------------------------
  // Greedy is optimal
  // ---------------------------------------------------------------------------

  /** No slice fell below the minimum swap size. */
  predicate NothingDropped(slices: seq<Slice>) {
    forall i :: 0 <= i < |slices| && slices[i].qbt > 0 ==> slices[i].taken
  }

  function Sum(xs: seq<nat>): nat {
    if xs == [] then 0 else xs[0] + Sum(xs[1..])
  }

  /** Another way to split: so much from each quote. */
  predicate SplitsOver(ranked: seq<Slot>, xs: seq<nat>) {
    |xs| == |ranked| && forall i :: 0 <= i < |xs| ==> xs[i] <= ranked[i].size
  }

  /** Price times size, over the whole split. */
  function Value(ranked: seq<Slot>, xs: seq<nat>): real
    requires |xs| == |ranked|
  {
    if ranked == [] then 0.0 else Times(xs[0] as real, ranked[0].price) + Value(ranked[1..], xs[1..])
  }

  function Cost(side: Side, ranked: seq<Slot>, xs: seq<nat>): real
    requires |xs| == |ranked|
  {
    if ranked == [] then 0.0 else Times(xs[0] as real, Key(side, ranked[0].price)) + Cost(side, ranked[1..], xs[1..])
  }

  lemma {:induction false} CostIsValue(side: Side, ranked: seq<Slot>, xs: seq<nat>)
    requires |xs| == |ranked|
    ensures Cost(side, ranked, xs) == if side == Buy then Value(ranked, xs) else -Value(ranked, xs)
  {
    hide Times;
    if ranked != [] {
      CostIsValue(side, ranked[1..], xs[1..]);
      Negated(xs[0] as real, ranked[0].price);
    }
  }

  lemma Negated(x: real, y: real)
    ensures Times(x, -y) == -Times(x, y)
  {
  }

  function Sizes(slices: seq<Slice>): (xs: seq<nat>)
    ensures |xs| == |slices|
  {
    seq(|slices|, i requires 0 <= i < |slices| => slices[i].qbt)
  }

  lemma SizesTail(slices: seq<Slice>)
    requires slices != []
    ensures Sizes(slices)[0] == slices[0].qbt && Sizes(slices)[1..] == Sizes(slices[1..])
  {
  }

  lemma SplitTail(ranked: seq<Slot>, xs: seq<nat>)
    requires SplitsOver(ranked, xs) && ranked != []
    ensures xs[0] <= ranked[0].size && SplitsOver(ranked[1..], xs[1..])
  {
    forall i | 0 <= i < |xs| - 1 ensures xs[1..][i] <= ranked[1..][i].size {
      assert xs[1..][i] == xs[i + 1] && ranked[1..][i] == ranked[i + 1];
    }
  }

  lemma DroppedTail(slices: seq<Slice>)
    requires NothingDropped(slices) && slices != []
    ensures (slices[0].qbt > 0 ==> slices[0].taken) && NothingDropped(slices[1..])
  {
    forall i | 0 <= i < |slices| - 1 && slices[1..][i].qbt > 0 ensures slices[1..][i].taken {
      assert slices[1..][i] == slices[i + 1];
    }
  }

  /** A size request takes the whole quote, or all that is still missing. */
  lemma SizeSlice(l: Limits, r: Request, slot: Slot, gotQbt: nat, gotBtc: int)
    requires slot.price > 0.0 && r.qbt > 0 && r.btc == 0 && gotQbt <= r.qbt
    ensures SliceFor(l, r, slot, gotQbt, gotBtc).qbt == Min(slot.size, r.qbt - gotQbt)
  {
    hide Derive;
  }

  /** Whoever has taken `lead` more so far at prices no better than the next one cannot be beaten on the rest. */
  lemma {:induction false} GreedyAhead(l: Limits, r: Request, ranked: seq<Slot>, gotQbt: nat, gotBtc: int, other: seq<nat>, lead: nat)
    requires Priced(ranked) && Ranked(r.side, ranked) && r.qbt > 0 && r.btc == 0 && gotQbt <= r.qbt
    requires SplitsOver(ranked, other)
    requires var f := Fill(l, r, ranked, gotQbt, gotBtc); NothingDropped(f) && lead + Sum(Sizes(f)) == Sum(other)
    ensures var xs := Sizes(Fill(l, r, ranked, gotQbt, gotBtc));
            if ranked == [] then lead == 0
            else Cost(r.side, ranked, xs) - Cost(r.side, ranked, other) <= -Times(lead as real, Key(r.side, ranked[0].price))
  {
    hide Times, Key, SliceFor, Cost, Fill;
    if ranked == [] {
      NothingToSplit(l, r, gotQbt, gotBtc);
    } else {
      var f := Fill(l, r, ranked, gotQbt, gotBtc);
      var s := SliceFor(l, r, ranked[0], gotQbt, gotBtc);
      PricedTail(ranked);
      RankedTail(r.side, ranked);
      SplitTail(ranked, other);
      DroppedTail(f);
      SizesTail(f);
      SizeSlice(l, r, ranked[0], gotQbt, gotBtc);
      var got', btc' := gotQbt + TakenQbt(s), gotBtc + TakenBtc(s);
      var rest := Fill(l, r, ranked[1..], got', btc');
      FillNext(l, r, ranked, gotQbt, gotBtc);
      StillAhead(l, r, ranked, gotQbt, gotBtc, other, lead);
      var lead' := lead + s.qbt - other[0];
      GreedyAhead(l, r, ranked[1..], got', btc', other[1..], lead');
      var p := Key(r.side, ranked[0].price);
      NextKey(r.side, ranked, lead');
      LeadArithmetic(lead, s.qbt, other[0], p);
      CostNext(r.side, ranked, Sizes(f));
      CostNext(r.side, ranked, other);
      Once(p);
    }
  }

  lemma NothingToSplit(l: Limits, r: Request, gotQbt: nat, gotBtc: int)
    ensures Fill(l, r, [], gotQbt, gotBtc) == [] && Sizes([]) == [] && Sum([]) == 0
  {
  }

  lemma FillNext(l: Limits, r: Request, ranked: seq<Slot>, gotQbt: nat, gotBtc: int)
    requires Priced(ranked) && ranked != []
    ensures var f, s := Fill(l, r, ranked, gotQbt, gotBtc), SliceFor(l, r, ranked[0], gotQbt, gotBtc);
            f[0] == s && f[1..] == Fill(l, r, ranked[1..], gotQbt + TakenQbt(s), gotBtc + TakenBtc(s))
  {
    hide SliceFor;
  }

  lemma CostNext(side: Side, ranked: seq<Slot>, xs: seq<nat>)
    requires |xs| == |ranked| > 0
    ensures Cost(side, ranked, xs) == Times(xs[0] as real, Key(side, ranked[0].price)) + Cost(side, ranked[1..], xs[1..])
  {
    hide Times, Key;
  }

  lemma NextKey(side: Side, ranked: seq<Slot>, lead: nat)
    requires Ranked(side, ranked) && ranked != []
    ensures |ranked| > 1 ==> Times(lead as real, Key(side, ranked[0].price)) <= Times(lead as real, Key(side, ranked[1..][0].price))
  {
    hide Key, Times;
    if |ranked| > 1 {
      assert ranked[1..][0] == ranked[1];
      var p, q := Key(side, ranked[0].price), Key(side, ranked[1].price);
      Commutes(lead as real, p);
      Commutes(lead as real, q);
      Scale(p, q, lead as real);
    }
  }

  lemma LeadArithmetic(lead: nat, x: nat, y: nat, p: real)
    ensures Times((lead + x - y) as real, p) == Times(lead as real, p) + Times(x as real, p) - Times(y as real, p)
  {
    hide Times;
    Depth.Distribute((lead + x) as real, y as real, p);
    Depth.Distribute(lead as real, x as real, p);
  }

  /** After one more quote greedy is still not behind. */
  lemma StillAhead(l: Limits, r: Request, ranked: seq<Slot>, gotQbt: nat, gotBtc: int, other: seq<nat>, lead: nat)
    requires Priced(ranked) && ranked != [] && r.qbt > 0 && r.btc == 0 && gotQbt <= r.qbt && SplitsOver(ranked, other)
    requires var f := Fill(l, r, ranked, gotQbt, gotBtc); NothingDropped(f) && lead + Sum(Sizes(f)) == Sum(other)
    ensures var s := SliceFor(l, r, ranked[0], gotQbt, gotBtc);
            && TakenQbt(s) == s.qbt && gotQbt + s.qbt <= r.qbt
            && lead + s.qbt >= other[0]
  {
    hide SliceFor, Fill;
    var f := Fill(l, r, ranked, gotQbt, gotBtc);
    var s := SliceFor(l, r, ranked[0], gotQbt, gotBtc);
    PricedTail(ranked);
    SplitTail(ranked, other);
    DroppedTail(f);
    SizesTail(f);
    FillNext(l, r, ranked, gotQbt, gotBtc);
    SizeSlice(l, r, ranked[0], gotQbt, gotBtc);
    if s.qbt < ranked[0].size {
      var got', btc' := gotQbt + s.qbt, gotBtc + TakenBtc(s);
      NothingAfterReached(l, r, ranked[1..], got', btc');
      ZeroSum(Sizes(f[1..]));
    }
  }

  lemma {:induction false} ZeroSum(xs: seq<nat>)
    requires forall i :: 0 <= i < |xs| ==> xs[i] == 0
    ensures Sum(xs) == 0
  {
    if xs != [] {
      assert forall i :: 0 <= i < |xs| - 1 ==> xs[1..][i] == xs[i + 1];
      ZeroSum(xs[1..]);
    }
  }

  /** For a request in QBT with no slice dropped, no other split of the same total over the live quotes is cheaper on
      a buy or yields more on a sell, in price times size. */
  lemma GreedyIsOptimal(l: Limits, r: Request, slots: seq<Slot>, other: seq<nat>)
    requires Priced(Rank(r.side, slots)) && r.qbt > 0 && r.btc == 0
    requires var ranked := Rank(r.side, slots);
             && SplitsOver(ranked, other)
             && NothingDropped(FillAll(l, r, ranked)) && Sum(Sizes(FillAll(l, r, ranked))) == Sum(other)
    ensures var ranked := Rank(r.side, slots);
            var xs := Sizes(FillAll(l, r, ranked));
            if r.side == Buy then Value(ranked, xs) <= Value(ranked, other) else Value(ranked, xs) >= Value(ranked, other)
  {
    hide Times, SliceFor, Ranked;
    var ranked := Rank(r.side, slots);
    RankRanks(r.side, slots);
    GreedyAhead(l, r, ranked, 0, 0, other, 0);
    CostIsValue(r.side, ranked, Sizes(FillAll(l, r, ranked)));
    CostIsValue(r.side, ranked, other);
    if ranked != [] {
      Once(Key(r.side, ranked[0].price));
    }
  }

  function Offered(ranked: seq<Slot>): nat {
    if ranked == [] then 0 else ranked[0].size + Offered(ranked[1..])
  }

  /** With no slice dropped a request in QBT gets all of it, or all there is. */
  lemma {:induction false} FillsWhatThereIs(l: Limits, r: Request, ranked: seq<Slot>, gotQbt: nat, gotBtc: int)
    requires Priced(ranked) && r.qbt > 0 && r.btc == 0 && gotQbt <= r.qbt
    requires NothingDropped(Fill(l, r, ranked, gotQbt, gotBtc))
    ensures gotQbt + TotalQbt(Fill(l, r, ranked, gotQbt, gotBtc)) == Min(r.qbt, gotQbt + Offered(ranked))
  {
    hide SliceFor, Fill;
    if ranked == [] {
      NothingToSplit(l, r, gotQbt, gotBtc);
    } else {
      var f := Fill(l, r, ranked, gotQbt, gotBtc);
      var s := SliceFor(l, r, ranked[0], gotQbt, gotBtc);
      PricedTail(ranked);
      DroppedTail(f);
      SizeSlice(l, r, ranked[0], gotQbt, gotBtc);
      FillNext(l, r, ranked, gotQbt, gotBtc);
      FillsWhatThereIs(l, r, ranked[1..], gotQbt + TakenQbt(s), gotBtc + TakenBtc(s));
    }
  }

  /** With no slice dropped a request in QBT is complete exactly if there is enough on the side. */
  lemma CompleteExactly(l: Limits, r: Request, ranked: seq<Slot>)
    requires Priced(ranked) && r.qbt > 0 && r.btc == 0 && NothingDropped(FillAll(l, r, ranked))
    ensures var f := FillAll(l, r, ranked); Complete(r, TotalQbt(f), TotalBtc(f)) <==> Offered(ranked) >= r.qbt
  {
    hide Fill, NothingDropped;
    FillsWhatThereIs(l, r, ranked, 0, 0);
  }
}
