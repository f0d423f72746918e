/** Confirmation depths, timelock windows and the plan made when HTLCs are derived (coordinator/swap.js).
    Rates and seconds are real numbers. */
module Depth {
  import opened Bytes
  import opened Legs

  datatype Model = ConfTargetRpc | BtcSubsidy | Fixed

  datatype LegConfig = LegConfig(
    blockSecs: real, minConfs: nat, model: Model, maxConfs: nat,
    fixedConfs: nat, fixedScaleSats: real, fixedMaxConfs: nat)

  datatype Windows = Derived(minToSecs: nat, toMult: real, toBaseSecs: real, fromGapSecs: nat) | Forced(toSecs: nat, fromSecs: nat)

  datatype Config = Config(legs: Per<LegConfig>, reorgMargin: real, unpricedConfs: nat, windows: Windows)

  /** What validateChains insists on, and signs the settings need for the formulas to make sense. */
  predicate ValidLeg(c: LegConfig) {
    c.blockSecs > 0.0 && c.fixedConfs > 0 && c.fixedScaleSats > 0.0
  }

  predicate ValidConfig(c: Config) {
    ValidLeg(c.legs.btc) && ValidLeg(c.legs.qbit) && c.reorgMargin >= 0.0
    && (c.windows.Derived? ==> c.windows.toMult >= 0.0 && c.windows.toBaseSecs >= 0.0)
  }

  function Max(a: int, b: int): int {
    if a >= b then a else b
  }

  function Min(a: int, b: int): int {
    if a <= b then a else b
  }

  function Ratio(x: real, y: real): real
    requires y != 0.0
  {
    x / y
  }

  lemma RatioTimes(x: real, y: real)
    requires y != 0.0
    ensures Times(Ratio(x, y), y) == x
  {
  }

  /** Multiplication by name, so that products can be kept apart from linear steps. */
  function Times(x: real, y: real): real {
    x * y
  }

  function Ceil(x: real): int {
    -(-x).Floor
  }

  /** Math.round. */
  function Round(x: real): int {
    (x + 0.5).Floor
  }

  lemma CeilIs(x: real)
    ensures Ceil(x) as real - 1.0 < x <= Ceil(x) as real
  {
  }

  lemma CeilLeast(x: real, n: int)
    ensures Ceil(x) <= n <==> x <= n as real
  {
  }

  lemma RoundIs(x: real)
    ensures x - 0.5 < Round(x) as real <= x + 0.5
  {
  }

  // ---------------------------------------------------------------------------
  // Reorg-safe depth
  // ---------------------------------------------------------------------------

  function Doubled(k: nat): (p: nat)
    ensures p > 0
  {
    if k == 0 then 1 else 2 * Doubled(k - 1)
  }

  /** The block reward at a height. */
  function SubsidySats(height: nat): int {
    var halvings := height / 210_000;
    5_000_000_000 / Doubled(halvings)
  }

  /** What the node's conftarget call reports. */
  datatype Quote = Quote(securityPerConf: real, confs: nat, equivalentBtcConfs: real)

  function SecurityPerConf(q: Quote): real {
    if q.securityPerConf != 0.0 then q.securityPerConf
    else if q.confs != 0 then (if q.equivalentBtcConfs != 0.0 then q.equivalentBtcConfs else 6.0) / q.confs as real
    else 0.0
  }

  function CostPerConf(c: LegConfig, btcHeight: nat, q: Quote): real {
    if c.model == ConfTargetRpc then SecurityPerConf(q) * SubsidySats(btcHeight) as real
    else SubsidySats(btcHeight) as real
  }

  /** Math.ceil(Math.log2(sats / scale)) for sats above the scale: the doublings of the scale that reach sats. */
  function Doublings(sats: real, scale: real): (k: nat)
    requires scale > 0.0
    decreases if sats > scale then Ratio(sats, scale).Floor else 0
  {
    if sats <= scale then 0
    else
      Halved(sats, scale);
      1 + Doublings(sats, 2.0 * scale)
  }

  lemma Halved(sats: real, scale: real)
    requires sats > scale > 0.0
    ensures Ratio(sats, 2.0 * scale).Floor < Ratio(sats, scale).Floor
    ensures Ratio(sats, scale).Floor > 0
  {
    hide Ratio, Times;
    var x, y := Ratio(sats, scale), Ratio(sats, 2.0 * scale);
    RatioTimes(sats, scale);
    RatioTimes(sats, 2.0 * scale);
    Once(scale);
    Divided(x, scale, 1.0);
    DoubleSide(y, scale);
    Divided(x, scale, 2.0 * y);
    Divided(2.0 * y, scale, x);
    HalfFloor(x);
  }

  lemma DoubleSide(y: real, scale: real)
    ensures Times(y, 2.0 * scale) == Times(2.0 * y, scale)
  {
  }

  lemma HalfFloor(x: real)
    requires x > 1.0
    ensures (x / 2.0).Floor < x.Floor && x.Floor > 0
  {
  }

  function FixedDepth(c: LegConfig, btcSats: nat): int
    requires ValidLeg(c)
  {
    Min(FixedCap(c), Max(c.minConfs, c.fixedConfs + Doublings(btcSats as real, c.fixedScaleSats)))
  }

  /** Confirmations whose cost reaches the wanted amount. */
  function CoveringConfs(wanted: real, cost: real): int
    requires cost > 0.0
  {
    Ceil(Ratio(wanted, cost))
  }

  function PricedDepth(c: Config, leg: Leg, btcSats: nat, cost: real): int {
    var l := c.legs.Of(leg);
    var need := if cost > 0.0 then Max(l.minConfs, CoveringConfs(Times(c.reorgMargin, btcSats as real), cost)) else c.unpricedConfs;
    if l.maxConfs > 0 then Min(need, l.maxConfs) else need
  }

  /** reorgConfs. */
  function ReorgConfs(c: Config, leg: Leg, btcSats: nat, btcHeight: nat, q: Quote): (confs: int)
    requires ValidConfig(c)
    ensures confs >= 0
  {
    var l := c.legs.Of(leg);
    if l.model == Fixed then FixedDepth(l, btcSats) else PricedDepth(c, leg, btcSats, CostPerConf(l, btcHeight, q))
  }

  /** Rewriting n confirmations costs at least the margin times the swap's value. */
  predicate CostCovers(c: Config, cost: real, btcSats: nat, n: int) {
    Times(n as real, cost) >= Times(c.reorgMargin, btcSats as real)
  }

  lemma CoveringConfsLeast(wanted: real, cost: real, n: int)
    requires cost > 0.0
    ensures Times(n as real, cost) >= wanted <==> CoveringConfs(wanted, cost) <= n
  {
    hide Ceil, Ratio, Times;
    CeilLeast(Ratio(wanted, cost), n);
    RatioTimes(wanted, cost);
    Divided(Ratio(wanted, cost), cost, n as real);
  }

  lemma Divided(z: real, y: real, n: real)
    requires y > 0.0
    ensures z <= n <==> Times(z, y) <= Times(n, y)
  {
    hide Times;
    if z <= n {
      Scale(z, n, y);
    } else {
      ScaleStrict(n, z, y);
    }
  }

  lemma Distribute(a: real, b: real, y: real)
    ensures Times(a + b, y) == Times(a, y) + Times(b, y) && Times(a - b, y) == Times(a, y) - Times(b, y)
  {
  }

  lemma Once(y: real)
    ensures Times(1.0, y) == y && Times(2.0, y) == 2.0 * y && Times(0.0, y) == 0.0
  {
  }

  lemma Scale(a: real, b: real, y: real)
    requires a <= b && y >= 0.0
    ensures Times(a, y) <= Times(b, y)
  {
  }

  lemma ScaleStrict(a: real, b: real, y: real)
    requires a < b && y > 0.0
    ensures Times(a, y) < Times(b, y)
  {
  }

  lemma Commutes(a: real, b: real)
    ensures Times(a, b) == Times(b, a)
  {
  }

  /** A priced depth is the least one at or above the minimum that covers the value, unless the cap cuts it short. */
  lemma PricedDepthLeast(c: Config, leg: Leg, btcSats: nat, cost: real)
    requires cost > 0.0
    ensures var l, n := c.legs.Of(leg), PricedDepth(c, leg, btcSats, cost);
            if l.maxConfs > 0 && !(l.minConfs <= l.maxConfs && CostCovers(c, cost, btcSats, l.maxConfs)) then
              n == l.maxConfs
            else
              && l.minConfs <= n && CostCovers(c, cost, btcSats, n)
              && forall m: int :: l.minConfs <= m && CostCovers(c, cost, btcSats, m) ==> n <= m
  {
    hide CoveringConfs, Times;
    var l, n := c.legs.Of(leg), PricedDepth(c, leg, btcSats, cost);
    var wanted := Times(c.reorgMargin, btcSats as real);
    CoveringConfsLeast(wanted, cost, l.maxConfs);
    CoveringConfsLeast(wanted, cost, n);
    forall m: int | l.minConfs <= m && CostCovers(c, cost, btcSats, m) ensures n <= m {
      CoveringConfsLeast(wanted, cost, m);
    }
  }

  /** Fifty coins a block, halved every 210,000 blocks and rounded down. */
  lemma SubsidyHalves(height: nat)
    ensures height < 210_000 ==> SubsidySats(height) == 5_000_000_000
    ensures SubsidySats(height + 210_000) == SubsidySats(height) / 2
  {
    var k := height / 210_000;
    assert (height + 210_000) / 210_000 == k + 1;
    HalvedQuotient(5_000_000_000, Doubled(k));
  }

  lemma HalvedQuotient(a: nat, d: int)
    requires d > 0
    ensures a / (2 * d) == (a / d) / 2
  {
    var q: int := a / d;
    var h: int := q / 2;
    assert a == q * d + a % d;
    assert q == 2 * h + q % 2;
    assert q * d == h * (2 * d) + (q % 2) * d;
    QuotientIs(a, 2 * d, h, (q % 2) * d + a % d);
  }

  lemma QuotientIs(a: int, d: int, q: int, r: int)
    requires a == q * d + r && 0 <= r < d
    ensures a / d == q
  {
    var p: int := a / d;
    assert a == p * d + a % d;
    assert (q - p) * d == a % d - r;
    if q > p {
      assert (q - p) * d >= d by { ProductAtLeast(q - p, d); }
    } else if q < p {
      assert (p - q) * d >= d by { ProductAtLeast(p - q, d); }
    }
  }

  lemma ProductAtLeast(k: int, d: int)
    requires k >= 1 && d > 0
    ensures k * d >= d
  {
  }

  /** What rewriting one confirmation of a leg costs: a block reward, or what the node says a confirmation is worth of
      one, taking six BTC confirmations for granted where it does not say how many its target stands for. */
  predicate ConfCost(l: LegConfig, btcHeight: nat, q: Quote, cost: real) {
    var reward := SubsidySats(btcHeight) as real;
    if l.model != ConfTargetRpc then cost == reward
    else if q.securityPerConf != 0.0 then cost == q.securityPerConf * reward
    else if q.confs == 0 then cost == 0.0
    else if q.equivalentBtcConfs != 0.0 then cost == q.equivalentBtcConfs / q.confs as real * reward
    else cost == 6.0 / q.confs as real * reward
  }

  lemma CostIs(l: LegConfig, btcHeight: nat, q: Quote, cost: real)
    ensures ConfCost(l, btcHeight, q, cost) <==> cost == CostPerConf(l, btcHeight, q)
  {
    hide SubsidySats;
  }

  /** Every gate: a fixed leg goes by the swap's value alone; any other takes the least depth that covers the value at
      the cost of a confirmation; without a cost it falls back to the configured depth, and the cap applies. */
  lemma ReorgConfsExactly(c: Config, leg: Leg, btcSats: nat, btcHeight: nat, q: Quote, cost: real)
    requires ValidConfig(c) && ConfCost(c.legs.Of(leg), btcHeight, q, cost)
    ensures var l, n := c.legs.Of(leg), ReorgConfs(c, leg, btcSats, btcHeight, q);
            && (l.model == Fixed ==> n == FixedDepth(l, btcSats))
            && (l.model != Fixed && cost > 0.0 ==> n == PricedDepth(c, leg, btcSats, cost))
            && (l.model != Fixed && cost <= 0.0 ==> n == if 0 < l.maxConfs < c.unpricedConfs then l.maxConfs else c.unpricedConfs)
  {
    hide SubsidySats, FixedDepth, PricedDepth, CostPerConf, ConfCost;
    CostIs(c.legs.Of(leg), btcHeight, q, cost);
    Priceless(c, leg, btcSats, cost);
  }

  lemma Priceless(c: Config, leg: Leg, btcSats: nat, cost: real)
    ensures var l := c.legs.Of(leg);
            cost <= 0.0 ==> PricedDepth(c, leg, btcSats, cost) == if 0 < l.maxConfs < c.unpricedConfs then l.maxConfs else c.unpricedConfs
  {
    hide CoveringConfs, Times;
  }

  /** Up to the scale a fixed leg asks for its base depth, within its minimum and its cap. */
  lemma FixedBase(c: LegConfig, btcSats: nat)
    requires ValidLeg(c) && btcSats as real <= c.fixedScaleSats
    ensures var top := if c.fixedMaxConfs > 0 then c.fixedMaxConfs else c.fixedConfs;
            var base := if c.minConfs > c.fixedConfs then c.minConfs else c.fixedConfs;
            FixedDepth(c, btcSats) == if base > top then top else base
  {
    BelowScale(btcSats as real, c.fixedScaleSats);
  }

  lemma PricedMonotone(c: Config, leg: Leg, a: nat, b: nat, cost: real)
    requires c.reorgMargin >= 0.0 && a <= b
    ensures PricedDepth(c, leg, a, cost) <= PricedDepth(c, leg, b, cost)
  {
    hide CoveringConfs, Times;
    if cost > 0.0 {
      var x, y := Times(c.reorgMargin, a as real), Times(c.reorgMargin, b as real);
      Scale(a as real, b as real, c.reorgMargin);
      Commutes(a as real, c.reorgMargin);
      Commutes(b as real, c.reorgMargin);
      CoveringConfsLeast(x, cost, CoveringConfs(y, cost));
      CoveringConfsLeast(y, cost, CoveringConfs(y, cost));
    }
  }

  lemma {:induction false} DoublingsMonotone(a: real, b: real, scale: real)
    requires scale > 0.0 && a <= b
    ensures Doublings(a, scale) <= Doublings(b, scale)
    decreases if b > scale then Ratio(b, scale).Floor else 0
  {
    hide Ratio;
    if a > scale {
      Halved(b, scale);
      DoublingsMonotone(a, b, 2.0 * scale);
    }
  }

  /** Doubling the value adds exactly one, as soon as the doubled value is above the scale. */
  lemma {:induction false} DoublingAddsOne(sats: real, scale: real)
    requires scale > 0.0
    ensures Doublings(2.0 * sats, scale) == if 2.0 * sats > scale then Doublings(sats, scale) + 1 else 0
    decreases if sats > scale then Ratio(sats, scale).Floor else 0
  {
    hide Ratio;
    if sats > scale {
      Halved(sats, scale);
      DoublingAddsOne(sats, 2.0 * scale);
      assert Doublings(2.0 * sats, scale) == 1 + Doublings(2.0 * sats, 2.0 * scale);
    } else {
      assert Doublings(2.0 * sats, 2.0 * scale) == 0;
      assert 2.0 * sats > scale ==> Doublings(2.0 * sats, scale) == 1 + Doublings(2.0 * sats, 2.0 * scale);
      assert Doublings(sats, scale) == 0;
    }
  }

  function FixedCap(c: LegConfig): nat {
    if c.fixedMaxConfs != 0 then c.fixedMaxConfs else c.fixedConfs
  }

  /** The fixed model adds exactly one confirmation when the value doubles: from the scale on, once the minimum
      no longer decides, until the cap. */
  lemma FixedDepthDoubles(c: LegConfig, btcSats: nat)
    requires ValidLeg(c)
    ensures var grows := 2.0 * btcSats as real > c.fixedScaleSats && FixedDepth(c, btcSats) < FixedCap(c)
                         && c.minConfs <= c.fixedConfs + Doublings(btcSats as real, c.fixedScaleSats);
            FixedDepth(c, 2 * btcSats) == FixedDepth(c, btcSats) + if grows then 1 else 0
  {
    DoublingAddsOne(btcSats as real, c.fixedScaleSats);
    assert (2 * btcSats) as real == 2.0 * btcSats as real;
    BelowScale(btcSats as real, c.fixedScaleSats);
  }

  lemma BelowScale(sats: real, scale: real)
    requires scale > 0.0
    ensures sats <= scale ==> Doublings(sats, scale) == 0
  {
  }

  /** A larger swap never gets a shallower gate. */
  lemma DepthMonotone(c: Config, leg: Leg, a: nat, b: nat, btcHeight: nat, q: Quote)
    requires ValidConfig(c) && a <= b
    ensures ReorgConfs(c, leg, a, btcHeight, q) <= ReorgConfs(c, leg, b, btcHeight, q)
  {
    hide Doublings, CostPerConf, PricedDepth;
    var l := c.legs.Of(leg);
    DoublingsMonotone(a as real, b as real, l.fixedScaleSats);
    PricedMonotone(c, leg, a, b, CostPerConf(l, btcHeight, q));
  }

  /** The shallowest gate any height and any quote can give this swap. */
  function LeastConfs(c: Config, leg: Leg, btcSats: nat): int
    requires ValidConfig(c)
  {
    var l, wanted := c.legs.Of(leg), Times(c.reorgMargin, btcSats as real);
    if l.model == Fixed then FixedDepth(l, btcSats)
    else
      var best := if l.model == BtcSubsidy then CoveringConfs(wanted, 5_000_000_000.0) else if wanted > 0.0 then 1 else 0;
      var least := Min(Max(l.minConfs, best), c.unpricedConfs);
      if l.maxConfs > 0 then Min(least, l.maxConfs) else least
  }

  lemma SubsidyBounds(height: nat)
    ensures 0 <= SubsidySats(height) <= 5_000_000_000
  {
    QuotientBounds(5_000_000_000, Doubled(height / 210_000));
  }

  lemma QuotientBounds(a: int, d: int)
    requires a >= 0 && d > 0
    ensures 0 <= a / d <= a
  {
    var q: int := a / d;
    assert a == q * d + a % d;
    ProductBounds(q, d);
  }

  lemma ProductBounds(q: int, d: int)
    requires d > 0
    ensures q >= 0 ==> q * d >= q
    ensures q < 0 ==> q * d <= -d
  {
    if q < 0 {
      assert (q + 1) * d == q * d + d;
    }
  }

  lemma WantedNotNegative(c: Config, btcSats: nat)
    requires ValidConfig(c)
    ensures Times(c.reorgMargin, btcSats as real) >= 0.0
  {
    hide Times;
    Scale(0.0, c.reorgMargin, btcSats as real);
    Once(btcSats as real);
  }

  /** Dearer confirmations never need more of them; none suffice only when nothing is wanted. */
  lemma CoveringBounds(wanted: real, cost: real, dearest: real)
    requires 0.0 < cost && wanted >= 0.0
    ensures CoveringConfs(wanted, cost) >= if wanted > 0.0 then 1 else 0
    ensures cost <= dearest ==> CoveringConfs(wanted, dearest) <= CoveringConfs(wanted, cost)
  {
    hide CoveringConfs, Times;
    var n := CoveringConfs(wanted, cost);
    CoveringConfsLeast(wanted, cost, 0);
    CoveringConfsLeast(wanted, cost, -1);
    CoveringConfsLeast(wanted, cost, n);
    Once(cost);
    Distribute(0.0, 1.0, cost);
    if cost <= dearest {
      CoveringConfsLeast(wanted, dearest, n);
      Commutes(n as real, cost);
      Commutes(n as real, dearest);
      Scale(cost, dearest, n as real);
    }
  }

  lemma NoGateBelowLeast(c: Config, leg: Leg, btcSats: nat, btcHeight: nat, q: Quote)
    requires ValidConfig(c)
    ensures ReorgConfs(c, leg, btcSats, btcHeight, q) >= LeastConfs(c, leg, btcSats)
  {
    hide CoveringConfs, Times, SubsidySats, SecurityPerConf, FixedDepth;
    var cost := CostPerConf(c.legs.Of(leg), btcHeight, q);
    WantedNotNegative(c, btcSats);
    SubsidyBounds(btcHeight);
    if cost > 0.0 {
      CoveringBounds(Times(c.reorgMargin, btcSats as real), cost, 5_000_000_000.0);
    }
  }

  /** When every gate is at least one block deep. */
  lemma LeastIsPositive(c: Config, leg: Leg, btcSats: nat)
    requires ValidConfig(c)
    ensures LeastConfs(c, leg, btcSats) >= 1 <==>
            var l := c.legs.Of(leg);
            l.model == Fixed || (c.unpricedConfs > 0 && (l.minConfs > 0 || (btcSats > 0 && c.reorgMargin > 0.0)))
    ensures LeastConfs(c, leg, btcSats) >= 0
  {
    hide CoveringConfs, Times, Doublings;
    var wanted := Times(c.reorgMargin, btcSats as real);
    WantedNotNegative(c, btcSats);
    ProductPositive(c.reorgMargin, btcSats as real);
    CoveringBounds(wanted, 5_000_000_000.0, 5_000_000_000.0);
    CoveringConfsLeast(wanted, 5_000_000_000.0, 0);
    Once(5_000_000_000.0);
  }

  lemma ProductPositive(a: real, b: real)
    requires a >= 0.0 && b >= 0.0
    ensures Times(a, b) > 0.0 <==> a > 0.0 && b > 0.0
  {
  }

  /** A height and a quote that give the shallowest gate. */
  function LeastAt(c: Config, leg: Leg, btcSats: nat): (nat, Quote)
    requires ValidConfig(c)
  {
    var l, wanted := c.legs.Of(leg), Times(c.reorgMargin, btcSats as real);
    var best := if l.model == BtcSubsidy then CoveringConfs(wanted, 5_000_000_000.0) else if wanted > 0.0 then 1 else 0;
    if Max(l.minConfs, best) <= c.unpricedConfs
    then (0, Quote(if wanted > 1.0 then wanted else 1.0, 0, 0.0))
    else (33 * 210_000, Quote(0.0, 0, 0.0))
  }

  lemma {:induction false} DoubledSum(a: nat, b: nat)
    ensures Doubled(a + b) == Doubled(a) * Doubled(b)
  {
    if b > 0 {
      DoubledSum(a, b - 1);
      assert Doubled(a) * (2 * Doubled(b - 1)) == 2 * (Doubled(a) * Doubled(b - 1));
    }
  }

  lemma SubsidyEnds()
    ensures SubsidySats(0) == 5_000_000_000 && SubsidySats(33 * 210_000) == 0
  {
    assert Doubled(3) == 8;
    DoubledSum(3, 3);
    DoubledSum(6, 5);
    assert Doubled(5) == 32;
    assert Doubled(11) == 2048;
    DoubledSum(11, 11);
    DoubledSum(22, 11);
  }

  lemma LeastIsReached(c: Config, leg: Leg, btcSats: nat)
    requires ValidConfig(c)
    ensures var (height, q) := LeastAt(c, leg, btcSats);
            ReorgConfs(c, leg, btcSats, height, q) == LeastConfs(c, leg, btcSats)
  {
    hide Times, FixedDepth, SubsidySats, CoveringConfs, Doubled;
    var l, wanted := c.legs.Of(leg), Times(c.reorgMargin, btcSats as real);
    var (height, q) := LeastAt(c, leg, btcSats);
    SubsidyEnds();
    WantedNotNegative(c, btcSats);
    var cost := CostPerConf(l, height, q);
    if l.model == ConfTargetRpc && height == 0 {
      CoveringBounds(wanted, cost, cost);
      CoveringConfsLeast(wanted, cost, if wanted > 0.0 then 1 else 0);
      Once(cost);
    }
  }

  // ---------------------------------------------------------------------------
  // Timelock windows
  // ---------------------------------------------------------------------------

  function ToSecs(c: Config, confs: int): int {
    match c.windows
    case Forced(toSecs, _) => toSecs
    case Derived(minToSecs, toMult, toBaseSecs, _) =>
      Max(minToSecs, Round(Times(Times(confs as real, c.legs.Of(TO).blockSecs), toMult) + toBaseSecs))
  }

  function FromSecs(c: Config, confs: int): int {
    match c.windows
    case Forced(_, fromSecs) => fromSecs
    case Derived(_, _, _, fromGapSecs) => ToSecs(c, confs) + fromGapSecs
  }

  function LocktimeBlocks(c: LegConfig, secs: int): int
    requires c.blockSecs > 0.0
  {
    Max(1, Ceil(Ratio(secs as real, c.blockSecs)))
  }

  /** What deriveHtlcs fixes before it builds the scripts. */
  datatype Plan = Plan(targets: Per<int>, locktimes: Per<int>)

  function PlanFor(c: Config, btcSats: nat, heights: Per<nat>, q: Per<Quote>): Plan
    requires ValidConfig(c)
  {
    var toConfs := ReorgConfs(c, TO, btcSats, heights.btc, q.Of(TO));
    var fromConfs := ReorgConfs(c, FROM, btcSats, heights.btc, q.Of(FROM));
    Plan(Per(fromConfs, toConfs),
         Per(heights.btc + LocktimeBlocks(c.legs.Of(FROM), FromSecs(c, toConfs)),
             heights.qbit + LocktimeBlocks(c.legs.Of(TO), ToSecs(c, toConfs))))
  }

  /** Height of a chain t seconds after derivation, at its nominal block interval. */
  function HeightAt(start: nat, t: real, blockSecs: real): int
    requires blockSecs > 0.0
  {
    start + Ratio(t, blockSecs).Floor
  }

  lemma FloorSpan(t: real, y: real)
    requires y > 0.0
    ensures var n := Ratio(t, y).Floor as real; Times(n, y) <= t < Times(n, y) + y
  {
    hide Ratio, Times;
    var x := Ratio(t, y);
    var n := x.Floor as real;
    RatioTimes(t, y);
    Divided(n, y, x);
    ScaleStrict(x, n + 1.0, y);
    Distribute(n, 1.0, y);
    Once(y);
  }

  lemma CeilSpan(t: real, y: real)
    requires y > 0.0
    ensures var n := Ceil(Ratio(t, y)) as real; Times(n, y) - y < t <= Times(n, y)
  {
    hide Ratio, Ceil, Times;
    var x := Ratio(t, y);
    var n := Ceil(x) as real;
    RatioTimes(t, y);
    CeilIs(x);
    Divided(x, y, n);
    ScaleStrict(n - 1.0, x, y);
    Distribute(n, 1.0, y);
    Once(y);
  }

  lemma BlocksSpan(c: LegConfig, secs: int)
    requires c.blockSecs > 0.0
    ensures Times(LocktimeBlocks(c, secs) as real, c.blockSecs) >= secs as real
    ensures secs >= 0 ==> Times(LocktimeBlocks(c, secs) as real, c.blockSecs) <= secs as real + c.blockSecs
  {
    hide Ceil, Ratio, Times;
    var n := Ceil(Ratio(secs as real, c.blockSecs));
    CeilSpan(secs as real, c.blockSecs);
    Scale(n as real, LocktimeBlocks(c, secs) as real, c.blockSecs);
    Once(c.blockSecs);
    if n < 1 {
      Scale(n as real, 0.0, c.blockSecs);
    }
  }

  /** So many blocks, one at least, take the window's seconds or more. */
  predicate Spans(c: LegConfig, m: int, secs: int) {
    m >= 1 && Times(m as real, c.blockSecs) >= secs as real
  }

  /** The block count of a window is the least one that spans it. */
  lemma BlocksLeast(c: LegConfig, secs: int)
    requires c.blockSecs > 0.0
    ensures var n := LocktimeBlocks(c, secs); Spans(c, n, secs) && forall m :: Spans(c, m, secs) ==> n <= m
  {
    hide Ceil, Ratio, Times;
    BlocksSpan(c, secs);
    var x := Ratio(secs as real, c.blockSecs);
    RatioTimes(secs as real, c.blockSecs);
    forall m | Spans(c, m, secs) ensures LocktimeBlocks(c, secs) <= m {
      CeilLeast(x, m);
      Divided(x, c.blockSecs, m as real);
    }
  }

  /** The two windows: forced ones are taken as they are; otherwise the TO window is the maturity of its target times the
      multiplier plus the base, to the nearest second and never below the minimum, and the FROM window is longer by
      exactly the gap. */
  lemma WindowsExactly(c: Config, confs: int)
    ensures match c.windows
            case Forced(toSecs, fromSecs) => ToSecs(c, confs) == toSecs && FromSecs(c, confs) == fromSecs
            case Derived(minToSecs, toMult, toBaseSecs, fromGapSecs) =>
              var wanted := confs as real * c.legs.Of(TO).blockSecs * toMult + toBaseSecs;
              && FromSecs(c, confs) - ToSecs(c, confs) == fromGapSecs
              && ToSecs(c, confs) >= minToSecs && ToSecs(c, confs) as real > wanted - 0.5
              && (ToSecs(c, confs) > minToSecs ==> ToSecs(c, confs) as real <= wanted + 0.5)
  {
    hide Round;
    if c.windows.Derived? {
      RoundIs(Times(Times(confs as real, c.legs.Of(TO).blockSecs), c.windows.toMult) + c.windows.toBaseSecs);
    }
  }

  /** Tier-Nolan margin: when a reveal passes the gate at time t, the initiator's refund opens more than
      fromGapSecs + (confs + buffer - 2) blocks of the TO chain later, whichever chain is faster. */
  lemma RevealLeavesTime(c: Config, btcSats: nat, heights: Per<nat>, q: Per<Quote>, buffer: int, t: real, refundAt: real)
    requires ValidConfig(c) && c.windows.Derived?
    requires var p := PlanFor(c, btcSats, heights, q);
             && p.locktimes.Of(TO) - HeightAt(heights.Of(TO), t, c.legs.Of(TO).blockSecs) >= p.targets.Of(TO) + buffer
             && HeightAt(heights.Of(FROM), refundAt, c.legs.Of(FROM).blockSecs) >= p.locktimes.Of(FROM)
    ensures var confs := PlanFor(c, btcSats, heights, q).targets.Of(TO);
            refundAt - t > c.windows.fromGapSecs as real + Times((confs + buffer - 2) as real, c.legs.Of(TO).blockSecs)
  {
    hide ReorgConfs, LocktimeBlocks, ToSecs, Ratio, Times;
    var confs := PlanFor(c, btcSats, heights, q).targets.Of(TO);
    var f, s := c.legs.Of(FROM).blockSecs, c.legs.Of(TO).blockSecs;
    BlocksSpan(c.legs.Of(TO), ToSecs(c, confs));
    BlocksSpan(c.legs.Of(FROM), FromSecs(c, confs));
    WindowNotNegative(c, confs);
    FloorSpan(t, s);
    FloorSpan(refundAt, f);
    Margin(LocktimeBlocks(c.legs.Of(TO), ToSecs(c, confs)) as real, Ratio(t, s).Floor as real,
           LocktimeBlocks(c.legs.Of(FROM), FromSecs(c, confs)) as real, Ratio(refundAt, f).Floor as real,
           ToSecs(c, confs) as real, c.windows.fromGapSecs as real, (confs + buffer) as real, s, f, t, refundAt);
  }

  lemma WindowNotNegative(c: Config, confs: int)
    requires c.windows.Derived?
    ensures ToSecs(c, confs) >= 0
  {
    hide Round, Times;
  }

  /** n and m: lock blocks on TO and FROM; h and k: blocks elapsed on them at the reveal and at the refund. */
  lemma Margin(n: real, h: real, m: real, k: real, toSecs: real, gap: real, ahead: real, s: real, f: real, t: real, r: real)
    requires s > 0.0 && f > 0.0
    requires Times(n, s) <= toSecs + s && t < Times(h, s) + s && h <= n - ahead
    requires Times(m, f) >= toSecs + gap && k >= m && r >= Times(k, f)
    ensures r - t > gap + Times(ahead - 2.0, s)
  {
    hide Times;
    Scale(h, n - ahead, s);
    Distribute(n, ahead, s);
    Distribute(ahead, 2.0, s);
    Once(s);
    Scale(m, k, f);
  }

  /** The TO window opens with at least `confs` spare blocks beyond the reveal gate if and only if it is longer than
      one block short of the gate and the spare blocks together, or these come to one block at most. */
  lemma SpareBlocksExactly(c: Config, confs: nat, buffer: int)
    requires ValidConfig(c)
    ensures LocktimeBlocks(c.legs.Of(TO), ToSecs(c, confs)) - (confs + buffer) >= confs <==>
            2 * confs + buffer <= 1
            || ToSecs(c, confs) as real > Times((2 * confs + buffer - 1) as real, c.legs.Of(TO).blockSecs)
  {
    hide Ceil, Ratio, Times, ToSecs;
    var s := c.legs.Of(TO).blockSecs;
    var x := Ratio(ToSecs(c, confs) as real, s);
    var enough := 2 * confs + buffer - 1;
    CeilLeast(x, enough);
    RatioTimes(ToSecs(c, confs) as real, s);
    Divided(x, s, enough as real);
  }

  /** With a claim multiplier of two, a base of at least the buffer's blocks and blocks of at least half a second that
      is always so. */
  lemma SpareBlocks(c: Config, confs: nat, buffer: nat)
    requires ValidConfig(c) && c.windows.Derived? && c.windows.toMult >= 2.0
    requires c.legs.Of(TO).blockSecs >= 0.5
    requires c.windows.toBaseSecs >= Times(buffer as real, c.legs.Of(TO).blockSecs)
    ensures LocktimeBlocks(c.legs.Of(TO), ToSecs(c, confs)) - (confs + buffer) >= confs
  {
    hide LocktimeBlocks, Round, Times;
    var s := c.legs.Of(TO).blockSecs;
    var want := (2 * confs + buffer) as real;
    SpareBlocksExactly(c, confs, buffer);
    RoundIs(Times(Times(confs as real, s), c.windows.toMult) + c.windows.toBaseSecs);
    EnoughSecs(confs as real, s, c.windows.toMult, buffer as real, c.windows.toBaseSecs);
    Distribute(want, 1.0, s);
    Once(s);
  }

  lemma EnoughSecs(confs: real, s: real, mult: real, buffer: real, base: real)
    requires confs >= 0.0 && s >= 0.0 && mult >= 2.0 && base >= Times(buffer, s)
    ensures Times(Times(confs, s), mult) + base >= Times(2.0 * confs + buffer, s)
  {
    hide Times;
    var x := Times(confs, s);
    Scale(0.0, confs, s);
    Once(s);
    Scale(2.0, mult, x);
    Commutes(x, mult);
    Once(x);
    Distribute(confs, confs, s);
    Distribute(confs + confs, buffer, s);
  }

  /** A configuration of faster blocks in which the rounding to whole seconds eats a spare block. */
  lemma SpareBlocksNeedSlowBlocks()
    ensures var l := LegConfig(0.3, 1, BtcSubsidy, 0, 1, 1.0, 0);
            var c := Config(Per(l, l), 3.0, 6, Derived(0, 2.0, 1.8, 7200));
            ValidConfig(c) && c.windows.toBaseSecs >= Times(6.0, l.blockSecs)
            && LocktimeBlocks(c.legs.Of(TO), ToSecs(c, 1)) - (1 + 6) < 1
  {
    assert Round(Times(Times(1.0, 0.3), 2.0) + 1.8) == 2;
    assert Ceil(Ratio(2.0, 0.3)) == 7;
  }
}
