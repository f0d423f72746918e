/** The coordinator's fee, and what a sell-side taker nets (coordinator/swap.js, webapp/src/swapflow.js). Amounts are
    whole sats. */
module Fees {
  import opened Bytes
  import opened Legs
  import Spend

  /** `net` is the network-fee reserve at the current feerate. */
  datatype Policy = Policy(on: bool, bps: nat, feeMin: nat, net: nat)

  /** Math.round(sats * bps / 10000). */
  function Cut(f: Policy, sats: int): int {
    (sats * f.bps + 5000) / 10000
  }

  /** composeFee: below the floor the platform's cut is dropped, the reserve never is. */
  function Compose(cut: int, net: nat, feeMin: nat): int {
    (if cut >= feeMin then cut else 0) + net
  }

  /** feeTotalOn. */
  function FeeOn(f: Policy, sats: int): int {
    if !f.on then 0 else Compose(Cut(f, sats), f.net, f.feeMin)
  }

  predicate Fits(f: Policy, gross: int, b: int) {
    b + FeeOn(f, b) <= gross
  }

  /** The closed form, one above the exact quotient. */
  function ClosedForm(f: Policy, gross: int): int {
    (gross - f.net) * 10000 / (10000 + f.bps) + 1
  }

  /** The candidate without a platform cut is taken when its cut would be floored away. */
  predicate NoPlatform(f: Policy, gross: int) {
    Cut(f, gross - f.net) < f.feeMin
  }

  function StepDown(f: Policy, gross: int, b: int): int
    decreases b
  {
    if b > 0 && !Fits(f, gross, b) then StepDown(f, gross, b - 1) else b
  }

  function TakerNetOfGross(f: Policy, gross: int): int {
    if !f.on then (if gross > 0 then gross else 0)
    else if NoPlatform(f, gross) then (if gross > f.net then gross - f.net else 0)
    else StepDown(f, gross, ClosedForm(f, gross))
  }

  /** takerNetOfGross; `rounds` counts the turns of its correction loop. */
  method TakerNet(f: Policy, gross: int) returns (b: int, ghost rounds: nat)
    ensures b == TakerNetOfGross(f, gross)
    ensures f.on && !NoPlatform(f, gross) ==> rounds == ClosedForm(f, gross) - b
  {
    hide Cut, ClosedForm;
    rounds := 0;
    if !f.on {
      return if gross > 0 then gross else 0, 0;
    }
    var noPlat := gross - f.net;
    if Cut(f, noPlat) < f.feeMin {
      return if noPlat > 0 then noPlat else 0, 0;
    }
    b := ClosedForm(f, gross);
    while b > 0 && b + FeeOn(f, b) > gross
      invariant StepDown(f, gross, b) == StepDown(f, gross, ClosedForm(f, gross))
      invariant rounds == ClosedForm(f, gross) - b
    {
      b := b - 1;
      rounds := rounds + 1;
    }
  }

  // ---------------------------------------------------------------------------
  // Arithmetic of the cut
  // ---------------------------------------------------------------------------

  lemma CutIs(f: Policy, b: int)
    ensures 10000 * Cut(f, b) <= b * f.bps + 5000 < 10000 * Cut(f, b) + 10000
  {
  }

  lemma CutMonotone(f: Policy, a: int, b: int)
    requires a <= b
    ensures Cut(f, a) <= Cut(f, b)
  {
    hide Cut;
    CutIs(f, a);
    CutIs(f, b);
    assert a * f.bps <= b * f.bps by { Larger(a, b, f.bps); }
  }

  lemma Larger(a: int, b: int, k: nat)
    requires a <= b
    ensures a * k <= b * k
  {
  }

  lemma Distribute(b: int, k: int)
    ensures b * (10000 + k) == b * 10000 + b * k && (b + 1) * k == b * k + k
  {
  }

  lemma DivIs(x: int, m: int)
    requires m > 0
    ensures x / m * m <= x < x / m * m + m
  {
  }

  /** One below the closed form always fits; one above never does. */
  lemma ClosedFormBrackets(f: Policy, gross: int)
    requires f.on
    ensures var c := ClosedForm(f, gross);
            (c - 1) + Cut(f, c - 1) + f.net <= gross && (c + 1) + Cut(f, c + 1) + f.net > gross
  {
    hide Cut;
    var c := ClosedForm(f, gross);
    var x := gross - f.net;
    DivIs(x * 10000, 10000 + f.bps);
    Distribute(c - 1, f.bps);
    Distribute(c, f.bps);
    CutIs(f, c - 1);
    CutIs(f, c + 1);
  }

  lemma CutOfNonPositive(f: Policy, b: int)
    requires b <= 0
    ensures Cut(f, b) <= 0
  {
    Larger(b, 0, f.bps);
  }

  lemma PlatformBranch(f: Policy, gross: int)
    requires f.on && f.feeMin > 0 && !NoPlatform(f, gross)
    ensures gross > f.net && ClosedForm(f, gross) >= 1
  {
    hide Cut;
    CutIs(f, gross - f.net);
    if gross <= f.net {
      CutOfNonPositive(f, gross - f.net);
    }
    DivIs((gross - f.net) * 10000, 10000 + f.bps);
  }

  lemma FeeBounds(f: Policy, b: int)
    requires f.on && f.feeMin > 0
    ensures FeeOn(f, b) == f.net || FeeOn(f, b) == Cut(f, b) + f.net
    ensures b >= 0 ==> f.net <= FeeOn(f, b) <= Cut(f, b) + f.net
    ensures Cut(f, b) >= f.feeMin <==> FeeOn(f, b) != f.net
  {
    hide Cut;
    CutIs(f, b);
    if b >= 0 {
      Larger(0, b, f.bps);
    }
  }

  // ---------------------------------------------------------------------------
  // What the taker nets
  // ---------------------------------------------------------------------------

  /** The correction loop turns at most once, and ends at an amount that fits. */
  lemma OneStepDown(f: Policy, gross: int)
    requires f.on && f.feeMin > 0 && !NoPlatform(f, gross)
    ensures var c, b := ClosedForm(f, gross), TakerNetOfGross(f, gross);
            (b == c || b == c - 1) && b >= 0 && Fits(f, gross, b)
  {
    hide Cut, ClosedForm;
    var c := ClosedForm(f, gross);
    PlatformBranch(f, gross);
    ClosedFormBrackets(f, gross);
    FeeBounds(f, c - 1);
    assert StepDown(f, gross, c) == if Fits(f, gross, c) then c else StepDown(f, gross, c - 1);
  }

  /** With a positive floor the result is never negative, and a positive result plus its fee stays within the gross. */
  lemma NetFits(f: Policy, gross: int)
    requires f.on ==> f.feeMin > 0
    ensures var b := TakerNetOfGross(f, gross); b >= 0 && (b > 0 ==> Fits(f, gross, b))
  {
    hide Cut, ClosedForm, StepDown;
    if f.on && !NoPlatform(f, gross) {
      OneStepDown(f, gross);
    }
  }

  ghost predicate Largest(f: Policy, gross: int, b: int) {
    forall x :: x > b ==> !Fits(f, gross, x)
  }

  lemma NothingAbove(f: Policy, gross: int, b: int)
    requires f.on && f.feeMin > 0 && !NoPlatform(f, gross) && b == TakerNetOfGross(f, gross)
    requires Cut(f, b + 1) >= f.feeMin
    ensures Largest(f, gross, b)
  {
    hide Cut, ClosedForm, StepDown;
    var c := ClosedForm(f, gross);
    OneStepDown(f, gross);
    ClosedFormBrackets(f, gross);
    forall x | x > b ensures !Fits(f, gross, x) {
      CutMonotone(f, b + 1, x);
      FeeBounds(f, x);
      if b == c {
        CutMonotone(f, c + 1, x);
      } else {
        StoppedBelow(f, gross);
        FeeBounds(f, c);
        CutMonotone(f, c, x);
      }
    }
  }

  lemma StoppedBelow(f: Policy, gross: int)
    requires f.on && !NoPlatform(f, gross) && ClosedForm(f, gross) > 0
    requires TakerNetOfGross(f, gross) != ClosedForm(f, gross)
    ensures !Fits(f, gross, ClosedForm(f, gross))
  {
    hide Cut, ClosedForm;
  }

  /** The result is the largest amount that fits, if and only if the platform's cut is floored away on the gross, or
      the next amount up would still clear the floor. */
  lemma LargestExactly(f: Policy, gross: int)
    requires f.on && f.feeMin > 0
    ensures Largest(f, gross, TakerNetOfGross(f, gross))
       <==> NoPlatform(f, gross) || Cut(f, TakerNetOfGross(f, gross) + 1) >= f.feeMin
  {
    hide Cut, ClosedForm, StepDown;
    var b := TakerNetOfGross(f, gross);
    NetFits(f, gross);
    if NoPlatform(f, gross) {
      forall x | x > b ensures !Fits(f, gross, x) {
        FeeBounds(f, x);
      }
    } else if Cut(f, b + 1) >= f.feeMin {
      NothingAbove(f, gross, b);
    } else {
      FeeBounds(f, b + 1);
      if gross - f.net <= b {
        CutMonotone(f, gross - f.net, b + 1);
      }
      assert Fits(f, gross, b + 1);
    }
  }

  /** A gross just past the step: 49020 is returned although 49974 still fits. */
  lemma StepLosesSats(net: nat)
    ensures var f := Policy(true, 200, 1000, net);
            TakerNetOfGross(f, net + 50000) == 49020 && Fits(f, net + 50000, 49974)
  {
    var f := Policy(true, 200, 1000, net);
    assert ClosedForm(f, net + 50000) == 49020;
    assert Cut(f, 49020) == 980;
    assert Cut(f, 49974) == 999;
  }

  /** Without a floor a gross below the reserve gives a negative amount. */
  lemma NegativeWithoutFloor()
    ensures TakerNetOfGross(Policy(true, 200, 0, 3), 0) < 0
  {
  }

  // ---------------------------------------------------------------------------
  // Splitting the claim
  // ---------------------------------------------------------------------------

  const DUST: int := 546

  datatype Split = Split(outVal: int, feeOut: Option<int>)

  /** btcClaimSplit. */
  function ClaimSplit(funding: int, netFee: int, feeTotal: int): Split {
    var wanted := if netFee > 0 then netFee else 0;
    var taken := if wanted < feeTotal then wanted else feeTotal;
    Split(funding - feeTotal, if feeTotal - taken > DUST then Some(feeTotal - taken) else None)
  }

  /** The split adds up: the seller gets all but the fee, the miner the network fee within it, the platform the rest; a
      rest that would be dust goes to the miner too. */
  lemma SplitExactly(funding: int, netFee: int, feeTotal: int)
    ensures var split := ClaimSplit(funding, netFee, feeTotal);
            var capped := if netFee >= feeTotal || feeTotal < 0 then feeTotal else if netFee < 0 then 0 else netFee;
            var paid := match split.feeOut case None => 0 case Some(value) => value;
            && split.outVal == funding - feeTotal
            && (split.feeOut.Some? <==> feeTotal - capped > 546)
            && funding - split.outVal - paid == if split.feeOut.Some? then capped else feeTotal
  {
  }

  /** Sats left to the miner by a spend. */
  function MinerFee(q: Spend.Request): int
    requires Spend.Refused(q).None?
  {
    q.amount - Spend.TotalOut(Spend.Outputs(q))
  }

  /** Money end to end on a sell of `size` at `bid`, at one feerate: the maker's outlay stays within its quote; once
      the leg counts as funded, the seller's split claim passes every guard of btcSpend, pays at least the quoted
      amount, and leaves the miner at most the reserved fee. */
  lemma SellConservesMoney(f: Policy, size: nat, bid: real, netFee: int, feeSpk: bytes, q: Spend.Request)
    requires f.on && f.feeMin > 0 && f.net > 0 && bid > 0.0
    requires var quoted := TakerNetOfGross(f, (size as real * bid).Floor);
             && quoted > 0
             && q.amount >= quoted + FeeOn(f, quoted)
             && var split := ClaimSplit(q.amount, netFee, FeeOn(f, quoted));
             q.outVal == split.outVal
             && q.extraOut == if split.feeOut.Some? then Some((split.feeOut.value, feeSpk)) else None
    requires q.branch == Claim && (|q.preimage| == 32 || q.preimage == []) && |q.prevTxid| == 32
    requires 0 <= q.vout <= Spend.MAX_SAFE_INTEGER && Spend.RequestFits(q)
    ensures var quoted := TakerNetOfGross(f, (size as real * bid).Floor);
            && quoted + FeeOn(f, quoted) <= (size as real * bid).Floor
            && Spend.Refused(q).None?
            && q.outVal >= quoted
            && 0 <= MinerFee(q) <= FeeOn(f, quoted)
  {
    hide Cut, TakerNetOfGross, Spend.Outputs, Spend.RequestFits, Spend.TotalOut;
    var gross := (size as real * bid).Floor;
    var quoted := TakerNetOfGross(f, gross);
    NetFits(f, gross);
    FeeBounds(f, quoted);
    Spend.BtcSpendConserves(q);
  }
}
