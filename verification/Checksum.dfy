/** The bech32 checksum: a linear code over 30-bit words (client/p2mr.js, client/addr.js). */
module Checksum {

  /** The low 30 bits of the JavaScript number; no operation below ever sets a higher one. */
  datatype Word = Word(bits: bv30)

  const ZERO: Word := Word(0)
  const ONE: Word := Word(1)

  function Xor(a: Word, b: Word): Word {
    Word(a.bits ^ b.bits)
  }

  /** Bit i, counted from the low end. */
  predicate Bit(b: Word, i: nat)
    requires i < 5
  {
    Masked(b, i) != ZERO
  }

  function Masked(b: Word, i: nat): Word
    requires i < 5
  {
    Word(b.bits & Mask(i))
  }

  function Mask(i: nat): bv30
    requires i < 5
  {
    if i == 0 then 1 else if i == 1 then 2 else if i == 2 then 4 else if i == 3 then 8 else 16
  }

  function Generator(i: nat): Word
    requires i < 5
  {
    Word(if i == 0 then 0x3b6a57b2 else if i == 1 then 0x26508e6d else if i == 2 then 0x1ea119fa
         else if i == 3 then 0x3d4233dd else 0x2a1462b3)
  }

  function Tap(b: Word, i: nat): Word
    requires i < 5
  {
    if Bit(b, i) then Generator(i) else ZERO
  }

  /** The generators picked out by the first n of the five bits shifted out. */
  function Taps(b: Word, n: nat): Word
    requires n <= 5
  {
    if n == 0 then ZERO else Xor(Taps(b, n - 1), Tap(b, n - 1))
  }

  function ShiftedOut(c: Word): Word {
    Word(c.bits >> 25)
  }

  function ShiftedLeft(c: Word): Word {
    Word((c.bits & 0x1ffffff) << 5)
  }

  function Step(c: Word, x: Word): Word {
    Xor(Xor(ShiftedLeft(c), x), Taps(ShiftedOut(c), 5))
  }

  function Fold(c: Word, v: seq<Word>): Word {
    if v == [] then c else Step(Fold(c, v[..|v| - 1]), v[|v| - 1])
  }

  method Polymod(v: seq<Word>) returns (c: Word)
    ensures c == Fold(ONE, v)
  {
    hide Xor, Tap, ShiftedOut, ShiftedLeft;
    c := ONE;
    for k := 0 to |v|
      invariant c == Fold(ONE, v[..k])
    {
      assert v[..k + 1][..k] == v[..k];
      var b := ShiftedOut(c);
      ghost var shifted := Xor(ShiftedLeft(c), v[k]);
      c := Xor(ShiftedLeft(c), v[k]);
      XorZero(c);
      for i := 0 to 5
        invariant c == Xor(shifted, Taps(b, i))
      {
        XorAssoc(shifted, Taps(b, i), Tap(b, i));
        c := Xor(c, Tap(b, i));
      }
    }
    assert v[..|v|] == v;
  }

  // ---------------------------------------------------------------------------
  // Facts about single words
  // ---------------------------------------------------------------------------

  lemma XorAssoc(a: Word, b: Word, c: Word)
    ensures Xor(Xor(a, b), c) == Xor(a, Xor(b, c))
  {
  }

  lemma XorZero(a: Word)
    ensures Xor(a, ZERO) == a && Xor(ZERO, a) == a && Xor(a, a) == ZERO
  {
  }

  lemma XorSwap(a: Word, b: Word, c: Word, d: Word)
    ensures Xor(Xor(a, b), Xor(c, d)) == Xor(Xor(a, c), Xor(b, d))
  {
    hide Xor;
    XorAssoc(a, b, Xor(c, d));
    XorAssoc(b, c, d);
    XorCommutes(b, c);
    XorAssoc(c, b, d);
    XorAssoc(a, c, Xor(b, d));
  }

  lemma XorCancel(a: Word, b: Word)
    ensures Xor(a, b) == ZERO <==> a == b
  {
    hide Xor;
    XorTwice(a, b);
    XorZero(a);
  }

  lemma XorTwice(a: Word, b: Word)
    ensures Xor(a, Xor(a, b)) == b
  {
  }

  lemma XorCommutes(a: Word, b: Word)
    ensures Xor(a, b) == Xor(b, a)
  {
  }

  lemma BitXor(b: Word, d: Word, i: nat)
    requires i < 5
    ensures Bit(Xor(b, d), i) <==> Bit(b, i) != Bit(d, i)
  {
    hide Xor, Masked, Mask;
    MaskedXor(b, d, i);
    OneBit(b, i);
    OneBit(d, i);
    XorCancel(Masked(b, i), Masked(d, i));
  }

  lemma MaskedXor(b: Word, d: Word, i: nat)
    requires i < 5
    ensures Masked(Xor(b, d), i) == Xor(Masked(b, i), Masked(d, i))
  {
    hide Mask;
  }

  lemma OneBit(b: Word, i: nat)
    requires i < 5
    ensures Masked(b, i) == ZERO || Masked(b, i) == Word(Mask(i))
  {
  }

  lemma TapXor(b: Word, d: Word, i: nat)
    requires i < 5
    ensures Tap(Xor(b, d), i) == Xor(Tap(b, i), Tap(d, i))
  {
    hide Xor, Generator, Bit;
    BitXor(b, d, i);
    XorZero(Generator(i));
    XorZero(ZERO);
  }

  lemma ShiftedOutXor(c: Word, d: Word)
    ensures ShiftedOut(Xor(c, d)) == Xor(ShiftedOut(c), ShiftedOut(d))
  {
  }

  lemma ShiftedLeftXor(c: Word, d: Word)
    ensures ShiftedLeft(Xor(c, d)) == Xor(ShiftedLeft(c), ShiftedLeft(d))
  {
  }

  // ---------------------------------------------------------------------------
  // A step is linear and loses nothing
  // ---------------------------------------------------------------------------

  lemma {:induction false} TapsXor(b: Word, d: Word, n: nat)
    requires n <= 5
    ensures Taps(Xor(b, d), n) == Xor(Taps(b, n), Taps(d, n))
  {
    hide Xor, Tap;
    if n == 0 {
      XorZero(ZERO);
    } else {
      TapsXor(b, d, n - 1);
      TapXor(b, d, n - 1);
      XorSwap(Taps(b, n - 1), Taps(d, n - 1), Tap(b, n - 1), Tap(d, n - 1));
    }
  }

  lemma StepLinear(c: Word, d: Word, x: Word, y: Word)
    ensures Step(Xor(c, d), Xor(x, y)) == Xor(Step(c, x), Step(d, y))
  {
    hide Xor, Taps, ShiftedOut, ShiftedLeft;
    ShiftedOutXor(c, d);
    ShiftedLeftXor(c, d);
    TapsXor(ShiftedOut(c), ShiftedOut(d), 5);
    XorSwap(ShiftedLeft(c), ShiftedLeft(d), x, y);
    XorSwap(Xor(ShiftedLeft(c), x), Xor(ShiftedLeft(d), y), Taps(ShiftedOut(c), 5), Taps(ShiftedOut(d), 5));
  }

  lemma {:induction false} FoldLinear(c: Word, d: Word, u: seq<Word>, v: seq<Word>, w: seq<Word>)
    requires |u| == |v| == |w| && forall k :: 0 <= k < |u| ==> u[k] == Xor(v[k], w[k])
    ensures Fold(Xor(c, d), u) == Xor(Fold(c, v), Fold(d, w))
  {
    hide Xor, Step;
    if v != [] {
      var n := |v| - 1;
      FoldLinear(c, d, u[..n], v[..n], w[..n]);
      StepLinear(Fold(c, v[..n]), Fold(d, w[..n]), v[n], w[n]);
    }
  }

  lemma TapsUnrolled(b: Word)
    ensures Taps(b, 5) == Xor(Xor(Xor(Xor(Tap(b, 0), Tap(b, 1)), Tap(b, 2)), Tap(b, 3)), Tap(b, 4))
  {
    hide Xor, Tap;
    XorZero(Tap(b, 0));
    assert Taps(b, 1) == Tap(b, 0);
    assert Taps(b, 3) == Xor(Xor(Tap(b, 0), Tap(b, 1)), Tap(b, 2));
  }

  /** The generators are independent in their low five bits, so a step from a nonzero state stays nonzero. */
  lemma StepLossless(c: Word)
    ensures Step(c, ZERO) == ZERO <==> c == ZERO
  {
    hide Taps, Xor, ShiftedOut, ShiftedLeft;
    var taps := Taps(ShiftedOut(c), 5);
    XorZero(ShiftedLeft(c));
    OutIsSmall(c);
    XorCancel(ShiftedLeft(c), taps);
    LeftHasNoLow(c);
    TapsLow(ShiftedOut(c));
    SplitZero(c);
  }

  lemma OutIsSmall(c: Word)
    ensures ShiftedOut(c).bits < 32
  {
  }

  lemma LeftHasNoLow(c: Word)
    ensures ShiftedLeft(c).bits & 31 == 0
  {
  }

  lemma SplitZero(c: Word)
    ensures ShiftedLeft(c) == ZERO && ShiftedOut(c) == ZERO <==> c == ZERO
  {
  }

  lemma TapsLow(b: Word)
    requires b.bits < 32
    ensures Taps(b, 5).bits & 31 == 0 ==> b == ZERO
    ensures b == ZERO ==> Taps(b, 5) == ZERO
  {
    hide Taps, Xor, Bit;
    TapsUnrolled(b);
    Independent(Bit(b, 0), Bit(b, 1), Bit(b, 2), Bit(b, 3), Bit(b, 4));
    NoBits(b);
  }

  function Picked(picked: bool, i: nat): Word
    requires i < 5
  {
    if picked then Generator(i) else ZERO
  }

  lemma Independent(p: bool, q: bool, r: bool, s: bool, t: bool)
    ensures Xor(Xor(Xor(Xor(Picked(p, 0), Picked(q, 1)), Picked(r, 2)), Picked(s, 3)), Picked(t, 4)).bits & 31 == 0 ==>
              !p && !q && !r && !s && !t
    ensures !p && !q && !r && !s && !t ==>
              Xor(Xor(Xor(Xor(Picked(p, 0), Picked(q, 1)), Picked(r, 2)), Picked(s, 3)), Picked(t, 4)) == ZERO
  {
  }

  lemma NoBits(b: Word)
    requires b.bits < 32
    ensures !Bit(b, 0) && !Bit(b, 1) && !Bit(b, 2) && !Bit(b, 3) && !Bit(b, 4) <==> b == ZERO
  {
  }

  lemma {:induction false} FoldAppend(c: Word, v: seq<Word>, w: seq<Word>)
    ensures Fold(c, v + w) == Fold(Fold(c, v), w)
  {
    hide Step;
    if w == [] {
      assert v + w == v;
    } else {
      FoldAppend(c, v, w[..|w| - 1]);
      assert (v + w)[..|v + w| - 1] == v + w[..|w| - 1];
    }
  }

  predicate AllZero(v: seq<Word>) {
    forall k :: 0 <= k < |v| ==> v[k] == ZERO
  }

  lemma {:induction false} ZerosKeep(c: Word, v: seq<Word>)
    requires AllZero(v)
    ensures Fold(c, v) == ZERO <==> c == ZERO
  {
    hide Step;
    if v != [] {
      ZerosKeep(c, v[..|v| - 1]);
      StepLossless(Fold(c, v[..|v| - 1]));
    }
  }

  // ---------------------------------------------------------------------------
  // Six symbols are all still in the state
  // ---------------------------------------------------------------------------

  predicate Small(x: Word) {
    x.bits < 32
  }

  predicate AllSmall(v: seq<Word>) {
    forall k :: 0 <= k < |v| ==> Small(v[k])
  }

  /** How large the state can get from k symbols after zero. */
  predicate Within(c: Word, k: nat) {
    if k == 0 then c == ZERO else if k == 1 then c.bits < 0x20 else if k == 2 then c.bits < 0x400
    else if k == 3 then c.bits < 0x8000 else if k == 4 then c.bits < 0x10_0000 else if k == 5 then c.bits < 0x200_0000
    else true
  }

  function Shifted(c: Word, x: Word): Word {
    Word((c.bits << 5) ^ x.bits)
  }

  lemma NoFeedback(c: Word)
    requires c.bits < 0x200_0000
    ensures Taps(ShiftedOut(c), 5) == ZERO
  {
    hide Taps, Tap, Xor, ShiftedOut;
    NothingOut(c);
    TapsUnrolled(ZERO);
    NoTaps();
    XorZero(ZERO);
  }

  lemma NothingOut(c: Word)
    requires c.bits < 0x200_0000
    ensures ShiftedOut(c) == ZERO
  {
  }

  lemma NothingLost(c: Word)
    ensures ShiftedLeft(c).bits == c.bits << 5
  {
  }

  lemma NoTaps()
    ensures forall i: nat | i < 5 :: Tap(ZERO, i) == ZERO
  {
  }

  lemma SmallStep(c: Word, x: Word, k: nat)
    requires k <= 5 && Within(c, k) && Small(x)
    ensures Step(c, x) == Shifted(c, x) && Within(Shifted(c, x), k + 1)
    ensures Shifted(c, x) == ZERO <==> c == ZERO && x == ZERO
  {
    hide Taps, ShiftedOut, ShiftedLeft;
    NoFeedback(c);
    NothingLost(c);
    XorZero(Xor(ShiftedLeft(c), x));
  }

  /** Up to six symbols from zero: only zeros leave zero. */
  lemma {:induction false} WindowNonzero(w: seq<Word>)
    requires |w| <= 6 && AllSmall(w)
    ensures Fold(ZERO, w) == ZERO <==> AllZero(w)
    ensures Within(Fold(ZERO, w), |w|)
  {
    hide Step, Shifted, Within, Small;
    if w == [] {
      WithinZero();
    } else {
      var n := |w| - 1;
      WindowNonzero(w[..n]);
      SmallStep(Fold(ZERO, w[..n]), w[n], n);
    }
  }

  lemma WithinZero()
    ensures Within(ZERO, 0)
  {
  }

  /** A difference confined to six consecutive symbols never cancels out. */
  lemma BurstDetected(lead: seq<Word>, w: seq<Word>, tail: seq<Word>)
    requires |w| <= 6 && AllSmall(w) && AllZero(lead) && AllZero(tail)
    ensures Fold(ZERO, lead + w + tail) == ZERO <==> AllZero(w)
  {
    hide Step;
    FoldAppend(ZERO, lead + w, tail);
    FoldAppend(ZERO, lead, w);
    ZerosKeep(ZERO, lead);
    WindowNonzero(w);
    ZerosKeep(Fold(ZERO, w), tail);
  }

  /** The six five-bit pieces of a word, high first: the checksum symbols. */
  function Pieces(c: Word): seq<Word> {
    [Word((c.bits >> 25) & 31), Word((c.bits >> 20) & 31), Word((c.bits >> 15) & 31),
     Word((c.bits >> 10) & 31), Word((c.bits >> 5) & 31), Word(c.bits & 31)]
  }

  lemma PiecesSmall(c: Word)
    ensures AllSmall(Pieces(c))
  {
    hide Small;
    MaskSmall(c.bits >> 25);
    MaskSmall(c.bits >> 20);
    MaskSmall(c.bits >> 15);
    MaskSmall(c.bits >> 10);
    MaskSmall(c.bits >> 5);
    MaskSmall(c.bits);
  }

  lemma MaskSmall(x: bv30)
    ensures Small(Word(x & 31))
  {
  }

  lemma FoldNext(c: Word, v: seq<Word>, x: Word)
    ensures Fold(c, v + [x]) == Step(Fold(c, v), x)
  {
    hide Step;
    assert (v + [x])[..|v|] == v;
  }

  lemma WindowFold(w: seq<Word>, x: Word)
    requires |w| <= 5 && AllSmall(w) && Small(x)
    ensures Fold(ZERO, w + [x]) == Shifted(Fold(ZERO, w), x)
  {
    hide Step, Shifted, Within, Small;
    FoldNext(ZERO, w, x);
    WindowNonzero(w);
    SmallStep(Fold(ZERO, w), x, |w|);
  }

  /** Folding the pieces of a word from zero gives the word back. */
  lemma PiecesFold(c: Word)
    ensures Fold(ZERO, Pieces(c)) == c
  {
    hide Step, Fold, Shifted, Small, Pieces;
    var w := Pieces(c);
    PiecesSmall(c);
    PiecesJoin(c);
    FoldEmpty(ZERO);
    WindowFold([], w[0]);
    WindowFold(w[..1], w[1]);
    WindowFold(w[..2], w[2]);
    WindowFold(w[..3], w[3]);
    WindowFold(w[..4], w[4]);
    WindowFold(w[..5], w[5]);
    assert [] + [w[0]] == w[..1] && w[..1] + [w[1]] == w[..2] && w[..2] + [w[2]] == w[..3];
    assert w[..3] + [w[3]] == w[..4] && w[..4] + [w[4]] == w[..5] && w[..5] + [w[5]] == w;
  }

  lemma FoldEmpty(c: Word)
    ensures Fold(c, []) == c
  {
  }

  lemma PiecesJoin(c: Word)
    ensures |Pieces(c)| == 6
    ensures var w := Pieces(c);
            Shifted(Shifted(Shifted(Shifted(Shifted(Shifted(ZERO, w[0]), w[1]), w[2]), w[3]), w[4]), w[5]) == c
  {
  }

  // ---------------------------------------------------------------------------
  // Checksums made and checked
  // ---------------------------------------------------------------------------

  const SIX_ZEROS: seq<Word> := [ZERO, ZERO, ZERO, ZERO, ZERO, ZERO]

  /** The six symbols that bring state c to the wanted value. */
  function Tag(c: Word, wanted: Word): seq<Word> {
    Pieces(Xor(Fold(c, SIX_ZEROS), wanted))
  }

  lemma XorZeros(v: seq<Word>)
    requires |v| == 6
    ensures forall k :: 0 <= k < 6 ==> v[k] == Xor(SIX_ZEROS[k], v[k])
  {
    hide Xor;
    forall k | 0 <= k < 6 ensures v[k] == Xor(SIX_ZEROS[k], v[k]) {
      XorZero(v[k]);
    }
  }

  lemma FoldSplits(c: Word, v: seq<Word>)
    requires |v| == 6
    ensures Fold(c, v) == Xor(Fold(c, SIX_ZEROS), Fold(ZERO, v))
  {
    hide Xor, Fold;
    XorZeros(v);
    XorZero(c);
    FoldLinear(c, ZERO, v, SIX_ZEROS, v);
  }

  /** Exactly one choice of six symbols satisfies the check. */
  lemma TagUnique(c: Word, wanted: Word, q: seq<Word>)
    requires |q| == 6 && AllSmall(q)
    ensures Fold(c, q) == wanted <==> q == Tag(c, wanted)
  {
    hide Xor, Fold, Pieces, AllSmall;
    var f := Fold(c, SIX_ZEROS);
    var p := Xor(f, wanted);
    FoldSplits(c, q);
    PiecesFold(p);
    PiecesSmall(p);
    PiecesCount(p);
    XorTwice(f, wanted);
    XorTwice(f, Fold(ZERO, q));
    SameFoldSameWindow(q, Pieces(p));
  }

  lemma PiecesCount(c: Word)
    ensures |Pieces(c)| == 6
  {
  }

  function Difference(u: seq<Word>, v: seq<Word>): (d: seq<Word>)
    requires |u| == |v|
    ensures |d| == |u|
  {
    seq(|u|, k requires 0 <= k < |u| => Xor(u[k], v[k]))
  }

  lemma DifferenceFold(c: Word, u: seq<Word>, v: seq<Word>)
    requires |u| == |v|
    ensures Fold(ZERO, Difference(u, v)) == Xor(Fold(c, u), Fold(c, v))
  {
    hide Xor, Fold;
    XorZero(c);
    FoldLinear(c, c, Difference(u, v), u, v);
  }

  lemma DifferenceZero(u: seq<Word>, v: seq<Word>)
    requires |u| == |v|
    ensures AllZero(Difference(u, v)) <==> u == v
  {
    hide Xor;
    forall k | 0 <= k < |u| ensures Xor(u[k], v[k]) == ZERO <==> u[k] == v[k] {
      XorCancel(u[k], v[k]);
    }
    if AllZero(Difference(u, v)) {
      forall k | 0 <= k < |u| ensures u[k] == v[k] {
        assert Difference(u, v)[k] == ZERO;
      }
    }
  }

  lemma DifferenceSmall(u: seq<Word>, v: seq<Word>)
    requires |u| == |v| && AllSmall(u) && AllSmall(v)
    ensures AllSmall(Difference(u, v))
  {
    hide Xor, Small;
    forall k | 0 <= k < |u| ensures Small(Xor(u[k], v[k])) {
      XorSmall(u[k], v[k]);
    }
  }

  lemma XorSmall(a: Word, b: Word)
    requires Small(a) && Small(b)
    ensures Small(Xor(a, b))
  {
  }

  lemma SameFoldSameWindow(u: seq<Word>, v: seq<Word>)
    requires |u| == |v| <= 6 && AllSmall(u) && AllSmall(v)
    ensures Fold(ZERO, u) == Fold(ZERO, v) <==> u == v
  {
    hide Xor, Fold, Difference, AllSmall;
    DifferenceFold(ZERO, u, v);
    XorCancel(Fold(ZERO, u), Fold(ZERO, v));
    DifferenceSmall(u, v);
    WindowNonzero(Difference(u, v));
    DifferenceZero(u, v);
  }

  /** Changing symbols inside one window of six always changes the result. */
  lemma BurstChangesFold(c: Word, lead: seq<Word>, u: seq<Word>, v: seq<Word>, tail: seq<Word>)
    requires |u| == |v| <= 6 && AllSmall(u) && AllSmall(v)
    ensures Fold(c, lead + u + tail) == Fold(c, lead + v + tail) <==> u == v
  {
    hide Xor, Fold, AllSmall, AllZero;
    var x, y := lead + u + tail, lead + v + tail;
    DifferenceFold(c, x, y);
    XorCancel(Fold(c, x), Fold(c, y));
    DifferenceParts(lead, u, v, tail);
    DifferenceZero(lead, lead);
    DifferenceZero(tail, tail);
    DifferenceSmall(u, v);
    BurstDetected(Difference(lead, lead), Difference(u, v), Difference(tail, tail));
    DifferenceZero(u, v);
  }

  lemma DifferenceParts(lead: seq<Word>, u: seq<Word>, v: seq<Word>, tail: seq<Word>)
    requires |u| == |v|
    ensures Difference(lead + u + tail, lead + v + tail)
         == Difference(lead, lead) + Difference(u, v) + Difference(tail, tail)
  {
    hide Xor;
  }
}
