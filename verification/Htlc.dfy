/** The two HTLC scripts (client/bitcoin.js, client/p2mr.js) and what it takes to satisfy them. */
module Htlc {
  import opened Bytes
  import opened Encoding
  import S = Script

  /** The two script families a leg can be configured with. */
  datatype Family = P2wshEcdsa | P2mrSlhdsa

  function KeyLength(f: Family): nat {
    if f == P2wshEcdsa then 33 else 32
  }

  function SigOp(f: Family): byte {
    if f == P2wshEcdsa then S.CHECKSIG else S.CHECKSIGPQC
  }

  /** htlcWitnessScript and htlcLeafQbit: they differ in key length and signature opcode only. */
  function HtlcScript(f: Family, hashH: bytes, claim: bytes, refund: bytes, locktime: int): Result<bytes> {
    if |hashH| != 32 || |claim| != KeyLength(f) || |refund| != KeyLength(f) then Err(BadLength)
    else if !ValidLocktime(locktime) then Err(BadLocktime)
    else Ok(ScriptBytes(f, hashH, claim, refund, locktime))
  }

  function ScriptBytes(f: Family, hashH: bytes, claim: bytes, refund: bytes, locktime: int): bytes {
    [S.IF] + (ClaimBytes(f, hashH, claim) + ([S.ELSE] + (RefundBytes(f, refund, locktime) + [S.ENDIF])))
  }

  function ClaimBytes(f: Family, hashH: bytes, claim: bytes): bytes {
    [S.SIZE] + (PushData(ScriptNum(32)) + ([S.EQUALVERIFY] + ([S.SHA256] + (PushData(hashH) +
    ([S.EQUALVERIFY] + (PushData(claim) + [SigOp(f)]))))))
  }

  function RefundBytes(f: Family, refund: bytes, locktime: int): bytes {
    PushData(ScriptNum(locktime)) + ([S.CLTV] + ([S.DROP] + (PushData(refund) + [SigOp(f)])))
  }

  function SigCheck(f: Family): S.Op {
    if f == P2wshEcdsa then S.CheckSig else S.CheckSigPqc
  }

  function ClaimOps(f: Family, hashH: bytes, claim: bytes): seq<S.Op> {
    [S.Size, S.Push(ScriptNum(32)), S.EqualVerify, S.Sha256, S.Push(hashH), S.EqualVerify, S.Push(claim), SigCheck(f)]
  }

  function RefundOps(f: Family, refund: bytes, locktime: int): seq<S.Op> {
    [S.Push(ScriptNum(locktime)), S.CheckLockTimeVerify, S.Drop, S.Push(refund), SigCheck(f)]
  }

  function HtlcOps(f: Family, hashH: bytes, claim: bytes, refund: bytes, locktime: int): seq<S.Op> {
    [S.If] + (ClaimOps(f, hashH, claim) + ([S.Else] + (RefundOps(f, refund, locktime) + [S.EndIf])))
  }

  function Assemble(ops: seq<S.Op>): bytes {
    if ops == [] then [] else S.Code(ops[0]) + Assemble(ops[1..])
  }

  lemma {:induction false} ParseAssembled(ops: seq<S.Op>)
    requires forall k :: 0 <= k < |ops| ==> S.Codable(ops[k])
    ensures S.Parse(Assemble(ops)) == Some(ops)
  {
    hide S.Parse, S.Code;
    if ops == [] {
      ParsesEmpty();
    } else {
      ParseAssembled(ops[1..]);
      S.ParseCode(ops[0], Assemble(ops[1..]));
      assert ops == [ops[0]] + ops[1..];
    }
  }

  lemma ParsesEmpty()
    ensures S.Parse([]) == Some([])
  {
  }

  lemma AssembleOne(op: S.Op)
    ensures Assemble([op]) == S.Code(op)
  {
    assert [op][1..] == [];
  }

  lemma {:induction false} AssembleAppend(a: seq<S.Op>, b: seq<S.Op>)
    ensures Assemble(a + b) == Assemble(a) + Assemble(b)
  {
    hide S.Code;
    if a == [] {
      assert a + b == b;
    } else {
      assert (a + b)[1..] == a[1..] + b;
      AssembleAppend(a[1..], b);
    }
  }

  lemma ClaimAssembles(f: Family, hashH: bytes, claim: bytes)
    ensures Assemble(ClaimOps(f, hashH, claim)) == ClaimBytes(f, hashH, claim)
  {
    hide Assemble, PushData, ScriptNum;
    var o1 := [SigCheck(f)];
    var o2 := [S.Push(claim)] + o1;
    var o3 := [S.EqualVerify] + o2;
    var o4 := [S.Push(hashH)] + o3;
    var o5 := [S.Sha256] + o4;
    var o6 := [S.EqualVerify] + o5;
    var o7 := [S.Push(ScriptNum(32))] + o6;
    assert ClaimOps(f, hashH, claim) == [S.Size] + o7;
    AssembleOne(SigCheck(f));
    AssembleNext(S.Push(claim), o1);
    AssembleNext(S.EqualVerify, o2);
    AssembleNext(S.Push(hashH), o3);
    AssembleNext(S.Sha256, o4);
    AssembleNext(S.EqualVerify, o5);
    AssembleNext(S.Push(ScriptNum(32)), o6);
    AssembleNext(S.Size, o7);
  }

  lemma RefundAssembles(f: Family, refund: bytes, locktime: int)
    ensures Assemble(RefundOps(f, refund, locktime)) == RefundBytes(f, refund, locktime)
  {
    hide Assemble, PushData, ScriptNum;
    var o1 := [SigCheck(f)];
    var o2 := [S.Push(refund)] + o1;
    var o3 := [S.Drop] + o2;
    var o4 := [S.CheckLockTimeVerify] + o3;
    assert RefundOps(f, refund, locktime) == [S.Push(ScriptNum(locktime))] + o4;
    AssembleOne(SigCheck(f));
    AssembleNext(S.Push(refund), o1);
    AssembleNext(S.Drop, o2);
    AssembleNext(S.CheckLockTimeVerify, o3);
    AssembleNext(S.Push(ScriptNum(locktime)), o4);
  }

  lemma AssembleNext(op: S.Op, ops: seq<S.Op>)
    ensures Assemble([op] + ops) == S.Code(op) + Assemble(ops)
  {
    hide S.Code;
    assert ([op] + ops)[1..] == ops;
  }

  /** The bytes parse to the sixteen intended operations. */
  lemma ScriptParses(f: Family, hashH: bytes, claim: bytes, refund: bytes, locktime: int)
    requires HtlcScript(f, hashH, claim, refund, locktime).Ok?
    ensures S.Parse(HtlcScript(f, hashH, claim, refund, locktime).value)
         == Some(HtlcOps(f, hashH, claim, refund, locktime))
  {
    hide S.Parse, Assemble, ClaimBytes, RefundBytes, ScriptNum;
    HeightNumLength(locktime);
    HeightNumLength(32);
    var claiming, refunding := ClaimOps(f, hashH, claim), RefundOps(f, refund, locktime);
    ClaimAssembles(f, hashH, claim);
    RefundAssembles(f, refund, locktime);
    AssembleOne(S.EndIf);
    AssembleAppend(refunding, [S.EndIf]);
    AssembleNext(S.Else, refunding + [S.EndIf]);
    AssembleAppend(claiming, [S.Else] + (refunding + [S.EndIf]));
    AssembleNext(S.If, claiming + ([S.Else] + (refunding + [S.EndIf])));
    ParseAssembled(HtlcOps(f, hashH, claim, refund, locktime));
  }

  // ---------------------------------------------------------------------------
  // What the script means
  // ---------------------------------------------------------------------------

  predicate SigValid(f: Family, ctx: S.Context, key: bytes, sig: bytes) {
    if f == P2wshEcdsa then ctx.ecdsaValid(key, sig) else ctx.pqcValid(key, sig)
  }

  /** A true selector, a 32-byte preimage of the hash, and a signature by the claim key. */
  predicate ClaimSpend(f: Family, hashH: bytes, claim: bytes, stack: seq<bytes>, ctx: S.Context) {
    && |stack| == 3
    && S.Truthy(stack[2]) && (ctx.minimalIf ==> stack[2] == [1])
    && |stack[1]| == 32 && ctx.sha(stack[1]) == hashH
    && SigValid(f, ctx, claim, stack[0])
  }

  /** A false selector, a reached lock height on a non-final input, and a signature by the refund key. */
  predicate RefundSpend(f: Family, refund: bytes, locktime: int, stack: seq<bytes>, ctx: S.Context) {
    && |stack| == 2
    && !S.Truthy(stack[1]) && (ctx.minimalIf ==> stack[1] == [])
    && locktime <= ctx.locktime < 500_000_000 && ctx.sequence != 0xffff_ffff
    && SigValid(f, ctx, refund, stack[0])
  }

  function Bind(m: Option<S.Machine>, ops: seq<S.Op>, ctx: S.Context): Option<S.Machine> {
    match m case None => None case Some(m') => S.Run(ops, m', ctx)
  }

  lemma RunNext(op: S.Op, ops: seq<S.Op>, m: S.Machine, ctx: S.Context)
    ensures S.Run([op] + ops, m, ctx) == Bind(S.Step(op, m, ctx), ops, ctx)
  {
    hide S.Step;
    assert ([op] + ops)[1..] == ops;
  }

  /** One operation of an open branch. */
  lemma RunOpen(op: S.Op, ops: seq<S.Op>, stack: seq<bytes>, ctx: S.Context)
    requires !op.If? && !op.Else? && !op.EndIf?
    ensures S.Run([op] + ops, Open(stack), ctx) == Bind(S.Execute(op, Open(stack), ctx), ops, ctx)
  {
    hide S.Execute;
    RunNext(op, ops, Open(stack), ctx);
  }

  function Open(stack: seq<bytes>): S.Machine {
    S.Machine(stack, [true])
  }

  lemma RunOne(op: S.Op, m: S.Machine, ctx: S.Context)
    ensures S.Run([op], m, ctx) == S.Step(op, m, ctx)
  {
    hide S.Step;
    assert [op][1..] == [];
  }

  /** Two values are the same script number only if their encodings agree; used for the length check. */
  lemma ScriptNumInjective(a: int, b: int)
    ensures ScriptNum(a) == ScriptNum(b) <==> a == b
  {
    ScriptNumRoundTrip(a);
    ScriptNumRoundTrip(b);
  }

  function HashOps(f: Family, hashH: bytes, claim: bytes): seq<S.Op> {
    [S.Sha256, S.Push(hashH), S.EqualVerify, S.Push(claim), SigCheck(f)]
  }

  /** The claim branch once the length of the preimage has been checked. */
  lemma HashRun(f: Family, hashH: bytes, claim: bytes, stack: seq<bytes>, ctx: S.Context)
    requires stack != []
    ensures S.Run(HashOps(f, hashH, claim), Open(stack), ctx) ==
            if |stack| >= 2 && ctx.sha(stack[|stack| - 1]) == hashH
            then Some(Open(stack[..|stack| - 2] + [S.Flag(SigValid(f, ctx, claim, stack[|stack| - 2]))]))
            else None
  {
    hide S.Run, S.Step;
    var below := stack[..|stack| - 1];
    var o1 := [S.Push(claim), SigCheck(f)];
    var o2 := [S.EqualVerify] + o1;
    var o3 := [S.Push(hashH)] + o2;
    assert HashOps(f, hashH, claim) == [S.Sha256] + o3;
    RunOpen(S.Sha256, o3, stack, ctx);
    var hash: bytes := ctx.sha(stack[|stack| - 1]);
    RunOpen(S.Push(hashH), o2, below + [hash], ctx);
    RunOpen(S.EqualVerify, o1, below + [hash] + [hashH], ctx);
    if hash == hashH {
      assert S.Pop(Open(below + [hash] + [hashH]), 2) == below;
      SigRun(f, claim, below, ctx);
      assert |stack| >= 2 ==> below[..|below| - 1] == stack[..|stack| - 2];
    }
  }

  /** The claim branch, run on its own with the branch open. */
  lemma ClaimRun(f: Family, hashH: bytes, claim: bytes, stack: seq<bytes>, ctx: S.Context)
    ensures S.Run(ClaimOps(f, hashH, claim), Open(stack), ctx) ==
            if |stack| >= 2 && |stack[|stack| - 1]| == 32 && ctx.sha(stack[|stack| - 1]) == hashH
            then Some(Open(stack[..|stack| - 2] + [S.Flag(SigValid(f, ctx, claim, stack[|stack| - 2]))]))
            else None
  {
    hide S.Run, S.Step, ScriptNum;
    var o1 := [S.EqualVerify] + HashOps(f, hashH, claim);
    var o2 := [S.Push(ScriptNum(32))] + o1;
    assert ClaimOps(f, hashH, claim) == [S.Size] + o2;
    RunOpen(S.Size, o2, stack, ctx);
    if stack != [] {
      var size := ScriptNum(|stack[|stack| - 1]|);
      RunOpen(S.Push(ScriptNum(32)), o1, stack + [size], ctx);
      RunOpen(S.EqualVerify, HashOps(f, hashH, claim), stack + [size] + [ScriptNum(32)], ctx);
      ScriptNumInjective(|stack[|stack| - 1]|, 32);
      if size == ScriptNum(32) {
        assert S.Pop(Open(stack + [size] + [ScriptNum(32)]), 2) == stack;
        HashRun(f, hashH, claim, stack, ctx);
      }
    }
  }

  /** For a block height as operand, BIP-65 comes down to this. */
  lemma HeightLockReached(locktime: int, ctx: S.Context)
    requires ValidLocktime(locktime)
    ensures S.LockReached(ScriptNum(locktime), ctx) <==>
            locktime <= ctx.locktime < 500_000_000 && ctx.sequence != 0xffff_ffff
  {
    hide ScriptNum;
    HeightNumLength(locktime);
    ScriptNumRoundTrip(locktime);
  }

  lemma SigRun(f: Family, key: bytes, stack: seq<bytes>, ctx: S.Context)
    ensures S.Run([S.Push(key), SigCheck(f)], Open(stack), ctx) ==
            if |stack| >= 1
            then Some(Open(stack[..|stack| - 1] + [S.Flag(SigValid(f, ctx, key, stack[|stack| - 1]))]))
            else None
  {
    hide S.Run;
    assert [S.Push(key), SigCheck(f)] == [S.Push(key)] + [SigCheck(f)];
    RunOpen(S.Push(key), [SigCheck(f)], stack, ctx);
    RunOne(SigCheck(f), Open(stack + [key]), ctx);
    if |stack| >= 1 {
      assert S.Pop(Open(stack + [key]), 2) == stack[..|stack| - 1];
    }
  }

  /** The refund branch, run on its own with the branch open. */
  lemma RefundRun(f: Family, refund: bytes, locktime: int, stack: seq<bytes>, ctx: S.Context)
    requires ValidLocktime(locktime)
    ensures S.Run(RefundOps(f, refund, locktime), Open(stack), ctx) ==
            if |stack| >= 1 && locktime <= ctx.locktime < 500_000_000 && ctx.sequence != 0xffff_ffff
            then Some(Open(stack[..|stack| - 1] + [S.Flag(SigValid(f, ctx, refund, stack[|stack| - 1]))]))
            else None
  {
    hide S.Run, S.Step, ScriptNum, S.LockReached;
    var operand := ScriptNum(locktime);
    var o1 := [S.Push(refund), SigCheck(f)];
    var o2 := [S.Drop] + o1;
    var o3 := [S.CheckLockTimeVerify] + o2;
    assert RefundOps(f, refund, locktime) == [S.Push(operand)] + o3;
    RunOpen(S.Push(operand), o3, stack, ctx);
    RunOpen(S.CheckLockTimeVerify, o2, stack + [operand], ctx);
    HeightLockReached(locktime, ctx);
    if S.LockReached(operand, ctx) {
      RunOpen(S.Drop, o1, stack + [operand], ctx);
      assert S.Pop(Open(stack + [operand]), 1) == stack;
      SigRun(f, refund, stack, ctx);
    }
  }

  lemma FlagTruthy(b: bool)
    ensures S.Truthy(S.Flag(b)) == b
  {
    if b {
      assert S.Flag(b)[0] != 0;
    }
  }

  lemma BranchesAreStraight(f: Family, hashH: bytes, claim: bytes, refund: bytes, locktime: int)
    ensures S.Straight(ClaimOps(f, hashH, claim)) && S.Straight(RefundOps(f, refund, locktime))
  {
  }

  /** Whatever witness is offered, the sixteen operations accept it exactly as a claim or as a refund. */
  lemma HtlcRun(f: Family, hashH: bytes, claim: bytes, refund: bytes, locktime: int, stack: seq<bytes>, ctx: S.Context)
    requires ValidLocktime(locktime)
    ensures var end := S.Run(HtlcOps(f, hashH, claim, refund, locktime), S.Machine(stack, []), ctx);
            (end.Some? && end.value.branches == [] && |end.value.stack| == 1 && S.Truthy(end.value.stack[0])) <==>
            ClaimSpend(f, hashH, claim, stack, ctx) || RefundSpend(f, refund, locktime, stack, ctx)
  {
    hide S.Run, ClaimOps, RefundOps, ScriptNum, S.Truthy;
    var claiming, refunding := ClaimOps(f, hashH, claim), RefundOps(f, refund, locktime);
    BranchesAreStraight(f, hashH, claim, refund, locktime);
    var tail := [S.Else] + (refunding + [S.EndIf]);
    var m0 := S.Machine(stack, []);
    RunNext(S.If, claiming + tail, m0, ctx);
    var n := |stack|;
    if n > 0 && (ctx.minimalIf ==> stack[n - 1] == [] || stack[n - 1] == [1]) {
      SelectorTruth();
      var chosen := S.Truthy(stack[n - 1]);
      var below := stack[..n - 1];
      var m1 := S.Machine(below, [chosen]);
      assert [] + [chosen] == [chosen];
      assert S.Step(S.If, m0, ctx) == Some(m1);
      S.RunAppend(claiming, tail, m1, ctx);
      if chosen {
        ClaimRun(f, hashH, claim, below, ctx);
        if S.Run(claiming, m1, ctx).Some? {
          var m2 := S.Run(claiming, m1, ctx).value;
          FlagTruthy(SigValid(f, ctx, claim, below[n - 3]));
          var m3 := m2.(branches := [false]);
          assert m2.branches[0 := false] == [false];
          RunNext(S.Else, refunding + [S.EndIf], m2, ctx);
          S.RunAppend(refunding, [S.EndIf], m3, ctx);
          S.RunSkipped(refunding, m3, ctx);
          RunOne(S.EndIf, m3, ctx);
          assert m2.stack == stack[..n - 3] + [S.Flag(SigValid(f, ctx, claim, stack[n - 3]))];
        }
      } else {
        S.RunSkipped(claiming, m1, ctx);
        RunNext(S.Else, refunding + [S.EndIf], m1, ctx);
        var m2 := S.Machine(below, [true]);
        assert m1.branches[0 := true] == [true];
        S.RunAppend(refunding, [S.EndIf], m2, ctx);
        RefundRun(f, refund, locktime, below, ctx);
        if S.Run(refunding, m2, ctx).Some? {
          FlagTruthy(SigValid(f, ctx, refund, below[n - 2]));
          RunOne(S.EndIf, S.Run(refunding, m2, ctx).value, ctx);
        }
      }
    }
  }

  lemma SelectorTruth()
    ensures S.Truthy([1]) && !S.Truthy([])
  {
    assert [1][0] != 0;
  }

  /** The meaning of the script's bytes, for every witness stack and every spending context. */
  lemma ScriptMeaning(f: Family, hashH: bytes, claim: bytes, refund: bytes, locktime: int, stack: seq<bytes>, ctx: S.Context)
    requires HtlcScript(f, hashH, claim, refund, locktime).Ok?
    ensures S.Satisfies(HtlcScript(f, hashH, claim, refund, locktime).value, stack, ctx) <==>
            ClaimSpend(f, hashH, claim, stack, ctx) || RefundSpend(f, refund, locktime, stack, ctx)
  {
    hide S.Run, S.Parse, HtlcOps, S.Truthy;
    ScriptParses(f, hashH, claim, refund, locktime);
    HtlcRun(f, hashH, claim, refund, locktime, stack, ctx);
  }

  lemma OperandsAt(f: Family, hashH: bytes, claim: bytes, refund: bytes, locktime: int)
    ensures var ops := HtlcOps(f, hashH, claim, refund, locktime);
            && |ops| == 16
            && ops[5] == S.Push(hashH) && ops[7] == S.Push(claim)
            && ops[10] == S.Push(ScriptNum(locktime)) && ops[13] == S.Push(refund)
  {
    hide ScriptNum;
  }

  /** The script bytes determine the hash, both keys with their roles, and the lock height. */
  lemma ScriptCommits(f: Family, h1: bytes, c1: bytes, r1: bytes, l1: int, h2: bytes, c2: bytes, r2: bytes, l2: int)
    requires HtlcScript(f, h1, c1, r1, l1).Ok?
    requires HtlcScript(f, h1, c1, r1, l1) == HtlcScript(f, h2, c2, r2, l2)
    ensures h1 == h2 && c1 == c2 && r1 == r2 && l1 == l2
  {
    hide S.Parse, ScriptNum, HtlcOps, ScriptBytes;
    ScriptParses(f, h1, c1, r1, l1);
    ScriptParses(f, h2, c2, r2, l2);
    OperandsAt(f, h1, c1, r1, l1);
    OperandsAt(f, h2, c2, r2, l2);
    ScriptNumInjective(l1, l2);
  }
}
