/** Bitcoin script: parsing and executing the opcodes that the swap's scripts are made of. */
module Script {
  import opened Bytes
  import opened Encoding

  datatype Op =
    | Push(data: bytes)
    | If
    | Else
    | EndIf
    | Drop
    | Size
    | EqualVerify
    | Sha256
    | CheckSig
    | CheckSigPqc
    | CheckLockTimeVerify
    | Unmodelled(code: byte)

  const IF: byte := 0x63
  const ELSE: byte := 0x67
  const ENDIF: byte := 0x68
  const DROP: byte := 0x75
  const SIZE: byte := 0x82
  const EQUALVERIFY: byte := 0x88
  const SHA256: byte := 0xa8
  const CHECKSIG: byte := 0xac
  const CLTV: byte := 0xb1
  const CHECKSIGPQC: byte := 0xb3

  /** What a script sees of the transaction that spends it. */
  datatype Context = Context(
    sha: Hash,
    ecdsaValid: (bytes, bytes) -> bool,   // public key, signature: over this transaction's digest
    pqcValid: (bytes, bytes) -> bool,
    locktime: nat,
    sequence: nat,
    minimalIf: bool)                      // whether OP_IF insists on an empty or [1] selector

  /** The stack grows to the right; `branches` holds one entry for each open OP_IF. */
  datatype Machine = Machine(stack: seq<bytes>, branches: seq<bool>)

  function OpOf(code: byte): Op {
    if code == IF then If
    else if code == ELSE then Else
    else if code == ENDIF then EndIf
    else if code == DROP then Drop
    else if code == SIZE then Size
    else if code == EQUALVERIFY then EqualVerify
    else if code == SHA256 then Sha256
    else if code == CHECKSIG then CheckSig
    else if code == CHECKSIGPQC then CheckSigPqc
    else if code == CLTV then CheckLockTimeVerify
    else Unmodelled(code)
  }

  /** Number of length bytes behind a push opcode, if it is one. */
  function LengthBytes(code: byte): (k: nat)
    ensures k <= 4
  {
    if code == 0x4c then 1 else if code == 0x4d then 2 else if code == 0x4e then 4 else 0
  }

  function Parse(b: bytes): Option<seq<Op>> {
    if b == [] then Some([])
    else
      var code, rest := b[0], b[1..];
      var k := LengthBytes(code);
      if code > 0x4e then
        match Parse(rest) case None => None case Some(ops) => Some([OpOf(code)] + ops)
      else if |rest| < k then None
      else
        var n := if k == 0 then code else FromLE(rest[..k]);
        if |rest| < k + n then None
        else
          match Parse(rest[k + n..]) case None => None case Some(ops) => Some([Push(rest[k..k + n])] + ops)
  }

  /** Zero of any length is false, and so is negative zero. */
  predicate Truthy(v: bytes) {
    exists k :: 0 <= k < |v| && v[k] != 0 && !(k == |v| - 1 && v[k] == 0x80)
  }

  function Flag(b: bool): bytes {
    if b then [1] else []
  }

  predicate Executing(m: Machine) {
    false !in m.branches
  }

  /** BIP-65: the operand is a lock of the same kind as the transaction's, already reached, and the input
      is not final. */
  predicate LockReached(operand: bytes, ctx: Context) {
    && |operand| <= 5
    && var n := ScriptNumValue(operand);
       && 0 <= n <= ctx.locktime
       && (n < 500_000_000 <==> ctx.locktime < 500_000_000)
       && ctx.sequence != 0xffff_ffff
  }

  function Pop(m: Machine, n: nat): seq<bytes>
    requires n <= |m.stack|
  {
    m.stack[..|m.stack| - n]
  }

  function Top(m: Machine, depth: nat): bytes
    requires depth < |m.stack|
  {
    m.stack[|m.stack| - 1 - depth]
  }

  function Step(op: Op, m: Machine, ctx: Context): Option<Machine> {
    if op.If? && !Executing(m) then Some(m.(branches := m.branches + [false]))
    else if op.Else? then
      if m.branches == [] then None
      else Some(m.(branches := m.branches[|m.branches| - 1 := !m.branches[|m.branches| - 1]]))
    else if op.EndIf? then
      if m.branches == [] then None else Some(m.(branches := m.branches[..|m.branches| - 1]))
    else if !Executing(m) then Some(m)
    else Execute(op, m, ctx)
  }

  function Execute(op: Op, m: Machine, ctx: Context): Option<Machine>
    requires !op.Else? && !op.EndIf?
  {
    var n := |m.stack|;
    match op
    case Push(d) => Some(m.(stack := m.stack + [d]))
    case If =>
      if n < 1 || (ctx.minimalIf && Top(m, 0) != [] && Top(m, 0) != [1]) then None
      else Some(Machine(Pop(m, 1), m.branches + [Truthy(Top(m, 0))]))
    case Drop => if n < 1 then None else Some(m.(stack := Pop(m, 1)))
    case Size => if n < 1 then None else Some(m.(stack := m.stack + [ScriptNum(|Top(m, 0)|)]))
    case EqualVerify => if n < 2 || Top(m, 0) != Top(m, 1) then None else Some(m.(stack := Pop(m, 2)))
    case Sha256 => if n < 1 then None else Some(m.(stack := Pop(m, 1) + [ctx.sha(Top(m, 0))]))
    case CheckSig =>
      if n < 2 then None else Some(m.(stack := Pop(m, 2) + [Flag(ctx.ecdsaValid(Top(m, 0), Top(m, 1)))]))
    case CheckSigPqc =>
      if n < 2 then None else Some(m.(stack := Pop(m, 2) + [Flag(ctx.pqcValid(Top(m, 0), Top(m, 1)))]))
    case CheckLockTimeVerify => if n < 1 || !LockReached(Top(m, 0), ctx) then None else Some(m)
    case Unmodelled(_) => None
  }

  function Run(ops: seq<Op>, m: Machine, ctx: Context): Option<Machine> {
    if ops == [] then Some(m)
    else
      match Step(ops[0], m, ctx)
      case None => None
      case Some(m') => Run(ops[1..], m', ctx)
  }

  /** A witness program is satisfied when the script leaves exactly one true element. */
  predicate Satisfies(script: bytes, stack: seq<bytes>, ctx: Context) {
    match Parse(script)
    case None => false
    case Some(ops) =>
      match Run(ops, Machine(stack, []), ctx)
      case None => false
      case Some(m) => m.branches == [] && |m.stack| == 1 && Truthy(m.stack[0])
  }

  // ---------------------------------------------------------------------------
  // Parsing and running in pieces
  // ---------------------------------------------------------------------------

  function Prepend(op: Op, ops: Option<seq<Op>>): Option<seq<Op>> {
    match ops case None => None case Some(os) => Some([op] + os)
  }

  lemma ParseOpcode(code: byte, rest: bytes)
    requires code > 0x4e
    ensures Parse([code] + rest) == Prepend(OpOf(code), Parse(rest))
  {
    assert ([code] + rest)[1..] == rest;
  }

  lemma ParseSizedPush(code: byte, size: bytes, d: bytes, rest: bytes)
    requires code <= 0x4e && |size| == LengthBytes(code)
    requires |d| == if size == [] then code else FromLE(size)
    ensures Parse([code] + (size + (d + rest))) == Prepend(Push(d), Parse(rest))
  {
    hide FromLE, OpOf;
    var b := size + (d + rest);
    assert ([code] + b)[0] == code && ([code] + b)[1..] == b;
    var k := |size|;
    assert b[..k] == size && b[k..k + |d|] == d && b[k + |d|..] == rest;
  }

  /** The length bytes of a push, and the opcode before them. */
  function SizeBytes(n: nat): (byte, bytes)
    requires n < 0x1_0000_0000
  {
    if n < 0x4c then (n, [])
    else if n <= 0xff then (0x4c, [n])
    else if n <= 0xffff then (0x4d, LE(n, 2))
    else (0x4e, LE(n, 4))
  }

  lemma SizeBytesValue(n: nat)
    requires n < 0x1_0000_0000
    ensures var (code, size) := SizeBytes(n);
            code <= 0x4e && |size| == LengthBytes(code) && n == if size == [] then code else FromLE(size)
  {
    Pow256Values();
    if 0x4c <= n <= 0xff {
      assert [n][1..] == [];
    } else if n > 0xff {
      FromLEofLE(n, if n <= 0xffff then 2 else 4);
    }
  }

  /** A push reads back as exactly the data pushed, whatever its length. */
  lemma ParsePush(d: bytes, rest: bytes)
    requires |d| < 0x1_0000_0000
    ensures Parse(PushData(d) + rest) == Prepend(Push(d), Parse(rest))
  {
    hide Parse, FromLE, LE;
    var (code, size) := SizeBytes(|d|);
    SizeBytesValue(|d|);
    assert PushData(d) + rest == [code] + (size + (d + rest));
    ParseSizedPush(code, size, d, rest);
  }

  /** The bytes of an operation, pushes in their shortest form. */
  function Code(op: Op): bytes {
    match op
    case Push(d) => PushData(d)
    case If => [IF]
    case Else => [ELSE]
    case EndIf => [ENDIF]
    case Drop => [DROP]
    case Size => [SIZE]
    case EqualVerify => [EQUALVERIFY]
    case Sha256 => [SHA256]
    case CheckSig => [CHECKSIG]
    case CheckSigPqc => [CHECKSIGPQC]
    case CheckLockTimeVerify => [CLTV]
    case Unmodelled(c) => [c]
  }

  predicate Codable(op: Op) {
    (op.Push? ==> |op.data| < 0x1_0000_0000) && !op.Unmodelled?
  }

  lemma ParseCode(op: Op, rest: bytes)
    requires Codable(op)
    ensures Parse(Code(op) + rest) == Prepend(op, Parse(rest))
  {
    hide Parse, PushData;
    if op.Push? {
      ParsePush(op.data, rest);
    } else {
      ParseOpcode(Code(op)[0], rest);
    }
  }

  lemma {:induction false} RunAppend(a: seq<Op>, b: seq<Op>, m: Machine, ctx: Context)
    ensures Run(a + b, m, ctx) ==
            match Run(a, m, ctx) case None => None case Some(m') => Run(b, m', ctx)
  {
    if a == [] {
      assert a + b == b;
    } else {
      assert (a + b)[1..] == a[1..] + b;
      match Step(a[0], m, ctx)
      case None =>
      case Some(m') => RunAppend(a[1..], b, m', ctx);
    }
  }

  predicate Straight(ops: seq<Op>) {
    forall k :: 0 <= k < |ops| ==> !ops[k].If? && !ops[k].Else? && !ops[k].EndIf?
  }

  lemma {:induction false} RunSkipped(ops: seq<Op>, m: Machine, ctx: Context)
    requires Straight(ops) && !Executing(m)
    ensures Run(ops, m, ctx) == Some(m)
  {
    if ops != [] {
      RunSkipped(ops[1..], m, ctx);
    }
  }
}
