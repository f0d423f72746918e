/** bech32 and bech32m addresses: the encoder of client/p2mr.js against the decoder of client/addr.js. */
module Address {
  import opened Bytes
  import opened Checksum
  import opened Regroup

  const CHARSET: string := "qpzry9x8gf2tvdw0s3jn54khce6mua7l"

  const BECH32: Word := Word(1)
  const BECH32M: Word := Word(0x2bc830a3)

  function SpecOf(witver: nat): Word {
    if witver == 0 then BECH32 else BECH32M
  }

  // ---------------------------------------------------------------------------
  // Symbols, words and characters
  // ---------------------------------------------------------------------------

  /** A character code shifted or masked, as the checksum sees it. */
  function AsWord(n: nat): Word
    requires n < 0x4000_0000
  {
    Word(n as bv30)
  }

  function Words(data: seq<symbol>): (w: seq<Word>)
    ensures |w| == |data|
  {
    seq(|data|, i requires 0 <= i < |data| => AsWord(data[i]))
  }

  function Symbol(w: Word): (x: symbol)
    requires Small(w)
  {
    SmallIsSymbol(w);
    w.bits as int
  }

  function CharOf(x: symbol): char {
    CHARSET[x]
  }

  function Chars(data: seq<symbol>): (s: string)
    ensures |s| == |data|
  {
    seq(|data|, i requires 0 <= i < |data| => CharOf(data[i]))
  }

  /** Position of a character in the charset, looking from position k. */
  function IndexFrom(c: char, k: nat): (r: Option<symbol>)
    requires k <= 32
    ensures r.Some? ==> CharOf(r.value) == c
    decreases 32 - k
  {
    if k == 32 then None else if CharOf(k) == c then Some(k) else IndexFrom(c, k + 1)
  }

  function Lookup(s: string): (r: Result<seq<symbol>>)
    ensures r.Ok? ==> Chars(r.value) == s
  {
    if s == [] then Ok([])
    else
      match IndexFrom(s[0], 0)
      case None => Err(BadChar)
      case Some(x) =>
        var rest :- Lookup(s[1..]);
        assert s == [s[0]] + s[1..];
        Ok([x] + rest)
  }

  lemma SmallIsSymbol(w: Word)
    requires Small(w)
    ensures w.bits as int < 32
  {
  }

  lemma SymbolIsSmall(x: symbol)
    ensures Small(AsWord(x))
  {
  }

  lemma SymbolOfWord(x: symbol)
    ensures Small(AsWord(x)) && Symbol(AsWord(x)) == x
  {
    hide Small;
    SymbolIsSmall(x);
    ThereAndBack(x);
  }

  lemma ThereAndBack(x: int)
    requires 0 <= x < 32
    ensures (x as bv30) as int == x
  {
  }

  lemma WordOfSymbol(w: Word)
    requires Small(w)
    ensures AsWord(Symbol(w)) == w
  {
  }

  lemma WordsSmall(data: seq<symbol>)
    ensures AllSmall(Words(data))
  {
    hide Small, AsWord;
    forall i | 0 <= i < |data| ensures Small(AsWord(data[i])) {
      SymbolIsSmall(data[i]);
    }
  }

  lemma WordsAppend(a: seq<symbol>, b: seq<symbol>)
    ensures Words(a + b) == Words(a) + Words(b)
  {
    hide AsWord;
  }

  lemma WordsInjective(a: seq<symbol>, b: seq<symbol>)
    requires Words(a) == Words(b)
    ensures a == b
  {
    hide AsWord, Small, Symbol;
    forall i | 0 <= i < |a| ensures a[i] == b[i] {
      SymbolOfWord(a[i]);
      SymbolOfWord(b[i]);
      assert Words(a)[i] == AsWord(a[i]) && Words(b)[i] == AsWord(b[i]);
    }
  }

  function Symbols(w: seq<Word>): (data: seq<symbol>)
    requires AllSmall(w)
    ensures |data| == |w|
  {
    seq(|w|, i requires 0 <= i < |w| => Symbol(w[i]))
  }

  lemma WordsOfSymbols(w: seq<Word>)
    requires AllSmall(w)
    ensures Words(Symbols(w)) == w
  {
    hide AsWord, Small, Symbol;
    forall i | 0 <= i < |w| ensures AsWord(Symbol(w[i])) == w[i] {
      WordOfSymbol(w[i]);
    }
  }

  /** Rank of each charset character: the charset has no repeats. */
  function Rank(c: char): int {
    match c
    case 'q' => 0 case 'p' => 1 case 'z' => 2 case 'r' => 3 case 'y' => 4 case '9' => 5 case 'x' => 6 case '8' => 7
    case 'g' => 8 case 'f' => 9 case '2' => 10 case 't' => 11 case 'v' => 12 case 'd' => 13 case 'w' => 14 case '0' => 15
    case 's' => 16 case '3' => 17 case 'j' => 18 case 'n' => 19 case '5' => 20 case '4' => 21 case 'k' => 22 case 'h' => 23
    case 'c' => 24 case 'e' => 25 case '6' => 26 case 'm' => 27 case 'u' => 28 case 'a' => 29 case '7' => 30 case 'l' => 31
    case _ => -1
  }

  lemma CharsetDistinct(x: symbol)
    ensures Rank(CharOf(x)) == x
  {
  }

  lemma {:induction false} IndexFound(x: symbol, k: nat)
    requires k <= x
    ensures IndexFrom(CharOf(x), k) == Some(x)
    decreases 32 - k
  {
    hide Rank, CharOf;
    CharsetDistinct(x);
    CharsetDistinct(k);
    if k < x {
      IndexFound(x, k + 1);
    }
  }

  lemma {:induction false} LookupChars(data: seq<symbol>)
    ensures Lookup(Chars(data)) == Ok(data)
  {
    hide IndexFrom, CharOf;
    if data != [] {
      IndexFound(data[0], 0);
      LookupChars(data[1..]);
      assert Chars(data)[1..] == Chars(data[1..]);
      assert data == [data[0]] + data[1..];
    }
  }

  // ---------------------------------------------------------------------------
  // Letter case and the separator
  // ---------------------------------------------------------------------------

  function LowerChar(c: char): char {
    if 'A' <= c <= 'Z' then (c as int + 32) as char else c
  }

  function UpperChar(c: char): char {
    if 'a' <= c <= 'z' then (c as int - 32) as char else c
  }

  function Lower(s: string): (r: string)
    ensures |r| == |s|
  {
    seq(|s|, i requires 0 <= i < |s| => LowerChar(s[i]))
  }

  function Upper(s: string): (r: string)
    ensures |r| == |s|
  {
    seq(|s|, i requires 0 <= i < |s| => UpperChar(s[i]))
  }

  predicate IsLower(s: string) {
    Lower(s) == s
  }

  lemma LowerAppend(a: string, b: string)
    ensures Lower(a + b) == Lower(a) + Lower(b)
  {
    hide LowerChar;
  }

  lemma CharIsPlain(x: symbol)
    ensures CharOf(x) != '1' && LowerChar(CharOf(x)) == CharOf(x)
  {
  }

  lemma CharsArePlain(data: seq<symbol>)
    ensures NoOnes(Chars(data)) && IsLower(Chars(data))
  {
    hide CharOf, LowerChar;
    forall i | 0 <= i < |data| ensures Chars(data)[i] != '1' && LowerChar(Chars(data)[i]) == Chars(data)[i] {
      CharIsPlain(data[i]);
    }
  }

  /** Where the last '1' is, or -1. */
  function LastOne(s: string): (r: int)
    ensures -1 <= r < |s|
    ensures r >= 0 ==> s[r] == '1'
    ensures forall i :: r < i < |s| ==> s[i] != '1'
  {
    if s == [] then -1 else if s[|s| - 1] == '1' then |s| - 1 else LastOne(s[..|s| - 1])
  }

  predicate NoOnes(s: string) {
    forall i :: 0 <= i < |s| ==> s[i] != '1'
  }

  lemma {:induction false} LastOneAt(head: string, rest: string)
    requires NoOnes(rest)
    ensures LastOne(head + "1" + rest) == |head|
  {
    var s := head + "1" + rest;
    if rest == [] {
      assert s == head + "1" && s[|s| - 1] == '1';
    } else {
      var n := |rest| - 1;
      LastOneAt(head, rest[..n]);
      assert s[..|s| - 1] == head + "1" + rest[..n] && s[|s| - 1] == rest[n];
    }
  }

  // ---------------------------------------------------------------------------
  // The encoder and the decoder
  // ---------------------------------------------------------------------------

  function HrpExpand(hrp: string): seq<Word> {
    seq(|hrp|, i requires 0 <= i < |hrp| => AsWord(hrp[i] as int / 32)) + [ZERO]
    + seq(|hrp|, i requires 0 <= i < |hrp| => AsWord(hrp[i] as int % 32))
  }

  /** State of the checksum after the prefix and the given symbols. */
  function StateAfter(hrp: string, data: seq<symbol>): Word {
    Fold(ONE, HrpExpand(hrp) + Words(data))
  }

  function ChecksumSymbols(hrp: string, data: seq<symbol>, wanted: Word): (chk: seq<symbol>)
    ensures |chk| == 6
  {
    var p := Xor(Fold(ONE, HrpExpand(hrp) + Words(data) + SIX_ZEROS), wanted);
    PiecesSmall(p);
    Symbols(Pieces(p))
  }

  function SegwitAddr(hrp: string, witver: symbol, program: bytes): string {
    var data := [witver] + ToSymbols(program);
    hrp + "1" + Chars(data + ChecksumSymbols(hrp, data, SpecOf(witver)))
  }

  datatype Decoded = Decoded(hrp: string, witver: symbol, program: bytes)

  predicate ProgramFits(witver: nat, program: bytes) {
    witver <= 16 && 2 <= |program| <= 40 && (witver == 0 ==> |program| == 20 || |program| == 32)
  }

  function Payload(data: seq<symbol>): seq<symbol>
    requires |data| >= 6
  {
    if |data| == 6 then [] else data[1..|data| - 6]
  }

  function DecodeData(hrp: string, data: seq<symbol>): Result<Decoded>
    requires |data| >= 6
  {
    var pm := StateAfter(hrp, data);
    if pm != BECH32 && pm != BECH32M then Err(BadChecksum)
    else
      var witver := data[0];
      var program :- FromSymbols(Payload(data));
      if pm != SpecOf(witver) then Err(WrongSpec)
      else if !ProgramFits(witver, program) then Err(BadProgram)
      else Ok(Decoded(hrp, witver, program))
  }

  function DecodeBech32(addr: string): Result<Decoded> {
    var lower := Lower(addr);
    if lower != addr && Upper(addr) != addr then Err(MixedCase)
    else
      var pos := LastOne(lower);
      if pos < 1 || pos + 7 > |lower| then Err(NoHrp)
      else
        var data :- Lookup(lower[pos + 1..]);
        DecodeData(lower[..pos], data)
  }

  method EncodeAddress(hrp: string, witver: symbol, program: bytes) returns (addr: string)
    ensures addr == SegwitAddr(hrp, witver, program)
  {
    hide Fold, Pieces, HrpExpand, Words;
    var grouped := Convert8to5(program);
    var data := [witver] + grouped;
    var pm := Polymod(HrpExpand(hrp) + Words(data) + SIX_ZEROS);
    var tagged := Xor(pm, SpecOf(witver));
    PiecesSmall(tagged);
    addr := hrp + "1" + Chars(data + Symbols(Pieces(tagged)));
  }

  method ParseAddress(addr: string) returns (r: Result<Decoded>)
    ensures r == DecodeBech32(addr)
  {
    hide Fold, Lookup, LastOne, Lower, Upper, HrpExpand, Words, FromSymbols;
    var lower := Lower(addr);
    if lower != addr && Upper(addr) != addr {
      return Err(MixedCase);
    }
    var pos := LastOne(lower);
    if pos < 1 || pos + 7 > |lower| {
      return Err(NoHrp);
    }
    var hrp := lower[..pos];
    var data :- Lookup(lower[pos + 1..]);
    var pm := Polymod(HrpExpand(hrp) + Words(data));
    if pm != BECH32 && pm != BECH32M {
      return Err(BadChecksum);
    }
    var witver := data[0];
    var program :- Convert5to8(Payload(data));
    if witver == 0 && pm != BECH32 {
      return Err(WrongSpec);
    }
    if witver != 0 && pm != BECH32M {
      return Err(WrongSpec);
    }
    if witver > 16 || |program| < 2 || |program| > 40 {
      return Err(BadProgram);
    }
    if witver == 0 && |program| != 20 && |program| != 32 {
      return Err(BadProgram);
    }
    r := Ok(Decoded(hrp, witver, program));
  }

  // ---------------------------------------------------------------------------
  // Decoding undoes encoding, and only encodings are accepted
  // ---------------------------------------------------------------------------

  /** A checksum is accepted exactly when it is the one the encoder writes. */
  lemma ChecksumUnique(hrp: string, data: seq<symbol>, chk: seq<symbol>, wanted: Word)
    requires |chk| == 6
    ensures StateAfter(hrp, data + chk) == wanted <==> chk == ChecksumSymbols(hrp, data, wanted)
  {
    hide Fold, HrpExpand, Words, Xor, Symbols, AllSmall, Pieces;
    var lead := HrpExpand(hrp) + Words(data);
    WordsAppend(data, chk);
    assert HrpExpand(hrp) + Words(data + chk) == lead + Words(chk);
    FoldAppend(ONE, lead, Words(chk));
    FoldAppend(ONE, lead, SIX_ZEROS);
    WordsSmall(chk);
    TagUnique(Fold(ONE, lead), wanted, Words(chk));
    var p := Tag(Fold(ONE, lead), wanted);
    PiecesSmall(Xor(Fold(ONE, lead + SIX_ZEROS), wanted));
    WordsOfSymbols(p);
    if Words(chk) == p {
      WordsInjective(chk, Symbols(p));
    }
  }

  lemma {:induction false} SymbolsOfProgram(program: bytes)
    requires program != []
    ensures ToSymbols(program) != []
  {
    hide Value, Pow2;
    assert (8 * |program| + Padding(|program|)) / 5 >= 1;
  }

  /** The decoder splits an encoded address back into its prefix and its symbols. */
  lemma SplitsBack(hrp: string, data: seq<symbol>)
    requires IsLower(hrp) && |hrp| >= 1 && |data| >= 6
    ensures DecodeBech32(hrp + "1" + Chars(data)) == DecodeData(hrp, data)
  {
    hide LastOne, Lookup, DecodeData, Chars, LowerChar;
    var addr := hrp + "1" + Chars(data);
    CharsArePlain(data);
    LowerAppend(hrp + "1", Chars(data));
    LowerAppend(hrp, "1");
    SeparatorIsLower();
    LastOneAt(hrp, Chars(data));
    LookupChars(data);
    assert addr[..|hrp|] == hrp && addr[|hrp| + 1..] == Chars(data);
  }

  lemma SeparatorIsLower()
    ensures Lower("1") == "1"
  {
  }

  lemma DecodesData(hrp: string, witver: symbol, program: bytes)
    requires ProgramFits(witver, program)
    ensures var data := [witver] + ToSymbols(program);
            DecodeData(hrp, data + ChecksumSymbols(hrp, data, SpecOf(witver))) == Ok(Decoded(hrp, witver, program))
  {
    hide StateAfter, ChecksumSymbols, ToSymbols, FromSymbols, Pieces;
    var body := ToSymbols(program);
    var data := [witver] + body;
    var chk := ChecksumSymbols(hrp, data, SpecOf(witver));
    ChecksumUnique(hrp, data, chk, SpecOf(witver));
    BytesRoundTrip(program);
    SymbolsOfProgram(program);
    assert Payload(data + chk) == body;
  }

  /** What acceptance says about the parts. */
  lemma AcceptedParts(addr: string)
    requires DecodeBech32(addr).Ok?
    ensures var d := DecodeBech32(addr).value; d.hrp != [] && IsLower(d.hrp) && ProgramFits(d.witver, d.program)
  {
    hide StateAfter, FromSymbols, LastOne, Lookup, LowerChar;
    var lower := Lower(addr);
    LowerStays(addr);
    assert Lower(lower)[..LastOne(lower)] == Lower(lower[..LastOne(lower)]);
  }

  lemma LowerStays(addr: string)
    ensures Lower(Lower(addr)) == Lower(addr)
  {
  }

  /** The programs of BIP-141. */
  lemma ProgramIs(witver: symbol, program: bytes)
    ensures ProgramFits(witver, program)
       <==> witver <= 16 && 2 <= |program| <= 40 && (witver == 0 ==> |program| == 20 || |program| == 32)
  {
  }

  /** The round trip holds for exactly the addresses the decoder is willing to accept. */
  lemma DecodeOfEncode(hrp: string, witver: symbol, program: bytes)
    ensures DecodeBech32(SegwitAddr(hrp, witver, program)) == Ok(Decoded(hrp, witver, program))
       <==> hrp != [] && IsLower(hrp) && witver <= 16 && 2 <= |program| <= 40
            && (witver == 0 ==> |program| == 20 || |program| == 32)
  {
    ProgramIs(witver, program);
    hide DecodeBech32, DecodeData, ChecksumSymbols, ToSymbols, Chars, IsLower, ProgramFits;
    var data := [witver] + ToSymbols(program);
    if hrp != [] && IsLower(hrp) && ProgramFits(witver, program) {
      SplitsBack(hrp, data + ChecksumSymbols(hrp, data, SpecOf(witver)));
      DecodesData(hrp, witver, program);
    } else if DecodeBech32(SegwitAddr(hrp, witver, program)) == Ok(Decoded(hrp, witver, program)) {
      AcceptedParts(SegwitAddr(hrp, witver, program));
    }
  }

  lemma AcceptedData(hrp: string, data: seq<symbol>)
    requires |data| >= 6 && DecodeData(hrp, data).Ok?
    ensures var d := DecodeData(hrp, data).value;
            d.hrp == hrp && data == [d.witver] + ToSymbols(d.program)
                                 + ChecksumSymbols(hrp, [d.witver] + ToSymbols(d.program), SpecOf(d.witver))
  {
    hide StateAfter, ChecksumSymbols, ToSymbols, FromSymbols, Pieces;
    var d := DecodeData(hrp, data).value;
    if |data| == 6 {
      EmptyProgram();
    } else {
      SymbolsRoundTrip(Payload(data));
      var body := [d.witver] + ToSymbols(d.program);
      var chk := data[|data| - 6..];
      assert data == body + chk;
      ChecksumUnique(hrp, body, chk, SpecOf(d.witver));
    }
  }

  lemma EmptyProgram()
    ensures FromSymbols([]) == Ok([])
  {
  }

  /** Every accepted address is what the encoder writes for its parts, up to letter case. */
  lemma EncodeOfDecode(addr: string)
    requires DecodeBech32(addr).Ok?
    ensures var d := DecodeBech32(addr).value; SegwitAddr(d.hrp, d.witver, d.program) == Lower(addr)
  {
    hide DecodeData, ChecksumSymbols, ToSymbols, LastOne, Lookup, Lower, Upper;
    var lower := Lower(addr);
    var pos := LastOne(lower);
    var data := Lookup(lower[pos + 1..]).value;
    AcceptedData(lower[..pos], data);
    assert lower == lower[..pos] + "1" + lower[pos + 1..];
  }

  // ---------------------------------------------------------------------------
  // Mistyped addresses
  // ---------------------------------------------------------------------------

  /** Replacing symbols inside a window of six cannot turn an accepted address into another accepted one,
      unless it moves the version symbol to or from zero (the two checksum constants differ there). */
  lemma MistypedIsRejected(hrp: string, lead: seq<symbol>, u: seq<symbol>, v: seq<symbol>, tail: seq<symbol>)
    requires |u| == |v| <= 6 && |lead| + |u| + |tail| >= 6 && hrp != [] && IsLower(hrp)
    requires DecodeBech32(hrp + "1" + Chars(lead + u + tail)).Ok?
    requires (lead + u + tail)[0] == 0 <==> (lead + v + tail)[0] == 0
    ensures DecodeBech32(hrp + "1" + Chars(lead + v + tail)).Ok? <==> u == v
  {
    hide DecodeBech32, Fold, HrpExpand, Chars, Words, AllSmall, FromSymbols;
    SplitsBack(hrp, lead + u + tail);
    SplitsBack(hrp, lead + v + tail);
    WordsSmall(u);
    WordsSmall(v);
    JoinedWords(hrp, lead, u, tail);
    JoinedWords(hrp, lead, v, tail);
    BurstChangesFold(ONE, HrpExpand(hrp) + Words(lead), Words(u), Words(v), Words(tail));
    if Words(u) == Words(v) {
      WordsInjective(u, v);
    }
  }

  lemma JoinedWords(hrp: string, lead: seq<symbol>, u: seq<symbol>, tail: seq<symbol>)
    ensures HrpExpand(hrp) + Words(lead + u + tail) == HrpExpand(hrp) + Words(lead) + Words(u) + Words(tail)
  {
    hide HrpExpand, Words;
    WordsAppend(lead + u, tail);
    WordsAppend(lead, u);
  }

  // ---------------------------------------------------------------------------
  // An address of BIP-350
  // ---------------------------------------------------------------------------

  /** Each character's high bits, a zero, each character's low bits. */
  lemma PrefixExpands(hrp: string)
    ensures var v, n := HrpExpand(hrp), |hrp|;
            && |v| == 2 * n + 1 && v[n] == ZERO
            && forall i :: 0 <= i < n ==> v[i] == AsWord(hrp[i] as int / 32) && v[n + 1 + i] == AsWord(hrp[i] as int % 32)
  {
    hide AsWord;
  }

  lemma FoldNext(v: seq<Word>, x: Word)
    ensures Fold(ONE, v + [x]) == Step(Fold(ONE, v), x)
  {
    hide Step;
    assert (v + [x])[..|v|] == v;
  }

  function Fed(out: Word, mask: bv30, constant: bv30): Word {
    Word(if out.bits & mask == 0 then 0 else constant)
  }

  /** The five constants of BIP-173, each taken in when its bit is shifted out. */
  function Feedback(out: Word): Word {
    Xor(Xor(Xor(Xor(Xor(ZERO, Fed(out, 1, 0x3b6a57b2)), Fed(out, 2, 0x26508e6d)), Fed(out, 4, 0x1ea119fa)),
            Fed(out, 8, 0x3d4233dd)), Fed(out, 16, 0x2a1462b3))
  }

  /** A checksum step written out. */
  function WrittenOut(c: bv30, x: bv30): Word {
    Xor(Xor(Word((c & 0x1ffffff) << 5), Word(x)), Feedback(Word(c >> 25)))
  }

  lemma TapIs(b: Word, i: nat)
    requires i < 5
    ensures Tap(b, i) == Fed(b, Mask(i), Generator(i).bits)
  {
  }

  lemma FeedbackIs(b: Word)
    ensures Taps(b, 5) == Feedback(b)
  {
    hide Tap, Generator, Mask, Xor, Fed;
    TapConstants();
    TapIs(b, 0);
    TapIs(b, 1);
    TapIs(b, 2);
    TapIs(b, 3);
    TapIs(b, 4);
    assert Taps(b, 1) == Xor(ZERO, Tap(b, 0));
    assert Taps(b, 2) == Xor(Taps(b, 1), Tap(b, 1));
    assert Taps(b, 3) == Xor(Taps(b, 2), Tap(b, 2));
    assert Taps(b, 4) == Xor(Taps(b, 3), Tap(b, 3));
  }

  lemma StepWrittenOut(c: bv30, x: bv30)
    ensures Step(Word(c), Word(x)) == WrittenOut(c, x)
  {
    hide Taps, Feedback, Xor;
    FeedbackIs(ShiftedOut(Word(c)));
  }

  lemma TapConstants()
    ensures Mask(0) == 1 && Mask(1) == 2 && Mask(2) == 4 && Mask(3) == 8 && Mask(4) == 16
    ensures Generator(0).bits == 0x3b6a57b2 && Generator(1).bits == 0x26508e6d && Generator(2).bits == 0x1ea119fa
    ensures Generator(3).bits == 0x3d4233dd && Generator(4).bits == 0x2a1462b3
  {
  }

  lemma SomeSteps()
    ensures WrittenOut(1, 3) == Word(0x23) && WrittenOut(0x23, 3) == Word(0x463)
    ensures WrittenOut(0x463, 0) == Word(0x8c60) && WrittenOut(0x8c60, 2) == Word(0x118c02)
    ensures WrittenOut(0x118c02, 3) == Word(0x2318043) && WrittenOut(0x2318043, 16) == Word(0x3d5a5fc2)
    ensures WrittenOut(0x3d5a5fc2, 14) == Word(0x4ec3eb7) && WrittenOut(0x4ec3eb7, 20) == Word(0x3bd75899)
  {
  }

  lemma MoreSteps()
    ensures WrittenOut(0x3bd75899, 15) == Word(0x8760c09) && WrittenOut(0x8760c09, 0) == Word(0x106098da)
    ensures WrittenOut(0x106098da, 0) == Word(0x3151289d) && WrittenOut(0x3151289d, 0) == Word(0x3d7342ce)
    ensures WrittenOut(0x3d7342ce, 0) == Word(0x1cf9f39) && WrittenOut(0x1cf9f39, 0) == Word(0x39f3e720)
    ensures WrittenOut(0x39f3e720, 0) == Word(0x378bac94) && WrittenOut(0x378bac94, 0) == Word(0x3b191a31)
  {
  }

  const KNOWN: seq<Word> :=
    [Word(3), Word(3), ZERO, Word(2), Word(3), Word(16), Word(14), Word(20), Word(15), ZERO, ZERO, ZERO, ZERO, ZERO, ZERO, ZERO]

  const STATES: seq<bv30> :=
    [1, 0x23, 0x463, 0x8c60, 0x118c02, 0x2318043, 0x3d5a5fc2, 0x4ec3eb7, 0x3bd75899, 0x8760c09, 0x106098da, 0x3151289d,
     0x3d7342ce, 0x1cf9f39, 0x39f3e720, 0x378bac94, 0x3b191a31]

  lemma KnownStep(k: nat)
    requires k < 16
    ensures Step(Word(STATES[k]), KNOWN[k]) == Word(STATES[k + 1])
  {
    hide Step, WrittenOut;
    SomeSteps();
    MoreSteps();
    StepWrittenOut(STATES[k], KNOWN[k].bits);
  }

  lemma {:induction false} KnownState(k: nat)
    requires k <= 16
    ensures Fold(ONE, KNOWN[..k]) == Word(STATES[k])
  {
    hide Step;
    if k > 0 {
      KnownState(k - 1);
      KnownStep(k - 1);
      FoldNext(KNOWN[..k - 1], KNOWN[k - 1]);
      assert KNOWN[..k] == KNOWN[..k - 1] + [KNOWN[k - 1]];
    }
  }

  lemma KnownSymbols()
    ensures ToSymbols([0x75, 0x1e]) == [14, 20, 15, 0]
  {
    assert Value(8, [0x75]) == 0x75 && Value(8, [0x75, 0x1e]) == 0x751e;
    assert Pow2(4) == 16;
    assert Digits(5, 14, 1) == [14];
    assert Digits(5, 468, 2) == [14, 20];
    assert Digits(5, 14991, 3) == [14, 20, 15];
  }

  lemma KnownWords()
    ensures HrpExpand("bc") + Words([16, 14, 20, 15, 0]) + SIX_ZEROS == KNOWN
  {
    hide AsWord, HrpExpand;
    PrefixExpands("bc");
    SmallWords();
    var v := HrpExpand("bc");
    assert v == [v[0], v[1], v[2], v[3], v[4]];
  }

  lemma SmallWords()
    ensures AsWord(0) == ZERO && AsWord(2) == Word(2) && AsWord(3) == Word(3) && AsWord(14) == Word(14)
    ensures AsWord(15) == Word(15) && AsWord(16) == Word(16) && AsWord(20) == Word(20)
  {
  }

  lemma KnownPieces()
    ensures Pieces(Xor(Word(0x3b191a31), BECH32M)) == [Word(8), Word(13), Word(2), Word(10), Word(20), Word(18)]
  {
  }

  lemma KnownChars()
    ensures Chars([16, 14, 20, 15, 0, 8, 13, 2, 10, 20, 18]) == "sw50qgdz25j"
  {
  }

  lemma KnownTag()
    ensures ChecksumSymbols("bc", [16, 14, 20, 15, 0], BECH32M) == [8, 13, 2, 10, 20, 18]
  {
    hide Fold, HrpExpand, Pieces, Words, Xor, AllSmall, Small;
    KnownWords();
    KnownState(16);
    assert KNOWN[..16] == KNOWN;
    KnownPieces();
    PiecesSmall(Xor(Word(0x3b191a31), BECH32M));
    var p := Pieces(Xor(Word(0x3b191a31), BECH32M));
    var chk := Symbols(p);
    assert chk[0] == 8 && chk[1] == 13 && chk[2] == 2 && chk[3] == 10 && chk[4] == 20 && chk[5] == 18;
  }

  /** A test vector of BIP-350: version 16 and the bytes 75 1e under the prefix bc. */
  lemma KnownAddress()
    ensures SegwitAddr("bc", 16, [0x75, 0x1e]) == "bc1sw50qgdz25j"
    ensures DecodeBech32("bc1sw50qgdz25j") == Ok(Decoded("bc", 16, [0x75, 0x1e]))
  {
    hide DecodeBech32, ChecksumSymbols, ToSymbols, Chars;
    KnownSymbols();
    KnownTag();
    KnownChars();
    assert [16] + [14, 20, 15, 0] == [16, 14, 20, 15, 0];
    assert [16, 14, 20, 15, 0] + [8, 13, 2, 10, 20, 18] == [16, 14, 20, 15, 0, 8, 13, 2, 10, 20, 18];
    assert "bc" + "1" + "sw50qgdz25j" == "bc1sw50qgdz25j";
    DecodeOfEncode("bc", 16, [0x75, 0x1e]);
  }
}
