/** HTLC scriptPubKeys and deposit addresses (client/bitcoin.js, client/p2mr.js, client/addr.js). */
module Deposit {
  import opened Bytes
  import opened Address
  import opened Htlc
  import opened Legs
  import Encoding
  import Sighash

  const BTC_HRPS: seq<string> := ["bcrt", "bc", "tb", "sb"]
  const QBIT_HRPS: seq<string> := ["qbrt", "qbt", "tqb", "qb"]

  function Hrps(coin: Leg): seq<string> {
    if coin == Btc then BTC_HRPS else QBIT_HRPS
  }

  function WitnessSpk(witver: nat, program: bytes): bytes
    requires witver <= 16 && |program| <= 40
  {
    [if witver == 0 then 0 else 0x50 + witver, |program|] + program
  }

  /** addressToScriptPubKey with an expected coin: any bech32 failure is final. */
  function SpkFor(addr: string, coin: Leg): Result<bytes> {
    var d :- DecodeBech32(addr);
    AcceptedParts(addr);
    if d.hrp !in Hrps(coin) then Err(WrongHrp) else Ok(WitnessSpk(d.witver, d.program))
  }

  /** The 32 bytes an HTLC output commits to. */
  function Commitment(f: Family, h: Hash, script: bytes): Bytes32 {
    if f == P2wshEcdsa then h(script) else Sighash.LeafHash(h, script)
  }

  function WitnessVersion(f: Family): nat {
    if f == P2wshEcdsa then 0 else 2
  }

  /** p2wshSpk and p2mrSpk. */
  function HtlcSpk(f: Family, h: Hash, script: bytes): bytes {
    [if f == P2wshEcdsa then 0x00 else 0x52, 0x20] + Commitment(f, h, script)
  }

  /** p2wshAddr and p2mrAddress. */
  function HtlcAddress(f: Family, h: Hash, script: bytes, hrp: string): string {
    SegwitAddr(hrp, WitnessVersion(f), Commitment(f, h, script))
  }

  lemma HrpsAreLower(hrp: string)
    requires hrp in BTC_HRPS || hrp in QBIT_HRPS
    ensures hrp != [] && IsLower(hrp)
  {
  }

  lemma HrpsDisjoint(hrp: string)
    ensures hrp !in BTC_HRPS || hrp !in QBIT_HRPS
  {
    if hrp in QBIT_HRPS {
      assert hrp[0] == 'q' || hrp[1] == 'q';
    }
  }

  /** A deposit address, read back by a sender's wallet, pays the HTLC's scriptPubKey. */
  lemma DepositAddressPays(f: Family, h: Hash, script: bytes, hrp: string, coin: Leg)
    requires hrp in Hrps(coin)
    ensures SpkFor(HtlcAddress(f, h, script, hrp), coin) == Ok(HtlcSpk(f, h, script))
  {
    hide DecodeBech32, SegwitAddr, IsLower, Commitment;
    HrpsAreLower(hrp);
    DecodeOfEncode(hrp, WitnessVersion(f), Commitment(f, h, script));
  }

  /** An address is accepted for a coin exactly when it is a valid one with a prefix of that coin's networks. */
  lemma AcceptedExactly(addr: string, coin: Leg)
    ensures var d := DecodeBech32(addr);
            SpkFor(addr, coin).Ok? <==>
              d.Ok? && match coin
                       case Btc => d.value.hrp == "bc" || d.value.hrp == "tb" || d.value.hrp == "bcrt" || d.value.hrp == "sb"
                       case Qbit => d.value.hrp == "qb" || d.value.hrp == "tqb" || d.value.hrp == "qbt" || d.value.hrp == "qbrt"
  {
    hide DecodeBech32;
    if DecodeBech32(addr).Ok? {
      var hrp := DecodeBech32(addr).value.hrp;
      assert hrp in BTC_HRPS <==> hrp == "bcrt" || hrp == "bc" || hrp == "tb" || hrp == "sb";
      assert hrp in QBIT_HRPS <==> hrp == "qbrt" || hrp == "qbt" || hrp == "tqb" || hrp == "qb";
    }
  }

  /** No address is accepted for both coins. */
  lemma CoinsExclusive(addr: string)
    ensures SpkFor(addr, Btc).Err? || SpkFor(addr, Qbit).Err?
  {
    hide DecodeBech32;
    if DecodeBech32(addr).Ok? {
      HrpsDisjoint(DecodeBech32(addr).value.hrp);
    }
  }

  /** The strings hashed on the way from a script to its address. */
  function Hashed(f: Family, h: Hash, script: bytes): bytes {
    if f == P2wshEcdsa then script else Sighash.LeafMessage(h, script)
  }

  lemma PushLength(data: bytes)
    requires |data| <= 75
    ensures |Encoding.PushData(data)| <= 76
  {
  }

  lemma ScriptFits(f: Family, hashH: bytes, claim: bytes, refund: bytes, locktime: int)
    requires HtlcScript(f, hashH, claim, refund, locktime).Ok?
    ensures |HtlcScript(f, hashH, claim, refund, locktime).value| < 1000
  {
    hide Encoding.ScriptNum, Encoding.PushData;
    Encoding.HeightNumLength(locktime);
    Encoding.HeightNumLength(32);
    PushLength(Encoding.ScriptNum(locktime));
    PushLength(Encoding.ScriptNum(32));
    PushLength(hashH);
    PushLength(claim);
    PushLength(refund);
  }

  /** An HTLC's address pins the hash, both keys with their roles, and the lock height. */
  lemma AddressCommits(f: Family, h: Hash, hrp: string, h1: bytes, c1: bytes, r1: bytes, l1: int,
                       h2: bytes, c2: bytes, r2: bytes, l2: int)
    requires HtlcScript(f, h1, c1, r1, l1).Ok? && HtlcScript(f, h2, c2, r2, l2).Ok?
    requires hrp in BTC_HRPS || hrp in QBIT_HRPS
    requires var s1, s2 := HtlcScript(f, h1, c1, r1, l1).value, HtlcScript(f, h2, c2, r2, l2).value;
             && CollisionFree(h, {Hashed(f, h, s1), Hashed(f, h, s2)})
             && HtlcAddress(f, h, s1, hrp) == HtlcAddress(f, h, s2, hrp)
    ensures h1 == h2 && c1 == c2 && r1 == r2 && l1 == l2
  {
    hide DecodeBech32, SegwitAddr, IsLower, HtlcScript, Sighash.LeafMessage;
    var s1, s2 := HtlcScript(f, h1, c1, r1, l1).value, HtlcScript(f, h2, c2, r2, l2).value;
    HrpsAreLower(hrp);
    DecodeOfEncode(hrp, WitnessVersion(f), Commitment(f, h, s1));
    DecodeOfEncode(hrp, WitnessVersion(f), Commitment(f, h, s2));
    assert Hashed(f, h, s1) == Hashed(f, h, s2);
    if f == P2mrSlhdsa {
      ScriptFits(f, h1, c1, r1, l1);
      ScriptFits(f, h2, c2, r2, l2);
      Sighash.LeafInjective(h, s1, s2);
    }
    ScriptCommits(f, h1, c1, r1, l1, h2, c2, r2, l2);
  }
}
