# Verified model of a keyless atomic-swap system

A buyer and a seller exchange coins on two chains through a pair of hashed-timelock contracts. A coordinator that
holds no keys derives the two contracts, watches both chains, decides when the buyer may reveal the secret, and relays
or re-sends the transactions the parties signed. This project models that coordinator, the byte formats the parties
sign, the fee, depth and timelock arithmetic, the routing of requests over market makers, and a maker's own coin
selection, and proves what each of them is for. `dafny verify dfyconfig.toml` checks everything.

## How it is laid out

| files | what they model |
|---|---|
| `Bytes`, `Encoding`, `TxCodec` | byte strings, integers and script numbers, the BIP-144 transaction codec |
| `Script`, `Htlc`, `Sighash`, `Spend` | script execution, the two HTLC scripts, both signature digests, building and splicing spends |
| `Checksum`, `Regroup`, `Address`, `Deposit` | the bech32 code, five-bit regrouping, addresses, HTLC deposit addresses |
| `Legs`, `Hex`, `Depth`, `Fees` | the two chain slots, hex text, confirmation depths and timelocks, fees |
| `SwapState`, `SwapEngine` | the swap record: every operation as a function, and the same operations as methods of a class |
| `SwapCalls`, `SwapTicks` | what each single call and each watchtower tick does, both ways, in terms of record fields and node answers |
| `SwapSteps`, `SwapSound`, `SwapRuns` | what single operations keep, and runs of arbitrary calls with arbitrary node answers |
| `SwapSafety`, `SwapPromises`, `SwapMargin`, `SwapPayout`, `SwapLimits` | the results over whole runs |
| `SwapScenario`, `SwapExhibits` | concrete runs, and the exact conditions under which a promise fails on some run |
| `Twin`, `TwinEngine`, `TwinSweeps` | the fork-twin sweep: at most once and in time, and whenever it is due |
| `Store`, `StoreExhibits` | the working set over the durable store, and a swap that changes after eviction |
| `Rfq`, `RfqDesk` | planning and taking a multi-maker fill |
| `LightWallet` | package-priced coin selection |

Code that updates things step by step is a method or a class here, proved against a function on values; the results
are lemmas about those functions. A call that throws is modelled with the partial changes it leaves behind: an
`Outcome` holds the record, whether the call returned, and what it relayed.

## What is assumed

- A node's answers are arbitrary within one call, for every call. Nothing is assumed about reorganisations, dropped
  deposits, replaced or evicted transactions or out-of-band spends, except where a lemma says so: `Truthful` asks that
  an accepted claim of the initiator shows a 32-byte preimage, which `ClaimWitnessCarries` derives from the script.
- The label under which a transaction is relayed matches the branch it takes.
- SHA-256 is an arbitrary deterministic function; where a result needs it to be collision-free, it asks so only of the
  strings that are hashed. Signing is an arbitrary deterministic function, and so is verification.
- Sats are whole numbers, prices, rates and seconds are real numbers, and `Math.round(x)` is `floor(x + 1/2)`.
- Letter case is folded for ASCII letters only.

## What turned out not to hold

- The engine compares the hash of a preimage, written in lower-case hex, with the text the buyer submitted. Upper-case
  text is accepted on submission, but then no preimage is ever recognised (`RecognisedWhenCanonical`), and one
  watchtower tick can relay both a claim and a refund for the buyer (`BothSidesIfNotCanonical`). Wherever the gate can
  open, a run that relays both for the buyer exists if and only if the text is not canonical
  (`InitiatorBothSidesExactly`); 64 times the letter A does it under the default depths (`UpperCaseGoesWrong`).
- For the seller a run that relays both exists if and only if some derivation can set a TO target that together with
  the reveal buffer comes to zero or less (`ParticipantBothSidesExactly`): a claim then still passes the gate at the
  lock height itself. The least such target is a function of the configuration and the swap's value (`LeastIsReached`).
  It is at least one whenever the leg asks for a confirmation or has a positive cost of reorganisation to cover
  (`LeastIsPositive`), and then a buffer of zero is harmless.
- Re-submitting the same keys in READY derives the contracts afresh. If that derivation throws because a lock height
  is out of range, the new locktimes stay beside the old scripts (`StaleScripts`, `StaleByDefault`), and exactly then
  an honest client refuses the view (`HonestClientAccepts`).
- The marker check on stored bundles goes by the label the client put on its claim. A claim labelled with a
  replay-protected leg always carries the marker when it is relayed (`ClaimsAreMarked`); under any other label, or none,
  an unmarked claim is stored and the watchtower relays it, also on a replay-protected leg (`UnmarkedExactly`).
- A transaction without inputs and with exactly one output is serialised to bytes that parse differently
  (`ParseOfSerialize`); the segwit-flagged bytes that do not serialise back are those without any witness item
  (`SerializeOfParse`).
- The net amount quoted to a sell-side taker is the largest that fits exactly when the platform's cut is floored away
  on the gross or the next sat up still clears the floor (`LargestExactly`); just past the step it loses sats
  (`StepLosesSats`), and without a floor it can go negative (`NegativeWithoutFloor`).
- The claim window's spare blocks depend on rounding to whole seconds: they are there exactly when the window is longer
  than one block less than the gate and the spare blocks together (`SpareBlocksExactly`). Blocks of at least half a
  second are enough for that under the default multiplier and base (`SpareBlocks`); with faster ones it can fail
  (`SpareBlocksNeedSlowBlocks`).
- An evicted swap is assumed not to change any more. A party's claim of TO is relayed in any state, and is the one call
  that leads out of a terminal one (`LeavesTerminalExactly`). The working set stays complete if and only if no such
  claim is relayed on an evicted swap (`WorkingSetComplete`), and wherever the gate can open there is a run in which
  one is (`EvictedReopens`).
- A mistyped version symbol that moves to or from zero is outside the error-detection result, since the two checksum
  constants differ.

## Model

| member | source | states |
|---|---|---|
| Encoding.LeU | client/encoding.js:7-13 | Encodes a number into a fixed number of little-endian bytes, or refuses when it does not fit; never wraps. |
| Encoding.ScriptNumBytes | client/encoding.js:31-39 | The loop writes the script number of every integer, low byte first, with the sign in the top bit. |
| Encoding.ScriptNumRoundTrip | client/encoding.js:31-39 | Script reads back exactly the integer that was written. |
| Encoding.ScriptNumMinimal | client/encoding.js:31-39 | No shorter encoding of a nonzero integer exists. |
| Encoding.HeightNumLength | client/encoding.js:44-47 | A valid lock height takes one to five bytes, what OP_CHECKLOCKTIMEVERIFY accepts. |
| TxCodec.ParseTx | client/tx.js:22-41 | The cursor-driven parser returns what the decoder on remaining bytes returns, including which error. |
| TxCodec.SerializeTx | client/tx.js:43-53 | The serialiser refuses exactly what does not fit and otherwise writes the encoding. |
| TxCodec.Reader.Size | client/tx.js:13-19 | Reads a compactSize, refuses non-minimal forms, and leaves the cursor where the decoder stopped. |
| TxCodec.ParseOfSerialize | client/tx.js:22-53 | Parsing undoes serialising for a well-formed transaction if and only if it is not the one shape that reads as a segwit marker. |
| TxCodec.SerializeOfParse | client/tx.js:22-53 | Every accepted byte string is well formed and serialises back to itself if and only if, when flagged, it carries some witness item. |
| Script.ParsePush | client/encoding.js:23-29 | A push reads back as the data pushed, whatever its length. |
| Htlc.ScriptMeaning | client/bitcoin.js:31-38 | The bytes of either HTLC script accept a witness exactly as a claim (32-byte preimage, claim key) or as a refund (reached lock height, non-final input, refund key). |
| Htlc.ScriptCommits | client/p2mr.js:25-34 | The script bytes determine the hash, both keys with their roles and the lock height. |
| Sighash.Bip143Commits | client/bitcoin.js:46-56 | Equal BIP-143 digests come from equal version, locktime, inputs, outputs, script and amount, unless two hashed strings collide. |
| Sighash.Bip143CommitsToIndex | client/bitcoin.js:46-56 | When no outpoint occurs twice the digest also tells which input signs. |
| Sighash.P2mrCommits | client/sighash.js:12-31 | Equal P2MR digests come from equal transactions, spent coins, index and leaf, unless two hashed strings collide. |
| Sighash.Bip143Layout | client/bitcoin.js:46-56 | The message hashed for a signature is the ten items of BIP-143 in that standard's order. |
| Sighash.P2mrLayout | client/sighash.js:12-31 | The P2MR message is its listed items in order, under its tag. |
| Spend.BuildBtcSpend | client/bitcoin.js:84-111 | The guarded builder returns the specified spend or the first guard's error. |
| Spend.BuildSegwit | client/bitcoin.js:58-66 | The second serialiser, loop by loop, writes its specified bytes. |
| Spend.SerializersAgree | client/bitcoin.js:58-66 | Both serialisers write the same bytes for a transaction that carries a witness. |
| Spend.SpendsExactly | client/bitcoin.js:84-111 | A spend is built for exactly the requests with a usable preimage, lock height, outpoint and outputs that stay within the coin. |
| Spend.OutputsExactly | client/bitcoin.js:98-106 | It pays the destination, then the coordinator, then the marker, each exactly where asked for. |
| Spend.SpendFields | client/bitcoin.js:96-108 | Its input is final for a claim and not for a refund; version, outpoint and lock time are those asked for. |
| Spend.BtcSpendParses | client/bitcoin.js:84-111 | A spend that is not refused parses to the transaction asked for. |
| Spend.BtcSpendConserves | client/bitcoin.js:92-106 | Outputs add up to what was asked and never exceed the coin. |
| Spend.BtcSpendSatisfies | client/bitcoin.js:84-111 | The bytes built, parsed and checked by a node, satisfy the HTLC exactly when the branch asked for can succeed. |
| Spend.MarkerPresent | coordinator/chains.js:145 | hasReplayMarker finds a marker exactly when one was asked for or the caller put one in. |
| Spend.BuildP2mr | webapp/src/swapflow.js:359-368 | The P2MR sweep is the specified transaction. |
| Spend.P2mrFields | webapp/src/swapflow.js:359-368 | Only a P2MR refund has a lock time and an input that lets it count. |
| Spend.P2mrSpendSatisfies | webapp/src/swapflow.js:359-368 | The P2MR sweep satisfies the leaf exactly when the branch asked for can succeed. |
| Spend.SplicePreimage | coordinator/swap.js:612 | Splicing parses, writes one witness element and serialises again, with the parser's errors. |
| Spend.SpliceOnlyTouchesWitness | coordinator/swap.js:612 | What was spliced parses to the same transaction with that one witness element replaced. |
| Spend.SplicedBtcClaim | coordinator/swap.js:634-638 | A P2WSH claim pre-signed without a preimage, once spliced, is byte for byte the claim signed with it. |
| Spend.SplicedP2mrClaim | coordinator/swap.js:634-638 | The same for a P2MR claim. |
| Checksum.Polymod | client/addr.js:10-14 | The loop folds the linear step over the symbols. |
| Checksum.FoldLinear | client/addr.js:10-14 | The checksum state is linear in start and symbols under exclusive or. |
| Checksum.StepLossless | client/addr.js:10-14 | A step on a zero symbol loses nothing: only the zero state leads to zero. |
| Checksum.TagUnique | client/p2mr.js:55-56 | Exactly one choice of six symbols satisfies the check, the one the encoder writes. |
| Checksum.BurstChangesFold | client/addr.js:30-32 | Changing symbols inside any window of six always changes the checksum state. |
| Regroup.Convert8to5 | client/p2mr.js:46-51 | The accumulator loop, wrapping at 32 bits, gives the base-32 digits of the bytes' number. |
| Regroup.Convert5to8 | client/addr.js:16-21 | The accumulator loop gives the bytes of the symbols' number, or refuses the padding. |
| Regroup.BytesRoundTrip | client/addr.js:16-21 | Every byte string survives the trip through symbols. |
| Regroup.SymbolsRoundTrip | client/addr.js:16-21 | Accepted symbols are exactly the ones their bytes would be written as. |
| Address.EncodeAddress | client/p2mr.js:52-58 | The encoder's steps give the specified address. |
| Address.ParseAddress | client/addr.js:23-40 | The decoder's checks, in the order in which they throw, give the specified result. |
| Address.DecodeOfEncode | client/addr.js:23-40 | Decoding an encoded address gives its parts back if and only if the prefix is non-empty lower case and version and program are valid. |
| Address.EncodeOfDecode | client/p2mr.js:52-58 | Every accepted address is, up to letter case, what the encoder writes for its parts. |
| Address.MistypedIsRejected | client/addr.js:30-36 | Replacing symbols within a window of six never gives another accepted address, unless the version moves to or from zero. |
| Address.PrefixExpands | client/addr.js:15 | The prefix enters the checksum as its high bits, a zero and its low bits. |
| Address.KnownAddress | client/p2mr.js:52-58 | A test vector of BIP-350 is encoded and decoded as the standard says. |
| Deposit.DepositAddressPays | client/bitcoin.js:42-43 | An HTLC's deposit address, read back for its coin, pays the HTLC's scriptPubKey. |
| Deposit.AcceptedExactly | client/addr.js:88-100 | An address is accepted for a coin exactly when it is valid and carries a prefix of that coin's networks. |
| Deposit.CoinsExclusive | client/addr.js:89-109 | No address is accepted for both coins. |
| Deposit.AddressCommits | client/p2mr.js:28-59 | Equal deposit addresses come from equal hash, keys, roles and lock height, unless two hashed strings collide. |
| Depth.ReorgConfsExactly | coordinator/swap.js:259-288 | Every gate: by value alone on a fixed leg, else the priced depth at what one confirmation costs in block rewards, else the configured fallback, capped. |
| Depth.SubsidyHalves | coordinator/swap.js:250 | Fifty coins a block, halved and rounded down every 210,000 blocks. |
| Depth.FixedBase | coordinator/swap.js:261-268 | Up to the scale a fixed leg asks for its base depth within minimum and cap. |
| Depth.PricedDepthLeast | coordinator/swap.js:270-287 | The priced depth is the least one at or above the minimum whose reorganisation cost reaches the margin times the value, unless the cap cuts it short. |
| Depth.FixedDepthDoubles | coordinator/swap.js:261-268 | The fixed model adds one confirmation per doubling of the value exactly while above the scale, above the minimum and below the cap. |
| Depth.DepthMonotone | coordinator/swap.js:259-288 | A larger swap never gets a shallower gate. |
| Depth.NoGateBelowLeast | coordinator/swap.js:259-288 | No height and no quote give a swap a gate below the least depth computed from the configuration and its value. |
| Depth.LeastIsReached | coordinator/swap.js:259-288 | Some height and quote give exactly that least depth. |
| Depth.LeastIsPositive | coordinator/swap.js:259-288 | Every gate is at least one block deep exactly for a fixed model, or where the unpriced fallback is positive and there is a minimum or a value to cover. |
| Depth.BlocksLeast | coordinator/swap.js:227 | A window's block count is the least one, and at least one, that spans it. |
| Depth.WindowsExactly | coordinator/swap.js:290-295 | The TO window is maturity times multiplier plus base to the nearest second, never below its minimum; the FROM window is longer by exactly the gap; forced windows are taken as they are. |
| Depth.RevealLeavesTime | coordinator/swap.js:290-295 | A reveal that passes the gate leaves more than the gap plus (confirmations + buffer - 2) blocks before the initiator's refund opens, whichever chain is faster. |
| Depth.SpareBlocksExactly | coordinator/swap.js:290-295 | The claim window opens with at least as many spare blocks beyond the gate as confirmations if and only if it is longer than one block short of both together, or these come to one block at most. |
| Depth.SpareBlocks | coordinator/swap.js:290-295 | That is so for a multiplier of two, a base of the buffer's blocks and blocks of at least half a second. |
| Depth.SpareBlocksNeedSlowBlocks | coordinator/swap.js:227 | With blocks under half a second the rounding can eat the spare blocks. |
| Fees.TakerNet | coordinator/swap.js:201-209 | The closed form with its correction loop gives the specified amount, and the loop's turns are counted. |
| Fees.OneStepDown | coordinator/swap.js:206-208 | The correction loop turns at most once and ends at an amount that fits. |
| Fees.NetFits | coordinator/swap.js:201-209 | The result is never negative, and a positive result plus its fee stays within the gross. |
| Fees.LargestExactly | coordinator/swap.js:198-209 | It is the largest amount that fits if and only if the cut is floored away on the gross or the next amount still clears the floor. |
| Fees.StepLosesSats | coordinator/swap.js:198-209 | A concrete gross where a larger amount would fit. |
| Fees.NegativeWithoutFloor | coordinator/swap.js:204-208 | A concrete gross where, without a floor, the result is negative. |
| Fees.SplitExactly | webapp/src/swapflow.js:397-401 | The claim's split adds up: the seller all but the fee, the miner the network fee within it, the platform the rest unless it is dust. |
| Fees.SellConservesMoney | webapp/src/swapflow.js:397-401 | On a sell the maker's outlay stays within its quote, the split claim passes every guard of the builder, pays at least the quoted amount and leaves the miner at most the reserve. |
| SwapEngine.LiveSwap.SubmitParty | coordinator/swap.js:358-379 | Joining updates the record as specified, including what it leaves behind when it throws. |
| SwapEngine.LiveSwap.DeriveHtlcs | coordinator/swap.js:381-423 | Derivation writes the plan before it builds, then both scripts with their roles. |
| SwapEngine.LiveSwap.CancelSwap | coordinator/swap.js:343-349 | Cancelling is refused once a deposit exists or the swap is finished. |
| SwapEngine.LiveSwap.Poll | coordinator/swap.js:427-523 | A poll leaves the specified record: discovery, spends, classification, depths, state, refunds. |
| SwapEngine.LiveSwap.ApplyEffects | coordinator/swap.js:528-538 | What an accepted relay does to the record. |
| SwapEngine.LiveSwap.Broadcast | coordinator/swap.js:541-579 | A party's transaction is held, refused or relayed as specified. |
| SwapEngine.LiveSwap.SubmitFinish | coordinator/swap.js:586-611 | A bundle is stored or refused as specified. |
| SwapEngine.LiveSwap.DriveWatchtower | coordinator/swap.js:648-685 | A watchtower tick makes the specified moves, relays and record changes, also when it dies midway. |
| SwapCalls.SubmitExactly | coordinator/swap.js:358-423 | For every record and every node: who is turned down, what joining writes, exactly when a plan is derived, that it is counted from the heights and quotes of this call's nodes, and exactly when the scripts follow. |
| SwapCalls.CancelExactly | coordinator/swap.js:343-349 | Cancelling is refused over any deposit or after the end, and otherwise writes only the state and who canceled. |
| SwapCalls.PollReturnsExactly | coordinator/swap.js:427-433 | When a poll returns, and that it does nothing before the scripts exist or after the end. |
| SwapCalls.PollStates | coordinator/swap.js:487-511 | READY, FROM_FUNDED, TO_FUNDED, MATURING, CLAIMABLE and COMPLETE after a poll, each exactly by the deposits, the plan and the nodes' heights. |
| SwapCalls.PollWrites | coordinator/swap.js:487-511 | The settlement date, the too-late mark and the participant's clearance, exactly, and everything a poll leaves alone. |
| SwapCalls.RefundTerms | coordinator/swap.js:513-521 | A surfaced refund is the funder's, at the leg's lock height, and short only over an underfunded deposit alone. |
| SwapCalls.ShortFollowsNodes | coordinator/swap.js:442-454 | An underfunded deposit is recorded, kept and marked spent exactly as the node reports. |
| SwapCalls.ContractFixedOnceFunded | coordinator/swap.js:351-360 | In every run, from the initiator's confirmed deposit on, plan and scripts never change again. |
| SwapCalls.BroadcastExactly | coordinator/swap.js:541-579 | A refund is relayed exactly when the node accepts it, a claim also needs the marker where the leg asks for it, and a claim of TO the open gate; a relay is that transaction, and its whole effect on the record is stated. |
| SwapCalls.FinishExactly | coordinator/swap.js:586-611 | A bundle is stored exactly when it has tiers, a twin sweep only across a fork pair, and the marker wherever a label asks for it. |
| SwapTicks.FirstMoveExactly | coordinator/swap.js:656-670 | A first move goes out exactly when it is due by the record and the node accepts the chosen tier, the cheapest paying the live rate on btc; it dies exactly over a tier that cannot be put together. |
| SwapTicks.ResendExactly | coordinator/swap.js:674-683 | A recorded spend goes out again exactly when bundle and deposit are there, the node calls the outpoint unspent and accepts the tier chosen now but never below the one on record. |
| SwapTicks.FirstMovesExactly | coordinator/swap.js:656-670 | The first moves of a tick, all four together, told from the record it starts with. |
| SwapTicks.TickExactly | coordinator/swap.js:648-685 | Which spends a whole tick relays, both ways, and that it does nothing for a swap that is not watched. |
| SwapTicks.TickReturns | coordinator/swap.js:648-685 | A tick does not die while every stored ladder can be sent from. |
| SwapTicks.DroppedClaimGoesAgain | coordinator/swap.js:674-683 | From any point of a run, a recorded claim whose outpoint is unspent again goes out with the next tick. |
| SwapSafety.RevealSafety | coordinator/swap.js:487-510 | Over every run CLAIMABLE means the gate is open and the deposit unspent, and the first relayed claim of the TO leg goes through an open gate. |
| SwapSafety.WatchtowerLawful | coordinator/swap.js:648-685 | Over every run the watchtower relays no abort refund once the preimage is known and no claim while a leg is underfunded. |
| SwapSafety.ClaimsAreMarked | coordinator/swap.js:572-606 | Over every run a claim that a party sends on a replay-protected leg carries the marker, and so does every claim the watchtower relays from a bundle labelled with such a leg. |
| SwapSafety.TwinsAreMarked | coordinator/swap.js:589-606 | Over every run a stored twin sweep goes across a fork pair, and carries the marker on every tier where its label asks for it. |
| SwapSafety.NeverBothSides | coordinator/swap.js:648-685 | In no run has the watchtower relayed both a claim and a refund for the same party, given canonical hash text and claims that show the preimage, and for the participant a least TO target that with the buffer is above zero. |
| SwapExhibits.InitiatorBothSidesExactly | coordinator/swap.js:532-533 | Wherever the gate can open, a run with both for the initiator, all his claims showing the preimage, exists if and only if the hash text is not canonical. |
| SwapExhibits.ParticipantBothSidesExactly | coordinator/swap.js:562-563 | A run with both for the participant exists if and only if some derivation can set a TO target that with the buffer comes to zero or less. |
| SwapExhibits.UpperCaseGoesWrong | coordinator/swap.js:532-533 | Under the default depths 64 times the letter A is an accepted hash text with such a run for the initiator. |
| SwapExhibits.NotCanonicalRun | coordinator/swap.js:532-533 | For any accepted text that is not canonical a run meets everything NotCanonicalGoesWrong asks for, and relays both. |
| SwapExhibits.UnmarkedExactly | coordinator/swap.js:599-606 | A run in which the watchtower relays the participant's claim without the marker exists if and only if its label does not name a replay-protected leg. |
| SwapExhibits.StaleScripts | coordinator/swap.js:381-423 | A second submission at too high a block leaves new locktimes beside the old scripts, and the client refuses the view. |
| SwapExhibits.StaleByDefault | coordinator/swap.js:381-423 | Under the default depths a concrete run ends in a view that an honest client refuses. |
| SwapRuns.ClaimableGateAgrees | coordinator/swap.js:556-564 | In CLAIMABLE the relay's own gate refuses exactly when an untrusted leg has target zero and too few confirmations. |
| SwapRuns.RecognisedWhenCanonical | coordinator/swap.js:466-468 | The engine recognises a claim's preimage exactly when the hash text is canonical lower-case hex. |
| SwapMargin.PlanIsLastMade | coordinator/swap.js:381-405 | In every run the plan on record is the one that the last deriving submission made from its nodes' heights and quotes. |
| SwapMargin.FirstRevealLeavesTime | coordinator/swap.js:401-405 | In every run, counted from the heights that the last derivation before it was given, the first relayed claim of TO leaves more than the gap plus (confirmations + buffer - 2) blocks before the initiator's refund opens. |
| SwapPayout.ParticipantGetsPaid | coordinator/swap.js:634-638 | In every run with the preimage on record, what the watchtower sends for the participant is the claim signed with it, and satisfies the recorded script exactly when his pre-made signature verifies for the key he joined with. |
| SwapPromises.SetOnce | coordinator/swap.js:351-379 | From any point of a run on: hash, keys and preimage stay, confirmed deposits keep outpoint, amount and height and stay spent, short legs stay marked. |
| SwapPromises.RecordsAreTrue | coordinator/swap.js:437-480 | In every run the preimage hashes to the agreed text, funding meets the agreed amount with the fee, short funding does not, and confirmations are those at the last polled height. |
| SwapPromises.RecordedScripts | coordinator/swap.js:408-421 | In every run the recorded scripts are those of the hash, keys and locktimes, with the right roles. |
| SwapPromises.HonestClientAccepts | webapp/src/swapflow.js:179-192 | In every run an honest client accepts the published contracts exactly when the locktimes are valid lock heights. |
| SwapPromises.CanceledExactly | coordinator/swap.js:343-349 | Among all calls, only a party's cancel of an unfinished swap without any deposit makes it CANCELED, and none reopens a claimed, finished or canceled one. |
| SwapPromises.NeverCanceledOnceFunded | coordinator/swap.js:343-349 | From any point of a run on: once a deposit is confirmed or short a swap is never canceled, and once stopped it never opens again. |
| SwapPromises.LeavesTerminalExactly | coordinator/swap.js:541-579 | Exactly a party's relayed claim of TO leads out of a terminal state: open gate, marker where required, accepted by the node. |
| SwapPromises.TerminalStays | coordinator/swap.js:343-379 | Only a party's broadcast leaves a terminal state; any other call changes at most the stored bundles. |
| SwapPromises.TierIsCheapest | coordinator/swap.js:616-621 | The tier picked is the first that pays the live rate, else the last. |
| SwapPromises.ResendNeverDowngrades | coordinator/swap.js:674-683 | A re-send never goes below the tier on record. |
| SwapPromises.PollIdempotent | coordinator/swap.js:427-523 | Polling again while the nodes answer the same changes nothing, whatever the clock says. |
| SwapLimits.PollDecides | coordinator/swap.js:487-511 | After a poll CLAIMABLE is exactly the open gate over an unspent deposit, COMPLETE a known preimage with both deposits spent, too late a gate shut by time alone, and the participant is cleared once the initiator's deposit was buried. |
| SwapLimits.DepositsFollowNodes | coordinator/swap.js:442-454 | After a poll each leg's deposit is, field by field, the confirmed one it was or what the node reports, spent exactly when the node says so or it was before, with the confirmations at the node's height. |
| SwapLimits.SpendIsClassified | coordinator/swap.js:462-475 | In every run a poll that can name the spender of a spent deposit records it once, as a claim if and only if the hash text is canonical and the witness shows a preimage of it, which is then known. |
| SwapLimits.SpendsStay | coordinator/swap.js:456-464 | A poll leaves a leg's record of spends alone once there is one, while the deposit is unspent, and when the spender has no name. |
| SwapLimits.OutOfBandSpend | coordinator/swap.js:456-475 | In every run with canonical text a spend that satisfies the recorded script without the refund branch is recorded as a claim with the preimage, and one recorded as a claim shows a preimage. |
| SwapLimits.SurfacedRefundIsReal | coordinator/swap.js:513-521 | A refund is surfaced exactly for a confirmed, unspent deposit at or above its lock height, on TO only while the preimage is unknown. |
| SwapLimits.ClaimWitnessCarries | client/bitcoin.js:31-38 | A spend that satisfies a leg's script without its refund branch shows a 32-byte preimage. |
| SwapLimits.BothSidesIfNotCanonical | coordinator/swap.js:532-533 | Without canonical hash text one tick can relay a claim and a refund for the initiator. |
| SwapLimits.NotCanonicalGoesWrong | coordinator/swap.js:648-685 | From any reachable CLAIMABLE record without canonical hash text, with both deposits confirmed and the bundle armed, one poll and one tick lead to a run that has relayed both for the initiator. |
| Twin.Climb | coordinator/swap.js:740-742 | The loop walks up to the first tier the node accepts, or stops at the last. |
| TwinEngine.LiveSweeper.DriveTwinSweep | coordinator/swap.js:703-756 | A probe updates the sweep's records as specified. |
| Twin.SweptOnce | coordinator/swap.js:708-712 | Over all probes each role's twin is swept at most once. |
| Twin.SweptInTime | coordinator/swap.js:728-742 | A sweep goes out only while the home outpoint is spent and the twin chain is at the lock height, the delay after a look that saw the spend, at the lowest accepted tier from the starting one. |
| TwinSweeps.LookSweeps | coordinator/swap.js:703-756 | In a look that is not skipped each role's twin is swept exactly when that is due, at the tier it is due at, and once. |
| TwinSweeps.LookRecords | coordinator/swap.js:714-730 | After such a look a twin unspent on the other chain is on record with its dates. |
| TwinSweeps.SweptWhenDue | coordinator/swap.js:703-756 | Over any looks: a twin unspent while its home outpoint is spent, the delay after a look that saw so, at the lock height and with some tier taken, is swept in this look. |
| Twin.FoundStays | coordinator/swap.js:716-731 | A twin once found stays on record with its dates, and once resolved stays resolved. |
| Store.Coordinator.TouchSwap | coordinator/swap.js:103-109 | A touch stores the object exactly when its signature changed. |
| Store.Coordinator.EvictSettled | coordinator/swap.js:58-65 | The loop drops exactly the long-settled swaps without an unresolved twin, and counts them. |
| Store.TouchExactly | coordinator/swap.js:103-109 | What a touch writes to the store and to memory, exactly. |
| Store.SigCovers | coordinator/swap.js:94-98 | Equal signatures mean equal values of every field that a restart cannot find again on the chains. |
| Store.EvictExactly | coordinator/swap.js:58-65 | Eviction drops exactly terminal swaps settled longer ago than the limit and without an unresolved twin. |
| Store.GetSwapAgrees | coordinator/swap.js:334 | After any creations, touches, evictions and restarts, lookups know exactly the swaps of a map that never evicts and agree with it on every signed field. |
| Store.WorkingSetComplete | coordinator/swap.js:51-65 | What is missing from memory is settled throughout a run of calls if and only if no party's claim of TO is relayed on an evicted swap. |
| StoreExhibits.EvictedReopens | coordinator/swap.js:331-334 | Wherever the gate can open some calls leave a swap out of memory while it is only CLAIMED. |
| Rfq.PlanFill | coordinator/rfq.js:223-249 | The loop over the ranked quotes gives the specified plan and totals. |
| Rfq.RankRanks | coordinator/rfq.js:228 | The ranking is a permutation of the book, best price first. |
| Rfq.LiveSidesExactly | coordinator/rfq.js:154-158 | The book lists exactly the quotes of serving makers with something left. |
| Rfq.RankStable | coordinator/rfq.js:228 | Quotes at one price keep the makers' order. |
| Rfq.SliceExactly | coordinator/rfq.js:231-241 | A slice is the least of the maker's size, the QBT missing and what the BTC missing comes to; it becomes a swap exactly at the minimum sizes. |
| Rfq.DeriveExactly | coordinator/rfq.js:101-111 | A slice's price is the size's value rounded up on a buy, and what a taker nets of it rounded down on a sell. |
| Rfq.LegsExactly | coordinator/rfq.js:231-246 | Every leg is at its maker's quote, for what it comes to, and the legs add up to the plan's BTC. |
| Rfq.PlanBounds | coordinator/rfq.js:231-241 | Every slice fits its maker's size, the total never exceeds the request, and a buy for a BTC amount never exceeds it. |
| Rfq.RoundedForMaker | coordinator/rfq.js:101-111 | A slice is rounded in the maker's favour, on a sell with the fee included. |
| Rfq.GreedyIsOptimal | coordinator/rfq.js:223-249 | With no slice dropped, no other split of the same total costs less on a buy or yields more on a sell. |
| Rfq.FillsWhatThereIs | coordinator/rfq.js:231-246 | With no slice dropped a size request gets all of it or all there is. |
| Rfq.CompleteExactly | coordinator/rfq.js:246 | With no slice dropped a plan for QBT is complete exactly if the side offers enough. |
| RfqDesk.WorseExactly | coordinator/rfq.js:261 | A plan is turned down exactly if its total is beyond the limit times its size and one part in a billion. |
| RfqDesk.Desk.TakeFill | coordinator/rfq.js:256-266 | Taking a fill plans, opens every leg and stays within the limit price; a bad request, no liquidity or a worse price changes nothing. |
| RfqDesk.MatchesExactly | coordinator/rfq.js:192-199 | Each leg leaves one match for its maker, with its side, price and amounts. |
| RfqDesk.FillConservesBook | coordinator/rfq.js:192-203 | Every quote goes down by exactly its slice, never below zero, and the side by exactly the plan's total; nothing else changes. |
| LightWallet.Wallet.ChainOf | maker-bot/light/lightwallet.js:57-62 | The walk adds only transactions reachable from its start, closes over their parents, and terminates on any graph. |
| LightWallet.Wallet.Ancestry | maker-bot/light/lightwallet.js:82-84 | The inputs' ancestry is exactly the pending transactions they reach. |
| LightWallet.Wallet.AncestorDeficit | maker-bot/light/lightwallet.js:82-88 | The deficit is the rounded-up sum of the ancestors' shortfalls. |
| LightWallet.Wallet.Select | maker-bot/light/lightwallet.js:90-100 | The selection is the shortest prefix that covers the amount and the fee it then needs; it fails exactly when no prefix does. |
| LightWallet.Wallet.Track | maker-bot/light/lightwallet.js:102-106 | After a broadcast joins the graph, the next spend of its outputs builds on it and on exactly what its inputs built on. |
| LightWallet.TrackExtendsAncestry | maker-bot/light/lightwallet.js:102-106 | The ancestry of a tracked transaction's output is the transaction and the ancestry of its inputs. |
| LightWallet.PackagePays | maker-bot/light/lightwallet.js:90-98 | The child together with any part of its unconfirmed own ancestors pays at least the target rate. |

## Left out

- HTTP, SSE, rate limits, admin pages, bots, presence, the peer order book and USD pricing: plumbing.
- Node, esplora and wallet transport: a node is its answers. Exceptions and timeouts of node calls are not modelled.
- A call runs to its end before the next one starts: two asynchronous calls interleaving on one swap, and a node changing its answers within one call, are not modelled, except that a watchtower tick sees separate answers for its first moves and for its re-sends.
- SHA-256, HMAC, secp256k1, SLH-DSA and BIP-32 themselves; base58 addresses, hence `addressToScriptPubKey` without an expected coin.
- `parseTx` on a hex string, and JavaScript numbers above 2^53 in sizes and amounts.
- Opcodes the swap scripts do not contain, and the script size and operation limits; none is near its bound.
- Letter case beyond ASCII and characters outside the basic plane in addresses.
- Floating-point rounding of prices, logarithms and rates.
- `DEV_CONFS_CAP`, a development override of the confirmation targets.
- createSwap's minimum amounts and active-swap cap, tokens, and the choice of fee address.
- Destination addresses in party data, which the engine only stores.
- Transient store failures, the sqlite schema, the JSON import, and the memory-only backend, which has nothing to reload.
- Changes to a swap that are not followed by a touch (those of a call that throws), in `Store`; and fields that the signature does not cover, in `GetSwapAgrees`.
- bestQuote and takeRfq, the single-maker form of the plan, and makerRep with classifyMatch, which only count: a maker's liveness and suspension enter the book as one flag.
- Rfq.GreedyIsOptimal: a plan in which a slice fell below the minimum swap size is not covered, since it leaves a cheaper quote unused on purpose.
- Fetching and filtering unspent outputs in the wallet (`utxos`, `noteConfirmed`) and its depth limit; `Select` takes the coins already sorted, largest first.
