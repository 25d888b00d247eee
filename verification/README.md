# Verification of the coinswap core

A Dafny model of the parts of coinswap that decide whether anybody loses money, and proofs of what they promise.
Coinswap chains hash-time-locked contracts from a taker through several makers and back. The model covers the contract
scripts, the maker's swap state machine and recovery, the timelock ladder, the fee arithmetic of a route, the connection
limiter, the recovery records and the descriptor checksum. `dafny verify dfyconfig.toml` checks everything.

## What is modelled

- **Scripts** (`Bytes`, `Script`, `LegacyContract`, `Multisig`, `TaprootContract`, `PreimageRecovery`): script
  bytes, the integer push encodings, a parser and an interpreter for the opcodes used, following the specifications of
  BIP 65, BIP 112, BIP 141 and BIP 342. Hashes and signature checks are functions of the spending transaction that the
  theorems quantify over.
- **The maker** (`MakerState`, `MakerHandlers`, `MakerProcess`, `MakerSafety`, `MakerRegistry`, `MakerRuns`, `FreshRuns`,
  `DeadlineRuns`, `Deletion`, `Ledger`, `SignedSpends`, `OutgoingCounts`, `ClaimedContracts`, `FailingRuns`): each handler
  is a plan, an ordered list of effects that may fail anywhere, and the methods of `MakerProcess` carry the plans out in
  loops. A run is any sequence of connections opening, speaking and closing, of drains and of recovery passes. A law about
  the log of effects says when funds may be committed, keys released and spends signed; it is proved of every run, and
  `ClaimedContracts` takes it down to the script interpreter. `Ledger` adds up all swaps of a run. What the registry
  promises is proved of runs in which each protocol message has its own connection, as the taker sends them. `FailingRuns`
  has runs with contracts as the code builds them.
- **Deadlines** (`Deadline`, `Heights`, `HopAtomicity`, `HopScripts`, `RecoveryLoop`, `LegacyLadder`, `LegacyHop`): one hop
  on the chain, block by block, its moves decided by its scripts and by the maker's recovery loop, with absolute locks for
  Taproot and relative ones for Legacy, and the taker's march along a Legacy route with its restarts.
- **Fees** (`Arithmetic`, `RouteFees`, `FeeSplit`, `PaymentQuote`): the Taproot fee split, the route it composes to, and
  the quote that inverts a route.
- **Connection limiter, recovery records, checksum** (`ConnectionLimiter`, `RecoveryOutcomes`, `Bits`, `Checksum`,
  `Descriptor`).

Production constants are used throughout. Chain heights, clocks, wallet funding, key verification and the
success of each effect are inputs of a step. Wallet funding is taken to pay exactly the amount asked for. Each message is
one step. A recovery transaction confirms within a given number of blocks of being sent, and the next of its pass is sent
when it has (src/wallet/api.rs:1160-1185, 3135-3160). A sender's Legacy contract decodes to a lock only if it is built as
the code builds it, since the maker rebuilds it before signing (src/maker/legacy_verification.rs:84-100); script hashes are
taken to have no collisions.

## Where the code does not do what it promises

Each has a lemma that shows it and one that gives the exact condition; where one lemma is named it does both.

- The Taproot decoder (src/maker/taproot_verification.rs:157-202) takes a negative zero for a height that does not bind:
  `TaprootContract.NegativeZeroPasses`, `TaprootContract.DecodedHeightBinds`; what it costs a maker:
  `HopScripts.NegativeZeroLoses`.
- A Taproot claim with a preimage that is not 32 bytes long is not recognised (src/maker/server.rs:928-942):
  `PreimageRecovery.OddPreimage`, `PreimageRecovery.TaprootRecovery`, `HopScripts.OddPreimageLoses`.
- The matcher looks for the hash of an incoming Taproot leaf at a fixed offset (src/maker/server.rs:972-984), which is wrong
  for accepted leaves that push it the longer way: `PreimageRecovery.LongPush`, `PreimageRecovery.FixedOffsetExact`,
  `PreimageRecovery.LeafMatchesExactly`, `HopScripts.LongPushLoses`.
- The maker's recovery ends with the first sweep that takes in any incoming contract and drops its outgoing coins, without
  which a restart does not recover the rest (src/maker/server.rs:1220-1286, 1044-1053): `RecoveryLoop.OneMissed`,
  `RecoveryLoop.LeftUnswept`, `RecoveryLoop.MissedForGood`, `HopScripts.MissedSweepLoses`.
- All four together with the delays: `HopScripts.ScriptedHopIsAtomic` says exactly when a maker can lose.
- The wallet misreads its own timelock leaf for heights up to 16 (src/wallet/swapcoin.rs:976-998):
  `TaprootContract.StoredTimelockExact`.
- The fee correction underflows for small totals over three or more contracts: `FeeSplit.ShortFails`, `FeeSplit.LeastBound`.
- The 16-bit offsets wrap for more than 3275 makers: `LegacyLadder.RungsAreStepsApart`.
- The gap check compares the latest confirmations of two hops, so contracts of one hop mined far apart can be left with less
  than the reaction time: `LegacyLadder.SpreadLimit`.
- The quote refuses amounts the comment at src/taker/payment.rs:78-81 says it should find:
  `PaymentQuote.RefusedThoughAttainable`, `PaymentQuote.HopGrossForNet`, `PaymentQuote.SolveRouteGross`. With rational fees
  its two other error branches are never taken; of the code's floating-point fees that is not shown.
- The taker's record can announce the outgoing side recovered with no outgoing contract resolved:
  `RecoveryOutcomes.AnnouncedTooEarly`, `RecoveryOutcomes.AnnouncedMeansDone`.
- The wallet's refusal to rebind an outpoint (src/wallet/api.rs:1342-1363) looks at earlier requests only:
  `ClaimedContracts.TwoKeysOneOutpoint`, `MakerSafety.OneContractExactly`.
- A Legacy proof of funding does not tie the number of outgoing coins to the negotiated count: `FailingRuns.MiscountedRun`,
  `OutgoingCounts.LegacyCountExactly`.
- Outpoints are compared within one proof only (src/maker/api.rs:1754-1787, src/maker/taproot_verification.rs:93-101), so one
  incoming coin can pay for several swaps: `FailingRuns.PaidTwiceRun`, `Ledger.ValueAcrossSwaps`.
- The maker signs any spend of its outgoing funding for a receiver, whatever it pays (src/maker/legacy_handlers.rs:729-796):
  `FailingRuns.ForeignSpendRun`, `SignedSpends.AnySpendIsSigned`, `SignedSpends.SignsContractsExactly`.
- Recovery deletes the coins of a Legacy swap whose funding batch failed after its first transaction went out:
  `FailingRuns.HalfSentRun`, `Deletion.FailedBatchIsDiscarded`.
- A Taproot swap whose batch failed in the same way is let go without recovery: `FailingRuns.DroppedRun`,
  `Deletion.FailedBatchIsDropped`.

## Model

| member | source | states |
|---|---|---|
| `Script.ParseInvertsBuild` | src/protocol/contract.rs:207-281 | Splitting a built script into instructions gives back the program it was built from, whatever the pushes, so every reader sees what the builder wrote |
| `LegacyContract.ContractMeaning` | src/protocol/contract.rs:207-281 | For every witness stack and transaction the contract succeeds exactly on a signature and a 32-byte preimage under the hashlock key, or a signature, an empty item and an elapsed relative lock under the timelock key |
| `LegacyContract.ReadersInvertBuilder` | src/protocol/contract.rs:284-375 | The readers return the hash, the hashlock key and, for all push encodings, every nonzero 16-bit locktime; a zero locktime is refused |
| `LegacyContract.ScriptDeterminesTerms` | src/protocol/contract.rs:207-281 | Equal scripts have equal keys, hash and locktime |
| `Multisig.CheckIsMultisig` | src/protocol/contract.rs:150-169 | The check by splicing a template over the keys accepts exactly the two-of-two scripts over 33-byte keys |
| `Multisig.TemplateIsShape` | src/protocol/contract.rs:150-169 | Those are exactly the 71-byte strings whose bytes outside the key slots are the fixed ones |
| `Multisig.ScriptOfSortedKeys` | src/protocol/contract.rs:95-105 | The script does not depend on the order of the keys, passes the check, and reads back as the sorted pair |
| `Multisig.MultisigMeaning` | src/protocol/contract.rs:95-105 | For every witness stack the script succeeds exactly on an empty dummy and one valid signature per key in key order |
| `Multisig.TxIn.ApplyTwoSignatures` | src/protocol/contract.rs:74-92 | The witness is extended by dummy, signatures in key order and script |
| `Multisig.WitnessSpends` | src/protocol/contract.rs:74-92 | The witness built from two valid signatures, given in either order, spends the script |
| `TaprootContract.ChecksInvertBuilders` | src/protocol/contract2.rs:17-87 | Hash and timelock checks return what the builders were given, for every height from 1 below 2^31; zero and larger heights are refused |
| `TaprootContract.HashlockMeaning` | src/protocol/contract2.rs:17-28 | For every witness, any script the template check passes as a hashlock leaf succeeds exactly on a valid signature and an opening of its hash, of any length |
| `TaprootContract.BuiltTimelockMeaning` | src/protocol/contract2.rs:79-87 | For every witness, the built leaf succeeds exactly on one valid signature in a transaction locked to the height or later |
| `TaprootContract.DecodedHeightBinds` | src/maker/taproot_verification.rs:157-202 | A leaf the maker decodes as height v is unspendable before v, however it spells the height, if and only if its push is not a negative zero |
| `TaprootContract.NegativeZeroHeights` | src/maker/taproot_verification.rs:157-202 | Only four heights can be spelled that way |
| `TaprootContract.NegativeZeroPasses` | src/maker/taproot_verification.rs:104-212 | A leaf that pushes 0x80 passes the check against timelock 108 as height 128, and is such a spelling |
| `TaprootContract.StoredTimelockExact` | src/wallet/swapcoin.rs:976-998 | The wallet reads its own leaf by byte position correctly exactly for heights above 16 |
| `HopScripts.OwnRefundWaits` | src/maker/taproot_handlers.rs:304-309 | The maker's refund of an outgoing contract can be mined at a height if and only if that is above its timelock |
| `HopScripts.SenderRefundWaits` | src/maker/taproot_verification.rs:104-212 | The sender's refund of any contract the maker verified can be mined at a height if and only if that is above its lock: the maker's timelock plus one step, or zero for a negative zero, or never for a negative operand |
| `PreimageRecovery.ScanInputs` | src/maker/server.rs:928-942 | Scanning the inputs of the spending transactions collects the preimage of each outpoint's first input |
| `PreimageRecovery.FindMatch` | src/maker/server.rs:964-984 | The search returns the first collected preimage that opens the coin's hash |
| `PreimageRecovery.Wallet.CheckForPreimage` | src/maker/server.rs:879-1003 | A failed query changes nothing; otherwise exactly the swap's coins without a preimage get their first match |
| `PreimageRecovery.StoredPreimagesOpen` | src/maker/server.rs:879-1003 | After any sequence of passes over any transactions, every stored preimage makes, with a signature under the right key, a witness the script interpreter accepts, for Legacy coins built by the code and Taproot coins whose leaf has its hash in place |
| `PreimageRecovery.LeafMatchesExactly` | src/maker/server.rs:972-984 | On an accepted Taproot leaf, every preimage that passes the matcher opens the leaf, for all hash functions, if and only if the hash is at the fixed offset |
| `PreimageRecovery.LegacyRecoveryComplete` | src/maker/server.rs:928-942 | A spend of a Legacy contract is recognised exactly if it took the hashlock branch, and then its preimage matches every incoming contract of the same hash |
| `PreimageRecovery.LegacyClaimIsStored` | src/maker/server.rs:928-999 | However many spends are scanned, the coin of the same hash ends up with a preimage that opens its contract |
| `PreimageRecovery.TaprootRecovery` | src/maker/server.rs:928-999 | An accepted claim shows a preimage that opens every accepted incoming leaf of the same hash, and a pass learns it if and only if it has 32 bytes and the incoming leaf has its hash at the fixed offset |
| `PreimageRecovery.OddPreimage` | src/maker/server.rs:928-942 | A claim of a built leaf with a preimage of any other length is accepted by the script and not recognised |
| `PreimageRecovery.RefundsTeachNothing` | src/maker/server.rs:928-999 | However many passes see only the maker's own refunds, Legacy or Taproot, every coin stays as it was |
| `PreimageRecovery.FixedOffsetExact` | src/maker/server.rs:972-984 | On a leaf the maker accepted, the fixed offset holds the hash if and only if the push is the direct one, or the hash is the one periodic string that the longer push happens to repeat |
| `PreimageRecovery.LongPush` | src/maker/taproot_verification.rs:50-79 | A leaf that pushes its hash the longer way is accepted by the maker, opened by the preimage, and not matched |
| `HopScripts.ScriptedHopIsAtomic` | src/maker/server.rs:1141-1362 | With refunds mined when the script interpreter accepts them, a claim counting as known when a pass stores its preimage, and refunds and sweeps sent one after another in any order: over all runs the maker can end with an outgoing contract claimed and an incoming one refunded if and only if some incoming contract can be refunded at all and the preimage is not 32 bytes, its hash is not at the fixed offset, its height is a negative zero, the sweep misses it, or all refunds and then the sweeps up to it do not fit |
| `HopAtomicity.HopIsAtomic` | src/maker/server.rs:1141-1362 | The chain part, for any own expiries, refund locks, sweeps and confirmation times of each transaction: the maker can lose if and only if some incoming contract has a lock and claims teach nothing, or the sweep misses it, or the time of its sweep, after all refunds have had theirs, goes past the lock |
| `HopAtomicity.RunsAreSafe` | src/maker/server.rs:1141-1362 | The invariant behind it: a first claim comes while the maker's refund still has time, and no incoming contract goes back once a preimage is known |
| `HopAtomicity.LateRunLoses` | src/maker/server.rs:1141-1362 | Past the bound, a run in which everything happens as late as it may loses |
| `HopScripts.PlainHopIsAtomic` | src/maker/server.rs:1141-1362 | With leaves as the code builds them and a 32-byte preimage, the maker can lose if and only if the delays of all refunds up to its last and of all its sweeps, one after another, do not fit |
| `HopScripts.WatchfulMaker` | src/wallet/api.rs:3135-3160 | With the deployed step of 20 blocks, n contracts and d blocks for each transaction, a maker in recovery by the expiry can lose if and only if nd is above ten, whatever the order |
| `HopScripts.DrainedMaker` | src/maker/handlers.rs:96-115 | A maker whose recovery begins at the first height past the refund deadline can lose if and only if nd is above four |
| `HopScripts.OddPreimageLoses` | src/maker/server.rs:928-942 | With any preimage of another length there is a losing run although the delays fit |
| `HopScripts.LongPushLoses` | src/maker/server.rs:972-984 | So there is with an incoming leaf that pushes its hash the longer way, unless the hash is the periodic one |
| `HopScripts.NegativeZeroLoses` | src/maker/taproot_verification.rs:157-202 | And with a refund height spelled as a negative zero |
| `HopScripts.MissedSweepLoses` | src/maker/server.rs:1220-1286 | With a sweep that misses one contract of any number there is a losing run, however short the delay and whatever the order |
| `HopScripts.SweptHopIsAtomic` | src/maker/server.rs:1141-1362 | For a built hop whose recovery ends by the hashlock path, if all refunds and sweeps fit, the maker can lose if and only if its wallet then still holds an incoming contract of the swap |
| `RecoveryLoop.Wallet.RecoverFromSwap` | src/maker/server.rs:1039-1362 | The loop over hashlock and timelock paths computes the recovery, whatever fails in it |
| `RecoveryLoop.LeftUnswept` | src/maker/server.rs:1220-1286 | A recovery that ends by the hashlock path leaves an incoming contract of the swap in the wallet if and only if its first sweep that took in any missed one |
| `RecoveryLoop.MissedForGood` | src/maker/server.rs:1044-1053 | However often the maker restarts, no later recovery of the swap changes what that one left |
| `RecoveryLoop.CutOffSweepGoesOn` | src/wallet/api.rs:3135-3160 | A sweep that an error cuts off leaves a swap that a restart recovers with the rest of its coins |
| `RecoveryLoop.OneMissed` | src/maker/server.rs:1220-1286 | A recovery that is declared complete with one of two incoming contracts unswept |
| `LegacyLadder.ExchangeLegacy` | src/taker/legacy_swap.rs:136-759 | The hop loop with its restarts records the heights of the march, or fails where the march fails |
| `LegacyLadder.RungsAreStepsApart` | src/taker/api.rs:1641-1642 | In 16-bit arithmetic the offsets of consecutive hops are one step apart exactly for routes of up to 3275 makers |
| `LegacyLadder.MarchRecords` | src/taker/legacy_swap.rs:672-711 | A completed march records every hop at its own height and none more than the tolerance after the one before |
| `LegacyLadder.RestartsAreHarmless` | src/taker/legacy_swap.rs:537-561 | However often the next maker is substituted and the hop restarted, a completed march records what it would have without |
| `LegacyLadder.LadderDescends` | src/taker/legacy_swap.rs:688-711 | With confirmations required, the recorded height plus locktime drops by at least 14 blocks, more than the reaction time, between every two consecutive hops |
| `LegacyLadder.ContractsDescend` | src/taker/legacy_swap.rs:688-711 | Contract by contract, the drop is less by at most how far apart the earlier hop's contracts were mined |
| `LegacyLadder.SpreadLimit` | src/taker/legacy_swap.rs:672-711 | Every contract keeps the reaction time in every completed march if and only if no hop's contracts are mined more than four blocks apart |
| `LegacyLadder.UnconfirmedMarch` | src/taker/legacy_swap.rs:864-875 | Without required confirmations every march completes, whatever the heights |
| `LegacyHop.RefundWaits` | src/protocol/contract.rs:207-281 | The refund of a mined Legacy contract can be mined at a height if and only if its locktime has passed since the contract's block |
| `LegacyHop.LegacyHopIsAtomic` | src/maker/server.rs:1141-1362 | With relative locks counted from each contract's own block, for any numbers of outgoing and incoming contracts of one hash and any order of refunds and sweeps: the maker can lose if and only if its sweep misses an incoming contract, or the sweeps up to it, after all refunds have had their time, go past its lock |
| `LegacyHop.RouteIsSafeExactly` | src/taker/legacy_swap.rs:672-711 | Every maker of every completed march with up to n contracts a hop, each hop mined within s blocks, d blocks for each transaction and m other refunds in the wallet, is safe in every order if and only if s + (2n + m)d is at most 14, or (2 + m)d for n = 1 |
| `FeeSplit.SplitOutgoing` | src/maker/taproot_handlers.rs:142-240 | The handler's loops compute the split: checked total, floored shares, remainder off the last largest output |
| `FeeSplit.CorrectLargest` | src/maker/taproot_handlers.rs:225-240 | The remainder is taken in place off the last of the largest outputs, unless that underflows |
| `FeeSplit.SplitIsExact` | src/maker/taproot_handlers.rs:207-240 | The outputs add up to exactly the total less the fees, none exceeds its input, and every output but the corrected one is its proportional share or less than one satoshi above it |
| `FeeSplit.RemainderBound` | src/maker/taproot_handlers.rs:225-227 | Flooring leaves fewer satoshis over than there are contracts, and never too few |
| `FeeSplit.SplitSucceeds` | src/maker/taproot_handlers.rs:207-240 | Nothing underflows once the net total is at least (n-1)(n-2) |
| `FeeSplit.ShortFails` | src/maker/taproot_handlers.rs:225-240 | One satoshi below that, for every n from three on for which they fit in 64 bits, there are amounts on which the correction underflows |
| `FeeSplit.LeastBound` | src/maker/taproot_handlers.rs:225-240 | So the correction is safe for all n amounts exactly from that bound on |
| `RouteFees.ExpectedAmountForHop` | src/taker/api.rs:417-447 | The taker's loop folds the hop deductions up to the given hop, and has no answer if an offer is missing |
| `FeeSplit.RouteRefines` | src/maker/taproot_handlers.rs:207-240 | For any number of hops and any fee schedules, the sum over the contracts after the makers' splits is the taker's scalar fold, whatever the amount was split into |
| `FeeSplit.RouteSucceeds` | src/maker/taproot_handlers.rs:207-240 | If every hop can afford its fees and the correction, every split of the amount gets through the route |
| `PaymentQuote.OffersAreGentle` | src/taker/payment.rs:71-77 | For every offer, one satoshi more in gives the same or one satoshi more out |
| `PaymentQuote.HopGrossForNet` | src/taker/payment.rs:82-113 | The doubling and bisection find the least amount that nets exactly what is asked; they refuse if and only if the last doubling nets too little, and wrongly, although some amount up to all money would do, if and only if all money would net enough |
| `PaymentQuote.RefusedThoughAttainable` | src/taker/payment.rs:82-113 | An amount that is refused although one satoshi more than it would net it |
| `PaymentQuote.SolveRouteGross` | src/taker/payment.rs:118-139 | Walking the route backward finds the least amount of which exactly the asked one comes out; the closing check never fails; it refuses if and only if the last doubling of some hop falls short of what the hops after it need, wrongly if and only if all money would still get the amount through, and never if half of all money would |
| `ConnectionLimiter.Limiter.TryAcquire` | src/maker/server.rs:82-110 | A permit is given exactly if a token and both counters allow it; a token is spent even when a counter refuses |
| `ConnectionLimiter.Permit.MarkEstablished` | src/maker/server.rs:120-130 | Marking twice is marking once |
| `ConnectionLimiter.Permit.Release` | src/maker/server.rs:132-144 | Dropping a permit takes it off the counters it is on |
| `ConnectionLimiter.RunsStayBalanced` | src/maker/server.rs:53-144 | Over every sequence of steps the counters are the numbers of live and of pending permits, at most 90 and 30, and the tokens stay between 0 and 30 |
| `ConnectionLimiter.WindowIsBounded` | src/maker/server.rs:82-110 | In any window of t seconds at most 30 + 4t connections are admitted, whatever came before |
| `Checksum.PolynomialModulus` | src/utill.rs:476-495 | The loop over the feedback terms computes one step of the code |
| `Checksum.StepIsLinear` | src/utill.rs:476-495 | The step is linear over exclusive or |
| `Checksum.StateStaysBelow` | src/utill.rs:476-495 | The state stays below 2^40 |
| `Checksum.StepIsInjective` | src/utill.rs:476-495 | The step is injective in the state |
| `Checksum.BurstIsDetected` | src/utill.rs:476-495 | Any change within eight consecutive symbols changes the final state |
| `Descriptor.ComputeChecksum` | src/utill.rs:538-579 | The loop with its running group computes the checksum, and fails exactly on a character outside the set |
| `Descriptor.SymbolsAreBlocks` | src/utill.rs:538-561 | The symbols fed in are, group by group, the low parts and one base-3 number of the high parts |
| `Descriptor.BlocksAreSymbols` | src/utill.rs:538-561 | Every symbol is below 32 and n characters make n + ceil(n / 3) of them |
| `Descriptor.BurstChangesChecksum` | src/utill.rs:538-579 | Any change that keeps the length and stays within two consecutive groups of three characters changes the eight-character checksum |
| `Descriptor.SubstitutionChangesChecksum` | src/utill.rs:538-579 | Every substitution of one character changes the checksum |
| `RecoveryOutcomes.RecordReports` | src/taker/background_services.rs:281-353 | The find-or-push loops record the reports, and flag a change exactly if the list changed |
| `RecoveryOutcomes.SwapRecord.UpdateOutcomes` | src/taker/background_services.rs:278-378 | One pass over a record |
| `RecoveryOutcomes.PassesGoOnward` | src/taker/background_services.rs:265-381 | Over any sequence of passes there is one outcome per contract, a resolution never changes, and the phase never goes back |
| `RecoveryOutcomes.SettledAreReported` | src/taker/background_services.rs:281-353 | After any sequence of passes the settled contracts are exactly the swap's own that some pass reported |
| `RecoveryOutcomes.FirstReportWins` | src/taker/background_services.rs:281-353 | A contract keeps the resolution and the spending transaction first reported |
| `RecoveryOutcomes.AnnouncedMeansDone` | src/taker/background_services.rs:355-378 | A pass that advances the phase to outgoing-recovered has all outgoing contracts settled if and only if each had an outcome before or is reported now |
| `RecoveryOutcomes.AnnouncedTooEarly` | src/taker/background_services.rs:355-378 | Sweeping the only incoming contract announces an outgoing side of which nothing is known |
| `MakerRegistry.MakerServer.AdmitSwap` | src/maker/api.rs:1474-1556 | Admission of a new swap needs a free slot and unreserved liquidity; a repeated one the same terms |
| `MakerRegistry.MakerServer.KeepAlive` | src/maker/handlers.rs:583-607 | A keepalive refreshes a known swap's timer unless its deadline is past |
| `MakerRegistry.MakerServer.DrainIdleSwaps` | src/maker/api.rs:1013-1099 | A drain keeps and returns exactly the entries it should |
| `MakerRegistry.DrainPartitions` | src/maker/api.rs:1013-1099 | Kept, released and returned entries are disjoint, make up the registry, and are unchanged |
| `MakerRegistry.DeadlineBeatsKeepalives` | src/maker/handlers.rs:96-115 | Past its deadline a swap stays past it, no keepalive touches it, and the first drain that reads such a height returns it if it has outgoing coins |
| `MakerRegistry.AdmissionKeepsLimits` | src/maker/api.rs:1474-1524 | An admission keeps at most 30 swaps under way and their reservations within the greatest liquidity read |
| `MakerProcess.Node.Commit` | src/maker/taproot_handlers.rs:441-514 | Watch, save, send: as many effects as succeed happen, in this order |
| `MakerProcess.Connection.ProcessProofOfFunding` | src/maker/legacy_handlers.rs:131-488 | The handler refuses or carries out the plan for a proof of funding |
| `MakerProcess.Connection.ProcessContractSigs` | src/maker/legacy_handlers.rs:491-665 | The handler refuses or carries out the plan for the contract signatures |
| `MakerProcess.Connection.ProcessContractData` | src/maker/taproot_handlers.rs:77-514 | The handler refuses or carries out the plan for Taproot contract data |
| `MakerProcess.Connection.ProcessHandover` | src/maker/taproot_handlers.rs:561-660 | The handler refuses or carries out the plan for a key handover |
| `MakerProcess.Connection.ProcessReceiverSigs` | src/maker/legacy_handlers.rs:702-796 | The handler refuses or signs every requested spend, having checked one input from the coin's funding, one output and the coin's keys |
| `MakerProcess.VerifyOutpoints` | src/maker/taproot_verification.rs:93-101 | The set of seen outpoints accepts exactly distinct ones |
| `MakerProcess.VerifyKeys` | src/maker/legacy_verification.rs:194-236 | The loop accepts exactly one key per incoming coin, each deriving the coin's other public key |
| `MakerProcess.VerifyContractSigs` | src/maker/legacy_verification.rs:118-191 | The loops accept exactly one valid signature by the other key on every incoming and every outgoing contract |
| `MakerProcess.VerifyLocks` | src/maker/api.rs:1756-1855 | The loop finds the one hash of all claims, or fails if they differ or a refund comes too early |
| `MakerProcess.PrevoutCache.CachePrevouts` | src/wallet/api.rs:1342-1363 | The wallet refuses to rebind an outpoint and otherwise takes in all bindings |
| `MakerHandlers.PlansAreGood` | src/maker/legacy_handlers.rs:61-917 | Every plan leads from a good state to a good one: terms admitted, one incoming coin from its own outpoint per negotiated contract, incoming = outgoing + fees within the amount, one hash for all contracts, incoming refunds later than ours, coins made by the wallet for this deal, phase not back |
| `MakerHandlers.SplitBalances` | src/maker/taproot_handlers.rs:207-240 | A Taproot hop's coins balance to the satoshi |
| `MakerSafety.CommitIsLawful` | src/maker/taproot_handlers.rs:441-514 | However far a committing plan gets, each transaction goes out after every coin of the swap is saved and every outgoing contract watched |
| `MakerSafety.ReleaseIsLawful` | src/maker/legacy_handlers.rs:850-917 | Keys go out after every incoming coin is saved with the key that opens it |
| `MakerSafety.PlansAreLawful` | src/maker/handlers.rs:532-607 | From a good state the plan for any message, cut off anywhere, obeys the law |
| `MakerRuns.RunsAreSound` | src/maker/handlers.rs:532-805 | Over every run, on any connections however stale, with failures, drains and recovery anywhere, the law holds and all states are good |
| `MakerRuns.CommitOrder` | src/maker/legacy_handlers.rs:521-665 | Every transaction sent belongs to a swap whose coins are saved at that moment, outgoing contracts watched, incoming count and distinct outpoints as negotiated, one hash opening all contracts and the incoming refunds later than ours; Legacy coins are validly signed by the other side and the incoming contracts are the ones the maker signed |
| `MakerRuns.SignedContractsAreFixed` | src/wallet/api.rs:1323-1363 | Over every run the contract the wallet holds for an outpoint never changes |
| `MakerSafety.OneContractExactly` | src/wallet/api.rs:1342-1363 | The maker has signed at most one contract per outpoint if and only if no single request named one outpoint with two |
| `MakerSafety.TwoContractsInOneRequest` | src/maker/api.rs:1660-1720 | A request with two different contracts for one outpoint is accepted, and then the maker has signed two |
| `ClaimedContracts.TwoKeysOneOutpoint` | src/maker/api.rs:1660-1720 | Two contracts as the code builds them that differ in the timelock key alone make such a request |
| `ClaimedContracts.LegacyClaimOpens` | src/protocol/contract.rs:207-281 | Any accepted claim of an outgoing Legacy contract shows a preimage that, with the maker's signature, makes a claim every incoming contract of the swap accepts |
| `ClaimedContracts.LegacyRefundIsLater` | src/maker/api.rs:1759-1768 | No incoming Legacy contract accepts a refund before a relative lock at least the reaction time longer than ours |
| `ClaimedContracts.TaprootClaimOpens` | src/protocol/contract2.rs:17-28 | Any accepted hashlock spend of an outgoing Taproot contract opens every incoming one |
| `ClaimedContracts.ClaimsPassOn` | src/maker/legacy_handlers.rs:521-665 | In every run, for every transaction the maker has sent, whoever claims an outgoing contract hands the maker a claim of each incoming contract |
| `ClaimedContracts.DecodeIsReading` | src/protocol/contract.rs:284-375 | The lock of a contract is what the code's readers return |
| `MakerRuns.ValueSafety` | src/maker/legacy_handlers.rs:814-917 | Whenever keys are released, the maker has saved the opening key of every incoming coin, and incoming = outgoing + service fee + mining reimbursement, within the negotiated amount |
| `Ledger.ValueAcrossSwaps` | src/maker/api.rs:1754-1787 | Over every run and all swaps together, what the maker has given away, fees included, is what the incoming coins add up to; it is no more than those coins are worth, each outpoint counted once, if and only if no two proofs that led to a release claimed a coin of value in common |
| `Ledger.ProofsApartAreSafe` | src/maker/api.rs:1754-1787 | Refusing at the proof every outpoint that another accepted proof claimed would be enough |
| `FailingRuns.PaidTwiceRun` | src/maker/api.rs:1754-1787 | A run of two swaps, nothing failing, in which one incoming coin pays for both |
| `SignedSpends.SignsContractsExactly` | src/maker/legacy_handlers.rs:729-796 | Over every run, every signature the maker gave on its outgoing coins is for their own contracts if and only if every request it answered asked for those |
| `SignedSpends.SignedCoinsAreOwn` | src/maker/legacy_handlers.rs:744-760 | Over every run, whatever the maker signs for a receiver spends the funding of a Legacy coin its wallet has made, under that coin's keys |
| `SignedSpends.AnySpendIsSigned` | src/maker/legacy_handlers.rs:729-796 | In every reachable state with a committed Legacy swap, any spend of its funding that is asked for gets signed, whatever it pays |
| `FailingRuns.ForeignSpendRun` | src/maker/legacy_handlers.rs:729-796 | A run in which the maker signs a spend of its coin that is not the coin's contract |
| `MakerRuns.OutgoingCount` | src/maker/legacy_handlers.rs:315-393 | Over every run, each transaction sent is for coins made at an accepted proof, which are as many as negotiated if and only if they were made for as many next-hop keys; for Taproot they always are |
| `OutgoingCounts.LegacyCountExactly` | src/maker/legacy_handlers.rs:315-393 | For every Legacy transaction sent in a run, a proof of funding for its swap was received, and there are as many outgoing coins as negotiated if and only if that message named as many next-hop keys |
| `OutgoingCounts.ProofCounts` | src/maker/legacy_handlers.rs:315-393 | An accepted proof makes as many coins as negotiated if and only if it names as many next-hop keys as it proves contracts |
| `FailingRuns.MiscountedRun` | src/maker/legacy_handlers.rs:315-393 | A run in which the maker sends the funding of two coins for the one contract negotiated |
| `FreshRuns.StepIsRun` | src/maker/handlers.rs:772-805 | An exchange on its own connection works on the stored state and nothing else |
| `FreshRuns.ExchangesAreRun` | src/maker/handlers.rs:772-805 | Every sequence of exchanges is a run, so the safety of all runs applies to it |
| `FreshRuns.RunsAreOrderly` | src/maker/api.rs:1474-1601 | Over every such run at most 30 swaps are under way, reserving at most the greatest liquidity any admission read |
| `FreshRuns.LiveSwapsGoOnward` | src/maker/api.rs:1526-1601 | While its entry lives, a swap's terms never change and its phase never goes back |
| `DeadlineRuns.OverdueIsRecovered` | src/maker/server.rs:741-812 | Over every such run, from the point where a committed swap is past its deadline until a key handover, it stays as it was whatever messages and keepalives come, and the first drain that reads such a height hands exactly its coins to recovery |
| `Deletion.DiscardedWereNeverSent` | src/maker/server.rs:1093-1131 | On fair runs (no reused ids, and batches that fail have sent nothing), nothing is ever sent for a swap whose coins recovery deleted |
| `Deletion.DiscardsAreOnRecord` | src/maker/server.rs:1093-1131 | Over every run, each deletion was made by a recovery pass after a drain had recorded that nothing was sent for the swap, with the record not lost in between |
| `Deletion.LostRecordIsNoLicence` | src/maker/server.rs:1093-1131 | After the record is lost no deletion follows until a drain has made it again |
| `Deletion.ReleasedWereNeverSent` | src/maker/api.rs:1013-1099 | On fair runs, nothing is ever sent, before or after, for a swap that a drain let go without recovery |
| `Deletion.FailsCleanExactly` | src/maker/legacy_handlers.rs:615-660 | In every reachable state, the answer to a message has sent nothing however it is cut off, if and only if it would send at most one transaction: the pending ones for Legacy, the negotiated count for Taproot |
| `Deletion.PlainRunsAreFair` | src/maker/legacy_handlers.rs:615-660 | So runs without reused ids in which no answer sends more than one transaction are fair, whatever fails in them |
| `Deletion.FailedBatchIsDiscarded` | src/maker/legacy_handlers.rs:615-665 | From every reachable state, some failure of a Legacy batch makes recovery delete the coins of the then idle swap after a transaction of it went out, if and only if two or more transactions are pending |
| `Deletion.FailedBatchIsDropped` | src/maker/taproot_handlers.rs:460-514 | Some failure of a Taproot batch leaves a swap with a transaction sent that an idle drain lets go without recovery, if and only if two or more contracts were negotiated |
| `FailingRuns.DroppedRun` | src/maker/taproot_handlers.rs:460-514 | A run, with leaves as the code builds them, in which such a swap ends in neither the registry nor recovery |
| `FailingRuns.HalfSentRun` | src/maker/server.rs:1093-1131 | A run, with contracts as the code builds them, in which coins are deleted after the first of two funding transactions went out |

## Left out

- Networking, message framing, Tor, Nostr, RPC, threads, the command line and configuration.
- Real cryptography, sighashes, MuSig2 and wallet encryption: uninterpreted functions and predicates stand for them.
- Coin selection, the wallet's own bookkeeping and blockchain backends: their results are inputs of a step.
- The disjointness of UTXOs reserved by different swaps: the restored state does not carry the reservation.
- Interleavings inside one message handler.
- Unwatching outpoints after settlement, and the maker's own recovery-phase field.
- PaymentQuote.OffersAreGentle: the offer's fee is a rational rounded up, not the code's floating-point expression; the
  rounding errors of floating point are not modelled. In `FeeSplit` and the maker fees are arbitrary integer functions.
- Taproot's taker side (src/taker/taproot_swap.rs), fidelity bonds, reports and the integration-test behaviours.
- LegacyHop.LegacyHopIsAtomic: takes the contract transactions to be mined, at given heights; when the two sides broadcast
  them is not modelled.
- LegacyHop.RouteIsSafeExactly: takes every contract to be mined at the height the march records for its funding.
- RecoveryLoop.Wallet.RecoverFromSwap: what a sweep or a refund attempt takes in is an input; which coins it skips, and why,
  is not modelled.
- MakerProcess.Connection.ProcessProofOfFunding: key derivation, multisig membership, confirmations and unspentness are one
  verdict that is an input of the step; hash, lock, count, amounts and bindings are modelled.
- MakerProcess.Connection.ProcessContractData: so are key aggregation, key membership and confirmations here.
- MakerProcess.Connection.ProcessReceiverSigs: which coin the lookup finds for a multisig is an input, restricted to the
  Legacy coins the wallet has made; coins stored without a funding transaction or a private key are not modelled.
- MakerProcess.VerifyLocks: decoding is a function of the configuration; `ClaimedContracts` gives it as the code's readers.
- DeadlineRuns.OverdueIsRecovered: is about swaps whose stored entry has outgoing coins; a swap whose batch failed before its
  entry was stored is the subject of `Deletion.FailedBatchIsDropped` and `Deletion.ReleasedWereNeverSent`.
