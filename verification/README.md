# A verified model of emvault-core

`emvault-core` is a library for Bitcoin multisig custody. This project models the parts of it that
carry their own loops, state and arithmetic, and proves what they promise. Methods follow the code
that changes things step by step and are proved equal to functions; the results are lemmas about
those functions, over every input, every run or every reachable state.

Check it with `dafny verify dfyconfig.toml` (Dafny 4.11).

| Files | What they model |
|---|---|
| `SweepPlanner`, `SweepGuarantees`, `SweepTheorems`, `SweepPayments` | `src/migration.rs`: the single-transaction sweep and the batched chain of sweeps |
| `Blocks`, `ChainSync`, `ChainSyncTheorems`, `ChainSyncGuarantees`, `ChainSyncResults`, `ChainSyncConditions`, `ChainSyncPersistence` | `src/chain_sync.rs`: the reorg-aware sync, the rebuild, and what an application saves |
| `CanonicalJson`, `CanonicalJsonTheorems`, `RecoveryChecksum` | `src/recovery.rs`: the canonical JSON printer and the content checksum |
| `Descriptors`, `DescriptorTheorems`, `DescriptorReader`, `WalletPolicies` | `src/descriptor.rs`: descriptor and BIP-388 policy construction |
| `Federations` | `src/federation.rs`: federations and their mutations |
| `Signing`, `SigningTheorems` | `src/psbt.rs`: the signing coordinator |
| `OutputVerifier`, `PolicyMatch` | `src/verify.rs`: the output check and the policy comparison |
| `Rosters` | `src/roster.rs`: roster deltas |
| `Seqs`, `Text`, `Networks` | shared sequences, decimal text and string order, network names |

## What the models take as given

- Sweeps. Amounts are natural numbers. A subtraction that would go below zero aborts the original;
  the model calls it `Underflow`. Fee estimates follow `Weight::from_vb` and `FeeRate::fee_wu`,
  with the 64-bit overflow cases falling back to zero as in the code. `Execute` runs a plan against
  a ledger of distinct coins, none of them a placeholder, and resolves the placeholder of
  transaction `k` to its fee change.
- Sync. The node does not change during a pass. A block is identified with its whole ancestry, as a
  hash is. Anchors name blocks that contain their transaction; only transactions that touch a
  revealed script enter the graph; applying a block connects and overwrites the checkpoints above
  the shared one, or does not connect. Which unconfirmed transactions are displaced by others is an
  arbitrary function. `bdk_bitcoind_rpc::Emitter` is not part of this model: the code hands it the
  wallet's height as start height (src/chain_sync.rs:236-238), and the comment at
  src/chain_sync.rs:262-268 says that replacement blocks are emitted again from the fork. Whether
  blocks between the fork and the start height are left out is therefore the parameter `skips`;
  safety is proved for both values, exactness with the condition under which each meets it.
- JSON. Numbers are integers. Strings are sequences of Unicode scalar values. The hash is a function
  parameter; results are about what is hashed.
- Descriptors. Keys, fingerprints and extended keys are text made of letters and digits. What
  miniscript accepts, the descriptor checksum and the unspendable extended key are parameters. A
  parsed descriptor prints as its own text followed by `#` and a checksum.
- Signing. P2WSH inputs only. Members have distinct ids and fingerprints, all derivation maps agree
  on the source of a key they name (they need not name the same keys), and BDK's signers only add
  partial signatures (no finalizing sign options).

## Where the code does not meet the plain reading

- The batched pre-flight compares the fees with the fee account's total, the hops draw on its first
  coin. `SweepPlanner.BatchedSweep.Plan` gives the exact condition of the underflow;
  `SeveralCoinsCanUnderflow` is an instance, `SingleCoinNeverUnderflows` the case the pre-flight covers.
- A fee index that occurs on several funded accounts breaks conservation: the single sweep charges
  the fee on each (`SingleSweepBalances`), the batched one leaves the further accounts behind
  (`NothingLeftIffFeeIndexUnique`); `RepeatedFeeIndexFails` is an instance of both.
- A node whose tip is an old checkpoint of the wallet leaves the wallet above it, unless the wallet holds
  an orphaned anchor or a stale transaction (`SyncGroundTruth`, `BehindKeepsAbandonedBlock`).
- An emitter that resumes at the start height can lose a payment: `SyncIsFaithful` says exactly when, from
  the wallet and the node before the pass, `SkippingLosesPayment` is an instance. For a wallet that holds
  every height, as every wallet does that a run reaches from a new one, the reorganization must be exactly
  two blocks deep (`OnlyTwoDeepLoses`, `RunsLoseOnlyTwoDeep`).
- Scripts revealed after a payment to them was scanned past are not scanned again before a rebuild
  (`RevealIsFaithful`, `OverlookedPayment`, `RebuildRestoresFaith`).
- In fixed key mode the BIP-388 policy is produced but does not denote the descriptor
  (`PolicyAgreesWithDescriptor`, `FixedPolicyDiffers`).
- CHANGELOG.md and src/federation.rs:120 say that taproot requires fixed keys; the code accepts
  taproot with ranged keys (src/descriptor.rs:295-298), and so does the model.
- `add_signer` of the descriptor builder replaces the entry even when it reports a duplicate
  (src/descriptor.rs:190-200), and so does the model.
- The policy comparison collapses repeated keys into a set (`MatchMeansSameLock`, `RepeatedKeyMatches`).

## Model

| member | source | states |
|---|---|---|
| `SweepTheorems.StartPlanDecides` | src/migration.rs:424-441 | each refusal comes back exactly under its condition: different networks, no coins at all, no funded account of the fee index; otherwise the plan starts with the first such account |
| `SweepPlanner.BatchedPlanState.Push` | src/migration.rs:337-357 | pushing a hop extends the chain built so far by one group, with its fee and its inputs in the running totals |
| `SweepPlanner.BatchedSweep.PlanLargeAccounts` | src/migration.rs:312-359 | builds one hop per large account, each spending the change of the one before, exactly when their fees fit in the first fee coin |
| `SweepPlanner.BatchedSweep.PlanSmallBundle` | src/migration.rs:362-412 | builds one hop for all small accounts on top of the hops before, exactly when the fees so far and its own fit in the first fee coin |
| `SweepPlanner.BatchedSweep.EstimateTotalFees` | src/migration.rs:527-543 | the pre-flight estimate is the sum of the fees of every transaction the plan will contain |
| `SweepPlanner.BatchedSweep.PlanFeeAccount` | src/migration.rs:498-523 | the fee account moves last; the finished plan is the whole chain and its total fees are the pre-flight estimate |
| `SweepPlanner.BatchedSweep.Plan` | src/migration.rs:417-524 | refusals, underflow and the plan, each under its exact condition: the pre-flight looks at the fee account's total, the underflow at its first coin |
| `SweepGuarantees.ChainExecutes` | src/migration.rs:310-413 | the chain runs on a ledger: every source exists and is spent once, every transaction's inputs equal its outputs plus its fee, and one coin is left |
| `SweepTheorems.AccountsPartition` | src/migration.rs:443-451 | large, small, fee and further fee-index accounts are the funded accounts, each once |
| `SweepTheorems.BatchedSweepExecutes` | src/migration.rs:416-524 | from the coins of the funded accounts the planned transactions execute in order to the end, and leave the final fee change and the coins of further fee-index accounts |
| `SweepTheorems.NothingLeftIffFeeIndexUnique` | src/migration.rs:430-447 | every coin of the funded accounts is swept exactly when one funded account carries the fee index |
| `SweepTheorems.CustomersPaidInFull` | src/migration.rs:340-352 | the customer outputs of the plan are exactly the funded non-fee accounts, each paid its whole balance |
| `SweepPayments.BatchedPayments` | src/migration.rs:340-344 | for every index, address and amount, the batched plan has exactly as many customer outputs of them as there are funded accounts, other than fee accounts, with this index, this destination and coins of this sum |
| `SweepPayments.GroupsSplit` | src/migration.rs:443-451 | an account has a hop of its own exactly when its coins sum to at least the threshold; all others share one hop, the last |
| `SweepPayments.GroupsInOrder` | src/migration.rs:443-451 | the hops take the accounts from the threshold on in their order, then those below it in theirs |
| `SweepPayments.HopPayments` | src/migration.rs:334-352 | hop by hop: each account of the group is paid the sum of its coins at its destination, in order, and the change to the fee account is the first fee coin less the fees up to and with this hop |
| `SweepPayments.FinalPayment` | src/migration.rs:498-523 | the last transaction returns to the fee account the sum of its coins less every fee of the plan, in one output |
| `SweepTheorems.ValueConserved` | src/migration.rs:416-524 | funded value equals customer payments plus final fee change plus total fees plus what further fee-index accounts keep |
| `SweepTheorems.PlanShape` | src/migration.rs:498-523 | one transaction more than groups, only the last is final, and the count of inputs is all real coins plus one placeholder per hop |
| `SweepTheorems.HopSpendsPredecessor` | src/migration.rs:320-328 | each hop spends the placeholder of the hop right before it, the first one the real fee coin |
| `SweepTheorems.PlaceholderIs` | src/migration.rs:549-555 | the placeholder of transaction k is the zero txid with output k, exactly up to 2^32 - 1 |
| `SweepTheorems.PlaceholdersDistinct` | src/migration.rs:549-555 | the placeholders of n transactions differ exactly when n is at most 2^32 |
| `SweepTheorems.SingleCoinNeverUnderflows` | src/migration.rs:454-463 | with one coin in the fee account the pre-flight rules out every underflow |
| `SweepTheorems.SeveralCoinsCanUnderflow` | src/migration.rs:454-463 | a fee account with two coins that passes the pre-flight and underflows at the first hop |
| `SweepPayments.SinglePlanDecides` | src/migration.rs:235-258 | a started single sweep is refused when the first fee account holds less than the estimate for all coins and accounts, underflows exactly when a further one does, and is planned otherwise |
| `SweepPayments.SinglePayments` | src/migration.rs:247-281 | one final transaction that spends every coin in account order and whose outputs, counted by index, address and amount, pay each other account the sum of its coins at its destination and each fee account its sum less the fee |
| `SweepTheorems.SingleSweepBalances` | src/migration.rs:211-280 | the single sweep's inputs equal its outputs plus its fee exactly when the fee index occurs once among the funded accounts or the estimate is zero |
| `SweepTheorems.RepeatedFeeIndexFails` | src/migration.rs:253-262 | two funded accounts with the fee index: the single sweep does not balance, and the batched one leaves a coin behind |
| `SweepTheorems.EstimateRoundsUp` | src/migration.rs:570-581 | an estimate that fits 64 bits is the exact fee rounded up to a satoshi |
| `SweepTheorems.FeeBounds` | src/migration.rs:235-236 | batching costs at least the single sweep, and at most one estimate(1,1) and one satoshi more per hop when the single estimate does not overflow |
| `SweepTheorems.UpperBoundNeedsFit` | src/migration.rs:570-581 | four accounts with one coin each and a rate at which the single estimate overflows: the upper bound fails |
| `SweepTheorems.TotalsIgnoreOrder` | src/migration.rs:527-543 | both fee totals are the same for every order of the accounts |
| `Blocks.ChainTxsAt` | src/chain_sync.rs:466-474 | a transaction is on a chain exactly when it is in the block at some height of it |
| `ChainSync.Wallet.ApplyBlockConnectedTo` | src/chain_sync.rs:243-264 | a block connects and leaves the new chain, graph, anchors and staged changes, or leaves the wallet alone |
| `ChainSync.EmitterSync` | src/chain_sync.rs:231-345 | the emitter loop, the three signals and the rebuild leave the wallet and the outcome that the function of the state says |
| `ChainSync.RebuildOnReorg` | src/chain_sync.rs:362-435 | revealing, scanning from genesis, evicting and swapping in leave the wallet and the outcome that the function of the state says |
| `ChainSync.SortedTxids` | src/chain_sync.rs:413-419 | the evicted ids are listed in strictly increasing order and are exactly the set |
| `ChainSyncTheorems.DriveLevel` | src/chain_sync.rs:239-265 | from its own tip a wallet takes every block of the node, keeps its checkpoints, and gains exactly the anchors and transactions above |
| `ChainSyncTheorems.DriveReorganizes` | src/chain_sync.rs:239-265 | after a fork the drive fails untouched, gets stuck untouched, or replaces the checkpoints above the fork and catches up with the node |
| `ChainSyncGuarantees.RebuildScans` | src/chain_sync.rs:362-435 | a rebuild cannot fail: from any wallet it leaves the from-genesis scan, with nothing staged |
| `ChainSyncResults.SyncFails` | src/chain_sync.rs:240-260 | a pass fails exactly when the emitter is asked for a height the node has not reached, and then leaves the wallet untouched |
| `ChainSyncResults.SyncGroundTruth` | src/chain_sync.rs:231-345 | from any wallet, reorg-damaged ones included, a pass within the emitter's reach ends at the node's tip with every confirmed transaction on its chain, every pending one in its mempool and no orphaned anchor, exactly unless the node's tip is an old checkpoint and the wallet holds neither an orphaned anchor nor a stale transaction |
| `ChainSyncResults.BehindKeepsAbandonedBlock` | src/chain_sync.rs:239-265 | a node that went back one block, and a wallet that stays above it |
| `ChainSyncResults.RebuiltIsFaithful` | src/chain_sync.rs:362-435 | after a rebuild the confirmed set is the scan of the node's chain over the revealed scripts |
| `ChainSyncResults.SyncRefinesScan` | src/chain_sync.rs:231-345 | when the emitter resumes at the fork, a wallet that was the scan of its chain is so after the pass, at the node's tip exactly unless it stays behind |
| `ChainSyncResults.SyncIdempotent` | src/chain_sync.rs:225-226 | after any pass within reach another one against the same node applies no block, stages and evicts nothing, does not rebuild and changes nothing |
| `ChainSyncResults.DemotionImpliesOrphan` | src/chain_sync.rs:282-306 | a same-pass demotion always leaves an orphaned anchor: signal 2 subsumes signal 1 |
| `ChainSyncConditions.RebuildsExactly` | src/chain_sync.rs:240-328 | a pass rebuilds exactly when its first block does not connect or a signal is on in the caught-up wallet, which is described from the state before; a demotion alone never decides |
| `ChainSyncConditions.SyncReports` | src/chain_sync.rs:329-345 | every pass within reach reports the tip height after it, the size of the mempool and the blocks above the last one left out (above genesis in a rebuild), the last two cut to 32 bits, and a rebuild exactly when the state before calls for one |
| `ChainSyncConditions.SyncIsFaithful` | src/chain_sync.rs:231-345 | a wallet that was the scan of its chain is one after the pass exactly unless, seen before the pass, it will not rebuild and a block left out holds a relevant transaction that it has no anchor for |
| `ChainSyncConditions.QuietIsFaithful` | src/chain_sync.rs:236-265 | a healthy wallet that will not rebuild is exact after the pass exactly when the blocks between fork and first emission hold nothing relevant that it does not have |
| `ChainSyncConditions.HealthySyncIsFaithful` | src/chain_sync.rs:231-345 | for a healthy wallet after a fork: exact exactly when the first block does not connect, an anchor lies above the fork, a pending transaction is stale after catching up, or the blocks left out hold nothing new |
| `ChainSyncConditions.FullConnects` | src/chain_sync.rs:236-250 | for a wallet that holds every height and an emitter that resumes at the start height, the first block connects exactly to a fork at most two blocks deep |
| `ChainSyncConditions.OnlyTwoDeepLoses` | src/chain_sync.rs:236-265 | of such a wallet only a reorganization exactly two blocks deep can lose a payment |
| `ChainSyncConditions.OtherwiseFaithful` | src/chain_sync.rs:231-345 | of such a wallet every other pass within reach keeps it the scan of its chain |
| `ChainSyncConditions.SyncKeepsFull` | src/chain_sync.rs:231-345 | a pass keeps a wallet that holds every height one |
| `ChainSyncConditions.SkippingLosesPayment` | src/chain_sync.rs:236-238 | a reorganization to a longer branch in which an emitter that resumes at the start height misses a payment |
| `ChainSyncConditions.RebuildLosesNothing` | src/chain_sync.rs:377-396 | every transaction confirmed before and still on the node's chain is confirmed after a rebuild |
| `ChainSyncConditions.EvictionsExact` | src/chain_sync.rs:413-419 | reported as evicted are, once each and in order, exactly the confirmed transactions that are neither on the chain nor waiting in the mempool, when the pass will rebuild |
| `ChainSyncConditions.OrphanWithoutDemotion` | src/chain_sync.rs:290-298 | a reloaded wallet whose stale anchor signal 1 cannot see and signal 2 repairs |
| `ChainSyncPersistence.StepKeepsSynchronized` | src/chain_sync.rs:128-157 | each pass, reveal, save or reload keeps saved and staged changes describing the live wallet |
| `ChainSyncPersistence.RunsReload` | src/chain_sync.rs:128-157 | over every run, merging each change set and replacing on a rebuild, the saved aggregate with what is staged loads to the live wallet |
| `ChainSyncPersistence.RunsReachGroundTruth` | src/chain_sync.rs:231-345 | in every run a pass within reach ends at ground truth exactly unless it stays behind, and what was saved loads to the live wallet |
| `ChainSyncPersistence.RevealIsFaithful` | src/chain_sync.rs:353-356 | revealing scripts keeps the wallet the scan of its chain exactly when no transaction on that chain becomes relevant |
| `ChainSyncPersistence.OverlookedPayment` | src/chain_sync.rs:353-356 | a payment scanned past before its script was revealed, which the wallet then does not confirm |
| `ChainSyncPersistence.LiveStaysFaithful` | src/chain_sync.rs:231-345 | a pass or a reveal keeps the live wallet faithful exactly when it loses and overlooks nothing, as judged before it |
| `ChainSyncPersistence.RunsStayFaithful` | src/chain_sync.rs:231-345 | over every run of passes, reveals, saves and reloads without a harmful step the live wallet is the from-genesis scan of the chain it is at |
| `ChainSyncPersistence.RebuildRestoresFaith` | src/chain_sync.rs:362-435 | after any run at all, a pass that will rebuild makes the live wallet and what is saved the from-genesis scan again |
| `ChainSyncPersistence.RunsLoseOnlyTwoDeep` | src/chain_sync.rs:236-265 | in every run from a new wallet only a reorganization exactly two blocks deep can lose a payment |
| `ChainSyncPersistence.FreshSessionFaithful` | src/chain_sync.rs:108-119 | a new wallet revealed up to any indices, with nothing saved, is where such a run may start |
| `ChainSyncPersistence.MergingARebuild` | src/chain_sync.rs:152-156 | merging a rebuild's change set instead of replacing gives the rebuilt wallet exactly when the earlier aggregate held nothing that the node's chain, its mempool and the revealed scripts do not have |
| `ChainSyncPersistence.ChangesetIsNew` | src/chain_sync.rs:334-345 | a pass hands over what was still staged and exactly the transactions and anchors the wallet did not have; a rebuild hands over all of them |
| `Text.SortKeys` | src/recovery.rs:520-521 | keys in any order are sorted to the one increasing list |
| `CanonicalJson.WriteCanonical` | src/recovery.rs:501-534 | appends the canonical text of the value to the buffer and keeps what was there |
| `CanonicalJson.WriteArray` | src/recovery.rs:509-518 | the items between brackets, a comma between any two |
| `CanonicalJson.WriteObject` | src/recovery.rs:519-532 | the fields in increasing order of their keys, whatever order the map gives them |
| `CanonicalJson.CanonicalJsonOf` | src/recovery.rs:494-499 | the canonical text of a value is determined by the value |
| `CanonicalJsonTheorems.ParsePrintedChars` | src/recovery.rs:506-508 | an escaped string followed by anything reads back as the string |
| `CanonicalJsonTheorems.ParsePrinted` | src/recovery.rs:501-534 | a printed value followed by anything that does not go on a number reads back, nested arrays and objects included |
| `CanonicalJsonTheorems.CanonicalRoundTrip` | src/recovery.rs:494-534 | a reference parser undoes the printer on every value |
| `CanonicalJsonTheorems.CanonicalIsInjective` | src/recovery.rs:494-534 | two values print alike exactly when they are equal |
| `CanonicalJsonTheorems.NamesAscend` | src/recovery.rs:519-530 | the names of a printed object, read off its text, are its keys, each once, in increasing order |
| `CanonicalJsonTheorems.BeforeIsLexicographic` | src/recovery.rs:520-521 | the order of the keys is the lexicographic one: a proper prefix, or a smaller character at the first difference |
| `CanonicalJsonTheorems.NoLeadingZero` | src/recovery.rs:505 | a number is printed without leading zeros |
| `CanonicalJsonTheorems.EscapeIsShortest` | src/recovery.rs:506-508 | of all spellings the parser accepts for a character, the printed one is the shortest, with small hexadecimal digits |
| `RecoveryChecksum.ComputeChecksum` | src/recovery.rs:452-469 | the checksum is the hash of the canonical text of the eight content fields |
| `RecoveryChecksum.PreimageReads` | src/recovery.rs:452-481 | the hashed text parses as one value and a reader that looks every field up by its name, in nested objects too, gets back the eight content fields, each in its place |
| `RecoveryChecksum.PreimageFields` | src/recovery.rs:455-464 | the parsed text is an object with exactly the eight names; threshold, total signers, descriptor and the two indices are under their own names |
| `RecoveryChecksum.Verify` | src/recovery.rs:278-293 | verified, mismatch with both checksums, or invalid descriptor, each under its exact condition |
| `RecoveryChecksum.ContentInjective` | src/recovery.rs:471-481 | contents that serialize alike agree in all eight fields, because reading undoes writing |
| `RecoveryChecksum.PreimageIsContent` | src/recovery.rs:452-481 | two templates hash the same text exactly when they agree on all eight content fields |
| `RecoveryChecksum.TamperingIsDetected` | src/recovery.rs:278-286 | barring a collision of the two texts, a kept checksum fails exactly when some content field was changed |
| `Descriptors.DescriptorBuilder.AddSigner` | src/descriptor.rs:190-200 | registers the key, replacing an entry of the same id and reporting the duplicate |
| `Descriptors.DescriptorBuilder.TaprootKeys` | src/descriptor.rs:285-304 | the cosigner keys in stable x-only order of the id-ordered entries |
| `Descriptors.DescriptorBuilder.Build` | src/descriptor.rs:213-283 | the descriptor or the first error in the order of the checks |
| `Descriptors.DescriptorBuilder.Bip388Policy` | src/descriptor.rs:332-368 | template and stripped keys, or the reason there is no policy |
| `Descriptors.RejectDuplicateKeys` | src/descriptor.rs:440-449 | names the first key whose text occurred before |
| `DescriptorTheorems.BuiltExactly` | src/descriptor.rs:213-283 | a descriptor is built exactly from at least one key, all different and on the builder's Bitcoin network, that miniscript accepts |
| `DescriptorTheorems.BuildRefusals` | src/descriptor.rs:213-260 | each refusal comes back exactly under its condition, in the order of the checks: no signers, not Bitcoin, a key of another network, a repeated key text, rejected by miniscript |
| `DescriptorTheorems.RepeatedIsExact` | src/descriptor.rs:438-449 | a key list is refused exactly when two of its texts are equal |
| `DescriptorTheorems.RepeatedIsFirst` | src/descriptor.rs:440-449 | the refusal names the text of the first key that occurred before |
| `DescriptorTheorems.SortAscends` | src/descriptor.rs:302 | the cosigner keys of a taproot descriptor ascend by x-only key |
| `DescriptorTheorems.SortKeeps` | src/descriptor.rs:302-303 | sorting keeps every key, as often as it occurred |
| `DescriptorTheorems.SortIsStable` | src/descriptor.rs:302 | keys with the same x-only part keep the order of their ids |
| `DescriptorTheorems.InsertionOrderIrrelevant` | src/descriptor.rs:133-136 | the same signers added in any order leave the same entries |
| `DescriptorTheorems.TaprootIgnoresIds` | src/descriptor.rs:285-304 | with distinct x-only keys the taproot order is set by the keys, whatever the ids |
| `DescriptorTheorems.ModeKeepsOrder` | src/descriptor.rs:286-289 | fixed and ranged mode list the same entries in the same order |
| `DescriptorReader.WshReads` | src/descriptor.rs:242-253 | read back from its text, a segwit descriptor is a sorted multisig of the builder's threshold over the keys of its entries, in id order |
| `DescriptorReader.TrReads` | src/descriptor.rs:262-304 | read back from its text, a taproot descriptor has the NUMS internal key and a multisig of the builder's threshold over the keys of its entries, in x-only order |
| `DescriptorReader.ReadsKey` | src/descriptor.rs:453-500 | the text of a key reads back as fingerprint, path, material and wildcard of its entry: the parity byte and the public key, the bare x-only key, or the xpub with the receive wildcard, by script type and mode |
| `WalletPolicies.StripsWildcard` | src/descriptor.rs:384-388 | stripping a key's text gives back its key information, ranged or not |
| `WalletPolicies.ExpandRender` | src/descriptor.rs:361-367 | expanding a template finds every placeholder that was put in, one-digit and longer numbers alike |
| `WalletPolicies.MultipathRender` | src/descriptor.rs:518-522 | lifting to multipath rewrites the wildcard of every ranged key and nothing else |
| `WalletPolicies.MultipathIs` | src/descriptor.rs:518-522 | the multipath string of a built taproot descriptor, without checksum, key by key |
| `WalletPolicies.MultipathRoundTrip` | src/descriptor.rs:503-522 | for every built descriptor of either script type, the external keychain of the multipath string is the descriptor without its checksum |
| `WalletPolicies.PolicyIs` | src/descriptor.rs:332-368 | template and keys of a NUMS-xpub taproot policy, key by key, in descriptor order |
| `WalletPolicies.PolicyAgreesWithDescriptor` | src/descriptor.rs:262-368 | for any number of signers the expanded policy is the descriptor's multipath string exactly in ranged mode |
| `WalletPolicies.FixedPolicyDiffers` | src/descriptor.rs:332-368 | one signer with a fixed key: the policy is produced and expands to another descriptor |
| `Federations.ValidateInputs` | src/federation.rs:353-382 | the first failing check, in the order of the code |
| `Federations.ValidateDecides` | src/federation.rs:353-382 | accepted are exactly 1 <= m <= n, n >= 2, distinct ids, all on the network |
| `Federations.ValidateRefusals` | src/federation.rs:353-370 | zero threshold, too few signers and too large a threshold are reported in this order, before any signer is looked at |
| `Federations.CheckStopsAt` | src/federation.rs:371-381 | the signer reported is the first that repeats an id or lacks the network; of one that does both, the repeated id |
| `Federations.BuildDescriptor` | src/federation.rs:384-400 | feeding the signers one by one builds the descriptor of their entries, or reports the duplicate |
| `Federations.NewFederation` | src/federation.rs:128-157 | a federation with a descriptor on Bitcoin and without one on Elements, or the error |
| `Federations.DescriptorReads` | src/federation.rs:384-400 | read back from its text, a federation's descriptor has its script type and threshold, and exactly the keys of its signers |
| `Federations.MutateKeeps` | src/federation.rs:256-345 | every successful mutation gives a well-formed federation with the same network, key mode and script type |
| `Federations.ThresholdMutation` | src/federation.rs:337-345 | succeeds exactly for 1 <= m <= n, with that threshold and the same signers; zero and too large are refused by name |
| `Federations.AddMutation` | src/federation.rs:289-307 | succeeds exactly for a signer with a new id on the network, appended at the end, with the same threshold |
| `Federations.RemoveMutation` | src/federation.rs:313-334 | succeeds exactly when two others remain and the threshold can be met; all others stay in their order |
| `Federations.RotateMutation` | src/federation.rs:256-282 | succeeds exactly for a replacement on the network whose id no other member has; it takes the place of the signer rotated out |
| `Federations.UnknownSigner` | src/federation.rs:256-316 | removal and rotation report an unknown signer exactly when no member has the id |
| `Federations.RunKeeps` | src/federation.rs:248-346 | every reachable federation is a well-formed m-of-n group under the settings it started with |
| `Federations.HistoryIrrelevant` | src/federation.rs:248-346 | two histories that end in the same signers and threshold end in the same descriptor |
| `Federations.AddThenRemove` | src/federation.rs:289-334 | adding a signer and removing it gives back the federation |
| `Federations.RotateBack` | src/federation.rs:256-282 | rotating a signer out and back in gives back the federation |
| `Federations.RemovalAccepted` | src/federation.rs:313-334 | a member can be removed exactly when two others remain and the threshold can still be met |
| `Signing.NewUnsigned` | src/psbt.rs:50-56 | accepted exactly without partial signatures; otherwise their number is reported |
| `Signing.SigningCoordinator.RequestSignatures` | src/psbt.rs:311-352 | credits every signer found in the PSBT; in federation order, software members get a direct action and all others a request with their id, their fingerprint and the PSBT as signed, and instructions that name their label, if they have one |
| `Signing.SigningCoordinator.ReceiveSignature` | src/psbt.rs:367-419 | merges and credits a reply with a new attributable signature; any rejection leaves PSBT and signers untouched |
| `SigningTheorems.ReceiveDecides` | src/psbt.rs:367-419 | each answer to a known sender has its exact condition on session and reply; an accepted reply is merged entry by entry and credits its sender |
| `SigningTheorems.UnknownSender` | src/psbt.rs:372-375 | an unknown signer is reported exactly when no member has the reply's id |
| `Signing.SigningCoordinator.Finalize` | src/psbt.rs:429-448 | below the threshold it reports how many signatures there are and are needed, and BDK, which need not be defined there, is not asked; from the threshold on BDK decides |
| `Signing.CollectSigners` | src/psbt.rs:460-482 | the owners of the fingerprints that signed some input |
| `SigningTheorems.LastIsCredited` | src/psbt.rs:460-482 | credited are exactly the members with a signature on some input whose fingerprint no later member shares |
| `SigningTheorems.SignersAreCredited` | src/psbt.rs:460-482 | under distinct fingerprints the loops find exactly the members with an attributable signature |
| `SigningTheorems.StepKeepsInvariant` | src/psbt.rs:311-419 | each request or reply keeps the invariant and drops no signer |
| `SigningTheorems.RunKeepsInvariant` | src/psbt.rs:254-419 | in every run the transaction is unchanged and each counted signer is a member with an attributable signature still in the PSBT |
| `SigningTheorems.CompleteMeansEnoughKeys` | src/psbt.rs:293-297 | a complete session holds signatures by at least the threshold of distinct cosigner keys |
| `SigningTheorems.FinalizeNeedsThreshold` | src/psbt.rs:429-440 | from a new session, whatever happens, finalization is tried only with enough distinct cosigner keys |
| `SigningTheorems.RequestCreditsEveryone` | src/psbt.rs:320-324 | after a request the counted signers are exactly the members with a signature in the PSBT |
| `SigningTheorems.IndependentAccepted` | src/psbt.rs:388-417 | a reply is accepted that brings a signature, new to the session, which the session's map or its own attributes to its sender, whatever other signatures it carries |
| `SigningTheorems.ReplayRefused` | src/psbt.rs:388-415 | a reply that was accepted is refused when it comes again |
| `SigningTheorems.AnswersAreIndependent` | src/psbt.rs:325-351 | replies that carry back the signatures of the request they answer, or none of them, and share no new ones are independent |
| `SigningTheorems.RepliesCommute` | src/psbt.rs:367-419 | replies that agree on shared signatures and key sources, each with a signature of its sender that no other reply has, reach the same PSBT and the same signers in any order |
| `SigningTheorems.RejectedLeavesNoTrace` | src/psbt.rs:367-415 | a session ends as if its rejected replies had not come |
| `SigningTheorems.HopelessRejected` | src/psbt.rs:372-415 | an unknown sender, another transaction, a contradicting key source or no new signature of the sender is rejected and changes nothing |
| `SigningTheorems.Confluence` | src/psbt.rs:367-419 | sessions that are sent the same independent replies, in any order and mixed with any messages that cannot be accepted, end in the same state |
| `OutputVerifier.VerifyPsbtOutputs` | src/verify.rs:238-294 | the loop with its marks gives the verdict of the recursive matching, error kind and amounts included |
| `OutputVerifier.VerdictIsTruthful` | src/verify.rs:229-235 | what each verdict says of the outputs is true: changed amounts, foreign outputs, missing payments |
| `OutputVerifier.VerdictLocated` | src/verify.rs:238-294 | without matching, by counts alone: the first foreign output that exceeds its approved number is refused, as a changed amount exactly when an approved output to its script is still owed, naming the first of those; without such an output the first approved one still owed is missing |
| `OutputVerifier.CheckDecides` | src/verify.rs:214-223 | accepted exactly when the approved outputs are there one for one and all others are owned |
| `OutputVerifier.VerdictIgnoresOrder` | src/verify.rs:238-294 | the order of neither list matters to acceptance |
| `OutputVerifier.ForeignValueIsApproved` | src/verify.rs:208-223 | in an accepted transaction the value sent to scripts that are not owned is exactly what was approved for such scripts |
| `PolicyMatch.EnsureDescriptorsMatch` | src/verify.rs:128-151 | match, unsupported shape or mismatch, each under its exact condition, with the reasons in order |
| `PolicyMatch.ReasonsName` | src/verify.rs:138-150 | a mismatch names both thresholds, the keys only the candidate has and the keys it lacks, each exactly when it differs, in this order |
| `PolicyMatch.MatchMeansSameLock` | src/verify.rs:46-56 | against an expected descriptor without repeated keys, threshold and key multiset agree exactly when the policies match and the candidate repeats no key |
| `PolicyMatch.RepeatedKeyMatches` | src/verify.rs:82-83 | two key lists that differ by a repeated key have the same policy and lock differently |
| `Rosters.ComputeRosterPlan` | src/roster.rs:116-171 | succeeds exactly on an acceptable delta, with the planned roster; each error names a user that is at fault |
| `Rosters.PlanIsExact` | src/roster.rs:46-49 | the next roster is the members who stay and those who join, each once |
| `Rosters.PlanInOrder` | src/roster.rs:46-49 | those who stay come in base order, then those who join in input order |
| `Rosters.FreshInOrder` | src/roster.rs:46-49 | members come in the order of their first occurrence in the input |
| `Rosters.ChangesPartition` | src/roster.rs:50-52 | each current or added user has exactly one row: keep, remove or add |
| `Rosters.ChangesInOrder` | src/roster.rs:50-52 | the rows of current members come first, in base order, then those who join, in input order |
| `Rosters.SwapRestores` | src/roster.rs:116-171 | swapping joiners and leavers restores the original members, accepted exactly when there were any |
| `Rosters.ValidateThreshold` | src/roster.rs:179-185 | accepted exactly when 1 <= m <= n and n fits 32 bits |
| `Rosters.HistoricVersionsAtRisk` | src/roster.rs:206-220 | the increasing list of exactly the versions at risk |
| `Rosters.AtRiskMeans` | src/roster.rs:206-220 | a version is at risk exactly when strictly fewer of its member entries are in the next roster than its threshold; with the threshold itself it is safe |
| `Rosters.LargerRosterIsSafer` | src/roster.rs:197-220 | enlarging the next roster never puts another version at risk |
| `Rosters.NobodyLeavesNobodyAtRisk` | src/roster.rs:197-220 | a migration that removes nobody puts no further version at risk |

## Left out

- Overflow of `Amount` additions in sweeps: sums are unbounded; only the fee estimates wrap to their 64-bit fallbacks.
- FeeBounds: the upper bound is proved when the single estimate fits 64 bits, not as an equivalence, because with an overflow it can hold or fail depending on the rate.
- ChainSync.EmitterSync: no last-seen times, no lookahead that grows the revealed scripts, no confirmation implied by a descendant, no RPC failure except the emitter's, and no node that changes during a pass.
- ChainSync.RebuildOnReorg: creating the new wallet and fetching from the node do not fail; descriptors, signing keys and the network are not part of the state.
- The Esplora and Electrum adapters and the decoding half of `init_or_load_wallet`: field copying and I/O.
- CanonicalJson.WriteCanonical: no floating-point numbers, which the checksummed types do not contain.
- RecoveryChecksum.ContentInjective: 32-bit bounds of thresholds and indices are not modelled; a larger range only makes the claim stronger.
- The generation time of a template, instruction texts, printable form and labels: not covered by the checksum, or plain text.
- SHA-256, key derivation, address encoding, miniscript parsing and the equality of ranged `multi_a` with a per-index sorted form: foreign code.
- Signing.SigningCoordinator.ReceiveSignature: taproot key origins, and the rule by which PSBT merging keeps the longer of two compatible sources of an extended key; here two different sources do not merge.
- Signing.SigningCoordinator.Finalize: extracting the transaction; whether BDK can finalize is a parameter, and per-input thresholds are its business.
- `build_spend`, `combine_psbt` and `finalize_and_extract`: thin calls into BDK.
- Federations.NewFederation: the creation time, and the abort on more than 2^32 signers.
- `src/federation_build.rs`, `src/federated_wallet.rs`, `src/snapshot.rs`, `src/signer.rs`, `src/error.rs`: accessors, thin composition and type definitions that would only add easy members.
- Rosters.ComputeRosterPlan: which of several offending users an error names depends on hash order and is left open.
