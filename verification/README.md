# A verified model of tx-gen

tx-gen keeps thousands of Bitcoin transaction chains running. Before a
transaction is broadcast, a pending record of it is written to the state file;
when the network accepts it, one atomic store update removes the record, deletes
the spent UTXO and saves the created ones. After a crash the records left behind
are replayed. This project models that protocol, the two-level bootstrap that
splits one funding output into the chains, the arithmetic that both the Go engine
and the TypeScript funding planner rely on, and the small stateful pieces around
them, and proves what they promise.

## How the model is organised

- `ledger.dfy`, `txbuilder.dfy`: outpoints, transactions, sizes, fees, the two
  transaction builders and their byte encoding. A txid is an inductive value over
  the spent outpoint and the created values, so that an output cannot be its own
  ancestor and equal ids mean equal transactions.
- `store.dfy`, `replay.dfy`, `recovery.dfy`, `queue.dfy`, `chain.dfy`,
  `fanout.dfy`: the imperative code of the store, the queue, startup recovery, one
  chain and one fanout, as classes and methods with loops. Failures of the store,
  answers of the broadcaster and cancellations are parameters.
- `engine.dfy`: the engine as a step system. Every bbolt update, every broadcaster
  reply, every hand-over in memory, a crash, and a record damaged on disk between
  two runs is one action, so that a run is any interleaving of any number of
  goroutines with any failures and any number of restarts. `safety*.dfy`,
  `built.dfy`, `crash.dfy`, `stage-order.dfy`, `progress*.dfy`, `l1-sizes.dfy`,
  `leftover.dfy`, `rebuild-steps.dfy`, `lineage.dfy` and `value.dfy` prove what every
  action keeps; `crash-theorems.dfy`, `blocked.dfy`, `l2-theorems.dfy`, `l2-runs.dfy`,
  `rebuild.dfy` and `rebuild-runs.dfy` state the results over runs. `runs.dfy` says
  how a run goes on, and `scenarios.dfy` holds the pieces that failing runs are built
  from.
- `sequential.dfy`: the imperative fanout and chain are action sequences of that
  step system.
- `widths.dfy`, `tally.dfy`, `funding.dfy`, `funding-run.dfy`, `funded-runs.dfy`: how
  chains are shared out, what the number of durable UTXOs says, the funding plan, and
  what the engine makes of it, in one go and in every run.
- `wake.dfy`, `sse.dfy`, `notifier.dfy`, `backoff.dfy`: the wake-up protocol of rate
  changes, the event-stream reader, the dedupe window and the retry delays.

The history component of an engine state (`h`) records what happened and is read
by no action of the engine. It is read by the network: a transaction that was ever
handed to the broadcaster may be accepted later, also after a crash, and a nil reply
needs the transaction to have been accepted, which is the broadcaster's contract
(internal/engine/engine.go:48-53). Three further contracts are assumptions of the
refinement theorem only and appear in it by name: `honest` (an error meant "not
accepted"), `trusted` (a replayed record had been accepted,
internal/engine/persist.go:58-59) and `intact` (no replayable record was damaged on
disk). `metaOk` says that every stage write so far succeeded; the code only logs a
failed one.

Where the code and its comments differ, the code is modelled. Each difference has an
input that shows it and the exact condition under which the comment is right:

- "Chains start only after a complete L2 fanout" (internal/engine/bootstrap.go:183-184)
  holds within a run. After a restart resumePartialL2 starts chains on a mix of
  parents and outputs: exactly when (`ResumeTakesTheRightBranch`), and a run with four
  chains over two L1 outputs (`FourChainsOnMix`).
- The count-based resume repeats a fanout on such a mix if there are fewer than two
  chains for each L1 output but more than one (`ResumeIsSafeIff`, `NarrowGoesWrong`).
- "Rebuilding the fanout after a restart yields the same transaction"
  (internal/engine/bootstrap.go:278-279) holds of the L1 fanout. An L2 parent may get
  another place in the drain order and with it another width (`L2RebuildIff`,
  `ThreeChainsDiffer`), or be spent by a chain hop (`RebuildIff`, `HopDiffers`).
- A record that cannot be replayed blocks the engine only if the write of the
  unknown stage succeeds or the store holds no other stage (`BlocksUnless`,
  `GarbledRecordDoesNotBlock`).
- A parent that is still durable when the L2 fanout ends need not have a pending
  record, and one that is back on the queue may have one (`EachParentAccountedFor`,
  `RecordsPartFromParents`).
- The fanout size is called the maximum outputs per bootstrap fanout transaction
  (internal/engine/engine.go:85-86). It bounds every L2 fanout (`WidthsFitFanoutSize`)
  but the L1 fanout only up to fanoutSize squared chains (`L1WidthFitsIff`; five
  chains of fanout size two, `L1WidthCanExceed`).
- An exponential delay is capped at the limit except in one case, where it is one
  unit above the documented value (`CappedDoublingIff`, `CappedDoublingCanFail`).

The event-stream reader is modelled as it is, not as section 9.2.6 of the WHATWG HTML
Living Standard has it: it takes only lines that start with `data:`, dispatches an
unfinished event at the end of the stream, and does not end lines at a lone carriage
return.

## Model

| member | source | states |
|---|---|---|
| `CrashTheorems.RecoveryIsExactIff` | internal/engine/persist.go:58-104 | from any state of any run under the three contracts, crash there and recover in any order with any interruptions: the store ends with exactly the unspent positive outputs of the accepted transactions if and only if every record left behind had been accepted |
| `CrashTheorems.CrashRefinement` | internal/engine/persist.go:18-104 | over runs with any number of crashes, whenever nothing is left to replay the durable UTXOs are exactly the unspent outputs on the network's ledger |
| `CrashTheorems.NoDoubleSpend` | internal/engine/chain.go:58-104 | no two accepted transactions ever spend one outpoint |
| `CrashTheorems.NoReplayResurrects` | internal/engine/persist.go:65-134 | whatever the broadcaster answers, the write-ahead condition holds in every state, and no recovery, complete or interrupted, brings back an outpoint that a committed transaction spent |
| `CrashTheorems.OneTransactionPerOutpoint` | internal/engine/bootstrap.go:280-299 | within one run of the process all broadcasts that spend an outpoint carry the same transaction, even if the broadcaster reports errors for accepted ones |
| `Rebuild.L1AndHopsAreRebuilt` | internal/engine/bootstrap.go:274-279 | in every run with one configuration whose stage writes succeed, whatever was sent as an L1 fanout or a hop is only ever sent again as the same transaction, through any crashes, and an L2 fanout is never followed by an L1 fanout |
| `Rebuild.L2RebuiltIff` | internal/engine/bootstrap.go:274-279 | in such runs two L2 broadcasts that spend one outpoint, with any crashes between, carry the same transaction if and only if its two places in the drain order lie both before or both not before numChains modulo the number of parents |
| `Rebuild.HopAfterL2Iff` | internal/engine/bootstrap.go:76-92 | a hop that spends a parent sent as an L2 fanout before is the same transaction if and only if the parent had a single output and the fees agree |
| `Rebuild.ParentsAgreeIff` | internal/engine/bootstrap.go:185-201 | all drain orders of a queue give every UTXO the same width if and only if the chains divide evenly among them |
| `RebuildRuns.L2RebuildIff` | internal/engine/bootstrap.go:274-279 | for every configuration: no run whose stage writes succeed sends two different L2 fanouts of one outpoint, if and only if the chains divide evenly among the L1 outputs or the wider fanouts exceed the size limit |
| `RebuildRuns.RebuildIff` | internal/engine/bootstrap.go:274-279 | for every configuration: no such run sends two different transactions of any kind for one outpoint, if and only if there is one L1 output for several chains, or one chain per L1 output and equal fees, or no L2 fanout that matters fits |
| `RebuildRuns.OtherPlaceDiffers` | internal/engine/bootstrap.go:280-299 | wherever the first condition fails, a run in which a fanout is accepted but answered with an error, the process crashes, and another transaction is sent for the same outpoint |
| `RebuildRuns.ThreeChainsDiffer` | internal/engine/bootstrap.go:311-320 | that run for three chains over two L1 outputs |
| `RebuildRuns.HopDiffers` | internal/engine/bootstrap.go:76-92 | with two chains or more for each of two L1 outputs or more, a run in which a chain hop spends what a fanout on the network has spent |
| `RebuildRuns.EqualDiffers` | internal/engine/bootstrap.go:76-92 | with one chain per L1 output and different fees, such a run |
| `CrashTheorems.CrashBeforeSendingMisleads` | internal/engine/persist.go:58-59 | the trust in leftover records is needed: a concrete run that dies between writing and sending recovers to an output that does not exist |
| `SafetySteps.RunKeepsInv` | internal/engine/chain.go:51-109 | in every state of every run the store mirrors the committed transactions, the write-ahead condition holds, every durable UTXO has one owner, and every record and every sent transaction belongs to the owner of the outpoint it spends |
| `SafetySteps.Step` | internal/engine/bootstrap.go:24-299 | each of the twenty actions keeps that invariant |
| `Safety.SpendKeepsMirror` | internal/store/store.go:224-257 | applying a transaction whose input is durable keeps the store equal to the outputs born and not spent |
| `Safety.OutputsAreFresh` | internal/store/store.go:224-257 | the outputs of a transaction that spends a durable UTXO are neither durable nor spent |
| `CrashSafety.RunKeepsCrashInv` | internal/engine/chain.go:67-94 | a broadcast has its record until it is committed or cleared, and every transaction that was accepted, or may still be after a crash, is committed or on record |
| `Replay.RecoveryIsConfluent` | internal/engine/persist.go:65-104 | any two recoveries of one state that leave no record, however ordered, interrupted and restarted, end with the same UTXOs |
| `Replay.RecoveryKeepsTarget` | internal/engine/persist.go:80-93 | every prefix of a recovery keeps the write-ahead condition, the state that recovery reaches, and the records it cannot replay |
| `Replay.ReplayOneIsSpend` | internal/engine/persist.go:85-88 | replaying one record spends its input into its positive outputs, removes it and no other |
| `Replay.RecoveryExists` | internal/engine/persist.go:65-104 | from every write-ahead state some recovery leaves nothing to replay |
| `Recovery.SortRecords` | internal/engine/persist.go:70-76 | every record once, ordered by time and then by txid |
| `Recovery.Engine.ReplayPending` | internal/engine/persist.go:65-104 | whichever reads and writes fail, the effect on the store is a recovery that can be resumed; on success no replayable record is left, the UTXOs are those recovery reaches, and a record without transition has made the stage unknown; it succeeds if the read and the commits do |
| `Recovery.Engine.Restore` | internal/engine/persist.go:18-56 | after a successful startup the queue holds exactly the UTXOs of the store, which are those that recovery of the old state reaches, and the persisted stage is resumed; it succeeds if no read, save or commit fails |
| `Recovery.Engine.LoadQueue` | internal/engine/persist.go:26-35 | saving again what is stored changes nothing, and a fresh store ends with exactly the UTXOs it was given; it succeeds if its reads or saves do |
| `Recovery.EmptyStoreHasNoRecord` | internal/app/app.go:200-219 | an empty store has no replayable record, so fetching funding before replay overwrites nothing |
| `Blocked.UnreplayableRecordBlocks` | internal/engine/persist.go:95-102 | once startup finds such a record, beside whatever UTXOs and other records, and the unknown stage can be read back, nothing is written or sent in this run or any later one, and the record stays |
| `Blocked.BlocksUnless` | internal/engine/persist.go:47-55 | the exact condition over runs: after startup with such a record, some continuation without a crash sends a transaction if and only if the write of the unknown stage failed, another stage was stored, and a launch under that stage can send at all, on the UTXOs there are or, with none, on some funding |
| `Blocked.EmptySendsIff` | internal/engine/bootstrap.go:24-73 | an idle engine without UTXOs can be funded so that it sends exactly if its stage is not unknown and, under l1_done, a fanout into one output fits |
| `L2Runs.GarbledRecordDoesNotBlock` | internal/engine/persist.go:107-116 | a run in which a damaged record is found, the write of the unknown stage fails beside a stored l2_partial, and the engine sends |
| `Blocked.LaunchSendsIff` | internal/engine/bootstrap.go:40-92 | which launches can send at all, as a condition on the stage, the parameters and the UTXOs, in both directions |
| `StageOrder.RecordsShareOneStage` | internal/engine/persist.go:90-92 | in every state of a run whose stage writes succeed all replayable records carry one stage, so replay order does not decide the stage either |
| `StageOrder.RunKeepsStaged` | internal/engine/bootstrap.go:143-240 | the persisted stage is the one each phase runs under, through crashes and replays |
| `L2Theorems.L2IsComplete` | internal/engine/bootstrap.go:185-240 | for every interleaving the L2 fanout succeeds exactly when no goroutine failed, and then exactly numChains UTXOs are queued, all durable, and the stage is l2_done; the wrong-count branch is unreachable |
| `L2Theorems.EachParentAccountedFor` | internal/engine/bootstrap.go:202-220 | when all goroutines have ended, each parent is requeued, left durable, or replaced by all outputs of its fanout, and exactly one of these; a durable one has a pending record exactly when its record was written and no clear of it has succeeded since |
| `L2Theorems.LostParentKeepsRecord` | internal/engine/bootstrap.go:202-269 | a goroutine that panics or fails to commit leaves its parent durable to the end of the fanout, with the record it had at that point: none before anything was built, that of the very transaction once it was written |
| `L2Theorems.FailedClearLeavesBoth` | internal/engine/bootstrap.go:280-299 | a goroutine that gives up leaves its parent on the queue to the end of the fanout, with a record exactly if its last clear failed |
| `Leftover.RecordedIff` | internal/engine/chain.go:67-94 | in every state of every run a durable UTXO of a running process has a replayable record if and only if one was written in this run and not cleared since |
| `Leftover.EndedStays` | internal/engine/bootstrap.go:194-220 | between the end of a goroutine and the end of the fanout its parent and its record stay as they are, whatever the others do |
| `L2Runs.RecordsPartFromParents` | internal/engine/bootstrap.go:202-299 | a run in which a panic leaves a durable parent without a record and a failed clear leaves a queued parent with one |
| `L2Theorems.CountTellsProgress` | internal/engine/bootstrap.go:76-92 | in every l2_partial state of a process always started with the same parameters and whose stage writes succeed, and at least two chains per L1 output, there are ceilDiv(numChains, fanoutSize) parents, and the number of durable UTXOs is that exactly when none was fanned out, the number of chains exactly when all were, and between otherwise |
| `L2Theorems.WidthOneIsInvisible` | internal/engine/bootstrap.go:311-320 | with fewer than two chains per parent fanning out the last parent leaves the count unchanged, whatever happened to the others |
| `L2Theorems.ResumeTakesTheRightBranch` | internal/engine/bootstrap.go:76-92 | after any crash, always started with the same parameters and with stage writes that succeed, the count-based dispatch repeats the fanout exactly when nothing was fanned out and otherwise starts a chain on every UTXO |
| `L2Runs.ResumeIsSafeIff` | internal/engine/bootstrap.go:76-92 | for all parameters: no run whose stage writes succeed repeats the L2 fanout on a mix of parents and outputs if and only if there are at least two chains for each L1 output, or exactly one |
| `L2Runs.NarrowGoesWrong` | internal/engine/bootstrap.go:76-92 | for every number of chains between the number of L1 outputs and twice that number, a run with one committed fanout and one crash in which it does |
| `L2Runs.ChainsOnMix` | internal/engine/bootstrap.go:76-92 | for all parameters with two L1 outputs or more and two chains for each, a run that starts chains on a mix of parents and outputs |
| `L2Runs.FourChainsOnMix` | internal/engine/bootstrap.go:76-92 | that run for four chains over two L1 outputs, on three UTXOs |
| `L1Sizes.RunKeepsSized` | internal/engine/bootstrap.go:46-47 | started with the same parameters every time, and as long as stage writes succeed, what the store and the queue hold at each stage has the size that ceilDiv(numChains, fanoutSize) says |
| `ProgressSteps.RunKeepsEpoch` | internal/engine/bootstrap.go:185-272 | in every state of an L2 fanout the durable UTXOs are accounted for parent by parent |
| `Value.ValueIsConserved` | internal/store/store.go:224-257 | in every state of every run the funding equals the durable value plus the fees of the committed transactions |
| `Built.RunBuiltIn` | internal/engine/bootstrap.go:244-272 | in every state of every run, everything attempted, recorded or committed is a transaction that the builder of its kind returns for its input under a mode the process was configured with, pays out no more than it takes in, and as a fanout has only positive outputs |
| `Widths.WidthsSumToChains` | internal/engine/bootstrap.go:311-320 | the widths of all parents add up to exactly numChains |
| `Widths.WidthsArePositive` | internal/engine/bootstrap.go:311-320 | no parent is left without outputs, and none with a single one when there are two chains per parent |
| `Widths.WidthsFitFanoutSize` | internal/engine/bootstrap.go:302-320 | with ceilDiv(numChains, fanoutSize) parents every width lies between 1 and fanoutSize |
| `Widths.L1WidthFitsIff` | internal/engine/engine.go:85-86 | the L1 fanout respects the fanout size if and only if there are at most fanoutSize squared chains |
| `Widths.L1WidthCanExceed` | internal/engine/bootstrap.go:46 | five chains of fanout size two: an L1 fanout of three outputs |
| `Widths.CeilDivIsLeast` | internal/engine/bootstrap.go:302-307 | ceilDiv is the least number of groups that hold n |
| `Fanout.FanoutParent` | internal/engine/bootstrap.go:244-272 | for every mix of build, save, broadcast, clear and commit outcomes the parent is requeued, replaced, or left durable with its record; a requeued one has a record of this fanout exactly if the clear of its last attempt failed; the rest of store and queue is unchanged |
| `Fanout.Collect` | internal/engine/bootstrap.go:209-233 | every output of an accepted fanout is queued, and success means none failed and the count is numChains |
| `Chain.BroadcastWithRetry` | internal/engine/bootstrap.go:280-299 | at most three attempts, success exactly when one is made and accepted; which attempts are made, and after a failure a record exactly if the clear of the last one failed |
| `Chain.RunChain` | internal/engine/chain.go:51-109 | for any failures the chain stands at the tip of its committed hops and the store holds exactly that tip of it; it is exhausted exactly after ceil(value/fee) hops; hindered by refusals only, it makes one hop for each accepted broadcast until then; a failed commit leaves its record |
| `Chain.OneTurn` | internal/engine/chain.go:67-96 | only a commit moves the chain on, and only a failed clear or commit leaves a record |
| `Sequential.FanoutPlays` | internal/engine/bootstrap.go:244-299 | every end of fanoutParent, with what it leaves in the store, is reached by a sequence of actions of that parent's goroutine in the step system |
| `Sequential.TurnPlays` | internal/engine/chain.go:51-109 | so is every turn of runChain |
| `Chain.HopsToTheEnd` | internal/txbuilder/builder.go:108-134 | the value is positive after k hops exactly while k is below ceil(value/fee) |
| `Chain.TipValue` | internal/txbuilder/builder.go:116-119 | each hop pays the fee and the last one the rest, so the fees of an exhausted chain add up to its value |
| `Chain.SpentTips` | internal/engine/chain.go:89-104 | every earlier tip has left the store |
| `Chain.CurrentTip` | internal/store/store.go:226-230 | the current tip is durable, and a final output of value zero never is |
| `Chain.OtherOutpoints` | internal/engine/chain.go:51-109 | a chain touches nothing but its own tips |
| `TxBuilder.NoOverflow` | internal/txbuilder/builder.go:64-71 | no 64-bit step of size or fee wraps, in either mode, for any count the builder accepts |
| `TxBuilder.FanoutOutcome` | internal/txbuilder/builder.go:45-100 | a fanout builds exactly when it fits and covers the fee and one satoshi per output, and then splits the value into n equal outputs and the size-based fee, with fewer than n satoshis left over for the miner |
| `TxBuilder.FanoutShareExact` | internal/txbuilder/builder.go:49-78 | which error each refused input gets, and the exact division of an accepted one |
| `TxBuilder.MakeFanout` | internal/txbuilder/builder.go:80-99 | the loops produce the transaction and, in vout order, its outputs as UTXOs |
| `TxBuilder.SerializedLength` | internal/txbuilder/builder.go:64-66 | the priced size is the length of the serialized one-input transaction |
| `TxBuilder.CompactSizeRoundTrip` | internal/txbuilder/mode.go:162-173 | the variable-length count has the priced size and can be read back from the front of any bytes |
| `StoreSpec.CommitIsSpend` | internal/store/store.go:224-257 | committing a transaction removes its input and record and adds exactly its positive outputs |
| `StoreSpec.UtxoKeyInjective` | internal/store/store.go:260-265 | two outpoints share a bucket key only if they are equal |
| `Store.Store.CommitPending` | internal/store/store.go:224-257 | one atomic update, or no change when it fails |
| `Store.Store.SavePending` | internal/store/store.go:175-189 | the record is stored under its txid with a time, and a record without txid is refused |
| `Store.Store.ClearPending` | internal/store/store.go:192-196 | only the record of the txid goes |
| `Store.Store.SaveUTXO` | internal/store/store.go:122-130 | the UTXO is stored under its outpoint and nothing else changes |
| `Store.Store.SetStage` | internal/store/store.go:168-172 | only the stage changes |
| `Queue.Queue.Push` | internal/engine/queue.go:33-37 | one more UTXO, and the heap stays a heap |
| `Queue.Queue.PushPersisted` | internal/engine/queue.go:40-48 | queued in any case and saved unless the store fails |
| `Queue.Queue.Pop` | internal/engine/queue.go:51-58 | an oldest UTXO leaves and the rest stays; an empty queue gives none |
| `Queue.Queue.Drain` | internal/engine/queue.go:61-69 | everything leaves as a sorted permutation, and for heights below 2^62 no unconfirmed UTXO precedes a confirmed one |
| `Queue.Queue.PersistAll` | internal/engine/queue.go:79-92 | every queued UTXO is saved up to the first failure |
| `Queue.Queue.Restore` | internal/engine/queue.go:95-110 | the queue becomes exactly the values of the store |
| `Heap.Up` | internal/engine/queue.go:121-152 | sifting up restores the heap order and keeps the contents |
| `Heap.Down` | internal/engine/queue.go:121-152 | sifting down restores the heap order and keeps the contents |
| `Heap.RootIsLeast` | internal/engine/queue.go:127-130 | nothing in a heap sorts before its root |
| `Funding.MaxOutputs` | scripts/initial-funding.ts:320-335 | the doubling and bisection return the largest count that fits the byte cap, and its safe-integer guard never decides |
| `Funding.BuildFundingPlan` | scripts/initial-funding.ts:242-318 | a plan is refused exactly when the chain count is out of range, an explicit size does not fit, or the L1 transaction does not; otherwise it is the plan the theorems speak of |
| `Funding.MaxRequired` | scripts/initial-funding.ts:348-358 | the largest requirement of any parent, and some parent has it |
| `Funding.MaxL2Bytes` | scripts/initial-funding.ts:337-346 | the largest L2 transaction size, and some parent has it |
| `Funding.EstimateIsExact` | scripts/initial-funding.ts:366-375 | the planner's sizes and fees are those the Go builder charges |
| `Funding.PlanFits` | scripts/initial-funding.ts:259-267 | the L1 and every L2 transaction of a returned plan respect the byte cap |
| `Funding.PlanSuffices` | scripts/initial-funding.ts:264-269 | seeded with the planned value the engine's L1 fanout gives each output exactly the planned value, and every L2 fanout gives each chain at least the leaf value; accepted exactly when within the engine's own size limit |
| `Funding.PlanReachesTarget` | scripts/initial-funding.ts:255-258 | chains of the leaf value make at least tps times duration hops in total, each paying the full fee |
| `Funding.PlanIsTight` | scripts/initial-funding.ts:348-358 | with one satoshi less the L1 outputs fall below the planned value, and whenever they do some L2 fanout is refused or leaves its chains below the leaf value |
| `FundingRun.PlanIsExact` | scripts/initial-funding.ts:242-318 | run by the engine with the parameters of the plan, a funding output is split by both fanouts, in whatever order the L1 outputs are drained, into chains of at least the leaf value if and only if it is worth at least the planned amount and the planned transactions respect the engine's size limit |
| `FundingRun.PlanPaysForTheRun` | scripts/initial-funding.ts:255-269 | it then becomes ceilDiv(numChains, fanoutSize) L1 outputs and numChains chains at different outpoints, which together make at least tps times duration transactions |
| `FundingRun.OneSatoshiLess` | scripts/initial-funding.ts:348-358 | with one satoshi less the L1 fanout is refused, or some L2 fanout is, or some chain starts below the leaf value |
| `FundedRuns.PlanHoldsInRuns` | scripts/initial-funding.ts:242-318 | in every run of the engine with the parameters of the plan and one funding output, through any crashes, replays and failures: when the L2 fanout completes there are numChains chains, all of at least the leaf value if and only if the funding output was worth the planned amount, and then they make at least tps times duration transactions |
| `RebuildRuns.OneOutputRepeatsL1` | internal/engine/bootstrap.go:60-62 | with a single L1 output, a run in which a crash between the commit of the L1 fanout and its mark makes the next launch repeat it on its output |
| `Lineage.RunDescends` | internal/engine/bootstrap.go:143-240 | in such runs nothing is spent before the L2 fanout but the funding output, by one L1 transaction, and nothing during it but that transaction's outputs |
| `Wake.NoLostWakeup` | internal/engine/chain.go:111-179 | in every interleaving a chain blocked with an outdated rate can wake, or a call in progress has yet to replace or close its channel |
| `Wake.AllCallsReturned` | internal/engine/engine.go:238-254 | once every SetTPS has returned each such chain can wake |
| `Wake.BroadcastReachesWaiters` | internal/engine/notify.go:24-31 | a broadcast reaches every chain that was waiting, whatever the rates |
| `Wake.NoDoubleClose` | internal/engine/notify.go:24-31 | no channel is closed twice, however many calls overlap |
| `Sse.ReadEvents` | internal/sse/sse.go:345-366 | the loop hands over exactly the joined data values between blank lines, and what is left at the end |
| `Sse.ReaderRecovers` | internal/sse/sse.go:345-366 | for any mix of data, skipped and blank lines, both line endings, with or without the space, and a connection that breaks off, the events are those the lines carry |
| `Sse.EncodeIsInterleaved` | internal/sse/sse.go:345-366 | every plain encoding is an interleaved one, so the round trip speaks of it |
| `Sse.RoundTrip` | internal/sse/sse.go:345-366 | encoded payloads, with comments and other fields anywhere between their lines, arrive as sent if and only if lines end in CRLF or no payload line ends in a carriage return |
| `Notifier.Notifier.ShouldSend` | internal/notifier/notifier.go:118-132 | the pruned map answers as the full history would, sends of one key are a window apart, and the map holds only the current window |
| `Notifier.MapAnswers` | internal/notifier/notifier.go:121-124 | a key is in the map and recent if and only if it was sent within the window |
| `Backoff.Exponential` | internal/backoff/backoff.go:74-89 | the loop computes the specified delay and never leaves 64 bits |
| `Backoff.DelayGrows` | internal/backoff/backoff.go:72-89 | delays never shrink with the attempt and lie between base and limit |
| `Backoff.CappedDoublingCanFail` | internal/backoff/backoff.go:83-85 | an input for which the delay is one above the documented value |
| `Backoff.CappedDoublingIff` | internal/backoff/backoff.go:72-73 | the documented capped doubling holds exactly unless the doubled value is one below the limit, and is exceeded by at most one |

## Left out

- HTTP clients and server, configuration, metrics, logging, Slack posting: input and output without invariants of their own.
- Signing, the Extended Format, hashing and gob: library code; building is a deterministic function of the UTXO, the count and the mode, and txids are structural.
- bbolt: each update is taken to be atomic and durable, and a failed one to change nothing; a stored UTXO that does not decode is not modelled.
- Time: timers, jitter and the floating-point interval of a chain are events that may happen at any point.
- Lifecycle fields and error records of the engine's state, and running without a store.
- Attempts of a fanout: the step system retries any number of times; the bound of three is proved of `Chain.BroadcastWithRetry`.
- Drain order among equal heights: the step system allows any order of the queue; `Queue.Queue.Drain` proves the sorted one. The order that the heap makes of equal heights depends on how they were pushed, by vout or in bucket key order, and is not modelled; the failing runs of `RebuildRuns` use two orders of equal heights.
- Funding: new outputs are taken to be external, positive and not seen before; a source that reports the engine's own outputs is not modelled. They are saved in one step, of which a crash in the middle of saving is the step with fewer outputs.
- Txid order: `rank` stands for the comparison of txids that breaks ties between records of equal time.
- Parameters set over HTTP are not persisted, so the statement about a restart assumes the same ones.
- Damage to the state file: a record may be damaged or added while the process is down; damage while it runs, or to the other buckets, is not modelled.
- FundedRuns.PlanHoldsInRuns: speaks of two L1 outputs or more and two chains for each; for a single L1 output and for fewer chains there are runs in which a fanout is repeated on the outputs of another (`RebuildRuns.OneOutputRepeatsL1`, `L2Runs.NarrowGoesWrong`), and what the chains are worth then is not stated.
- Failed stage writes: the results on stages, sizes, resuming and rebuilding assume that stage writes succeed (`metaOk`); safety, crash recovery, value and the block on unreplayable records do not.
- JavaScript floating point: Math.ceil and Math.sqrt are taken as exact on safe integers; prompts, the wallet and the broadcast of the funding script are not modelled.
- Stream limits: the maximum line length of the event-stream scanner and the idle watchdog.
- Reorg heights, instance tags and script hashes: small computations that would only add easy members.
