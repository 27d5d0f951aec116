# grevm, verified

A Dafny model of grevm, an optimistic parallel executor for blocks of EVM transactions, with proofs that
it computes what executing the block one transaction at a time computes.

## The system

Workers execute transactions speculatively against a multi-version memory, record which version of every
location they read, and publish their writes under an incarnation number. Validation scans the recorded
versions again; a changed or estimated version sends the transaction back. Rewinds of the validation
cursor carry timestamps from a logical clock, and a single finality loop accepts a transaction only when
its validation is newer than every rewind at or before it. A single commit loop applies final results in
order, checks nonces, and anything it cannot accept is replayed sequentially from the committed boundary.

The project follows that structure.

| files | what they hold |
|---|---|
| `Types`, `Block` | locations, values, transactions as deterministic programs, their sequential execution over locations |
| `Protocol` | the speculate / validate / finalize / commit protocol as a state machine, one shared-memory access per step |
| `ProtocolInvariant`, `ProtocolFrame`, `ProtocolSteps`, `ProtocolPublish`, `ProtocolValidate`, `ProtocolCommit` | what every step keeps |
| `SteadyReads`, `Serializability`, `LastAttempt`, `AbortCause` | theorems over all runs of that machine |
| `Reachability`, `UnsteadyRun`, `FatalRun` | building runs, and two of them that end wrongly |
| `DependencyGraph`, `Scheduling`, `SchedulingInvariant`, `SchedulingSteps`, `Progress` | the dependency graph (functions and a class), the scheduler as a second state machine, no lost work and no deadlock |
| `Joint`, `JointSteps`, `JointProgress` | both machines as one system that neither deadlocks nor commits anything else |
| `Frontier`, `Cursor` | the lock-free execution frontier and the rewindable cursor, thread by thread |
| `Accounts`, `Publication`, `IncarnationDb` | account lifecycles, publishing them to memory, resolving them back |
| `Beneficiary`, `Reward` | the reward history of the block's beneficiary, and when a reward may be folded or combined |
| `Evm`, `Settlement`, `Lowering`, `WorldBlock`, `SlotReads`, `SoundReads` | transactions over accounts and slots, their fee deferred or paid at once, lowered to locations, the sequential reference on a plain world, and when reads of slots are sequential |
| `StateCache`, `CacheFill`, `FallThrough` | the account and storage cache over the database, filling it while commits go on, and what falls through to it |
| `OrderedCommit`, `CommitLoop`, `Replay` | ordered commit and replay, running on that cache |
| `Control`, `EndToEnd` | one-shot control flow and the result of a whole block |
| `Reserve` | the delegated-balance reserve planner and journal undo |

`Protocol` leaves scheduling open: any eligible transaction may be claimed at any moment. `Scheduling` is
the complement: it fixes every cursor, edge, lock and timestamp and leaves open what an execution reads
and how it ends. `Joint` runs both in lockstep, each filling in what the other leaves open. Reading an
estimate may return anything in `Protocol`, and the database view of a doomed attempt may return
anything too; both only add runs.

Two properties one would expect of the code do not hold, and are proved with their conditions.

- Validation checks one version per location, the last one recorded. A storage reset is looked up again
  for every slot of its account (src/incarnation_db.rs:317-330), so an earlier lookup may have found
  something else. `UnsteadyRun.UnsteadyResultIsCommitted` is a run that commits the whole block with a
  receipt sequential execution does not give. A loaded slot is the sequential one exactly when the reset
  found for it and the reset recorded in the end mask it alike (`SlotReads.LoadedWordIsSequential`).
  Serializability over accounts holds whenever that is so for every slot that committed transactions
  loaded (`SoundReads.Sound`), and over any locations whenever no repeated lookup found another version
  (`Protocol.Steady`). An execution that begins at the finality index is always steady
  (`LastAttempt.LastAttemptIsSteady`).
- A fatal error at the commit head stops the block, but the failing execution may have begun before its
  predecessors were final. `FatalRun.FatalErrorMayBeUnreal` is such a run. The error is the one
  sequential execution meets if the execution began when everything before it was final and the nonce
  fits (`Control.GenuineIsMet`, and `Control.StopsExactly` for the equivalence behind it).

Workers and replay do not run the same thing. A worker skips the nonce check and may defer the fee to
ordered commit; replay checks the nonce and pays the fee at once. The sequential reference,
`WorldBlock.WorldReference`, is replay from the first transaction, and what workers commit is proved to be
a prefix of it, receipts and every account and slot (`WorldBlock.PrefixIsReference`, by
`Settlement.ModesAgree`).

Assumptions, each visible as a premise or in the step model:

- Memory is sequentially consistent, each atomic access or critical section with one shared update is a step.
- An execution is a function of what its lookups found. The journal keeps accounts, code and slots, so those are looked up once; resets are looked up for every slot.
- Committed results are sound (`SoundReads.SoundLedger`), as said above: the resets that were found mask their slots as the recorded ones do, and no reset was found missing that was final before the lookup was repeated.
- The nonce check is only a check: at a matching nonce, in the world the block reaches the transaction with and with the fee paid at once on both sides, leaving it out gives the same error, or the same receipt and the same world afterwards (`WorldBlock.NonceOnly`).
- In the worlds the block reaches, a journal holds only accounts that were loaded (`Settlement.OnlyLoaded`) and is honest about the slots and code its surviving accounts started from (`WorldBlock.HonestBlock`, `Control.HonestReplays`), and clearing an account's code moves its nonce or balance, as the Behavior section of EIP-7702 requires (`Publication.KeepsCode`). Without the second, publication is wrong; `Publication.PublicationRefines` states the equivalence and `Publication.ClearedCodeIsLost` the failing family.
- Accounts with neither nonce nor code have no stored slots (`StateCache.NoOrphanSlots`).
- In `EndToEnd.ExecuteBlock` the cache is filled and committed to after the parallel phase, a miss in one step. The source does both beside the workers: `FallThrough.CacheShowsCommittedState` proves that workers cannot tell, and `CacheFill.LateFill` and `CacheFill.FillWithinCommit` state exactly when a late insertion leaves the cache as it should be.

Where code and comments disagree the code is followed. The comment on the barrier of a failed transaction
says that at the commit head the cursor is rewound immediately; the code does so only if no older blocker
is set, which `DependencyGraph.BarAtHead` states exactly. `Progress.NoLostRetry` shows that the older
blocker still leads to a retry.

## Model

| member | source | states |
|---|---|---|
| `Serializability.CommittedPrefixIsSequential` | src/scheduler.rs:230-381 | in every state of every run, as far as the committed results are steady, the committed receipts are those of executing the transactions one after another and every committed nonce matches the state before it; if all are steady, between commits the committed state is that of this execution |
| `Serializability.CommitInProgressIsSequential` | src/scheduler.rs:347-357 | while a steady result is applied on top of steady ones, what is in place plus what remains is the next sequential state |
| `Serializability.CommittedPrefixIsFinal` | src/scheduler.rs:230-381 | in every state of every run, steady or not, the committed receipts are those of the final results, every committed nonce matches what the results before it leave, and between commits the committed state is what they leave |
| `SteadyReads.SteadyIsSequential` | src/scheduler.rs:294-315 | in every reachable state, if the first final results are steady they are the results of executing those transactions one after another |
| `SteadyReads.RecordedIsInForce` | src/scheduler.rs:729-762 | the versions a final transaction recorded have the values that the results before it leave, whatever its other lookups found |
| `SlotReads.RecordedWordIsSequential` | src/incarnation_db.rs:316-356 | the reset and slot versions that validation checked amount to the sequential word |
| `SlotReads.LoadedWordIsSequential` | src/incarnation_db.rs:316-356 | a final transaction loaded the sequential word of a slot if and only if the reset it found then and the reset it recorded in the end give the same word, that is, both mask the slot, or neither does, or it is zero |
| `SoundReads.SoundIsSequential` | src/incarnation_db.rs:316-356 | if every slot that the first final transactions loaded is masked alike by the reset found and the reset recorded, their results are the sequential ones |
| `SoundReads.SteadyIsSound` | src/incarnation_db.rs:317-330 | a final result none of whose repeated lookups found another version is sound |
| `UnsteadyRun.UnsteadyResultIsCommitted` | src/incarnation_db.rs:317-330 | there is a run that commits a whole block, every read set valid, with a receipt that sequential execution does not give |
| `Serializability.FinalityIsStable` | src/scheduler.rs:294-315 | a final transaction keeps its result for the rest of the run, every version it read stays the latest preceding one and no estimate, and its validation stays newer than every rewind at or before it |
| `Serializability.ParallelErrorIsUnreachable` | src/scheduler.rs:329-345 | no run reaches any scheduler-inconsistency abort: wrong incarnation, stale history publication, missing or failed result, result taken twice |
| `Serializability.ConflictShowsEstimates` | src/scheduler.rs:764-784 | a conflicting transaction shows exactly its last write set and its history entry, all as estimates |
| `Serializability.RewindMayBeSkipped` | src/scheduler.rs:555-588 | in every run, while an unblocked incarnation without new locations publishes, trims and records, no lookup that anybody could accept before is rejected after |
| `Serializability.RunKeeps` | src/scheduler.rs:526-798 | the protocol invariant holds in every state of every run |
| `LastAttempt.LastAttemptValidates` | src/scheduler.rs:526-798 | in every run an execution begun when everything before its transaction is final is, while it is the current incarnation, never blocked and never rejected; success or error, it is what the transaction does on the state the final results leave |
| `LastAttempt.LastAttemptIsSequential` | src/scheduler.rs:526-798 | if the results before it are the sequential ones, such an execution ends as sequential execution does, error included |
| `LastAttempt.LastAttemptIsSteady` | src/incarnation_db.rs:317-330 | a success of such an execution is steady: memory below it does not change any more |
| `LastAttempt.LateFailureIsSequential` | src/scheduler.rs:656-663 | the error left behind by such an execution is the one sequential execution meets |
| `FatalRun.FatalErrorMayBeUnreal` | src/scheduler.rs:656-663 | there is a run that stops on the fatal error of a transaction that succeeds in order, because its execution began too early |
| `ProtocolSteps.ClaimExecutionKeeps` | src/scheduler.rs:815-833 | claiming an execution keeps the protocol invariant |
| `ProtocolSteps.ClaimValidationKeeps` | src/scheduler.rs:841-857 | claiming a validation keeps the protocol invariant |
| `ProtocolSteps.BeginExecutionKeeps` | src/scheduler.rs:535-549 | a task that enters under the lock matches its incarnation, and the invariant holds |
| `ProtocolSteps.LookupKeeps` | src/incarnation_db.rs:280-330 | a lookup, first or repeated, records the latest preceding version over what was recorded before, or blocks on an estimate, and what it found stays explained |
| `ProtocolSteps.ResolveFinal` | src/incarnation_db.rs:284-302 | the memory of a final prefix resolves every location to what the results of that prefix leave |
| `ProtocolSteps.FetchKeeps` | src/incarnation_db.rs:294-302 | a read that falls through to committed state sees what the block started from, or belongs to an attempt that cannot validate |
| `ProtocolPublish.PublishKeeps` | src/incarnation_db.rs:204-216 | publishing one location keeps the invariant and every accepted validation |
| `ProtocolPublish.TrimKeeps` | src/scheduler.rs:579-585 | removing a location no longer written keeps the invariant |
| `ProtocolPublish.RecordKeeps` | src/scheduler.rs:590-602 | publishing the history entry keeps the invariant, as an estimate if the attempt was blocked |
| `ProtocolPublish.ConcludeKeeps` | src/scheduler.rs:614-686 | storing the result and changing the status keeps the invariant, whether validated at once, rewound or handed off |
| `ProtocolPublish.MarkFailedKeeps` | src/scheduler.rs:629-633 | marking the writes of a failed execution as estimates keeps the invariant |
| `ProtocolPublish.DiscardKeeps` | src/scheduler.rs:634-664 | putting a failure on record keeps the invariant; which abort it causes is in `AbortCause.FailureDecides` |
| `AbortCause.FailureDecides` | src/scheduler.rs:646-664 | over every run that has not aborted: a failure put on record behind the commit head, or after reading an estimate, aborts nothing; at the head an invalid transaction aborts to sequential replay and a fatal error stops the block, and that stays the cause |
| `AbortCause.AbortWasRaised` | src/scheduler/control.rs:129-138 | every abort cause of every run was raised by one step and kept: a fatal error only by putting a fatal error of the transaction at the commit head on record, a failed commit only by a database failure, a fallback only by an invalid transaction at the head or a nonce that does not match |
| `AbortCause.CleanRunFallsBack` | src/scheduler.rs:656-662 | a run in which no execution puts a fatal error on record and the database answers aborts only to fall back |
| `ProtocolPublish.DropKeeps` | src/scheduler.rs:667-679 | marking the failed transaction as in conflict keeps the invariant |
| `ProtocolValidate.StampKeeps` | src/scheduler/context.rs:102-110 | drawing a rewind timestamp keeps the invariant |
| `ProtocolValidate.LowerKeeps` | src/scheduler/context.rs:110-115 | publishing a rewind timestamp keeps the invariant |
| `ProtocolValidate.BeginValidationKeeps` | src/scheduler.rs:690-723 | the timestamp is drawn before the scan; the result is there, of this incarnation and no failure |
| `ProtocolValidate.CheckKeeps` | src/scheduler.rs:729-762 | checking one recorded version against the latest preceding one keeps the invariant |
| `ProtocolValidate.EndScanKeeps` | src/scheduler.rs:763-784 | accepting or rejecting after the scan keeps the invariant |
| `ProtocolValidate.MarkKeeps` | src/scheduler.rs:805-813 | marking the writes of a rejected incarnation keeps the invariant |
| `ProtocolValidate.InvalidateKeeps` | src/scheduler.rs:764-784 | turning the history entry into an estimate and rewinding the suffix keeps the invariant |
| `ProtocolCommit.FinalizeKeeps` | src/scheduler.rs:240-266 | making a candidate final keeps the invariant |
| `ProtocolCommit.TakeResultKeeps` | src/scheduler.rs:326-349 | taking a final result and checking its nonce keeps the invariant |
| `ProtocolCommit.ApplyWriteKeeps` | src/parallel_state.rs:280-288 | applying one committed location keeps the invariant |
| `ProtocolCommit.PublishCommitKeeps` | src/scheduler.rs:350-357 | publishing the committed boundary keeps the invariant |
| `Progress.NoLostRetry` | src/tx_dependency.rs:42-157 | in every reachable state a transaction that must run again is in a worker's hands, or its lock holder is about to put it back, or it is onboard and: unblocked and still ahead of the cursor or just taken from it, or behind its own commit boundary, or behind an earlier transaction with a reverse edge to it that is being swept with that edge to come or is itself still active |
| `Progress.NoLostValidation` | src/scheduler/context.rs:102-115 | in every reachable state an executed transaction, or a validated one not newer than a rewind at or before it, locked or not, will be reached: the cursor is at or below it, a claim of it is in flight, or a rewind that covers it is under way |
| `Progress.NoDeadlock` | src/scheduler.rs:835-866 | in every reachable state of an unfinished block some step is enabled that is not an idle spin and waits for no lock |
| `Progress.QuietMeansDone` | src/scheduler.rs:240-276 | when nothing is in flight, both cursors are exhausted and commit has caught up, either the next transaction can become final or the whole block is final and committed |
| `Progress.NothingWaits` | src/tx_dependency.rs:107-157 | the chain of blockers is well-founded: when nothing is in flight nothing up to the finality index is left waiting |
| `Progress.FailedWaitsForItsCommit` | src/tx_dependency.rs:102-117 | over every run: a transaction that failed unblocked ahead of the commit head cannot be claimed and is handed to nobody until its own commit boundary is published, unless it is added to the graph again |
| `Progress.SweepReleasesEverybody` | src/tx_dependency.rs:62-88 | when a sweep ends nobody waits for its transaction any more and no reverse edge is left |
| `JointSteps.PlanMatches` | src/tx_dependency.rs:42-157 | what the scheduler does alone keeps both machines at the same program points, statuses and timestamps |
| `JointSteps.WorkMatches` | src/scheduler.rs:526-784 | what executions, scans and commit do alone keeps them so |
| `JointSteps.BothMatch` | src/scheduler.rs:526-866 | and so does what they do together: claims, task starts, ends, rewinds, verdicts, finality and commit |
| `JointProgress.CommitsSequentially` | src/scheduler.rs:230-381 | in every state of every run of the whole system, if everything committed is steady it is sequential |
| `JointProgress.NoDeadlock` | src/scheduler.rs:526-866 | in every state of every run of the whole system that is neither aborted nor has committed the block, some move is possible that is no idle spin and waits for no lock, whatever executions read and however they end |
| `SchedulingSteps.StepKeeps` | src/scheduler.rs:526-866 | every step of the scheduler keeps the invariant that no retry and no validation is lost |
| `SchedulingSteps.SweepKeeps` | src/tx_dependency.rs:72-84 | examining one reverse edge, by the owner or by a useless claim, loses no retry, direct hand-off included |
| `SchedulingSteps.StartKeeps` | src/scheduler.rs:815-833 | a claim that starts, is dropped as a duplicate, or turns into a release loses nothing |
| `SchedulingSteps.ErrorKeeps` | src/tx_dependency.rs:107-118 | a barrier installed against any commit position is still to be lifted, or not installed |
| `SchedulingSteps.UnbarKeeps` | src/tx_dependency.rs:91-100 | the commit that lifts a barrier puts the transaction back ahead of the cursor |
| `SchedulingSteps.LowerKeeps` | src/scheduler/context.rs:110-115 | everything a rewind makes stale is covered until the cursor has moved back |
| `DependencyGraph.BarrierAndCommitCommute` | src/tx_dependency.rs:91-118 | a commit and a barrier at its successor give the same graph in either order, with the successor claimable |
| `DependencyGraph.BarAtHead` | src/tx_dependency.rs:102-118 | at the commit head the transaction becomes claimable if and only if it had no blocker |
| `DependencyGraph.LinkedWaits` | src/tx_dependency.rs:119-157 | a linked transaction waits; other edges do not release it, its own edge hands it off or offers it to the cursor |
| `DependencyGraph.TxDependency.Next` | src/tx_dependency.rs:42-56 | the cursor moves by one and hands out what it passed exactly if that is onboard and unblocked |
| `DependencyGraph.TxDependency.Remove` | src/tx_dependency.rs:62-88 | in any order of edges: exactly the dependents that still wait for it are released, each claimable with the cursor at or before it, all others stay as they were; the successor is handed out instead at most once, if asked for and only when the cursor has passed it |
| `DependencyGraph.TxDependency.Commit` | src/tx_dependency.rs:90-100 | the successor's blocker is cleared and the cursor comes back to it, if it is onboard |
| `DependencyGraph.TxDependency.KeyTx` | src/tx_dependency.rs:102-118 | ahead of the commit head the transaction waits for its own boundary and the cursor stays; at the head it is claimable at once if nothing else blocks it |
| `DependencyGraph.BarredWaits` | src/tx_dependency.rs:90-118 | behind its own boundary a transaction cannot be claimed and the cursor stays; no examined edge, no other release and no new dependent changes that, its own release does |
| `DependencyGraph.TxDependency.Add` | src/tx_dependency.rs:119-157 | with a predecessor: the transaction waits for it, and it is onboard again with its own blocker and ahead of the cursor if it has none; without: claimable at once, unless it already sits in the graph, which is then left alone |
| `Frontier.FrontierIsSafe` | src/scheduler/context.rs:21-67 | under every interleaving the frontier never passes an index that has not executed |
| `Frontier.FrontierIsMonotonic` | src/scheduler/context.rs:21-34 | the frontier never moves back |
| `Frontier.QuietFrontierIsExact` | src/scheduler/context.rs:36-67 | once every call has returned the frontier is the first index not executed |
| `Frontier.PublishedIsExecuted` | src/scheduler/context.rs:40-53 | a published index is executed by the time `publish` returns, whichever way it returns |
| `Frontier.CurrentMovesOn` | src/scheduler/context.rs:58-67 | a reader that finds the frontier at an executed index does not return before the frontier has moved past it |
| `Cursor.ClaimsStayBelowTheLimit` | src/scheduler/cursor.rs:81-95 | no thread is handed an index at or past its limit |
| `Cursor.LoadThenSwap` | src/scheduler/cursor.rs:82-95 | after a load below the limit the next swap of that thread hands out the loaded index exactly if the cursor is there and the swap is not spurious; a load at or past the limit ends the call with nothing |
| `Cursor.RewoundIndicesAreReissued` | src/scheduler/cursor.rs:112-120 | after a rewind every index from there up is handed out again before the cursor passes it |
| `Cursor.NoDoubleClaim` | src/scheduler/cursor.rs:81-95 | an index is handed out twice only with a rewind to it or below it in between |
| `Publication.PublicationRefines` | src/incarnation_db.rs:116-188 | publishing a transaction and resolving afterwards is applying its accounts to the world, for every account and slot, if and only if no account loses its code without a nonce or balance change |
| `Publication.PublicationsRefine` | src/incarnation_db.rs:116-356 | the same for every sequence of finalized account changes and every reader, code included |
| `Publication.ClearedCodeIsLost` | src/incarnation_db.rs:149-175 | clearing code alone publishes nothing and the old code keeps resolving |
| `Publication.SlotNext` | src/incarnation_db.rs:316-356 | deletion and creation mask older slots, slots of the same transaction beat its reset, other updates keep the rest |
| `Publication.OnlyChangedSlotsArePublished` | src/incarnation_db.rs:177-185 | a slot is in the write set if and only if its account survives and the slot ends with another value than it started from |
| `Publication.UnchangedAccountIsNotPublished` | src/incarnation_db.rs:149-175 | an account that ends as it was read is not in the write set, and neither is its code |
| `Publication.AccountNext` | src/account.rs:22-36 | an account resolves to its lifecycle's result if and only if its code is not lost |
| `Publication.CodeStaysResolvable` | src/incarnation_db.rs:218-246 | the code resolved for every account with code is the code with its hash, after every publication |
| `Publication.BeneficiaryNext` | src/beneficiary/history.rs:82-102 | the recorded effect takes the beneficiary's account to its account after the transaction |
| `IncarnationDb.Incarnation.PublishWrites` | src/incarnation_db.rs:116-188 | in any order of accounts and slots, exactly the specified writes are published under this incarnation and nothing else changes |
| `IncarnationDb.Incarnation.PublishDeletion` | src/incarnation_db.rs:121-132 | a deleted account publishes its absence and a storage reset, and nothing else changes |
| `IncarnationDb.Incarnation.PublishSurvivor` | src/incarnation_db.rs:133-175 | a surviving account publishes a reset if it is new, its code if that changed, and itself if anything did |
| `IncarnationDb.Incarnation.ReadStorage` | src/incarnation_db.rs:316-356 | a slot read is the resolved slot; for both locations the version recorded is the one the protocol finds in the same memory: current unless an estimate was found, whose writer then blocks |
| `IncarnationDb.Incarnation.Lookup` | src/incarnation_db.rs:280-302 | over every memory with the same entries grouped by transaction, the recorded version is current if and only if no estimate was found, and the writer of an estimate blocks |
| `IncarnationDb.RecordedStaysCurrent` | src/incarnation_db.rs:284-293 | a recorded version is current in a later memory if and only if the last writer is the same, in the same incarnation, and shows no estimate |
| `IncarnationDb.RepublishedIsStale` | src/incarnation_db.rs:290 | once the entry that was read is published again by a newer incarnation the recorded version is no longer current |
| `IncarnationDb.Incarnation.ReadBasic` | src/incarnation_db.rs:255-310 | an account read with its code: the whole new read set, blockers and snapshots, each recorded version current unless an estimate was found, whose writer then blocks; the beneficiary is the fold of its history with those origins recorded, or blocks on the nearest estimate |
| `IncarnationDb.LookupSeesPrefix` | src/incarnation_db.rs:284-302 | a lookup before a transaction sees what the transactions before it leave, whatever the order of publication |
| `IncarnationDb.NewestIsLatest` | src/incarnation_db.rs:284-302 | the last writer found in a location's versions is the last writer the protocol machine finds |
| `Beneficiary.ResolvedIsFold` | src/beneficiary/history.rs:173-182 | a resolved read is the in-order fold of the effects, whatever the entries hidden by a snapshot turn out to be |
| `Beneficiary.BlockedByNearestEstimate` | src/beneficiary/history.rs:261-297 | a read fails with a writer exactly if that is the nearest estimate no snapshot cuts off |
| `Beneficiary.ValidReadsAreCurrent` | src/beneficiary/history.rs:136-156 | a read and its validation each take their entries one by one with publications and invalidations in between; if the chains of origins are equal, so is the account |
| `Reward.CombiningRewards` | src/beneficiary/history.rs:173-182 | adding up any rewards before crediting them is crediting them in transaction order if and only if the balance takes their sum, or none of them alone |
| `Beneficiary.BeneficiaryHistory.Walk` | src/beneficiary/history.rs:261-297 | the backward loop collects the specified scan |
| `Beneficiary.BeneficiaryHistory.ResolveBefore` | src/beneficiary/history.rs:212-214 | the account is the fold of every completion of the entries, or the blocker is the nearest relevant estimate |
| `Beneficiary.BeneficiaryHistory.Record` | src/beneficiary/history.rs:136-144 | only a newer incarnation is published; an older one changes nothing |
| `Beneficiary.BeneficiaryHistory.RecordExecution` | src/beneficiary/history.rs:220-231 | the effect is the deferred reward or what the journal account says |
| `Beneficiary.BeneficiaryHistory.Invalidate` | src/beneficiary/history.rs:147-156 | exactly the inspected incarnation becomes an estimate |
| `Beneficiary.BeneficiaryHistory.Validate` | src/beneficiary/history.rs:250-259 | valid exactly if the chain of origins is unchanged; otherwise the dependency is the estimate, or the newest origin |
| `Lowering.LoweringIsFaithful` | src/incarnation_db.rs:255-356 | running a transaction through memory locations, one reset lookup for every slot, ends as running it on the world those locations resolve to |
| `Lowering.FindingIsFaithful` | src/incarnation_db.rs:255-356 | the same for any lookups whose answers are true, even if repeated lookups of a location found different versions |
| `Settlement.SettledExecutes` | src/beneficiary/reward.rs:23-50 | an execution does what it does without its fee, then defers the fee, or pays it; it loads the beneficiary exactly if it pays one that has no changes |
| `Settlement.JournaledBeneficiaryIsPaid` | src/beneficiary/reward.rs:33-44 | in either mode a beneficiary with changes of its own keeps the nonce, code and slots of its journal account and gets the fee on top of its balance, or keeps its balance if that would overflow; only selfdestruction, or a zero fee on an empty account, removes it; every other account and slot is what the changes alone leave |
| `Settlement.OutsideBeneficiaryIsPaid` | src/beneficiary/reward.rs:33-48 | the same for a beneficiary without changes, on top of what the world holds; without a fee nothing changes |
| `Settlement.DeferredIsNotLoaded` | src/beneficiary/reward.rs:38-48 | a worker defers exactly a non-zero fee for a beneficiary outside the journal, and then does not load it; otherwise, and always in replay, nothing is left to ordered commit |
| `Settlement.ModesAgree` | src/beneficiary/reward.rs:12-50 | deferring the fee and paying it at once end in the same error, or the same receipt and the same world, whatever the journal holds |
| `Settlement.SettledIsHonest` | src/beneficiary/reward.rs:36-48 | paying the beneficiary keeps a journal publishable: its slots, code and snapshots stay true |
| `WorldBlock.SequentialStands` | src/incarnation_db.rs:255-356 | for every prefix, executing over locations resolves to the world of executing over accounts |
| `WorldBlock.CommitSucceeds` | src/scheduler/ordered_commit.rs:115-142 | what commits over locations succeeds on the world, with that receipt and a matching nonce |
| `WorldBlock.ReplayEndsAlike` | src/scheduler/fallback.rs:88-101 | replaying a transaction that a worker ran and commit accepted gives the worker's receipt and world |
| `WorldBlock.FailureIsSequential` | src/incarnation_db.rs:255-356 | what fails over locations fails over the world with the same error |
| `WorldBlock.ReplayFailsAlike` | src/scheduler/fallback.rs:88-101 | replaying a transaction that failed for a worker, its nonce matching, fails with the same error |
| `WorldBlock.PrefixIsReference` | src/scheduler/fallback.rs:107-137 | every prefix committed from deferred, unchecked runs is the prefix that checked replay paying at once produces: same receipts, same world |
| `WorldBlock.SenderIsResolved` | src/scheduler/ordered_commit.rs:115-124 | the sender that commit looks up is the sender's account in the world |
| `OrderedCommit.OrderedCommitter.Commit` | src/scheduler/ordered_commit.rs:103-159 | committed exactly when a present sender is at this nonce, or an absent one sends nonce 0, and the nonce is not the last one; failed exactly when a needed account cannot be loaded; committed, the cache answers like the world after the transaction and the outcome is appended, otherwise nothing changes |
| `Reward.FoldingIsCrediting` | src/scheduler/ordered_commit.rs:144-157 | folding a deferred reward into the committed changes is crediting it if and only if the credited account is not empty |
| `CommitLoop.ChangedWasLoaded` | src/parallel_state.rs:290-292 | every account a committed run changes was loaded into the cache before, by it or by an earlier run |
| `CommitLoop.CommitNext` | src/scheduler.rs:346-357 | one commit through the cache takes it to the next sequential world, all changed accounts being cached |
| `CommitLoop.CommitPrefix` | src/scheduler.rs:322-381 | committing in order through the cache ends on the sequential world of the prefix, one outcome per receipt |
| `Replay.RunLoaded` | src/scheduler/fallback.rs:88-95 | running a transaction against the cache ends as on the world the cache answers for, and everything asked for is cached |
| `Replay.ReplayOne` | src/scheduler/fallback.rs:88-153 | one replayed transaction: the last nonce is refused first; what it leaves is committed to the cache, an error leaves the world alone |
| `WorldBlock.LastNonceIsSkipped` | src/scheduler/fallback.rs:140-153 | a sender at the last nonce is not run: its transaction is skipped as invalid and the world left alone |
| `Control.PrefixStep` | src/scheduler/fallback.rs:107-137 | replaying one more transaction extends the prefix by its outcome, a skipped one included, or stops where the reference stops |
| `Control.StopsExactly` | src/scheduler/fallback.rs:126-131 | the reference stops after a prefix if and only if replaying the next transaction ends in that fatal error |
| `Control.LedgerSucceeds` | src/scheduler.rs:322-357 | everything a run has committed, if sound, succeeds with that receipt on the world before it |
| `Control.SoundLedgerIsSequential` | src/scheduler.rs:322-381 | if everything committed is sound, receipts, nonces and committed state are those of sequential execution over locations |
| `Control.CommittedIsPrefix` | src/scheduler.rs:383-401 | the installed outcomes and the state they come with are one prefix of the reference |
| `Control.GenuineIsMet` | src/scheduler/control.rs:88-101 | a fatal error is what replay meets on the next transaction, if its execution began when everything before it was final and its nonce fits |
| `Control.Scheduler.ReplayNext` | src/scheduler/fallback.rs:113-134 | one turn of the replay loop: the prefix grows by one outcome or the block stops with the reference |
| `Control.Scheduler.ReplaySuffix` | src/scheduler/fallback.rs:55-137 | replay from the committed boundary, nonces checked and fees paid at once, completes the reference or stops where and why the reference stops; a boundary that does not match changes nothing |
| `Control.Scheduler.PostExecute` | src/scheduler/control.rs:81-127 | every abort cause leads to completion, to the error it names with the outcomes as they were, or to the fatal error the reference stops on; a genuine fatal error is the one the reference stops on |
| `Control.Scheduler.FinishParallel` | src/scheduler.rs:383-401 | the committed outcomes are installed even on an error; the commit loop's own database error is returned before any recovery, a failed commit and a fatal error still on record are returned as such; a fatal error of an execution that began at the finality index is the reference's |
| `Control.Scheduler.ParallelExecuteInner` | src/scheduler.rs:407-501 | whichever way the block is executed it ends on a prefix of the reference, complete on success, and every error is traced to its cause |
| `Control.Scheduler.ParallelExecute` | src/scheduler/control.rs:43-79 | the first call ends with the outcomes and state of the reference or of a prefix of it; a second call is refused and changes nothing |
| `EndToEnd.CommittedAccountsAreSequential` | src/scheduler.rs:322-381 | in every state of every run whose committed results are sound, between commits, every receipt, account and slot resolved from committed state is that of replaying the committed prefix in order on the accounts |
| `EndToEnd.ExecuteBlock` | src/scheduler/control.rs:29-79 | a completed block whose committed results are sound has the outcomes of sequential execution that skips invalid transactions, and its cache answers like the world of that execution; a stopped one a prefix of both, with the cause of the error and when it is the reference's; if no execution, parallel or in order, ends in a fatal error and the database answers, it completes, whatever is invalid |
| `Reserve.ReservePlanner.RequiredAfter` | src/delegated_safety/reserve.rs:60-110 | whatever was asked before, the answer is the sum of the maximum spendings of the sender's later transactions, capped, and the largest word if one of them overflows |
| `Reserve.ReservePlanner.BuildIndex` | src/delegated_safety/reserve.rs:82-94 | every caller's transactions, ascending and complete |
| `Reserve.ReservePlanner.BuildSchedule` | src/delegated_safety/reserve.rs:95-109 | saturating suffix sums are capped exact sums |
| `Reserve.NextOwn` | src/delegated_safety/reserve.rs:123-128 | the cost after a transaction is the cost from the sender's first transaction strictly after it |
| `Reserve.UndoIsExact` | src/delegated_safety/reserve.rs:241-282 | in a journal that records what happened nothing saturates and the walk back is exact |
| `Reserve.BalanceBeforeEntry` | src/delegated_safety/reserve.rs:250-282 | the loop undoes the journal from the end down to the entry |
| `Reserve.FirstDebitsSince` | src/delegated_safety/reserve.rs:167-207 | each delegated source at its first debit, the single root value transfer aside |
| `Reserve.SourceLosesValue` | src/delegated_safety/reserve.rs:180-192 | the account a transfer or destruction debits is the one whose balance falls, whatever it was |
| `Reserve.RootMovesTheValue` | src/delegated_safety/reserve.rs:226-240 | a root transfer is one that takes exactly the transaction's value from its caller and, in a call, gives it to the target |
| `Reserve.DelegatedDebitsSince` | src/delegated_safety/reserve.rs:161-225 | each such source once, with its balance before that debit and its final balance |
| `Reserve.HasReserveViolation` | src/delegated_safety/handler.rs:355-381 | a violation is reported if and only if some debited account ends below both what it had before its first debit and what it will need |
| `Reserve.ReportsExactly` | src/delegated_safety/handler.rs:355-381 | a violation is reported if and only if the balance of some delegated account falls and ends below both its balance before the first fall and its later costs |
| `Reserve.AcceptedKeepsReserve` | src/delegated_safety/handler.rs:367-379 | in terms of balances: a delegated account whose balance falls at a transfer or destruction other than the root transfer ends, if accepted, with all it had before the first such fall or with all its later costs |
| `StateCache.ParallelState.Basic` | src/parallel_state.rs:527-544 | an account read through the cache is the account of the committed world |
| `StateCache.ParallelState.Storage` | src/parallel_state.rs:560-589 | a slot read through the cache is the slot of the committed world, cached account or not |
| `StateCache.ParallelState.ApplyAccount` | src/parallel_state.rs:296-382 | one committed account updates the cached account and slots as specified, and no others |
| `StateCache.WithoutTheDatabase` | src/parallel_state.rs:165-176 | uncached slots are answered without the database exactly if they were before, or the account is reset, or it changes for the first time after it was loaded without nonce and code |
| `StateCache.ParallelState.Commit` | src/parallel_state.rs:280-288 | after a commit the cache answers like the world the transaction leaves |
| `StateCache.CommitAgrees` | src/parallel_state.rs:296-361 | destroyed, created and cleared accounts read zero for slots not written; other updates keep the database's |
| `CacheFill.LateFill` | src/parallel_state.rs:560-589 | a slot looked up, and inserted between commits after any loads, fills and commits of its account, agrees with the committed world if and only if it is zero, or the slot has been cached meanwhile, or no commit that wiped the account changed it in between |
| `CacheFill.FillWithinCommit` | src/parallel_state.rs:311-346 | a slot inserted between the removal of an account's slots and the change of the account agrees in the end if and only if it is zero or the commit writes that slot |
| `CacheFill.DestroyedSlotReturns` | src/parallel_state.rs:311-318 | the failing family: a stored slot inserted after its account was wiped and destroyed is cached although the account has none |
| `CacheFill.EventsAreGood` | src/parallel_state.rs:296-361 | accounts inserted late and slots filled between commits agree with the world through any sequence of commits, the slots being removed before the account changes |
| `FallThrough.CacheShowsCommittedState` | src/parallel_state.rs:527-589 | in every state of every run whose final results are the sequential ones, with any part of the final changes committed to the cache and any slots inserted late, an attempt that falls through to the cache reads the account and slot that committed locations show, or it is doomed |

## Left out

- Fatal errors: when the failing execution began too early, or its nonce does not fit, only the prefix is claimed; nothing is said of how often that happens.
- Unsound results: nothing is claimed of what follows a committed result that is not sound, and that a transaction may compute the same from a wrong slot is not shown.
- Progress.NoDeadlock: states that a step is enabled, as `JointProgress.NoDeadlock` does for the whole system, not that fair scheduling terminates; `LastAttempt.LastAttemptValidates` bounds retries at the finality index only.
- Protocol.CanFinalize: the validation-cursor test of the finality candidate is dropped from the guard, which only adds runs; `Progress.Candidate` has it.
- Joint.Match: while a lock holder moves the validation cursor or links a transaction again, the protocol already treats the transaction as unlocked, which only adds runs.
- Weak memory: relaxed and acquire/release orderings are taken as sequentially consistent.
- StateCache.ParallelState.Storage: is one atomic step here and in everything built on it; `CacheFill` has the steps one by one, and the end-to-end results do not cover its failing cases.
- Database failures: modelled where commit and the beneficiary anchor read the database; other database errors are fatal execution errors.
- Code in the cache: cached accounts carry their code hash, and the code is taken from the block's `codeOf`.
- Abort without a reason and panic cancellation: unwinding, parking, wake-ups and timeouts are not modelled.
- Account status and bundles: the status table is reduced to how much storage is known; transitions, reverts and bundle merging are left out.
- EVM internals: interpreter, gas, refunds, precompiles, reward amounts from gas, and what the handler does after a reserve violation.
- Block hashes and contract cache entries: plain fill-once lookups.
- Metrics, logging, configuration, command-line tools, benches and the historical designs under docs.
