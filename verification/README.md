# Sangria's commit protocol, verified

This project models the parts of the Sangria transactional store that decide whether transactions
come out right, and proves what they promise.

**The commit protocol.** A range of the range server takes a lock for a transaction, keeps a prepare
record, records in its pending commit table who may be depended on, and may release the lock before the
commit. A coordinator collects dependencies and then commits directly or delegates to the resolver. The
resolver keeps the dependency graph and cascades readiness. Group commit splits ready transactions into one
queue per range, commits the queues in parallel and counts down participants.

Each piece is modelled twice. As values: `RangeState`, `LockTables`, `ResolverState`, `GroupState` with one
function per lock-guarded block, and `CommitSystem` (System.dfy) with all of them as one state, 31 kinds of
step and every interleaving of steps as a run. And in place, as the source works: the classes `LockTable`,
`RangeManager`, `Resolver`, `GroupCommit` and `Transaction`, whose methods contain the source's loops and are
proved to take exactly those steps.

The invariant (SystemInvariant.dfy) has three layers, and each theorem is stated over the runs of its layer.
What ties the pieces together holds in **every run** (`IsRun`: every event was possible when it happened):
`SystemRuns`, `SystemDeps`, `SystemLetGo`. What the pending commit tables promise holds if one early-release
decision covers all keys of each prepare (`Decided`): `SystemTable`. What storage promises holds if in
addition no batch overtakes another (`Orderly`): `SystemOrder`. `SystemTheorems`, `SystemSerialRuns`,
`SystemSerializability`, `SystemStuck` and `SystemTermination` draw the consequences over whole runs.
`SystemHistory` and `SystemRecovery` show that what coordinators, resolver, registrations, flags and locks hold is
exactly what the events of the run say, and that nobody gets ahead of those it depends on. Runs that
show what breaks are written out in `SystemOvertaking`, `SystemMixed`, `SystemPanic`, `SystemTorn` and
`SystemDeadlock`, on top of `Scripts` and `OneRange`.

**Around it.** `MemTableDB`, a multi-version cache as a ring of memtables, against a plain multi-version map.
`Warden`, the assignment of base ranges to servers, with its partition over whole runs. `PrefetchingBuffer`,
two mutually inverse indexes and fetches guarded by sequence numbers.

## What turned out false, and when it holds

- Commits follow prepare order: group commit drops a group's lock before it sends the batch, so a later batch
  can reach the range first. `SystemOrder.CommitOrder` shows that order is kept exactly in runs where no batch
  overtakes an older one with a common key, and `SystemOvertaking.OvertakingHappens` gives a run that breaks it.
- One early-release decision per prepare: with LockContention the count is read again for each key, and the
  lock follows the first key. `SystemMixed.MixedDecisionsLoseAWrite` gives a run in which that loses a write,
  `SystemPanic.MixedDecisionsPanic` one after which a get panics, and `RangeManagers.OneDecisionIsNeeded` the exact
  condition under which every next writer is told.
- Reads and writes are serializable: a transaction that writes without having read can show its write in one
  range and not in another. `SystemTorn.TornReadWithoutLockPoint` gives a run whose reads no order explains.
  `SystemSerializability.Serializability` gives a sufficient condition, two phases: nobody lets go of a lock before
  it had the locks of all ranges it writes.
- Nobody waits forever: two transactions that write without having read can depend on each other.
  `SystemDeadlock.DeadlockWithoutLockPoint` gives a run that is stuck, `SystemStuck.DoneIffNoCycle` says exactly
  when a run gets stuck, and `SystemTermination.EveryoneGetsDone` shows that it never does, under any schedule,
  when every transaction holds its write locks at the beginning of its commit.
- Every range with a prepare record is told to commit: has_writes looks at puts only.
  `Coordinators.SingleDeleteIsNotTold` gives the failing client, `Coordinators.ToldIfPutsToo` the exact condition
  in the client's operations.
- A server that received ranges ends at most one above any other: a server that has ranges and comes back as an
  added one is in the heap twice. `WardenRounds.ComesBackUneven` shows three rounds that fail, and
  `Wardens.Compute` that all other servers that stay end even.
- MAX_VERSIONS_TO_KEEP is 5, but the oldest version is removed before the new one is inserted and only if there
  are more than 5, so 6 stay cached (`Wardens.Warden.KeepVersion`).

## Assumptions

Stated as preconditions or as conditions on runs, because the code relies on them and does not enforce them:

- a transaction id is submitted to the resolver once and prepares once per range (built into the steps of `CommitSystem`);
- nobody aborts after preparing, and calls to stores and ranges succeed;
- where named, one early-release decision covers all keys of a prepare (`Decided`);
- a participant with deletes also has a put, and a coordinator reports each participant once (`WorldOk`);
- where named, batches of a range do not overtake one another (`Orderly`), transactions let go of no lock before
  they had all locks of their writes (`TwoPhased`), or begin to commit with all of them (`LockPointed`);
- for the memtable, epochs never decrease across writes and no version is written twice;
- for the warden, reported range ids are distinct and its calls do not overlap;
- for the prefetching buffer, no transaction completes while a request of its own waits.

The outcomes of persistence, of gets and of prepares, the early-release decision and the order in which hash maps
are visited are parameters or arbitrary choices. Integers are unbounded: 64-bit wrap-around of epochs, versions
and sequence numbers is not modelled.

## Model

| member | source | states |
|---|---|---|
| SystemRuns.StepOk | rangeserver/src/range_manager/impl.rs:181-628 | Every one of the 31 kinds of step of ranges, coordinators, resolver and group commit keeps what ties them together, whatever batches overtake one another and whatever the early-release decisions |
| SystemRuns.RunOk | resolver/src/core/resolver.rs:65-267 | That holds at the end of every run, whatever the interleaving |
| SystemDeps.DepRunOk | rangeserver/src/range_manager/impl.rs:371-381 | In every run each pending commit table entry points to a transaction that prepared a write of its key and holds the lock, released it early or was submitted, and every dependency anyone was told of released a lock early or was submitted |
| SystemTable.TableStepOk | rangeserver/src/range_manager/impl.rs:357-388 | Every step that decides with one voice keeps the tables: entries point to the last writer, whose record is live, each writer was told of the previous one unless it is stored, and hand-offs follow the prepares |
| SystemTable.TableRunOk | rangeserver/src/range_manager/impl.rs:357-388 | The same over whole runs, overtaking or not |
| SystemTable.HandOffKeepsOrder | resolver/src/core/resolver.rs:83-141 | Delegation and registration hand transactions to group commit in an order in which every earlier writer of a common key comes first or is in storage on the direct path |
| SystemTable.GrowAt | resolver/src/core/resolver.rs:203-250 | The same for one pair of writers, by following the chain of previous writers back through the prepares |
| SystemOrder.OrderlyStepOk | rangeserver/src/range_manager/impl.rs:534-600 | Every step that decides with one voice and overtakes nobody keeps the whole invariant: storage too is what the prepare order says |
| SystemOrder.OrderlyRunOk | rangeserver/src/range_manager/impl.rs:534-600 | The same over whole runs |
| SystemOrder.CommitOrder | rangeserver/src/range_manager/impl.rs:357-419 | At the end of a run under one decision a prepare, any two transactions that prepared writes of one key have reached storage in prepare order, none skipped, if and only if no batch of a range overtook an older one with a common key |
| SystemOrder.OvertakingBreaksOrder | resolver/src/core/group_commit.rs:251-300 | Storing a batch while an older batch of the range with a common key is on its way always breaks the order |
| SystemOrder.BrokenStays | rangeserver/src/range_manager/impl.rs:534-560 | What has been stored out of order stays so, whatever follows |
| SystemOrder.DirectIsSafe | coordinator/src/transaction.rs:395-407 | A transaction without dependencies may be stored at once: every earlier writer of its keys is in storage |
| SystemOrder.BatchIsSafe | resolver/src/core/group_commit.rs:251-300 | A batch that overtakes nobody may be stored: every earlier writer of its keys is in storage or earlier in the batch |
| SystemOvertaking.OvertakingHappens | resolver/src/core/group_commit.rs:251-300 | For any four transactions and a range there is a run of the code's own steps in which a batch overtakes another and storage receives two writers of one key out of prepare order |
| SystemMixed.MixedDecisionsLoseAWrite | rangeserver/src/range_manager/impl.rs:402-418 | For any two transactions, a range and two keys there is a run without batches in which a lock is released early with one written key unflagged: the next writer of that key is told nothing and stored first, and storage ends with the older value |
| SystemPanic.MixedDecisionsPanic | rangeserver/src/range_manager/impl.rs:200-218 | For any three transactions and a range there is an orderly run, with a lock released early while one written key is unflagged, after which an entry of the pending commit table points to a record that is gone: the next get of its key panics |
| SystemTheorems.ReadsAreSerial | rangeserver/src/range_manager/impl.rs:189-239 | Under one decision a prepare, a get that finds its key pending returns the value of the last transaction that prepared a write of it in every run, and one that goes to storage does so in every run without overtaking |
| SystemRecovery.SeenIsSerial | rangeserver/src/range_manager/impl.rs:189-239 | Under one decision a prepare and without overtaking, every value that a client has ever seen was returned by one of its gets and was the value of the serial store at that moment |
| SystemHistory.SeenIsReturned | rangeserver/src/range_manager/impl.rs:196-237 | In every run a client has seen exactly what its gets returned, from a pending record or from storage, and a storage read is of the key that its get missed in the table |
| SystemHistory.DependsOn | coordinator/src/transaction.rs:126-278 | In every run a transaction depends on exactly those whose pending writes it has read, and those it has overwritten in a range that has answered its prepare; and its coordinator knows of an early release exactly once a prepare that released the lock early is answered |
| SystemHistory.StepMoves | coordinator/src/transaction.rs:103-150 | What each of the 31 kinds of step does to the dependencies, reads, answers and phase of one coordinator, and that it does nothing else to them |
| SystemRecovery.Recoverability | coordinator/src/transaction.rs:126-377 | In every run, whoever has read a pending write depends on its writer ever after, never goes direct, is in storage or told that it is done only once handed off, unless it writes nothing, and is handed off strictly after that writer, or once it is in storage everywhere and registered |
| SystemRecovery.OverwritersFollow | rangeserver/src/range_manager/impl.rs:371-388 | The same of whoever has overwritten a pending write, once its prepare there is answered |
| SystemRecovery.HeldParts | resolver/src/core/resolver.rs:103-133 | In every run, the participants that the resolver holds for a transaction and hands to group commit are those its coordinator reported, each once, with exactly the ranges it writes marked |
| SystemRecovery.WhoIsRegistered | coordinator/src/transaction.rs:416-430 | In every run a registration is sent for exactly those whom group commit has notified, and those done on the direct path with an answered prepare that released its lock early |
| SystemRecovery.NoFlagIsLeft | resolver/src/core/group_commit.rs:255-258 | In every run no range stays flagged once adders and triggered commits are over |
| SystemRecovery.SoftIsSoftSince | rangeserver/src/range_manager/impl.rs:613-624 | In every run the soft-released transactions of a range are those that released its lock early and whose commit there has not come to its end |
| SystemTheorems.PendingTableIsSound | rangeserver/src/range_manager/impl.rs:200-218 | Under one decision a prepare, in every state of every run, overtaking or not, each pending commit table entry points to a live prepare record that changes its key: the unwrap and the panic in get are unreachable |
| SystemTheorems.CommitsFindTheirRecords | rangeserver/src/range_manager/impl.rs:518-532 | In every run, no range commit, direct or in a batch, misses a prepare record |
| SystemTheorems.DependenciesCanBeDischarged | coordinator/src/transaction.rs:275-430 | In every run, whoever is listed as a dependency is preparing, on the direct path with its registration to come, held by the resolver, or done with its registration sent; under one decision a prepare it released a lock early |
| SystemTheorems.CopiesAreConserved | resolver/src/core/group_commit.rs:157-213 | In every run a transaction's counter is the number of its copies still to be appended, in groups, in taken batches and in returned lists |
| SystemTheorems.EachCopyIsInOnePlace | resolver/src/core/group_commit.rs:251-355 | In every run each copy is in exactly one of these places until it is counted down |
| SystemTheorems.GroupsAreInOrder | resolver/src/core/group_commit.rs:190-259 | In every run the batches taken from a range, its group, and what is about to be appended are the hand-off order of its writers, and somebody is bound to take a group that is not empty |
| SystemTheorems.NothingIsStranded | resolver/src/core/group_commit.rs:217-259 | In every run, once adders and triggered commits are over, every group is empty, each range's batches are the hand-off order of its writers, and everyone was notified |
| SystemTheorems.FinishedOnce | resolver/src/core/resolver.rs:149-179 | In every run a transaction is reported finished by one call only, after every range it writes has committed the batch that carried it and has it in storage, and its coordinator is waiting: the unwrap of waiting_transactions never fails |
| SystemHonest.HonestRun | resolver/src/core/resolver.rs:157-177 | In every run only transactions that were handed off, or never came to the resolver, are registered, and a submitted dependency is handed off strictly before its dependents |
| SystemLetGo.DoneHoldsNoLock | rangeserver/src/range_manager/impl.rs:613-624 | In every run whoever is done holds no lock and waits for none |
| SystemSerialRuns.TwoPhaseRunOk | rangeserver/src/range_manager/impl.rs:189-202 | In every run in which nobody lets go of a lock before it had the locks of all ranges it writes, each range's prepares happen in one serial order of the transactions, apart from a holder that is yet to take its place in it, and dependencies come earlier in it |
| SystemSerialRuns.LockPointRunOk | rangeserver/src/range_manager/impl.rs:189-202 | Holding the locks of all ranges one writes when one begins to commit is a way to be two-phase, and the serial order is then the order of beginning |
| SystemSerialRuns.DependenciesAreAcyclic | rangeserver/src/range_manager/impl.rs:371-381 | In every two-phase run no chain of dependencies, known to the resolver or not, leads back to its start |
| SystemSerializability.Serializability | rangeserver/src/range_manager/impl.rs:315-323 | In orderly two-phase runs the serial order explains every read of whoever is in it, lists everyone who is done and has read or written, and once all who began are done gives the storage of every range |
| SystemSerializability.SerialInOrderOfBeginning | rangeserver/src/range_manager/impl.rs:189-202 | With lock points the order of beginning explains every read and, once all are done, the storage of every range |
| SystemTorn.TornReadWithoutLockPoint | rangeserver/src/range_manager/impl.rs:315-323 | Without two phases this fails: for any two transactions, two ranges and a key there is an orderly run in which a blind writer lets go of a lock too early, a read-only transaction is done, the writer is stored in both ranges, and no order at all explains the reads |
| SystemStuck.DoneIffNoCycle | resolver/src/core/resolver.rs:195-267 | At the end of any run whose protocol can do nothing more, a prepare's own lock requests included, everyone who began to commit is done if and only if nobody waits for another in a cycle, by a lock queue or by the resolver, and nobody who began queues for the lock of a client who has not |
| SystemStuck.LockPointsPreventCycles | rangeserver/src/range_manager/impl.rs:315-323 | With lock points neither can happen |
| SystemStuck.NobodyWaitsForever | resolver/src/core/resolver.rs:195-267 | With lock points, when the protocol can do nothing more, every transaction that began is done and nobody waits to be told |
| SystemStuck.SomeoneMoves | resolver/src/core/resolver.rs:65-267 | With lock points, as long as a transaction that began is not done, some step of the protocol itself is possible, without overtaking and with one decision a prepare |
| SystemProgress.CarefulIsEnough | resolver/src/core/group_commit.rs:251-300 | In every run, whenever the protocol can go on, it can go on without overtaking and with one decision a prepare |
| SystemTermination.StepLowers | resolver/src/core/resolver.rs:65-267 | Every step that is not a client's, of ranges, coordinators, resolver and group commit, leaves less work to do in a well-founded order |
| SystemTermination.ComesToRest | resolver/src/core/resolver.rs:65-267 | From any point of any run, whatever order steps are taken in and with any finite number of client steps in between, the protocol comes to rest after finitely many steps; without client steps nobody else has begun |
| SystemTermination.EveryoneOrDeadlock | resolver/src/core/resolver.rs:195-267 | Every such schedule, overtaking or not, reaches a rest in which everyone who began is done exactly if nobody waits in a cycle or behind a client who has not begun |
| SystemTermination.EveryoneGetsDone | coordinator/src/transaction.rs:220-430 | With lock points, from any point of the run and under every such schedule, overtaking or not, after finitely many steps everyone who began, before or meanwhile, is done and nobody waits |
| SystemTermination.EveryoneGetsDoneSerially | coordinator/src/transaction.rs:220-430 | And if the run is orderly and the schedule overtakes nobody and decides with one voice, storage ends as the serial state |
| SystemTermination.CarefulSchedulersExist | resolver/src/core/group_commit.rs:251-300 | There are such schedules, even without client steps |
| SystemDeadlock.DeadlockWithoutLockPoint | rangeserver/src/range_manager/impl.rs:315-323 | Without the lock point it fails: for any two transactions, two ranges and a key there is an orderly run whose end is quiescent with neither transaction done |
| SystemPrepare.PrepareOk | rangeserver/src/range_manager/impl.rs:357-388 | A prepare keeps what holds in every run |
| SystemLock.SoftReleaseOk | rangeserver/src/range_manager/impl.rs:409-418 | An early lock release keeps it |
| SystemLock.CommitUnlockedOk | rangeserver/src/range_manager/impl.rs:613-624 | The lock part of a range commit keeps it, whoever holds the lock |
| SystemHandOff.DelegateOk | coordinator/src/transaction.rs:357-377 | Delegation to the resolver keeps it |
| SystemHandOff.RegisterOk | resolver/src/core/resolver.rs:195-251 | A registration and its cascade keep it |
| SystemGroup.NotifiedOk | resolver/src/core/resolver.rs:162-177 | Notifying the finished transactions keeps it |
| SystemGroup.FinishedIsApplied | resolver/src/core/group_commit.rs:333-355 | A finished transaction is in the storage of every range it writes |
| RangeState.PreparedOk | rangeserver/src/range_manager/impl.rs:357-388 | A prepare by the lock's holder, released early only if every written key was flagged, keeps the range's invariant: records, table, told dependencies, storage and order agree with the prepare log |
| RangeState.AppliedOk | rangeserver/src/range_manager/impl.rs:534-560 | Writing a safe batch to storage keeps it; storage is the last applied writer of every key |
| RangeState.FinishedOk | rangeserver/src/range_manager/impl.rs:572-600 | Clearing the table and the records of a stored batch keeps it |
| RangeState.FinishedUnpoints | rangeserver/src/range_manager/impl.rs:575-593 | A table entry never outlives the record it points to |
| RangeState.LockChangeOk | rangeserver/src/range_manager/impl.rs:411-418 | The lock may change hands when its holder has not prepared, released early, or is finished: the table's promises stay |
| RangeState.PendingReadIsSerial | rangeserver/src/range_manager/impl.rs:200-215 | A read from a pending record returns the serial value and cannot fail |
| RangeState.StorageReadIsSerial | rangeserver/src/range_manager/impl.rs:222-236 | A storage read by the lock's holder returns the serial value |
| RangeState.ReplayIsLast | rangeserver/src/range_manager/impl.rs:534-545 | The serial store holds for each key the last writer's value |
| RangeManagers.BuildRecord | rangeserver/src/range_manager/impl.rs:286-312 | The prepare record holds each key's last put, and a deletion for each deleted key, exactly if every key is in range; otherwise KeyIsOutOfRange |
| RangeManagers.UpdateTable | rangeserver/src/range_manager/impl.rs:366-388 | The loop over the keys, in any order, finds whomever a written key pointed to; flagged keys then point to the transaction, unflagged written ones to nobody, and the others to whom they did |
| RangeManagers.MergeBatch | rangeserver/src/range_manager/impl.rs:534-545 | The loops yield all_changes and last_tx_per_key |
| RangeManagers.MergedIsOneByOne | rangeserver/src/range_manager/impl.rs:534-560 | Writing the merged changes once equals applying the transactions one after another |
| RangeManagers.LastWriterWins | rangeserver/src/range_manager/impl.rs:534-560 | Of every key the batch leaves in storage what its last writer wrote, and names that writer; a key nobody in the batch wrote stays as it was |
| RangeManagers.ClearTable | rangeserver/src/range_manager/impl.rs:575-593 | Exactly the table entries that still point to the last committed writer go |
| RangeManagers.DropRecords | rangeserver/src/range_manager/impl.rs:596-599 | Exactly the batch's records go |
| RangeManagers.ToldIfFlagged | rangeserver/src/range_manager/impl.rs:371-388 | The next writer is told of a transaction exactly if they share a key flagged for early release |
| RangeManagers.OneDecisionIsNeeded | rangeserver/src/range_manager/impl.rs:402-418 | After an early release every next writer with a common key is told of it if and only if every written key was flagged |
| RangeManagers.RangeManager.constructor | rangeserver/src/range_manager/impl.rs:637-657 | A fresh range satisfies its invariant |
| RangeManagers.RangeManager.GetPending | rangeserver/src/range_manager/impl.rs:196-219 | get's look at the pending state returns the dependency and what its record holds, or panics; with sound records and table there is no panic and the value is the serial one, even if storage is out of order |
| RangeManagers.RangeManager.GetStored | rangeserver/src/range_manager/impl.rs:222-236 | get's storage read, and that it is the serial value for a lock holder that has not prepared |
| RangeManagers.RangeManager.Prepare | rangeserver/src/range_manager/impl.rs:357-418 | The object takes exactly the prepare step, mixed decisions included, the first key deciding the release: record, dependencies and table entries are spelled out key by key; it always keeps log and records, and the whole invariant if a release covers every written key |
| RangeManagers.RangeManager.Store | rangeserver/src/range_manager/impl.rs:518-560 | The object takes exactly the storage step for any batch whose records are there, overtaking or not: of every key the last writer of the batch wins, and the others stay; log, records and table are kept, and the whole invariant if the batch is safe |
| RangeManagers.RangeManager.Clear | rangeserver/src/range_manager/impl.rs:572-600 | The object takes exactly the clearing step for any batch whose records are there: exactly its records go, and exactly the entries that still point to its last writers; records are kept for a stored batch, and table and storage for one in prepare order |
| LockTables.Fairness | rangeserver/src/range_manager/lock_table.rs:165-233 | For every history, the grants so far followed by the queue are the requests in order, the lock is never free while someone waits, and the holder was granted last |
| LockTables.SoftIsReleasedSoftly | rangeserver/src/range_manager/lock_table.rs:209-242 | For every history, the soft-released transactions are those that released the lock early and were not cleaned up since |
| LockTables.CommitReleasesOnlyItsOwn | rangeserver/src/range_manager/impl.rs:613-624 | Committing early-released transactions leaves another holder's lock alone; otherwise the lock passes to the longest waiter |
| LockTables.LockTable.constructor | rangeserver/src/range_manager/lock_table.rs:64-74 | The new table is free |
| LockTables.LockTable.Acquire | rangeserver/src/range_manager/lock_table.rs:165-207 | Grants a free or own lock at once and otherwise appends to the queue, and changes nothing else |
| LockTables.LockTable.ReleaseLock | rangeserver/src/range_manager/lock_table.rs:209-233 | Hands the lock to the longest waiter, who leaves the queue, and records exactly a violatable release |
| LockTables.LockTable.SoftRelease | rangeserver/src/range_manager/lock_table.rs:235-237 | A violatable release |
| LockTables.LockTable.CleanSoftReleased | rangeserver/src/range_manager/lock_table.rs:239-242 | Forgets the soft releases of the given transactions only |
| LockTables.LockTable.IsCurrentlyHolding | rangeserver/src/range_manager/lock_table.rs:244-250 | Whether one of the transactions is the holder |
| LockTables.LockTable.ReleaseCommitted | rangeserver/src/range_manager/impl.rs:613-624 | Releases only if a committed transaction holds the lock |
| ResolverState.HistoryOk | resolver/src/core/resolver.rs:65-267 | Over any interleaving of submissions and registrations counters stay exact and each writer is handed off at most once, never as a placeholder, never before its dependencies |
| ResolverState.HandOffIsTopological | resolver/src/core/resolver.rs:211-250 | At the moment of hand-off each dependency is registered or earlier in the hand-off order |
| ResolverState.CounterCounts | resolver/src/core/resolver.rs:85-110 | num_dependencies is the number of transactions that list this one as a dependent |
| ResolverState.SubmittedOk | resolver/src/core/resolver.rs:83-141 | A submission keeps graph, participants and hand-off order |
| ResolverState.SubmittedParts | resolver/src/core/resolver.rs:103-110 | It is held with the participants it came with, and nobody else's change |
| ResolverState.HistoryParts | resolver/src/core/resolver.rs:103-133 | Whatever is submitted or registered later, a submission is held with the participants it came with |
| ResolverState.RegisteredOk | resolver/src/core/resolver.rs:203-250 | A registration keeps them |
| ResolverState.CascadeIsLeast | resolver/src/core/resolver.rs:211-242 | The cascade readies the least closed set |
| ResolverState.CascadeIsUnique | resolver/src/core/resolver.rs:211-242 | Its outcome does not depend on the order of the worklist |
| ResolverState.RegisterTwice | resolver/src/core/resolver.rs:203-242 | Registering the same ids again changes nothing |
| ResolverState.Progress | resolver/src/core/resolver.rs:195-267 | With acyclic, known dependencies and everything handed off registered, nobody has a pending dependency |
| ResolverProgress.EveryoneIffAcyclic | resolver/src/core/resolver.rs:195-267 | At quiescence everyone was handed off if and only if the submitted dependencies have no cycle |
| ResolverProgress.CycleIsStuck | resolver/src/core/resolver.rs:83-141 | A transaction on a cycle is never handed off |
| ResolverProgress.SeparateHandOffs | resolver/src/core/resolver.rs:224-250 | A transaction can be handed off by a later registration than one it depends on that is not registered |
| Resolvers.Resolver.constructor | resolver/src/core/resolver.rs:52-63 | The new resolver is empty |
| Resolvers.Resolver.WaitForUnresolved | resolver/src/core/resolver.rs:85-102 | The loop makes the transaction a dependent of exactly the unresolved dependencies and counts them |
| Resolvers.Resolver.Submit | resolver/src/core/resolver.rs:72-141 | Read-only transactions change nothing; others take exactly the submission step, and are ready exactly if all dependencies are resolved, with no pending dependency and the participants they were submitted with |
| Resolvers.Resolver.RegisterCommitted | resolver/src/core/resolver.rs:199-250 | The object takes exactly the registration step with an outcome of the cascade, and what goes to group commit for each ready transaction has no pending dependency and the participants it was submitted with |
| Resolvers.Resolver.Cascade | resolver/src/core/resolver.rs:211-242 | The worklist loop terminates with exactly the cascade; its unwrap and assert never fail |
| GroupCount.CountAllOk | resolver/src/core/group_commit.rs:339-354 | The decrement loop never misses a counter, keeps counters exact and finishes exactly the transactions of which nothing remains |
| GroupAdd.HandedOffOk | resolver/src/core/resolver.rs:244-250 | A hand-off keeps the group-commit invariant |
| GroupAdd.OpenedOk | resolver/src/core/group_commit.rs:123-150 | Inserting the groups keeps it |
| GroupAdd.CountersSetOk | resolver/src/core/group_commit.rs:177-187 | Inserting the counters keeps it |
| GroupAdd.AppendedOk | resolver/src/core/group_commit.rs:189-214 | Appending to a group keeps it: batches, group and what is to come are the hand-off order of the range's writers |
| GroupAdd.FlaggedOk | resolver/src/core/group_commit.rs:216-222 | Flagging keeps it: a non-empty group is flagged or about to be |
| GroupTasks.SnapshotOk | resolver/src/core/group_commit.rs:229-235 | Reading the flags keeps it |
| GroupTasks.TakeOk | resolver/src/core/group_commit.rs:251-254 | Taking a group keeps it |
| GroupTasks.UnflagOk | resolver/src/core/group_commit.rs:255-259 | Unflagging under the group's lock keeps it: no group is stranded |
| GroupTasks.StagedOk | resolver/src/core/group_commit.rs:283-306 | The commit of a batch in its range keeps it |
| GroupTasks.ReturnOk | resolver/src/core/group_commit.rs:316-319 | Returning a batch keeps it |
| GroupCount.JoinOk | resolver/src/core/group_commit.rs:326-329 | Draining the returned list keeps it |
| GroupCount.CountDownOk | resolver/src/core/group_commit.rs:333-355 | Counting down keeps it |
| GroupCount.NotifyOk | resolver/src/core/resolver.rs:162-171 | Notification keeps it |
| GroupOvertaking.TwoBatchesUnderWay | resolver/src/core/group_commit.rs:251-300 | Two transactions handed off one after the other can be in two batches of one range of which either may be sent next |
| GroupCommits.Split | resolver/src/core/group_commit.rs:155-170 | The first loop gives each range its writers in hand-off order and counts each transaction once per range it writes |
| GroupCommits.CountList | resolver/src/core/group_commit.rs:339-354 | The decrement loop computes the new counters and the finished transactions |
| GroupCommits.CountsDownAll | resolver/src/core/group_commit.rs:339-354 | Each copy takes one off its transaction's counter; exactly the counters that come to nothing go, and exactly their transactions are finished |
| GroupCommits.GroupCommit.constructor | resolver/src/core/group_commit.rs:40-52 | The new object is the empty group commit |
| GroupCommits.GroupCommit.InsertRanges | resolver/src/core/group_commit.rs:123-150 | Only missing groups are inserted |
| GroupCommits.GroupCommit.InsertCounters | resolver/src/core/group_commit.rs:179-186 | Counters are inserted for the added transactions |
| GroupCommits.GroupCommit.Append | resolver/src/core/group_commit.rs:197-210 | The group exists, and gets its transactions at the end |
| GroupCommits.GroupCommit.Flag | resolver/src/core/group_commit.rs:218-221 | The ranges are flagged |
| GroupCommits.GroupCommit.TakeGroup | resolver/src/core/group_commit.rs:241-254 | The group exists, and is taken whole |
| GroupCommits.GroupCommit.RemoveFlag | resolver/src/core/group_commit.rs:255-258 | The flag goes |
| GroupCommits.GroupCommit.ReturnBatch | resolver/src/core/group_commit.rs:316-319 | The batch is appended to the returned list |
| GroupCommits.GroupCommit.TakeReturned | resolver/src/core/group_commit.rs:328-329 | The returned list is taken whole |
| GroupCommits.GroupCommit.CountDownReturned | resolver/src/core/group_commit.rs:333-355 | In every reachable state the assert and the decrement succeed, each counter falls by the copies returned, and exactly those at nothing go and are finished |
| Coordinators.OpRecorded | coordinator/src/transaction.rs:152-168 | Put and delete keep writeset and deleteset disjoint, and together the client's last operation per key |
| LastOperations.BuiltRecord | rangeserver/src/range_manager/impl.rs:286-312 | Whatever order the write set and the delete set are sent in, the range builds one and the same record of them |
| LastOperations.RecordOfRequest | rangeserver/src/range_manager/impl.rs:286-312 | The request of a participant is always within its range's bounds, and the record the range builds of it holds exactly the keys of the range that the client operated on, each with the client's last operation |
| Coordinators.TargetsAreHolders | coordinator/src/transaction.rs:369-395 | The ranges told to commit are the ranges that hold a prepare record if and only if no participant has deletes without a put |
| Coordinators.ToldIfPutsToo | coordinator/src/transaction.rs:369-395 | In the client's terms: if and only if every range with a key that the client last deleted has a key that it last put |
| Coordinators.SingleDeleteIsNotTold | coordinator/src/transaction.rs:314-395 | A client that deletes one key and does nothing else leaves a prepare record in a range that is never told to commit |
| Coordinators.Transaction.constructor | coordinator/src/transaction.rs:438-465 | A new transaction has no participants and no dependencies |
| Coordinators.Transaction.Write | coordinator/src/transaction.rs:152-168 | put and del succeed exactly if the transaction runs and the key has a range; then the last operation on the key is this one, and no leader, no readset and no other participant changes; each failure by its name, and then nothing changes |
| Coordinators.Transaction.Get | coordinator/src/transaction.rs:103-150 | A get answers from the transaction's own last operation, or else from the range with its dependencies added: the first leader that answers is recorded, the key joins the readset if that leader answered and otherwise the transaction aborts; each failure by its name |
| Coordinators.Transaction.Commit | coordinator/src/transaction.rs:220-430 | Exactly the ranges that were written, deleted or asked for are sent a prepare, with the client's last operations there and whether it read there; a failed prepare aborts; the dependencies are all that gets and prepares reported; with any the commit is delegated, otherwise it goes to exactly the ranges with a last put, and is registered exactly if a lock was released early |
| Coordinators.Transaction.Abort | coordinator/src/transaction.rs:205-213 | Gives up while running, twice without error, and not after a commit began |
| Coordinators.OneLeader | coordinator/src/transaction.rs:132-145 | All reads that a transaction keeps of one range were answered by one leader |
| Coordinators.AskRecorded | coordinator/src/transaction.rs:132-146 | The leader and the readset of a participant are the first leader that answered for the range and the keys it answered for, over every history of gets |
| Coordinators.LeadershipLost | coordinator/src/transaction.rs:132-145 | Of two gets of one range that two leaders answer, the second fails and the transaction is aborted |
| Coordinators.RequestIs | coordinator/src/transaction.rs:230-243 | A participant's prepare request carries the client's last operations in its range, and whether a get has read there |
| MemTableEntries.LowerBound | rangeserver/src/cache/memtabledb.rs:248-254 | The least entry not below the bound |
| MemTableEntries.LessTotal | rangeserver/src/cache/memtabledb.rs:46-54 | The order of entries is total on versions and antisymmetric |
| MemTableEntries.InsertedSorted | rangeserver/src/cache/memtabledb.rs:157 | An insert keeps the entries ordered by key and descending epoch |
| MemTableEntries.LowerBoundDecides | rangeserver/src/cache/memtabledb.rs:240-267 | The entry at the lower bound is the newest version sought in the table, or there is none |
| MemTableArc.FoundIsNewest | rangeserver/src/cache/memtabledb.rs:230-274 | The first table with a version, searching backwards, has the newest one of all |
| MemTableArc.NotFound | rangeserver/src/cache/memtabledb.rs:230-274 | If no live table has one, there is none |
| MemTableArc.PutOk | rangeserver/src/cache/memtabledb.rs:157-161 | A write to the mutable table adds exactly its version and keeps the arc ordered |
| MemTableArc.RotateOk | rangeserver/src/cache/memtabledb.rs:131-161 | So does a write that switches tables |
| MemTableArc.WeightInserted | rangeserver/src/cache/memtabledb.rs:108-158 | What the code adds for an entry is its share of the sum over the entries of key, value and nine bytes, and an insert adds exactly the entry |
| MemTableArc.PutMeasured | rangeserver/src/cache/memtabledb.rs:131-161 | A write that fits, or into an empty table, keeps the table measured: its size is that sum, at most the room of a table unless it is one entry, and its latest epoch is its newest entry's |
| MemTableArc.CutForgets | rangeserver/src/cache/memtabledb.rs:285-299 | Dropping the oldest tables forgets no version newer than the clear epoch, and none while an older one stays |
| MemTableArc.ClearNeverGoesBack | rangeserver/src/cache/memtabledb.rs:277-301 | After a clear each read finds the version it found before or nothing, never an older one or a value hidden by a tombstone |
| MemTables.ClearOk | rangeserver/src/cache/memtabledb.rs:285-299 | A clear leaves one contiguous arc of live tables that ends at the mutable one, and exactly the versions of the mutable table and of tables with an epoch above the one cleared |
| MemTables.MemTableDB.constructor | rangeserver/src/cache/memtabledb.rs:178-203 | A new cache is one empty mutable table and stands for the empty map |
| MemTables.MemTableDB.UpsertOrDelete | rangeserver/src/cache/memtabledb.rs:87-161 | CacheIsFull exactly if the bytes of the mutable table's entries and of the new one exceed the room of a table and every table is live, and then nothing changes; otherwise the multi-version map gains exactly the version, in the mutable table if there is room and alone in a fresh one if not, and the other tables keep their entries |
| MemTables.MemTableDB.Get | rangeserver/src/cache/memtabledb.rs:218-275 | get returns the live version with the greatest epoch not above the one asked for, nothing for a tombstone |
| MemTables.MemTableDB.Search | rangeserver/src/cache/memtabledb.rs:240-274 | The backwards search, with its early stop and its skipped tables, answers for the whole map |
| MemTables.MemTableDB.Clear | rangeserver/src/cache/memtabledb.rs:277-301 | Exactly the tables behind the mutable one whose latest epoch is not above the one cleared are flushed, and exactly their versions are forgotten: none newer, and none while an older one stays; clearing up to the latest epoch leaves one table |
| MemTables.MemTableDB.ClearAndWrite | rangeserver/src/cache/memtabledb.rs:277-301 | A cache of two or more tables that is cleared up to its latest epoch takes any next write |
| WardenState.PartitionMeans | warden/src/assignment_computation.rs:133-204 | Each known base range is unassigned or assigned to exactly one server |
| WardenState.Least | warden/src/assignment_computation.rs:311 | The heap yields a least loaded server |
| WardenState.TurnIsLeast | warden/src/assignment_computation.rs:309-320 | At each turn the entry that is popped has the ranges it started with and one for each earlier turn, and no entry has fewer, or as many and a smaller name |
| WardenState.OneMoreIsBalanced | warden/src/assignment_computation.rs:310-325 | A heap entry that received ranges in a round ends at most one above any other |
| Wardens.GroupByServer | warden/src/assignment_computation.rs:262-276 | The ranges of each server in the current version, each once, and as many as its load |
| Wardens.BuildHeap | warden/src/assignment_computation.rs:278-289 | The heap holds, as a bag, every assignee with its load and every added server with none, or if there are neither every ready server; it has one entry for a server unless it is both |
| Wardens.CollectRanges | warden/src/assignment_computation.rs:300-306 | Exactly the unassigned ranges and those of removed servers are to be assigned, each once, and their number |
| Wardens.AssignAll | warden/src/assignment_computation.rs:309-325 | Every range is assigned once, each in its turn to the least loaded entry, and the rest stays; loads end balanced, and a server has grown by exactly the ranges it received |
| Wardens.Flatten | warden/src/assignment_computation.rs:349-356 | The new version lists exactly the grouped ranges, each once, and gives each server as many as it had |
| Wardens.Compute | warden/src/assignment_computation.rs:262-356 | Ranges of servers that stay do not move, what is persisted is exactly what changes, each range of it went to the least loaded entry at its turn, each server ends with what it kept and received, and among the servers that stay and are in the heap once, one that received ranges ends with at most one range more than any other |
| Wardens.Warden.constructor | warden/src/assignment_computation.rs:91-115 | A new warden knows no ranges |
| Wardens.Warden.ReadBaseRanges | warden/src/assignment_computation.rs:169-203 | A missing known range or a failure to persist changes nothing; otherwise exactly the new ranges become known and unassigned, in the order reported, and the partition holds |
| Wardens.Warden.RunAssignmentComputation | warden/src/assignment_computation.rs:232-373 | Without servers, changes or persistence nothing changes; otherwise there is a new newest version that assigns every base range once, least loaded first, evenly among the servers that stay, and of the others only the oldest may go |
| WardenRounds.ComesBackUneven | warden/src/assignment_computation.rs:278-325 | For any two servers and four ranges there are three rounds that end uneven: a server is lost, keeps its range because it is still in the heap, comes back with two entries, and ends two ranges above the other |
| Wardens.Warden.KeepVersion | warden/src/assignment_computation.rs:338-357 | Only the oldest version is ever dropped, exactly if more than five are cached, so that six stay cached from then on; the current one is the newest |
| Prefetching.PrefetchingBuffer.constructor | rangeserver/src/prefetching_buffer.rs:31-43 | A new buffer is empty |
| Prefetching.PrefetchingBuffer.Enter | rangeserver/src/prefetching_buffer.rs:66-84 | The two indexes stay inverse, and a key nobody asked for gets a number never used before |
| Prefetching.PrefetchingBuffer.Request | rangeserver/src/prefetching_buffer.rs:66-116 | The requester must fetch, must wait, or finds the key fetched |
| Prefetching.PrefetchingBuffer.WaitOver | rangeserver/src/prefetching_buffer.rs:91-98 | A wait ends without a retry: the request no longer waits, and nothing else changes |
| Prefetching.PrefetchingBuffer.Retry | rangeserver/src/prefetching_buffer.rs:99-106 | A waiter takes over a failed fetch; the key is still there, so the unwrap cannot fail |
| Prefetching.PrefetchingBuffer.FetchComplete | rangeserver/src/prefetching_buffer.rs:201-224 | A fetch completes its own request only; one begun before its key was evicted changes nothing |
| Prefetching.PrefetchingBuffer.FetchFailed | rangeserver/src/prefetching_buffer.rs:228-242 | A failed fetch goes back to requested, for its own request only |
| Prefetching.PrefetchingBuffer.TransactionComplete | rangeserver/src/prefetching_buffer.rs:246-267 | The transaction leaves both indexes, exactly the keys nobody asks for are evicted, and their numbers are never used again |
| Prefetching.PrefetchingBuffer.RemoveRequest | rangeserver/src/prefetching_buffer.rs:307-331 | A key without requests loses entry, state and value |
| Prefetching.PrefetchingBuffer.Upsert | rangeserver/src/prefetching_buffer.rs:270-285 | Changes the store only |
| Prefetching.PrefetchingBuffer.Delete | rangeserver/src/prefetching_buffer.rs:289-303 | Acts on requested keys only, and makes a fetch under way stale |

## Left out

- Coordinators.Transaction.Write: stands for both put and del, with the operation as a parameter.
- Coordinators.Transaction.Commit: the traditional strategy is not modelled, nor a range's error answer to a prepare, on which the source panics.
- Coordinators.Transaction.Abort: the aborts sent to ranges and to the transaction state store are not modelled, as the source has no cascading abort.
- RangeManagers.RangeManager.GetStored: the prefetching buffer is not consulted, because its upsert and delete do not keep it in agreement with storage.
- Prefetching.PrefetchingBuffer.Request: the watch channel is reduced to the set of waiting requests, and WaitOver and Retry are its two outcomes.
- MemTables.MemTableDB.UpsertOrDelete: the garbage-collection callback is not modelled.
- Wardens.BuildHeap: removed servers stay in the heap, as in the source, so that ranges may be assigned to servers that are not ready; server names are integers, because only their order matters.
- LockTables.LockTable.ReleaseLock: the queue of those who only wait for a release is not modelled, because nothing puts anyone there.
- Cassandra storage, the transaction state store, the universe and warden persistence: foreign calls, taken as maps or as outcomes.
- The write-ahead log, epochs, epoch leases and lease renewal: no part in the properties above.
- The heuristic of the early-release decision, statistics and average loads: the decision is arbitrary in the model.
- Range loading and unloading, key range checks on get, leadership fencing.
- Registration and removal of range servers at the warden, and assignment updates to servers.
- gRPC and flatbuffer servers and clients, networks, the frontend, monitoring, the range assignment oracle, configuration and the workload generator.
