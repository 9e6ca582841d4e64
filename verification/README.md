# stateful core: a verified model

This project models the parts of *stateful core* that decide who may write what, and when, and
proves what they promise.

* **The lease protocol** (`crates/stateful-store/src/store_v2.rs`). Agents work on tasks in a
  workspace. A task reads resources, then asks to write. It is given a lease at once, or waits in
  a first-come-first-served queue and is later made an offer. Every command runs in one transaction
  that replays recorded answers, expires what is overdue, promotes waiters and rolls back on error.
  `Store.dfy` holds the store as a class whose fields are the tables and whose methods are the
  commands, loops included. `Commands.dfy`, `Sweeps.dfy` and `Evidence.dfy` say in closed form what
  each of them does, and every method is proved equal to its closed form. `Invariants.dfy` is the
  inductive invariant. `Safety.dfy` shows that every command keeps it. `Evolution.dfy` and
  `CommandEvolution.dfy` show how rows may change from one moment to a later one. `Runs.dfy` lifts
  both to whole runs: any commands, of any clients, at any claimed times, with maintenance anywhere
  between. `Theorems.dfy`, `Generations.dfy`, `Permits.dfy`, `StableReads.dfy`, `Completions.dfy`,
  `Fairness.dfy`, `ExactlyOnce.dfy` and `RequestLives.dfy` hold the results over runs. `Reports.dfy`,
  `ReadAnswers.dfy`, `PrepareAnswers.dfy`, `PrepareEffects.dfy`, `WriteAnswers.dfy`, `TaskAnswers.dfy`
  and `Deadlines.dfy` say, without naming the closed forms, which answer each command gives when, what
  it leaves behind, and what time does to each row.
* **Observations and operations** (`crates/stateful-core/src/resource.rs`). When two resource keys
  collide, which observations may start an operation, and which post-state completes it
  (`Resources.dfy`, `Paths.dfy`, `Operations.dfy`, `OperationProofs.dfy`, `OperationOrder.dfy`), and
  what that means for each of the ten operations in terms of the observations alone
  (`OperationPieces.dfy`, `CommitMeaning.dfy`, `OperationMeaning.dfy`).
* **The canonical JSON encoding** that a command's payload is hashed over (`CanonicalJson.dfy`, `JsonBytes.dfy`).
* **The migration** of a legacy database, with its manifest and its recovery, on a machine that may
  stop after any file step (`Migration.dfy`, `MigrationProofs.dfy`, `MigrationMachine.dfy`).
* **Shell words**: two ways to quote and two ways to split (`ShellWords.dfy`), and what the splitters
  accept and read (`ShellGrammar.dfy`).

`dafny verify dfyconfig.toml` checks everything.

## How the model reads the source

* A table is a map from its key to its row; a transaction is one step; a JSON column is its value;
  a set of rows selected, updated or deleted by one SQL statement is a comprehension.
* Each command carries its own time. Times are integers and need not grow from one command to the
  next. SQL compares timestamps as text and Rust compares them as times; reading both as integers is
  sound when all timestamps have the same offset and the same number of fractional digits
  (section 5.1 of RFC 3339).
* Client-chosen identifiers are numbers compared for equality, zero standing for blank text.
  Generated identifiers come from a counter. The kind of a resource is part of its identity, as the
  prefix of a resource id makes it in the source.
* A sorted, duplicate-free vector of resource keys or observations is a map from identity.
  `OperationOrder.TransitionInAnyOrder` proves that the checks do not depend on the order that
  sorting would give.
* Two payloads are the same command when they are equal values; `CanonicalJson.EncodingExact`
  proves that this is what equal hashed bytes mean.

## Model

| member | source | states |
|---|---|---|
| Stores.Store.Execute | crates/stateful-store/src/store_v2.rs:591-679 | one transaction: state and answer are exactly those of the specification, errors leave the tables as they were, and the invariant and work conservation hold again |
| Stores.Store.Operate | crates/stateful-store/src/store_v2.rs:591-679 | each command does what its specification says, and the answers a client builds on are true: a read is answered as counting, and a write as completed or as failed, exactly if it is so, and a client told it is queued waits for all it reported |
| Stores.Store.Maintain | crates/stateful-store/src/store_v2.rs:535-589 | the maintenance sweep is the composition of its parts and keeps the invariant and work conservation |
| Stores.Store.constructor | crates/stateful-store/src/schema_v2.rs:1-230 | a new store is empty and satisfies the invariant |
| Stores.Store.StartTask | crates/stateful-store/src/store_v2.rs:27-113 | a new active task, the existing one's status, or the right error; `TaskAnswers.StartAnswer` says which and when |
| Stores.Store.Heartbeat | crates/stateful-store/src/store_v2.rs:115-171 | the expiry moves within the inactivity window of an owned active task; `TaskAnswers.HeartbeatAnswer` says where to |
| Stores.Store.EndTask | crates/stateful-store/src/store_v2.rs:189-266 | a task closes at once, or drains while a write of its own is unresolved; waiters are promoted when it frees anything |
| Stores.Store.StartRead | crates/stateful-store/src/store_v2.rs:270-325 | the reported states are recorded and the attempt stored with the generations they received |
| Stores.Store.CompleteRead | crates/stateful-store/src/store_v2.rs:327-449 | the method computes what the specification says; that a read counts exactly if it is clean, reports what it started from and found nothing moved is `ReadAnswers.ReadAnswer` |
| Stores.Store.RecordRead | crates/stateful-store/src/store_v2.rs:941-1015 | inserting evidence row by row gives the same rows, validity and intents as judging each one against the state before the read |
| Stores.Store.SyncObservations | crates/stateful-store/src/store_v2.rs:806-905 | the loop over observations records each state, raises generations, revokes overlapping evidence, and fails exactly on a foreign, mismatched or repeated observation |
| Stores.Store.RevokeOverlapping | crates/stateful-store/src/store_v2.rs:1084-1133 | exactly the valid evidence that overlaps the key and is not excluded is revoked, and the intents held on it |
| Stores.Store.RevokeEach | crates/stateful-store/src/store_v2.rs:1510-1512 | revoking key by key is revoking for the whole set |
| Stores.Store.ExpireTasksAndLeases | crates/stateful-store/src/store_v2.rs:1288-1361 | expiring tasks and leases one at a time gives the closed form, where each is judged by the state before the sweep |
| Stores.Store.PromoteWaiters | crates/stateful-store/src/store_v2.rs:2387-2486 | the loop with its growing list of blocked resources promotes exactly in queue order, and leaves no waiter without a reason to wait |
| Stores.Store.QueueInOrder | crates/stateful-store/src/store_v2.rs:2390-2411 | the waiting requests, all of them, by strictly rising queue number |
| Stores.Store.MergeResourceKeys | crates/stateful-store/src/store_v2.rs:1881-1892 | the union of two key sets in which the first path seen for an identity is kept |
| Stores.Store.PrepareWrite | crates/stateful-store/src/store_v2.rs:1364-1532 | the method computes what the specification says; which of a permit, a place in the queue, a demand to read again and a denial is the answer, and when, is `PrepareAnswers.PrepareAnswer` |
| Stores.Store.JoinQueue | crates/stateful-store/src/store_v2.rs:1433-1490 | the method computes what the specification says under contention; that the place named is the task's own and for everything it wants is `PrepareEffects.QueuedLeaves` |
| Stores.Store.Enqueue | crates/stateful-store/src/store_v2.rs:2248-2322 | the new request is the task's only pending one and comes after everybody numbered so far; what was pending of the task points to it and no other request moves |
| Stores.Store.EnsureActiveLease | crates/stateful-store/src/store_v2.rs:2115-2177 | the lease is grown, renewed or created, or refused as draining, expired, busy or unknown |
| Stores.Store.PrepareWriteAttempt | crates/stateful-store/src/store_v2.rs:2488-2564 | other tasks' evidence is revoked and a slot taken on every written resource, unless one is taken or the invocation is used |
| Stores.Store.ActivateLease | crates/stateful-store/src/store_v2.rs:1534-1636 | a matching live offer with fresh evidence becomes a lease of its resources |
| Stores.Store.ReleaseLease | crates/stateful-store/src/store_v2.rs:1638-1678 | an idle lease goes and waiters are promoted; a busy one drains |
| Stores.Store.CompleteWrite | crates/stateful-store/src/store_v2.rs:2569-2705 | the method computes what the specification says; the verdict is pinned down by `WriteAnswers.CompletionAnswer`, and what becomes of slots, lease and task by `WriteAnswers.CompletionLeaves` |
| Stores.Store.FinishDraining | crates/stateful-store/src/store_v2.rs:2726-2760 | a draining task with nothing unresolved reaches the status it was closing with |
| Stores.Store.CloseTask | crates/stateful-store/src/store_v2.rs:205-235 | the task has nothing pending, holds no read intent and has no valid evidence left; nothing of another task is touched |
| Stores.Store.Settle | crates/stateful-store/src/store_v2.rs:2627-2650 | no slot is left to the attempt and it has its final status; every other slot, attempt and lease is as it was |
| Stores.Store.RecordVerdict | crates/stateful-store/src/store_v2.rs:2611-2645 | a completed write records its states as the writer's own evidence, an uncertain one revokes all evidence of what it touched |
| Stores.Store.RecordOwnWrite | crates/stateful-store/src/store_v2.rs:1017-1048 | the loop over observations leaves the writer valid evidence, new and of its own writing, for every state it left, and keeps all other evidence |
| Stores.Store.WithActivated | crates/stateful-store/src/store_v2.rs:1588-1621 | the lease covers what was on offer and other tasks' evidence of it is revoked |
| Stores.Store.ForgetInactive | crates/stateful-store/src/store_v2.rs:542-575 | no task that has stopped being active is still reading, holds an intent or has valid evidence; nothing of an active task is touched |
| Stores.Store.DrainOverdueWrites | crates/stateful-store/src/store_v2.rs:576-583 | leases whose executing write is past its deadline drain |
| Stores.Store.LatestRequest | crates/stateful-cli/src/sandbox.rs:714-747 | following replacements ends, at a request of the same task that covers at least as much |
| StoreSteps.RevokeTwice | crates/stateful-store/src/store_v2.rs:1084-1133 | revocations for two sets of keys compose to one for their union |
| StoreSteps.BlockedListExact | crates/stateful-store/src/store_v2.rs:2412-2468 | overlapping the list of blocked resources is the same as overlapping an earlier request that is still waiting |
| Safety.ExecuteSafe | crates/stateful-store/src/store_v2.rs:591-679 | every command keeps the invariant and work conservation |
| Safety.StartReadSafe | crates/stateful-store/src/store_v2.rs:270-325 | starting a read keeps the invariant |
| Safety.CompleteReadSafe | crates/stateful-store/src/store_v2.rs:327-449 | completing a read keeps the invariant |
| Safety.ReleaseLeaseSafe | crates/stateful-store/src/store_v2.rs:1638-1678 | giving up a lease keeps the invariant |
| Safety.PrepareWriteSafe | crates/stateful-store/src/store_v2.rs:1364-1532 | asking to write keeps the invariant, whether granted, queued or refused |
| Safety.ActivateLeaseSafe | crates/stateful-store/src/store_v2.rs:1534-1636 | taking up an offer keeps the invariant |
| Safety.CompleteWriteSafe | crates/stateful-store/src/store_v2.rs:2569-2705 | completing a write keeps the invariant whatever the verdict |
| Safety.EndTaskSafe | crates/stateful-store/src/store_v2.rs:189-266 | ending a task keeps the invariant |
| SweepProofs.MaintainKeeps | crates/stateful-store/src/store_v2.rs:535-589 | maintenance at any instant keeps the invariant and work conservation |
| SweepProofs.PromoteConserves | crates/stateful-store/src/store_v2.rs:2387-2486 | after promotion every waiter is blocked by its agent's lease or offer, an overlapping lease or offer of another task, or an overlapping earlier waiter |
| SweepProofs.PromoteIdempotent | crates/stateful-store/src/store_v2.rs:2387-2486 | promoting twice at the same instant is promoting once |
| SweepProofs.QueueHasHolder | crates/stateful-store/src/store_v2.rs:2430-2468 | a workspace with a queue has a lease or an offer |
| Deadlines.SweepFates | crates/stateful-store/src/store_v2.rs:1288-1361 | what the sweeps make of each task and each lease: due at its deadline and not before, failed or draining according to whether a write is unaccounted for |
| Deadlines.SweepRequests | crates/stateful-store/src/store_v2.rs:2387-2486 | what they make of each request: withdrawn with its task, expired at its own deadline or its offer's, untouched, or offered now for the task's offer time but no longer than the request, under the next version |
| Deadlines.PromoteFate | crates/stateful-store/src/store_v2.rs:2412-2486 | the same for a promotion alone |
| Deadlines.MaintenanceFates | crates/stateful-store/src/store_v2.rs:535-589 | maintenance treats tasks and leases alike, lets leases with an overdue write drain, and makes reads, intents and evidence of inactive tasks, and no others, lapse |
| Deadlines.MaintenanceRequests | crates/stateful-store/src/store_v2.rs:535-589 | and expires an offer that is over even if its task is overdue too |
| TaskAnswers.StartAnswer | crates/stateful-store/src/store_v2.rs:27-113 | when a task is started, answered with what it is, or refused; settings pass exactly if three heartbeats fit into the inactivity timeout and three leases outlast it |
| TaskAnswers.HeartbeatAnswer | crates/stateful-store/src/store_v2.rs:115-171 | accepted exactly for an own active task within its window, and moves the deadline to the time asked for |
| TaskAnswers.EndAnswer | crates/stateful-store/src/store_v2.rs:189-266 | a finalised task is completed and a cancelled one cancelled, at once, or draining towards that exactly while a write is unaccounted for; its evidence, intents, requests and leases go or drain |
| TaskAnswers.ReleaseAnswer | crates/stateful-store/src/store_v2.rs:1638-1678 | only the own lease can be given up; an idle one is gone, one with a write under way drains |
| TaskAnswers.ActivationLeaves | crates/stateful-store/src/store_v2.rs:1588-1636 | an offer taken up is a lease on what was offered, idle, under the next version; a refusal changes nothing |
| EvidenceProofs.SyncMoves | crates/stateful-store/src/store_v2.rs:806-905 | a generation rises by one exactly when the recorded state changes, and only for observed resources |
| EvidenceProofs.RevokeExact | crates/stateful-store/src/store_v2.rs:1084-1133 | revoking strikes exactly the valid evidence of others that overlaps one of the keys, and the read intents that rest on it |
| Runs.RunSafe | crates/stateful-store/src/store_v2.rs:591-679 | the invariant and work conservation hold after every run |
| Runs.RunLater | crates/stateful-store/src/store_v2.rs:591-679 | between any two moments of a run the tables move only forward |
| CommandEvolution.ExecuteLater | crates/stateful-store/src/store_v2.rs:591-679 | a command changes rows only forward: owners are fixed, terminal states final, identifiers never reused, receipts kept |
| Evolution.MaintainEvolves | crates/stateful-store/src/store_v2.rs:535-589 | so does maintenance |
| Theorems.MutualExclusion | crates/stateful-store/src/store_v2.rs:1978-2053 | after every run, what two tasks hold or have on offer never overlaps |
| Theorems.WritesNeverCollide | crates/stateful-store/src/store_v2.rs:2488-2564 | after every run, two tasks are never writing to overlapping resources |
| Theorems.UniqueIndexesRedundant | crates/stateful-store/src/schema_v2.rs:128-168 | what the unique indexes forbid occurs in no reachable state |
| Theorems.NoHoldAndWaitEver | crates/stateful-store/src/store_v2.rs:1407-1489 | no task both holds and waits; no agent has two leases or two offers |
| Theorems.NeverStuck | crates/stateful-store/src/store_v2.rs:2387-2486 | after every run each waiter has a reason to wait and its workspace has a holder |
| Theorems.NoLostUpdate | crates/stateful-store/src/store_v2.rs:1050-1133 | a valid read that overlaps what another task was writing was recorded after that moment |
| Generations.GenerationsExact | crates/stateful-store/src/store_v2.rs:838-895 | at every step of every run a generation rises by one exactly when the recorded state changes, rows stay, and a new row starts at one |
| Generations.GenerationsCount | crates/stateful-store/src/store_v2.rs:838-895 | from any moment to the end of a run a generation has risen by exactly the number of changes of the recorded state |
| Generations.EvidenceNeverStale | crates/stateful-store/src/store_v2.rs:1751-1784 | after every run valid evidence shows the recorded state and generation, and a generation is unchanged between two moments if and only if the recorded state never changed between them |
| Theorems.LeaseOutlivesWrite | crates/stateful-store/src/store_v2.rs:2488-2564 | an executing write holds slots on all it started from under a live lease, and every slot belongs to such a write |
| Theorems.TimeAloneFreesNothing | crates/stateful-store/src/store_v2.rs:1288-1361 | no sweep, at any instant, removes a lease with an executing or uncertain write |
| Theorems.LeaseNeverReturns | crates/stateful-store/src/store_v2.rs:2115-2177 | a lease that is gone never comes back under the same batch |
| Theorems.TerminalForEver | crates/stateful-store/src/store_v2.rs:189-266 | a terminal task keeps its status for ever and holds, awaits and writes nothing |
| Theorems.StatesOnlyAdvance | crates/stateful-store/src/store_v2.rs:591-679 | requests, attempts and leases never move backwards |
| Permits.PermitOutdatesEvidence | crates/stateful-store/src/store_v2.rs:1510-1514 | evidence of another task, from a read or a write of its own, that is ever valid after a permit and overlaps what it was given for was recorded after the permit |
| Permits.PermitsSeeLatestWrite | crates/stateful-store/src/store_v2.rs:1491-1514 | of two permits for overlapping resources the later one rests on evidence recorded after the earlier was given, and if that is a read, after every moment at which the earlier write was executing |
| PrepareAnswers.PrepareAnswer | crates/stateful-store/src/store_v2.rs:1364-1532 | exactly when a task that wants to write is given a permit, queued, told to read again, denied or refused; being told to read again names the task's own lease or request, and answers other than a permit or a place in the queue change nothing |
| PrepareAnswers.WantsOne | crates/stateful-store/src/store_v2.rs:1407-1417 | there is exactly one set of resources a task wants: what it holds or waits for, under the paths it has it under, and what it asks for |
| PrepareAnswers.MustWaitMeant | crates/stateful-store/src/store_v2.rs:1418-1433 | contention means that the task waits already, its agent holds a lease for another task, or another task holds or waits for something that overlaps |
| PrepareEffects.QueuedMeansQueued | crates/stateful-store/src/store_v2.rs:1433-1490 | over every run, the batch a queued client is told is a pending request of its task, in the state the answer leaves, and covers everything it asked to write |
| PrepareEffects.QueuedLeaves | crates/stateful-store/src/store_v2.rs:1455-1490 | a place in the queue is for everything the task wants: the one it had if it was for the very same, otherwise a new one behind everybody, replacing the old, with the task's lease given up |
| PrepareEffects.ReadyLeaves | crates/stateful-store/src/store_v2.rs:1491-1532 | a permit comes with a lease on everything the task wants until the time asked for, each reported resource taken by a new executing attempt that starts from what was reported |
| PrepareEffects.PermitMeansWriting | crates/stateful-store/src/store_v2.rs:2488-2564 | the same over every run |
| StableReads.ReadsAreStable | crates/stateful-store/src/store_v2.rs:388-432 | what a read that counts started from was on record at every moment from its start to its completion; what the client reported is `ReadAnswers.ReadsCount` |
| ReadAnswers.ReadsCount | crates/stateful-store/src/store_v2.rs:388-432 | over every run, a read counts exactly if the client calls it clean, reports at its end the keys and states it reported at its start, no more and no fewer, and no record of them moved in between; otherwise it is answered as failed |
| ReadAnswers.ReadAnswer | crates/stateful-store/src/store_v2.rs:327-432 | the answer to a finished read in every case, errors included, in terms of what it started from, what is reported and what is on record |
| ReadAnswers.ReadLeaves | crates/stateful-store/src/store_v2.rs:395-449 | a failed read changes the status of the attempt only; one that counts files a row for each resource, valid unless a later read or a peer's write in flight spoils it, takes the read intents due to it, and touches nothing else |
| ReadAnswers.ReadStartAnswer | crates/stateful-store/src/store_v2.rs:270-325 | a read is accepted exactly for the client's own active task, tidy observations and at least one, and an id and an invocation not used before |
| ReadAnswers.ReadBegins | crates/stateful-store/src/store_v2.rs:270-325 | an accepted read starts from exactly what is reported, and the projection then shows it |
| Reports.CanonicalExact | crates/stateful-store/src/store_v2.rs:1705-1732 | a list of observations is accepted exactly if each is of the workspace and of its kind and no identity occurs twice, and becomes the set of what it reports |
| Completions.CompletionMeans | crates/stateful-store/src/store_v2.rs:2605-2705 | what each answer to a finished write says the tables know: a completed one is recorded, within its paths and known to the writer; after a failed one knowledge is as it was; after an uncertain one nobody has evidence of what it touched |
| WriteAnswers.CompletionAnswer | crates/stateful-store/src/store_v2.rs:2605-2625 | a finished write is completed exactly if success is reported, something is expected, the operation achieves it from the start and the post-state is that up to order; failed exactly if a known failure is reported and every resource is in the state it started in; uncertain otherwise |
| WriteAnswers.WritesJudged | crates/stateful-store/src/store_v2.rs:2590-2625 | over every run, a write is judged by the operation and the observations it was permitted for, and only under its own permit |
| WriteAnswers.CompletionLeaves | crates/stateful-store/src/store_v2.rs:2627-2705 | exactly which slots, leases and task statuses a finished write changes: its own slots go, an uncertain one leaves its lease draining, a lease due for release goes with its last slot, a draining task ends with nothing left to account for |
| Fairness.NobodyOvertakes | crates/stateful-store/src/store_v2.rs:1427-1433 | at every step of every run no offer overlaps a request that has waited longer, and no lease gains a resource over anyone who waits, except a request activated in that very step over one that joined the queue later |
| Fairness.DirectWriteFair | crates/stateful-store/src/store_v2.rs:2074-2113 | a direct grant, of a new lease or of more for an old one, overlaps nobody who waits |
| Fairness.ActivateLeaseFair | crates/stateful-store/src/store_v2.rs:1534-1636 | an activated lease overlaps only requests that joined the queue after its own |
| ExactlyOnce.RetriesErased | crates/stateful-store/src/store_v2.rs:591-640 | erasing every retry from a run changes neither the final state nor any other answer |
| ExactlyOnce.AcceptedOnce | crates/stateful-store/src/store_v2.rs:591-640 | an accepted request sent again changes nothing and gets the recorded answer, or a refusal if the command differs |
| ExactlyOnce.RefusedLeavesNoTrace | crates/stateful-store/src/store_v2.rs:591-679 | a refused request leaves the tables as they were |
| RequestLives.ActivationExact | crates/stateful-store/src/store_v2.rs:1534-1636 | an activation is answered exactly for a request of the client's own active task in time, and succeeds exactly when the offer named is live, what is on offer was read since, and the agent holds no lease |
| RequestLives.NoWastedOffers | crates/stateful-store/src/store_v2.rs:1534-1636 | the same after every run: the conflict check behind it never decides |
| RequestLives.Last | crates/stateful-store/src/store_v2.rs:2248-2322 | the end of a chain of replacements: not superseded, same task, later in the queue, at least the same resources |
| RequestLives.ChainsEnd | crates/stateful-cli/src/sandbox.rs:714-747 | after every run each chain ends, and what was found along it earlier leads to the same end |
| RequestLives.TableObserved | crates/stateful-core/src/coordination.rs:220-246 | requests and leases move only along the declared state table, and never from an offer back into the queue |
| Paths.OperationPathNormal | crates/stateful-core/src/resource.rs:1520-1537 | an operation path is a join of plain components, and normalising it again changes nothing |
| Paths.PathLaws | crates/stateful-core/src/resource.rs:1520-1537 | backslashes are slashes, empty and `.` components are skipped, a component and the `..` after it cancel, and absolute paths and climbing out are refused |
| Paths.ContainsExact | crates/stateful-core/src/resource.rs:1513-1518 | a directory contains a path exactly when its components are a proper prefix |
| Paths.OverlapMeans | crates/stateful-core/src/resource.rs:1497-1511 | keys collide exactly when identity or path agree or one is a directory above the other, the workspace root being above everything; the test is symmetric |
| OperationProofs.SetCheckExact | crates/stateful-core/src/resource.rs:1315-1325 | with distinct keys, equal length and one-way membership decide exactly whether one list permutes the other |
| OperationProofs.SetCheckNeedsDistinctKeys | crates/stateful-core/src/resource.rs:1315-1325 | with repeated keys the same comparison accepts lists that are no permutations |
| OperationProofs.TransitionExact | crates/stateful-core/src/resource.rs:683-697 | comparing as sets is comparing up to order: a transition passes exactly when both checks pass and the post-state permutes the expectation; what the checks mean is `OperationMeaning.ChangeExact` |
| OperationMeaning.StartExact | crates/stateful-core/src/resource.rs:607-681 | for each of the ten operations, observations may start it exactly if they are, in any order, what the operation is about: kinds, presence, paths, names, device and inode, in one named workspace, and nothing else |
| OperationMeaning.ChangeExact | crates/stateful-core/src/resource.rs:699-818 | for each operation, start and post-state pass exactly if the one leads to the other: an update keeps the entry and changes content or object, a relocation swaps source and gap under the same object and entries, and so on |
| OperationMeaning.TransitionMeans | crates/stateful-core/src/resource.rs:683-697 | a transition passes exactly if the operation achieves the expectation and the post-state permutes it |
| OperationPieces.FileExact | crates/stateful-core/src/resource.rs:912-1023 | a file is one present object of its kind and the one present entry, named after the path, with the device and inode of the object |
| OperationPieces.EmptyDirectoryExact | crates/stateful-core/src/resource.rs:1085-1133 | an empty directory is its tree with no entries and its entry, marked empty, with the same device and inode |
| OperationPieces.ShapeExact | crates/stateful-core/src/resource.rs:1187-1230 | a list has the shape asked for exactly if it is of one named workspace, kinds match, and every place is taken once and nothing else is there |
| OperationPieces.EntryNamedExact | crates/stateful-core/src/resource.rs:1249-1259 | an entry belongs to a path exactly if its name begins as entries do and ends in the last component |
| OperationPieces.NamesIdentify | crates/stateful-core/src/resource.rs:1273-1313 | the name of an object or directory stands for one device and inode only |
| CommitMeaning.CommitStartExact | crates/stateful-core/src/resource.rs:820-865 | a structured commit may start from exactly the `.git` tree and the tracked files or gaps, each once, and nothing else |
| CommitMeaning.CommitChangeExact | crates/stateful-core/src/resource.rs:867-910 | it passes exactly if the `.git` tree stays the same directory with a new snapshot and everything else is as it was |
| OperationProofs.TransitionFramed | crates/stateful-core/src/resource.rs:683-818 | every path of an accepted post-state is a path of the start |
| OperationProofs.SlotsExact | crates/stateful-core/src/resource.rs:820-857 | a structured commit looks at an entry for each tracked path and at an object for those that exist, and at nothing else |
| OperationProofs.CommitTouchesOnlyGit | crates/stateful-core/src/resource.rs:867-910 | an accepted structured commit changes the snapshot of the `.git` tree, keeps its identity and leaves every tracked file as it was |
| OperationProofs.UndoExact | crates/stateful-core/src/resource.rs:699-818 | an operation leads from one state to another exactly when the one that undoes it leads back |
| OperationOrder.StartInAnyOrder | crates/stateful-core/src/resource.rs:607-681 | whether observations may start an operation does not depend on their order |
| OperationOrder.TransitionInAnyOrder | crates/stateful-core/src/resource.rs:683-818 | nor does the verdict on a transition |
| OperationOrder.NormalizedUniquePaths | crates/stateful-core/src/resource.rs:1354-1367 | the loop yields all paths in normal form, pairwise different, or the first error |
| OperationOrder.CommitShapeOf | crates/stateful-core/src/resource.rs:820-857 | the loop over tracked paths collects exactly the slots needed, or the first error |
| CanonicalJson.PrefixFree | crates/stateful-core/src/resource.rs:1401-1435 | no encoding is a proper prefix of another, and equal ones come from values equal up to key order |
| CanonicalJson.EncodingExact | crates/stateful-core/src/resource.rs:1401-1435 | two values have the same encoding exactly when they are equal up to key order, at every depth |
| CanonicalJson.BigEndianInjective | crates/stateful-core/src/resource.rs:1431-1435 | eight bytes determine every length below 2^64 |
| JsonBytes.BigEndianMeans | crates/stateful-core/src/resource.rs:1431-1435 | the eight bytes stand for the length, the first being the most significant |
| JsonBytes.BytesSpelled | crates/stateful-core/src/resource.rs:1401-1435 | the bytes of each kind of value, letter by letter |
| JsonBytes.ArraySpelled | crates/stateful-core/src/resource.rs:1411-1417 | the elements of an array follow its length, in order |
| JsonBytes.ObjectSpelled | crates/stateful-core/src/resource.rs:1418-1428 | the members of an object follow its size by ascending key, each key before its value |
| CanonicalJson.HashJsonAtom | crates/stateful-core/src/resource.rs:1431-1435 | what is fed to the hasher for a tagged atom |
| CanonicalJson.HashJsonValue | crates/stateful-core/src/resource.rs:1401-1429 | the recursive procedure feeds the hasher exactly the encoding |
| CanonicalJson.CanonicalBytes | crates/stateful-core/src/resource.rs:1392-1399 | the bytes hashed single out the value up to key order |
| MigrationProofs.CrashSafe | crates/stateful-store/src/migration_v2.rs:55-277 | after any series of interrupted attempts and uses the legacy data is in place or in the backup, main file and manifest are never both missing, generations never mix without a manifest, no step fails, and the next attempt completes, with what was in a database in use and an empty one otherwise |
| MigrationProofs.OpeningKeeps | crates/stateful-store/src/migration_v2.rs:65-69 | opening a database of the second generation leaves every file as it is, wherever it is cut short |
| MigrationProofs.DataKept | crates/stateful-store/src/migration_v2.rs:55-85 | through any series of cut attempts and uses a reader sees what was last put in |
| MigrationProofs.MigratedDataKept | crates/stateful-store/src/migration_v2.rs:55-160 | the same from the moment a migrated database is in use, with the legacy data still in the backup |
| MigrationProofs.OpeningExact | crates/stateful-store/src/migration_v2.rs:60-85 | without a manifest, an attempt is refused exactly for a missing main file with logs and for one that is no database; where there is nothing yet an empty database is made |
| MigrationProofs.AttemptSafe | crates/stateful-store/src/migration_v2.rs:55-160 | an attempt from any safe state is not refused, may be cut short anywhere, and otherwise ends migrated, backed up and without manifest |
| MigrationProofs.MigrationSafe | crates/stateful-store/src/migration_v2.rs:120-160 | the migration itself may be cut short after any file step |
| MigrationProofs.RecoverSafe | crates/stateful-store/src/migration_v2.rs:205-254 | recovery never has to refuse, may itself be cut short, and settles the files with the legacy database back in place |
| MigrationProofs.PersistApplied | crates/stateful-store/src/migration_v2.rs:256-271 | writing the manifest aside and renaming it changes it in one step |
| MigrationMachine.Machine.OpenLocked | crates/stateful-store/src/migration_v2.rs:55-85 | one attempt on a machine that may lose power: safe wherever it stops, complete if it does not, and a database of the second generation is left as it is |
| MigrationMachine.Machine.MigrateLegacy | crates/stateful-store/src/migration_v2.rs:120-160 | the procedure takes exactly the steps of the staged migration |
| MigrationMachine.Machine.RecoverInterruptedMigration | crates/stateful-store/src/migration_v2.rs:205-228 | recovery dispatches on the stage recorded and refuses exactly when its source is missing |
| MigrationMachine.Machine.RestoreBackupSet | crates/stateful-store/src/migration_v2.rs:230-254 | the backup is copied aside and moved into place after everything else is cleared |
| MigrationMachine.Machine.QuarantineOldSet | crates/stateful-store/src/migration_v2.rs:179-188 | the main file and whichever logs it has are moved aside |
| MigrationMachine.Machine.DiscardAttempt | crates/stateful-store/src/migration_v2.rs:208-219 | an attempt without a backup is undone without touching the main file |
| MigrationMachine.Machine.OpenMain | crates/stateful-store/src/migration_v2.rs:60-85 | the main file is created, initialised, migrated or refused as specified, and a database of the second generation is taken with every file as it is |
| MigrationMachine.Machine.RemoveDatabaseSet | crates/stateful-store/src/migration_v2.rs:761-771 | a database file and its three sidecars go |
| MigrationMachine.Machine.PersistManifest | crates/stateful-store/src/migration_v2.rs:256-271 | wherever the power fails the manifest is the old one or names the new stage, and no other file but the temporary one is touched; if it does not fail the new stage is named |
| ShellWords.SplitSimpleCommandWords | crates/stateful-cli/src/shell_command.rs:8-76 | the loop computes the strict splitting, with the same refusals |
| ShellWords.SplitProcessInspectionCommandWords | crates/stateful-cli/src/sandbox.rs:1731-1797 | the loop computes the lenient splitting |
| ShellWords.SplittersAgree | crates/stateful-cli/src/sandbox.rs:1731-1797 | whatever the strict splitter accepts, the lenient one splits the same way |
| ShellGrammar.StrictAccepts | crates/stateful-cli/src/shell_command.rs:8-76 | a text is accepted exactly if every character is literal where it stands, none of the twenty a shell might interpret outside quotes, no expansion inside double quotes, no escape but that of a single quote, and no quote is left open |
| ShellGrammar.LenientAccepts | crates/stateful-cli/src/sandbox.rs:1731-1797 | the lenient splitter accepts every text that leaves no quote open |
| ShellGrammar.LineMeans | crates/stateful-cli/src/shell_command.rs:8-76 | both splitters read a line as it is meant, however its words are put together from bare characters, escaped single quotes and quoted text and whatever white space surrounds them |
| ShellGrammar.BackslashMeans | crates/stateful-cli/src/sandbox.rs:1745-1780 | behind a backslash the lenient splitter takes any character as it is, bare or in double quotes |
| ShellWords.QuotedRead | crates/stateful-cli/src/sandbox/parse.rs:1-3 | a quoted text adds exactly that text to the word being read |
| ShellWords.SplitUndoesQuote | crates/stateful-cli/src/commit.rs:875-883 | splitting the joined quoted forms of any words gives them back, in both styles and with both splitters |
| ShellWords.ResolveSandboxRunCommand | crates/stateful-cli/src/sandbox/parse.rs:18-64 | accepted exactly for one non-blank command or a sequence of non-blank steps with a valid shell; a sequence splits into shell, `-c` and the script |

## Left out

- The HTTP server and client, process identity, start locks, agent hooks, install-time editing and sandbox launching: plumbing around the modelled core.
- Observation of the real file system: the model starts from observations that are given.
- Audit events, the command event log, runtime process rows, handoff texts and status counts: the protocol never reads them back.
- The acquired generation and the mode of a lease, and the source id of evidence: stored and never read.
- Overflow of generations, versions, queue numbers and durations, and unparsable timestamps: numbers are unbounded and times are given as such.
- Rows that could only be corrupt, such as an offered request without an offer time: the tables are typed so that they cannot arise.
- BLAKE3 itself: a payload is compared by the bytes that are hashed, so an accidental collision is not modelled.
- The test that a digest names BLAKE3 as its algorithm: the type of algorithms has no other value (crates/stateful-core/src/coordination.rs:93-95), so it never fails.
- The order in which conflicting owners are listed, and the texts of error messages: one error per kind is kept.
- Concurrent legacy writers, file permissions, symbolic and hard links, and the lock database of the migration: one process works at a time, each finished file step is durable and a rename is atomic.
- The schema comparison that tells legacy, new, empty and unknown databases apart: a database file carries its generation.
- Stores.Store.LatestRequest: follows the chain at one moment; `RequestLives.ChainsEnd` covers a client that polls while the store moves on, and the waiting and its timeout are not modelled.
- RequestLives.TableObserved: a lease row disappears when it ends, so released, expired and cancelled leases are not told apart.
- An uncertain write does not hold its lease against its owner's own commands in the source, which look at slots only; nothing to the contrary is claimed.
