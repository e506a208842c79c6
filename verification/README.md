# Verification of the durable run scheduler

The scheduler executes tasks ("runs") that survive crashes. Its state is one SQLite database; every
`Store.transaction()` is an atomic step that is rolled back by any error. Workers, an API process and a recovery scan
work on it at the same time, and a tool call spans several transactions with effects on the outside between them. This
project models that system and proves what every interleaving keeps.

## How the model is built

**The database.** `Domain` holds the entities. The rows of one run (the run, its attempts, operations, grants,
interactions, waits, inputs, dependencies) form a `Cell`; `RunMachine` has one function per transaction on them, with
the source's branches and errors. `Tables` adds what spans runs: the order of creation, branches, claims, delegation,
scans, cancellation and the budget ledger of `Budget`.

**The system.** `Gateway` cuts `ToolGateway.execute` at its transaction boundaries: a call holds the lock of its
operation, is in a phase, and each phase allows the next transaction. `World` puts the database, the clock, the live
processes, the locks and a history of executor starts and answers sent into one transition system. An event is one
transaction or one step outside the database; a failing event changes nothing. Theorems speak of every state that any
finite sequence of events reaches.

**The proof.** `RunInvariant` and `RunSteps` show for one run, and `TablesInvariant`, `RowEvents`, `NewRuns`,
`Claiming`, `Scans`, `Settling` and `Transactions` for the database, that each transaction keeps the invariant and
undoes nothing; `WorldInvariant` and `WorldSteps` do so for the system. `Effects`, `Barriers`, `Waking`, `Shifts`,
`Executors`, `Attempts`, `Trees`, `Endings` and `Outcomes` hold the main theorems; `Witnesses` holds reachable states
that show what they must not claim.

**What each operation is for.** `Waking`, `References`, `Requests`, `Fences`, `Verdicts` and `Starts` say of the main
operations, without the functions that compute them, when they are accepted and what they leave: quantified over
references, forms, children, operations, grants and paths of parents. `Budget`, `Permits`, `Compaction`, `PluginLives`
and `ModelSelection` do so for theirs.

**The objects.** The classes `Store`, `Scheduler` and `ToolGateway` have the source's methods with its loops: the
worklist of `cancel`, the scan for a claimable run, the loops over operations, interactions, waits, references and
budget dimensions. Each method is proved equal to the function the theorems are about. `SchedulerLoops` and `TaskTree`
hold the lemmas of those loops.

**Beside the core.** `Permits` (model calls across processes), `History` and `Compaction` (context), `EventStream`
(printer, parser and cursor of server-sent events, a subset of section 9.2 of the WHATWG HTML Standard),
`Dependencies`, `Plugins`, `PluginLives` and `PluginProcesses` (versions, in one registry and in several over one
store), `ModelSelection`, and `Policy`. `Collections` holds what several of them need of sequences and sets.

## Conventions

- Ids are naturals and fresh where the source generates them. An operation is identified by its run and the pair of
  message and tool call, which the source keeps unique. Hashes and JSON values are numbers that are only compared.
- Time is a natural that only grows; the set of live processes only shrinks. A context belongs to the process that
  claimed the run. The per-operation lock of a process is an entry in a table that dies with the process.
- Integers are unbounded; budget amounts are reals.
- What the outside decides (results of tools, decisions of policy, whether a file has the expected content, whether
  evidence of non-execution exists, the content of summaries) is an arbitrary choice of the event.
- Recovery reads an attempt, its lease, the clock and the process before its transaction; the model splits it there,
  and anything may happen between the two.
- Expiry, refresh and cancellation are specified for all rows at once; the methods' sequential loops are proved to
  give the same.

## What the proofs found

- `settle` checks that an interaction belongs to the settling run, but looks up waits and operations by id alone
  (`harness/scheduler/service.py:419-429`). `Outcomes` gives the exact condition under which rows of other runs stay
  as they are, and a state in which an outcome with a foreign wait breaks the interrupt barrier. The system's traces
  therefore take from the worker that an outcome names rows of its own run (`World.Own`).
- Nothing in the repository sets `proven_not_started`, so `confirm_not_executed` (`harness/tools/gateway.py:462-470`)
  always refuses. The theorems allow for executors that set it; `Effects.AtMostOnceUnattested` is the bound without
  it.
- `harness/tools/gateway.py:263` sets `authorized` without looking at the operation's state. That this never restarts
  a finished or running operation follows from the lock, the fence and the revision together (`Gateway.GatePhase`,
  `WorldSteps.GateKeeps`).
- The branch of `claim` for a queued run that was asked to cancel cannot be taken.
- A rejection by the fence is not always final. If a worker renews its lease between recovery's read of it and
  recovery's transaction (`harness/scheduler/service.py:743-759`), the run is recovering under a live lease; a
  cancellation then lets the old context act again where `allow_cancelling` is given. `Executors.RejectedForeverIff`
  is the exact condition, `Witnesses.StoppedContextPassesAgain` the run.
- A rejected model command is not final (`ModelSelection.RejectedMayApply`) until a later selection is accepted or the
  run ends (`ModelSelection.RejectionFinalIff`).
- A plugin manifest that offers one name in two categories of a namespace (skills and skill sources share one) stores
  one configuration and publishes the other (`Plugins.TwiceOffered`); `Plugins.ContributeAllShowsIff` is the exact
  condition for any manifest.
- Running and cancelling runs together are not bounded by `worker_slots`: `Witnesses.SlotsExceeded` is a state in
  which a cancellation exceeds it, `Endings.BusyBoundIff` says when an event does.
- A run may end while a child has not: it fails (`Witnesses.FailedWithLiveChild`), or is cancelled while queued
  (`Witnesses.CancelledWithLiveChild`). `Endings.LiveChildOfEnded` says that these are the only ways, and
  `Endings.FailsWithLiveChildIff` and `Endings.CancelledOverChildIff` when each of them happens.
- The server and the worker each have a plugin registry that counts its own calls only. One can dispose a version
  under a call of the other, after the call's run was released (`PluginProcesses.DisposedUnderCall`);
  `PluginProcesses.AttendedStaysIff` and `DisposesInUseIff` are the exact conditions, and releasing a run only without
  a call in flight avoids it (`InUseIsNotDisposed`). No code in the repository enters `invocation`.
- The end of `invocation` is not atomic: its sweep (`harness/plugins/registry.py:166-209`) runs under the process's
  lock, but reads and writes in separate transactions, as does the restoring of holds
  (`harness/plugins/integration.py:111-120`). Such a write may come too late (`PluginProcesses.StaleDisposal`); a held
  version stays usable exactly unless one does (`PluginProcesses.HeldStaysUsableIff`).

## Model

| member | source | states |
|---|---|---|
| `Effects.AtMostOnce` | harness/tools/gateway.py:86-330 | Over every interleaving of claims, calls, crashes, lapsed leases, recovery, resumes and reconciliation, the executor of an operation whose effect is not a read is entered at most once, unless that operation was confirmed not to have run; an operation that is not in the ledger was never started. |
| `Effects.ResetNeedsEvidence` | harness/tools/gateway.py:462-470 | The only event that confirms an operation was not executed is a reconciliation of that unknown operation for which the executor had left evidence. |
| `Effects.AtMostOnceUnattested` | harness/tools/gateway.py:86-330 | On every run in which no executor attests that it did not start (nothing in the repository sets the attestation), the bound of one start has no exception. |
| `Effects.FinishedForever` | harness/tools/gateway.py:382-391 | Once an operation is succeeded, failed or cancelled, its state and its recorded result are the same at every later time. |
| `Effects.ExchangeBound` | harness/mcp/continuation.py:19-98 | For every operation, answers sent never exceed rounds begun, rounds never exceed the configured maximum, a round that still awaits its answer has not sent it, and first call plus answers are at most the maximum plus one. |
| `Effects.AnswerTakenOnce` | harness/mcp/continuation.py:70-98 | Once the answer of a round was taken for sending, that round never awaits an answer again: later awaiting means a strictly higher round. |
| `Barriers.InterruptBarrier` | harness/scheduler/service.py:471-493 | In every reachable state a queued, running or recovering run has an answer to each interrupt it requires, and a waiting run lacks at least one. |
| `Barriers.AnsweredForever` | harness/scheduler/service.py:495-564 | A resolved, expired or cancelled interaction never changes again, whatever happens. |
| `Barriers.ScanMissesNoWait` | harness/scheduler/service.py:713-739 | After a scan every bound wait has its resolution whose children have all ended, for mode `all`, or some of whose children have, for mode `any`, judged by their statuses after the scan. |
| `Barriers.NoLostWakeUp` | harness/scheduler/service.py:487-493 | A run that still waits after a scan lacks an answer that no ended child could have given: each wait that would give it has a child that has not ended, for mode `all`, or no child that has, for mode `any`. |
| `Barriers.ScanResolvesIff` | harness/scheduler/service.py:713-739 | The scan gives a bound wait without resolution its resolution exactly if every child is there and has ended, for mode `all`, or some child has, for mode `any`; every other wait stays as it was. |
| `Waking.AwaitRests` | harness/scheduler/service.py:382-441 | A running run that settles an outcome that waits requires exactly the interrupts of the outcome's references; it goes to review exactly if a reference asks for one, and otherwise back to the queue exactly if every reference has its answer; its checkpoint is the outcome's and its attempt is over. |
| `Waking.NotAgainBefore` | harness/scheduler/service.py:487-493 | Whatever happens after such a settlement, until the run runs again: when it is queued or running, every reference of the outcome has its answer (for a run sent to review, the reviewed mark of a reconciliation). |
| `Waking.AnsweredIff` | harness/scheduler/service.py:471-485 | In a run that keeps its invariant, the barrier's notion of an answer is: a form with that interrupt was resolved, expired or cancelled, or a bound child wait with it was resolved, or it was reviewed. |
| `Waking.AwaitMissesNoWait` | harness/scheduler/service.py:437-441 | The settlement itself resolves every bound wait of the run that ended children satisfy, so that none is parked for children that have ended before. |
| `Waking.ReferencesBind` | harness/scheduler/service.py:387-429 | The references bind exactly the rows that they name: pending forms open under the interrupt of a reference to them, waits are bound, running operations become unknown; every other row is as it was. |
| `Waking.RequiredStays` | harness/scheduler/service.py:362-441 | Whatever event happens, what a run requires changes only by its own settlement while it runs. |
| `References.BindsIff` | harness/scheduler/service.py:387-429 | References are accepted exactly if each names a row that is there, a form of the settling run and of the inputs that it has seen, and no two forms of the same inputs would get one interrupt. |
| `References.AwaitIff` | harness/scheduler/service.py:362-386 | An outcome that waits is accepted from a running run exactly if it is the run's own, its worker is in charge, it has a checkpoint, and its references are acceptable. |
| `Requests.RequestDoes` | harness/scheduler/service.py:495-534 | A response, heartbeat, wait, question, steering input or acknowledgement is accepted exactly if what it needs is there (for a response: the form open, current and unexpired, the run waiting for its user, the answer fitting), and does exactly what is stated, a wake-up included. |
| `Requests.ExpiryDoes` | harness/scheduler/service.py:536-564 | Expiry touches waiting runs only, closes each open form that is due and no other, and queues a run exactly when all that it requires is answered then. |
| `Requests.PendingUntilAcked` | harness/scheduler/service.py:882-892 | A pending steering input stays pending through every event, until an acknowledgement that names it by a worker in charge of the run. |
| `Requests.InputsStay` | harness/storage/store.py:1112-1139 | No event but a steering request or an acknowledgement for the run changes its inputs. |
| `Barriers.CancelReachesTree` | harness/scheduler/service.py:575-612 | One cancellation leaves every run of the tree cancelling, cancelled or as it had ended, and leaves every other run and every ended run untouched. |
| `Barriers.TreeStays` | harness/scheduler/service.py:636-653 | Whoever is under a cancelled run later was under it when it was cancelled, and is still ended or ending. |
| `Barriers.CancellationBarrier` | harness/scheduler/service.py:566-634 | From a cancellation on, at every later time, each run of the tree is cancelling, cancelled, or in the very status it had ended with, and the tree has gained no member. |
| `Executors.SingleAttempt` | harness/scheduler/service.py:318-332 | At most one attempt of a run is not over; it is the latest claim with the highest token, and its run is running, recovering or cancelling; a running run has one. |
| `Executors.PermanentlyStale` | harness/storage/store.py:511-557 | A context that does not hold its lease (STALE_WORKER) never holds it at any later time: no heartbeat, recovery or claim gives it back. |
| `Executors.RejectedForeverIff` | harness/storage/store.py:511-525 | A rejected context is rejected at every later time exactly unless it still holds its lease and the call allows a cancelling run: that is, unless the error was RUN_STOPPED under `allow_cancelling`. |
| `Executors.CancelAdmits` | harness/scheduler/service.py:741-759 | In that one case the run is recovering, and a cancellation lets the context pass again. |
| `Executors.CancelFlagIff` | harness/scheduler/service.py:575-612 | In every reachable state the cancellation flag is set exactly on cancelling and cancelled runs. |
| `Executors.TokensIncrease` | harness/scheduler/service.py:318-331 | A claim gets a token above every token the run has given out. |
| `Executors.CompletionIsSound` | harness/scheduler/service.py:442-469 | A completed run has, then and at every later time, only finished operations, only ended children, no unconsumed input, no open interaction, only revoked grants, a result, a checkpoint, and not its branch. |
| `Executors.RecoveryClassifies` | harness/scheduler/service.py:755-838 | Recovery changes no operation and no attempt while the old process lives; afterwards it has ended the attempt and sorted each running operation (intact exchange kept, write found done succeeded with its hash, read prepared again without its grant, otherwise unknown), and every grant is revoked that no intact exchange needs, whatever the status of the run; a run that was running or recovering is queued exactly when no operation is unknown, and the row of any other run, a cancelling one included, is untouched. |
| `Executors.RecoveryKeepsExchanges` | harness/scheduler/service.py:760-787 | For a run of any status, an operation still running after recovery is an intact exchange awaiting its answer, and it and its grant are what they were. |
| `Executors.LeavingRecovery` | harness/scheduler/service.py:741-849 | Whatever event happens, a run leaves recovery only by a cancellation or by a recovery that found the process of its current attempt dead. |
| `Executors.RecoveryDoes` | harness/scheduler/service.py:741-787 | A recovery needs a lease that was seen and has lapsed, and a process that is alive or gone as it says; it touches the run it saw only, and only while the attempt that it saw is the run's; every grant is revoked but those that a resumable operation needs. |
| `Fences.WritesAreFenced` | harness/storage/store.py:511-525 | No transaction of a worker commits unless its attempt is the run's present one, with its token, not ended and with a lease that has not lapsed at that moment, and the run is running, or cancelling for what winds it up. |
| `Fences.GateDoes` | harness/tools/gateway.py:86-391 | Each transaction of a tool call succeeds exactly if its call has come to it, its worker is in charge and what it needs is there (for a resumption: the original grant unrevoked, unexpired, under the present policy, for this very operation), and it leaves exactly what is stated; no other run is touched. |
| `Fences.LookupDoes` | harness/tools/gateway.py:87-107 | A lookup changes no table; it takes the lock exactly for an operation that is new, prepared, or running with an exchange that can go on, and refuses other arguments and other tools. |
| `Fences.PhasesMoveOn` | harness/tools/gateway.py:86-391 | A call that holds its lock goes from phase to phase in the listed ways only: prepared, authorized, entered; or verified, answer taken, sent. |
| `Fences.NoneGoesOnUnasked` | harness/tools/gateway.py:346-356 | Over any sequence of events: a call that executes its operation has been authorized since it was last not executing, and one that takes or sends a saved answer has had the original grant verified, each time by a worker in charge. |
| `Fences.OutsideDoes` | harness/tools/gateway.py:283-286 | Entering an executor needs the call's grant (or a host wait), sending an answer needs that it was taken, and each is counted once. |
| `Attempts.AttemptEnds` | harness/storage/store.py:553-557 | Whatever event happens, an attempt is ended only by its own settlement or by a recovery that found its process dead. |
| `Attempts.ClaimStaysMine` | harness/scheduler/worker.py:211-222 | Over any sequence of events in which a live process does not settle its attempt, its run's row names that very attempt and token, so the context that the worker derives anew is its own claim. |
| `Shifts.StatusShifts` | harness/scheduler/service.py:100-195 | A run's status changes only by the events, and from and to the statuses, that the table `Shifts` lists; recovery waits for the process's death, acknowledged cancellations for the children. |
| `Endings.CancelledHow` | harness/scheduler/service.py:575-634 | A run becomes cancelled only with all its children ended, or together with its whole tree, whose runs have all ended or are cancelling. |
| `Endings.LiveChildOfEnded` | harness/scheduler/service.py:442-469 | In every reachable state, a run that has ended while a child has not either failed, or was cancelled and every run below it has ended or is cancelling. |
| `Endings.CancelledOverChildIff` | harness/scheduler/service.py:603-612 | An event leaves a run that had not ended cancelled over a live child exactly when it cancels a tree with the run in it, the run ends at once (queued, or waiting for its user with no child and nothing in doubt), and one of its children neither has ended nor ends at once; all of this is read before the event. |
| `Endings.FailsWithLiveChildIff` | harness/scheduler/service.py:442-469 | A run fails only by its own settlement, and leaves a live child exactly if it has one at that moment: the settlement that fails does not look at children. |
| `Endings.BusyBoundIff` | harness/scheduler/service.py:300-317 | From a state within the bound, an event leaves running and cancelling runs together within `worker_slots` exactly if their number and that of the runs which the event makes cancelling are; claims keep the bound, cancellations and accepted reviews do not look at it. |
| `Verdicts.CancelledWithoutDoubt` | harness/scheduler/service.py:377-381 | Whatever event takes a run from cancelling to cancelled finds every operation neither running nor unknown, or accepted as unresolved, and no child alive afterwards. |
| `Verdicts.FinishIdleIff` | harness/scheduler/service.py:622-634 | The scan cancels a cancelling run exactly if its attempt is over, every operation is neither running nor unknown or was accepted, and every child had ended before or comes later in the order and ends in the same scan; every other run is as it was. |
| `Verdicts.SettlementEnds` | harness/scheduler/service.py:362-469 | What a settlement that does not wait makes of its run: an acknowledged cancellation ends exactly without an operation in doubt and with ended children; with one in doubt a running run goes to review; otherwise it completes with the result, or fails; the attempt is over and what an ended run held open is closed. |
| `Verdicts.StopsIff` | harness/scheduler/service.py:442-469 | Such a settlement of a running run is accepted exactly if it is the run's own, its worker is in charge, and, for a final outcome, no input is pending and, with nothing in doubt, there are checkpoint, result and only ended children. |
| `Verdicts.ReconcileMeans` | harness/scheduler/service.py:851-880 | A reconciliation is accepted exactly for an unknown operation at its revision, of a run in review or cancelling, with a note and with what the decision needs; and it does exactly what is stated to the operation, the grants and the run. |
| `Verdicts.QueuedFromReviewIff` | harness/scheduler/service.py:858-863 | A run leaves review for the queue exactly by an accepted reconciliation that resumes it and finds every other operation not unknown, or accepted as unresolved. |
| `Verdicts.ReconciliationDoes` | harness/scheduler/service.py:851-880 | In the system, an accepted reconciliation does this to its run and nothing to any other: until nothing else is in doubt, status and reviewed marks stay; then all that was required is reviewed. |
| `Verdicts.CancellationDoes` | harness/scheduler/service.py:566-612 | A cancellation of any known run reaches exactly the runs whose parents lead up to it; each that has not ended loses its grants and open forms and is cancelled at once (queued, or waiting for its user without children and without an operation running or unknown) or cancelling with its operations untouched. |
| `Verdicts.UnderIff` | harness/scheduler/service.py:568-573 | In a delegation forest the runs of a tree are those from which a path of parents leads to its top. |
| `Witnesses.StoppedContextPassesAgain` | harness/scheduler/service.py:743-759 | A reachable state with a context that the fence rejects, with its lease alive, and admits again after a cancellation: the lease was renewed between recovery's read and its transaction. |
| `Witnesses.SlotsExceeded` | harness/scheduler/service.py:300-317 | A reachable state within `worker_slots` that one cancellation takes beyond it. |
| `Witnesses.FailedWithLiveChild` | harness/scheduler/service.py:442-469 | A reachable state with a failed run whose child has not ended. |
| `Witnesses.CancelledWithLiveChild` | harness/scheduler/service.py:603-612 | A reachable state with a cancelled run whose child is still cancelling. |
| `Trees.BranchOwnership` | harness/storage/store.py:421-426 | A branch is owned by r exactly when r is a run on it that was claimed and has not ended; there is at most one such run. |
| `Trees.CapacityHolds` | harness/scheduler/service.py:300-317 | In every reachable state at most `worker_slots` runs run, and at most `child_concurrency` children of one root. |
| `Trees.ClaimsInOrder` | harness/scheduler/service.py:303-333 | A run claimed for the first time overtakes no older root run of its branch that was never claimed. |
| `Trees.DelegatesOnce` | harness/scheduler/service.py:636-645 | Delegations are never lost, and at all times a delegation key has one child and a child one delegation key. |
| `Trees.DescendantsAreCharged` | harness/scheduler/service.py:680-697 | The number of a root's descendants equals what its account has consumed of `children`, and so is within the limit of the account. |
| `Trees.DelegationNarrows` | harness/scheduler/service.py:646-657 | In a delegation forest, depth is bounded and a run's frozen capabilities are among those of each run above it. |
| `Trees.DelegationBounds` | harness/scheduler/service.py:646-657 | The same holds in every reachable state. |
| `Starts.ClaimDoes` | harness/scheduler/service.py:292-333 | A claim takes exactly the run that is next up: while fewer runs are busy than there are workers, the first in order that is queued, on a branch that is free or its own, and, for a child, with fewer busy children of its root than allowed. The run gets the new attempt, the next token, a lease from now, and its branch; nothing else changes. |
| `Starts.DelegateIff` | harness/scheduler/service.py:636-705 | A new delegation succeeds exactly if its worker is in charge before the deadline, no cancellation was asked for at the root, depth and requested capabilities allow it, and the root's limit on children leaves room beyond the descendants that it has. The child gets the capabilities that were asked for, or else all that parent and present policy share, and is paid for. |
| `Starts.DelegatesAgain` | harness/scheduler/service.py:640-645 | A delegation made before is found again exactly with the same arguments, and changes nothing. |
| `Starts.SubmitDoes` | harness/scheduler/service.py:197-290 | A submission makes a queued root run with the capabilities, deadline and limits that were given, and an untouched account. |
| `Outcomes.OthersUntouchedIff` | harness/scheduler/service.py:387-429 | Settling an outcome that waits leaves the rows of other runs as they were exactly when no reference names another run's child wait or running operation: the source checks only interactions for belonging to the settling run. |
| `Outcomes.SettlementUntouchedIff` | harness/scheduler/service.py:362-441 | The same equivalence for the whole settlement: rows of other runs stay as they are exactly when no reference that it binds names another run's child wait or running operation. |
| `Outcomes.IntrusionBreaksBarrier` | harness/scheduler/service.py:419-429 | From a reachable database, a fenced settlement whose outcome names another run's wait succeeds and leaves that run queued without an answer that it requires. |
| `WorldSteps.StepKeeps` | harness/tools/gateway.py:86-330 | Every event keeps the invariant of the whole system (database, locks, histories of starts and sends) and undoes nothing that must stay. |
| `WorldSteps.PlayKeeps` | harness/tools/gateway.py:86-330 | So does every sequence of events. |
| `WorldSteps.GateKeeps` | harness/tools/gateway.py:86-330 | Each transaction of a tool call keeps the system's invariant; the unguarded write of `authorized` is covered by lock, fence and revision. |
| `Gateway.GateIsFenced` | harness/tools/gateway.py:86-330 | Each transaction of a tool call that succeeds passed the fence, so its attempt is the run's current one and is not over. |
| `Gateway.GatePhase` | harness/tools/gateway.py:86-330 | After each transaction the operation is in the state that the call's next step relies on. |
| `NewRuns.SubmitKeeps` | harness/scheduler/service.py:197-290 | Submission keeps the database's invariant: order, forest, ownership, capacity, charges. |
| `NewRuns.DelegateKeeps` | harness/scheduler/service.py:636-705 | Delegation keeps it too, with the child's price reserved and settled at once. |
| `Claiming.PickIsFirst` | harness/scheduler/service.py:305-317 | What is picked is claimable and comes first, and nothing is picked only if nothing is claimable. |
| `Claiming.FirstInFirstOut` | harness/scheduler/service.py:303-333 | In any database that satisfies the invariant, the pick overtakes no older never-claimed root run of its branch. |
| `Claiming.ClaimInKeeps` | harness/scheduler/service.py:292-333 | A claim keeps the database's invariant, capacity and branch ownership included, and undoes nothing. |
| `Settling.SettleKeeps` | harness/scheduler/worker.py:211-222 | The worker's settlement of its own run keeps the database's invariant and undoes nothing; in particular it completes a run only with all children ended and no input pending. |
| `Settling.RecoverInKeeps` | harness/scheduler/service.py:755-838 | The transaction of recovery, whenever its lease was read, keeps the database's invariant and undoes nothing. |
| `Scans.CancelInKeeps` | harness/scheduler/service.py:566-612 | Cancelling a tree keeps the database's invariant and undoes nothing. |
| `Scans.ExpireInKeeps` | harness/scheduler/service.py:536-564 | Expiry of interactions keeps the database's invariant and undoes nothing. |
| `Scans.RefreshInKeeps` | harness/scheduler/service.py:734-739 | The scan of child waits keeps the database's invariant and undoes nothing. |
| `Scans.FinishAllKeeps` | harness/scheduler/service.py:622-634 | Ending idle cancellations, latest run first, keeps the database's invariant and undoes nothing. |
| `RunSteps.ClaimKeeps` | harness/scheduler/service.py:318-332 | A claim keeps the run invariant (one attempt, answered barrier, ledger) and gives the fence to nobody but itself. |
| `RunSteps.RespondKeeps` | harness/scheduler/service.py:495-534 | A response keeps the run invariant, wakes the run only if nothing is missing, and leaves closed forms alone. |
| `RunSteps.ExpireKeeps` | harness/scheduler/service.py:536-564 | Expiry of all due interactions of a run keeps its invariant and undoes nothing. |
| `RunSteps.RefreshKeeps` | harness/scheduler/service.py:713-732 | Resolving any set of ready waits keeps the run invariant and undoes nothing. |
| `RunSteps.AddWaitKeeps` | harness/scheduler/service.py:707-711 | A new wait on own children keeps the run invariant. |
| `RunSteps.ParkKeeps` | harness/scheduler/service.py:430-441 | Parking a run on the bound references keeps its invariant: it is queued again if all are answered already, and waits otherwise. |
| `RunSteps.AckCancelKeeps` | harness/scheduler/service.py:377-381 | Acknowledging a cancellation never fails on the current attempt of a cancelling run, keeps the run invariant and undoes nothing. |
| `RunSteps.StopKeeps` | harness/scheduler/service.py:442-469 | Every other outcome that ends the attempt keeps the run invariant and undoes nothing. |
| `RunSteps.CancelKeeps` | harness/scheduler/service.py:575-612 | A cancelled run keeps the run invariant from every status, and is left with the flag exactly when it is cancelling or cancelled. |
| `RunSteps.FinishIdleKeeps` | harness/scheduler/service.py:622-634 | Ending an idle cancellation keeps the run invariant and undoes nothing. |
| `RunSteps.RecoverKeeps` | harness/scheduler/service.py:755-838 | The transaction of recovery on the current attempt, lapsed or renewed since it was read, keeps the run invariant and undoes nothing. |
| `RunSteps.ReconcileKeeps` | harness/scheduler/service.py:851-880 | A reconciliation keeps the run invariant, and the state and result of what was finished stay. |
| `RunSteps.SteerKeeps` | harness/scheduler/service.py:882-892 | A steering input keeps the run invariant and only raises the input revision. |
| `RunSteps.AckKeeps` | harness/storage/store.py:1130-1139 | Acknowledging inputs keeps the run invariant. |
| `RunSteps.HeartbeatKeeps` | harness/storage/store.py:545-551 | A heartbeat keeps the run invariant and lets nobody pass the fence who did not pass it before. |
| `RunSteps.PrepareOpKeeps` | harness/storage/store.py:655-698 | Preparing an operation keeps the run invariant and the operations that are there. |
| `RunSteps.AuthorizeKeeps` | harness/tools/gateway.py:252-268 | Authorizing and consuming a grant keeps the run invariant, given that the call still finds the operation prepared. |
| `RunSteps.FinishOpKeeps` | harness/tools/gateway.py:382-391 | Recording a result keeps the run invariant and undoes nothing, given that the operation was still open. |
| `RunSteps.SuspendKeeps` | harness/mcp/continuation.py:19-68 | Suspending for input keeps the run invariant, and rounds never go back. |
| `RunSteps.TakeAnswerKeeps` | harness/mcp/continuation.py:70-98 | Taking a saved answer keeps the run invariant, and within a round an answer that was taken stays taken. |
| `Budget.ReserveConserves` | harness/storage/store.py:887-913 | A reservation keeps every account equal to the sums of its reservations and within its limits. |
| `Budget.SettleConserves` | harness/storage/store.py:918-946 | So does a settlement, whether replayed, unknown, or settled after being unknown. |
| `Budget.ReservationHolds` | harness/storage/store.py:887-913 | A new reservation that is accepted sets exactly its amount aside on its account, within the limit of each dimension, and touches nothing else; a repeated one changes nothing. |
| `Budget.SettlementCharges` | harness/storage/store.py:918-946 | The first settlement with a usage consumes exactly the usage that was reported, frees exactly what had been reserved, records the usage, and touches nothing else. |
| `Budget.ChargedOnce` | harness/storage/store.py:923-929 | Once charged, the same settlement is accepted again and changes nothing; every other one is refused. |
| `Permits.PermitsAndBooksHold` | harness/scheduler/budget.py:39-103 | Over any sequence of calls, completions, charges and process deaths, live permits stay within `concurrency` and the ledger stays conserved. |
| `Permits.AccountsAddUp` | harness/storage/store.py:887-946 | From fresh accounts, after any such sequence, reserved is the sum of open and unknown amounts, consumed the sum of settled usage, and no limit is passed. |
| `Permits.BooksFollowEvents` | harness/storage/store.py:887-946 | Over any sequence, the reservations are those that the events asked for, and the settled ones those that the events reported a usage of, with the first usage reported. |
| `Permits.ReportedIsCharged` | harness/storage/store.py:887-946 | From untouched accounts, what an account has consumed is the sum of the usages that the events reported, and what is reserved on it the sum of what they asked for and have not settled. |
| `Permits.AcquireDoes` | harness/scheduler/budget.py:45-84 | A permit is taken exactly by a living process, with fewer permits of living processes out than `concurrency` and an affordable reservation. |
| `Permits.CompleteDoes` | harness/scheduler/budget.py:86-103 | The end of a call gives exactly its permit back, whether or not the settlement is accepted. |
| `Permits.ModelBudget.Active` | harness/scheduler/budget.py:49-50 | The loop finds exactly the permits whose process still runs. |
| `Permits.ModelBudget.TryReserve` | harness/scheduler/budget.py:45-84 | One round of `reserve` waits exactly when all permits are taken; otherwise it takes one together with its reservation, or neither. |
| `Store.Store.UpdateRun` | harness/storage/store.py:476-509 | The row is replaced at exactly the revision it was read at, with the next revision; otherwise nothing changes. |
| `Store.Store.UpdateInteraction` | harness/storage/store.py:861-873 | The same guard for an interaction. |
| `Store.Store.UpdateOperation` | harness/storage/store.py:706-729 | The same guard for an operation. |
| `Store.Store.UpdateWait` | harness/storage/store.py:990-1008 | The same guard for a wait. |
| `Store.Store.SetBranchOwner` | harness/storage/store.py:421-426 | The owner changes exactly from the one expected. |
| `Store.Store.EndAttempt` | harness/storage/store.py:553-557 | The attempt is over, nothing else changes. |
| `Store.Store.InsertRun` | harness/storage/store.py:428-474 | The new run takes its place in the order (created_at, id). |
| `Store.Store.Reserve` | harness/storage/store.py:887-913 | A new reservation is accepted exactly if no dimension is negative or beyond the limit, sets its amount aside and touches nothing else; a replay changes nothing; a refusal names its reason and changes nothing. |
| `Store.Store.Settle` | harness/storage/store.py:918-946 | The first settlement with a usage within the reservation charges exactly that usage to the account and touches nothing else; a replay is accepted and changes nothing; a refusal names its reason and changes nothing. |
| `Store.ReserveDimensions` | harness/storage/store.py:896-905 | The loop over dimensions succeeds exactly when all fit, and then adds the whole amount; a refusal is of a negative or an unaffordable dimension. |
| `Store.CheckUsage` | harness/storage/store.py:932-934 | The loop accepts exactly the usages within the reservation. |
| `Store.SettleDimensions` | harness/storage/store.py:935-937 | The loop gives the reservation back and consumes the usage in every dimension. |
| `TaskTree.Extends` | harness/scheduler/service.py:568-573 | One step of the worklist keeps it duplicate-free, below the top, and closed under children of what was looked at. |
| `TaskTree.ListsTheTree` | harness/scheduler/service.py:568-573 | When the cursor reaches the end, a run is listed exactly when it is in the tree. |
| `SchedulerLoops.RefreshOneMore` | harness/scheduler/service.py:713-732 | Resolving one more ready wait, with its wake-up, after others gives what resolving all of them together gives. |
| `Scheduler.Scheduler.Transition` | harness/scheduler/service.py:100-195 | The status changes exactly when the move is allowed and the revision is current; grants, forms, prepared operations and the branch follow as the new status demands. |
| `Scheduler.Scheduler.CloseInteractions` | harness/scheduler/service.py:111-134 | The loop withdraws exactly the interactions that were not closed. |
| `Scheduler.Scheduler.DropOperations` | harness/scheduler/service.py:135-170 | The loop cancels exactly the operations that were prepared. |
| `Scheduler.Scheduler.Descendants` | harness/scheduler/service.py:568-573 | The worklist lists each run of the tree once, and no other; it terminates because the dependencies form a forest. |
| `Scheduler.Scheduler.CancelRun` | harness/scheduler/service.py:575-612 | One run of the worklist ends or starts ending as its status asks, and gives its branch back when it ends. |
| `Scheduler.Scheduler.Cancel` | harness/scheduler/service.py:566-612 | The whole tree is cancelled in one transaction, equal to cancelling each of its runs as it was read. |
| `Scheduler.Scheduler.CountRuns` | harness/scheduler/service.py:303-304 | The count of the runs that match. |
| `Scheduler.Scheduler.Start` | harness/scheduler/service.py:318-332 | The writes of a claim happen together or not at all. |
| `Scheduler.Scheduler.MayClaim` | harness/scheduler/service.py:305-317 | The guards of one row; the branch for a cancelled queued run cannot be taken, and is proved dead. |
| `Scheduler.Scheduler.Claim` | harness/scheduler/service.py:292-333 | The first claimable run in order is claimed, or nothing is; the returned context passes the fence. |
| `Scheduler.Scheduler.WakeRun` | harness/scheduler/service.py:487-493 | A waiting run is queued exactly when nothing it requires is missing. |
| `Scheduler.Scheduler.ExpireInteractions` | harness/scheduler/service.py:536-564 | The scan expires all due interactions of all runs and wakes those runs. |
| `Scheduler.Scheduler.Respond` | harness/scheduler/service.py:495-534 | A response is stored exactly when the form is open, unexpired, current and fits; otherwise the error is the first that applies and nothing changes. |
| `Scheduler.Scheduler.FinishIdle` | harness/scheduler/service.py:622-634 | The scan, latest run first, ends exactly the idle cancellations without an operation in doubt whose children have ended by then (`Verdicts.FinishIdleIff`). |
| `Scheduler.Scheduler.RecoverOperations` | harness/scheduler/service.py:788-838 | The loop sorts every running operation and reports whether one is unknown. |
| `Scheduler.Scheduler.Observe` | harness/scheduler/service.py:743-754 | What recovery reads before its transaction: an attempt is taken up exactly if its run is running, recovering or cancelling and the lease has lapsed by then. |
| `Scheduler.Scheduler.Recover` | harness/scheduler/service.py:755-838 | The transaction for an attempt read before it does what its specification says, whatever happened to the lease since, and keeps the database's invariant. |
| `Scheduler.Scheduler.RefreshRun` | harness/scheduler/service.py:713-732 | The loop resolves exactly the ready waits of one parent, as `Barriers.ScanResolvesIff` spells them out. |
| `Scheduler.Scheduler.RefreshWaits` | harness/scheduler/service.py:734-739 | The loop over all parents, each seeing what the earlier ones changed, equals one simultaneous scan, which `Barriers.ScanResolvesIff` spells out. |
| `Scheduler.Scheduler.Bind` | harness/scheduler/service.py:387-429 | One reference is bound, or refused with its error and nothing changed. |
| `Scheduler.Scheduler.SettleAwait` | harness/scheduler/service.py:382-441 | The outcome that waits: references bound in order, barrier checked, run parked, attempt ended, to the effect that `Waking.AwaitRests` and `References.BindsIff` spell out. |
| `Scheduler.Scheduler.SettleStop` | harness/scheduler/service.py:442-469 | The outcomes that end an attempt, with their errors. |
| `Scheduler.Scheduler.Settle` | harness/scheduler/service.py:362-469 | The whole settlement is atomic: an error leaves the tables as they were. |
| `Scheduler.Scheduler.SettleFinal` | harness/scheduler/worker.py:211-222 | The worker settles a final outcome only while no input is pending, in the same transaction. |
| `Scheduler.Scheduler.PayChild` | harness/scheduler/service.py:680-697 | The price of one child is reserved and settled together, or nothing is and the refusal names its reason. |
| `Scheduler.Scheduler.Delegate` | harness/scheduler/service.py:636-705 | A replay finds its child; a new delegation is made whole, as `Starts.DelegateIff` spells out, or refused with the first error that applies. |
| `Scheduler.Scheduler.Reconcile` | harness/scheduler/service.py:851-880 | Operation, grants and run follow the decision as `Verdicts.ReconcileMeans` spells out; an error changes nothing. |
| `ToolGateway.ToolGateway.Lookup` | harness/tools/gateway.py:87-107 | The lock is taken exactly when there is something to do; finished, doubtful and foreign operations are turned away. |
| `ToolGateway.ToolGateway.Prepare` | harness/storage/store.py:655-698 | The operation is prepared as specified, or nothing changes and the lock's phase stays. |
| `ToolGateway.ToolGateway.Authorize` | harness/tools/gateway.py:252-268 | The grant is stored, consumed once and the operation started, or the tables are restored. |
| `ToolGateway.ToolGateway.Finish` | harness/tools/gateway.py:382-391 | The result is recorded and the lock given back. |
| `ToolGateway.ToolGateway.Suspend` | harness/mcp/continuation.py:19-68 | A round is opened with its form, or nothing changes. |
| `ToolGateway.ToolGateway.TakeAnswer` | harness/mcp/continuation.py:70-98 | A saved answer is taken exactly once per round, under the operation's revision. |
| `History.ValidateHistory` | harness/model_gateway/protocol.py:17-36 | Where open calls are not allowed, the loops accept exactly the histories of complete exchanges; what they return is the set of calls still open. |
| `History.PairedIff` | harness/model_gateway/protocol.py:17-36 | The state machine of the validator agrees with an independent definition: each assistant's calls are new to the history and are answered, each once, by the messages right after it. |
| `History.CutPaired` | harness/model_gateway/protocol.py:17-36 | Cutting such a history before anything but an answer gives two such histories. |
| `Compaction.Compose` | harness/context/service.py:326-382 | The loops compute the view without what the summary covers, if all of this is part of the history, the boundary at the n-th last user message, and the candidates. |
| `Compaction.MergeRefs` | harness/context/service.py:527-528 | The refs of the old summary and the candidates are merged in order, without duplicates. |
| `Compaction.CompactionCuts` | harness/context/service.py:356-373 | A compaction moves the covered refs from one history prefix that ends at a user message to a longer one, and the view it returns is the one that the new summary gives. |
| `Compaction.NothingIsLost` | harness/context/service.py:326-382 | With a cut the summary belongs to the history, and covered refs and view together account for every message; the view is the images of the covered part and the whole rest; recent user turns stay; both parts are valid histories. |
| `Compaction.ContextKeeps` | harness/context/service.py:169-184 | Every event on a thread keeps pointer, summaries and work in progress consistent and undoes nothing. |
| `Compaction.CompactionLosesNothing` | harness/context/service.py:326-404 | The same account holds after any interleaving of new messages, pins, refreshes and compactions. |
| `Compaction.ConstraintsStay` | harness/context/service.py:533-541 | Constraints of the active summary are in every later active summary; the pointer's revision is the stored one and grows with each change; the input revision never goes back. |
| `Compaction.ActivationIsFresh` | harness/context/service.py:510-628 | A summary is activated only if pointer and pins are those it was made from, and then holds every constraint in force. |
| `Compaction.CutsExactly` | harness/context/service.py:356-373 | With more user messages at work than are to be kept, exactly that many are left after the cut; otherwise nothing new is covered. |
| `Compaction.BeginDoes` | harness/context/service.py:510-541 | A compaction notes the revisions it read, the refs that it will cover, and every constraint in force. |
| `Compaction.ActivateDoes` | harness/context/service.py:600-628 | A compaction is activated exactly if its summary holds what it noted and neither pointer nor pins have changed, and is then the active one. |
| `EventStream.SseParser.Push` | apps/web/src/api/event-stream.ts:12-38 | A push returns the frames of the buffer with the chunk, keeps the rest, and fails exactly when the rest is too long. |
| `EventStream.ChunkIndependence` | apps/web/src/api/event-stream.ts:12-38 | Pushing any chunking of a text gives the frames and the rest that pushing it whole gives. |
| `EventStream.RoundTrip` | harness/server/app.py:350-370 | Parsing what the server prints for durable events, passing events and heartbeats returns exactly those events in order. |
| `EventStream.BrokenConnection` | harness/server/app.py:344-376 | Wherever the connection breaks, whatever the chunks, the client has got a prefix of the printed events. |
| `EventStream.PrefixHandled` | apps/web/src/state/run-reducer.ts:143-154 | Any prefix of the printed frames, checked and reduced from a cursor that the client has reached, keeps the client up to date. |
| `EventStream.ResumeDeliversOnce` | harness/server/app.py:344-376 | One connection end to end: the server prints from a cursor at or before the client's, with passing events and heartbeats between, the text breaks anywhere and arrives in any chunks, the client parses, checks and applies; it has exactly a prefix of the log, and all that was sent if nothing was lost. |
| `EventStream.EveryEventOnce` | apps/web/src/api/event-stream.ts:66-118 | Over any number of such connections to a growing log, each durable event is applied once and in order, and the client neither asks for recovery nor meets a frame that does not fit. |
| `Dependencies.Resolver.Visit` | harness/plugins/registry.py:67-86 | The recursive visit terminates; it lists the manifest after all that was chosen for it, or reports a fault that the batch really has. |
| `Dependencies.Resolver.Resolve` | harness/plugins/registry.py:60-89 | A normal return lists each identity once with dependencies first; a refusal is right about its reason; with one manifest per version it returns normally exactly when there is no cycle, conflict or missing plugin. |
| `Dependencies.SortedIsAcyclic` | harness/plugins/registry.py:60-89 | A batch that has such an order has no cycle of chosen dependencies. |
| `Dependencies.SortedIsSound` | harness/plugins/registry.py:72-82 | It has no conflict and no missing plugin either. |
| `Plugins.ContributeShowsIff` | harness/plugins/integration.py:61-72 | A contribution leaves what is published in step with its owners exactly unless the name's owner is the contributing version with another stored configuration. |
| `Plugins.ContributeAllOwned` | harness/plugins/integration.py:49-75 | Registering a manifest keeps each name owned by a highest version of one plugin. |
| `Plugins.ContributeAllShowsIff` | harness/plugins/integration.py:49-75 | A whole manifest leaves what is published in step with its owners exactly if each offered name that the version owns is last offered as it is stored, and each name that it takes is offered first as last. |
| `Plugins.TwiceOffered` | harness/plugins/integration.py:61-72 | A manifest that offers a name in two categories of one namespace stores one configuration and publishes the other. |
| `Plugins.Stages` | harness/plugins/registry.py:19-35 | The staging refuses exactly the manifests that list a name twice in one category. |
| `Plugins.Extensions.Register` | harness/plugins/integration.py:49-75 | Registration happens exactly when no name belongs to the host or another plugin and no category lists a name twice, and then as a whole; what is published stays in step exactly under the stated condition. |
| `Plugins.Extensions.UnregisterOne` | harness/plugins/integration.py:82-95 | Withdrawing one contribution falls back to a highest version that is left, or unpublishes the name, and touches no other name. |
| `Plugins.Extensions.Unregister` | harness/plugins/integration.py:77-96 | The loop withdraws exactly the version's contributions. |
| `PluginLives.GainsHoldIff` | harness/plugins/registry.py:138-150 | A run gains a hold exactly by binding a ready version, or when a process writes back a lost hold that it has read to be missing. |
| `PluginLives.DisposesIff` | harness/plugins/registry.py:192-209 | A usable version stops being usable by an operation exactly if the operation's own guards let it dispose the version: unheld, and no call of the same process. |
| `PluginLives.InFlightIff` | harness/plugins/registry.py:155-171 | A call enters exactly with a hold, an instance and a usable version, and ends exactly when it leaves or its process goes. |
| `PluginLives.LosesHoldIff` | harness/plugins/registry.py:184-190 | A hold is given up exactly by the release of its run. |
| `PluginLives.VersionDoes` | harness/plugins/registry.py:91-209 | What each operation makes of each version's state and instance: disposed exactly when nothing uses it any more or its disposal was decided, drained, loaded, or as it was. |
| `PluginLives.TaskDoes` | harness/plugins/registry.py:166-209 | What a process is in the middle of after each operation. |
| `PluginProcesses.HeldStaysUsableIff` | harness/plugins/registry.py:138-209 | With several processes over one store, a step keeps every held version ready or draining exactly unless it is stale: the write that ends a call finds the version held by now, or the write that restores a hold finds it not usable by now. |
| `PluginProcesses.HeldIsNeverDisposed` | harness/plugins/registry.py:138-209 | Over any steps of any processes none of which is stale, a version that a run holds is neither disposed nor failed. |
| `PluginProcesses.DrainingGainsNone` | harness/plugins/registry.py:138-182 | Over any steps of any processes, a version that is not ready gains no hold and does not become ready until one of them loads it anew or restores a lost hold of it. |
| `PluginProcesses.FinishIsFresh` | harness/plugins/registry.py:166-171 | Between its read of the holds and its write, the end of a call goes stale only if a process loads the version anew or restores a hold of it. |
| `PluginProcesses.RestoreIsFresh` | harness/plugins/integration.py:111-120 | Between its reads and its write, the restoring of a hold goes stale only if a process disposes the version. |
| `PluginProcesses.AttendedStaysIff` | harness/plugins/registry.py:184-190 | A step leaves every call in flight its hold exactly unless it releases a run that has a call in flight, in whatever process. |
| `PluginProcesses.InUseIsNotDisposed` | harness/plugins/registry.py:155-209 | Over any steps of any processes, if runs are released only without a call in flight and no step is stale, every version that a call uses is held and ready or draining. |
| `PluginProcesses.DisposesInUseIff` | harness/plugins/registry.py:192-209 | A step takes the version from a call of another process exactly if its own guards let it dispose the version, whatever the call; unless it is stale, the call's hold has been given up by then. |
| `PluginProcesses.SparesOwnCalls` | harness/plugins/registry.py:192-209 | A process never disposes a version that a call of its own uses. |
| `PluginProcesses.DisposedUnderCall` | harness/plugins/registry.py:173-190 | Reachable steps: a run calls a version in one process; the other drains it, releases the run, and disposes the version under the call. |
| `PluginProcesses.StaleDisposal` | harness/plugins/registry.py:166-209 | Reachable steps: the end of a call reads that its version drains unheld; the other process disposes it, loads it anew and binds a run; the first one writes, and the run holds a disposed version. |
| `PluginLives.PluginRegistry.BindRun` | harness/plugins/registry.py:138-150 | A run gets a hold exactly if it has one or the version is ready, so a draining version gains none. |
| `PluginLives.PluginRegistry.Enter` | harness/plugins/registry.py:155-165 | A call enters exactly with a hold, a loaded instance, and a version that is ready or draining; the count of the process goes up by one. |
| `PluginLives.PluginRegistry.Leave` | harness/plugins/registry.py:166-171 | The end of a call, up to its read of the state: the count goes down by one. |
| `PluginLives.PluginRegistry.Clear` | harness/plugins/registry.py:192-196 | Its read of the holds and the count. |
| `PluginLives.PluginRegistry.Finish` | harness/plugins/registry.py:197-209 | Its writes, in transactions of their own: the version is disposed and its record overwritten, whatever the record says by then. |
| `PluginLives.PluginRegistry.Drain` | harness/plugins/registry.py:173-182 | The version drains, or is disposed at once if unused; a disposed one stays so. |
| `PluginLives.PluginRegistry.DisposeIfUnused` | harness/plugins/registry.py:192-209 | Inside a transaction, exactly a draining version that no run holds and no call of this process uses is disposed and its contributions are withdrawn. |
| `PluginLives.PluginRegistry.ReleaseRun` | harness/plugins/registry.py:184-190 | The loop drops exactly the run's holds; exactly the draining versions that lost their last use are disposed. |
| `PluginLives.PluginRegistry.Load` | harness/plugins/registry.py:91-125 | A version is loaded exactly under the stated checks, with the manifest it was recorded with; a draining one goes on draining; a refusal changes nothing. |
| `PluginLives.PluginRegistry.ReleaseDead` | harness/plugins/integration.py:104-110 | The loop releases exactly the holds of runs that are not live, which equals giving them up at once. |
| `PluginLives.PluginRegistry.MissHold` | harness/plugins/integration.py:111-119 | A lost hold of a live run is to be stored again exactly if the manifest is the recorded one and the version is ready or draining. |
| `PluginLives.PluginRegistry.RestoreHold` | harness/plugins/integration.py:120-120 | It is stored, whatever the version's state is by then. |
| `ModelSelection.SelectionKeeps` | harness/runtime/model_selection.py:153-282 | Every operation keeps commands, control and bindings consistent, and undoes nothing that must stay. |
| `ModelSelection.BindingsAreStable` | harness/runtime/model_selection.py:225-256 | However calls, selections, rejections and the end of the run interleave: a logical call is bound once and for all, bindings in time order have non-decreasing revisions and the profile desired at theirs, effective is at most control revision, superseded and not-applied commands stay so. |
| `ModelSelection.GivenOnce` | harness/runtime/model_selection.py:225-256 | However calls, selections and rejections interleave, all bindings that one logical call is ever given are the same. |
| `ModelSelection.SelectDoes` | harness/runtime/model_selection.py:153-206 | A selection is made exactly at the revision that the caller read; it opens its command, supersedes the one that was open, and changes neither bindings nor what is in effect. |
| `ModelSelection.BindDoes` | harness/runtime/model_selection.py:225-256 | A call is told the binding that it has; else, at the current revision, its new one, which takes effect and marks the latest command; else to compose again. |
| `ModelSelection.RejectDoes` | harness/runtime/model_selection.py:258-282 | A rejection marks exactly the latest command, at its own revision only; the end of the run marks exactly the command that is still open. |
| `ModelSelection.BoundAtRevision` | harness/runtime/model_selection.py:225-248 | A binding is made at the control revision of its time, which becomes the effective one. |
| `ModelSelection.RejectedStaysIff` | harness/runtime/model_selection.py:225-273 | A rejected command stays rejected under an operation exactly unless this binds a new call at the current revision while the command is the latest one and the run goes on. |
| `ModelSelection.RejectionFinalIff` | harness/runtime/model_selection.py:153-282 | A rejected command stays rejected under every sequence of moves, whichever candidates are still held, exactly if a later selection was accepted or the run has ended. |
| `ModelSelection.RejectedMayApply` | harness/runtime/model_selection.py:258-273 | A concrete history in which a rejected command is later applied. |
| `ModelSelection.Selector.Select` | harness/runtime/model_selection.py:153-206 | The guarded writes of `select`, with their errors. |
| `ModelSelection.Selector.Bind` | harness/runtime/model_selection.py:225-256 | A replay returns the saved binding, a changed selection asks to compose again, otherwise the call is bound. |
| `ModelSelection.Selector.Reject` | harness/runtime/model_selection.py:258-273 | A rejection of the latest revision is recorded; an older one changes nothing. |
| `ModelSelection.Selector.Finish` | harness/runtime/model_selection.py:275-282 | Only a command still requested becomes not applied. |
| `Policy.CurrentIsTheMeet` | harness/policy/engine.py:60-112 | The present policy allows a host or a capability exactly when host, workspace and environment each do, and asks for approval when one of the two policies does; platform fields of a stored policy count only where the environment says nothing. |
| `Policy.AgentNarrows` | harness/policy/engine.py:114-137 | An agent's named policy narrows in the same exact sense, its own platform fields aside. |
| `Policy.EffectiveIsTheMeet` | harness/policy/engine.py:139-172 | What a run may do is exactly what the present policy, the frozen one and the mode's limits each allow, hosts included. |
| `Policy.ChildWithinParent` | harness/scheduler/service.py:654-657 | Whatever changes later, a child's effective capabilities lie within what its parent was frozen with and the present policy. |

## Left out

- Effects.AtMostOnce: counts entries into the executor; a read may be entered again after recovery, as the source intends.
- Effects.ExchangeBound: the bound on first call plus answers is for operations that are not reads, since a read may be called again.
- Barriers.NoLostWakeUp: states what a scan finds, not that a scan happens; a run may wait or recover forever.
- Executors.RejectedForeverIff: is about contexts whose attempt exists, as does that of every context a claim returned.
- Permits.ModelBudget.TryReserve: is one round of the source's loop; how often it tries again, its time-out and its rate limit are left out. The permits and live processes are parameters, since they are rows that other processes write.
- EventStream.EveryEventOnce: assumes that a run's events are numbered without gaps and that envelopes are written on one line and read back as they were; the size limits of batch and buffer, other than the failure of a push, and the answers to an invalid cursor are left out.
- Compaction.Compose: token estimates decide whether to compact and are a parameter here; materials and their trimming are left out.
- Compaction.ContextKeeps: the pointer, the summaries and the pins are values in a state machine rather than rows that a method writes; the model's summary is any set of constraints.
- PluginLives.PluginRegistry.Load: checks of version range, entry point and dependencies, and the success of a factory, are parameters; a rollback that itself fails is left out, as is the conflict check against one process's own extension table, which the check against the stored contributions implies.
- PluginLives.PluginRegistry.MissHold: is one step of the manager's loop over the snapshots of live runs; `snapshot_refs` and the run's own checks of its references are left out.
- PluginLives.PluginRegistry.ReleaseDead: is the loop without other processes in between; with them, each round is a release of its own. The list of live runs is a parameter, read before the loop.
- PluginLives.PluginRegistry.Enter: is one step; a hold that is given up between its two reads might as well be given up after the call entered. A transaction that is rolled back does not bring back an instance that was disposed in it.
- Dependencies.Resolver.Resolve: versions are an abstract order and requirements sets of versions, instead of PEP 440.
- Tool budgets: the reservations that a tool call makes and settles for its own cost are not in the system's traces. They touch the ledger only, never the `children` dimension, and a refused one only withholds an event; that any sequence of reservations and settlements is conserved is proved in `Permits`.
- Events, outbox, hooks, messages, artifacts, snapshots and preferences, and what is shown to users.
- The worker's resume filter, its tick loop, lease renewal, retries and everything about timing and progress.
- Resource locks and operating-system file locks of the tool gateway, and vault secrets.
- What policies decide about a call and what an approval says; the gateway's events carry the result.
- JSON Schema checks, path and endpoint checks, authentication, and the other HTTP routes.
- `create_branch`: branches exist from the start or are made by delegation.
- The deadline of a run, except where delegation reads it.
- Stream assembly, response validation and attachments of the model gateway, memory, and MCP transport.
