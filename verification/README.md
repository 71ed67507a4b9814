# A verified model of the durable task protocol

A lead node hands a task to an executor node. Each keeps its state in transactional tables; between them a
gateway holds durable custody of signed messages. This project models that protocol in Dafny and proves what
it promises over every run: with messages lost, repeated and reordered, with connections that come and go,
with drivers that hang, and with crashes at any point.

`dafny verify dfyconfig.toml` checks the whole project.

## How the model is built

Each `SqliteStore.transaction` is one atomic step, and a crash drops every volatile field and keeps the
tables. An asynchronous function is a program counter, and one event runs the code between two awaits.
Identifiers are abstract tokens. Digests and hashes are injective, so a digest is modelled by the content it is
taken of; a signature is valid for exactly the key and the content it was made with. A field of an untrusted
body is absent, null, well typed or anything else (`Core.Field`). Clocks, random identifiers, the answers of
the driver, publisher, collector and sink, and the state of sockets are parameters.

Code that updates fields is a class with those fields; an abstraction function gives its value, and every method
is proved to do to that value what a function on values does. The results over whole runs are lemmas about those
functions. The executor, the lead's task machine and the pump's connection carry their own history as a ghost log,
so the results about runs hold of every such object.

For each component two kinds of results are proved: that nothing wrong ever happens, over every run, and that what
should happen does. The second kind is an if and only if on what each operation answers, and, from every reachable
state, a continuation that gets there: a slot can be freed, a message delivered, a report posted, a task completed.

| part | modules |
|---|---|
| Durable executor | `ExecutorState`, `DurableExecutor`, `ExecutorProtocol`, `ExecutorSafety`, `ExecutorExclusion`, `ExecutorReports`, `ExecutorProgress` |
| Lead task machine | `LeadMachine`, `LeadTaskMachine`, `LeadEnds`, `LeadRuns`, `LeadTimers`, `LeadTasks` |
| Lead and executors | `TaskExchange`, `Lease`, `LeaseProtocol`, `LeaseNecessity`, `LeaseRenewal` |
| Acceptance of artifacts | `Manifest`, `Verdicts`, `VerdictsEarned` |
| Custody chain | `CustodyTable`, `CustodyStore`, `CustodyPump`, `CustodyChain`, `CustodyNodes` |
| Node runtime store | `Tables`, `NodeDb`, `NodeStore`, `NodeRuns`, `NodeAnswers`, `NodeMail` |
| Connection claims | `Claims`, `ClaimAnswers`, `ClaimRegistry` |
| Registry and reports | `Ordered`, `Registry`, `RegistryAnswers`, `Directory`, `Reports`, `ReportsDrain` |
| Capabilities and routing | `Caps` |

## Where the code does not keep what one would expect

- **Two runs at once.** `driver.start` is called at most once per fence and a slot is cleared only on proof of
  quiescence, always. That at most one run is alive holds as long as no start is committed while the shared
  `starting` latch is held. `start()` does not check that: the watcher of a start that timed out clears the
  latch in its `finally`, also when the latch by then belongs to the next start, and `recover()` may then free
  the slot with that next start in flight. `ExecutorExclusion.AtMostOneRun` proves the property under the
  guard, `GuardNecessary` that every unguarded commit of a healthy executor can end that way (unless a stale handle
  makes the next pass fault first), and `TwoRunsWithoutGuard` gives a run with two live executions.
- **Leases can overlap after an owner's redispatch or an expired offer.** `LeaseProtocol` proves that a lost lease, a
  failure, a failed acceptance and a rejection never lead to overlap, and that a forced attempt does not either when it
  is outlasted: the lead can check that before it forces. `LeaseNecessity` proves the condition exact for each cause. An
  owner's redispatch of a run that has been silent for d ms can overlap if and only if leaseMs > d + drainMs; an open
  offer forced away d ms after it was sent, by the owner or by its expiry, if and only if the executor's TTL - 1 +
  leaseMs > d + drainMs. With the default parameters a full aid lease is safe from its owner after 90 s of silence,
  and an expired offer is not safe (`DefaultForcing`). The covering inequality is needed as well.
- **A cancelled task that was never dispatched, an accepted lease that is not positive, or an offer whose deadline is
  out of range is written and then refused on the next read** (`LeadTasks.EventKeepsValidIff`, both directions).
- **A rejected offer that is offered again in the same event is not reported**, and nothing else moves the attempt
  without a report (`LeadTasks.SilentReofferIff`). The centre's attempt then lags by the number of such offers
  since the last report, and only then (`Reports.CentreAttemptIff`), while its status is right.
- **An uplink to a suspended or revoked node is routed**: only the sender has to be active (`Caps.UplinkIff`, with the
  input in `Caps.SuspendedRecipientIsRouted`).
- **A failed import keeps the entries before the bad one** (`LeadTasks.ImportUnchangedIff`).
- **The SQL claim store differs from the in-memory registry** on an invalid time and on a renewal whose clock ran
  back by more than the lease (`Claims.RefinesIff`, `Claims.ClockRunsBack`).
- **Offers routed across teams are always refused by this executor** (`ExecutorState.CrossTeamOfferRefused`),
  although the gateway routes them and they pass the capability gate (`Caps.RoutedOfferPassesGate`).
- **A grant with an empty capability tag passes its mutation and fails validation**, and no other new grant does
  (`Registry.GrantKeepsValidIff`); nothing is written then.
- **What an executor signs, the lead may refuse**: a blank path, two files of one path, or a number that is not positive
  is signed without complaint and fails admission (`Manifest.SignedDeliveryVerifiesIff`, both directions).

## Model

| member | source | states |
|---|---|---|
| `ExecutorState.OfferKeepsValid` | packages/node/src/runtime/executor.ts:273-312 | offer maps an accepted snapshot to an accepted one |
| `ExecutorState.ControlKeepsValid` | packages/node/src/runtime/executor.ts:314-342 | cancel and lease renewal keep every relation the decoder enforces |
| `ExecutorState.ConsumeKeepsValid` | packages/node/src/runtime/executor.ts:250-271 | every consumed envelope keeps the decoder's invariant |
| `ExecutorState.TickKeepsValid` | packages/node/src/runtime/executor.ts:345-369 | lease expiry and heartbeats keep it, including progress and renewal numbers |
| `ExecutorState.FinishKeepsValid` | packages/node/src/runtime/executor.ts:371-383 | finishing keeps the relation of generation, slot and last run |
| `ExecutorState.UnknownKeepsValidIff` | packages/node/src/runtime/executor.ts:419-427 | parking a run keeps the snapshot acceptable exactly when that run may have started |
| `ExecutorState.StartKeepsValid` | packages/node/src/runtime/executor.ts:479-526 | the commits around driver.start keep it |
| `ExecutorState.ShutdownKeepsValid` | packages/node/src/runtime/executor.ts:601-611 | closing keeps it |
| `ExecutorReports.DenialIff` | packages/node/src/runtime/executor.ts:273-292 | an offer passes exactly when all nine gates are open, policy and capabilities included, and is refused with the code of the first that is not |
| `ExecutorReports.OfferAnswered` | packages/node/src/runtime/executor.ts:292-312 | every consumed offer is answered once: taken, with the run, lease, deadlines and acceptance it calls for, exactly when it is admitted; else one reject to its sender and no change |
| `ExecutorReports.CancelIff` | packages/node/src/runtime/executor.ts:326-332 | a message is recorded as the cancel of the run exactly when it is allowed, in time, addressed to the run and names no other generation or run id; then only the stop is recorded |
| `ExecutorReports.LateCancelIff` | packages/node/src/runtime/executor.ts:316-324 | with the slot empty, exactly a cancel of the last run is acknowledged, with what became of it |
| `ExecutorReports.RenewIff` | packages/node/src/runtime/executor.ts:333-341 | the lease deadline moves exactly for a renewal of this fence, for the last heartbeat, newer than the last and within the lease, and then to the deadline it names |
| `ExecutorReports.TickIff` | packages/node/src/runtime/executor.ts:345-369 | a tick stops the run exactly when its lease has run out, and else sends the heartbeat exactly when one is due |
| `ExecutorReports.ShutdownIs` | packages/node/src/runtime/executor.ts:601-611 | closing stops the run for its first reason, and leaves a parked run alone |
| `ExecutorReports.FinishReports` | packages/node/src/runtime/executor.ts:371-383 | ending a run sends its lead one message: an acknowledgement iff it was cancelled, its result iff nothing stopped it and it has one, else a failure with the driver's own retryable flag; the same outcome is recorded |
| `ExecutorReports.EndIsReportedAndTold` | packages/node/src/runtime/executor.ts:371-417 | in every run, a step that takes a run out of the slot sends its report last, and its outcome, unless a stop reason overrides it, is what the handle, its quiescence or the publisher said of that fence, or a failure the executor owns up to |
| `ExecutorReports.EndTakesEffect` | packages/node/src/runtime/executor.ts:371-383 | whatever is handed to finish() while its run holds the slot is reported, recorded and out of the slot |
| `ExecutorReports.ResultsArePublished` | packages/node/src/runtime/executor.ts:403-417 | with a publisher, no result is reported that the publisher did not return |
| `ExecutorReports.GivingUpParks` | packages/node/src/runtime/executor.ts:419-427 | a driver that fails, does not answer in time or cannot prove a stop leaves its run parked, for the first reason there is, and nothing is sent |
| `ExecutorReports.ParkIs` | packages/node/src/runtime/executor.ts:419-427 | parking touches only the run it names, and keeps its first stop reason |
| `ExecutorReports.ClosedTakesNothing` | packages/node/src/runtime/executor.ts:601-611 | after the executor began to close it takes no run until the process starts anew |
| `ExecutorReports.CancelIsAnswered` | packages/node/src/runtime/executor.ts:326-332 | in every run, the report that empties the slot of a cancelled run is the acknowledgement of that cancel and nothing else |
| `ExecutorProgress.RunCanComplete` | packages/node/src/runtime/executor.ts:467-527 | a prepared run in a reachable, quiet, ready executor can be started, closed and reported, with exactly the result the driver gave |
| `ExecutorProgress.StopCanComplete` | packages/node/src/runtime/executor.ts:560-566 | a run asked to stop is waited for and ended, acknowledged if it was cancelled |
| `ExecutorProgress.FaultyClosureParks` | packages/node/src/runtime/executor.ts:594-595 | a handle whose closure failed proves nothing: its run is parked, and nothing is reported |
| `ExecutorProgress.RecoveryIff` | packages/node/src/runtime/executor.ts:440-454 | recovery frees the slot exactly on proof, and parks the run otherwise |
| `ExecutorProgress.SlotCanBeFreed` | packages/node/src/runtime/executor.ts:430-455 | from every reachable state, crashed, faulted or parked, some continuation leaves the slot empty and the executor ready |
| `DurableExecutor.EveryExecutorStartsOnce` | packages/node/src/runtime/executor.ts:467-527 | whatever calls, answers and crashes an executor object has been through, it invoked driver.start at most once per fence and its fields satisfy the protocol invariant |
| `DurableExecutor.State.Offer` | packages/node/src/runtime/executor.ts:273-312 | the decoded state edited in place is the new run under the next generation, or unchanged with the reject; exhausted generations fail without an edit |
| `DurableExecutor.State.Control` | packages/node/src/runtime/executor.ts:314-342 | cancel and renewal edit the run in place exactly as specified; a late cancel is acknowledged |
| `DurableExecutor.Executor.Consume` | packages/node/src/runtime/executor.ts:250-271 | the row, its messages and its effect are committed together, exactly those the protocol step sends and records, or nothing is and the fault latches |
| `DurableExecutor.Executor.Pass` | packages/node/src/runtime/executor.ts:574-597 | one pass of the settle loop, over the fields row, live, starting, ready and faulted, is the protocol step: tick, then publish, start, stop, park or leave the slot; the heartbeat and the report it sends are the step's |
| `DurableExecutor.Executor.Started` | packages/node/src/runtime/executor.ts:518-526 | a resolved start drops the latch, attaches its handle, faults on a foreign fence, and marks the run running otherwise |
| `DurableExecutor.Executor.StartTimedOut` | packages/node/src/runtime/executor.ts:491-516 | a start that times out parks its run and leaves a watcher that still holds the latch |
| `DurableExecutor.Executor.LateStopped` | packages/node/src/runtime/executor.ts:500-510 | the watcher of a late handle records its quiescence and finishes or publishes the run, with the report the step sends |
| `DurableExecutor.Executor.RecoverReturned` | packages/node/src/runtime/executor.ts:440-454 | recovery finishes the run on proof, with its report, parks it otherwise, and makes the executor ready |
| `DurableExecutor.Executor.Tick` | packages/node/src/runtime/executor.ts:345-369 | expiry or one heartbeat committed with its message, or a latched fault |
| `DurableExecutor.Executor.Finish` | packages/node/src/runtime/executor.ts:371-383 | the emptied slot, the recorded outcome, the report, and the live handle dropped if it is of that fence |
| `DurableExecutor.Executor.Close` | packages/node/src/runtime/executor.ts:601-611 | closing marks the run stopping and keeps an earlier reason; a faulted executor only sets the flag |
| `ExecutorSafety.StartedAtMostOnce` | packages/node/src/runtime/executor.ts:467-527 | in every run, over every interleaving of consume, tick, settle, recover, timeouts and crashes, driver.start is invoked at most once per fence, and the snapshot stays acceptable |
| `ExecutorSafety.ClearedOnlyOnProof` | packages/node/src/runtime/executor.ts:371-383 | no step gives up the slot of a run that may have started without proof of quiescence, and then only to an empty slot |
| `ExecutorSafety.RunClearsOnlyOnProof` | packages/node/src/runtime/executor.ts:430-455 | the same at every step of every run |
| `ExecutorExclusion.AtMostOneRun` | packages/node/src/runtime/executor.ts:529-599 | when no start is committed under a held latch, at most one run is not quiescent, it is the one in the slot, and the only call in flight is its start |
| `ExecutorExclusion.LatchStolen` | packages/node/src/runtime/executor.ts:490-516 | from any overlap of two starts, a continuation frees the slot while the newer call is in flight |
| `ExecutorExclusion.GuardNecessary` | packages/node/src/runtime/executor.ts:479-490 | every commit that breaks the guard, of an executor that has not faulted and whose live handle, if any, still has its watcher, has such a continuation; a recovery under way returns first |
| `ExecutorExclusion.TwoRunsWithoutGuard` | packages/node/src/runtime/executor.ts:430-455 | a run of the code that reaches two live executions |
| `LeadTaskMachine.EveryMachineKeepsItsBudget` | packages/node/src/lead/machine.ts:421-467 | whatever events a machine has had, with dispatchTo as its first dispatch only: its offers are bounded, each follows a cancel or a rejection of the one before, and its budgets account for its attempt |
| `LeadTaskMachine.Machine.DispatchTo` | packages/node/src/lead/machine.ts:134-153 | the fields after a first dispatch, and its actions, are those of the event |
| `LeadTaskMachine.Machine.RedispatchTo` | packages/node/src/lead/machine.ts:156-177 | the fields after a redispatch at any attempt, and its actions |
| `LeadTaskMachine.Machine.OnMessage` | packages/node/src/lead/machine.ts:179-204 | only the current target at the current attempt is heard, and then by its state; stale attempts are rejected |
| `LeadTaskMachine.Machine.OnTimer` | packages/node/src/lead/machine.ts:353-382 | each timer acts in its own state only, updating history, exclusions and deadlines in place |
| `LeadTaskMachine.Machine.CancelByUser` | packages/node/src/lead/machine.ts:384-403 | user cancellation of any task that has not ended |
| `LeadTaskMachine.Machine.RedispatchByOwner` | packages/node/src/lead/machine.ts:406-418 | owner redispatch: exclusion of the target, then a dispatch request or a reclaim |
| `LeadTaskMachine.Machine.Charge` | packages/node/src/lead/machine.ts:441-467 | one of two budgets is charged in place; an exhausted one escalates and latches the end |
| `LeadEnds.NextStateIff` | packages/node/src/lead/machine.ts:179-418 | a task that has not ended moves to each other state exactly for its causes: done for an accepted result while one is awaited, failed for a final failure, closed, escalated, reclaiming, cancelling, running, offered, drafting, one if-and-only-if each |
| `LeadEnds.HistoryIs` | packages/node/src/lead/machine.ts:206-418 | every event adds exactly its entry to the history, and excludes its target for good, once or not at all as its cause says |
| `LeadEnds.BudgetIs` | packages/node/src/lead/machine.ts:441-467 | a rejection or an unanswered offer costs a round, an accepted attempt a failure, and nothing else costs anything |
| `LeadEnds.DeadlinesAre` | packages/node/src/lead/machine.ts:206-297 | the deadlines of offer, lease, drain and cancel, the lease granted, and the result kept |
| `LeadEnds.SaysExactly` | packages/node/src/lead/machine.ts:134-438 | every event sends exactly one message or none: an offer, a cancel with its reason, a stale reject, or the renewal of the heartbeat it heard |
| `LeadEnds.AsksExactly` | packages/node/src/lead/machine.ts:421-467 | a new target is asked for, an end announced and an escalation raised exactly when due |
| `LeadRuns.RunTracks` | packages/node/src/lead/machine.ts:134-177 | in every run with dispatchTo at attempt 0 only (redispatchTo at any attempt), attempt = accepted failures + dispatch rounds, plus one in flight; offers are in order and as many as the attempt says |
| `LeadRuns.OffersBounded` | packages/node/src/lead/machine.ts:441-467 | at most maxAttempts + maxDispatchRounds - 1 offers |
| `LeadRuns.CancelBeforeRedispatch` | packages/node/src/lead/machine.ts:421-467 | between the offers of attempts n and n+1 the lead received a matching reject or sent that target a cancel at attempt n |
| `LeadRuns.TerminalAbsorbs` | packages/node/src/lead/machine.ts:179-204 | however a run goes on after an end, the record stays and nothing more is sent |
| `LeadRuns.DoneNeedsAcceptedResult` | packages/node/src/lead/machine.ts:230-276 | done requires an accepted result from the current target at the current attempt |
| `LeadRuns.DispatchKeepsAccountingIff` | packages/node/src/lead/machine.ts:134-138 | calling dispatchTo keeps the accounting exactly at attempt 0: later it restarts at 1 |
| `LeadRuns.SilentPeersEscalate` | packages/node/src/lead/machine.ts:353-382 | over every run of timers and dispatches only, whatever the targets, offers, times and order: it can end only by escalating, escalates exactly when 3 * maxDispatchRounds events took effect, and has then made exactly maxDispatchRounds offers |
| `LeadRuns.SilentRoundsEscalate` | packages/node/src/lead/machine.ts:441-467 | with a target always at hand, each round with its own target, offer and times, it does escalate, with the last round and not before |
| `LeadTimers.DueIffRebuiltIsDue` | packages/node/src/runtime/lead.ts:261-267 | polling fires a timer exactly when the rebuilt one is due |
| `LeadTimers.RunInStep` | packages/node/src/lead/checkpoint.ts:43-55 | replaying the actions of any run arms exactly the timers a restart rebuilds, at the same deadlines; only a drafting task may have more |
| `LeadTimers.StaleTimerIsNoop` | packages/node/src/lead/machine.ts:353-382 | an armed timer that is not rebuilt does nothing whenever it fires |
| `LeadTimers.RestartEquivalence` | packages/node/src/lead/checkpoint.ts:43-55 | after any run, the armed timers that can still act are exactly the rebuilt ones, deadline by deadline |
| `LeadTasks.EventKeepsValidIff` | packages/node/src/runtime/lead.ts:111-130 | an event leaves a task that decoding accepts if and only if it does not cancel an undispatched task, does not accept a lease that is not positive or out of range, and makes no offer whose deadline is out of range |
| `LeadTasks.SilentReofferIff` | packages/node/src/runtime/lead.ts:243-258 | an event moves the attempt without a report if and only if it is a matching reject of the open offer with budget left and a usable offer selected; then it moves by one |
| `LeadTasks.ImportTasks` | packages/node/src/runtime/lead.ts:393-431 | entries are committed one by one up to the first bad one; success exactly when all are acceptable |
| `LeadTasks.ImportIs` | packages/node/src/runtime/lead.ts:393-431 | what a batch imports: each entry local work is not ahead of, past its attempt and drafting if it was in flight; every other task as it was |
| `LeadTasks.ImportNeverLowers` | packages/node/src/runtime/lead.ts:408-412 | takeover never lowers an attempt, and at an equal attempt changes nothing |
| `LeadTasks.ImportUnchangedIff` | packages/node/src/runtime/lead.ts:400-428 | an import leaves the tasks as they were exactly when every entry was fenced |
| `LeadTasks.TakeoverFences` | packages/node/src/runtime/lead.ts:420-425 | however the run goes on after a takeover, no message of an attempt made before it changes the task |
| `TaskExchange.AcceptIsHeard` | packages/node/src/runtime/executor.ts:299-312 | what the executor says to an admitted offer puts the lead's task under way, with the lease it granted |
| `TaskExchange.RejectIsHeard` | packages/node/src/runtime/executor.ts:292-298 | what it says to any other offer costs the lead one round |
| `TaskExchange.ReportWhileRunning` | packages/node/src/lead/machine.ts:230-276 | the report of a run, heard by its running lead, ends the task as done, as failed, or gives the attempt up, exactly as the outcome and the acceptance say |
| `TaskExchange.ReportWhileClosing` | packages/node/src/lead/machine.ts:299-351 | a report that crosses the lead's cancel still completes the task with an accepted result, and else closes it |
| `TaskExchange.AckCloses` | packages/node/src/lead/machine.ts:299-351 | the acknowledgement of a cancel ends the drain, or the task |
| `TaskExchange.HeartbeatRenews` | packages/node/src/lead/machine.ts:279-297 | a heartbeat heard at t1 by the running lead, and its renewal consumed before the deadline, extend the lease to t1 + leaseMs |
| `TaskExchange.CancelClosesAttempt` | packages/node/src/lead/machine.ts:421-438 | cancel, stop, report and acknowledgement: the lead's cancel stops the run whatever its phase and ends the drain whatever the driver says |
| `TaskExchange.TaskCompletes` | packages/node/src/lead/machine.ts:134-276 | offer, acceptance, start, result and report, each consumed by the other side, complete a fresh task with exactly the driver's result |
| `Lease.DefaultsCoverEveryGrantedLease` | packages/core/src/params.ts:32-46 | with the default parameters loss and drain windows cover every lease an executor grants |
| `LeaseProtocol.ExecutionKeeps` | packages/node/src/lead/machine.ts:206-297 | the joint invariant of lead, executors and everything in flight holds in every run |
| `LeaseProtocol.LeasesDoNotOverlap` | packages/node/src/lead/machine.ts:362-376 | at every moment of every run, an earlier attempt has no unexpired run on any executor, whatever is still in flight, unless an owner or an expired offer forced it away before it was outlasted |
| `LeaseProtocol.AtMostOneLiveRun` | packages/node/src/runtime/executor.ts:301-341 | a task none of whose attempts was forced away too early has at most one unexpired run in the whole fleet |
| `LeaseNecessity.UncoveredLeaseOverlaps` | packages/core/src/params.ts:59-66 | for every lease the inequality fails for, a lost lease leads to a second offer while the first run is within its lease, with nothing forced |
| `LeaseNecessity.OutlastedIsSafe` | packages/node/src/lead/machine.ts:421-438 | from every reachable world: an attempt forced away when it is outlasted never has a live run beside a newer attempt |
| `LeaseNecessity.OwnerRedispatchIff` | packages/node/src/lead/machine.ts:406-418 | an owner's redispatch of a run silent for d ms can lead to two live attempts if and only if leaseMs > d + drainMs |
| `LeaseNecessity.OfferForcedIff` | packages/node/src/lead/machine.ts:353-361 | an open offer forced away after d ms, by expiry or by the owner, can lead to two live attempts if and only if a run that takes it at the executor's last moment outlasts d + drainMs |
| `LeaseNecessity.DefaultForcing` | packages/core/src/params.ts:32-46 | with the default parameters: the silence after which an owner may redispatch, and the delay after which an expired offer is safe |
| `LeaseRenewal.RunInStep` | packages/node/src/lead/machine.ts:279-297 | in every run the lead's renewal counter is ahead of every run of the task, and lead and executor mean the same lease while it runs |
| `LeaseRenewal.HeartbeatExtends` | packages/node/src/runtime/executor.ts:333-341 | at every moment of every run, the heartbeat of the current attempt's run, answered by its lead in time, extends the lease to one lease from when the lead heard it |
| `Manifest.ValidSignedManifest` | packages/node/src/collab/artifact-manifest.ts:137-152 | admits exactly well-formed manifests with distinct, nonblank paths |
| `Manifest.VerifyDelivery` | packages/node/src/collab/artifact-manifest.ts:102-134 | true exactly when the manifest is admitted and signer, task, attempt, every hash and size, and every contract path check out |
| `Manifest.BuildIsPermutation` | packages/node/src/collab/artifact-manifest.ts:49-60 | sorting the deliverables loses and invents nothing |
| `Manifest.BuildSorts` | packages/node/src/collab/artifact-manifest.ts:56-58 | the deliverables are in path order |
| `Manifest.SignedDeliveryVerifiesIff` | packages/node/src/collab/artifact-manifest.ts:63-134 | what is built and signed over some files verifies over the same files if and only if the numbers are positive, the paths distinct and not blank, and the contract names paths among them |
| `Manifest.BuiltAdmittedIff` | packages/node/src/collab/artifact-manifest.ts:137-152 | a built and signed manifest is admitted exactly then |
| `Manifest.ContractDelivered` | packages/node/src/collab/artifact-manifest.ts:120-133 | every path a contract declares arrived with the verified delivery, with the bytes that were signed |
| `Verdicts.DoneOnlyIfVerified` | packages/node/src/runtime/lead.ts:190-212 | a PROJECT task becomes done only in the step that consumes a result of its target at its attempt, and only if earlier, with no restart since, that envelope was staged for the task as it stands, the collector returned files for it, and the delivery was verified over exactly those files |
| `Verdicts.TokensTraced` | packages/node/src/runtime/lead.ts:441-485 | every token of every run traces back to its staging, its collected files and its judgement, in that order |
| `Verdicts.NoStaleVerdict` | packages/node/src/runtime/lead.ts:206-212 | a cached entry is always for the task's present context |
| `Verdicts.RevokedForGood` | packages/node/src/runtime/lead.ts:441-485 | a token revoked by consume, cancel, redispatch, import or fault is never planted again by its staging |
| `VerdictsEarned.VerifiedIsDone` | packages/node/src/runtime/lead.ts:441-485 | in every run, a delivery staged, collected, judged and consumed, whose token nothing revoked in between, completes its task if and only if it verifies over the files that were collected |
| `CustodyTable.QuotaForever` | packages/gateway/src/custody-store.ts:184-203 | in every run total entries, pending bytes and pending per recipient stay within quota and rows stay valid |
| `CustodyTable.KeyStep` | packages/gateway/src/custody-store.ts:149-286 | the only ways one row changes: inserted pending, lapsed at or after expiry, received by a matching acknowledgement before expiry, or collected when terminal and old |
| `CustodyTable.PendingNeverLost` | packages/gateway/src/custody-store.ts:236-261 | after any run a pending row is still there with its payload, or was acknowledged by its recipient with its digest in time, or an operation came at or after its expiry |
| `CustodyTable.IdentityForever` | packages/gateway/src/custody-store.ts:184-188 | without collection a second offer of an identity changes nothing and answers stored or conflict by its digest |
| `CustodyTable.CollectionForgets` | packages/gateway/src/custody-store.ts:278-286 | a collected identity can be bound to other content |
| `CustodyTable.OfferIff` | packages/gateway/src/custody-store.ts:184-203 | an offer is stored exactly when it is known with its digest, or new, in time and with room, and then it is pending with its payload; each other answer has its exact cause |
| `CustodyTable.AcknowledgeIff` | packages/gateway/src/custody-store.ts:250-261 | a receipt is granted exactly when the row is received afterwards: because it was, or because it was pending, the recipient's, of that digest and unexpired |
| `CustodyTable.PeekShows` | packages/gateway/src/custody-store.ts:236-248 | a wide enough peek shows every pending, unexpired row of the node |
| `CustodyTable.PeekShowsOnly` | packages/gateway/src/custody-store.ts:155-159 | a peek never shows another node's row, one that ended, or one whose expiry has come; those have lapsed |
| `CustodyStore.Store.ExpireRows` | packages/gateway/src/custody-store.ts:155-159 | the loop lapses exactly the pending rows past expiry |
| `CustodyStore.Store.Offer` | packages/gateway/src/custody-store.ts:184-203 | the answer and the new table of an offer |
| `CustodyStore.Store.Peek` | packages/gateway/src/custody-store.ts:236-248 | the first pending rows of a node in rowid order |
| `CustodyStore.Store.Acknowledge` | packages/gateway/src/custody-store.ts:250-261 | the answer and the new table of a receipt are those of the specification, which `CustodyTable.AcknowledgeIff` characterises |
| `CustodyStore.Store.Collect` | packages/gateway/src/custody-store.ts:278-286 | retention deletes exactly the old terminal rows |
| `CustodyPump.ResendsAreSpaced` | packages/gateway/src/ws.ts:482-507 | over the whole life of a connection, any two frames sent under one ticket carry the same message and are at least the retry interval apart |
| `CustodyPump.WindowHolds` | packages/gateway/src/ws.ts:493-501 | at every moment the tickets in flight fit the window, and no two name the same message |
| `CustodyPump.PumpServes` | packages/gateway/src/ws.ts:482-507 | after every pump each ticket names a packet of the pending prefix, and unless the socket refused each packet of the prefix has a ticket that is not overdue |
| `CustodyPump.ReceiptFreesTicket` | packages/gateway/src/ws.ts:509-519 | only a receipt for a ticket in flight on the current connection, repeating its message, changes anything; an accepted one frees its ticket for good |
| `CustodyPump.ReceiptFreesIff` | packages/gateway/src/ws.ts:509-519 | a receipt that repeats the message of its ticket frees it exactly when the row grants it: always while the row is pending and unexpired, and then the row is received; otherwise every ticket stays |
| `CustodyPump.RoomForMore` | packages/gateway/src/ws.ts:493-501 | a pending packet without a ticket always finds room in the window |
| `CustodyPump.Connection.Reconcile` | packages/gateway/src/ws.ts:490-492 | exactly the tickets still in the pending prefix survive |
| `CustodyPump.Connection.DeliverAll` | packages/gateway/src/ws.ts:493-506 | the loop draws fresh tickets, skips those sent too recently, stops when the socket refuses, and sends exactly the frames of the specification |
| `CustodyPump.Connection.Pump` | packages/gateway/src/ws.ts:482-507 | table, tickets, drawn tickets and the log of frames after a pump are those of the event |
| `CustodyPump.Connection.ReceiveReceipt` | packages/gateway/src/ws.ts:509-519 | table, tickets and log after a receipt, the following pump included, are those of the event |
| `CustodyChain.StoredImpliesCustody` | packages/node/src/gateway-client.ts:357-364 | in every reachable state a sender row marked stored means a custody row with that digest |
| `CustodyChain.ReceivedImpliesInbox` | packages/node/src/gateway-client.ts:456-465 | in every reachable state a row marked received means the recipient's inbox holds that message |
| `CustodyChain.NothingLost` | packages/gateway/src/ws.ts:426-519 | once saved, an unexpired message is at every later moment with its sender, the gateway or its recipient |
| `CustodyChain.DeliveryPossible` | packages/gateway/src/ws.ts:426-519 | from every reachable state, an unexpired waiting message for which there is room can still be delivered: stored, in the inbox, and both known |
| `CustodyNodes.OutIsChain` | packages/node/src/runtime/store.ts:484-505 | what the store's saves and transitions put out is, message by message, what the chain's node saves |
| `CustodyNodes.StoredIsChain` | packages/node/src/runtime/store.ts:371-386 | the store's custody confirmation is the chain's |
| `CustodyNodes.ReceiveIsChain` | packages/node/src/runtime/store.ts:406-426 | the store takes a delivery in, or answers a repeat, exactly when the chain's node accepts it |
| `CustodyNodes.OutboxIsChain` | packages/node/src/runtime/store.ts:338-354 | the chain may send a message exactly when its payload is in the outbox, and sends that payload |
| `NodeDb.SaveEntryKeeps` | packages/node/src/runtime/store.ts:338-354 | saving keeps the cross-table invariant and touches deliveries and outbox only |
| `NodeDb.ApplyKeeps` | packages/node/src/runtime/store.ts:484-505 | a transition keeps it and writes the next revision |
| `NodeDb.ConsumeKeeps` | packages/node/src/runtime/store.ts:513-550 | consume keeps it |
| `NodeDb.ReceiveKeeps` | packages/node/src/runtime/store.ts:406-426 | receive keeps it |
| `NodeDb.ConfirmKeeps` | packages/node/src/runtime/store.ts:371-386 | stored keeps pending delivery equivalent to outbox row |
| `NodeDb.PruneKeeps` | packages/node/src/runtime/store.ts:393-403 | pruning keeps it |
| `NodeDb.CompleteKeeps` | packages/node/src/runtime/store.ts:574-588 | completing an effect keeps it |
| `NodeAnswers.ReceiveIs` | packages/node/src/runtime/store.ts:406-426 | new, repeated, clash or full, each with its exact cause; a new message waits with its payload |
| `NodeAnswers.EffectsAre` | packages/node/src/runtime/store.ts:498-503 | every effect of a transition is recorded once, pending, under its state and revision |
| `NodeAnswers.AdvanceIs` | packages/node/src/runtime/store.ts:469-482 | a transition commits exactly at the revision its caller saw, with the new value, its intents and nothing else |
| `NodeAnswers.ConsumeIs` | packages/node/src/runtime/store.ts:513-550 | a pending message is applied with its transition if R1 has not seen its identity, else decided as duplicate or conflict with the state left alone |
| `NodeAnswers.ConsumeAgain` | packages/node/src/runtime/store.ts:513-530 | a message decided before is answered as it was decided, to its own state only |
| `NodeAnswers.CompleteIff` | packages/node/src/runtime/store.ts:574-588 | exactly the pending intent of that state and revision is completed |
| `NodeAnswers.PruneIs` | packages/node/src/runtime/store.ts:393-403 | exactly the rows stored at or before the cutoff go |
| `NodeMail.SaveIs` | packages/node/src/runtime/store.ts:338-354 | a new message is tracked and waits in the outbox with its payload and attempt fields; a stored one stays stored; only invalid, foreign and conflicting ones are refused |
| `NodeMail.PutOutStaysOut` | packages/node/src/runtime/store.ts:484-505 | in every run, each message saved or put out by a committed transition waits with its payload in the outbox until a custody frame of its own digest |
| `NodeMail.StoredIffReleased` | packages/node/src/runtime/store.ts:371-386 | a stored row means that the run holds such a frame |
| `NodeMail.FrameReleases` | packages/node/src/runtime/store.ts:371-386 | such a frame releases a waiting message, once, stamped with its time |
| `NodeStore.Store.SaveMany` | packages/node/src/runtime/store.ts:497-497 | the loop over the outbox saves all messages or stops at the first failure |
| `NodeStore.Store.AddMany` | packages/node/src/runtime/store.ts:498-503 | the loop over the effects records all intents or stops at the first failure |
| `NodeStore.Store.Transit` | packages/node/src/runtime/store.ts:484-505 | the whole transition under the next revision, or its first failure |
| `NodeStore.Store.Save` | packages/node/src/runtime/store.ts:331-354 | the committed tables, or an error with all tables unchanged; `NodeMail.SaveIs` says what the tables then hold |
| `NodeStore.Store.Advance` | packages/node/src/runtime/store.ts:469-482 | revision compare-and-set: the committed tables, or STALE or FULL with all tables unchanged |
| `NodeStore.Store.Consume` | packages/node/src/runtime/store.ts:513-550 | the decision and the committed tables, or an error with all tables unchanged |
| `NodeStore.Store.Receive` | packages/node/src/runtime/store.ts:406-426 | new, duplicate or conflict, or full with all tables unchanged |
| `NodeStore.Store.Stored` | packages/node/src/runtime/store.ts:371-386 | the stamp is set once and the payload released |
| `NodeStore.Store.Prune` | packages/node/src/runtime/store.ts:393-403 | exactly the stamped stored rows past retention go |
| `NodeStore.Store.Complete` | packages/node/src/runtime/store.ts:574-588 | exactly the fenced pending intent is completed |
| `NodeRuns.RunConsistent` | packages/node/src/runtime/store.ts:213-301 | the cross-table invariant holds after every run |
| `NodeRuns.RunWithinBudget` | packages/node/src/runtime/store.ts:305-316 | entries and bytes stay within budget after every run |
| `NodeRuns.ExactlyOnce` | packages/node/src/runtime/store.ts:518-548 | an inbox message is applied exactly once if it is decided as applied, and otherwise never |
| `NodeRuns.R1AtMostOnce` | packages/node/src/runtime/store.ts:532-541 | sender, state, task, attempt and R1 type are applied at most once ever |
| `NodeRuns.RevisionCounts` | packages/node/src/runtime/store.ts:484-505 | a state's revision is the number of transforms applied to it |
| `NodeRuns.CreationNamesOffer` | packages/node/src/runtime/executor.ts:299-312 | a created run carries its offer's task and attempt, belongs to its sender and holds the slot |
| `NodeRuns.OneRunPerAttempt` | packages/node/src/runtime/executor.ts:250-312 | for all time at most one run per lead, task and attempt |
| `Claims.RefinesIff` | packages/gateway/src/claim-store.ts:89-145 | the SQL store and the registry give the same answer and the same new state if and only if the operation is agreeable |
| `Claims.StoreRefinesRegistry` | packages/gateway/src/claim-store.ts:71-146 | on one clock that never runs back, after any run, both give the same answer to the next operation, reap order included |
| `Claims.ClockRunsBack` | packages/gateway/src/claim-store.ts:127-133 | a clock that ran back by more than the lease makes the store fail where the registry renews |
| `Claims.GenerationsIncrease` | packages/gateway/src/claim.ts:85-91 | generations of a node strictly increase across release and reap |
| `Claims.StaleForever` | packages/gateway/src/claim.ts:97-112 | a token that stopped being current never renews, releases or owns again |
| `Claims.StaleInStore` | packages/gateway/src/claim-store.ts:119-133 | the same in the shared store, whatever the clock says |
| `Claims.StaleNeverPumps` | packages/gateway/src/ws.ts:595-602 | a fenced authority never serves a pump notification on an old token |
| `ClaimAnswers.RenewIff` | packages/gateway/src/claim.ts:105-112 | a renewal is granted exactly to the current token, whose lease is then counted from now |
| `ClaimAnswers.ReleaseIff` | packages/gateway/src/claim.ts:97-103 | a release is granted exactly to the current token, which is then gone; its generation is not reused |
| `ClaimAnswers.ReapIff` | packages/gateway/src/claim.ts:114-124 | a reap takes exactly the claims whose lease has run out |
| `ClaimAnswers.RenewedLasts` | packages/gateway/src/claim.ts:105-124 | a claim renewed at t stays current until t + ttl through every run of other operations and reaps, unless it is released or its node claimed anew |
| `ClaimRegistry.LocalRegistry.Claim` | packages/gateway/src/claim.ts:85-91 | the granted claim and the new registry |
| `ClaimRegistry.LocalRegistry.Release` | packages/gateway/src/claim.ts:97-103 | release of the current token only |
| `ClaimRegistry.LocalRegistry.Renew` | packages/gateway/src/claim.ts:105-112 | renewal of the current token only |
| `ClaimRegistry.LocalRegistry.ReapExpired` | packages/gateway/src/claim.ts:114-124 | collect, then delete: the expired nodes in order, the high-water marks untouched |
| `ClaimRegistry.ClaimStore.Claim` | packages/gateway/src/claim-store.ts:89-109 | the granted claim and the new tables, or an error and no change |
| `ClaimRegistry.ClaimStore.Release` | packages/gateway/src/claim-store.ts:119-125 | release by token |
| `ClaimRegistry.ClaimStore.Renew` | packages/gateway/src/claim-store.ts:127-133 | renewal by token, or a failed constraint and no change |
| `ClaimRegistry.ClaimStore.ReapExpired` | packages/gateway/src/claim-store.ts:135-145 | the expired nodes in rowid order |
| `Ordered.WriteDiff` | packages/registry/src/state-store.ts:232-246 | removals, then upserts of changed records |
| `Ordered.DiffedIs` | packages/registry/src/state-store.ts:232-246 | the diff always yields the new records, kept keys in their old order, then the new keys |
| `Ordered.DiffRoundTripIff` | packages/registry/src/state-store.ts:190-207 | tables rebuild the new map in its iteration order exactly when kept keys kept their order |
| `Ordered.ReinsertionReorders` | packages/registry/src/state-store.ts:192-192 | bringing back a deleted key is what breaks the order |
| `Registry.MutationKeepsValid` | packages/registry/src/state-store.ts:134-164 | every mutation on well-typed input leaves a state that validation accepts |
| `Registry.EnrollWithValid` | packages/registry/src/directory.ts:280-335 | enrolment by token keeps it, with the token consumed |
| `Registry.JoinValid` | packages/registry/src/directory.ts:338-352 | joining a team keeps it |
| `Registry.RotateValid` | packages/registry/src/directory.ts:398-421 | key rotation keeps epochs increasing and not ahead of the directory |
| `Registry.ReportValid` | packages/registry/src/directory.ts:540-571 | a task report keeps references valid |
| `Registry.CollectedValid` | packages/registry/src/directory.ts:617-657 | garbage collection keeps it |
| `RegistryAnswers.EnrollWithIff` | packages/registry/src/directory.ts:280-335 | an enrolment succeeds exactly with a key, an open token and room in the quota; then the new token authenticates the node in that team, and the enrolment token is spent |
| `RegistryAnswers.OwnedCounts` | packages/registry/src/directory.ts:300-312 | the quota counts each of the owner's nodes once |
| `RegistryAnswers.TokenWorksOnce` | packages/registry/src/directory.ts:290-335 | a spent enrolment token is never usable again, whatever mutations follow |
| `RegistryAnswers.RotateIff` | packages/registry/src/directory.ts:398-421 | a rotation needs a live node, a verified request and a key; then the newest key is the one given, at the next epoch, behind the latest of the old ones |
| `RegistryAnswers.AuthFollowsStatus` | packages/registry/src/directory.ts:357-365 | authentication answers as the status of the token's node calls for |
| `RegistryAnswers.StatusIff` | packages/registry/src/directory.ts:424-460 | suspension, its end and revocation change only that node's status, each exactly when allowed |
| `RegistryAnswers.RevokedStaysRevoked` | packages/registry/src/directory.ts:424-460 | a revoked node stays revoked through every run of mutations |
| `RegistryAnswers.JoinIff` | packages/registry/src/directory.ts:338-352 | a live node moves to the team of an open token, which is then spent |
| `RegistryAnswers.ReportIff` | packages/registry/src/directory.ts:540-571 | a report is taken exactly from its task's lead, of its kind, further on or the same again, for a known node |
| `RegistryAnswers.CollectIff` | packages/registry/src/directory.ts:617-657 | collection takes exactly the ownerless, unreferenced, old teams and revokes exactly the live nodes that are offline and long unseen |
| `Registry.GrantKeepsValidIff` | packages/registry/src/directory.ts:499-513 | a new grant that the mutation makes passes validation if and only if none of its capability tags is empty |
| `Registry.MutationKeepsOrder` | packages/registry/src/directory.ts:182-212 | no mutation brings back a key it deleted |
| `Registry.IndexRebuilt` | packages/registry/src/state-store.ts:226-227 | folding the node rows into an empty index gives back the token index in memory |
| `Registry.LoadRebuilds` | packages/registry/src/state-store.ts:209-230 | loading the tables of an acceptable state gives that state back |
| `Registry.CommitRoundTrip` | packages/registry/src/state-store.ts:249-263 | after the commit of any mutation that passes validation, loading the tables gives exactly the state in memory: records, iteration order, epoch and the token index, which is not stored |
| `Directory.Collect` | packages/registry/src/directory.ts:617-657 | the two loops compute garbage collection |
| `Directory.ShiftKeys` | packages/registry/src/directory.ts:417-418 | the loop keeps the newest keys |
| `Directory.Facade.Commit` | packages/registry/src/state-store.ts:249-263 | the tables after the diffs, and the epoch; the index is not written |
| `Directory.Facade.Mutate` | packages/registry/src/directory.ts:182-212 | after every operation loading the tables gives the cache; a refused operation or a draft that fails validation changes nothing |
| `Directory.LoadState` | packages/registry/src/state-store.ts:209-230 | table by table in rowid order, then the index loop, then validation |
| `Directory.Facade.Restart` | packages/registry/src/state-store.ts:209-230 | a restart succeeds and restores the cache as it was |
| `Reports.ReportsAreTheHistory` | packages/node/src/runtime/lead.ts:215-258 | in every run a task's reports are exactly its net changes of state, numbered consecutively, attempts never going back |
| `Reports.CentreNeverGoesBack` | packages/registry/src/directory.ts:540-571 | under any losses and late arrivals the centre's task_seq never decreases |
| `Reports.DrainedMeansCurrent` | packages/node/src/runtime/report.ts:111-132 | once a task's intents have drained the centre shows its last report and its present status |
| `Reports.CentreAttemptIff` | packages/node/src/runtime/lead.ts:215-258 | once drained, the centre's attempt equals the task's if and only if no offer was rejected and made again in one event since the last report; otherwise it lags by the number of those |
| `Reports.Flush` | packages/node/src/runtime/report.ts:111-132 | a pass posts in increasing rowid order, each post a step of the system enabled when it happens; an intent is skipped only after a failed post of its task; delivered counts the completed posts and nothing else is marked |
| `ReportsDrain.TakeIff` | packages/registry/src/directory.ts:540-571 | the centre's answer: recorded exactly when it holds the report afterwards, obsolete exactly when it is ahead, refused for an unknown executor |
| `ReportsDrain.PostCompletesIff` | packages/node/src/runtime/report.ts:111-132 | a post completes its intent exactly when it is answered and not refused |
| `ReportsDrain.DrainPossible` | packages/node/src/runtime/report.ts:111-132 | from every reachable state the pending posts of a task can be completed in order, and the centre then shows the task as it is |
| `Caps.CompareVersions` | packages/core/src/caps.ts:30-42 | the loop decides version matching |
| `Caps.FindMatch` | packages/core/src/caps.ts:45-67 | the loop decides whether an owned tag matches |
| `Caps.VersionMatchIff` | packages/core/src/caps.ts:30-42 | a version is met exactly by those that begin with all of its segments, leading zeros of numbers aside |
| `Caps.ParseWritten` | packages/core/src/caps.ts:15-23 | parsing reads back what was written |
| `Caps.UnversionedIff` | packages/core/src/caps.ts:45-67 | a known class's tag without a version is met by that tag, under any version or none, and by nothing else |
| `Caps.VersionedIff` | packages/core/src/caps.ts:45-67 | with a version, by the same tag under a version that begins with its segments |
| `Caps.UnknownIff` | packages/core/src/caps.ts:45-67 | a tag of an unknown class is met by itself alone |
| `Caps.MatchReflexive` | packages/core/src/caps.ts:15-67 | a tag matches itself exactly when it parses |
| `Caps.MatchTransitive` | packages/core/src/caps.ts:30-67 | matching is transitive |
| `Caps.MatchMonotone` | packages/core/src/caps.ts:70-73 | more owned tags lose no match |
| `Caps.GrantSoundIff` | packages/gateway/src/acl.ts:90-123 | a grant promises no more than the executor owns exactly when each parseable granted tag is owned |
| `Caps.UplinkIff` | packages/gateway/src/acl.ts:27-123 | each verdict on an uplink has exactly its cause; a routed envelope has a pinned, active sender and goes to the team of a known recipient |
| `Caps.SuspendedRecipientIsRouted` | packages/gateway/src/acl.ts:70-123 | only the sender has to be active |
| `Caps.RoutedOfferPassesGate` | packages/node/src/runtime/executor.ts:288-290 | what is routed across teams under such a grant passes the executor's capability gate |

## Left out

- ExecutorExclusion.AtMostOneRun: holds for runs in which no start is committed while the latch is held, because the code does not keep it otherwise; the guard is shown to be necessary.
- LeadRuns.OffersBounded: is about runs that use dispatchTo at attempt 0 only and import nothing, because dispatchTo restarts the attempt at 1.
- LeaseProtocol.LeasesDoNotOverlap: leaves out attempts that an owner's redispatch or an expired offer forced away before they were outlasted, because the code lets those overlap; `LeaseNecessity` shows the condition is exact.
- ExecutorExclusion.GuardNecessary: leaves out an executor with a stale handle whose watcher is gone, because its next pass faults before the slot can be freed.
- Verdicts.DoneOnlyIfVerified: leaves out the import of a task that is already done elsewhere.
- Reports.DrainedMeansCurrent: speaks of the last reported revision; when the attempt has moved on is `Reports.CentreAttemptIff`.
- Reports.Flush: is one pass without drives or arrivals between its posts; the runs of `Reports` interleave single posts with everything else.
- Caps.CompareVersions: compares version segments as exact naturals; the code compares them as floating-point numbers, which agree below 2^53.
- CustodyChain.NothingLost: is about runs without retention at the gateway, because collected rows forget their identity; retention of stored rows at the senders is included.
- CustodyChain.DeliveryPossible: needs room at the gateway and no other message of that identity at the recipient.
- VerdictsEarned.VerifiedIsDone: is about deliveries of a sender whose key is registered; without one a staging ends without a verdict.
- LeaseRenewal.HeartbeatExtends: takes it that the executor's snapshot is one its decoder accepts and that it is of the lead's team.
- NodeStore.Store.Stored: takes a valid clock for granted; the code throws on an invalid one.
- NodeStore.Store.Prune: takes a valid clock for granted; the code does nothing on an invalid one.
- LeadTasks.ImportTasks: returns the tasks and whether all entries were good, not the three lists of task ids.
- Cryptography and serialisation: Ed25519, SHA-256 and JCS are abstract; payload text is not modelled, only its identity and size.
- SQLite itself: transactions are atomic, and a storage fault stops the component.
- Sockets, HTTP, process spawning, git transport, workspaces and harness commands: ports with free answers that keep their stated contracts.
- The console, the command line, installers, audit formatting, metrics and the registry's audit table.
- The older path (RemoteNodeSession, ExecutorMachine, FileOutbox, GatewayCluster): superseded and weaker by design.
- Rowid order in the node's inbox and outbox: those tables are maps here; order is modelled where a result depends on it (custody, claims, reports, registry).
- Indexed columns of the registry tables and their agreement with the stored record: a row is its key and its record.
- The acceptance function of aid tasks: any answer is allowed in `Verdicts`.
- Node and message rate limits, retry delays of the sender and the order in which it retries: `CustodyChain` lets any tracked message be sent at any time.
- The retryable flag and timestamps in outgoing bodies, and the texts of errors.
- Several leads with one task id: the lease and report results are about one lead per task, and a lead that is not its own executor.
- Re-applying an owner's redispatch command after its reclaim closed triggers another redispatch; no idempotence is claimed.
- Node name, platform, load and version fields of the registry, and the order of sorted capability lists.
