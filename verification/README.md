# Verified models of the patching control plane

This project models the parts of the Oracle patching utility whose correctness depends on protocols, crashes and exact
algorithms, and proves what they promise. `dafny verify dfyconfig.toml` checks all of it.

| files | what they model |
|---|---|
| `AgentQueue`, `AgentQueueStore` | the fenced pull queue: its locked sections as functions, and the mutable store that runs them |
| `AgentProtocol`, `AgentSafety`, `AgentTheorems` | any number of workers, executors, operators and publishers interleaving over one queue and one sealed plan store |
| `AgentProgress`, `AgentProgram` | where the queue's calls and every branch of the worker's program lead |
| `RecoveryPrep`, `RecoverySafety`, `RecoveryTheorems` | recovery preparation: requests, target locks, executions and reconciliations that may fail or be killed anywhere |
| `RecoveryLife`, `RecoveryStability`, `RecoveryStranding`, `RecoveryLimits` | how a request lives, what keeps a completed label true, what a killed process leaves behind, and the runs in which guarantees end |
| `RecoveryCompletion`, `RecoveryHistory`, `RecoveryFailures` | what must have happened for a request to be where it is, and how a preparation that succeeds or fails ends |
| `RecoveryServices` | the service restoration and the exit trap as imperative code, shown to be runs of that state machine |
| `RunRegistry`, `RunSafety`, `RunTheorems`, `RunStore` | the run registry over a succession of controllers, and its dictionaries and record files updated in place |
| `RunOutcomes` | how the threads, launches and reconciliations of the registry end |
| `DetachedRun` | polling a detached execution and importing the outcome of one |
| `ArtifactMedia` | two-pass extraction of patch media into a file tree |
| `ReadmeText`, `RequirementHints` | the README parser against documents as trees, and the requirement extractor |
| `CompatibilityReconcile` | the compatibility reconciler and its exit code |
| `ProcedureForm` | building a procedure from the form and restoring the form from a procedure |
| `Text` | options and the order of strings |

## How to read the models

**Agent queue.** Every locked section is one atomic step; the native query between two sections is a step of its own, so
anything may happen in between. Worker number i presents the i-th claim token ever minted, and hashing is injective. The
clock never goes back. A publication of a next attempt may die between its two writes. The sealed task leaves `Pending` only through an executor that a worker launched (one process per
launch, which may die holding the task), and an operator retry bumps its retry count. A manual worker is a pull client that calls the
same operations without the program of `run_once`. Live mode is modelled. `docs/AGENT_PULL_QUEUE.md` speaks of six adapters and
of a lease of at least 600 seconds; the code has twelve adapters and takes the lease as a parameter between 30 and 3600,
and the model follows the code.

**Recovery preparation.** Every external command is one step whose outcome the environment chooses: it may fail or succeed
with any effect inside its footprint (`lsnrctl` does not open or close the database, `alter system register` moves neither
the database nor the listener process, a read-only command reports the truth when it succeeds). A process may be killed
between any two steps or inside a write of its record. A write moves the new record into place and seals it afterwards, so
a torn write leaves the new record unsealed. Admission (state, actor and window) and the creation of the lock are separate
steps, so several executions of one request can be admitted. `LoseRecord` is the case in which a write of an exit trap
fails, or a signal arrives before the second trap is installed. A kill also ends the command in flight: in the source a
killed shell can leave RMAN or SQL*Plus running beside a reconciliation, which is not modelled. Creation, approval and
authorization are single steps that are not killed inside their write, at most one reconciliation of a request is under
way, only executions and reconciliations change the services of a target, and records are written by these commands only.

**Run registry.** One controller is alive at a time. Every write of a record may succeed, fail before it took effect, or fail
after. The thread of a run is a program counter; reconciliation is two steps, with the inspection in between. The work
function is represented by its contract with the registry: it may log, launch, observe an end that its watcher accepts,
return only if its last launch was observed with exit code 0, and raise at any time. An exit file may hold no number. An
owner is alive exactly if it is the current controller.

**Sequential parts.** Regular expressions are parameters: a title classifier in `ReadmeText`, a sentence classifier and a
sentence splitter in `RequirementHints`. HTML tokenization is outside the model, which starts from start tags, end tags
and data. In `ArtifactMedia` a member carries the length of the payload actually stored. The conditions that the `jq`
programs test of a document or a check are booleans; fields may contain newlines, of which the shell drops the last ones.

## Findings

Where a promised property does not hold on all inputs, the exact condition is proved and a lemma shows the failure:

- a plan is executed in order exactly if no task is published after a later one has begun (`OrderedIffPunctual`), which
  does happen (`LatePublicationIsReached`);
- a request can be recorded as started after its window, because the window is checked before the lock and the preflight
  (`LateStart`, `StartedInsideWindow`);
- a record passes its own seal exactly if its last write was whole (`SealedIffWhole`); a torn record of a running request
  without a live process is reached, and is never touched again, by anyone (`TornStartIsAdrift`, `AdriftForever`);
- an execution that was admitted before its request came to a final state, and gets the lock when its preflight will pass,
  runs the request again (`LateLockRestarts`, `BlockedRequestRestarts`); over every run without such a late lock states only
  advance (`StatesAdvance`), and a completed request is never left either way (`CompletedIsFinal`);
- a process killed in its preflight, after its last label, on a record that is not whole, or in a write of the record leaves
  the target locked for good, because reconciliation refuses a request that is not running or not whole (`KilledIsStranded`,
  `StrandedForever`); after any other death a reconciliation frees the target (`KilledIsFreed`);
- a completed label stays true as long as nothing disturbs the target (`CompletedStaysTrue`), and every disturbing step (an
  interruption before the trap is disarmed, an execution that gets the lock and will pass its preflight, a reconciliation)
  has a continuation that keeps the label with the database down (`DisturbedCanFail`); the verdict of an interrupted
  execution's trap, which it does not record, tells whether the label is true again (`VerdictAfterCompletion`);
- a trap that gives up the lock of a running request whose record is whole leads to two processes on one target, from every
  such state, and such a state is reached (`LostRecordFreesTarget`, `LossIsReached`);
- a run whose thread fails its last write after a reconciliation has freed the key can become unresolved again beside another
  run of the key: the condition of the registry theorems is exact, and its edge is reached (`ConditionIsNeeded`,
  `OvertakenIsReached`);
- an `rc` file without a readable number is exit code 1 to the watcher and an unknown outcome to reconciliation, so a launch
  whose task failed can be resolved as failed although no exit code was read, and exactly then (`UnreadableCode`,
  `WatchingIsAdmissible`, `UnreadableIsResolved`);
- a newline in a key defeats the seen-keys test and turns a clean exit into an abort, a separator in a name merges two pairs,
  and an absent node aborts the reconciler (`NewlineMisjudged`, `SeparatorConfuses`, `AbsentNodeAborts`); a clean exit is
  sound all the same (`CleanExitIsSound`);
- a publication that dies between the archive and the new record wedges its job: no later publication of it changes anything
  (`InterruptedPublication`);
- adding to a README can replace its version: another requirement and an example heading in front of the only requirement
  hide it (`HeadingReplacesVersion`); what is added between breaks, outside headings, and leaves the example sections as they
  were, as everything without headings does (`NoHeadingsStay`), never replaces it (`InsertedForest`);
- the form does not restore a procedure whose README path has space around it, and such procedures are built (`RoundTrip`,
  `SpacedPathIsLost`);
- two tasks can share a job id (`JobIdNotInjective`), and publishing still never rebinds one.

## Model

| member | source | states |
|---|---|---|
| AgentQueue.ClaimRule | webapp/agent_queue.py:145-170 | after expiring lapsed leases a job is handed out exactly if some queued job on the node has nothing active on its node or in its plan and all lower peers succeeded; it is the first such job in file order, it is recorded for the claiming agent, and nothing else changes |
| AgentProgress.ClaimOpens | webapp/agent_queue.py:164-180 | only an enrolled agent is given a job; after a claim exactly the claiming agent with the token it was given may work on the job, for exactly the lease; from then on even its own call is refused and the job expired |
| AgentProgress.RenewalOpens | webapp/agent_queue.py:183-192 | a renewal is granted exactly to whoever may call, and opens the job to the same caller for exactly the new period |
| AgentProgress.DeferralReleases | webapp/agent_queue.py:233-249 | a deferral is granted exactly to whoever may call, and leaves the job queued at its attempt with nobody able to call |
| AgentProgress.DeferredIsClaimedAgain | webapp/agent_queue.py:145-170 | the next claim on the node is then granted if nothing else was in the way of the job |
| AgentProgress.FlagStops | webapp/agent_queue.py:252-260 | a job that is given up keeps its node and plan, is closed to every token and open to reconciliation at any time |
| AgentProgress.CompletionCloses | webapp/agent_queue.py:263-280 | a completion is granted exactly to whoever may call, records the report, and counts as succeeded exactly if the task did |
| AgentProgress.ReconciliationCloses | webapp/agent_queue.py:283-303 | a reconciliation that finds its job unchanged completes it in the same way |
| AgentProgress.ReconciliationIsFenced | webapp/agent_queue.py:295-303 | it does so exactly at the generation and attempt that were seen, and otherwise changes nothing |
| AgentProgress.PublicationAdvances | webapp/agent_queue.py:90-123 | a publication is granted exactly for a first record, the current attempt, or the next attempt of a completed and not yet archived one, and leaves the job at the attempt it names |
| AgentProgram.NewWorkerHolds | webapp/agent_worker.py:18-22 | a granted claim adds a worker at the start of its program that holds its job |
| AgentProgram.UnfitIsGivenUp | webapp/agent_worker.py:23-29 | from any reachable state, a claimed job whose sealed task is missing, does not match or is not pending is given up for reconciliation |
| AgentProgram.UnreadyIsRequeued | webapp/agent_worker.py:23-39 | a claimed job whose plan has another task next, or whose executor is not executable, is queued again |
| AgentProgram.LaunchOutcome | webapp/agent_worker.py:41-80 | a claimed job with a pending next task is queued again if its executor cannot be started, and completed with the end of its task if the executor takes and ends it, succeeded exactly if the task did |
| AgentProgram.VerifiedOutcome | webapp/agent_worker.py:69-80 | after the executor the job is completed with the terminal report of its attempt, queued again if the task is still pending, and given up otherwise |
| AgentProgram.HeartbeatRenews | webapp/agent_worker.py:50-60 | a heartbeat of a live worker keeps its job open to it for its lease from then on |
| AgentProgram.RefusedRenewal | webapp/agent_worker.py:41-67 | a worker whose renewal is refused never launches, or if it has launched, calls the queue no more and leaves |
| AgentProgram.ReasonIsExact | webapp/agent_worker.py:23-79 | an act of a worker leads to reconciliation exactly after a missing or mismatched report, one not pending before the launch or not ended after it, or a refused guarded deferral |
| AgentProgram.GivenUpForReason | webapp/agent_worker.py:23-79 | over every run, a worker that puts a job with a running lease up for reconciliation did so after such an act of its own |
| AgentProgram.ManualOutcome | webapp/agent_queue.py:263-280 | a pull client completes its job with the terminal report of its attempt |
| AgentProgram.OperatorOutcome | webapp/agent_queue.py:283-303 | an operator closes a job that awaits reconciliation, or whose lease has lapsed, with the terminal report of its attempt |
| AgentQueueStore.QueueStore.PublishTask | webapp/agent_queue.py:90-123 | the store after publishing is the queue after `Publish`: refusals, no-op republication, archive and next attempt |
| AgentQueueStore.QueueStore.ExpireLeases | webapp/agent_queue.py:147-149 | the loop expires exactly the lapsed jobs |
| AgentQueueStore.QueueStore.FindEligible | webapp/agent_queue.py:150-163 | the loop over busy nodes, active peers and lower peers finds the first eligible job |
| AgentQueueStore.QueueStore.ClaimJob | webapp/agent_queue.py:140-170 | expiry sweep, search and issue in place are `Claim` |
| AgentQueueStore.QueueStore.Owned | webapp/agent_queue.py:173-180 | the ownership check, which may write an expiry and still refuse |
| AgentQueueStore.QueueStore.Extend | webapp/agent_queue.py:183-192 | renewal under the fencing token |
| AgentQueueStore.QueueStore.Defer | webapp/agent_queue.py:242-249 | the committing half of a deferral, which drops the token |
| AgentQueueStore.QueueStore.Flag | webapp/agent_queue.py:252-260 | a worker gives its job up for reconciliation |
| AgentQueueStore.QueueStore.Finish | webapp/agent_queue.py:275-280 | the committing half of a completion |
| AgentQueueStore.QueueStore.BeginReconcile | webapp/agent_queue.py:286-291 | the first half of reconcile, with its expiry |
| AgentQueueStore.QueueStore.CommitReconcile | webapp/agent_queue.py:295-303 | the second half, which rechecks status, generation and attempt |
| AgentQueueStore.PublishKeepsWellFormed | webapp/agent_queue.py:101-123 | publishing keeps the listing sorted and complete and every job under its own name |
| AgentSafety.RunKeeps | webapp/agent_worker.py:13-80 | the protocol invariant holds in every reachable state of workers, executors, operators and publishers |
| AgentTheorems.InFlightHoldsJob | webapp/agent_worker.py:41-79 | from launch to terminal outcome a worker's job is active at its own claim generation and attempt, whatever heartbeats, expiries and reconciliations happened |
| AgentTheorems.InFlightExclusive | webapp/agent_queue.py:150-159 | two executions in flight never share a node or a plan |
| AgentTheorems.DeferredIsPending | webapp/agent_queue.py:233-249 | a deferral commits only while the sealed task is pending at the job's attempt, although it was queried without the lock |
| AgentTheorems.CompletedIsSealed | webapp/agent_queue.py:263-303 | every completed job, current or archived, records a terminal sealed task of its own plan, name, adapter and attempt and counts as succeeded exactly if that task succeeded |
| AgentTheorems.StepExplained | webapp/agent_queue.py:90-303 | every step of every party changes the queue in one of six ways: not at all, a sweep, a claim, a move of one job by its owner or a reconciliation, a publication, the archive of a publication that died |
| AgentTheorems.GrantedTokensAreLive | webapp/agent_queue.py:173-180 | a call is granted only to a live token, on the job, generation and attempt it was minted for |
| AgentTheorems.DeadTokensRefused | webapp/agent_queue.py:173-192 | a token that was dead once is refused in every later state, on every job |
| AgentTheorems.GenerationsIncrease | webapp/agent_queue.py:164-167 | claim generations of a job strictly increase from claim to claim, retries included |
| AgentTheorems.StoppedJob | webapp/agent_queue.py:131-137 | from a lapsed lease the only way on is reconciliation required, then completed on a sealed outcome, then the next attempt |
| AgentTheorems.SpentForever | webapp/agent_queue.py:105-111 | an attempt whose lease lapsed is never claimed again |
| AgentTheorems.PublishNeverRebinds | webapp/agent_queue.py:105-115 | another binding under the same id is refused, the same attempt is a no-op, and a change is the next attempt with the old one archived |
| AgentTheorems.JobIdNotInjective | webapp/agent_queue.py:101 | two publishable tasks share a job id |
| AgentTheorems.BindingsForever | webapp/agent_queue.py:101-123 | over any run a job keeps plan, task, node and adapter, archived entries never change, and what is added for the job are exactly the attempts it leaves behind, and the current one if the publication of the next has died |
| AgentTheorems.ArchiveIsExact | webapp/agent_queue.py:105-122 | from its first publication on, the archive of a job holds exactly the attempts from the first to the one before the current, and the current one if the publication of the next has died; each completed, sealed and bound to the same task |
| AgentTheorems.InterruptedPublication | webapp/agent_queue.py:113-122 | after a publication that died between its two writes, no publication of the job changes anything in any later state |
| AgentTheorems.OrderedIffPunctual | webapp/agent_queue.py:155-163 | throughout a run every begun task has all lower peers succeeded exactly if no task is published after a later one has begun |
| AgentTheorems.LatePublicationIsReached | webapp/agent_queue.py:155-163 | a run from the empty system to a plan out of order |
| RecoverySafety.StepKeeps | bin/opu-database-recovery-prepare:355-727 | every step, torn writes and lost records included, keeps the locks, the states, what each program point knows about the services, and the separation of duties, unless it releases the lock of a running request whose record is whole |
| RecoveryTheorems.OneLiveHolder | bin/opu-database-recovery-prepare:534-540 | with kills anywhere, at most one live process works on a home and database |
| RecoveryTheorems.RunningExcludesOthers | bin/opu-database-recovery-prepare:535-537 | a running request whose record is whole, even of a killed process, keeps its target locked: no process of another request holds it, and no execution gets its lock |
| RecoveryTheorems.EveryActorIsAuthorizer | bin/opu-database-recovery-prepare:526-705 | whoever works on a request, in an execution or a reconciliation, is its authorizer |
| RecoveryCompletion.CompletedIsPrepared | bin/opu-database-recovery-prepare:569-696 | a completed request was prepared: in the run that led there a process of it carried out the twenty-six commands from the backup root to the deep validation successfully, one after the other |
| RecoveryCompletion.PreparationCompletes | bin/opu-database-recovery-prepare:566-697 | from a preflight that passes, successful commands complete the request, release the lock and leave the services as they are |
| RecoveryHistory.DutiesWereDone | bin/opu-database-recovery-prepare:432-527 | a request that runs or has run was approved, authorized and admitted by the people its record names, each in the state for it, and the last two while the window was open |
| RecoveryHistory.StartFindsHealth | bin/opu-database-recovery-prepare:543-566 | a request becomes running only on an open database, without a backup root, and with no listener or a ready one, whose services are then recorded |
| RecoveryFailures.FailedPreflightLeaves | bin/opu-database-recovery-prepare:534-565 | a preflight that fails leaves request and services as they were and the target free |
| RecoveryFailures.EarlyFailureBlocks | bin/opu-database-recovery-prepare:488-498 | a command that fails before the services are touched leaves the request blocked, the services as they were and the target free |
| RecoveryFailures.LateFailureLabel | bin/opu-database-recovery-prepare:500-511 | a later command that fails leads to recovery_required exactly if the services were not proven, validation_failed exactly if they were and it belonged to the validation, failed_services_restored exactly if they were and it did not; the target is free afterwards |
| RecoveryFailures.UnprovenHasCause | bin/opu-database-recovery-prepare:456-486 | a restoration is unproven only if its database probe failed, or a listener start, status, registration or service check that had to succeed |
| RecoveryFailures.RestorationEnds | bin/opu-database-recovery-prepare:456-486 | a restoration comes to its verdict after at most eight commands |
| RecoveryFailures.HealthyIsLeftAlone | bin/opu-database-recovery-prepare:456-486 | on healthy services a restoration starts nothing, changes nothing and is proven |
| RecoveryFailures.DownIsRestored | bin/opu-database-recovery-prepare:456-486 | with database and listener down a restoration can still be proven, by starting both |
| RecoveryTheorems.OnlyReconcileEnds | bin/opu-database-recovery-prepare:704-725 | in any world, once its process is dead only the verdict of a reconciliation of that request ends a running request |
| RecoveryTheorems.LabelsAreHonest | bin/opu-database-recovery-prepare:488-514 | completed, failed_services_restored and validation_failed are given only with the database open read-write and a previously running listener serving its recorded services, blocked only on untouched services, even if the write of the label is torn |
| RecoveryServices.LabelTellsTheRestoration | bin/opu-database-recovery-prepare:456-511 | over a whole restoration, from its first command to the label: recovery_required exactly if the database was not probed open or a recorded listener was not verified on the way, validation_failed exactly if they were and the execution had reached the validation phase |
| RecoveryTheorems.BlockedIsUntouched | bin/opu-database-recovery-prepare:492-498 | from the preflight to a blocked label, over any run in between, the services did not change |
| RecoveryLife.StatesAdvance | bin/opu-database-recovery-prepare:518-566 | over any run in which no execution whose preflight will pass gets its lock after its request is final, states only advance, so no command leaves a final one, and the source binding never changes |
| RecoveryLife.LateLockRestarts | bin/opu-database-recovery-prepare:523-562 | such an execution does leave the final state with its preflight |
| RecoveryLife.CompletedIsFinal | bin/opu-database-recovery-prepare:541-569 | a completed request stays completed over every run, late locks or not |
| RecoveryLimits.BlockedRequestRestarts | bin/opu-database-recovery-prepare:523-569 | from the empty world two executions of one request are admitted, the first is blocked before it made the backup root, and the second runs the blocked request |
| RecoveryLife.SealedIffWhole | bin/opu-database-recovery-prepare:125-131 | over any run a record passes its own seal exactly if its last write was whole |
| RecoveryLife.DutiesAreSeparated | bin/opu-database-recovery-prepare:438-527 | a request that runs or has run has pairwise distinct requester, approver and authorizer, is executed by its authorizer, matches its source, was admitted inside its window of at most a day, and passes its seal exactly if its last write was whole |
| RecoveryLife.StartedInsideWindow | bin/opu-database-recovery-prepare:527-566 | the recorded start is inside the window exactly if the window is still open after the preflight |
| RecoveryLimits.LateStart | bin/opu-database-recovery-prepare:527-566 | a start after the window does happen |
| RecoveryStability.CompletedStaysTrue | bin/opu-database-recovery-prepare:488-514 | from the step that records completed, label and healthy services hold in every state of a run as long as the end of the execution is not interrupted, no execution that will pass its preflight gets the lock, and no reconciliation begins on the target |
| RecoveryStability.DisturbedCanFail | bin/opu-database-recovery-prepare:488-609 | each of these steps has a lossless continuation to a state in which the label is still completed and the database is down |
| RecoveryStability.CompletedCanOutliveHealth | bin/opu-database-recovery-prepare:508-511 | after an interruption at the very end the label stays completed while the services may be down |
| RecoveryStability.VerdictAfterCompletion | bin/opu-database-recovery-prepare:500-513 | the trap of an interrupted completion keeps the label; a true verdict means that it is true again, and holds in every state of a run under the same condition |
| RecoveryStranding.KilledIsStranded | bin/opu-database-recovery-prepare:534-541 | a killed process leaves its target locked beyond reconciliation exactly if it dies in its preflight, after its last label, on a record that is not whole, or in a write of the record |
| RecoveryStranding.KilledIsFreed | bin/opu-database-recovery-prepare:700-725 | after any other death a reconciliation by the authorizer, even one whose every command fails, classifies the request and frees the target |
| RecoveryStranding.StrandedForever | bin/opu-database-recovery-prepare:704-720 | such a request stays as it is and its target locked over every durable run |
| RecoveryStranding.AdriftForever | bin/opu-database-recovery-prepare:109-122 | a running request with a torn record and no live process stays running and torn over every run at all |
| RecoveryLimits.TornStartIsAdrift | bin/opu-database-recovery-prepare:125-131 | such a request is reached from the empty world: the process is killed while it records its start |
| RecoveryLimits.LostRecordFreesTarget | bin/opu-database-recovery-prepare:491-513 | wherever a trap gives up the lock of a running request whose record is whole, a run without further losses leads to two live processes on one target |
| RecoveryLimits.LossIsReached | bin/opu-database-recovery-prepare:541-568 | such a state is reached from the empty world: the first trap is still installed when running has been recorded |
| RecoveryServices.VerifyListenerServices | bin/opu-database-recovery-prepare:332-353 | true exactly if services are expected and some poll before the deadline shows them all and a ready instance |
| RecoveryServices.Execution.RestoreServices | bin/opu-database-recovery-prepare:456-486 | a true verdict proves the services, and the commands issued are those of the state machine |
| RecoveryServices.Execution.ExitTrap | bin/opu-database-recovery-prepare:488-514 | nothing after success, blocked before any mutation, otherwise the label of the proven verdict unless already completed; the lock is released |
| RecoveryServices.RestorationIsARun | bin/opu-database-recovery-prepare:456-486 | every restoration the imperative code can make is a run of the state machine to the same point with the same services |
| RunSafety.StepKeeps | webapp/pipeline_runner.py:99-261 | every step of threads, loads, reconciliations and crashes keeps the registry invariant, except a failing last write that would leave two unresolved runs of a key possible |
| RunTheorems.OneUnresolvedRunPerKey | webapp/pipeline_runner.py:127-133 | through any succession of controllers at most one persisted run per key is queued, running, unknown or reconciling |
| RunTheorems.StartsAfterResolution | webapp/pipeline_runner.py:99-133 | a run starts only once every earlier run of its key is durably resolved and, if launched, has an exit file and a sealed task that agree |
| RunTheorems.LaunchedRunsAreVerified | webapp/pipeline_runner.py:146-163 | a run that crossed the launch boundary is resolved, in memory or on disk, only if an exit file and a terminal sealed task exist and agree, and as succeeded only on exit code 0 and a succeeded task; an exit code was read exactly if the file holds a number |
| RunTheorems.ReconciledRunsAreVerified | webapp/pipeline_runner.py:242-256 | a reconciliation resolves a launched run only on a readable exit code and a sealed task that agree |
| RunTheorems.ConditionIsNeeded | webapp/pipeline_runner.py:153-163 | in every state of an orderly run, if a last write may fail without being benign, its failure has a continuation to two unresolved runs of one key, whether the next run has started or not |
| RunTheorems.OvertakenIsReached | webapp/pipeline_runner.py:146-163 | a run from the empty registry to such a state |
| RunTheorems.UnreadableIsResolved | webapp/planctl.py:895-899 | a run from the empty registry in which a launch is resolved as failed although its exit file holds no number |
| RunOutcomes.WorkEnds | webapp/pipeline_runner.py:135-163 | a run whose work function returns is durably succeeded, one whose work function raises before a launch is durably failed, and the key is free either way |
| RunOutcomes.LaunchSucceedsExactly | webapp/pipeline_runner.py:135-163 | a run that launched and was observed is durably succeeded with its key free exactly if its executor left exit code 0 and its task is sealed as succeeded |
| RunOutcomes.LaunchRaises | webapp/pipeline_runner.py:146-163 | if its work function raises, it is failed with its key free exactly if the watcher accepts the end, and otherwise unknown with its key taken |
| RunOutcomes.BeginsExactly | webapp/pipeline_runner.py:227-241 | a reconciliation begins exactly for a run that is unknown or reconciling, or left unresolved by another controller, if it is detached, or if it is confirmed and its owner is not this controller |
| RunOutcomes.CrashedRunIsReconciled | webapp/pipeline_runner.py:187-261 | a run that a crash left unresolved can be reconciled by the next controller: to failed if it was not detached, whatever is reported, and otherwise to what the inspection may report |
| RunStore.RunnerState.DiskActive | webapp/pipeline_runner.py:99-109 | the loop over record files finds an unresolved run of the key if there is one |
| RunStore.RunnerState.StartRun | webapp/pipeline_runner.py:118-133 | a conflict exactly if the key is active or unresolved on disk; otherwise durable ownership before anything else |
| RunStore.RunnerState.Submit | webapp/pipeline_runner.py:118-184 | start_run as a whole: if the thread cannot be started, the run is failed and the key free once that is durable |
| RunStore.RunnerState.LeaveBody | webapp/pipeline_runner.py:142-151 | a return makes the run succeeded; a raise makes it unknown exactly if it is detached without an observed end, and failed otherwise |
| RunStore.RunnerState.RunPlainThread | webapp/pipeline_runner.py:135-163 | a whole thread that launches nothing ends durably as its work function does, and frees its key |
| RunStore.RunnerState.RunWatchedThread | webapp/pipeline_runner.py:135-163 | the rest of a thread whose launch has ended: succeeded exactly if the work function returns, failed otherwise, and the key is free |
| RunStore.RunnerState.RunThread | webapp/pipeline_runner.py:135-163 | a whole thread whose work function launches and raises: the run is durably unknown, the launch exists and the key stays taken |
| RunStore.RunnerState.EndThread | webapp/pipeline_runner.py:152-163 | the last write and the release of the key are the steps `Finish` and `Close` |
| RunStore.RunnerState.GetRun | webapp/pipeline_runner.py:187-211 | an unresolved record of another controller is loaded as unknown |
| RunStore.RunnerState.ReconcileRun | webapp/pipeline_runner.py:227-261 | accepted exactly for unknown runs that are detached, or confirmed with their owner gone |
| DetachedRun.RunDetachedRemote | webapp/planctl.py:875-914 | the loop ends, with the verdict of the first poll that is neither a tolerable SSH failure nor running in time |
| DetachedRun.InspectionSucceeds | webapp/planctl.py:928-977 | an inspection says succeeded exactly if the launch is identified, its exit file holds code 0, its sealed task succeeded, its output is JSON and the plan is reconciled |
| DetachedRun.InspectionFails | webapp/planctl.py:928-977 | it says failed exactly on a readable code that agrees with the sealed task, with both logs and a reconciled plan, unless it says succeeded; and is unknown otherwise |
| DetachedRun.InspectionIsAdmissible | webapp/planctl.py:951-965 | what a truthful inspection reports is what the registry lets a reconciliation commit |
| DetachedRun.WatchingIsAdmissible | webapp/planctl.py:799-814 | the watcher calls a run terminal exactly when it resolves it, only on an end it may accept, and succeeded only on exit code 0 and a succeeded task; the end is verified except exactly if the exit file holds no number and the sealed task failed |
| DetachedRun.InspectionAgreesWithWatching | webapp/planctl.py:799-814 | an inspection that resolves a launch agrees with having watched it to its end |
| DetachedRun.WatchingAgreesWithInspection | webapp/planctl.py:799-814 | and if watching resolves a launch with a readable exit code, an identified inspection with both logs resolves it the same way |
| DetachedRun.WatchingSucceeds | webapp/planctl.py:799-814 | the watcher says succeeded exactly on exit code 0, a succeeded sealed task, a reconciled plan and JSON |
| DetachedRun.GivesUpAtTheSixth | webapp/planctl.py:875-893 | polling goes on through five failed polls in a row and stops at the sixth |
| DetachedRun.UnreadableCode | webapp/planctl.py:895-899 | an unreadable exit code is a failure to the watcher and unknown to the inspection |
| ArtifactMedia.AcceptedPath | lib/opu/artifact_media.py:31-37 | an accepted path starts with the expected directory, has no parent step and no control characters |
| ArtifactMedia.EntryIsExact | lib/opu/artifact_media.py:31-66 | a member may pass exactly if its name is printable, relative, below the expected top and climbs nowhere, and it is a plain directory or file; its entry then has the path, kind, size, payload and executable bit of the member |
| ArtifactMedia.Preflight | lib/opu/artifact_media.py:43-70 | one pass accepts exactly the archives whose members are all plain, distinct and within the limits |
| ArtifactMedia.AllWritten | lib/opu/artifact_media.py:71-85 | from a fresh destination all entries are written exactly if no file is a prefix of another entry and payloads have their declared sizes; the tree then holds exactly them |
| ArtifactMedia.Destination.MakeDirectory | lib/opu/artifact_media.py:74-76 | creates a directory and its parents exactly if no file is in the way, and otherwise nothing |
| ArtifactMedia.Destination.Write | lib/opu/artifact_media.py:72-85 | one entry: directory, or exclusive creation, payload, size check and mode |
| ArtifactMedia.Destination.ValidateTree | lib/opu/artifact_media.py:15-28 | true exactly for a real directory with only plain, printable names below |
| ArtifactMedia.TopIsValid | lib/opu/artifact_media.py:86 | the written tree is valid exactly if the expected top is not itself a file, and everything lies below it |
| ArtifactMedia.Destination.Extract | lib/opu/artifact_media.py:40-86 | a rejected archive writes nothing; into a fresh destination success is exact, and leaves exactly the regular entries and their directories |
| ReadmeText.Parser.FeedAll | webapp/procedure_hints.py:55-91 | a sequence of events |
| ReadmeText.OmittedElement | webapp/procedure_hints.py:56-62 | an omitted element of any nesting leaves the parser as it was apart from one separator |
| ReadmeText.ForestRead | webapp/procedure_hints.py:55-91 | from any parser state a well-nested document adds exactly its marks: breaks, shown text and titled headings |
| ReadmeText.LevelIsOpen | webapp/procedure_hints.py:74-80 | the level kept is that of the highest example heading not yet closed by a peer or higher heading |
| ReadmeText.CollectedText | webapp/procedure_hints.py:36-91 | the collected text is exactly the text outside omitted elements and outside open example sections |
| RequirementHints.Match | webapp/procedure_hints.py:142-146 | the inner loop stops at the first pattern that matches |
| RequirementHints.MeaningIsExact | webapp/procedure_hints.py:140-153 | a sentence requires the version of the first pattern that matches it exactly if it is considered, and is unclear exactly if it is considered, speaks of a required version and matches none |
| RequirementHints.Extract | webapp/procedure_hints.py:131-168 | a version is found exactly if no requirement is unclear and exactly one version is stated, and the sentence quoted is the first that states one |
| RequirementHints.HintIsDetermined | webapp/procedure_hints.py:154-168 | the meaning of a README admits one hint only |
| RequirementHints.AddingIsConservative | webapp/procedure_hints.py:135-168 | adding sentences in any order never replaces a version by another one |
| RequirementHints.InsertedBlock | webapp/procedure_hints.py:137-139 | the same for one more block between separators of the collected text |
| RequirementHints.InsertedForest | webapp/procedure_hints.py:55-168 | the same for a well-nested forest put into a README document between breaks, outside headings, that leaves the example sections as they were |
| RequirementHints.HeadingReplacesVersion | webapp/procedure_hints.py:69-91 | without the condition on example sections it fails: an example heading put in front of the only requirement hides it |
| CompatibilityReconcile.SeenIsMembership | bin/opu-compatibility-reconcile:32-33 | for keys without newlines the substring test is set membership |
| CompatibilityReconcile.NewlineMisjudged | bin/opu-compatibility-reconcile:31-38 | with newlines a document that satisfies the rule for an expected pair makes the shell abort |
| CompatibilityReconcile.Reconciler.AddDocuments | bin/opu-compatibility-reconcile:28-35 | the nested loops gather exactly the checks whose key is not taken for seen, and there is no finding exactly if every document is bound and all are gathered |
| CompatibilityReconcile.Reconciler.LookUp | bin/opu-compatibility-reconcile:37-39 | a pair keeps the result clean exactly if it is answered, and aborts exactly if its key is taken for seen and nothing gathered answers to it |
| CompatibilityReconcile.Reconciler.Reconcile | bin/opu-compatibility-reconcile:26-51 | on any input the exit is `ExitCode`: an abort exactly if some expected key is taken for seen without an answer, otherwise 0 or 2 |
| CompatibilityReconcile.CleanExit | bin/opu-compatibility-reconcile:26-51 | exit 0 exactly if every document is bound, no key is taken for seen when it comes and every expected pair is answered |
| CompatibilityReconcile.OneLineExit | bin/opu-compatibility-reconcile:26-51 | for keys without newlines exit 0 is the rule: every document bound, no key twice in all documents together, every expected pair confirmed by its own passing check |
| CompatibilityReconcile.CleanExitIsSound | bin/opu-compatibility-reconcile:26-51 | for checks with both fields exit 0 implies the rule, newlines or not |
| CompatibilityReconcile.CleanForPairs | bin/opu-compatibility-reconcile:31-39 | for names without separator and newline the condition speaks of pairs: none twice, each expected one with a passing check |
| CompatibilityReconcile.SeparatorConfuses | bin/opu-compatibility-reconcile:31 | a separator inside a name merges two pairs |
| CompatibilityReconcile.AbsentNodeAborts | bin/opu-compatibility-reconcile:31-38 | a check without a node is recorded under a key it does not answer to, and the exit is the abort |
| ProcedureForm.BuildProcedure | webapp/static/procedure_adapters.js:48-82 | the loop over required fields and the updates of the procedure are `Build` |
| ProcedureForm.BuildSucceeds | webapp/static/procedure_adapters.js:48-58 | a procedure is built exactly for a supported adapter with all required inputs and a hashed README of that path |
| ProcedureForm.SavedIsKept | webapp/static/procedure_adapters.js:70-80 | of a saved procedure of the same adapter and artifact its notes and documents, its rollback mode and, on grid, its topology are kept; of any other nothing |
| ProcedureForm.TypedIsShown | webapp/static/stages/readiness.js:567-586 | what was typed is what the form shows again, without the space around it |
| ProcedureForm.AdapterDecides | webapp/static/procedure_adapters.js:1-32 | without a saved procedure the adapter decides family, method, topology, operations and the way back |
| ProcedureForm.BuiltMatches | webapp/static/procedure_adapters.js:35-46 | a procedure built without a saved one matches its artifact exactly if the artifact has a digest and is for just the patch and platform that were typed |
| ProcedureForm.CsvJoin | webapp/static/procedure_adapters.js:33 | a list of trimmed, comma-free elements survives joining, trimming and splitting |
| ProcedureForm.ChecksReturn | webapp/static/procedure_adapters.js:67-68 | the checks of a built procedure come back from the form in the same order, through de-duplication |
| ProcedureForm.RoundTrip | webapp/static/stages/readiness.js:572-586 | restoring the form from a built procedure and building again gives the same procedure exactly if its README path has no space around it |
| ProcedureForm.SpacedPathIsLost | webapp/static/procedure_adapters.js:48-82 | procedures with such a path are built, for the only README of an artifact |

## Left out

- RunSafety.StepKeeps: assumes that a thread's last write does not fail after its key was freed, unless a stuck run shelters the key; `ConditionIsNeeded` shows that this is exact.
- RunTheorems.OneUnresolvedRunPerKey: the same assumption on every step of the run.
- RunTheorems.StartsAfterResolution: the same assumption.
- RunTheorems.LaunchedRunsAreVerified: the same assumption; an end counts although its exit file holds no number, and `UnreadableIsResolved` shows why.
- RunTheorems.ReconciledRunsAreVerified: the same assumption as for one unresolved run per key.
- RecoverySafety.StepKeeps: assumes that no trap releases the lock of a running request whose record is whole; `LostRecordFreesTarget` shows that this is needed.
- RecoveryTheorems.OneLiveHolder: the same assumption on every step of the run.
- RecoveryTheorems.RunningExcludesOthers: the same assumption; a running request whose record is torn may have lost its lock.
- RecoveryTheorems.LabelsAreHonest: the same assumption; it speaks of the moment of labelling, and `CompletedStaysTrue` of the time after a completion.
- RecoveryTheorems.BlockedIsUntouched: the same assumption.
- RecoveryLife.StatesAdvance: the same assumption, and that no execution gets its lock late; `LateLockRestarts` shows why.
- RecoveryTheorems.EveryActorIsAuthorizer: the same assumption.
- RecoveryHistory.DutiesWereDone: the same assumption.
- RecoveryFailures.LateFailureLabel: not of a completion whose record is torn, which keeps its label and does not pass its seal.
- RecoveryLife.CompletedIsFinal: the assumption that no trap releases the lock of a running request whose record is whole.
- RecoveryStability.CompletedStaysTrue: the same assumption up to the completion, and none after it.
- RecoveryStranding.StrandedForever: the same assumption.
- RecoveryLife.DutiesAreSeparated: the admission, not the recorded start, is inside the window (`LateStart`), and a torn record does not pass its seal (`SealedIffWhole`).
- RecoveryServices.Execution.ExitTrap: the execution before the trap is modelled as a program counter in `RecoveryPrep`, because it can be killed and interleaved; only the restoration and the trap are also imperative.
- ArtifactMedia.Destination.ValidateTree: hard links, mounts and devices are one kind of special node; extraction creates none.
- AgentProtocol: the worker is a program counter on values, because it interleaves with others between any two calls; the queue itself is also a mutable store.
- The queue: payloads, timestamps, reasons and unreadable record files.
- RequirementHints.InsertedForest: nothing is said of what is put inside a heading or into the middle of a block of text.
- The enrollment registry, the native plan tool and the executors: represented by what they answer.
- Test mode of the agent, and of recovery preparation.
- A process number reused by another program, a lock directory whose owner file is not yet written, two reconciliations of one request at once, an approval or authorization torn by a kill, and a record file left empty, which counts as one that does not pass its seal.
- Recovery preparation: capacity, location, snapshot and policy checks (they can only refuse), backup contents and evidence digests.
- Two controllers alive at once, unreadable run records, log tails, notifications and status counts.
- SSH, tar transfer, subprocess and HTTP code, authentication and the browser page around the form.
- Property names that a JavaScript object inherits, given as an adapter.
- Regular expressions, HTML tokenization, JSON, real hashing, file modes other than the executable bit, and I/O errors while extracting.
- README decoding and the choice of the README file.
- The JSON report of the compatibility reconciler, whose status field is the constant passed.
