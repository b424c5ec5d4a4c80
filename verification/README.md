# Cronova's scheduling engine, verified

A Dafny model of the parts of cronova that decide what runs and when, with proofs of what they promise:
the run and task state machine, the graph front end, admission, durable triggering, and the two stream
protocols beside the engine. `dafny verify dfyconfig.toml` checks everything.

One module per component. Code that changes state step by step is modelled by classes and loops with the
source's fields and branches; each is proved against a function, and the results are lemmas about that
function or about executions of a state machine.

- **Graph front end**: `Graph`, `Dag`, `CycleDetection`, `Foreach`, `FrontEnd`. Three-coloured search,
  foreach expansion, and the checks that make every accepted task list closed and acyclic.
- **Trigger rules and block propagation**: `TriggerRules`, `BlockPropagation`.
- **State machine**: `TaskStore` (rows and the compare-and-swap), `RunStates`, `AttemptRefs`, `Engine` (one run:
  rows, goroutine program counters, executor registry, operator actions, crash and recovery as interleaving
  steps), and the results about all its executions in `EngineRefs`, `EngineShape`, `EngineSettles`,
  `EngineOrder`, `EngineProgress` and `EngineCauses`. `EnginePaths` and `EngineStarts` build executions; with them
  `EngineEnds` shows that a run can always end, and `EngineOrderBreaks`, `EngineOrphans` and `EngineRefReuse` show
  which conditions are needed, exactly. `DownstreamClosure` is what a retry clears.
- **Admission**: `Admission` and `AdmissionCaps` (tasks), `RunQueue` and `RunPromotion` (runs).
- **Durable triggering**: `DependencyEvents`, `Catchup`, `Lease`, `RetryBackoff`.
- **Streams**: `Redaction`, `RedactionExact` and `LogSinks` (the log redactor and the capped file),
  `LogReplication` (worker spool to hub file).
- Shared: `StableSort`, `Ordering`, `Decimal`, `Options`.

## Where the code does not do what one would expect

Beside each is the lemma that says exactly when it does.

- The worker deletes a spool the hub never received when the hub restarts and the task's log file holds other
  bytes: it was not empty at assignment, or late chunks of another attempt arrived. The path is per task, not per
  attempt (`SpoolDeletionSafeIff`, `AdoptionLosesIff`).
- MarkRun(success) after a tick's delivery of the same run's event has passed a downstream, and before the event
  is consumed, loses the trigger (`LosesIff`).
- A retry breaks dependency order when a task that the tick has already harvested depends on a task it clears;
  so does a crash between its row writes, which come in map order and outside a transaction, when a started
  dependent is still to be cleared (`RetryBreaksOrderIff`, `CrashBreaksOrderIff`, `OrderHoldsIff`).
- A crash in the middle of a cancel or a timeout, with a row still queued or running, lets a retry clear an
  attempt that recovery follows again (`RetryOrphansIff`, `NeverOrphansIff`).
- An executor that forgets a launched attempt while its row is still queued gets the same reference again
  (`NeverReusesIff`).
- A retried run, or a finished run one of whose tasks is marked, runs again whatever its policy and beside
  whatever is running; and a tick that has listed the running runs before that starts the next one beside it
  (`SerialNeverTwoIff`, `CapKeptIff`).
- A queued run that is cancelled after a tick has listed it is started all the same (`StartsQueuedIff`).
- `max_active_tasks` is not kept when runs of one DAG carry snapshots of it that do not fit together
  (`CapsKeptIff`).
- A dependency on a single shard of a foreach task can close a cycle that the written list does not have
  (`BareShardClosesCycle`; `ExpansionKeepsCycles`).
- A dependency on an id that a plain and a foreach task share skips the plain task (`TargetsAreAllIff`,
  `DependsOnAllIff`).
- The truncation marker is written past the redactor (`SecretOnDiskIff`). A flush of an over-long line masks a
  secret inside an unfinished longer one, and the rest of the longer one is let through, although the comment on
  the flush says that an unfinished secret stays raw (`AlwaysExactIff`).
- The parser's 30-day bound does not keep the retry shift inside int64, although its comment says so, and an
  inherited default_retry_delay is not subject to it (`AcceptedConfigOverflows`, `ExactIff`); without
  retry_delay_max the overflow is harmless (`DefaultCapIsExact`).

## Model

| member | source | states |
|---|---|---|
| TriggerRules.EvalTriggerRule | internal/model/state.go:82-121 | the counting loop answers ready and blocked exactly as each of the six rules is defined over the dependency states, the empty list included |
| TriggerRules.ReadyExcludesBlocked | internal/model/state.go:77-81 | no rule is both ready and blocked |
| TriggerRules.DecidedWhenDone | internal/model/state.go:106-120 | once every dependency is terminal, a rule is ready or blocked, never undecided |
| TriggerRules.ReadyByStates | internal/model/state.go:82-121 | a rule looks only at which states occur: all_success at nothing but successes, one_success at a success, none_failed at successes and skips only, and so on, each rule by the set of states |
| TriggerRules.VerdictsAreStable | internal/model/state.go:82-121 | progress of unfinished dependencies never withdraws a ready or blocked verdict |
| TriggerRules.BlockedIffHopeless | internal/model/state.go:77-81 | blocked holds if and only if no way of finishing the dependencies makes the rule ready |
| Graph.AcyclicIffTopoOrder | internal/scheduler/parser/parser.go:536-574 | a graph has no directed cycle if and only if it has a topological order |
| Graph.MinimalMember | internal/scheduler/scheduler.go:1700-1719 | in an acyclic graph every non-empty set of tasks has one that depends on nothing in the set |
| CycleDetection.BuildAdj | internal/scheduler/parser/parser.go:542-545 | the adjacency map the search runs on, the last of two equal ids winning |
| CycleDetection.GrayHit | internal/scheduler/parser/parser.go:552-555 | meeting a gray node closes a real directed cycle along the reported path |
| CycleDetection.CycleDetector.Visit | internal/scheduler/parser/parser.go:548-564 | a visit reports a real cycle or finishes its node, keeping gray = the search path and black = a topological order; the recursion terminates |
| CycleDetection.DetectCycle | internal/scheduler/parser/parser.go:536-574 | nil if and only if the dependency graph has no directed cycle; an error names a real one |
| Foreach.ExpandForeach | internal/scheduler/parser/parser.go:586-640 | which lists expand and with which error they fail, and what the result is: shards in place, every dependency rewritten |
| Foreach.SpreadTasks | internal/scheduler/parser/parser.go:597-622 | the first loop: errors for a foreach without id or with too many items, otherwise all tasks spread out and the shards of each id |
| Foreach.AddShards | internal/scheduler/parser/parser.go:610-619 | one foreach task is replaced by its shards, in order, and its shard list extended |
| Foreach.RewriteDeps | internal/scheduler/parser/parser.go:624-638 | each dependency on a foreach id becomes its shards, in place, every other stays |
| Foreach.NoForeachUnchanged | internal/scheduler/parser/parser.go:587-596 | the early return for a list without foreach agrees with the general expansion |
| Foreach.ExpandedEdges | internal/scheduler/parser/parser.go:586-640 | when the expansion has distinct ids, each task or shard depends on exactly what its original's dependencies are rewritten to, all shards for the id of a foreach task and the id itself for any other |
| Foreach.ExpansionKeepsCycles | internal/scheduler/parser/parser.go:586-640 | with distinct ids before and after, the expanded graph is acyclic if and only if the graph over the original tasks is, a dependency on one shard counting as one on its task |
| Foreach.WrittenGraphKeepsCycles | internal/scheduler/parser/parser.go:586-640 | when no dependency names a single shard that graph is the one written down |
| Foreach.BareShardClosesCycle | internal/scheduler/parser/parser.go:624-638 | a dependency that names a single shard can make the expansion of an acyclic list cyclic |
| Foreach.SharedIdLosesDependency | internal/scheduler/parser/parser.go:603-635 | for every list and every id that a plain and a foreach task share: a dependency on it is not rewritten to the plain task, although that bears it |
| Foreach.TargetsAreAllIff | internal/scheduler/parser/parser.go:603-635 | for every list: each dependency is rewritten to all the tasks that stand for a task of that id if and only if none names an id that both a plain and a foreach task carry |
| Foreach.DependsOnAllIff | internal/scheduler/parser/parser.go:603-635 | for every list whose expansion has distinct ids: in the expanded graph each task and shard depends on all of them under the same condition, and only then |
| Foreach.ExpansionKeepsRest | internal/scheduler/parser/parser.go:586-640 | a shard has the rule, the retries and the rewritten dependencies of its foreach task, a plain task its own, and nothing is left to expand |
| FrontEnd.SeenIds | internal/scheduler/parser/parser.go:328-366 | the loop over the tasks accepts exactly lists of distinct valid identifiers within the limits on dependencies and retries, whose other fields are fine |
| FrontEnd.CheckDeps | internal/scheduler/parser/parser.go:485-499 | one task's dependency checks accept exactly distinct, known dependencies other than itself |
| FrontEnd.CheckGraph | internal/scheduler/parser/parser.go:328-503 | the loop, the dependency checks and the cycle search accept exactly the lists that are listable, closed, acyclic and without repeated dependencies |
| FrontEnd.ParseTasks | internal/scheduler/parser/parser.go:233-503 | a written list is accepted if and only if it can be expanded within the limits and its expansion is accepted, and the expansion is what reaches the scheduler |
| BlockPropagation.RunView.TaskGate | internal/scheduler/scheduler.go:2981-2991 | the gate evaluates the task's rule on its dependencies' states, a missing row counting as pending |
| BlockPropagation.RunView.PropagateBlocks | internal/scheduler/scheduler.go:1700-1719 | the loop terminates in the least settled state above the start: it blocks what it must and nothing else |
| BlockPropagation.BlocksStayBelow | internal/scheduler/scheduler.go:1700-1719 | blocking tasks in any order stays below every settled state |
| BlockPropagation.BlockingIsConfluent | internal/scheduler/scheduler.go:1700-1719 | every maximal sequence of blockings, in any order, ends in the same states |
| BlockPropagation.ListOrderIsIrrelevant | internal/scheduler/scheduler.go:1700-1719 | the fixpoint does not depend on the order of the task list |
| BlockPropagation.SettledRunProgresses | internal/scheduler/scheduler.go:1755-1777 | over an acyclic closed task set with nothing in flight, a settled run is all terminal or has a ready scheduled task, for any mix of the rules |
| TaskStore.TaskTable.Update | internal/store/postgres/postgres.go:741-754 | an unconditional row write, or not found |
| TaskStore.TaskTable.UpdateGuarded | internal/store/postgres/postgres.go:763-774 | the row changes if and only if it still carries the expected reference and is not terminal |
| TaskStore.TaskTable.Dispatch | internal/scheduler/scheduler.go:2169-2183 | scheduled to queued under the next try's reference |
| TaskStore.TaskTable.Finish | internal/scheduler/scheduler.go:2566-2647 | under the attempt's guard exit code 0 becomes success, 99 skipped, and every other code up_for_retry exactly while the try number does not exceed max_retries and failed otherwise; no other field changes, and without the guard nothing does |
| TaskStore.TaskTable.Clear | internal/scheduler/scheduler.go:864-881 | exactly the named rows go back to scheduled without a reference, their try numbers kept |
| AttemptRefs.SplitRefInvertsAttemptRef | internal/workerhub/hub.go:527-538 | the hub reads back run, task and try from every reference the scheduler writes, for run ids without a slash |
| AttemptRefs.AttemptRefIsInjective | internal/scheduler/scheduler.go:2764-2766 | distinct attempts have distinct references |
| Engine.RunChangesAreLegal | internal/model/model.go:67-79 | every run-state change of the machine is one the store accepts |
| Engine.SuccessMeansAllFine | internal/scheduler/scheduler.go:1826-1866 | a run finishes as success if and only if it had tasks and each succeeded or was skipped, as failed if and only if it had none or one failed, was blocked or timed out, and as cancelled if and only if one was cancelled and none of those |
| RunStates.LegalChanges | internal/model/model.go:67-79 | nothing becomes queued again; only a running run times out, only a queued or running one is cancelled, success and failure are out of reach for a cancelled or timed-out one, and running is reached from everywhere else |
| EngineCauses.ChangesHaveCauses | internal/scheduler/scheduler.go:1700-2760 | over any execution a row comes into each of its ten states only by the steps that the source has for it: a success only by an exit with 0 or a mark, a timeout only by the run's timeout, upstream_failed only when the rule is blocked, and so on |
| EngineCauses.FinishByExitCode | internal/scheduler/scheduler.go:2566-2647 | an attempt that still holds its row leaves it successful for exit code 0, skipped for 99, and otherwise up_for_retry or failed by the number of tries |
| EngineCauses.SuccessComesFromExit | internal/scheduler/scheduler.go:2566-2584 | over any execution, crashes and recoveries included, a task not marked becomes successful (or skipped, its condition being true) only after the attempt its row names was seen to exit with 0 (with 99) |
| EngineCauses.RetryClearsAll | internal/scheduler/scheduler.go:864-889 | a retry that ends without a crash has every task of its set scheduled without a reference, and the run running, whatever goroutines did meanwhile |
| EngineCauses.MarkReleases | internal/scheduler/scheduler.go:713-738 | when a mark as success or skipped is written no task downstream is left upstream_failed, whatever happened since it began |
| EngineCauses.CancelCancelsAll | internal/scheduler/scheduler.go:574-609 | a cancel that ends without a crash has cancelled every task that was not over when it began, a result recorded in between included |
| EngineRefs.InvGiveBack | internal/scheduler/scheduler.go:2283-2324 | undoing a try number is safe: whoever does it is alone with the attempt and no process was started for it |
| EngineRefs.InvAdmit | internal/scheduler/scheduler.go:2169-2183 | dispatch takes a reference under which no process was ever started |
| EngineRefs.InvNext | internal/scheduler/scheduler.go:2189-2760 | every step of every goroutine, operator, crash and recovery keeps the attempt invariant |
| EngineRefs.LaunchedTriesAreBounded | internal/scheduler/scheduler.go:2169-2183 | in every reachable state the row's try number bounds every attempt ever launched |
| EngineRefs.LaunchedAtMostOnce | internal/scheduler/scheduler.go:2189-2325 | over any history the executor is asked to launch each reference at most once |
| EngineRefs.DispatchIsFresh | internal/scheduler/scheduler.go:2169-2183 | no dispatch picks a reference that an earlier step launched |
| EngineRefs.WorkersRespectOverrides | internal/store/postgres/postgres.go:756-774 | a goroutine never changes a terminal row, another task's row or one with another attempt's reference |
| EngineSettles.SettlesNext | internal/scheduler/scheduler.go:2636-2647 | without operators every step lowers the potential of the row it changes, or gives an attempt back and raises it by two |
| EngineSettles.TriesWithinBudget | internal/scheduler/scheduler.go:2636-2647 | without operators the try number never exceeds MaxRetries+1 |
| EngineSettles.FailsOnlyWhenSpent | internal/scheduler/scheduler.go:2633-2647 | no retry is skipped: an attempt fails its task for good only as the MaxRetries+1st |
| EngineSettles.PotentialPaysForChanges | internal/scheduler/scheduler.go:1721-1742 | row changes made plus potential left never exceed the start's potential plus three for each give-back |
| EngineSettles.RowChangesAreBounded | internal/scheduler/scheduler.go:1721-1742 | a task's row changes at most 5(MaxRetries+1)+1 times in any execution, plus three for each give-back |
| EngineSettles.LaunchesWithinTries | internal/scheduler/scheduler.go:2189-2325 | with operators too, a task was never launched more often than its try number says |
| EngineSettles.LaunchesAreBounded | internal/scheduler/scheduler.go:2189-2325 | without operators a task is launched at most MaxRetries+1 times, whatever crashes |
| EngineShape.StepEffect | internal/store/postgres/postgres.go:763-774 | a goroutine's step touches its own task's row, in flight under its own reference, and nothing else; it goes away only when nothing is left to follow |
| EngineOrder.OrderNext | internal/scheduler/scheduler.go:574-609 | every step keeps dependency order, the unguarded cancel and the row-by-row retry included, except a retry that reaches into the harvest and a crash inside one |
| EngineOrder.RetryKeepsOrderIff | internal/scheduler/scheduler.go:821-889 | beginning a retry keeps the order if and only if no harvested task depends on a task to be cleared |
| EngineOrder.CrashKeepsOrderIff | internal/scheduler/scheduler.go:865-881 | a crash keeps the order if and only if it does not come between clearing a task and clearing a started dependent of it |
| EngineOrder.DependencyOrder | internal/scheduler/scheduler.go:1755-1824 | in every reachable state a started, successful, failed or skipped task that no retry is about to clear has all transitive upstream tasks successful, over all executions whose retries and crashes meet those two conditions |
| EngineProgress.AttemptsAreFollowed | internal/scheduler/scheduler.go:2662-2760 | in every reachable state each queued or running row has a goroutine that follows it, across crashes |
| EngineEnds.RunNeverWedges | internal/scheduler/scheduler.go:1637-1890 | from every reachable state in which no operator action is half way, recovery included, finitely many of the run's own steps, none of them a fault, bring a run over an acyclic graph to its end |
| EngineProgress.RetryNeverOrphans | internal/scheduler/scheduler.go:821-842 | whenever a retry is accepted, after crashes that were all calm, no row is queued or running and no goroutine can still write any row |
| EngineProgress.CrashKeepsQuietIff | internal/scheduler/scheduler.go:584-609 | a crash leaves an ended run at rest if and only if the run has not ended or no row of it is queued or running |
| EngineProgress.OnlyCutShortIsNotCalm | internal/scheduler/scheduler.go:1931-1963 | a crash that is not calm comes inside a cancel or a timeout, before the write of a row still queued or running |
| EngineOrphans.RetryOrphansIff | internal/scheduler/scheduler.go:2662-2760 | after a crash a retry can come to be accepted over an attempt that somebody follows if and only if the crash was not calm |
| EngineOrphans.NeverOrphansIff | internal/scheduler/scheduler.go:821-842 | retries orphan nothing in every execution for exactly the configurations without operators or without tasks |
| EngineRefReuse.LossyExecutorReusesRef | internal/scheduler/scheduler.go:2710-2721 | for every accepted task list: if the executor may forget an attempt whose row is still queued, some execution launches the same reference twice |
| EngineRefReuse.NeverReusesIff | internal/scheduler/scheduler.go:2710-2721 | references are launched at most once in every execution if and only if the executor keeps the record of an attempt while its row is queued |
| EngineOrphans.HalfCancelled | internal/scheduler/scheduler.go:584-609 | for every accepted task list: a crash between a cancel's run write and its row writes lets a retry clear an attempt that recovery follows again |
| EngineOrderBreaks.RetryBreaksOrderIff | internal/scheduler/scheduler.go:1490-1541 | beginning a retry makes a task at work over a cleared dependency possible, with all later steps harmless, if and only if it does not spare the tick's harvest |
| EngineOrderBreaks.CrashBreaksOrderIff | internal/scheduler/scheduler.go:865-881 | a crash makes that possible, in fact brings it about, if and only if it comes between clearing a task and clearing a started dependent |
| EngineOrderBreaks.RetryInsideTickBreaksOrder | internal/scheduler/scheduler.go:1490-1541 | for every accepted list in which some task has a dependency: without any crash, a cancel and RetryTask of the dependency between a tick's harvest and its admission break the order |
| EngineOrderBreaks.CrashInsideRetryBreaksOrder | internal/scheduler/scheduler.go:865-881 | for the same lists: with every retry sparing the harvest, a crash between two row writes of such a RetryTask breaks the order |
| EngineOrderBreaks.OrderHoldsIff | internal/scheduler/scheduler.go:864-889 | the order holds in every execution for exactly the configurations without operators or without dependencies |
| DownstreamClosure.Dependents | internal/scheduler/scheduler.go:962-967 | the dependents map holds exactly the direct dependents |
| DownstreamClosure.Closure | internal/scheduler/scheduler.go:961-980 | the search terminates with exactly the tasks downstream of the given one |
| DownstreamClosure.ClosureIsLeast | internal/scheduler/scheduler.go:613-631 | what RetryTask clears holds the task, is closed downstream also within the definition, and is the least such set |
| DownstreamClosure.RetryTaskIds | internal/scheduler/scheduler.go:613-631 | RetryTask clears exactly the tasks of the definition downstream of the given one |
| DownstreamClosure.RetryIsClosed | internal/scheduler/scheduler.go:613-670 | whatever either retry clears is closed downstream and not empty |
| DownstreamClosure.DownstreamIsReach | internal/scheduler/scheduler.go:961-980 | being downstream is reachability in the dependency graph, reversed |
| DownstreamClosure.RetryRunIds | internal/scheduler/scheduler.go:643-670 | RetryRun clears exactly the tasks of the definition downstream of a failed, upstream_failed, cancelled or timed-out one |
| DownstreamClosure.RetryRunIsDriven | internal/scheduler/scheduler.go:643-670 | RetryRun clears every failed, upstream_failed, cancelled or timed-out task and only what is downstream of one; there is nothing to retry if and only if there is none |
| Redaction.LongestMatchWins | internal/executor/runner.go:299-316 | with secrets sorted longest first the scan masks the longest secret at each position |
| Redaction.ScanLeavesNoSecret | internal/executor/runner.go:442-472 | one pass leaves no occurrence of any secret without '*' in its output, overlapping and adjacent ones included |
| Redaction.NoSecretEmitted | internal/executor/runner.go:374-428 | for any chunking and any line length, what is emitted by the end of Close contains no clean secret, across the capped flush too |
| Redaction.ScanSplitsAtNewline | internal/executor/runner.go:382-418 | redacting line by line is redacting the whole, when no secret holds a newline |
| Redaction.StreamTracksBatch | internal/executor/runner.go:382-418 | after every write, emitted plus redacted rest is the batch result so far |
| Redaction.StreamEqualsBatch | internal/executor/runner.go:382-428 | on lines up to the buffer cap the stream's output equals one pass over the whole input, whatever the chunking |
| RedactionExact.RescanCompletes | internal/executor/runner.go:396-416 | when no secret occurs inside another other than at its end, redacting the held tail again with what follows completes the one pass, from every place that leaves room for an unfinished secret |
| RedactionExact.NestedDiffers | internal/executor/runner.go:396-416 | for every two secrets of which one occurs inside the other before its end, an input whose stream output is longer than its one-pass redaction |
| RedactionExact.AlwaysExactIff | internal/executor/runner.go:382-428 | the stream emits the one-pass redaction of every input, over-long lines included and however cut, if and only if no secret occurs inside another other than at its end |
| LogSinks.RedactBytes | internal/executor/runner.go:442-472 | the early exit and the index loop compute the one-pass redaction |
| LogSinks.CappedLogSink.Write | internal/executor/runner.go:332-360 | the file stays the first maxBytes bytes received, plus one marker if and only if there were more |
| LogSinks.CapKeepsBeginning | internal/executor/runner.go:332-360 | a log within the limit is kept whole; a longer one keeps exactly its first maxBytes bytes, and what follows does not depend on what was cut |
| LogSinks.RedactWriter.constructor | internal/executor/runner.go:299-316 | secrets are kept, sorted longest first, and maxLen bounds each |
| LogSinks.RedactWriter.Write | internal/executor/runner.go:382-418 | one write is the stream step: full lines out redacted, the open line held, the capped flush keeping back maxLen-1 bytes |
| LogSinks.RedactWriter.Close | internal/executor/runner.go:420-428 | the held bytes are redacted and written |
| LogSinks.SecretOnDiskIff | internal/executor/runner.go:332-428 | a clean secret reaches the file if and only if the log overflowed and the truncation marker's own text contains it |
| LogSinks.LogFileIsCappedBatch | internal/executor/runner.go:332-428 | on lines up to the cap the file is exactly the capped one-pass redaction of everything written |
| LogReplication.RefState.HandleLogChunk | internal/workerhub/hub.go:413-467 | the file and the mark grow by exactly what of the chunk lies at the mark, and by nothing if it ends below it, starts past it or the attempt has no path; the answer is the new mark, a rewind if and only if the chunk started past the old one |
| LogReplication.RefTrack.HandleAck | internal/worker/worker.go:358-383 | a rewind sets the cursor and the flag, an ordinary ack only moves the cursor forward, and the spool is deleted exactly when the attempt has exited and all of it is acknowledged |
| LogReplication.Pump.Turn | internal/worker/worker.go:388-463 | each message is the spool at the send offset, nothing is skipped, and the pump ends only after exit with everything sent |
| LogReplication.ReceiveExtends | internal/workerhub/hub.go:413-461 | a chunk of the spool extends what the hub has of the attempt to a longer beginning of the spool, and is never acknowledged beyond that |
| LogReplication.ReceivedIsPrefix | internal/workerhub/hub.go:413-461 | under loss, duplication, reordering, restarts, other bytes in the file and late chunks of other attempts: while every adoption finds only the attempt's own bytes, what the hub has of it is the beginning of the spool, as long as the high-water mark says, no acknowledgement is ahead of it, and the spool is not deleted early |
| LogReplication.FileIsPrefix | internal/workerhub/hub.go:413-461 | for a file that starts empty and that no other attempt writes, the file itself is that beginning |
| LogReplication.FileOnlyGrows | internal/workerhub/hub.go:490-524 | what the hub once holds it keeps, across restarts and adoption, whatever the file held and whoever else writes it |
| LogReplication.GapIsRepaired | internal/workerhub/hub.go:428-437 | a chunk past the mark changes nothing but is answered with a rewind to the mark; once the worker has taken it, what it sends next starts there and the hub receives all of it |
| LogReplication.ResentIsReceived | internal/worker/worker.go:400-441 | over any execution with such adoptions: a chunk sent from the acknowledged offset, whenever it arrives, leaves the hub with everything up to its end, acknowledged |
| LogReplication.SpoolGetsThrough | internal/worker/worker.go:385-470 | from every such state with a finished attempt, a worker that tracks it and a hub that has its path, sending what the hub lacks completes the copy and deletes the spool |
| LogReplication.AdoptionLosesIff | internal/workerhub/hub.go:508-514 | after adoptions that found only the attempt's own bytes, one more makes a loss possible if and only if it does not, something of the attempt is still to be received, and a worker keeps track of it |
| LogReplication.SpoolDeletionSafeIff | internal/worker/worker.go:375-381 | in every execution the spool is deleted only when the hub has received all of it, if and only if the log file was empty at assignment and no other attempt's chunks arrive |
| LogReplication.LosingRun | internal/workerhub/hub.go:508-514 | for every non-empty file, and for every late chunk of another attempt, an execution that adopts the running attempt and loses its output |
| DependencyEvents.TriggerStore.UpstreamsSucceeded | internal/scheduler/scheduler.go:2052-2071 | all upstreams registered and successful at the date |
| DependencyEvents.TriggerStore.CreateBounded | internal/store/postgres/postgres.go:378-413 | not found for a deleted DAG, queue full before anything else, already exists for a taken id or period, and otherwise one new row |
| DependencyEvents.TriggerStore.TriggerDownstreams | internal/scheduler/scheduler.go:2042-2103 | only due downstreams are created, all of them unless deferred, and deferral means a full queue |
| DependencyEvents.TriggerStore.ProcessEvent | internal/scheduler/scheduler.go:2004-2035 | an event is consumed only if its run is gone or over without success, or every due downstream exists |
| DependencyEvents.NoTriggerLost | internal/scheduler/scheduler.go:1994-2036 | whenever all upstreams of a downstream are successful its run exists or some upstream's event is unconsumed, through deferral, retries, re-marks and crashes, if no run succeeds again after a delivery of its event has passed a downstream |
| DependencyEvents.StartedAfterUpstreams | internal/scheduler/scheduler.go:2042-2103 | over any execution a dependency run is created only for a registered, live DAG without a run for the date, when each of its upstreams is registered and had succeeded for the date by then |
| DependencyEvents.OwedIsDelivered | internal/scheduler/scheduler.go:2004-2103 | under the same condition, whenever a downstream is owed a run one undisturbed delivery that finds room in the queue creates it |
| DependencyEvents.EventIsConsumed | internal/scheduler/scheduler.go:2004-2035 | from every reachable state one undisturbed delivery that finds room in the queue consumes an event whose run is not active again, whatever its downstreams are |
| DependencyEvents.LosesIff | internal/scheduler/scheduler.go:780-785 | a trigger is lost in no execution if and only if runs cannot succeed again in that window, or no downstream could be owed a run anyway |
| DependencyEvents.OneRunPerDate | internal/store/postgres/postgres.go:378-413 | over any history two insertions for the same DAG and date are one and the same, from the conditions of the insert |
| DependencyEvents.RunIdIsInjective | internal/scheduler/scheduler.go:2993-2998 | different DAGs or dates have different run ids |
| DependencyEvents.RearmMidDeliveryLoses | internal/scheduler/scheduler.go:780-785 | for every downstream that can be owed a run, an execution in which MarkRun during a tick's delivery loses its trigger for good |
| Admission.BeforeIsStrictWeak | internal/scheduler/scheduler.go:1454-1469 | the harvest's order is a strict weak order, so the sort is well defined |
| Admission.TaskInstances.ConsiderNext | internal/scheduler/scheduler.go:1484-1550 | one turn of the loop: the decision and the budgets it leaves |
| Admission.TaskInstances.AdmitReady | internal/scheduler/scheduler.go:1450-1552 | the pass over the sorted harvest takes exactly the decisions of the budgets, with other goroutines writing in between, and stops early only when the global budget is spent |
| Admission.UsesOneSlot | internal/store/postgres/postgres.go:955-968 | exactly the queued and running instances that stand for no child run take a slot each, of the scheduler, of their pool and of their DAG |
| Admission.DispatchIsSafe | internal/scheduler/scheduler.go:1477-1550 | no dispatch takes the global count or its pool past the limit, whatever other goroutines do meanwhile |
| Admission.HarvestByPriority | internal/scheduler/scheduler.go:1445-1469 | in the sorted harvest run priority decides, then task priority, then the older period |
| Admission.NoInversion | internal/scheduler/scheduler.go:1484-1550 | a task turned away for a budget is never followed by a dispatch out of that budget |
| Admission.UrgentFirst | internal/scheduler/scheduler.go:1445-1469 | a task turned away because its pool was spent is not more urgent than any task dispatched into that pool |
| Admission.NothingIdle | internal/scheduler/scheduler.go:1484-1550 | a candidate still scheduled after an undisturbed pass has its worker group down, or its DAG, pool or the scheduler full |
| Admission.TurnedAwayMeetsSpent | internal/scheduler/scheduler.go:1484-1550 | whatever other goroutines do: a candidate turned away while scheduled has its worker group down, or the budget of its pool, its DAG or the pass is spent and stays so |
| Admission.StoppingIsFinal | internal/scheduler/scheduler.go:1484-1486 | after the early stop every later candidate would have been turned away |
| AdmissionCaps.CompatibleCapsAreKept | internal/scheduler/scheduler.go:1510-1527 | with compatible snapshots every dispatch stays within its own max_active_tasks, whatever the rows, the budgets and the other goroutines |
| AdmissionCaps.OverrunHappens | internal/scheduler/scheduler.go:1510-1527 | for every harvest with an incompatible candidate, rows and budgets under which its DAG overruns the cap that candidate carries |
| AdmissionCaps.CapsKeptIff | internal/scheduler/scheduler.go:1510-1527 | every dispatch of every pass over a harvest stays within its own max_active_tasks if and only if no candidate carries a cap below its DAG's first one plus the candidates without a cap between them |
| AdmissionCaps.SameCapsAreKept | internal/scheduler/scheduler.go:1510-1527 | when the runs of each DAG all carry the same snapshot, every dispatch stays within it |
| RunQueue.BucketRuns | internal/scheduler/scheduler.go:1380-1387 | the queue split by DAG, in order |
| RunQueue.SortBuckets | internal/scheduler/scheduler.go:1388-1400 | exactly the serial_priority DAGs' queues are sorted |
| RunQueue.Rebuild | internal/scheduler/scheduler.go:1406-1413 | each slot takes the next run of its DAG |
| RunQueue.ReorderPriorityQueues | internal/scheduler/scheduler.go:1379-1415 | the loops compute the reordering, the unchanged early return included |
| RunQueue.ReorderedPermutes | internal/scheduler/scheduler.go:1375-1415 | the reordering is a permutation that leaves each slot with its DAG |
| RunQueue.ReorderedDrains | internal/scheduler/scheduler.go:1375-1415 | a serial_priority DAG's runs come out by priority and then date, every other DAG's in their old order |
| RunQueue.TiesKeepListingOrder | internal/scheduler/scheduler.go:1388-1400 | runs of equal priority and date come out in the order they were listed |
| RunQueue.SerialPriorityOrder | internal/scheduler/scheduler.go:1388-1400 | a serial_priority DAG's queue drains the highest priority first, and within one priority the oldest period |
| RunPromotion.SettleNext | internal/scheduler/scheduler.go:1343-1371 | a run that is not held starts if no other of its DAG is counted, or fewer than max_active_runs are and the policy is parallel; it is discarded if another is counted and the policy is serial_discard; otherwise the tally keeps its lists |
| RunPromotion.PromoteQueued | internal/scheduler/scheduler.go:1334-1371 | the loop computes the tick's tally over the reordered queue; only runs of serial_discard DAGs are discarded, and no held run is started or discarded |
| RunPromotion.CapsHold | internal/scheduler/scheduler.go:1334-1371 | the tally counts exactly and no promotion passes its DAG's cap or the global one |
| RunPromotion.NoSlotIdle | internal/scheduler/scheduler.go:1334-1371 | a run that is neither held nor promoted met a full DAG or a full scheduler that is still full at the end |
| RunPromotion.StartedIff | internal/scheduler/scheduler.go:1334-1371 | a tick starts exactly the runs that it reaches below the global limit, not held, with no other of their DAG running by then, or under the parallel policy fewer than max_active_runs |
| RunPromotion.DiscardedIff | internal/scheduler/scheduler.go:1358-1365 | a tick discards exactly the runs of serial_discard DAGs that it reaches below the global limit, not held, with another of their DAG running by then |
| RunPromotion.TickCancelsOnlyDiscards | internal/scheduler/scheduler.go:1358-1365 | over any history a tick cancels only a run of a serial_discard DAG beside which it has listed or started another run of the DAG |
| RunPromotion.MostUrgentFirst | internal/scheduler/scheduler.go:1334-1371 | a serial_priority DAG leaves no run queued that is more urgent than one it starts, held ones aside |
| RunPromotion.CapKeptIff | internal/scheduler/scheduler.go:1307-1371 | over any history, the tick's listings and each start being steps of their own, a DAG keeps within its cap if and only if every reactivation of one of its runs finds it below the cap, and so does every start while a run reactivated since the tick's listing is running |
| RunPromotion.SerialNeverTwoIff | internal/scheduler/scheduler.go:1307-1371 | over any history a DAG with a serial policy never has two running runs if and only if no run of it is reactivated while another one is running, and no tick starts one while a run reactivated since its listing is running |
| RunPromotion.ReactivationRunsTwo | internal/scheduler/scheduler.go:737-747 | for every configuration and DAG, a history in which a finished run is reactivated beside a running one |
| RunPromotion.ReactivationInsideTickRunsTwo | internal/scheduler/scheduler.go:1320-1371 | for every configuration and DAG, a history in which a run is reactivated while none is running and the tick, which has listed none, starts the next one beside it |
| RunPromotion.StartsQueuedIff | internal/scheduler/scheduler.go:1307-1371 | over any history a tick starts only runs that are queued if and only if no run it starts ended after it had listed it |
| RunPromotion.LateCancelIsUndone | internal/model/model.go:67-79 | for every configuration, a history in which a queued run is cancelled after the tick has listed it and is started all the same |
| Catchup.LatestScheduledRun | internal/store/postgres/postgres.go:473-481 | the newest schedule-triggered run's date, or none |
| Catchup.CreateDueRun | internal/scheduler/scheduler.go:1217-1305 | a run is created, queued and for the period after the anchor, if and only if the DAG is scheduled, has tasks and is neither paused nor deleted, that period is not after now, fewer than max_active_runs are active, the queue is below its limit, and neither id nor period is taken |
| Catchup.RunTables.FindPrunable | internal/store/postgres/postgres.go:1402-1434 | finished runs past the cutoff, except each DAG's newest scheduled one |
| Catchup.RunTables.PruneRuns | internal/store/postgres/postgres.go:1436-1474 | the chunked deletes remove exactly those runs with their task instances and events |
| Catchup.PruneKeepsAnchor | internal/store/postgres/postgres.go:1411-1421 | the newest scheduled run of every DAG survives any pruning |
| Catchup.DatesFormChain | internal/scheduler/scheduler.go:1293-1305 | over any history with pruning the scheduled dates of a DAG are a chain of consecutive periods, from the first one with catchup |
| Catchup.ChainClimbs | internal/scheduler/scheduler.go:1293-1305 | no period is started twice |
| Catchup.ChainHasNoGap | internal/scheduler/scheduler.go:1293-1305 | no period boundary lies between two neighbours of the chain |
| Catchup.CreatedWhenDue | internal/scheduler/scheduler.go:1217-1305 | over any history each date was created by a step whose clock had reached it, for an open DAG with room in both limits, one step a date; without catchup the first one lies after the scheduler's start |
| Catchup.DueIsCreated | internal/scheduler/scheduler.go:1217-1305 | after any history a tick that finds the DAG open, its next period come, and room, with neither id nor period taken, creates it |
| Lease.LeaseTable.AcquireLease | internal/store/sqlite/lease.go:18-49 | granted if and only if there is no row, or it is the caller's own, unreadable, or not after now; a grant names the caller until now + ttl, a refusal changes nothing and names the holder |
| Lease.LeaseTable.RenewLease | internal/store/sqlite/lease.go:54-64 | extended if and only if the holder still owns the row |
| Lease.LeaseTable.ReleaseLease | internal/store/sqlite/lease.go:67-70 | the row goes if and only if the holder owns it |
| Lease.InvStep | internal/store/postgres/lease.go:18-60 | every step, a delayed clock reading and the first insert's race included, keeps the row naming whoever is inside its window |
| Lease.OneHolder | internal/store/postgres/lease.go:18-81 | no two instances are inside ttl of their last grant at once, and the row names the one that is |
| Lease.RenewFailsAfterTakeover | internal/store/postgres/lease.go:62-75 | after a takeover every renew of the old holder fails until it acquires again |
| Lease.SelectTakesIff | internal/store/postgres/lease.go:48-58 | over any execution a select that finds a row takes the lease if and only if the row is the caller's own, unreadable, or its time is not after the caller's clock reading; otherwise nothing changes |
| Lease.InsertTakesIff | internal/store/postgres/lease.go:34-46 | a select that finds no row goes on to the insert, which takes the lease if and only if there is still none |
| Lease.StandbyTakesOver | internal/store/postgres/lease.go:18-60 | from every reachable state an instance that waits for the row's time to pass and acquires once is inside its window, with no step of anybody else |
| Lease.RenewExtendsIff | internal/store/postgres/lease.go:62-75 | over any execution a renew extends the window by ttl from its clock reading if and only if the row names the caller, and ends the window otherwise |
| RetryBackoff.AcceptedIsRepresentable | internal/scheduler/parser/parser.go:227-229 | every pair of delays the parser accepts, an inherited default included, is a base inside int64 and a cap below the saturated wait |
| RetryBackoff.DelayIsBounded | internal/scheduler/scheduler.go:931-958 | for every base that is a duration, the parser's 365 days included, every cap and any number of tries the wait lies between the base (or the cap) and the cap, overflow or not |
| RetryBackoff.ExactIff | internal/scheduler/scheduler.go:931-958 | the wait is the doubled base up to the cap if and only if the shift does not overflow or the wrapped product is below the base or at least the cap |
| RetryBackoff.SmallBaseDoubles | internal/scheduler/scheduler.go:931-958 | with base*2^20 below 2^63 the wait is exact and monotone in the number of tries |
| RetryBackoff.FirstWaitIsBase | internal/scheduler/scheduler.go:928-958 | for such a base the first retry waits the base, or the cap if that is shorter |
| RetryBackoff.EachWaitDoubles | internal/scheduler/scheduler.go:928-958 | and each further wait is twice the one before it, until the cap or the 20th doubling, and the same from then on |
| RetryBackoff.FixedWaitsBase | internal/scheduler/scheduler.go:937-939 | with the fixed backoff, or no delay, the wait is the base whatever the cap and the number of tries |
| RetryBackoff.DefaultCapIsExact | internal/scheduler/scheduler.go:931-958 | without retry_delay_max the wait is the doubled base up to a day for every base, overflow or not |
| RetryBackoff.AcceptedConfigOverflows | internal/scheduler/parser/parser.go:430-440 | an accepted configuration whose shift overflows and whose 21st wait is shorter than its 20th |

## Left out

Assumptions of the model:

- Store and RPC calls do not fail; each SQL statement or transaction is one atomic step. In particular
  scheduleAnchor's fallback when its lookup fails is not modelled. A tick processes a running run that it has
  listed only while it is still running; queued runs are started from the listing, however stale.
- The executor answers every probe with its record, and "unknown" means not running. Launch is idempotent per
  reference; killing a process is a process exit at any time.
- The definition of a run does not change: the version boundary of a retry and tasks removed from a definition
  are not modelled.
- `when`, `depends_on_dag` and their timeouts are the nondeterministic steps that skip or fail a ready task.
  Subdag children, operator holds of tasks, SLA alerts and deadlines' clocks are not modelled; a timeout may
  happen at any time.
- Times are integers, `next` is any forward-moving function; YAML, cron parsing, time zones and text
  substitution in foreach commands are not modelled.

Stated weaker, or only under a condition:

- LaunchedAtMostOnce: for one run, with an executor that keeps a launched attempt's record while its row is
  queued; NeverReusesIff shows that it has to.
- DependencyOrder: for all_success rules and without marks, which may change a task's state under its dependents.
- OrderHoldsIff: for all_success rules and without marks, as DependencyOrder.
- LaunchesAreBounded: without operator actions, which may start attempts for as long as operators like.
- RunNeverWedges: says that the run can be brought to its end, not that a fair scheduler does so; a give-back loop
  while no worker is available is possible.
- NoTriggerLost: fixed edges and registrations, no pruning; the page limit of the event listing is covered, since
  a delivery may see any part of the pending events.
- OneRunPerDate: runs that other sources create have ids of their own form or that of their period, and no run is
  pruned.
- RunIdIsInjective: for dates written differently when they differ, and without underscores, as the layout of runID does.
- NothingIdle: for a pass with no other goroutine writing; a slot freed during a pass is used by the next tick, and
  TurnedAwayMeetsSpent is what holds otherwise.
- CapsKeptIff: for caps up to the parser's limit of 1000 and harvests that hold a task instance once.
- CapKeptIff: the definition, and with it the policy and the cap, does not change during the history, and no run
  is pruned.
- SerialNeverTwoIff: as CapKeptIff.
- ParseTasks: what is asked of fields that are not modelled (type, command, pool, worker group, trigger rule,
  dependency on another DAG, delays, http) is a parameter by task id; the checks of the DAG's own fields are left
  out.
- SeenIds: the same parameter; which error is reported first is not modelled.
- DatesFormChain: a period already taken by another run stops the chain until that run is gone; otherwise
  DueIsCreated.
- SpoolDeletionSafeIff: the spool is complete before its exit is noticed and no log is pruned. Write errors on the
  hub are not modelled.
- SpoolGetsThrough: says that the copy can be completed, not that it will be; a dropped rewind is repaired only by
  the next session.
- StandbyTakesOver: likewise that the lease can be had once its time has passed and nobody interferes.
- OwedIsDelivered: for a delivery that no other step interrupts; EventIsConsumed likewise.
- FileIsPrefix: an attempt is assigned once, as module EngineRefs shows for the scheduler.
- AlwaysExactIff: for secrets without the mask character and without line breaks, as the source assumes.
- OneHolder: one shared clock that does not go back, distinct holder names.
- SmallBaseDoubles: a sufficient condition only; ExactIff is the exact one.

Not modelled at all:

- HTTP API, CLI, console, MCP server, notifications, e-mail, metrics, audit and service installation: they do not
  feed back into scheduling.
- TLS, certificates, password hashing and secret encryption.
- The plain sink used when there is nothing to redact, and write errors of the log file.
- External events, backfills and manual triggers, other than as runs that appear.
- The worker hub's routing, heartbeats and loss detection, other than as lost and repeated messages.
