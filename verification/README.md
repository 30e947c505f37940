# Durable workflow runs: a verified model

This project models the durable run machinery of a multi-agent orchestration framework and
proves what it promises. A validated dependency graph of steps is executed in segments. A
segment sends the tasks that are ready to worker queues, parks the run on one wake condition,
and is re-entered later from a checkpoint. Workers handle the tasks, publish results, and a
collector stores each result once. A waker and a poller claim joins, timers and events and
resume runs. An idempotency guard stands before every publish and every side effect. Segments
may die before the stage, at any dispatch, between an effect and the guard's record of it, and
inside a park; workers may fail, messages may be delivered again, and runs may be cancelled, in
any interleaving.

## How it is built

- `definition.dfy`, `templates.dfy`, `keys.dfy`: the graph and its validation, the input
  templates, the idempotency keys.
- `executor.dfy`, `executor_laws.dfy`, `choices.dfy`: one segment of the executor on values,
  its laws, and which way it goes. `executor_steps.dfy`: the same as loops over mutable state, proved equal.
- `lifecycle.dfy`, `workers.dfy`, `guard.dfy`, `broker.dfy`, `driver.dfy`: result store, waker,
  collector, poller, dispatcher, worker, guard, in-memory broker and stage driver, as classes
  proved against functions. `admission.dfy`: what one delivery at a worker does, by its outcome.
- `protocol.dfy`: all of it as one state machine. `control.dfy`, `provenance.dfy`,
  `records.dfy`, `waiting.dfy`, `closure.dfy`, `settling.dfy`: its invariants.
  `guarantees.dfy`, `outcomes.dfy`, `deliveries.dfy`: the main theorems, each over every
  sequence of actions, how a drive ends, and what a worker does. `runtime.dfy`: the driver over
  mutable stores, proved to take the steps of the state machine.
- `replay.dfy`, `gaps.dfy`, `resending.dfy`, `deaths.dfy`, `parking.dfy`, `straying.dfy`: the
  runs a death can lead to, built from any accepted workflow, and with them the exact conditions
  of five promises.
  `limits.dfy`: the purchase cycle of the repository.
- `promote.dfy`, `policy.dfy`, `policy_laws.dfy`, `budget.dfy`, `approval.dfy`: promotion of a run into a workflow,
  the policy rule fold, the token budget, role-bound approvals.

A segment is one action of the state machine and so is each step of a worker. A call of the
guard is one step there too: it finds a record, or executes and records, or executes and loses
its record; `guard.dfy` shows that the interleaved guard does nothing else. The digest in an
idempotency key is taken to be injective, agents and subagents are arbitrary functions, and
time is an integer clock. Five promises turned out to be narrower than one would read them:

- Around a crash a step may be sent under two keys when its payload depends on the reply of a
  subagent. `EachStepOnce` holds for every step whose payload does not; `OneKeyExactly` gives
  the exact condition for steps whose gates come before the subagents they name.
- After a crash the completed set may miss a dependency at the start of a segment. It is closed
  in every checkpoint (`CheckpointsAreClosed`), and at the start of every segment exactly when
  queue steps depend on queue steps only (`AlwaysOpensClosedExactly`).
- A run that dies inside a park on a gate passes the gate without its wake
  (`DeathPassesGate`). While no death comes after a wake entry the gates so skipped are the only
  ones (`GatePassesAfterItsOwnWake`); over every run the promise holds exactly when there is no
  gate (`GatesPassOnTimeExactly`).
- A run that dies after the wake entry of a park may be claimed many times at once
  (`ClaimedAnyNumber`), wake for nothing and park again and again. One wake for each park, over
  every run, is kept exactly when nothing parks (`OneWakeExactly`), the bound on parks exactly
  when a queue step comes before all other steps to park on (`ParksBoundedExactly`). Which
  resume makes progress is exact too (`ResumeAdvancesExactly`), and no join is lost
  (`NoJoinIsLost`).
- The budgeter keeps its bound only when the data-pointer notes leave room for it
  (`BudgetIsKeptExactly`).

## Model

| member | source | states |
|---|---|---|
| Guarantees.ParkedRunHasOneWake | src/maof/orchestrator/l1.py:110-119 | in every reachable state, of a run that did not die between the wake entry of a park and the WAITING status: while it waits it has exactly one unfired wake entry, the one it parked on last, or one claimed wake whose resume is still to come; while it does not, it has neither |
| Guarantees.GatePassesAfterItsOwnWake | src/maof/workflows/executor.py:64-73 | of a run that did not die after a wake entry: a gate recorded as passed was parked on, its own entry fired, and its event was signalled, its time had come or its delay had passed since the park, whatever results arrived meanwhile, if and only if no death came between the checkpoint of the park on that very gate and its entry |
| Guarantees.SegmentsActInOrder | src/maof/workflows/executor.py:54-115 | in every segment of every run, the first one included and also one that is cut short, a step is sent, run or passed only when all its dependencies are complete; the "stalled" error never occurs |
| Guarantees.SegmentsPassGatesOnTime | src/maof/workflows/executor.py:64-70 | in every segment, also one that is cut short, of a run that did not die after a wake entry: a gate is passed after its own wake if and only if no death skipped that very gate before |
| Guarantees.SegmentsSendAfterResults | src/maof/workflows/executor.py:92-99 | in every segment of every run, the first one included and also one that is cut short, a task is sent only when all queue steps before it, directly or not, have stored results |
| Guarantees.ParksAtMostOncePerStep | src/maof/workflows/executor.py:101-115 | a run of any accepted workflow that did not die after a wake entry parks at most as often as it has steps; from park to park the completed set grows by at least the step parked on |
| Guarantees.ClaimedWakeMakesProgress | src/maof/orchestrator/l1.py:69-78 | of a run that did not die after a wake entry: resuming a claimed wake completes the step the run was parked on, unless the segment is cut short, denied or cancelled |
| Guarantees.ResumeAdvancesExactly | src/maof/orchestrator/l1.py:69-78 | of every run, wherever it died before: resuming it while it waits completes the step it was parked on, unless the segment is cut short, denied or cancelled, if and only if that step is a gate or has a stored result |
| Guarantees.NoJoinIsLost | src/maof/orchestrator/lifecycle.py:196-210 | of every run, wherever it died before: when the result it waits for is stored, in whichever order it arrived and the run parked, and even if the collector died in between, the run is claimed after the next poll |
| Guarantees.NoGateIsLost | src/maof/workflows/executor.py:117-133 | of every run, wherever it died before: a run that waits on a gate is claimed by the next poll of the timers once the time the bound input names has come or its delay has passed since the park, and by the signal of the event it names |
| Guarantees.FreshResultClaimsAtOnce | src/maof/orchestrator/lifecycle.py:385-395 | of every run, wherever it died before: the first result of the step it waits for claims it at the collector, without a poll |
| Guarantees.QueueOutputsAreAcceptedResults | src/maof/orchestrator/lifecycle.py:385-395 | the output of a queue step is that of a stored result of that step before which none of that step stands, which answers a task message of the run and passed the validator |
| Guarantees.CheckpointsAreClosed | src/maof/orchestrator/l1.py:110-119 | the completed set in every checkpoint is closed under dependencies, whatever crashed before; a COMPLETED run has completed every step |
| Guarantees.UncrashedRunsOpenClosed | src/maof/workflows/executor.py:44-52 | while no segment was cut short, the completed set is closed also right after the refresh from the result store |
| Gaps.OpensClosedExactly | src/maof/workflows/executor.py:44-52 | in every reachable state the completed set right after the refresh is closed if and only if every in-process or gate dependency of a stored step that the checkpoint does not record is in the checkpoint |
| Gaps.AlwaysOpensClosedExactly | src/maof/workflows/executor.py:44-52 | for every accepted workflow whose gates can come about: it is closed in every segment of every run, whatever crashes, if and only if queue steps depend on queue steps only |
| Gaps.GapIsReached | src/maof/workflows/executor.py:44-52 | the failing half: a workflow whose gates can come about and in which some queue step depends on a gate or on an in-process step has a run that opens a segment with a dependency missing |
| Gaps.UsableExactly | src/maof/workflows/executor.py:117-133 | a gate parks the run on something that can come about if and only if its bound input asks for an event, a time in numbers, or a delay in numbers or none |
| Gaps.OutrightIsUsable | src/maof/workflows/definition.py:94-108 | to be read off the definition: gates whose input names the event wait, a time or a delay outright, or neither a time nor a delay, can come about whatever is bound |
| Guarantees.EachKeyOnce | src/maof/orchestrator/lifecycle.py:69-74 | every idempotency key has at most one task message, ledger record and result message more than the guard has lost records of it, and exactly distinct keys when it lost none; at most one stored result in any case; each of them answers a task message |
| Guarantees.EachStepOnce | src/maof/workflows/executor.py:135-153 | crash replay: over every run, however often it crashes, all task messages, side effects and results of a step carry one key, and at most one result is stored, when its payload is settled by the outputs of queue steps before it and of gates it depends on, or the run lost no segment |
| Resending.OneKeyExactly | src/maof/workflows/executor.py:135-153 | for every accepted workflow and every queue step whose templates name only its own dependencies and queue steps before it, when the gates before it can come about and come before the subagents whose replies it names: its task messages carry one key over every run if and only if its payload is settled by the outputs of the queue steps before it |
| Resending.TwoRepliesTwoKeys | src/maof/workflows/executor.py:92-99 | the failing half: two replies of the subagents that the payload tells apart lead to a reachable state with two keys of the step |
| Resending.Arrives | src/maof/workflows/executor.py:54-115 | the run that shows it: past the gates before the step, with the answers one chooses for all queue steps before it, to a checkpoint from which the next segment sends the step and that keeps no reply the step names |
| Replay.ReplayTellsApart | src/maof/workflows/executor.py:92-99 | from any checkpoint of any accepted workflow, gates included: when a step can be sent and its payload tells two answers of the subagents apart, a replay sends it under a second key |
| Provenance.ReadingToldIsReplayable | src/maof/workflows/definition.py:94-108 | a step whose templates name only queue steps before it and gates it depends on has its payload settled by them |
| Guarantees.CancelStopsTheRun | src/maof/workers/pool.py:63-96 | once cancellation was asked for, no segment of the run, no subagent, no handler of its tasks and no task message of it ever begins again |
| Guarantees.CancelTakesHold | src/maof/runs/store.py:159-161 | asking for cancellation does that, from the state after the call on |
| Guarantees.ResultsAnswerTasks | src/maof/workers/pool.py:124-139 | every result message carries the key, run and step of a task message that was sent for a queue step of that run |
| Control.NextKeepsControl | src/maof/orchestrator/lifecycle.py:142-210 | every action of the system keeps: parks, wakes, claims, checkpoints and statuses fit together, every unfired entry is owned by a waiting run or by one that died after a wake entry, and every fired entry had its reason |
| Records.NextRecords | src/maof/orchestrator/lifecycle.py:69-74 | every action of the system keeps: task messages, result messages, ledger, store and recorded outputs fit together |
| Waiting.NextHolds | src/maof/orchestrator/lifecycle.py:142-210 | every action of the system keeps, of every run: a waiting run holds the entry it parked on last, unfired or claimed, and the gates a death skipped are told apart from those the run parked on |
| Closure.NextCloses | src/maof/workflows/executor.py:92-99 | every action of the system keeps: a run that lost no segment has one task message per step, all of them of recorded steps whose dependencies are complete |
| Settling.NextSettles | src/maof/workflows/executor.py:44-99 | every action of the system keeps: the dependencies of every task message ever sent stay bound to be complete at the end of the next segment that ends well |
| Settling.AlwaysSound | src/maof/orchestrator/l1.py:84-132 | all of these hold in every state that any sequence of actions can lead to |
| Settling.BoundIsComplete | src/maof/workflows/executor.py:54-99 | a segment that is not cut short completes everything that is stored, or that completes by itself once its dependencies do |
| Settling.CompletionsAreBound | src/maof/workflows/executor.py:54-99 | a segment, even one cut short later, completes only what stays bound to be complete |
| Deaths.DeathPassesGate | src/maof/orchestrator/l1.py:113-117 | for every run that dies inside a park on a gate: the next segment passes the gate, after a death at the checkpoint without any entry for it, after a death at the entry with the entry still unfired |
| Deaths.GateIsSkipped | src/maof/orchestrator/l1.py:113-117 | every accepted workflow with a gate, whose gates can come about, has a run that records a gate as passed though no wake ever fired and no event was signalled |
| Deaths.GatesPassOnTimeExactly | src/maof/workflows/executor.py:64-73 | for every accepted workflow whose gates can come about: every gate recorded as passed, in every reachable state, has passed on its own wake if and only if the workflow has no gate |
| Deaths.OneWakeExactly | src/maof/orchestrator/l1.py:113-117 | for every accepted workflow whose gates can come about: its run has one wake while it waits and none otherwise, in every reachable state, if and only if all its steps run in process |
| Straying.ParksBoundedExactly | src/maof/workflows/executor.py:101-115 | for every accepted workflow whose gates can come about: every run parks at most as often as it has steps, completing from park to park the step it was parked on, whatever dies, if and only if every queue step comes before all other steps the run can park on |
| Parking.JoinFirstIsBounded | src/maof/workflows/executor.py:101-115 | the keeping half, for any validator and without a condition on gates |
| Straying.BoundIsBroken | src/maof/orchestrator/l1.py:113-117 | the failing half: any other such workflow has a run that breaks the bound or parks again without the step it was parked on, woken by an entry that a death left behind |
| Straying.ClaimedAnyNumber | src/maof/orchestrator/l1.py:113-117 | a workflow with a queue step, every gate of which comes after one, has a run that is claimed at once as often as one likes |
| Parking.NextGrows | src/maof/orchestrator/lifecycle.py:142-210 | every action of the system keeps, of every run of such a workflow: parks grow, every claim and every gate entry comes after all results the run may wait for |
| Limits.CycleIsReplayable | examples/po_demo/workflows/po-cycle.yaml:11-60 | every step of the purchase cycle is replayable, the orders and the actualization included |
| Limits.OrderCarriesThePlan | examples/po_demo/workflows/po-cycle.yaml:33-47 | in every reachable state a task message of an order of the purchase cycle has exactly its three fields: its region, and the order code and the plan id out of the first stored result of the plan step |
| Limits.ReservationCarriesTheSpend | examples/po_demo/workflows/po-cycle.yaml:20-26 | in every reachable state a task message of the reservation carries the spend out of the run context and the plan id out of the first stored result of the plan step |
| Limits.CycleGatesAreUsable | examples/po_demo/workflows/po-cycle.yaml:28-31 | the gate of the purchase cycle can come about, so the theorems for such workflows apply to it |
| Promote.PromotionKeepsTheOrder | src/maof/workflows/promote.py:68-98 | a COMPLETED run, however often it crashed, is promoted to a valid chain that has each queue step exactly once, with its task type, in an order that is a linear extension of the original dependencies; only a run without queue steps has nothing to promote |
| Promote.ChainIsValid | src/maof/workflows/promote.py:77-98 | whatever the envelopes are, the chain passes structural validation |
| Promote.ChainLaw | src/maof/workflows/promote.py:77-91 | the chain has one step for each step reference among the envelopes, each once, each depending on the one before |
| Promote.PromoteRun | src/maof/workflows/promote.py:41-98 | the loop over the envelopes computes that chain, each refusal exactly when the source refuses, and the definition built from it is accepted |
| Promote.ChainReplays | src/maof/workflows/promote.py:68-98 | one step for the first envelope of each name, in the order of the envelopes: a queue step of its task type without input or approval, pinned to the version of the last record of the trace that has one |
| Promote.ResolvedVersions | src/maof/workflows/promote.py:101-115 | a step is pinned if and only if some dispatch record of the run names it with a version, and then to the version of the last such record |
| ExecutorLaws.DriveLaw | src/maof/workflows/executor.py:39-118 | one segment keeps all outputs, acts in order, completes only from the checkpoint, the result store, a passed gate or a subagent, and sends no step twice |
| ExecutorLaws.DriveEnds | src/maof/workflows/executor.py:101-118 | for every accepted definition and any checkpointed state a segment never stalls, finishes only with all steps complete, and parks on a gate that is ready or on a dispatched step that is not complete |
| ExecutorLaws.SettledCannotStall | src/maof/workflows/executor.py:105-115 | with pending steps, no gate to wait for and nothing more to do, a pending step has been dispatched, since the graph has no cycle |
| ExecutorLaws.WakeMakesProgress | src/maof/workflows/executor.py:44-73 | a segment from a park whose wake fired completes the step parked on |
| ExecutorLaws.ParkLeavesNothingReady | src/maof/workflows/executor.py:57-103 | a run parks only when every task with complete dependencies is complete or dispatched, and it waits on a gate when some gate is ready |
| ExecutorLaws.ApprovalsAreKept | src/maof/workflows/executor.py:76-95 | a step that needs an approval is sent or run only with one; a segment is denied only when the approvers do not grant; a step run in process has its reply as output |
| ExecutorLaws.RefreshLaw | src/maof/workflows/executor.py:44-52 | the refresh adds exactly the steps with a stored result, each with the output of the first one |
| Choices.OwnModeWins | src/maof/workflows/executor.py:92-99 | a step of its own mode is sent only by queue mode and run only by in-process mode; the default of the executor decides for the others |
| Choices.SentCarriesTask | src/maof/workflows/executor.py:135-153 | every task message of a segment names run and step, has the task type of the step or the generic one and the objective of the step, and its payload is exactly what the input of the step stands for over the outputs seen |
| Choices.DeniedExactly | src/maof/workflows/executor.py:76-91 | a segment that meets no fault is denied if and only if a task is left that only waits for an approval nobody gives |
| Choices.ParksOnEarlyGate | src/maof/workflows/executor.py:64-73 | a segment parks on a gate that stands no later in the definition than any gate that was ready when it began |
| Choices.ParksOnFirstJoin | src/maof/workflows/executor.py:105-115 | a segment that parks on a join parks on the first step of the definition that was sent and has no result |
| Executor.SweepShrinks | src/maof/workflows/executor.py:54-99 | a pass that reports progress has completed a step, which is why the loop ends |
| ExecutorSteps.WorkflowExecutor.RefreshCompletions | src/maof/workflows/executor.py:44-52 | the loop over the steps in place computes the refresh |
| ExecutorSteps.WorkflowExecutor.VisitTaskStep | src/maof/workflows/executor.py:74-99 | approval, delegation and dispatch of one step in place, with the publish through the guard at that moment |
| ExecutorSteps.WorkflowExecutor.Pass | src/maof/workflows/executor.py:57-99 | one pass over the steps in place |
| ExecutorSteps.WorkflowExecutor.Run | src/maof/workflows/executor.py:39-118 | the whole invocation in place equals the segment the laws are about, and the broker has got its task messages |
| Templates.BindDependsOnlyOnReads | src/maof/workflows/definition.py:94-108 | a bound payload depends on the outputs of the steps its templates name and on nothing else |
| Templates.BindIsExactly | src/maof/workflows/definition.py:94-108 | binding yields exactly the value a template stands for: a literal itself, a whole template the value its path names with its type, a longer text its pieces with falsy values as nothing, a list by place, an object by exactly its keys |
| Templates.ResolvePath | src/maof/workflows/definition.py:73-91 | walking a local down the value resolves the dotted path: field by field from the context or the output of the step, and null once an object is left |
| Definition.ValidateDag | src/maof/workflows/definition.py:43-63 | accepts exactly the step lists with unique ids, known dependencies and no dependency cycle; acceptance yields a rank that goes down along every edge; each rejection is explained, a cycle by a real cycle among the remaining steps |
| Definition.Kahn | src/maof/workflows/definition.py:54-62 | the loop ends; the steps taken are ranked after all their dependencies, and every step left waits for another one left |
| Definition.StuckSetHasCycle | src/maof/workflows/definition.py:54-59 | a non-empty set of steps in which everybody waits for somebody contains a cycle |
| Provenance.SentTaskOk | src/maof/workflows/executor.py:135-153 | a task message is of a queue step not dispatched before; the key of a replayable step can be rebuilt from the result store |
| Provenance.SegmentOutputsOk | src/maof/workflows/executor.py:44-73 | after a segment every recorded output of a queue step is its first stored result, every passed gate is one of those that may pass, and the queue steps before any completed step have results |
| Runtime.WorkflowDriver.Drive | src/maof/orchestrator/l1.py:84-132 | one drive over the mutable stores, also one that dies on the way, does to status, checkpoint, wakes and broker what the state machine says, and nothing to other runs |
| Runtime.WorkflowDriver.ResumeRun | src/maof/orchestrator/l1.py:69-78 | refused without a checkpoint; otherwise drives from exactly the checkpointed state, skipping a stage that is complete there |
| Outcomes.CancelledRunEnds | src/maof/orchestrator/l1.py:87-95 | in every reachable state: a run whose cancellation was asked for ends CANCELLED when it is resumed or recovered, or COMPLETED when its stage is complete, and checkpoint, entries, broker and store stay as they are |
| Outcomes.SegmentLeaves | src/maof/orchestrator/l1.py:84-132 | in every reachable state, for each way a segment ends and each death on the way out: the status, the checkpoint and the wake entries that are left; a park that goes through leaves WAITING with one new entry, a denial FAILED with the old checkpoint |
| Outcomes.StatusExactly | src/maof/orchestrator/l1.py:84-132 | without faults and deaths: FAILED if and only if a task only waits for an approval nobody gives, COMPLETED if and only if every step is complete, WAITING otherwise |
| Outcomes.StartLeaves | src/maof/orchestrator/l1.py:54-67 | a run starts only for an accepted plan that has none, and its first segment leaves the same |
| Outcomes.SegmentPublishes | src/maof/orchestrator/l1.py:84-132 | the broker gets exactly the task messages of the segment |
| Driver.StagesRunOnceInOrder | src/maof/orchestrator/l1.py:84-108 | over any sequence of park, crash, cancel and resume segments the completed stages are a prefix of the pipeline, a checkpointed stage never starts again, and no stage starts after cancellation was asked for |
| Driver.CompletedRunHasAllStages | src/maof/orchestrator/l1.py:87-108 | over any sequence of segments, a run that is COMPLETED has every stage in its checkpoint |
| Driver.SegmentEnds | src/maof/orchestrator/l1.py:84-132 | a segment ends at the first stage that does not advance: CANCELLED when cancellation was asked for by then, WAITING with the completed stages saved when it parks, FAILED when it is denied, as it was when it dies, and COMPLETED past the last stage |
| Driver.DefaultL1.Drive | src/maof/orchestrator/l1.py:84-132 | the loop over the stages in place does what the stage machine says |
| Driver.DefaultL1.Resume | src/maof/orchestrator/l1.py:69-78 | a later segment starts from the checkpointed stages; refused without a checkpoint |
| Lifecycle.InMemoryResultStore.Save | src/maof/orchestrator/lifecycle.py:69-74 | keeps the first result of every key and says whether it was fresh |
| Lifecycle.InMemoryResultStore.List | src/maof/orchestrator/lifecycle.py:76-81 | lists the results of a run or step in the order they were saved |
| Lifecycle.ListedIsWhatMatches | src/maof/orchestrator/lifecycle.py:76-81 | the list holds exactly the matching results, with different keys |
| Lifecycle.InMemoryRunWaker.SatisfyResults | src/maof/orchestrator/lifecycle.py:151-166 | claims the first unfired join of the step if it has enough results, and nothing else |
| Lifecycle.InMemoryRunWaker.Sweep | src/maof/orchestrator/lifecycle.py:168-210 | events, timers and joins: fires exactly the entries the trigger hits and answers the runs of those fired now |
| Lifecycle.WokenIsWhatIsClaimed | src/maof/orchestrator/lifecycle.py:168-210 | the runs answered are exactly those with an entry claimed by this sweep |
| Lifecycle.ResultCollector.Handle | src/maof/orchestrator/lifecycle.py:385-395 | a rejected result is never stored; a duplicate changes nothing; a fresh one is stored and the run is resumed exactly when its join is claimed |
| Lifecycle.WakerPoller.Tick | src/maof/orchestrator/lifecycle.py:415-422 | every run with a due timer or a satisfied join is resumed, and nothing claimable is left |
| Lifecycle.EveryWakeFiresAtMostOnce | src/maof/orchestrator/lifecycle.py:142-210 | under any order of results, schedules, events and polls no entry is claimed twice, and a fired join has at least the expected number of results under different keys |
| Workers.EachKeyAtMostOnce | src/maof/orchestrator/lifecycle.py:289-313 | under duplicate publishes, redeliveries, refusals and failing handlers every key has at most one task message, ledger record and result message more than the guard has lost records of it |
| Workers.RedeliveryAnswersTheSame | examples/po_demo/agents.py:75-106 | a redelivered task answers what its first side effect recorded and leaves the ledger as it is |
| Workers.WorkerPool.Handle | src/maof/workers/pool.py:74-147 | the checks in their order, the agent, the result check and the guarded reply, in place |
| Admission.HandledExactly | src/maof/workers/pool.py:74-147 | each refusal exactly when its check is the first to fail, in the order of the source, and then nothing has happened; otherwise the agent gets exactly the tools that are free or whose scope is held, and a reply leaves exactly for a conforming answer with somewhere to reply to, once |
| Admission.OnlyAcceptedLeaveTraces | src/maof/workers/pool.py:74-147 | over any sequence of publishes and deliveries: every ledger record and every result message comes from a signed, allowed, conforming, known and uncancelled delivery of its task |
| Deliveries.BeginsExactly | src/maof/workers/pool.py:63-110 | in the system a handler begins exactly for a sent message of a run that is not stopped and that passes every check |
| Deliveries.MovesExactly | src/maof/workers/pool.py:110-120 | what a move of the agent leaves: an answer, the recorded one for a repeated side effect, or no delivery any more |
| Deliveries.RepliesExactly | src/maof/workers/pool.py:118-147 | the answer of a delivery is published exactly when it conforms and there is somewhere to reply to, once |
| Workers.WorkerPool.Commit | examples/po_demo/agents.py:75-106 | the ledger gets a record only for a key not recorded before; the answer is the recorded one |
| Workers.QueueDispatcher.Dispatch | src/maof/orchestrator/coordinator.py:96-154 | the publish goes through the guard, so a replay leaves the broker as it is; the trace gets a record each time |
| Keys.MaterialInjective | src/maof/runs/idempotency.py:27-33 | for NUL-free run, step and task type the hashed text determines all of its parts, although the inner step id joins with ":" |
| Keys.InnerStepIdIsAmbiguous | src/maof/orchestrator/coordinator.py:104-104 | the inner step id alone does not |
| Keys.SlotsNeverCollide | src/maof/orchestrator/messages.py:93-96 | the names under which the guard records publishes, results and side effects never collide |
| Guard.GuardIsExclusive | src/maof/runs/idempotency.py:49-56 | under every interleaving: never two executions for one key in flight, at most one success more than records lost, all who return get the same result |
| Guard.AtMostOneSuccess | src/maof/runs/idempotency.py:72-87 | without a lost record a key is executed successfully at most once, and has been when somebody returned |
| Guard.LostRecordRunsTwice | src/maof/runs/idempotency.py:72-87 | with a lost record a second execution is possible |
| Guard.StepRefinesCall | src/maof/runs/idempotency.py:72-87 | each step of the interleaved guard leaves a key alone or is one whole call for it: one that executes and records, or one that executes and loses its record |
| Guard.LoneCall | src/maof/runs/idempotency.py:72-87 | a call nobody disturbs: a recorded key returns what is recorded and executes nothing, otherwise the value of the function is recorded and returned, or it raises and nothing is; the lock is free again |
| Broker.DrainTrails | src/maof/transport/fake.py:60-98 | every queued message lives one trail: delivered, and redelivered with the next attempt after each failure while retries are left |
| Broker.TrailShape | src/maof/transport/retry.py:41-47 | from attempt 1 the attempts are 1, 2, ... without a gap, at most one more than there are retry steps; the message never changes; the last delivery was handled or exhausted the schedule |
| Broker.TrailDelays | src/maof/transport/retry.py:41-47 | before each redelivery a trail waits for the delay the schedule has for the attempt that failed |
| Broker.DrainIsFifo | src/maof/transport/fake.py:60-83 | the queued messages are delivered in their order and as they were before anything is delivered again, and every delivery ends as its handler says |
| Broker.DeadLettersAre | src/maof/transport/fake.py:85-98 | the dead letters are exactly the messages of the failed deliveries the schedule has no delay for, as they were delivered, in order |
| Broker.DrainConserves | src/maof/transport/fake.py:60-98 | the messages that end handled or given up are exactly the messages queued |
| Broker.InMemoryBroker.Consume | src/maof/transport/fake.py:60-83 | the drain ends; the deliveries are those of the trails, the queue is empty, the dead-letter queue has gained the dead letters in order, no other queue changed |
| Broker.InMemoryBroker.OnFailure | src/maof/transport/fake.py:85-98 | retry with the next attempt while the schedule has a delay, else dead-letter, else drop |
| Broker.InMemoryBroker.EnsureTopology | src/maof/transport/fake.py:39-46 | declaring queues never drops a message; every queue ends with the retry steps and the dead-letter queue of the last spec that gives it some, or with those it had |
| Broker.SelfDeadLetteringNeverEnds | src/maof/transport/fake.py:85-98 | the failure step of the broker never makes a queue shorter that is its own dead-letter queue |
| Policy.EvaluationLaw | src/maof/policy/engine.py:155-225 | the plan that comes back lacks exactly the task types stripped by matched rules, the toolset likewise; denied, or held for approval, exactly when a matched rule says so |
| PolicyLaws.TraceExactly | src/maof/policy/engine.py:155-198 | the trace is exactly the rules whose condition holds of the work they find, where a rule that does not match leaves the work as it is; there is no result if and only if a rule that is reached raises, by its condition or by an action |
| PolicyLaws.DeniedByConditions | src/maof/policy/engine.py:155-198 | the plan is denied, or held for approval, if and only if a rule that says so matches what it finds |
| PolicyLaws.EvaluationTold | src/maof/policy/actions.py:36-78 | reasons, roles and parties are those of the last action that gives any; each nudge once, in the order of first mention; a flag is what the last action to write it made of the flags it found, or as it was |
| PolicyLaws.RaisesExactly | src/maof/policy/actions.py:61-78 | an action raises exactly when it is unknown, or clamps no flag or one that is no number |
| PolicyLaws.OrderLaw | src/maof/policy/engine.py:174-191 | the rules of an evaluation are the enabled rules of the stage and then the callables of the stage, each group stably sorted by priority |
| Policy.ClampHoldsToTheEnd | src/maof/policy/actions.py:61-76 | a flag clamped with a maximum and no minimum stays at or below it through everything later that neither sets it nor clamps it with a minimum |
| Policy.MinimumBeatsMaximum | src/maof/policy/actions.py:72-75 | for all bounds: the result is never below the minimum, and it keeps the maximum if and only if the minimum is not above it |
| Policy.ByPriorityIsStableSort | src/maof/policy/engine.py:174-191 | rules are ordered by priority, in given order at the same priority |
| Policy.NativePolicyEngine.Evaluate | src/maof/policy/engine.py:155-225 | the loop over the rules equals the fold; the plan of the caller is left as it was; when a rule raises nothing was written |
| Budget.BudgetIsKeptExactly | src/maof/context/budget.py:72-83 | with the default counter the result fits if and only if the notes are next to nothing or goal, last dialogue line and notes fit together anyway |
| Budget.NoNotesAlwaysFits | src/maof/context/budget.py:72-83 | without notes the result always fits |
| Budget.MemoriesAreLongestFittingPrefix | src/maof/context/budget.py:73-74 | with any counter the kept memories are the longest prefix that fits, or none |
| Budget.DialogueIsLongestFittingSuffix | src/maof/context/budget.py:75-76 | with any counter the kept dialogue is the longest suffix that fits, or the last line |
| Budget.FittedKeeps | src/maof/context/budget.py:72-83 | with any counter: an envelope that fits is left alone; otherwise memories go from the end, then dialogue from the beginning but for its last line, and only then goal and last line are cut at their ends to four characters a token; notes stay |
| Budget.EverythingCounts | src/maof/context/budget.py:52-59 | what is counted are goal, dialogue, memories and notes, one to a line |
| Budget.ContextEnvelope.FitEnvelope | src/maof/context/budget.py:72-83 | the loops in place compute that envelope |
| Approval.RoleBoundApproval | src/maof/approval/service.py:116-165 | over every sequence of calls: resolutions come from different principals each holding a required role, exactly those with a qualified approving call; the gate is decided and granted as the last deciding call says; a grant rests on at least the required number of parties |
| Approval.LastCallDecides | src/maof/approval/service.py:166-171 | without required roles anybody decides, and the last call does |
| Approval.ReasonIsLastDenial | src/maof/approval/service.py:135-138 | the reason of a role-bound approval is that of its last qualified denial |
| Approval.DenialIsNotAbsorbing | src/maof/approval/service.py:132-150 | an approval after a denial can still grant |
| Approval.ApprovalGate.Resolve | src/maof/approval/service.py:116-174 | an unqualified call raises and changes nothing; any other does what the sequence law is about |
| Approval.ApprovalGate.Request | src/maof/approval/service.py:58-78 | every request gets an id of its own |

## Left out

- A resume that raises, or a poller that dies, after a wake was claimed: the wake is then lost (`lifecycle.py` claims first), so the state machine lets every claimed wake be resumed.
- A manual resume of a waiting run without a claimed wake: it would pass the gate the run is parked on.
- Interleavings of other actors with the inside of a drive segment: the park sequence schedules the wake before it sets WAITING, so they could see the run still RUNNING for a moment. The deaths inside a segment are modelled.
- Resending.OneKeyExactly: steps that name a subagent which a gate before the step does not come before have no exact condition here, since the checkpoint at such a gate may keep the reply; nor do steps whose templates name an in-process step that is not a dependency or a queue step that is not before them. For those `EachStepOnce` gives the sufficient condition and `ReplayTellsApart` when it fails from a given checkpoint.
- Deaths.GatesPassOnTimeExactly: workflows with a gate whose input binds to no event, time or delay are left to one half, as they are for `OneWakeExactly`, `ParksBoundedExactly`, `AlwaysOpensClosedExactly` and, with a gate before the step, `OneKeyExactly`.
- Gaps.AlwaysOpensClosedExactly: workflows with a gate whose input binds to no event, time or delay are left to one half, since the run dies at such a gate or waits for ever.
- Steps with an empty id: their results are filed under a hash of the objective, so a run that waits for one never wakes; the state machine takes plans without empty ids.
- A gate whose `delay_s` is a text or a truth value: `float` accepts `"12"` or `True` there, while the model lets the segment raise at the gate.
- The `cancel` of the operations API over the database (`src/maof/runs/ops.py:112-121`), which also finalizes a WAITING run and cancels its wake entries: the model sets the flag only, as the in-memory store does, and the run ends at its next segment.
- A gate whose `at` is not a readable time: the model never fires it; in the program every later timer poll raises.
- Coordination modes other than `queue` and `in_process`, and a coordinator without the dispatcher a mode needs: both raise at dispatch.
- Registry routing (agent choice, version pins, canary cohorts, queue names), signatures, tenancy and scopes: routing can only fail before the publish, which is one of the faults of a segment.
- Reconstruction of the worker context field by field, and message text: a task message is its key and the fields the worker checks.
- The text scanner that finds templates inside strings: a template is a tree of literals and paths.
- The condition language of policy rules: a condition is any function of the evaluation context, and may raise.
- Policy.NativePolicyEngine.Evaluate: numbers are exact, without the formatting and rounding of floats, and nan or infinite flags are not modelled.
- Budget.ContextEnvelope.FitEnvelope: budgets below zero, for which Python slices count from the end, are not modelled.
- Broker.InMemoryBroker.Consume: the handler does not publish into the queue being drained, and a queue that is its own dead-letter queue is excluded; attempt headers are integers.
- Approval.ApprovalGate.Resolve: the persisted approval rows and the waiting for a decision with its timeout are not part of this model.
- Guard.StepRefinesCall: retention, which forgets keys after a time, is not modelled; at most once holds within it.
- Runtime.WorkflowDriver.Drive: the pipeline is the workflow stage alone; pipelines of several stages are modelled by the module Driver.
- Duration texts, audit events, tracing, cost accounting, the orchestration loop, compaction by a language model, and all adapters to databases, brokers, models and web services.
