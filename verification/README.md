# Durable workflows, verified

A Dafny model of the parts of the Dapr Java SDK that have to be right on every run, with
proofs.

**The durable-workflow replay engine.** An orchestrator is a deterministic program that
makes calls and blocks on tasks. Each turn reruns it from the beginning over the recorded
history and then over the new events, and emits the actions that are still pending.
`WorkflowTypes` has events, actions and one-shot cells (the futures); `IdTable` the two
id-keyed maps with their renumbering; `ReplayContext` what every call and every history
event does to the state; `Machine` the program and the turn as a step relation.
`ContextImpl` is the same context in its own form: an object whose methods update fields in
place, each proved to do what the functions of `ReplayContext` say. On this rest
`CallActions`, `TaskOutcomes`, `Acknowledgements`, `WaitTimeouts`, `Completions` and
`Replies` (what each call, event and question comes to), `ContextInvariant` (what everything
keeps), `ReplayTurns`, `ExactlyOnce`, `SuspendedTurns`
and `SecondTurns` (executions over many turns), `LegacyReplay`, `LegacyHistories` and
`UpgradedTurns` (histories from before synthetic timers), `EventWaits` and `EventPairing`,
`SuspendResume`, `CarryOver` and `ContinuedTurns`, `TimerChains`, `TimerRuns` and
`LongTimers`.

**Retries.** `RetryPolicies` (the policy object), `Backoff` (the delay, in 64-bit
milliseconds from a floating-point power) and `Retries` (the retriable task).

**The history cache.** `HistoryCache` (the object) and `CacheRuns` (whole runs).

**Subscription routes.** `Subscriptions`.

Orchestrators are arbitrary functions from the replies so far to the next operation, so
every theorem about a `Program` covers all deterministic orchestrators that are made of the
modelled calls (not of compound or retriable tasks, see below). A future is a cell;
the queue object that a wait was put in is an index, because a timeout callback keeps hold
of an old one. Instants and durations are integers in nanoseconds. `hide` statements in
proofs only narrow what the verifier unfolds.

## What the proofs brought to light

- What a turn has emitted is emitted again by the next one exactly if no acknowledgement is
  understood for it, as for a sent event, or if the turn ended suspended and the next one
  does not resume, or does not resume often enough to get past the errors that are held in
  front of its acknowledgement, or if the orchestrator had returned and such an error fails
  the execution first (`EmittedAgainExactly`, `NothingIsEmittedAgainExactlyWhen`;
  instances `SentEventIsSentAgain`, `ActivityIsScheduledAgain`, `OneResumeIsNotEnough`).
- An old history in which two indefinite waits directly follow each other is reported as
  non-deterministic (`AcceptedExactlyWhenAdjacent`, `TwoWaitsInARowAreRejected`).
- The await of a timer longer than the maximum interval returns after the first interval
  (`AwaitReturnsEarlyExactlyWhen`, `LongTimerIsAwaitedTooShort`).
- An error in a handler while held events are replayed leaves the rest held
  (`StretchIsTransparentExactlyWhen`, `ErrorStrandsHeldEvents`), and continue-as-new then
  loses them (`CarryoverExactlyWhen`, `StrandedEventIsNotCarriedOver`).
- Continue-as-new uses an index into the past events on the new ones if it comes during
  replay (`CarryoverDuringReplay`). In executions over their own history it never does
  (`NeverContinuesWhileReplaying`); an orchestrator whose code was changed can get there,
  and an event is lost (`ForeignHistoryLosesAnEvent`).
- A buffered event is matched ignoring case, a live one is not (`OrderDecidesExactlyWhen`,
  `CaseDecidesByOrder`).
- A null maximum retry interval, documented as "no maximum", breaks the first retry
  (`NullCapNeverRetries`); a cap below one millisecond is ignored (`CapHoldsExactlyWhen`);
  the first delay is already scaled by the coefficient
  (`FirstDelayIsFirstIntervalExactlyWhen`); NaN is accepted as a coefficient
  (`NotANumberMeansNoDelay`).
- Awaiting a retriable task again uses up its attempts, and one that fails before its first
  await is never retried (`FirstFailureIsRetriedExactlyWhen`); awaited often enough, its
  attempt number wraps around and it gets one child too many (`BoundHoldsExactlyWhen`).
- A retry delay longer than the maximum timer interval is waited for only that long
  (`DelayIsKeptExactlyWhen`).
- Dropping the dispatch marker of an ended instance lets a superseded runner write
  (`ForgettingOpensTheFence`).
- With a null default route among others for a topic, the order of registration matters
  (`EveryOrderIsAcceptedExactlyWhen`, `NullRouteFirstIsAccepted`).

## Model

| member | source | states |
|---|---|---|
| ReplayTurns.ReplayRebuilds | durabletask-client/src/main/java/io/dapr/durabletask/TaskOrchestrationExecutor.java:142-189 | For every deterministic orchestrator that does not ask whether it is replaying, and every number of turns: replaying the recorded history (earlier events, recorded patches, one acknowledgement per emitted action) ends in the very state in which the turn before ended, same replies, tasks and waits, with every emitted action acknowledged and none refused |
| ExactlyOnce.ReplayIsExactlyOnce | durabletask-client/src/main/java/io/dapr/durabletask/TaskOrchestrationExecutor.java:1422-1440 | The turns of an execution, each replaying everything from the start, together emit exactly the actions of one run that is never interrupted, once each and in the same order; the orchestrator sees the same replies, and the final states agree in everything but those actions and the recorded patches |
| ExactlyOnce.EmittedIdsAscend | durabletask-client/src/main/java/io/dapr/durabletask/TaskOrchestrationExecutor.java:142-189 | The ids emitted over all turns strictly ascend, so no action is emitted by two turns and new ids exceed all earlier ones |
| ExactlyOnce.AcksClearExactlyWhen | durabletask-client/src/main/java/io/dapr/durabletask/TaskOrchestrationExecutor.java:726-753 | Processing the acknowledgements of what is pending clears it if and only if nothing is pending, or the context is not suspended and no pending action is a sent event or a completion |
| SuspendedTurns.EmittedAgainExactly | durabletask-client/src/main/java/io/dapr/durabletask/TaskOrchestrationExecutor.java:839-854 | Of the actions that a turn emitted, the next turn, however it goes on and ends and wherever it resumes, emits again exactly these, in their order: those that no acknowledgement is understood for, and those whose acknowledgement it does not get to. It gets to all of them if the turn ended unsuspended (up to the first the engine has no case for, if the orchestrator had returned), otherwise as far as its resumes pass, each ending with the first held event the engine has no case for. Everything else it emits has an id that is new |
| SuspendedTurns.NothingIsEmittedAgainExactlyWhen | durabletask-client/src/main/java/io/dapr/durabletask/TaskOrchestrationExecutor.java:849-854 | So nothing is emitted again if and only if nothing was pending, or everything pending has an acknowledgement that is understood and, if the turn ended suspended, the next one takes more resumes than there are events held at that end that the engine has no case for |
| SecondTurns.SentEventIsSentAgain | durabletask-client/src/main/java/io/dapr/durabletask/TaskOrchestrationExecutor.java:533-558 | Concrete execution: an event sent in the first turn is sent again by the second, the activity called after it is not |
| SecondTurns.ActivityIsScheduledAgain | durabletask-client/src/main/java/io/dapr/durabletask/TaskOrchestrationExecutor.java:839-843 | Concrete execution: an activity scheduled in the turn that suspends is scheduled again, under the same id, by the next turn, which does not resume |
| SecondTurns.OneResumeIsNotEnough | durabletask-client/src/main/java/io/dapr/durabletask/TaskOrchestrationExecutor.java:849-854 | Concrete execution: with a sent event in front, the activity is scheduled again although the next turn resumes; if that resumes twice, it is not |
| Replies.PatchAppliesExactlyWhen | durabletask-client/src/main/java/io/dapr/durabletask/TaskOrchestrationExecutor.java:476-501 | At any point of a turn without suspensions, the first question for a patch is answered with yes exactly if the start of a turn seen so far carries the patch, or the replay is over; it is then recorded as met, and no other is |
| ReplayTurns.PatchAnswerIsConstant | durabletask-client/src/main/java/io/dapr/durabletask/TaskOrchestrationExecutor.java:476-501 | Once a patch was asked for, every later question in the same execution has the same answer, whatever happens in between and although replaying flips; that later replays repeat it is part of ReplayRebuilds, whose replies include the answers |
| Replies.ToldExactly | durabletask-client/src/main/java/io/dapr/durabletask/TaskOrchestrationExecutor.java:293-320 | At any point of a turn without suspensions, an orchestrator is told as the current instant the timestamp of the latest start of a turn it has seen, that it is replaying exactly until the first new event is taken, and that a task is done exactly if it has an outcome |
| Acknowledgements.ScheduledExactlyWhen | durabletask-client/src/main/java/io/dapr/durabletask/TaskOrchestrationExecutor.java:726-753 | In any state that is not suspended, a recorded activity is accepted if and only if an activity is pending under its id, or behind a synthetic timer under its id; else it is reported as non-deterministic. Exactly that action leaves (and the timer, all larger ids moving down by one); a refusal without such a timer changes nothing |
| Acknowledgements.ChildExactlyWhen | durabletask-client/src/main/java/io/dapr/durabletask/TaskOrchestrationExecutor.java:1058-1081 | The same for a recorded child workflow and pending children |
| Acknowledgements.TimerExactlyWhen | durabletask-client/src/main/java/io/dapr/durabletask/TaskOrchestrationExecutor.java:1002-1036 | The same for a recorded timer and pending timers, except that a synthetic timer is dropped only for a recorded timer that is not one itself, and that what is pending under the id leaves even on a refusal |
| Acknowledgements.InfrastructureTimerIsIgnored | durabletask-client/src/main/java/io/dapr/durabletask/TaskOrchestrationExecutor.java:1002-1008 | A recorded timer of the dispatcher's own changes nothing |
| CallActions.ActivityIsScheduled | durabletask-client/src/main/java/io/dapr/durabletask/TaskOrchestrationExecutor.java:405-470 | Calling an activity emits one action with its name and input under the next id, opens a new unfinished task under that id and hands just that task out; nothing else changes |
| CallActions.ChildIsCreated | durabletask-client/src/main/java/io/dapr/durabletask/TaskOrchestrationExecutor.java:566-632 | The same for a child workflow with its name, instance and input |
| CallActions.TimerIsCreated | durabletask-client/src/main/java/io/dapr/durabletask/TaskOrchestrationExecutor.java:1461-1499 | A timer emits its first sub-timer, due at the final instant or one maximum interval from now, whichever is earlier |
| CallActions.EventIsSent | durabletask-client/src/main/java/io/dapr/durabletask/TaskOrchestrationExecutor.java:534-556 | A sent event is emitted with its target, name and data; nothing is opened for it |
| CallActions.ConclusionIsEmitted | durabletask-client/src/main/java/io/dapr/durabletask/TaskOrchestrationExecutor.java:1146-1153 | Completing emits one action with status COMPLETED and the output, and marks the workflow complete; nothing else changes |
| CallActions.CallsAreRefusedOnceComplete | durabletask-client/src/main/java/io/dapr/durabletask/Helpers.java:40-44 | A completed orchestrator is refused every call, without effect |
| CallActions.WaitTakesBuffered | durabletask-client/src/main/java/io/dapr/durabletask/TaskOrchestrationExecutor.java:670-680 | A wait takes the first buffered event whose name is its own, case aside, whatever its timeout: that event leaves the buffer and is the task's outcome |
| CallActions.WaitWithoutTimeIsCancelled | durabletask-client/src/main/java/io/dapr/durabletask/TaskOrchestrationExecutor.java:684-688 | With no such event and a timeout of zero, the task is cancelled at once and nothing is parked |
| CallActions.WaitWithTimeoutParks | durabletask-client/src/main/java/io/dapr/durabletask/TaskOrchestrationExecutor.java:690-720 | Else the wait is the last in the queue of its name, under an id of its own, and a timer of its name and origin, due after the timeout, is emitted under the next id to guard it |
| CallActions.IndefiniteWaitParks | durabletask-client/src/main/java/io/dapr/durabletask/TaskOrchestrationExecutor.java:709-713 | The same without a timeout (none, a negative one, or the longest duration): the guard is the synthetic timer at 9999-12-31T23:59:59.999999999Z |
| TaskOutcomes.AnswerEndsItsTask | durabletask-client/src/main/java/io/dapr/durabletask/TaskOrchestrationExecutor.java:756-809 | A completion of an activity or child under an open id ends that id's task with the result, a failure ends it with the failure: that task, no other, and the id is no longer open; nothing else changes |
| TaskOutcomes.DuplicateIsIgnored | durabletask-client/src/main/java/io/dapr/durabletask/TaskOrchestrationExecutor.java:756-763 | A completion or failure for an id that is not open changes nothing |
| TaskOutcomes.AwaitLearns | durabletask-client/src/main/java/io/dapr/durabletask/TaskOrchestrationExecutor.java:1791-1815 | An orchestrator blocked on that task goes on with exactly that outcome |
| TaskOutcomes.UnfinishedIffOpen | durabletask-client/src/main/java/io/dapr/durabletask/TaskOrchestrationExecutor.java:756-763 | In every reachable state an activity or child is unfinished if and only if an id is open for it, and then one only; what its await sees is its outcome; and an action pending under an open id is the one its record was made with |
| TaskOutcomes.OutcomesAreSaid | durabletask-client/src/main/java/io/dapr/durabletask/TaskOrchestrationExecutor.java:756-809 | In every run a task that has ended has an outcome that some event of the history carries: no result without a completion, no failure without a failure event |
| Completions.CompletesAsItsCause | durabletask-client/src/main/java/io/dapr/durabletask/TaskOrchestrationExecutor.java:1139-1209 | In every run a completion that is pending is the one that its cause says: COMPLETED with the output concluded with, FAILED with what was thrown, TERMINATED with the given output, CONTINUED_AS_NEW with the next input and the carry-over; before that there is none |
| Completions.ClosingIsEmitted | durabletask-client/src/main/java/io/dapr/durabletask/TaskOrchestrationExecutor.java:1166-1209 | Failing, terminating and continuing as new emit one action with status, output and carry-over; on a completed workflow they change nothing |
| Completions.TerminationCompletes | durabletask-client/src/main/java/io/dapr/durabletask/TaskOrchestrationExecutor.java:1139-1144 | A termination completes the workflow even during a suspension, and throws if it is complete |
| Completions.EndsTurnExactlyWhen | durabletask-client/src/main/java/io/dapr/durabletask/TaskOrchestrationExecutor.java:153-176 | A step ends the turn at once exactly for an exception of the orchestrator, a continue-as-new of a workflow that is not complete, or a handler that throws outside any await; this completes the workflow, and crashes exactly if it was complete before; only a return leaves the orchestrator done, and only an await leaves it waiting for a task |
| Completions.EndsByItselfExactlyWhen | durabletask-client/src/main/java/io/dapr/durabletask/TaskOrchestrationExecutor.java:177-184 | A turn whose orchestrator did not yield completes the workflow, with status COMPLETED and no output, if and only if that is still open, no event wait is unfinished and nothing is pending but timers of event waits |
| LegacyReplay.LegacyReplay | durabletask-client/src/main/java/io/dapr/durabletask/TaskOrchestrationExecutor.java:957-1081 | If a run of a machine that never allocates synthetic timers meets the conditions (no wait while a parked indefinite wait is the last thing that took an id, acknowledgements oldest first, completions for acknowledged ids), the engine runs over the same history in lockstep with it: same replies, tasks, waits and mode, no acknowledgement refused, and the same actions once the pending synthetic timers are dropped |
| LegacyHistories.RecordedHistoryReplays | durabletask-client/src/main/java/io/dapr/durabletask/TaskOrchestrationExecutor.java:957-1081 | The engine of before has executed any number of turns, meeting the conditions in each turn's new events; then the engine of today replays the history recorded by it and gets to its first new events in the state the engine of before would be in, with everything emitted acknowledged, none refused, and nothing pending but the synthetic timer of a wait parked last |
| UpgradedTurns.UpgradeIsExactlyOnce | durabletask-client/src/main/java/io/dapr/durabletask/TaskOrchestrationExecutor.java:957-1081 | The first turns ran on the engine of before, meeting the conditions, and the later ones run on the engine of today, each replaying everything: together the later ones emit exactly the actions of one uninterrupted run of today's engine that starts where the old turns left off, with the same replies, and the ids over all turns, old and new, strictly ascend |
| LegacyHistories.TurnsMeetConditions | durabletask-client/src/main/java/io/dapr/durabletask/TaskOrchestrationExecutor.java:961-1000 | The conditions, asked for in the new events of each old turn only, hold throughout every replay of the recorded history |
| LegacyHistories.LegacyExecutionExists | durabletask-client/src/main/java/io/dapr/durabletask/TaskOrchestrationExecutor.java:661-724 | Concrete execution of two old turns that meets the conditions: an indefinite wait that was awaited and got its event, and then an activity, recorded under the id after the wait's |
| LegacyReplay.AcceptedExactlyWhenAdjacent | durabletask-client/src/main/java/io/dapr/durabletask/TaskOrchestrationExecutor.java:736-741 | With the oldest real action, an activity or a child, behind k synthetic timers, its old acknowledgement is accepted if and only if k is zero, or k is one and the timer's id directly precedes the action's |
| LegacyReplay.TimerAcceptedExactlyWhen | durabletask-client/src/main/java/io/dapr/durabletask/TaskOrchestrationExecutor.java:1010-1035 | The same for a timer, which is also accepted if two synthetic timers have adjacent ids at the acknowledged one; without those the condition is that for activities |
| LegacyReplay.TwoWaitsInARowAreRejected | durabletask-client/src/main/java/io/dapr/durabletask/TaskOrchestrationExecutor.java:961-965 | Concrete input: two indefinite waits in a row and an activity; the old history's acknowledgement is reported as non-determinism, where the machine without the timers accepts it |
| LegacyReplay.AcknowledgeRelates | durabletask-client/src/main/java/io/dapr/durabletask/TaskOrchestrationExecutor.java:1002-1036 | Acknowledging the oldest legacy action has the same effect on the renumbering engine, with its extra timers, as on the machine without them, for activities, children and timers |
| LegacyReplay.EndTaskRelates | durabletask-client/src/main/java/io/dapr/durabletask/TaskOrchestrationExecutor.java:756-809 | A completion reaches the same logical task, with the same consequences, in both |
| IdTable.DropRenumbers | durabletask-client/src/main/java/io/dapr/durabletask/TaskOrchestrationExecutor.java:961-1000 | Dropping the timer at an id removes exactly that action and record; every other id keeps its own action and its own record, both under the same new id; the new numbering is an order-preserving bijection without collisions, and the actions keep their order |
| ContextInvariant.InvAlways | durabletask-client/src/main/java/io/dapr/durabletask/TaskOrchestrationExecutor.java:191-220 | Every sequence of calls and events keeps: pending ids ascend in insertion order, each is its action's own id, all pending and open ids are below the next one, at most one complete-workflow action and only on a completed context; and the event-wait and timer-chain invariants below |
| EventWaits.UnfinishedIffParked | durabletask-client/src/main/java/io/dapr/durabletask/TaskOrchestrationExecutor.java:690-707 | In every reachable state a wait is unfinished if and only if it sits in the queue object its name is mapped to at that time |
| EventWaits.NoWaiterBesideItsEvent | durabletask-client/src/main/java/io/dapr/durabletask/TaskOrchestrationExecutor.java:811-825 | In every reachable state no mapped queue is empty and no name has both a waiter and an exactly matching buffered event |
| EventWaits.StaleCallbackIsHarmless | durabletask-client/src/main/java/io/dapr/durabletask/TaskOrchestrationExecutor.java:696-707 | A timeout callback, which holds an old queue object, unmaps a name only if that name still maps to its own queue and its wait is the last one there, touches no other queue, and acts if and only if its wait is unfinished |
| EventWaits.OutcomeIsFinal | durabletask-client/src/main/java/io/dapr/durabletask/TaskOrchestrationExecutor.java:1867-1896 | Over every run a task ends once: an outcome never changes, so a wait ends by an event or by cancellation and never by both |
| WaitTimeouts.TimeoutCancels | durabletask-client/src/main/java/io/dapr/durabletask/TaskOrchestrationExecutor.java:696-720 | When the sub-timer that guards an unfinished wait fires in the timer's final second or later, the wait is cancelled and leaves its queue, the others staying in order; its name stays mapped exactly if others wait there; the timer is done; nothing else changes |
| WaitTimeouts.SyntheticTimerCancels | durabletask-client/src/main/java/io/dapr/durabletask/TaskOrchestrationExecutor.java:696-713 | The same if a synthetic timer should fire |
| WaitTimeouts.WaitEndsWithItsTimer | durabletask-client/src/main/java/io/dapr/durabletask/TaskOrchestrationExecutor.java:696-720 | Over any calls and events after a wait was parked with a timeout: it is not cancelled before its timer is done; once that is done it has ended, cancelled if and only if no event was delivered to it; only events of its name are |
| EventPairing.PairingIgnoresInterleaving | durabletask-client/src/main/java/io/dapr/durabletask/TaskOrchestrationExecutor.java:661-693 | For one name with indefinite waits, the i-th wait receives the i-th raised event, or is unfinished if there is none yet or it is still held from a suspension, however waits, raises, suspensions, resumes, completions and terminations are interleaved and whatever happens under other names |
| EventPairing.OrderDecidesExactlyWhen | durabletask-client/src/main/java/io/dapr/durabletask/TaskOrchestrationExecutor.java:670-680 | For any two names: raising an event and then waiting, and waiting and then raising it, give the wait the same outcome if and only if the names are equal or differ by more than case |
| EventPairing.NamesMeetExactlyWhen | durabletask-client/src/main/java/io/dapr/durabletask/TaskOrchestrationExecutor.java:670-680 | A wait's name matches the name of a buffered event exactly if they have the same length and differ, position by position, at most in the case of a letter of the alphabet |
| EventPairing.CaseDecidesByOrder | durabletask-client/src/main/java/io/dapr/durabletask/TaskOrchestrationExecutor.java:670-680 | Concrete input: a wait for "A" takes an "a" raised before it but is not woken by an "a" raised after it |
| SuspendResume.SuspensionIsTransparent | durabletask-client/src/main/java/io/dapr/durabletask/TaskOrchestrationExecutor.java:839-854 | Processing any event list that ends unsuspended gives the state of processing it with all suspend and resume events erased, provided no termination comes during a suspension and, of the events held in one, none but the last makes its handler throw |
| SuspendResume.AtEveryPoint | durabletask-client/src/main/java/io/dapr/durabletask/TaskOrchestrationExecutor.java:1253-1260 | After every list of events, whether or not it ends suspended, the state is that of the events handled so far, with the rest held and the suspension flag as the list leaves it |
| SuspendResume.HandledThenHeld | durabletask-client/src/main/java/io/dapr/durabletask/TaskOrchestrationExecutor.java:839-854 | What was handled and what is held are together, in order, the events so far without the suspensions; nothing is held at the end of a list that ends unsuspended |
| SuspendResume.StretchIsTransparentExactlyWhen | durabletask-client/src/main/java/io/dapr/durabletask/TaskOrchestrationExecutor.java:849-854 | A suspension around any events is invisible, and leaves nothing held, if and only if none of them but the last makes its handler throw; otherwise exactly what follows the first error stays held |
| SuspendResume.ErrorStrandsHeldEvents | durabletask-client/src/main/java/io/dapr/durabletask/TaskOrchestrationExecutor.java:849-854 | Concrete events: an error while held events are replayed leaves the rest of them held although the execution is not suspended any more |
| CarryOver.NothingIsLost | durabletask-client/src/main/java/io/dapr/durabletask/TaskOrchestrationExecutor.java:811-820 | As multisets, each call and each event changes what is buffered, held or received by some wait by exactly the raised event it brings, if it brings one |
| CarryOver.RunBooks | durabletask-client/src/main/java/io/dapr/durabletask/TaskOrchestrationExecutor.java:1422-1440 | So at every point of a run the raised events taken from the history are those buffered, those held and those received: none is lost or doubled |
| CarryOver.CarryoverExactlyWhen | durabletask-client/src/main/java/io/dapr/durabletask/TaskOrchestrationExecutor.java:1211-1229 | Continue-as-new with preservation, after a new event was taken and events distinct: the carried-over set holds only raised events no wait received, and is all of them if and only if no raised event is still held |
| CarryOver.CarryoverDuringReplay | durabletask-client/src/main/java/io/dapr/durabletask/TaskOrchestrationExecutor.java:1211-1229 | During replay the same computation uses an index into the past events on the new ones; it is then right if and only if no raised event is held, none is left in the past and none is among the new events the index skips |
| ContinuedTurns.NeverContinuesWhileReplaying | durabletask-client/src/main/java/io/dapr/durabletask/TaskOrchestrationExecutor.java:504-518 | Turn by turn over its own history, an orchestrator that does not ask whether it is replaying continues as new only in the new events of a turn |
| ContinuedTurns.ExecutionCarriesOverExactlyWhen | durabletask-client/src/main/java/io/dapr/durabletask/TaskOrchestrationExecutor.java:1185-1187 | So what an execution carries over, events distinct, holds only raised events no wait received, and is all of them if and only if no raised event is still held |
| ContinuedTurns.StrandedEventIsNotCarriedOver | durabletask-client/src/main/java/io/dapr/durabletask/TaskOrchestrationExecutor.java:1211-1229 | Concrete execution of two turns: an error in front of a raised event leaves it held when the execution resumes, and continue-as-new with preservation does not carry it over |
| ContinuedTurns.SuspendedTurnGoesOn | durabletask-client/src/main/java/io/dapr/durabletask/TaskOrchestrationExecutor.java:839-843 | Concrete execution whose second turn ends suspended with nothing pending and goes on |
| ContinuedTurns.ForeignHistoryLosesAnEvent | durabletask-client/src/main/java/io/dapr/durabletask/TaskOrchestrationExecutor.java:1211-1229 | Concrete program and history, recorded by other code: continue-as-new comes during replay and a raised event that no wait received is not carried over |
| TimerChains.SubTimerEndsOrContinues | durabletask-client/src/main/java/io/dapr/durabletask/TaskOrchestrationExecutor.java:1476-1507 | A sub-timer that fires does exactly one of two things: completes its timer with nothing outstanding, when the clock has reached the final second, or leaves it open with exactly one next sub-timer outstanding and its action pending |
| TimerChains.FailureEndsNoTimer | durabletask-client/src/main/java/io/dapr/durabletask/TaskOrchestrationExecutor.java:787-809 | A failure reported for a timer's id ends that sub-timer only: the timer is not done, the wait it guards goes on, and an await of the timer learns of it if that was the first sub-timer |
| TimerChains.SecondHasBegunExactlyWhen | durabletask-client/src/main/java/io/dapr/durabletask/TaskOrchestrationExecutor.java:1476-1482 | The comparison of instants cut to whole seconds: the final second has begun if and only if the clock is at or after its first nanosecond |
| TimerChains.TimerNeverFiresEarly | durabletask-client/src/main/java/io/dapr/durabletask/TaskOrchestrationExecutor.java:1500-1507 | Whatever calls and events come, a timer's own future is not done, and a wait with a timeout is not cancelled, as long as no turn has started in the final second or later |
| TimerRuns.ChainIsBounded | durabletask-client/src/main/java/io/dapr/durabletask/TaskOrchestrationExecutor.java:1476-1498 | Over any calls and events after a timer was started or a wait with a timeout parked, if no sub-timer of it fires before the instant it was created for: the timer takes, the outstanding one included, at most one sub-timer, or at most its length over the maximum interval, rounded up |
| TimerChains.AwaitReturnsEarlyExactlyWhen | durabletask-client/src/main/java/io/dapr/durabletask/TaskOrchestrationExecutor.java:1462-1465 | The await of a timer watches the end of the first sub-timer; if after any calls and events since the timer's start that is still outstanding and now fires on time, the timer's own future is then still open if and only if the timer is longer than the maximum interval and ends in a later second than the first interval |
| LongTimers.LongTimerIsAwaitedTooShort | durabletask-client/src/main/java/io/dapr/durabletask/TaskOrchestrationExecutor.java:1462-1465 | Concrete execution of two turns: the orchestrator awaits a timer of three maximum intervals, the await returns after the first, and the timer is then not done |
| ContextImpl.ContextImplTask.constructor | durabletask-client/src/main/java/io/dapr/durabletask/TaskOrchestrationExecutor.java:228-233 | A fresh context is the initial state, before the past events |
| ContextImpl.ContextImplTask.WaitForExternalEvent | durabletask-client/src/main/java/io/dapr/durabletask/TaskOrchestrationExecutor.java:661-724 | The wait call: spends an id, scans the buffer for the first match ignoring case, else cancels at once for a zero timeout, else joins the queue of its name and creates a guarding timer chain or the synthetic timer; refused, unchanged, on a completed context |
| ContextImpl.ContextImplTask.FindEvent | durabletask-client/src/main/java/io/dapr/durabletask/TaskOrchestrationExecutor.java:670-680 | The scan finds the first buffered event that matches ignoring case |
| ContextImpl.ContextImplTask.DropOptionalExternalEventTimerAt | durabletask-client/src/main/java/io/dapr/durabletask/TaskOrchestrationExecutor.java:961-1000 | The in-place rebuild of both maps is the renumbering of DropRenumbers if a synthetic timer is pending at the id, and changes nothing otherwise |
| ContextImpl.ContextImplTask.ShiftActions | durabletask-client/src/main/java/io/dapr/durabletask/TaskOrchestrationExecutor.java:973-987 | Rebuilding the action map entry by entry renumbers each entry in place and loses none |
| ContextImpl.ContextImplTask.ShiftRecords | durabletask-client/src/main/java/io/dapr/durabletask/TaskOrchestrationExecutor.java:989-997 | Moving the open records down in ascending id order overwrites none and is the renumbering |
| ContextImpl.ContextImplTask.HandleTaskScheduled | durabletask-client/src/main/java/io/dapr/durabletask/TaskOrchestrationExecutor.java:726-753 | Accepts or refuses the acknowledgement, and leaves the same table, as the specification does, the renumbering on refusal included |
| ContextImpl.ContextImplTask.HandleChildCreated | durabletask-client/src/main/java/io/dapr/durabletask/TaskOrchestrationExecutor.java:1058-1081 | The same for child workflows |
| ContextImpl.ContextImplTask.HandleTimerCreated | durabletask-client/src/main/java/io/dapr/durabletask/TaskOrchestrationExecutor.java:1002-1036 | The same for timers: ignores the infrastructure timer, removes what sits at the id even when it then refuses |
| ContextImpl.ContextImplTask.HandleEnding | durabletask-client/src/main/java/io/dapr/durabletask/TaskOrchestrationExecutor.java:756-809 | Completions, failures and firings: ignored if not open, otherwise the record leaves and task, chain or guarded wait is ended |
| ContextImpl.ContextImplTask.EndSubTimerOf | durabletask-client/src/main/java/io/dapr/durabletask/TaskOrchestrationExecutor.java:1476-1507 | The end of a sub-timer: callbacks in the order in which the future runs them |
| ContextImpl.ContextImplTask.OnTimerFired | durabletask-client/src/main/java/io/dapr/durabletask/TaskOrchestrationExecutor.java:696-707 | The timeout callback on the queue object it holds |
| ContextImpl.ContextImplTask.HandleEventRaised | durabletask-client/src/main/java/io/dapr/durabletask/TaskOrchestrationExecutor.java:811-837 | Delivers to the first waiter of exactly that name or buffers; never fails in a reachable state |
| ContextImpl.ContextImplTask.ProcessHistoryEvent | durabletask-client/src/main/java/io/dapr/durabletask/TaskOrchestrationExecutor.java:1253-1364 | One event: held while suspended unless it resumes or terminates, otherwise dispatched; the invariant is kept. The start of the execution is only noted: what the orchestrator then does is the machine's |
| ContextImpl.ContextImplTask.HandleExecutionResumed | durabletask-client/src/main/java/io/dapr/durabletask/TaskOrchestrationExecutor.java:849-854 | The loop over the held events through the ordinary entry point equals draining them in order, an exception leaving the rest held |
| ContextImpl.ContextImplTask.MoveNext | durabletask-client/src/main/java/io/dapr/durabletask/TaskOrchestrationExecutor.java:1422-1440 | The history iterator: switches to the new events, ends replaying, and processes one event |
| ContextImpl.ContextImplTask.AwaitTask | durabletask-client/src/main/java/io/dapr/durabletask/TaskOrchestrationExecutor.java:1791-1832 | The await loop is a run of the machine: it returns the outcome as soon as the task is done, and yields only when no event is left |
| ContextImpl.ContextImplTask.CompleteInternal | durabletask-client/src/main/java/io/dapr/durabletask/TaskOrchestrationExecutor.java:1166-1209 | Completing adds one complete-workflow action, or is refused on a completed context |
| ContextImpl.ContextImplTask.DoComplete | durabletask-client/src/main/java/io/dapr/durabletask/TaskOrchestrationExecutor.java:1146-1153 | The orchestrator's completion, with status COMPLETED, or its refusal |
| ContextImpl.ContextImplTask.DoFail | durabletask-client/src/main/java/io/dapr/durabletask/TaskOrchestrationExecutor.java:1155-1159 | Its failure, with status FAILED, or its refusal |
| ContextImpl.ContextImplTask.CarryoverEvents | durabletask-client/src/main/java/io/dapr/durabletask/TaskOrchestrationExecutor.java:1211-1229 | The loop over the new events computes the carry-over set |
| ContextImpl.ContextImplTask.ContinueAsNewWith | durabletask-client/src/main/java/io/dapr/durabletask/TaskOrchestrationExecutor.java:504-518 | Continue-as-new as one step: complete with the carry-over, or be refused |
| ContextImpl.ContextImplTask.IsPatched | durabletask-client/src/main/java/io/dapr/durabletask/TaskOrchestrationExecutor.java:476-501 | Patch answers: memoised, else from history, else by whether the replay has ended |
| ContextImpl.ContextImplTask.PendingActionsOnlyObsoleteEventTimers | durabletask-client/src/main/java/io/dapr/durabletask/TaskOrchestrationExecutor.java:1240-1247 | True if and only if every pending action is a timer that guards an event wait |
| ContextImpl.ContextImplTask.FinishTurn | durabletask-client/src/main/java/io/dapr/durabletask/TaskOrchestrationExecutor.java:177-189 | Implicit completion at the end of a turn |
| ContextImpl.ContextImplTask.ExecuteRest | durabletask-client/src/main/java/io/dapr/durabletask/TaskOrchestrationExecutor.java:152-189 | The loop over the remaining events once the orchestrator has returned is a run of the machine to its end, failure on an exception and implicit completion included |
| Backoff.DelayIsExact | durabletask-client/src/main/java/io/dapr/durabletask/TaskOrchestrationExecutor.java:1714-1744 | With a cap, the delay is the first interval times the truncated power if that product, in unbounded arithmetic, is within the cap, and the cap otherwise: never a wrapped value and never a failure; without a cap it is the product, failing exactly when that does not fit in 64 bits |
| Backoff.DelayGrows | durabletask-client/src/main/java/io/dapr/durabletask/TaskOrchestrationExecutor.java:1714-1744 | Later attempts never wait less, and a delay that can be computed for one attempt can be for every earlier one |
| Backoff.CapHoldsExactlyWhen | durabletask-client/src/main/java/io/dapr/durabletask/TaskOrchestrationExecutor.java:1735-1740 | A delay is within a cap that is set if and only if the cap is at least one millisecond or the product is zero |
| Backoff.DelayFailsExactlyWhen | durabletask-client/src/main/java/io/dapr/durabletask/TaskOrchestrationExecutor.java:1724-1733 | Computing a delay fails if and only if the cap is null, or too long to count in milliseconds, or no cap is in force and the product overflows |
| Backoff.ProductIsExact | durabletask-client/src/main/java/io/dapr/durabletask/Helpers.java:50-68 | The checked double power, the saturating cast and the checked multiplication together give the unbounded product or an overflow, nothing else |
| Backoff.FirstDelayIsFirstIntervalExactlyWhen | durabletask-client/src/main/java/io/dapr/durabletask/RetryPolicy.java:62-68 | Without a cap the first delay is the first interval, as documented, if and only if that is in whole milliseconds and the first power of the coefficient (the coefficient itself, where that is its first power) is below two; the code scales it already after the first attempt |
| Backoff.NotANumberMeansNoDelay | durabletask-client/src/main/java/io/dapr/durabletask/TaskOrchestrationExecutor.java:1724-1739 | If the power of a NaN coefficient is NaN, as it is for every exponent but zero, the delay is zero; that the setter accepts NaN is in SetBackoffCoefficient |
| Retries.ChildrenAreBounded | durabletask-client/src/main/java/io/dapr/durabletask/TaskOrchestrationExecutor.java:1688-1712 | In every sequence of awaits, child outcomes and delays, a task with a policy creates at most the policy's number of children, as long as its awaits and that number together do not wrap the attempt number around |
| Retries.BoundHoldsExactlyWhen | durabletask-client/src/main/java/io/dapr/durabletask/TaskOrchestrationExecutor.java:1598-1601 | With no retry timeout and delays that can be computed, that bound holds for all sequences of up to n awaits if and only if n plus the number of attempts is at most 2 to the 31st |
| Retries.RetryComesAfterTheDelay | durabletask-client/src/main/java/io/dapr/durabletask/TaskOrchestrationExecutor.java:1603-1628 | After a failure that is retried with a delay, whatever comes before the delay is over (or one maximum timer interval, if that is shorter) creates no child and changes nothing; then the next child is there, the attempt is counted, and the total retry time runs from the first await |
| Retries.RetryComesAtOnce | durabletask-client/src/main/java/io/dapr/durabletask/TaskOrchestrationExecutor.java:1616-1628 | Without a delay the next child is there at once |
| Retries.DelayIsKeptExactlyWhen | durabletask-client/src/main/java/io/dapr/durabletask/TaskOrchestrationExecutor.java:1616-1622 | No child is created before the computed delay is over, whatever comes, if and only if the delay is at most the maximum timer interval |
| Retries.EndsWithItsChild | durabletask-client/src/main/java/io/dapr/durabletask/TaskOrchestrationExecutor.java:1590-1614 | The task succeeds with its child, and fails with it exactly if the failure is non-retriable, the handler declines, the attempts are used up, or the retry timeout has passed |
| Retries.EndIsFinal | durabletask-client/src/main/java/io/dapr/durabletask/TaskOrchestrationExecutor.java:1590-1614 | Once succeeded or failed it stays so and creates no more children |
| Retries.NoRetryAfterTimeout | durabletask-client/src/main/java/io/dapr/durabletask/TaskOrchestrationExecutor.java:1700-1708 | From first attempt plus a positive retry timeout on, no further retry is decided; only one already decided, and in its delay, still creates its child |
| Retries.FirstFailureIsRetriedExactlyWhen | durabletask-client/src/main/java/io/dapr/durabletask/TaskOrchestrationExecutor.java:1598-1628 | The attempt number counts awaits: after n awaits the first failure leads to a second child if and only if n is at least one, the failure is retriable, the handler agrees if there is one, and, under a policy, n is below the number of attempts, the retry timeout has not passed and the delay can be computed |
| Retries.NullCapNeverRetries | durabletask-client/src/main/java/io/dapr/durabletask/RetryPolicy.java:108-115 | A null maximum interval, documented as removing the maximum, makes every retry fail: the task never has a second child |
| Retries.RetriableTask.HandleChildException | durabletask-client/src/main/java/io/dapr/durabletask/TaskOrchestrationExecutor.java:1603-1628 | The failure handler: retry decision with policy, timeout and handler, the delay, the next child |
| Retries.RetriableTask.InitAttempt | durabletask-client/src/main/java/io/dapr/durabletask/TaskOrchestrationExecutor.java:1598-1601 | An await sets the start time once and counts the attempt, wrapping as a 32-bit integer does |
| RetryPolicies.RetryPolicy.Create | durabletask-client/src/main/java/io/dapr/durabletask/RetryPolicy.java:38-41 | Construction fails if and only if the attempts are not positive or the first interval is null or not positive; the new policy is valid |
| RetryPolicies.RetryPolicy.SetMaxRetryInterval | durabletask-client/src/main/java/io/dapr/durabletask/RetryPolicy.java:108-115 | Accepts null or anything not below the first interval; a refused value changes nothing |
| RetryPolicies.RetryPolicy.SetBackoffCoefficient | durabletask-client/src/main/java/io/dapr/durabletask/RetryPolicy.java:90-96 | Accepts exactly numbers from one on, infinity and NaN |
| RetryPolicies.RetryPolicy.SetRetryTimeout | durabletask-client/src/main/java/io/dapr/durabletask/RetryPolicy.java:123-130 | Accepts exactly what is not null and not below the first interval |
| CacheRuns.CachedAreTheMostRecent | durabletask-client/src/main/java/io/dapr/durabletask/WorkflowHistoryCache.java:112-154 | With a strictly increasing clock, no byte budget and only gets and puts, an instance is cached if and only if it was touched (put, or hit by a get) and fewer distinct instances than the cap were touched since |
| CacheRuns.HitIsLastPut | durabletask-client/src/main/java/io/dapr/durabletask/WorkflowHistoryCache.java:112-121 | In every run, whatever the cache holds for an instance is the last history put for it, with no removal, reset or end since, at its measured size |
| CacheRuns.AlwaysBounded | durabletask-client/src/main/java/io/dapr/durabletask/WorkflowHistoryCache.java:252-265 | In every reachable state the count cap holds, and the byte budget holds unless a single entry exceeds it |
| CacheRuns.BudgetHolds | durabletask-client/src/main/java/io/dapr/durabletask/WorkflowHistoryCache.java:252-265 | In every reachable state the count cap holds, and with a byte budget the serialized sizes of all cached histories together are within it unless there is only one |
| CacheRuns.EvictsOnlyIfItMust | durabletask-client/src/main/java/io/dapr/durabletask/WorkflowHistoryCache.java:252-265 | A put evicts something only if, with the most recent of it, the count cap or the byte budget would be exceeded |
| CacheRuns.SweepRemovesTheIdle | durabletask-client/src/main/java/io/dapr/durabletask/WorkflowHistoryCache.java:213-226 | In every run a sweep removes exactly the instances whose last hit or put is longer ago than the time-to-live |
| CacheRuns.OthersStayCached | durabletask-client/src/main/java/io/dapr/durabletask/WorkflowHistoryCache.java:130-226 | Nothing else removes an instance but its own removal or end, a reset, and the eviction that a history for another one causes |
| CacheRuns.SizesAdd | durabletask-client/src/main/java/io/dapr/durabletask/WorkflowHistoryCache.java:133-139 | The size of a history is that of its events together |
| CacheRuns.DefaultsAre | durabletask-client/src/main/java/io/dapr/durabletask/WorkflowHistoryCache.java:94-100 | Without limits of its own the cache keeps 100000 instances for an hour, with no byte budget |
| CacheRuns.PutKeepsBounds | durabletask-client/src/main/java/io/dapr/durabletask/WorkflowHistoryCache.java:130-154 | After a put the new history is there, and the bounds hold unless it is alone |
| CacheRuns.LandsExactlyWhen | durabletask-client/src/main/java/io/dapr/durabletask/WorkflowHistoryCache.java:173-198 | In any run a gated commit lands if and only if its token is that of the newest dispatch noted since the instance was last forgotten, or there is none |
| CacheRuns.LandsExactlyWhenNewest | durabletask-client/src/main/java/io/dapr/durabletask/WorkflowHistoryCache.java:59-70 | Over every run with distinct tokens and any resets, as long as the instance was not forgotten, a gated commit lands if and only if no newer dispatch of the instance was noted before it |
| CacheRuns.LandedInDispatchOrder | durabletask-client/src/main/java/io/dapr/durabletask/WorkflowHistoryCache.java:173-210 | Commits of an instance that land do so in the order of their dispatches |
| CacheRuns.ForgettingOpensTheFence | durabletask-client/src/main/java/io/dapr/durabletask/WorkflowHistoryCache.java:196-198 | Concrete run: once the newest dispatch ended the instance and its marker was dropped, a superseded runner's write lands |
| CacheRuns.TokenIsNewest | durabletask-client/src/main/java/io/dapr/durabletask/WorkflowHistoryCache.java:173-189 | The recorded token is always that of the newest dispatch since the instance was last forgotten, and absent if there is none |
| HistoryCache.WorkflowHistoryCache.PutHistory | durabletask-client/src/main/java/io/dapr/durabletask/WorkflowHistoryCache.java:130-154 | A put, and the eviction it causes: the byte total stays the sum over the entries, what is evicted is no more recent than what stays (the new entry aside), and eviction stops as soon as both bounds hold |
| HistoryCache.WorkflowHistoryCache.GetHistory | durabletask-client/src/main/java/io/dapr/durabletask/WorkflowHistoryCache.java:112-121 | A hit returns the cached history and refreshes its access time; a miss changes nothing |
| HistoryCache.WorkflowHistoryCache.EvictToFit | durabletask-client/src/main/java/io/dapr/durabletask/WorkflowHistoryCache.java:252-265 | The eviction loop |
| HistoryCache.WorkflowHistoryCache.LeastRecentlyUsedExcept | durabletask-client/src/main/java/io/dapr/durabletask/WorkflowHistoryCache.java:267-280 | The scan finds an entry with the least access time among all but the kept one, if there is any |
| HistoryCache.WorkflowHistoryCache.SweepExpired | durabletask-client/src/main/java/io/dapr/durabletask/WorkflowHistoryCache.java:213-226 | Removes exactly the entries idle for longer than the time-to-live |
| HistoryCache.WorkflowHistoryCache.Clear | durabletask-client/src/main/java/io/dapr/durabletask/WorkflowHistoryCache.java:205-210 | A reset empties the histories and keeps the tokens |
| HistoryCache.WorkflowHistoryCache.UpdateHistory | durabletask-client/src/main/java/io/dapr/durabletask/runner/OrchestratorRunner.java:191-208 | The runner's gated write: nothing if superseded, removal and forgetting if the instance ended, a put otherwise |
| HistoryCache.TotalSplits | durabletask-client/src/main/java/io/dapr/durabletask/WorkflowHistoryCache.java:140-153 | The byte total does not depend on the order of summation, so replacing or removing an entry adjusts it by that entry's size |
| Subscriptions.AcceptedExactlyWhen | sdk-springboot/src/main/java/io/dapr/springboot/DaprRuntime.java:135-168 | A sequence of registrations is accepted if and only if none clashes with an earlier one (same priority, another default route, another dead-letter topic for the topic); each builder then holds exactly what was registered for its topic |
| Subscriptions.OrderDoesNotShow | sdk-springboot/src/main/java/io/dapr/springboot/DaprRuntime.java:170-174 | Two accepted orders of the same registrations list the same subscriptions: the same rules in the same order, default route and dead-letter topic for every topic |
| Subscriptions.EveryOrderIsAcceptedExactlyWhen | sdk-springboot/src/main/java/io/dapr/springboot/DaprSubscriptionBuilder.java:55-66 | Given that one order is accepted, every permutation is accepted if and only if no topic has both a null and a real default route |
| Subscriptions.NullRouteFirstIsAccepted | sdk-springboot/src/main/java/io/dapr/springboot/DaprSubscriptionBuilder.java:55-66 | Concrete registrations for any topic: a null default route and then a real one is accepted, the other order is refused |
| Subscriptions.ListingShows | sdk-springboot/src/main/java/io/dapr/springboot/DaprSubscriptionBuilder.java:133-149 | Accepted registrations are listed topic by topic: one rule for each registered rule, by ascending priority, with its match and path, and the default route beside them, or alone if there are no rules; and the dead-letter topic registered, if any |
| Subscriptions.BuildAgain | sdk-springboot/src/main/java/io/dapr/springboot/DaprSubscriptionBuilder.java:133-149 | Building again changes neither the result nor the builder |
| Subscriptions.SortedSorts | sdk-springboot/src/main/java/io/dapr/springboot/DaprSubscriptionBuilder.java:138-138 | Sorting a builder's rules gives strictly ascending priorities and the same rules |
| Subscriptions.DaprSubscriptionBuilder.AddRule | sdk-springboot/src/main/java/io/dapr/springboot/DaprSubscriptionBuilder.java:95-104 | Refuses a priority in use, otherwise appends the rule |
| Subscriptions.DaprSubscriptionBuilder.SetDefaultPath | sdk-springboot/src/main/java/io/dapr/springboot/DaprSubscriptionBuilder.java:55-66 | Refuses another value once one is set |
| Subscriptions.DaprSubscriptionBuilder.SetDeadLetterTopic | sdk-springboot/src/main/java/io/dapr/springboot/DaprSubscriptionBuilder.java:74-85 | Refuses another value once one is set |
| Subscriptions.DaprSubscriptionBuilder.BuildSubscription | sdk-springboot/src/main/java/io/dapr/springboot/DaprSubscriptionBuilder.java:133-149 | Sorts the rules in place and routes to them, or to the default route if there are none |
| Subscriptions.DaprRuntime.AddSubscribedTopic | sdk-springboot/src/main/java/io/dapr/springboot/DaprRuntime.java:135-168 | One registration on the map of builders, other topics untouched; a refused one leaves behind what it had done |
| Subscriptions.DaprRuntime.ListSubscribedTopics | sdk-springboot/src/main/java/io/dapr/springboot/DaprRuntime.java:170-174 | Lists exactly one subscription per topic, as built |

## Left out

- Compound tasks (`anyOf`, `allOf`) and `thenApply`: the machine's programs block on one task at a time and may ask whether a task is done.
- Retriable tasks inside the machine: a retry runs nested in the handler of a child's failure; it is modelled on its own, with the instants of its turn and the outcomes of its children as inputs, and with a policy that is not changed while in use.
- The exceptions of a retry handler, and what else it does: its answer is an input.
- Retries.RetryComesAfterTheDelay: assumes that the delay's sub-timer does not fire before the instant it was created for.
- Replies.ToldExactly: is about turns without suspensions, as is Replies.PatchAppliesExactlyWhen; while an execution is suspended the starts of turns are held like other events.
- Acknowledgements.ScheduledExactlyWhen: is about states that are not suspended, like the lemmas beside it; during a suspension the acknowledgement is held.
- Acknowledgements of sent events: the engine has no case for them, so the exactly-once theorems are about turns that go on with no sent event pending.
- A second ExecutionStarted event, and one that is held during suspension: the orchestrator runs once, from the start of the execution.
- ContextImpl.ContextImplTask.ProcessHistoryEvent: does not run the orchestrator inside the switch, because the program is the machine's; the event sets a flag that the machine starts it on.
- An orchestrator that catches the continue-as-new interruption and goes on.
- Versions that are not registered (the stalled completion), custom status, UUIDs and task execution ids, app-id routing, history propagation: field copying beside the state that is modelled.
- JSON and protobuf conversion: a payload is its raw string, and converting it cannot fail.
- Case folding beyond ASCII letters.
- Bounds on instants: adding a duration to an instant does not overflow. Sums of byte sizes and of the sequence number do not wrap around; the attempt number does.
- Rounding of floating-point powers: a power is any nondecreasing function that is at least one, or infinite.
- Non-termination of an orchestrator: runs are finite prefixes, so an orchestrator that never blocks has runs but no end of turn.
- ReplayTurns.ReplayRebuilds: covers a turn that ends suspended only if nothing is pending, because otherwise actions are emitted again (SuspendedTurns.EmittedAgainExactly says which), and only if the turn that starts suspended then has applied no patch by its end, because the event its patches are recorded with is held back; so do the theorems about executions that rest on it.
- EventPairing.PairingIgnoresInterleaving: assumes that no name differs from the one considered only by case (see EventPairing.OrderDecidesExactlyWhen), that nobody completes a synthetic timer, and that no held event but the last of a resume makes its handler throw (see SuspendResume.StretchIsTransparentExactlyWhen).
- SuspendResume.SuspensionIsTransparent: is about events handled one after another, without steps of the orchestrator in between.
- UpgradedTurns.UpgradeIsExactlyOnce: compares the turns after the upgrade with today's engine; before the upgrade ExactlyOnce.ReplayIsExactlyOnce does it for the engine of before.
- LegacyReplay.LegacyReplay: assumes acknowledgements in ascending order of ids, completions only of what an earlier turn emitted, and no real timer that fires at the reserved instant with the origin of an event wait; LegacyHistories.TurnsMeetConditions asks for that in the new events of a turn only.
- CacheRuns.LandsExactlyWhenNewest: takes the runner's check and write as one atomic step; in the runner another dispatch can be noted between the two.
- Locks and thread pools of the cache and the runtime: their methods are atomic here. Which of several entries with the same access time is evicted is left open.
- Reconstructing a history from a cached prefix and a delta, and the fetch on a miss.
- Subscription metadata and bulk settings: the last write wins, so they do depend on the order. The match expression of a registration is not null.
- gRPC clients and workers, the reconnect loop, Spring wiring, tracing and logging.
