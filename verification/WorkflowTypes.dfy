/** The vocabulary of the durable-workflow engine: history events, the actions an
    orchestrator emits, and the one-shot cells its tasks are made of. Instants and
    durations are whole nanoseconds; a payload is the raw string that the data
    converter would deserialize. */
module WorkflowTypes {

  datatype Option<+T> = None | Some(value: T)

  const NANOS_PER_SECOND: int := 1_000_000_000

  /** 9999-12-31T23:59:59.999999999Z: the fire-at instant reserved for the synthetic
      timer that guards an indefinite wait. */
  const SENTINEL_FIRE_AT: int := 253402300799 * NANOS_PER_SECOND + 999_999_999

  /** The longest java.time.Duration; as a timeout it means "no timeout". */
  const MAX_DURATION: int := 0x7FFF_FFFF_FFFF_FFFF * NANOS_PER_SECOND + 999_999_999

  /** The id the dispatcher gives to timers of its own. */
  const INFRASTRUCTURE_TIMER_ID: int := -100

  datatype TimerOrigin =
    | UserTimer
    | ExternalEvent(event: string)
    | ActivityRetry(taskExecutionId: string)
    | ChildWorkflowRetry(childInstanceId: string)

  datatype Status = COMPLETED | FAILED | TERMINATED | CONTINUED_AS_NEW | STALLED

  datatype Event =
    | WorkflowStarted(timestamp: int, patches: set<string>)
    | ExecutionStarted(workflow: string, rawInput: string)
    | TaskScheduled(eventId: int)
    | TaskCompleted(taskScheduledId: int, result: string)
    | TaskFailed(taskScheduledId: int, details: string)
    | TimerCreated(eventId: int, fireAt: int, origin: TimerOrigin)
    | TimerFired(timerId: int)
    | ChildCreated(eventId: int)
    | ChildCompleted(taskScheduledId: int, result: string)
    | ChildFailed(taskScheduledId: int, details: string)
    | EventRaised(stamp: int, name: string, payload: string)
    | ExecutionSuspended
    | ExecutionResumed
    | ExecutionTerminated(output: string)
    | Noted       // workflow completed, execution completed, execution stalled: only logged
    | Unsupported // any history type the engine has no case for, an EventSent among them

  /** The events that acknowledge an emitted action. */
  predicate IsAcknowledgement(e: Event) {
    e.TaskScheduled? || e.TimerCreated? || e.ChildCreated?
  }

  datatype ActionBody =
    | ScheduleTask(activity: string, taskInput: string)
    | CreateChild(workflow: string, childInstance: string, childInput: string)
    | CreateTimer(timerName: string, fireAt: int, origin: TimerOrigin)
    | SendEvent(target: string, sentName: string, data: string)
    | CompleteWorkflow(status: Status, output: string, carryover: set<Event>)

  datatype Action = Action(id: int, body: ActionBody)

  /** True exactly for the synthetic timer of an indefinite wait: a timer, of
      external-event origin, firing at the reserved instant. */
  predicate IsOptionalTimer(b: ActionBody) {
    b.CreateTimer? && b.origin.ExternalEvent? && b.fireAt == SENTINEL_FIRE_AT
  }

  /** The same test on the history side. */
  predicate IsOptionalTimerEvent(e: Event)
    requires e.TimerCreated?
  {
    e.origin.ExternalEvent? && e.fireAt == SENTINEL_FIRE_AT
  }

  /** What a CompletableFuture holds: nothing yet, or its one final outcome. */
  datatype Outcome =
    | Pending
    | Value(v: string)
    | Received(event: Event)
    | Failure(reason: string)
    | Cancelled

  /** Which queue object an event wait was put in, if it was parked at all. */
  datatype CellKind =
    | TaskCell
    | TimerCell
    | EventCell(event: string, queue: Option<nat>)

  /** A task handed to the orchestrator. `future` is the task's own future and
      `visible` the one its await watches; they differ only for a timer, whose await
      watches the end of the first sub-timer. */
  datatype Cell = Cell(kind: CellKind, future: Outcome, visible: Outcome)

  /** Completing a future that is already done has no effect. */
  function Settle(cells: seq<Cell>, i: nat, o: Outcome): (r: seq<Cell>)
    ensures |r| == |cells|
  {
    if i < |cells| && cells[i].future.Pending? then
      cells[i := cells[i].(future := o, visible := o)]
    else cells
  }

  /** The callback of a wait's guarding timer: it holds on to the queue object that
      the wait was put in, not to whatever queue has the name later. */
  datatype Guard = Guard(name: string, wait: nat, queue: nat)

  /** A TimerTask: one or more sub-timers that lead up to `finalFireAt`. */
  datatype Chain = Chain(cell: nat, name: string, finalFireAt: int, origin: TimerOrigin, guard: Option<Guard>)

  /** What the engine keeps for an id that still awaits its completion. */
  datatype Record =
    | TaskRecord(cell: nat)
    | SubTimer(chain: Chain, first: bool)
    | OptionalTimer(guard: Guard)

  /** Whole seconds of an instant, rounded towards the past. */
  function Seconds(instant: int): int { instant / NANOS_PER_SECOND }

  function IsInfiniteTimeout(timeout: Option<int>): bool {
    timeout.None? || timeout.value < 0 || timeout.value == MAX_DURATION
  }

  function Lesser(a: nat, b: nat): nat { if a <= b then a else b }

  function Earlier(a: int, b: int): int { if a <= b then a else b }

  lemma SomeMember(ids: set<int>)
    ensures ids == {} || exists id :: id in ids
  {
    if forall id :: id !in ids {
      assert ids == {};
    }
  }
}
