/** The state of one orchestrator execution and what each call from the orchestrator
    and each history event does to it. */
module ReplayContext {
  import opened WorkflowTypes
  import opened IdTable

  /** Parked event waits by name, the queue objects they sit in (a queue object is an
      index into `queues` and outlives its place in `names`), and the events that
      found no waiter. */
  datatype Waits = Waits(names: map<string, nat>, queues: seq<seq<nat>>, unprocessed: seq<Event>)

  /** The tasks and the event waits. */
  datatype Board = Board(cells: seq<Cell>, waits: Waits)

  /** The clock of the turn and the settings. `synthetic` is false only for the engine
      as it was before indefinite waits got a guarding timer. */
  datatype Env = Env(now: int, maxInterval: int, synthetic: bool)

  datatype Patches = Patches(applied: map<string, bool>, history: set<string>, encountered: seq<string>)

  /** `held` is the buffer of events that arrived during suspension. */
  datatype Ctx = Ctx(
    env: Env,
    ids: Table,
    board: Board,
    started: bool,
    suspended: bool,
    held: seq<Event>,
    isComplete: bool,
    patches: Patches)

  function Initial(synthetic: bool, maxInterval: int): Ctx {
    Ctx(Env(0, maxInterval, synthetic), Table([], map[], 0), Board([], Waits(map[], [], [])), false, false, [], false,
        Patches(map[], {}, []))
  }

  /** The engine as it is, or as it was before synthetic timers, with its settings. */
  datatype Engine = Engine(synthetic: bool, maxInterval: int)

  function Fresh(engine: Engine): Ctx {
    Initial(engine.synthetic, engine.maxInterval)
  }

  /** A new board, and what to do on the id table. */
  datatype Effect = Effect(board: Board, spends: bool, issued: Option<Issuance>)

  // ----- timers -----

  function SubTimerFireAt(now: int, finalFireAt: int, maxInterval: int): int {
    if finalFireAt - now > maxInterval then now + maxInterval else finalFireAt
  }

  function SubTimerIssue(env: Env, chain: Chain, name: string, first: bool): Issuance {
    Opened(CreateTimer(name, SubTimerFireAt(env.now, chain.finalFireAt, env.maxInterval), chain.origin),
           SubTimer(chain, first))
  }

  function NewTimer(env: Env, b: Board, name: string, finalFireAt: int, origin: TimerOrigin, guard: Option<Guard>): Effect {
    var chain := Chain(|b.cells|, name, finalFireAt, origin, guard);
    Effect(b.(cells := b.cells + [Cell(TimerCell, Pending, Pending)]), false, Some(SubTimerIssue(env, chain, name, true)))
  }

  predicate ChainIsOver(now: int, chain: Chain) {
    Seconds(now) >= Seconds(chain.finalFireAt)
  }

  function SetVisible(cells: seq<Cell>, i: nat, o: Outcome): (r: seq<Cell>)
    ensures |r| == |cells|
  {
    if i < |cells| && cells[i].visible.Pending? then cells[i := cells[i].(visible := o)] else cells
  }

  function SetFuture(cells: seq<Cell>, i: nat, o: Outcome): (r: seq<Cell>)
    ensures |r| == |cells|
  {
    if i < |cells| && cells[i].future.Pending? then cells[i := cells[i].(future := o)] else cells
  }

  // ----- event waits -----

  function QueueAt(w: Waits, q: nat): seq<nat> {
    if q < |w.queues| then w.queues[q] else []
  }

  function SetQueue(w: Waits, q: nat, content: seq<nat>): Waits {
    if q < |w.queues| then w.(queues := w.queues[q := content]) else w
  }

  function Without(q: seq<nat>, wait: nat): (r: seq<nat>)
    ensures wait !in r
    ensures forall x :: x in r <==> x in q && x != wait
  {
    if q == [] then []
    else if q[0] == wait then Without(q[1..], wait)
    else [q[0]] + Without(q[1..], wait)
  }

  function Lower(ch: char): char {
    if 'A' <= ch <= 'Z' then ch + ('a' - 'A') else ch
  }

  predicate SameIgnoringCase(a: string, b: string) {
    |a| == |b| && forall i :: 0 <= i < |a| ==> Lower(a[i]) == Lower(b[i])
  }

  predicate IsRaised(e: Event, name: string) {
    e.EventRaised? && e.name == name
  }

  /** The first buffered event that a new wait takes: its name may differ in case. */
  function FindBuffered(events: seq<Event>, name: string): (r: nat)
    ensures r <= |events|
    ensures r < |events| ==> events[r].EventRaised? && SameIgnoringCase(name, events[r].name)
    ensures forall j :: 0 <= j < r ==> !(events[j].EventRaised? && SameIgnoringCase(name, events[j].name))
  {
    if events == [] || (events[0].EventRaised? && SameIgnoringCase(name, events[0].name)) then 0
    else 1 + FindBuffered(events[1..], name)
  }

  /** The queue that a new wait joins: the one mapped under the name, or a new object. */
  function Park(w: Waits, name: string, wait: nat): Waits {
    if name in w.names then SetQueue(w, w.names[name], QueueAt(w, w.names[name]) + [wait])
    else w.(names := w.names[name := |w.queues|], queues := w.queues + [[wait]])
  }

  function AddEventCell(b: Board, name: string, queue: Option<nat>, o: Outcome): Board {
    b.(cells := b.cells + [Cell(EventCell(name, queue), o, o)])
  }

  function TakeBuffered(b: Board, name: string, i: nat): Board
    requires i < |b.waits.unprocessed|
  {
    AddEventCell(b, name, None, Received(b.waits.unprocessed[i]))
    .(waits := b.waits.(unprocessed := b.waits.unprocessed[..i] + b.waits.unprocessed[i + 1..]))
  }

  function NewGuard(b: Board, name: string): Guard {
    Guard(name, |b.cells|, if name in b.waits.names then b.waits.names[name] else |b.waits.queues|)
  }

  function ParkWait(b: Board, name: string): Board {
    AddEventCell(b, name, Some(NewGuard(b, name).queue), Pending).(waits := Park(b.waits, name, |b.cells|))
  }

  /** The timer that guards a parked wait. */
  function AddGuard(env: Env, b: Board, g: Guard, timeout: Option<int>): Effect {
    if !IsInfiniteTimeout(timeout) then
      NewTimer(env, b, g.name, env.now + timeout.value, ExternalEvent(g.name), Some(g))
    else if env.synthetic then
      Effect(b, false, Some(Opened(CreateTimer(g.name, SENTINEL_FIRE_AT, ExternalEvent(g.name)), OptionalTimer(g))))
    else Effect(b, false, None)
  }

  /** Every wait spends an id of its own, even one that is over at once. */
  function Wait(env: Env, b: Board, name: string, timeout: Option<int>): Effect {
    var i := FindBuffered(b.waits.unprocessed, name);
    if i < |b.waits.unprocessed| then Effect(TakeBuffered(b, name, i), true, None)
    else if !IsInfiniteTimeout(timeout) && timeout.value == 0 then
      Effect(AddEventCell(b, name, None, Cancelled), true, None)
    else
      AddGuard(env, ParkWait(b, name), NewGuard(b, name), timeout).(spends := true)
  }

  /** A queue object is left with `rest`; once that is empty the name is unmapped,
      whatever it is mapped to by then. */
  function Leave(w: Waits, name: string, q: nat, rest: seq<nat>): Waits {
    var v := SetQueue(w, q, rest);
    if rest == [] then v.(names := v.names - {name}) else v
  }

  /** The callback of a guarding timer. It works on the queue object it holds. */
  function ExpireWait(b: Board, g: Guard): Board {
    if g.wait < |b.cells| && b.cells[g.wait].future.Pending? then
      var rest := Without(QueueAt(b.waits, g.queue), g.wait);
      Board(Settle(b.cells, g.wait, Cancelled), Leave(b.waits, g.name, g.queue, rest))
    else b
  }

  /** A raised event goes to the first waiter of its name, or to the buffer. Nothing
      here can fail as long as no mapped queue is empty. */
  function RaiseEvent(b: Board, e: Event): Option<Board>
    requires e.EventRaised?
  {
    if e.name !in b.waits.names then
      Some(b.(waits := b.waits.(unprocessed := b.waits.unprocessed + [e])))
    else
      var q := b.waits.names[e.name];
      var queue := QueueAt(b.waits, q);
      if queue == [] then None
      else Some(Board(Settle(b.cells, queue[0], Received(e)), Leave(b.waits, e.name, q, queue[1..])))
  }

  // ----- completions -----

  /** A sub-timer has ended. The chain's own callback runs first and may issue the next
      sub-timer; then the chain is completed if its time has come. */
  function EndSubTimer(env: Env, b: Board, chain: Chain, first: bool, o: Outcome): Effect {
    if o.Failure? then
      Effect(if first then b.(cells := SetVisible(b.cells, chain.cell, o)) else b, false, None)
    else
      var seen := if first then b.(cells := SetVisible(b.cells, chain.cell, Value(""))) else b;
      if !ChainIsOver(env.now, chain) then
        Effect(seen, false, Some(SubTimerIssue(env, chain, chain.name + "-next", false)))
      else
        var done := seen.(cells := SetFuture(seen.cells, chain.cell, Value("")));
        Effect(if chain.guard.Some? then ExpireWait(done, chain.guard.value) else done, false, None)
  }

  function EndRecord(env: Env, b: Board, rec: Record, o: Outcome): Effect {
    match rec
    case TaskRecord(cell) => Effect(b.(cells := Settle(b.cells, cell, o)), false, None)
    case SubTimer(chain, first) => EndSubTimer(env, b, chain, first, o)
    case OptionalTimer(guard) => Effect(if o.Failure? then b else ExpireWait(b, guard), false, None)
  }

  function WithEffect(c: Ctx, e: Effect): Ctx {
    c.(board := e.board, ids := Allot(c.ids, e.spends, e.issued))
  }

  /** A completion for an id that is not open is a duplicate and is ignored. */
  function EndTask(c: Ctx, id: int, o: Outcome): Ctx {
    if id in c.ids.open then
      WithEffect(c.(ids := Forget(c.ids, id)), EndRecord(c.env, c.board, c.ids.open[id], o))
    else c
  }

  function Complete(c: Ctx, status: Status, output: string, carryover: set<Event>): Ctx {
    c.(ids := IssueQuietly(c.ids, CompleteWorkflow(status, output, carryover)), isComplete := true)
  }

  // ----- one event -----

  /** `threw` stands for an exception that escapes the handler. */
  datatype Handled = Handled(ctx: Ctx, threw: bool)

  /** The outcome that a completion event carries, and the id it is for. */
  function Ending(e: Event): Option<(int, Outcome)> {
    match e
    case TaskCompleted(id, result) => Some((id, Value(result)))
    case ChildCompleted(id, result) => Some((id, Value(result)))
    case TaskFailed(id, details) => Some((id, Failure(details)))
    case ChildFailed(id, details) => Some((id, Failure(details)))
    case TimerFired(id) => Some((id, Value("")))
    case _ => None
  }

  function Acknowledge(t: Table, e: Event): Acked
    requires IsAcknowledgement(e)
  {
    match e
    case TaskScheduled(id) => AckCall(t, id, TaskAck)
    case ChildCreated(id) => AckCall(t, id, ChildAck)
    case TimerCreated(id, _, _) => AckTimer(t, id, IsOptionalTimerEvent(e))
  }

  /** Every event but a resume, once it is known that it need not be held. */
  function Handle(c: Ctx, e: Event): Handled {
    if IsAcknowledgement(e) then
      var a := Acknowledge(c.ids, e);
      Handled(c.(ids := a.table), a.threw)
    else if Ending(e).Some? then
      Handled(EndTask(c, Ending(e).value.0, Ending(e).value.1), false)
    else if e.EventRaised? then
      var b := RaiseEvent(c.board, e);
      if b.Some? then Handled(c.(board := b.value), false) else Handled(c, true)
    else Control(c, e)
  }

  /** The remaining events, which concern the execution as a whole. */
  function Control(c: Ctx, e: Event): Handled {
    match e
    case WorkflowStarted(timestamp, patches) =>
      Handled(c.(env := c.env.(now := timestamp), patches := c.patches.(history := c.patches.history + patches)), false)
    case ExecutionStarted(_, _) => Handled(c.(started := true), false)
    case ExecutionSuspended => Handled(c.(suspended := true), false)
    case ExecutionResumed => Handled(c.(suspended := false), false)
    case ExecutionTerminated(output) =>
      if c.isComplete then Handled(c, true) else Handled(Complete(c, TERMINATED, output, {}), false)
    case Noted => Handled(c, false)
    case _ => Handled(c, true)
  }

  lemma HandleKeepsHeld(c: Ctx, e: Event)
    ensures Handle(c, e).ctx.held == c.held
  {
    hide EndRecord, Allot, RaiseEvent, Acknowledge;
  }

  /** Replays the held events in order. An exception leaves the rest of them held. */
  function Drain(c: Ctx): Handled
    decreases |c.held|
  {
    if c.held == [] then Handled(c, false)
    else
      var r := Handle(c.(held := c.held[1..]), c.held[0]);
      HandleKeepsHeld(c.(held := c.held[1..]), c.held[0]);
      if r.threw then r else Drain(r.ctx)
  }

  function ProcessEvent(c: Ctx, e: Event): Handled {
    if c.suspended && !e.ExecutionResumed? && !e.ExecutionTerminated? then
      Handled(if e.ExecutionSuspended? then c else c.(held := c.held + [e]), false)
    else if e.ExecutionResumed? then Drain(c.(suspended := false))
    else Handle(c, e)
  }

  /** Events one after another, the way an await goes through them: it swallows what a
      handler throws. */
  function ProcessAll(c: Ctx, events: seq<Event>): Ctx
    decreases |events|
  {
    if events == [] then c else ProcessAll(ProcessEvent(c, events[0]).ctx, events[1..])
  }

  // ----- one call -----

  /** The calls that the engine refuses once the orchestrator has completed. */
  datatype Call =
    | CallActivity(activity: string, input: string)
    | CallChild(workflow: string, instance: string, input: string)
    | StartTimer(timer: string, fireAt: int)
    | WaitForEvent(event: string, timeout: Option<int>)
    | Send(target: string, event: string, data: string)
    | Conclude(output: string)

  /** A task in the ordinary sense: an action, a record and a cell. */
  function NewTask(b: Board, body: ActionBody): Effect {
    Effect(b.(cells := b.cells + [Cell(TaskCell, Pending, Pending)]), false, Some(Opened(body, TaskRecord(|b.cells|))))
  }

  function Perform(env: Env, b: Board, call: Call): Effect {
    match call
    case CallActivity(name, input) => NewTask(b, ScheduleTask(name, input))
    case CallChild(name, instance, input) => NewTask(b, CreateChild(name, instance, input))
    case StartTimer(name, fireAt) => NewTimer(env, b, name, fireAt, UserTimer, None)
    case WaitForEvent(name, timeout) => Wait(env, b, name, timeout)
    case Send(target, name, data) => Effect(b, false, Some(Quiet(SendEvent(target, name, data))))
    case Conclude(output) => Effect(b, false, Some(Quiet(CompleteWorkflow(COMPLETED, output, {}))))
  }

  /** A call on a completed orchestrator throws and changes nothing. */
  function Attempt(c: Ctx, call: Call): Ctx {
    if c.isComplete then c
    else WithEffect(c, Perform(c.env, c.board, call)).(isComplete := call.Conclude?)
  }

  /** So does an attempt to complete it again. */
  function Close(c: Ctx, status: Status, output: string, carryover: set<Event>): Ctx {
    if c.isComplete then c else Complete(c, status, output, carryover)
  }

  // ----- patches -----

  function PatchAnswer(p: Patches, name: string, replaying: bool): bool {
    if name in p.applied then p.applied[name] else name in p.history || !replaying
  }

  function AskPatch(c: Ctx, name: string, replaying: bool): Ctx {
    var answer := PatchAnswer(c.patches, name, replaying);
    c.(patches := c.patches.(
         applied := c.patches.applied[name := answer],
         encountered := if answer then c.patches.encountered + [name] else c.patches.encountered))
  }

  // ----- every way the state can change -----

  datatype Input =
    | Made(call: Call)
    | Closed(status: Status, output: string, carryover: set<Event>)
    | Asked(patch: string, replaying: bool)
    | Happened(event: Event)

  function Apply(c: Ctx, i: Input): Ctx {
    match i
    case Made(call) => Attempt(c, call)
    case Closed(status, output, carryover) => Close(c, status, output, carryover)
    case Asked(name, replaying) => AskPatch(c, name, replaying)
    case Happened(e) => ProcessEvent(c, e).ctx
  }

  function ApplyAll(c: Ctx, inputs: seq<Input>): Ctx
    decreases |inputs|
  {
    if inputs == [] then c else ApplyAll(Apply(c, inputs[0]), inputs[1..])
  }

  lemma ApplyTwo(c: Ctx, i: Input, j: Input)
    ensures ApplyAll(c, [i, j]) == Apply(Apply(c, i), j)
  {
    hide Apply;
    assert [i, j][1..] == [j];
    assert ApplyAll(Apply(c, i), [j]) == Apply(Apply(c, i), j);
  }
}
