/** One execution of an orchestrator: a deterministic program that makes calls and
    blocks on tasks, driven over the past and the new events of a turn. */
module Machine {
  import opened WorkflowTypes
  import opened IdTable
  import opened ReplayContext
  import opened ContextInvariant

  /** What the program learns from each operation. */
  datatype Reply =
    | TaskRef(task: nat)
    | Acknowledged
    | Rejected
    | Result(outcome: Outcome)
    | Instant(now: int)
    | Flag(value: bool)

  datatype Op =
    | Do(call: Call)
    | Await(task: nat)
    | IsDone(task: nat)
    | GetInstant
    | IsPatched(patch: string)
    | IsReplaying
    | ContinueAsNew(input: string, preserve: bool)
    | Return
    | Throw(details: string)

  /** A deterministic orchestrator: what it does next depends on the replies so far.
      It need not be finite. */
  type Program = seq<Reply> -> Op

  /** The history iterator: a list of its own for past and for new events, and an index
      into the current one. Replaying ends when it moves to the new events. */
  datatype History = History(past: seq<Event>, arrived: seq<Event>, onArrived: bool, index: nat)

  function MoveOn(h: History): History {
    if !h.onArrived && h.index >= |h.past| then h.(onArrived := true, index := 0) else h
  }

  function Current(h: History): seq<Event> {
    if h.onArrived then h.arrived else h.past
  }

  /** `Stopped`: the execution ended by failure or continue-as-new. `Crashed`: even the
      attempt to record the failure threw. */
  datatype Mode = NotStarted | Running | Blocked(task: nat) | Returned | Stopped | Crashed

  datatype M = M(ctx: Ctx, mode: Mode, trace: seq<Reply>, hist: History)

  function Start(c: Ctx, past: seq<Event>, arrived: seq<Event>): M {
    M(c, NotStarted, [], History(past, arrived, false, 0))
  }

  predicate AwaitDone(c: Ctx, task: nat) {
    task < |c.board.cells| && !c.board.cells[task].visible.Pending?
  }

  /** The carry-over as it is computed: what is buffered, and the raised events that the
      new-event list holds from the current index on. */
  function Carryover(c: Ctx, h: History): set<Event> {
    (set e | e in c.board.waits.unprocessed) +
    (if h.index <= |h.arrived| then set e | e in h.arrived[h.index..] && e.EventRaised? else {})
  }

  function Continue(m: M, c: Ctx, reply: Reply): M {
    m.(ctx := c, trace := m.trace + [reply])
  }

  function Fail(m: M, details: string): M {
    m.(ctx := Close(m.ctx, FAILED, details, {}), mode := if m.ctx.isComplete then Crashed else Stopped)
  }

  function CallReply(c: Ctx, call: Call): Reply {
    if c.isComplete then Rejected
    else if call.Send? || call.Conclude? then Acknowledged
    else TaskRef(|c.board.cells|)
  }

  function Execute(m: M, op: Op): M {
    match op
    case Do(call) => Continue(m, Attempt(m.ctx, call), CallReply(m.ctx, call))
    case Await(task) => m.(mode := Blocked(task))
    case IsDone(task) => Continue(m, m.ctx, Flag(task < |m.ctx.board.cells| && !m.ctx.board.cells[task].future.Pending?))
    case GetInstant => Continue(m, m.ctx, Instant(m.ctx.env.now))
    case IsPatched(name) =>
      Continue(m, AskPatch(m.ctx, name, !m.hist.onArrived), Flag(PatchAnswer(m.ctx.patches, name, !m.hist.onArrived)))
    case IsReplaying => Continue(m, m.ctx, Flag(!m.hist.onArrived))
    case ContinueAsNew(input, preserve) =>
      if m.ctx.isComplete then Continue(m, m.ctx, Rejected)
      else
        var carryover := if preserve then Carryover(m.ctx, m.hist) else {};
        m.(ctx := Close(m.ctx, CONTINUED_AS_NEW, input, carryover), mode := Stopped)
    case Return => m.(mode := Returned)
    case Throw(details) => Fail(m, details)
  }

  /** An exception in a handler is swallowed inside an await and fatal outside one. */
  function Receive(m: M, e: Event): M {
    var r := ProcessEvent(m.ctx, e);
    var n := m.(ctx := r.ctx);
    if r.threw && !m.mode.Blocked? then Fail(n, "")
    else if m.mode.NotStarted? && r.ctx.started then n.(mode := Running)
    else n
  }

  /** The next event of the history, if there is one left. */
  function Advance(m: M): Option<M> {
    var h := MoveOn(m.hist);
    if h.index >= |Current(h)| then None
    else Some(Receive(m.(hist := h.(index := h.index + 1)), Current(h)[h.index]))
  }

  /** One step; None once the turn is over. */
  function Step(p: Program, m: M): Option<M> {
    match m.mode
    case Running => Some(Execute(m, p(m.trace)))
    case Blocked(task) =>
      if AwaitDone(m.ctx, task) then Some(Continue(m, m.ctx, Result(m.ctx.board.cells[task].visible)).(mode := Running))
      else Advance(m)
    case NotStarted => Advance(m)
    case Returned => Advance(m)
    case Stopped => None
    case Crashed => None
  }

  predicate Halted(p: Program, m: M) {
    Step(p, m).None?
  }

  /** `last` is where `m` is after exactly n steps. */
  ghost predicate Reaches(p: Program, m: M, n: nat, last: M)
    decreases n
  {
    if n == 0 then m == last else !Halted(p, m) && Reaches(p, Step(p, m).value, n - 1, last)
  }

  /** A turn that starts in `m` ends in `last`. */
  ghost predicate RunsTo(p: Program, m: M, last: M) {
    Halted(p, last) && exists n: nat :: Reaches(p, m, n, last)
  }

  // ----- the end of a turn -----

  /** Every pending action is a timer that guards an event wait. */
  predicate OnlyEventTimers(pending: seq<Entry>) {
    forall i :: 0 <= i < |pending| ==>
      pending[i].action.body.CreateTimer? && pending[i].action.body.origin.ExternalEvent?
  }

  /** A run that consumed all events without yielding completes implicitly if nothing
      is left to do or to wait for. */
  function EndTurn(m: M): Ctx {
    if (m.mode.NotStarted? || m.mode.Returned?) && OnlyEventTimers(m.ctx.ids.pending) && m.ctx.board.waits.names == map[] then
      Close(m.ctx, COMPLETED, "", {})
    else m.ctx
  }

  // ----- runs -----

  lemma {:induction false} ReachesAdds(p: Program, m: M, a: nat, mid: M, b: nat, last: M)
    requires Reaches(p, m, a, mid) && Reaches(p, mid, b, last)
    ensures Reaches(p, m, a + b, last)
    decreases a
  {
    hide Step;
    if a > 0 {
      ReachesAdds(p, Step(p, m).value, a - 1, mid, b, last);
    }
  }

  /** A run that passes through `mid` on its way to its end gets there from `mid`. */
  lemma {:induction false} ReachesSplits(p: Program, m: M, a: nat, mid: M, n: nat, last: M)
    requires Reaches(p, m, a, mid) && Reaches(p, m, n, last) && Halted(p, last)
    ensures a <= n && Reaches(p, mid, n - a, last)
    decreases a
  {
    hide Step;
    if a > 0 {
      ReachesSplits(p, Step(p, m).value, a - 1, mid, n - 1, last);
    }
  }

  /** Two runs from one state are one run. */
  lemma {:induction false} ReachesOn(p: Program, m: M, a: nat, mid: M, n: nat, last: M)
    requires Reaches(p, m, a, mid) && Reaches(p, m, n, last) && a <= n
    ensures Reaches(p, mid, n - a, last)
    decreases a
  {
    hide Step;
    if a > 0 {
      ReachesOn(p, Step(p, m).value, a - 1, mid, n - 1, last);
    }
  }

  lemma OneMoreStep(p: Program, m: M, n: nat, last: M)
    requires Reaches(p, m, n, last) && !Halted(p, last)
    ensures Reaches(p, m, n + 1, Step(p, last).value)
  {
    hide Step;
    assert Reaches(p, last, 1, Step(p, last).value) by { assert Reaches(p, Step(p, last).value, 0, Step(p, last).value); }
    ReachesAdds(p, m, n, last, 1, Step(p, last).value);
  }

  // ----- runs step by step -----

  /** About to take the next event of the history, if there is one. */
  predicate TakesEvents(m: M) {
    m.mode.NotStarted? || m.mode.Returned? || (m.mode.Blocked? && !AwaitDone(m.ctx, m.mode.task))
  }

  lemma ThenEvent(p: Program, start: M, n: nat, m: M, e: Event) returns (next: M)
    requires Reaches(p, start, n, m) && TakesEvents(m)
    requires MoveOn(m.hist).index < |Current(MoveOn(m.hist))| && Current(MoveOn(m.hist))[MoveOn(m.hist).index] == e
    ensures next == Receive(m.(hist := MoveOn(m.hist).(index := MoveOn(m.hist).index + 1)), e)
    ensures Reaches(p, start, n + 1, next)
  {
    hide Receive, Execute;
    next := Step(p, m).value;
    OneMoreStep(p, start, n, m);
  }

  /** A blocked orchestrator takes the next new event. */
  lemma ThenArrival(p: Program, start: M, n: nat, m: M, c: Ctx) returns (next: M)
    requires Reaches(p, start, n, m) && m.mode.Blocked? && !AwaitDone(m.ctx, m.mode.task)
    requires m.hist.onArrived && m.hist.index < |m.hist.arrived|
    requires ProcessEvent(m.ctx, m.hist.arrived[m.hist.index]).ctx == c
    ensures next == m.(ctx := c, hist := m.hist.(index := m.hist.index + 1))
    ensures Reaches(p, start, n + 1, next)
  {
    hide ProcessEvent;
    next := ThenEvent(p, start, n, m, m.hist.arrived[m.hist.index]);
  }

  lemma ThenOp(p: Program, start: M, n: nat, m: M, op: Op) returns (next: M)
    requires Reaches(p, start, n, m) && m.mode.Running? && p(m.trace) == op
    ensures next == Execute(m, op) && Reaches(p, start, n + 1, next)
  {
    hide Receive, Execute;
    next := Step(p, m).value;
    OneMoreStep(p, start, n, m);
  }

  lemma ThenDone(p: Program, start: M, n: nat, m: M) returns (next: M)
    requires Reaches(p, start, n, m) && m.mode.Blocked? && AwaitDone(m.ctx, m.mode.task)
    ensures next == Continue(m, m.ctx, Result(m.ctx.board.cells[m.mode.task].visible)).(mode := Running)
    ensures Reaches(p, start, n + 1, next)
  {
    hide Receive, Execute;
    next := Step(p, m).value;
    OneMoreStep(p, start, n, m);
  }

  /** Every step changes the context by one input. */
  lemma StepIsInput(p: Program, m: M) returns (i: Input)
    requires !Halted(p, m)
    ensures Step(p, m).value.ctx == m.ctx || Step(p, m).value.ctx == Apply(m.ctx, i)
         || (i.Happened? && Step(p, m).value.ctx == Close(Apply(m.ctx, i), FAILED, "", {}))
  {
    i := Happened(Noted);
    if m.mode.Running? {
      match p(m.trace) {
        case Do(call) => i := Made(call);
        case IsPatched(name) => i := Asked(name, !m.hist.onArrived);
        case ContinueAsNew(input, preserve) =>
          i := Closed(CONTINUED_AS_NEW, input, if preserve then Carryover(m.ctx, m.hist) else {});
        case Throw(details) => i := Closed(FAILED, details, {});
        case _ =>
      }
    } else if !m.mode.Blocked? || !AwaitDone(m.ctx, m.mode.task) {
      i := Happened(Current(MoveOn(m.hist))[MoveOn(m.hist).index]);
    }
  }

  lemma StepKeepsInv(p: Program, m: M)
    requires Inv(m.ctx) && !Halted(p, m)
    ensures Inv(Step(p, m).value.ctx)
  {
    var i := StepIsInput(p, m);
    ApplyKeepsInv(m.ctx, i);
    ApplyKeepsInv(Apply(m.ctx, i), Closed(FAILED, "", {}));
  }

  lemma {:induction false} RunKeepsInv(p: Program, m: M, n: nat, last: M)
    requires Inv(m.ctx) && Reaches(p, m, n, last)
    ensures Inv(last.ctx)
    decreases n
  {
    hide Step;
    if n > 0 {
      StepKeepsInv(p, m);
      RunKeepsInv(p, Step(p, m).value, n - 1, last);
    }
  }

  ghost predicate HistoryOk(h: History) {
    h.index <= |Current(h)| && (h.onArrived ==> h.index > 0)
  }

  /** The lists never change; the index only moves forward. */
  lemma StepKeepsHistory(p: Program, m: M)
    requires HistoryOk(m.hist) && !Halted(p, m)
    ensures var h := Step(p, m).value.hist;
            HistoryOk(h) && h.past == m.hist.past && h.arrived == m.hist.arrived && (m.hist.onArrived ==> h.onArrived)
  {
  }

  lemma {:induction false} RunKeepsHistory(p: Program, m: M, n: nat, last: M)
    requires HistoryOk(m.hist) && Reaches(p, m, n, last)
    ensures HistoryOk(last.hist) && last.hist.past == m.hist.past && last.hist.arrived == m.hist.arrived
    ensures m.hist.onArrived ==> last.hist.onArrived
    decreases n
  {
    hide Step;
    if n > 0 {
      StepKeepsHistory(p, m);
      RunKeepsHistory(p, Step(p, m).value, n - 1, last);
    }
  }
}
