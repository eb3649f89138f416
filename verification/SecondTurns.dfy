/** Concrete executions in which a turn emits again what the turn before has emitted. */
module SecondTurns {
  import opened WorkflowTypes
  import opened IdTable
  import opened ReplayContext
  import opened ContextInvariant
  import opened Machine
  import opened ReplayTurns
  import opened ExactlyOnce
  import opened SuspendedTurns

  lemma EndsHere(p: Program, m: M)
    requires TakesEvents(m) && m.hist.onArrived && m.hist.index == |m.hist.arrived|
    ensures Halted(p, m)
  {
  }

  lemma FreshContextStarts(c: Ctx)
    requires c == Fresh(Engine(true, 1))
    ensures ProcessEvent(c, WorkflowStarted(0, {})) == Handled(c, false)
    ensures ProcessEvent(c, ExecutionStarted("w", "")) == Handled(c.(started := true), false)
  {
  }

  lemma SuspendsOnly(c: Ctx)
    requires !c.suspended
    ensures ProcessEvent(c, ExecutionSuspended) == Handled(c.(suspended := true), false)
  {
  }

  /** Sends an event, calls an activity and awaits that. */
  function SendAndCall(trace: seq<Reply>): Op {
    if trace == [] then Do(Send("other", "go", ""))
    else if |trace| == 1 then Do(CallActivity("act", ""))
    else if |trace| == 2 then Await(0)
    else Return
  }

  const SENT: Entry := Entry(0, Action(0, SendEvent("other", "go", "")))
  const CALLED: Entry := Entry(1, Action(1, ScheduleTask("act", "")))

  lemma SendAndCallNeverAsks()
    ensures NeverAsksReplaying(SendAndCall)
  {
  }

  /** A first turn, which may be suspended at its end. */
  function FirstTurn(suspended: bool): seq<Event> {
    [WorkflowStarted(0, {}), ExecutionStarted("w", "")] + (if suspended then [ExecutionSuspended] else [])
  }

  lemma Called(c: Ctx)
    requires c == Fresh(Engine(true, 1)).(started := true)
    ensures var d := Attempt(Attempt(c, Send("other", "go", "")), CallActivity("act", ""));
            && d.ids.pending == [SENT, CALLED] && !d.isComplete && !d.suspended && d.held == []
            && d.board.cells == [Cell(TaskCell, Pending, Pending)] && d.started
  {
    var s := Attempt(c, Send("other", "go", ""));
    assert s.ids.pending == [SENT];
  }

  ghost predicate EndsFirst(last: M, suspended: bool) {
    && Execution(SendAndCall, Engine(true, 1), [FirstTurn(suspended)], [last])
    && last.mode == Blocked(0) && last.ctx.suspended == suspended && last.ctx.held == []
    && last.ctx.ids.pending == [SENT, CALLED]
    && last.ctx.board.cells == [Cell(TaskCell, Pending, Pending)]
  }

  lemma FirstTurnStarts(start: M, suspended: bool) returns (m: M)
    requires start == Start(Fresh(Engine(true, 1)), [], FirstTurn(suspended))
    ensures Reaches(SendAndCall, start, 2, m)
    ensures m == M(start.ctx.(started := true), Running, [], History([], FirstTurn(suspended), true, 2))
  {
    hide Step, ProcessEvent;
    FreshContextStarts(start.ctx);
    assert Reaches(SendAndCall, start, 0, start);
    m := ThenEvent(SendAndCall, start, 0, start, WorkflowStarted(0, {}));
    m := ThenEvent(SendAndCall, start, 1, m, ExecutionStarted("w", ""));
  }

  lemma CallsAndAwaits(start: M, m: M) returns (last: M)
    requires Reaches(SendAndCall, start, 2, m) && m.ctx == Fresh(Engine(true, 1)).(started := true)
    requires m.mode == Running && m.trace == []
    ensures Reaches(SendAndCall, start, 5, last) && last.mode == Blocked(0) && last.hist == m.hist
    ensures last.ctx.ids.pending == [SENT, CALLED] && last.ctx.held == [] && !last.ctx.suspended
    ensures last.ctx.board.cells == [Cell(TaskCell, Pending, Pending)]
  {
    hide Step, Attempt, Reaches;
    Called(m.ctx);
    last := ThenOp(SendAndCall, start, 2, m, Do(Send("other", "go", "")));
    last := ThenOp(SendAndCall, start, 3, last, Do(CallActivity("act", "")));
    last := ThenOp(SendAndCall, start, 4, last, Await(0));
  }

  lemma FirstTurnEnds(suspended: bool) returns (last: M)
    ensures EndsFirst(last, suspended)
  {
    hide Step, ProcessEvent, Attempt, Halted, Execution;
    var p := SendAndCall;
    var c := Fresh(Engine(true, 1));
    var arrived := FirstTurn(suspended);
    var start := Start(c, [], arrived);
    var m := FirstTurnStarts(start, suspended);
    last := CallsAndAwaits(start, m);
    if suspended {
      SuspendsOnly(last.ctx);
      last := ThenArrival(p, start, 5, last, last.ctx.(suspended := true));
    }
    EndsHere(p, last);
    assert IsTurn(arrived);
    OneTurn(p, Engine(true, 1), arrived, last);
  }

  function SecondStart(last: M, arrived: seq<Event>): M {
    Start(Fresh(Engine(true, 1)), NextPast(last), arrived)
  }

  /** The second turn gets to its own new events. */
  lemma SecondTurn(last: M, suspended: bool, arrived: seq<Event>) returns (steps: nat, m: M)
    requires EndsFirst(last, suspended)
    ensures Reaches(SendAndCall, SecondStart(last, arrived), steps, m) && m.mode == Blocked(0)
    ensures m.hist == History(NextPast(last), arrived, false, |NextPast(last)|)
    ensures m.ctx.board.cells == [Cell(TaskCell, Pending, Pending)] && m.ctx.suspended == suspended
    ensures if suspended then m.ctx.ids.pending == [SENT, CALLED] && m.ctx.held == [Unsupported, TaskScheduled(1)]
            else m.ctx.ids.pending == [SENT] && m.ctx.held == []
    ensures Inv(m.ctx)
  {
    hide Step, Inv, ProcessAll, NextPast, NeverAsksReplaying, Acks;
    SendAndCallNeverAsks();
    var a, shadow := EndIsRebuilt(SendAndCall, Engine(true, 1), [FirstTurn(suspended)], [last], arrived);
    var pending := [SENT, CALLED];
    assert [] + pending + [] == pending;
    m := AcksAreTaken(SendAndCall, shadow, [], pending, []);
    RunKeepsInv(SendAndCall, shadow, |pending|, m);
    ReachesAdds(SendAndCall, SecondStart(last, arrived), a, shadow, |pending|, m);
    steps := a + |pending|;
    assert |shadow.hist.past[shadow.hist.index..]| == 2;
    AcksOfFirst(shadow.ctx);
  }

  lemma AcksOfFirst(c: Ctx)
    requires Inv(c) && c.ids.pending == [SENT, CALLED] && c.held == []
    ensures var d := ProcessAll(c, Acks(c.ids.pending));
            && d.board == c.board && d.suspended == c.suspended
            && (c.suspended ==> d.ids.pending == [SENT, CALLED] && d.held == [Unsupported, TaskScheduled(1)])
            && (!c.suspended ==> d.ids.pending == [SENT] && d.held == [])
  {
    hide Inv, ProcessAll;
    var pending := c.ids.pending;
    if c.suspended {
      SuspendedAcksAreHeld(c, pending);
      assert Acks(pending) == [Unsupported, TaskScheduled(1)];
    } else {
      assert [] + pending + [] == pending;
      AcksLeave(c, [], pending, []);
      OnlyTheSent();
    }
  }

  lemma OnlyTheSent()
    ensures [] + Unacknowledged([SENT, CALLED]) + [] == [SENT]
  {
    assert [SENT, CALLED][1..] == [CALLED] && [CALLED][1..] == [];
    assert [SENT, CALLED][..1] == [SENT] && [CALLED][..1] == [CALLED];
    assert [SENT][0].action.body.SendEvent?;
    assert !CanBeAcknowledged([SENT]) && CanBeAcknowledged([CALLED]);
    assert Unacknowledged([CALLED]) == [];
  }

  const SECOND: Event := WorkflowStarted(1, {})

  /** A sent event is sent again by the next turn. */
  lemma SentEventIsSentAgain() returns (last: M, next: M)
    ensures EndsFirst(last, false)
    ensures RunsTo(SendAndCall, SecondStart(last, [SECOND]), next)
    ensures next.ctx.ids.pending == [SENT]
  {
    hide Step, Execution, NextPast, EndsFirst;
    last := FirstTurnEnds(false);
    var steps, m := SecondTurn(last, false, [SECOND]);
    next := ThenEvent(SendAndCall, SecondStart(last, [SECOND]), steps, m, SECOND);
    EndsHere(SendAndCall, next);
  }

  /** A turn that ends suspended has its activity scheduled again by a next turn that does
      not resume. */
  lemma ActivityIsScheduledAgain() returns (last: M, next: M)
    ensures EndsFirst(last, true)
    ensures RunsTo(SendAndCall, SecondStart(last, [SECOND]), next)
    ensures next.ctx.ids.pending == [SENT, CALLED]
  {
    hide Step, Execution, NextPast, EndsFirst;
    last := FirstTurnEnds(true);
    var steps, m := SecondTurn(last, true, [SECOND]);
    next := ThenEvent(SendAndCall, SecondStart(last, [SECOND]), steps, m, SECOND);
    EndsHere(SendAndCall, next);
  }

  lemma TwoResumes(c: Ctx)
    requires c.held == [Unsupported, TaskScheduled(1), SECOND] && c.ids.pending == [SENT, CALLED] && c.suspended
    ensures var d := ProcessEvent(c, ExecutionResumed).ctx;
            && d == c.(suspended := false, held := [TaskScheduled(1), SECOND])
            && var f := ProcessEvent(d, ExecutionResumed).ctx; f.ids.pending == [SENT] && f.board == c.board
  {
    var d := c.(suspended := false, held := [TaskScheduled(1), SECOND]);
    assert c.held[1..] == d.held && d.held[1..] == [SECOND] && [SECOND][1..] == [];
    assert Drain(c.(suspended := false)) == Handled(d, true);
    assert IndexOf([SENT, CALLED], 1) == 1;
    assert Remove([SENT, CALLED], 1) == [SENT];
    var e := d.(held := [SECOND]);
    var f := e.(ids := e.ids.(pending := [SENT]));
    assert Handle(e, TaskScheduled(1)) == Handled(f, false);
    assert Drain(d) == Drain(f);
    assert Drain(f) == Drain(Handle(f.(held := []), SECOND).ctx);
  }

  /** With a sent event in front, even a resume does not keep the activity from being
      scheduled again: it takes a second one to get to its acknowledgement. */
  lemma OneResumeIsNotEnough() returns (last: M, one: M, two: M)
    ensures EndsFirst(last, true)
    ensures RunsTo(SendAndCall, SecondStart(last, [SECOND, ExecutionResumed]), one)
    ensures RunsTo(SendAndCall, SecondStart(last, [SECOND, ExecutionResumed, ExecutionResumed]), two)
    ensures one.ctx.ids.pending == [SENT, CALLED] && two.ctx.ids.pending == [SENT]
  {
    hide Step, Execution, NextPast, Drain, Reaches, EndsFirst;
    var p := SendAndCall;
    last := FirstTurnEnds(true);
    var steps, m := SecondTurn(last, true, [SECOND, ExecutionResumed]);
    var s := SecondStart(last, [SECOND, ExecutionResumed]);
    m := ThenEvent(p, s, steps, m, SECOND);
    TwoResumes(m.ctx);
    one := ThenEvent(p, s, steps + 1, m, ExecutionResumed);
    EndsHere(p, one);
    steps, m := SecondTurn(last, true, [SECOND, ExecutionResumed, ExecutionResumed]);
    s := SecondStart(last, [SECOND, ExecutionResumed, ExecutionResumed]);
    m := ThenEvent(p, s, steps, m, SECOND);
    TwoResumes(m.ctx);
    m := ThenEvent(p, s, steps + 1, m, ExecutionResumed);
    two := ThenEvent(p, s, steps + 2, m, ExecutionResumed);
    EndsHere(p, two);
  }
}
