/** A concrete execution in which the await of a timer longer than the maximum interval
    returns although the timer is not done. */
module LongTimers {
  import opened WorkflowTypes
  import opened IdTable
  import opened ReplayContext
  import opened ContextInvariant
  import opened Machine
  import opened ReplayTurns
  import opened SecondTurns

  const SECOND_LONG: int := NANOS_PER_SECOND
  const DUE: int := 3 * NANOS_PER_SECOND

  /** Awaits a timer of three maximum intervals and then asks whether it is done. */
  function AwaitTimer(trace: seq<Reply>): Op {
    if trace == [] then Do(StartTimer("t", DUE))
    else if |trace| == 1 then Await(0)
    else if |trace| == 2 then IsDone(0)
    else Return
  }

  function Settings(): Engine { Engine(true, SECOND_LONG) }

  const CHAIN: Chain := Chain(0, "t", DUE, UserTimer, None)

  /** The first sub-timer is outstanding; the first turn has it pending, the second has
      got its acknowledgement. */
  function Started(now: int, pending: seq<Entry>): Ctx {
    var c := Fresh(Settings());
    c.(env := c.env.(now := now), started := true, ids := Table(pending, map[0 := SubTimer(CHAIN, true)], 1),
       board := c.board.(cells := [Cell(TimerCell, Pending, Pending)]))
  }

  const FIRST_SUB_TIMER: Entry := Entry(0, Action(0, CreateTimer("t", SECOND_LONG, UserTimer)))

  lemma StartsUp(c: Ctx)
    requires c == Fresh(Settings())
    ensures ProcessEvent(c, WorkflowStarted(0, {})) == Handled(c, false)
    ensures ProcessEvent(c, ExecutionStarted("w", "")) == Handled(c.(started := true), false)
    ensures Attempt(c.(started := true), StartTimer("t", DUE)) == Started(0, [FIRST_SUB_TIMER])
  {
  }

  lemma FirstEnds() returns (last: M)
    ensures Execution(AwaitTimer, Settings(), [FirstTurn(false)], [last]) && GoesOn(last)
    ensures last.ctx == Started(0, [FIRST_SUB_TIMER]) && last.mode == Blocked(0) && last.trace == [TaskRef(0)]
  {
    hide Step, ProcessEvent, Attempt, Halted, Execution;
    var p := AwaitTimer;
    var arrived := FirstTurn(false);
    last := Start(Fresh(Settings()), [], arrived);
    var start := last;
    StartsUp(last.ctx);
    last := ThenEvent(p, start, 0, last, WorkflowStarted(0, {}));
    assert last.mode == NotStarted && last.trace == [] && last.hist == History([], arrived, true, 1);
    last := ThenEvent(p, start, 1, last, ExecutionStarted("w", ""));
    last := ThenOp(p, start, 2, last, Do(StartTimer("t", DUE)));
    last := ThenOp(p, start, 3, last, Await(0));
    EndsHere(p, last);
    OneTurn(p, Settings(), arrived, last);
  }

  const ON_TIME: seq<Event> := [WorkflowStarted(SECOND_LONG, {}), TimerFired(0)]

  lemma FiresOnTime()
    ensures Started(0, []).board == Started(SECOND_LONG, []).board == Board([Cell(TimerCell, Pending, Pending)], Waits(map[], [], []))
    ensures ProcessEvent(Started(0, []), ON_TIME[0]) == Handled(Started(SECOND_LONG, []), false)
    ensures var d := ProcessEvent(Started(SECOND_LONG, []), ON_TIME[1]).ctx;
            && |d.board.cells| == 1 && d.board.cells[0].visible == Value("") && d.board.cells[0].future.Pending?
  {
  }

  lemma RebuiltFirst(last: M)
    requires last.ctx == Started(0, [FIRST_SUB_TIMER])
    ensures Boundary(last, ON_TIME).ctx == Started(0, [])
  {
    assert Met(last.ctx) == {};
    assert last.ctx.patches.history + {} == last.ctx.patches.history;
  }

  lemma SecondEnds(b: M) returns (last: M)
    requires b.ctx == Started(0, []) && b.mode == Blocked(0) && b.trace == [TaskRef(0)]
    requires b.hist.index == |b.hist.past| && !b.hist.onArrived && b.hist.arrived == ON_TIME
    ensures Reaches(AwaitTimer, b, 5, last) && Halted(AwaitTimer, last)
    ensures last.trace == [TaskRef(0), Result(Value("")), Flag(false)]
  {
    hide Step, ProcessEvent, Started, Halted;
    var p := AwaitTimer;
    assert Reaches(p, b, 0, b);
    FiresOnTime();
    last := ThenEvent(p, b, 0, b, ON_TIME[0]);
    assert last == b.(ctx := Started(SECOND_LONG, []), hist := History(b.hist.past, ON_TIME, true, 1));
    last := ThenArrival(p, b, 1, last, ProcessEvent(last.ctx, ON_TIME[1]).ctx);
    last := ThenDone(p, b, 2, last);
    last := ThenOp(p, b, 3, last, IsDone(0));
    last := ThenOp(p, b, 4, last, Return);
    EndsHere(p, last);
  }

  /** The orchestrator has awaited the timer, and is told that it is not done. */
  lemma {:induction false} LongTimerIsAwaitedTooShort() returns (lasts: seq<M>)
    ensures |lasts| == 2 && Execution(AwaitTimer, Settings(), [FirstTurn(false), ON_TIME], lasts)
    ensures lasts[1].trace == [TaskRef(0), Result(Value("")), Flag(false)]
  {
    hide Step, Execution, GoesOn, Started, Boundary, Halted;
    var first := FirstEnds();
    RebuiltFirst(first);
    BoundaryOfFirst(first);
    var last := SecondEnds(Boundary(first, ON_TIME));
    OneMoreTurn(AwaitTimer, Settings(), [FirstTurn(false)], [first], ON_TIME, 5, last);
    lasts := [first, last];
    assert [FirstTurn(false)] + [ON_TIME] == [FirstTurn(false), ON_TIME] && [first] + [last] == lasts;
  }

  lemma BoundaryOfFirst(last: M)
    ensures var b := Boundary(last, ON_TIME);
            && b.mode == last.mode && b.trace == last.trace
            && b.hist == History(NextPast(last), ON_TIME, false, |NextPast(last)|)
    ensures IsTurn(ON_TIME) && NeverAsksReplaying(AwaitTimer)
  {
    hide NextPast;
  }
}
