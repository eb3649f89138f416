/** Continue-as-new in executions: it never happens while history is being replayed, so the
    carry-over is what the engine means it to be. */
module ContinuedTurns {
  import opened WorkflowTypes
  import opened IdTable
  import opened ReplayContext
  import opened ContextInvariant
  import opened Machine
  import opened ReplayTurns
  import opened CarryOver
  import opened SecondTurns

  /** About to continue as new. */
  predicate Continues(p: Program, m: M) {
    m.mode.Running? && p(m.trace).ContinueAsNew? && !m.ctx.isComplete
  }

  lemma ContinuingStops(p: Program, m: M)
    requires Continues(p, m)
    ensures !Halted(p, m) && Step(p, m).value.mode.Stopped?
  {
    hide Close;
  }

  lemma EnteringMovesOn(p: Program, b: M)
    requires AtBoundary(b) && !Halted(p, b)
    ensures Step(p, b).value.hist.onArrived && HistoryOk(Step(p, b).value.hist)
  {
    hide ProcessEvent, Close;
  }

  /** Turn by turn, replaying its own history, an orchestrator that does not ask whether it
      is replaying continues as new only in the new events of a turn. */
  lemma {:induction false} NeverContinuesWhileReplaying(p: Program, engine: Engine, turns: seq<seq<Event>>, lasts: seq<M>,
                                                        n: nat, m: M)
    requires Execution(p, engine, turns, lasts) && NeverAsksReplaying(p)
    requires Reaches(p, First(engine, turns, lasts), n, m) && Continues(p, m)
    ensures m.hist.onArrived
  {
    hide Step, Inv, EndTurn, IsTurn, Boundary, NextPast, GoesOn, Continues, RunsTo;
    var first := First(engine, turns, lasts);
    var steps, rest := ReplayRebuilds(p, engine, turns, lasts);
    var b := BoundaryOf(engine, turns, lasts);
    ContinuingStops(p, m);
    assert m.mode.Running? by { IsRunning(p, m); }
    if n < steps {
      ReachesOn(p, first, n, m, steps, b);
      StoppedIsHalted(p, Step(p, m).value);
    } else {
      ReachesOn(p, first, steps, b, n, m);
      if n > steps {
        EnteringMovesOn(p, b);
        RunKeepsHistory(p, Step(p, b).value, n - steps - 1, m);
      }
    }
  }

  lemma IsRunning(p: Program, m: M)
    requires Continues(p, m)
    ensures m.mode.Running?
  {
  }

  /** So, with preservation and distinct events, what an execution carries over is exactly
      what no wait received, unless events are still held from a suspension. */
  lemma {:induction false} ExecutionCarriesOverExactlyWhen(p: Program, maxInterval: int, turns: seq<seq<Event>>,
                                                           lasts: seq<M>, n: nat, m: M)
    requires Execution(p, Engine(true, maxInterval), turns, lasts) && NeverAsksReplaying(p)
    requires Reaches(p, First(Engine(true, maxInterval), turns, lasts), n, m) && Continues(p, m)
    requires PairwiseDistinct(m.hist.past + m.hist.arrived)
    ensures Carryover(m.ctx, m.hist) <= Undelivered(m)
    ensures Carryover(m.ctx, m.hist) == Undelivered(m) <==> NoneRaised(m.ctx.held)
  {
    hide Step, Reaches, RunsTo, Undelivered, PairwiseDistinct, Continues, NextPast;
    var first := First(Engine(true, maxInterval), turns, lasts);
    NeverContinuesWhileReplaying(p, Engine(true, maxInterval), turns, lasts, n, m);
    RunKeepsHistory(p, first, n, m);
    CarryoverExactlyWhen(p, maxInterval, first.hist.past, first.hist.arrived, n, m);
  }

  // ----- a history that other code has recorded -----

  function AlwaysContinues(trace: seq<Reply>): Op {
    if trace == [] then ContinueAsNew("", true) else Return
  }

  const FOREIGN_PAST: seq<Event> :=
    [WorkflowStarted(0, {}), ExecutionStarted("w", ""), WorkflowStarted(1, {}), EventRaised(0, "e", "")]

  /** An orchestrator whose code has changed can be made to continue as new in the middle of
      a history it did not write; the raised event that is left in the past is then not
      carried over. */
  lemma {:induction false} ForeignHistoryLosesAnEvent(maxInterval: int) returns (m: M)
    ensures Reaches(AlwaysContinues, Start(Initial(true, maxInterval), FOREIGN_PAST, [WorkflowStarted(2, {})]), 2, m)
    ensures Continues(AlwaysContinues, m) && !m.hist.onArrived
    ensures FOREIGN_PAST[3] in Undelivered(m) && FOREIGN_PAST[3] !in Carryover(m.ctx, m.hist)
  {
    hide Step, ProcessEvent;
    var p := AlwaysContinues;
    var c := Initial(true, maxInterval);
    m := Start(c, FOREIGN_PAST, [WorkflowStarted(2, {})]);
    var start := m;
    StartsUp(c);
    m := ThenEvent(p, start, 0, m, FOREIGN_PAST[0]);
    m := ThenEvent(p, start, 1, m, FOREIGN_PAST[1]);
    assert m.ctx == c.(started := true) && m.hist == History(FOREIGN_PAST, [WorkflowStarted(2, {})], false, 2);
    var e := FOREIGN_PAST[3];
    assert e in FOREIGN_PAST + [WorkflowStarted(2, {})] by { assert (FOREIGN_PAST + [WorkflowStarted(2, {})])[3] == e; }
    InRaised(FOREIGN_PAST + [WorkflowStarted(2, {})], e);
    assert Delivered(m.ctx.board.cells) == multiset{};
    assert Carryover(m.ctx, m.hist) == {};
  }

  lemma StartsUp(c: Ctx)
    requires c == Initial(true, c.env.maxInterval)
    ensures ProcessEvent(c, FOREIGN_PAST[0]) == Handled(c, false)
    ensures ProcessEvent(c, FOREIGN_PAST[1]) == Handled(c.(started := true), false)
  {
  }

  // ----- an error in front of a held event -----

  /** Awaits an activity and then starts over. */
  function CallThenContinue(trace: seq<Reply>): Op {
    if trace == [] then Do(CallActivity("act", ""))
    else if |trace| == 1 then Await(0)
    else ContinueAsNew("", true)
  }

  const RAISED: Event := EventRaised(0, "e", "")

  const STRANDING: seq<Event> :=
    [WorkflowStarted(1, {}), ExecutionSuspended, Unsupported, RAISED, ExecutionResumed, TaskCompleted(0, "")]

  lemma FirstCall(c: Ctx)
    requires c == Fresh(Engine(true, 1)).(started := true)
    ensures var d := Attempt(c, CallActivity("act", ""));
            && d == c.(ids := Table([Entry(0, Action(0, ScheduleTask("act", "")))], map[0 := TaskRecord(0)], 1),
                       board := c.board.(cells := [Cell(TaskCell, Pending, Pending)]))
  {
  }

  /** After the first turn, with the activity acknowledged. */
  function Calling(now: int): Ctx {
    var c := Fresh(Engine(true, 1));
    c.(env := c.env.(now := now), started := true, ids := Table([], map[0 := TaskRecord(0)], 1),
       board := c.board.(cells := [Cell(TaskCell, Pending, Pending)]))
  }

  lemma CallTurnEnds() returns (last: M)
    ensures Reaches(CallThenContinue, Start(Fresh(Engine(true, 1)), [], FirstTurn(false)), 4, last)
    ensures Halted(CallThenContinue, last) && GoesOn(last)
    ensures last.mode == Blocked(0) && |last.trace| == 1
    ensures last.ctx == Calling(0).(ids := last.ctx.ids) && last.ctx.ids.(pending := []) == Calling(0).ids
  {
    hide Step, ProcessEvent, Attempt, Halted;
    var p := CallThenContinue;
    var c := Fresh(Engine(true, 1));
    var arrived := FirstTurn(false);
    last := Start(c, [], arrived);
    var start := last;
    FreshContextStarts(c);
    last := ThenEvent(p, start, 0, last, WorkflowStarted(0, {}));
    assert last.ctx == c && last.mode == NotStarted && last.trace == [] && last.hist == History([], arrived, true, 1);
    last := ThenEvent(p, start, 1, last, ExecutionStarted("w", ""));
    FirstCall(last.ctx);
    last := ThenOp(p, start, 2, last, Do(CallActivity("act", "")));
    last := ThenOp(p, start, 3, last, Await(0));
    EndsHere(p, last);
  }

  lemma StrandedEvents(c: Ctx)
    requires c == Calling(0)
    ensures Calling(0).board == Calling(1).board == Board([Cell(TaskCell, Pending, Pending)], Waits(map[], [], []))
    ensures ProcessEvent(c, STRANDING[0]).ctx == Calling(1)
    ensures ProcessEvent(Calling(1), STRANDING[1]).ctx == Calling(1).(suspended := true)
    ensures var s := Calling(1).(suspended := true);
            && ProcessEvent(s, STRANDING[2]).ctx == s.(held := [Unsupported])
            && ProcessEvent(s.(held := [Unsupported]), STRANDING[3]).ctx == s.(held := [Unsupported, RAISED])
            && ProcessEvent(s.(held := [Unsupported, RAISED]), STRANDING[4]).ctx == Calling(1).(held := [RAISED])
  {
    var s := Calling(1).(suspended := true);
    assert [Unsupported, RAISED][1..] == [RAISED];
    assert c.patches.history + {} == c.patches.history;
    assert Drain(s.(suspended := false, held := [Unsupported, RAISED])).ctx == Calling(1).(held := [RAISED]);
  }

  lemma ActivityCompletes(c: Ctx)
    requires c == Calling(1).(held := [RAISED])
    ensures var d := ProcessEvent(c, STRANDING[5]).ctx;
            && d.board.cells == [Cell(TaskCell, Value(""), Value(""))] && d.board.waits == c.board.waits
            && d.held == [RAISED] && !d.isComplete
  {
  }

  lemma CallBoundary(last: M)
    requires last.ctx == Calling(0).(ids := last.ctx.ids) && last.ctx.ids.(pending := []) == Calling(0).ids
    ensures forall arrived :: Boundary(last, arrived).ctx == Calling(0)
    ensures Met(last.ctx) == {}
  {
    assert Met(last.ctx) == {};
    assert last.ctx.patches.history + {} == last.ctx.patches.history;
  }

  /** A turn may end suspended with nothing pending, and the workflow goes on. */
  lemma {:induction false} SuspendedTurnGoesOn() returns (lasts: seq<M>)
    ensures |lasts| == 2 && RecordsInTime(lasts) && GoesOn(lasts[1]) && lasts[1].ctx.suspended
    ensures Execution(CallThenContinue, Engine(true, 1), [FirstTurn(false), STRANDING[..2]], lasts)
  {
    hide Step, Halted, Execution, Calling, NextPast, Reaches, GoesOn;
    var p := CallThenContinue;
    var arrived := STRANDING[..2];
    var first := CallTurnEnds();
    ContinuesFirst(Start(Fresh(Engine(true, 1)), [], FirstTurn(false)), first);
    OneTurn(p, Engine(true, 1), FirstTurn(false), first);
    CallBoundary(first);
    var m := SuspendedRun(Boundary(first, arrived));
    OneMoreTurn(p, Engine(true, 1), [FirstTurn(false)], [first], arrived, 2, m);
    lasts := [first, m];
    assert [FirstTurn(false)] + [arrived] == [FirstTurn(false), arrived] && [first] + [m] == lasts;
  }

  lemma SuspendedRun(b: M) returns (m: M)
    requires b.ctx == Calling(0) && b.mode == Blocked(0)
    requires b.hist.index == |b.hist.past| && !b.hist.onArrived && b.hist.arrived == STRANDING[..2]
    ensures Reaches(CallThenContinue, b, 2, m) && Halted(CallThenContinue, m)
    ensures m.mode == Blocked(0) && m.ctx == Calling(1).(suspended := true) && GoesOn(m) && Met(m.ctx) == {}
  {
    hide Step, Calling, ProcessEvent;
    StrandedEvents(b.ctx);
    StaysHere(CallThenContinue, b);
    m := ThenEvent(CallThenContinue, b, 0, b, STRANDING[0]);
    assert m == b.(ctx := Calling(1), hist := History(b.hist.past, STRANDING[..2], true, 1));
    m := ThenArrival(CallThenContinue, b, 1, m, Calling(1).(suspended := true));
    EndsHere(CallThenContinue, m);
    assert GoesOn(m) && Met(m.ctx) == {} by { CallingGoesOn(m); }
  }

  lemma CallingGoesOn(m: M)
    requires m.mode == Blocked(0) && m.ctx == Calling(1).(suspended := true)
    ensures GoesOn(m) && Met(m.ctx) == {}
  {
  }

  lemma StaysHere(p: Program, m: M)
    ensures Reaches(p, m, 0, m)
  {
  }

  lemma StrandedIsLost(m: M)
    requires m.ctx.board == Board([Cell(TaskCell, Value(""), Value(""))], Waits(map[], [], []))
    requires m.hist.arrived == STRANDING && m.hist.index == |STRANDING|
    ensures RAISED in Undelivered(m) && RAISED !in Carryover(m.ctx, m.hist)
  {
    var all := m.hist.past + m.hist.arrived;
    assert all[|m.hist.past| + 3] == RAISED;
    InRaised(all, RAISED);
    assert Delivered(m.ctx.board.cells) == multiset{};
  }

  lemma StrandingRun(start: M, n: nat, b: M) returns (m: M)
    requires Reaches(CallThenContinue, start, n, b) && b.ctx == Calling(0) && b.mode == Blocked(0) && |b.trace| == 1
    requires b.hist.index == |b.hist.past| && !b.hist.onArrived && b.hist.arrived == STRANDING
    ensures Reaches(CallThenContinue, start, n + 7, m)
    ensures Continues(CallThenContinue, m) && m.hist == History(b.hist.past, STRANDING, true, 6)
    ensures m.ctx.board == Board([Cell(TaskCell, Value(""), Value(""))], Waits(map[], [], []))
  {
    hide Step, ProcessEvent, Calling, Reaches;
    var p := CallThenContinue;
    StrandedEvents(b.ctx);
    var s := Calling(1).(suspended := true);
    m := ThenEvent(p, start, n, b, STRANDING[0]);
    assert m == b.(ctx := Calling(1), hist := History(b.hist.past, STRANDING, true, 1));
    m := ThenArrival(p, start, n + 1, m, s);
    m := ThenArrival(p, start, n + 2, m, s.(held := [Unsupported]));
    m := ThenArrival(p, start, n + 3, m, s.(held := [Unsupported, RAISED]));
    m := ThenArrival(p, start, n + 4, m, Calling(1).(held := [RAISED]));
    ActivityCompletes(m.ctx);
    m := ThenArrival(p, start, n + 5, m, ProcessEvent(m.ctx, STRANDING[5]).ctx);
    m := ThenDone(p, start, n + 6, m);
  }

  /** In an execution of two turns: an error in front of the raised event leaves it held when
      the execution resumes, and continue-as-new then does not carry it over. */
  lemma {:induction false} StrandedEventIsNotCarriedOver() returns (last: M, n: nat, m: M)
    ensures Execution(CallThenContinue, Engine(true, 1), [FirstTurn(false)], [last]) && GoesOn(last)
    ensures Reaches(CallThenContinue, Start(Fresh(Engine(true, 1)), NextPast(last), STRANDING), n, m)
    ensures Continues(CallThenContinue, m) && m.hist.onArrived
    ensures RAISED in Undelivered(m) && RAISED !in Carryover(m.ctx, m.hist)
  {
    hide Step, Halted, Execution, GoesOn, Calling, NextPast, Reaches;
    var p := CallThenContinue;
    var first := Start(Fresh(Engine(true, 1)), [], FirstTurn(false));
    last := CallTurnEnds();
    ContinuesFirst(first, last);
    OneTurn(p, Engine(true, 1), FirstTurn(false), last);
    InitialInv(true, 1);
    var steps := NextTurnRebuilds(p, first, 0, first, 4, last, STRANDING);
    CallBoundary(last);
    var start := Start(Fresh(Engine(true, 1)), NextPast(last), STRANDING);
    m := StrandingRun(start, steps, Boundary(last, STRANDING));
    n := steps + 7;
    StrandedIsLost(m);
  }

  lemma ContinuesFirst(first: M, last: M)
    requires first == Start(Fresh(Engine(true, 1)), [], FirstTurn(false))
    requires Reaches(CallThenContinue, first, 4, last) && Halted(CallThenContinue, last)
    ensures NeverAsksReplaying(CallThenContinue) && IsTurn(FirstTurn(false))
    ensures Reaches(CallThenContinue, first, 0, first) && AtBoundary(first) && RunsTo(CallThenContinue, first, last)
  {
    hide Step;
  }
}
