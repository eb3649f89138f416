/** The upgrade: whatever history the engine of before has recorded, turn by turn, the
    engine of today replays. */
module LegacyHistories {
  import opened WorkflowTypes
  import opened IdTable
  import opened ReplayContext
  import opened ContextInvariant
  import opened Machine
  import opened ReplayTurns
  import opened LegacyReplay

  // ----- conditions on consecutive stretches of a run -----

  lemma {:induction false} LegacyRunAdds(p: Program, m: M, parked: bool, a: nat, mid: M, b: nat)
    requires Reaches(p, m, a, mid)
    ensures LegacyRun(p, m, parked, a + b)
            <==> LegacyRun(p, m, parked, a) && LegacyRun(p, mid, ParkedAfter(p, m, parked, a), b)
    ensures ParkedAfter(p, m, parked, a + b) == ParkedAfter(p, mid, ParkedAfter(p, m, parked, a), b)
    decreases a
  {
    hide Step, LegacyStep, StillParked;
    if a > 0 {
      LegacyRunAdds(p, Step(p, m).value, StillParked(p, m, parked), a - 1, mid, b);
    }
  }

  // ----- the conditions do not depend on where in the history the events are -----

  lemma RebasedConditions(p: Program, m: M, parked: bool, past: seq<Event>, arrived: seq<Event>)
    requires !Halted(p, m) && StillReplaying(m) && StillReplaying(Step(p, m).value)
    requires m.hist.past <= past && HistoryOk(m.hist) && LegacyStep(p, m, parked)
    ensures LegacyStep(p, Rebase(m, past, arrived), parked)
    ensures !Halted(p, Rebase(m, past, arrived))
    ensures StillParked(p, Rebase(m, past, arrived), parked) == StillParked(p, m, parked)
  {
    hide Execute, ProcessEvent, Close, LegacyCall, LegacyInput, Parks;
    RebasedStep(p, m, past, arrived);
  }

  lemma {:induction false} RebasedLegacyRun(p: Program, m: M, parked: bool, n: nat, last: M, past: seq<Event>,
                                            arrived: seq<Event>)
    requires Reaches(p, m, n, last) && StillReplaying(last) && LegacyRun(p, m, parked, n)
    requires m.hist.past <= past && HistoryOk(m.hist)
    ensures LegacyRun(p, Rebase(m, past, arrived), parked, n)
    ensures ParkedAfter(p, Rebase(m, past, arrived), parked, n) == ParkedAfter(p, m, parked, n)
    decreases n
  {
    hide Step, LegacyStep, StillParked;
    if n > 0 {
      var next := Step(p, m).value;
      StepKeepsHistory(p, m);
      ReplayingBefore(p, next, n - 1, last);
      ReplayingBefore(p, m, n, last);
      RebasedStep(p, m, past, arrived);
      RebasedConditions(p, m, parked, past, arrived);
      RebasedLegacyRun(p, next, StillParked(p, m, parked), n - 1, last, past, arrived);
    }
  }

  lemma EventIgnoresPatches(c: Ctx, names: set<string>, e: Event)
    ensures LegacyEvent(MorePatches(c, names), e) == LegacyEvent(c, e)
  {
    hide EndRecord;
  }

  lemma {:induction false} LegacyDrainIgnoresPatches(c: Ctx, names: set<string>)
    ensures LegacyDrain(MorePatches(c, names)) == LegacyDrain(c)
    decreases |c.held|
  {
    hide Handle, LegacyEvent;
    if c.held != [] {
      var d := c.(held := c.held[1..]);
      assert MorePatches(c, names).(held := c.held[1..]) == MorePatches(d, names);
      EventIgnoresPatches(d, names, c.held[0]);
      HandleIgnoresPatches(d, names, c.held[0]);
      HandleKeepsHeld(d, c.held[0]);
      if !Handle(d, c.held[0]).threw {
        LegacyDrainIgnoresPatches(Handle(d, c.held[0]).ctx, names);
      }
    }
  }

  lemma InputIgnoresPatches(c: Ctx, names: set<string>, e: Event)
    ensures LegacyInput(MorePatches(c, names), e) == LegacyInput(c, e)
  {
    hide LegacyEvent, LegacyDrain;
    EventIgnoresPatches(c, names, e);
    assert MorePatches(c, names).(suspended := false) == MorePatches(c.(suspended := false), names);
    LegacyDrainIgnoresPatches(c.(suspended := false), names);
  }

  lemma ShadowConditions(p: Program, m: M, parked: bool, names: set<string>, past: seq<Event>, arrived: seq<Event>)
    requires !Halted(p, m) && m.hist.onArrived && HistoryOk(m.hist) && Records(past, m.hist)
    requires LegacyStep(p, m, parked) && !Halted(p, Shadow(m, names, past, arrived))
    requires Step(p, Shadow(m, names, past, arrived)).value == Shadow(Step(p, m).value, names, past, arrived)
    ensures LegacyStep(p, Shadow(m, names, past, arrived), parked)
    ensures StillParked(p, Shadow(m, names, past, arrived), parked) == StillParked(p, m, parked)
  {
    hide Step, LegacyInput, Perform, FindBuffered;
    if TakesEvents(m) {
      SomethingToTake(p, m);
      InputIgnoresPatches(m.ctx, names, m.hist.arrived[m.hist.index]);
      assert past[|m.hist.past| + m.hist.index] == m.hist.arrived[m.hist.index];
    }
  }

  lemma SomethingToTake(p: Program, m: M)
    requires TakesEvents(m) && m.hist.onArrived && !Halted(p, m)
    ensures m.hist.index < |m.hist.arrived|
  {
  }

  lemma {:induction false} ShadowLegacyRun(p: Program, m: M, parked: bool, n: nat, last: M, names: set<string>,
                                           past: seq<Event>, arrived: seq<Event>)
    requires Reaches(p, m, n, last) && !last.mode.Stopped? && !last.mode.Crashed? && Met(last.ctx) <= names
    requires m.hist.onArrived && HistoryOk(m.hist) && Records(past, m.hist) && NeverAsksReplaying(p)
    requires LegacyRun(p, m, parked, n)
    ensures LegacyRun(p, Shadow(m, names, past, arrived), parked, n)
    ensures ParkedAfter(p, Shadow(m, names, past, arrived), parked, n) == ParkedAfter(p, m, parked, n)
    decreases n
  {
    hide Step, LegacyStep, StillParked;
    if n > 0 {
      var next := Step(p, m).value;
      StepKeepsHistory(p, m);
      StoppedIsHalted(p, next);
      MetOnlyGrows(p, next, n - 1, last);
      ShadowStep(p, m, names, past, arrived);
      ShadowConditions(p, m, parked, names, past, arrived);
      ShadowLegacyRun(p, next, StillParked(p, m, parked), n - 1, last, names, past, arrived);
    }
  }

  /** The turn's leading event, recorded with the turn's patches. */
  lemma EnterConditions(p: Program, b: M, parked: bool, names: set<string>, past: seq<Event>, arrived: seq<Event>)
    requires AtBoundary(b) && IsTurn(b.hist.arrived) && |b.hist.past| < |past|
    requires past[|b.hist.past|] == Commit(b.hist.arrived, names)[0] && (b.ctx.suspended ==> names == {})
    ensures LegacyStep(p, Rebase(b, past, arrived), parked)
    ensures !Halted(p, b) && !Halted(p, Rebase(b, past, arrived))
    ensures StillParked(p, Rebase(b, past, arrived), parked) == StillParked(p, b, parked)
  {
    ShadowEnters(p, b, names, past, arrived);
  }

  // ----- the acknowledgements -----

  ghost predicate NoneOptional(pending: seq<Entry>) {
    forall i :: 0 <= i < |pending| ==> !IsOptional(pending[i])
  }

  lemma DropAllLeavesNone(t: Table)
    ensures NoneOptional(DropAll(t).pending)
    decreases |t.pending|
  {
    var i := FirstOptional(t.pending);
    if i < |t.pending| {
      DropShortens(t, i);
      DropAllLeavesNone(Drop(t, t.pending[i].key));
    }
  }

  lemma AckFitsHead(c: Ctx)
    requires Inv(c) && c.ids.pending != [] && CanBeAcknowledged(c.ids.pending) && NoneOptional(c.ids.pending)
    ensures LegacyInput(c, AckOf(c.ids.pending[0].action)) || c.suspended
  {
  }

  lemma {:induction false} AcksMeetConditions(p: Program, m: M, parked: bool)
    requires Inv(m.ctx) && CanBeAcknowledged(m.ctx.ids.pending) && NoneOptional(m.ctx.ids.pending)
    requires m.ctx.suspended ==> m.ctx.ids.pending == []
    requires TakesEvents(m) && !m.mode.NotStarted?
    requires !m.hist.onArrived && m.hist.index <= |m.hist.past|
    requires m.hist.past[m.hist.index..] == Acks(m.ctx.ids.pending)
    ensures LegacyRun(p, m, parked, |m.ctx.ids.pending|)
    ensures ParkedAfter(p, m, parked, |m.ctx.ids.pending|) == parked
    decreases |m.ctx.ids.pending|
  {
    hide Step, ProcessEvent, Inv, AckOf, LegacyInput, CanBeAcknowledged;
    var pending := m.ctx.ids.pending;
    if pending != [] {
      assert m.hist.past[m.hist.index] == m.hist.past[m.hist.index..][0];
      AckRemovesHead(m.ctx);
      AckFitsHead(m.ctx);
      var next := AckStep(p, m);
      assert next.hist.past[next.hist.index..] == m.hist.past[m.hist.index..][1..];
      assert Acks(pending)[1..] == Acks(pending[1..]);
      TailKeepsInv(m.ctx);
      assert CanBeAcknowledged(pending[1..]) by { TailCanBeAcknowledged(pending); }
      AcksMeetConditions(p, next, parked);
    }
  }

  lemma TailCanBeAcknowledged(pending: seq<Entry>)
    requires CanBeAcknowledged(pending) && pending != []
    ensures CanBeAcknowledged(pending[1..])
  {
  }

  // ----- executions of the engine of before -----

  /** In the new events of every turn, the engine of before respects the conditions: no
      wait directly after a parked one, completions for what an earlier turn emitted,
      no timer that looks like a synthetic one. `parked`: whether the last turn ends with
      a parked wait as the last thing that took an id. */
  ghost predicate LegacyTurns(p: Program, engine: Engine, turns: seq<seq<Event>>, lasts: seq<M>, parked: bool)
    decreases |turns|
  {
    && |turns| == |lasts| > 0
    && var k := |turns| - 1;
       exists before: bool, n: nat ::
         && (if k == 0 then !before else LegacyTurns(p, engine, turns[..k], lasts[..k], before))
         && RespectsFor(p, BoundaryOf(engine, turns, lasts), before, n, lasts[k], parked)
  }

  ghost predicate RespectsFor(p: Program, b: M, before: bool, n: nat, last: M, parked: bool) {
    Reaches(p, b, n, last) && LegacyRun(p, b, before, n) && parked == ParkedAfter(p, b, before, n)
  }

  /** One turn further: the conditions hold while the next turn replays this one. */
  lemma NextTurnMeetsConditions(p: Program, first: M, a: nat, b: M, n: nat, last: M, arrived: seq<Event>, parked: bool)
    requires Inv(first.ctx) && NeverAsksReplaying(p) && first.hist.index == 0 && !first.hist.onArrived
    requires Reaches(p, first, a, b) && AtBoundary(b) && IsTurn(b.hist.arrived)
    requires Reaches(p, b, n, last) && Halted(p, last) && GoesOn(last) && NoneOptional(last.ctx.ids.pending)
    requires b.ctx.suspended ==> Met(last.ctx) == {}
    requires LegacyRun(p, first, false, a + n) && parked == ParkedAfter(p, first, false, a + n)
    ensures var start := Rebase(first, NextPast(last), arrived);
            LegacyRun(p, start, false, a + n + |last.ctx.ids.pending|)
            && ParkedAfter(p, start, false, a + n + |last.ctx.ids.pending|) == parked
  {
    hide Step, Inv, AckOf, EndTurn, CanBeAcknowledged, LegacyStep, StillParked, NoneOptional;
    var names := Met(last.ctx);
    var past := NextPast(last);
    var flag := ParkedAfter(p, first, false, a);
    LegacyRunAdds(p, first, false, a, b, n);
    NextTurnReplays(p, first, a, b, n, last, arrived);
    RunKeepsHistory(p, first, a, b);
    RebasedLegacyRun(p, first, false, a, b, past, arrived);
    EnteredMeetsConditions(p, b, n, last, arrived, flag);
    var shadow := Shadow(last, names, past, arrived);
    RunKeepsInv(p, first, a, b);
    RunKeepsInv(p, b, n, last);
    PatchesKeepInv(last.ctx, names);
    AcksMeetConditions(p, shadow, parked);
    LegacyRunAdds(p, Rebase(first, past, arrived), false, a, Rebase(b, past, arrived), n);
    ReachesAdds(p, Rebase(first, past, arrived), a, Rebase(b, past, arrived), n, shadow);
    LegacyRunAdds(p, Rebase(first, past, arrived), false, a + n, shadow, |last.ctx.ids.pending|);
  }

  lemma EnteredMeetsConditions(p: Program, b: M, n: nat, last: M, arrived: seq<Event>, flag: bool)
    requires AtBoundary(b) && IsTurn(b.hist.arrived) && NeverAsksReplaying(p) && n > 0 && HistoryOk(b.hist)
    requires Reaches(p, b, n, last) && (last.mode.Blocked? || last.mode.Returned?) && LegacyRun(p, b, flag, n)
    requires last.hist == History(b.hist.past, b.hist.arrived, true, |b.hist.arrived|)
    requires b.ctx.suspended ==> Met(last.ctx) == {}
    ensures LegacyRun(p, Rebase(b, NextPast(last), arrived), flag, n)
    ensures ParkedAfter(p, Rebase(b, NextPast(last), arrived), flag, n) == ParkedAfter(p, b, flag, n)
  {
    hide Step, LegacyStep, StillParked, Shadow, Rebase, NextPast, Commit;
    var names := Met(last.ctx);
    var past := NextPast(last);
    PastRecords(b, last);
    EnterConditions(p, b, flag, names, past, arrived);
    ShadowEnters(p, b, names, past, arrived);
    var entered := Step(p, b).value;
    ShadowLegacyRun(p, entered, StillParked(p, b, flag), n - 1, last, names, past, arrived);
  }

  /** So the conditions, asked for in each turn's new events only, hold in every replay. */
  lemma {:induction false} TurnsMeetConditions(p: Program, maxInterval: int, turns: seq<seq<Event>>, lasts: seq<M>,
                                               parked: bool) returns (n: nat)
    requires var e := Engine(false, maxInterval);
             Execution(p, e, turns, lasts) && LegacyTurns(p, e, turns, lasts, parked) && NeverAsksReplaying(p)
    ensures var first := First(Engine(false, maxInterval), turns, lasts);
            Reaches(p, first, n, lasts[|lasts| - 1]) && LegacyRun(p, first, false, n) && ParkedAfter(p, first, false, n) == parked
    decreases |turns|
  {
    hide Step, Inv, EndTurn, IsTurn, Boundary, NextPast, CanBeAcknowledged, LegacyRun, ParkedAfter, NoneOptional;
    var e := Engine(false, maxInterval);
    var k := |turns| - 1;
    var first := First(e, turns, lasts);
    var before: bool, m: nat :|
      && (if k == 0 then !before else LegacyTurns(p, e, turns[..k], lasts[..k], before))
      && RespectsFor(p, BoundaryOf(e, turns, lasts), before, m, lasts[k], parked);
    if k == 0 {
      n := m;
    } else {
      var n' := TurnsMeetConditions(p, maxInterval, turns[..k], lasts[..k], before);
      var first' := First(e, turns[..k], lasts[..k]);
      var a, r := ReplayRebuilds(p, e, turns[..k], lasts[..k]);
      var b := BoundaryOf(e, turns[..k], lasts[..k]);
      ReachesSplits(p, first', a, b, n', lasts[k - 1]);
      RelatedLeavesNone(p, maxInterval, first', n', lasts[k - 1]);
      var steps := NextTurnRebuilds(p, first', a, b, n' - a, lasts[k - 1], turns[k]);
      NextTurnMeetsConditions(p, first', a, b, n' - a, lasts[k - 1], turns[k], before);
      assert Rebase(first', NextPast(lasts[k - 1]), turns[k]) == first;
      LegacyRunAdds(p, first, false, steps, BoundaryOf(e, turns, lasts), m);
      ReachesAdds(p, first, steps, BoundaryOf(e, turns, lasts), m, lasts[k]);
      n := steps + m;
    }
  }

  lemma RelatedLeavesNone(p: Program, maxInterval: int, first: M, n: nat, last: M)
    requires first == Start(Initial(false, maxInterval), first.hist.past, first.hist.arrived)
    requires Reaches(p, first, n, last) && LegacyRun(p, first, false, n)
    ensures NoneOptional(last.ctx.ids.pending)
  {
    hide Step, LegacyRun, Inv, DropAll, Guarded;
    var last' := LegacyReplay.LegacyReplay(p, maxInterval, first.hist.past, first.hist.arrived, n, last);
    DropAllLeavesNone(last'.ctx.ids);
  }

  /** The engine of before has executed any number of turns and the workflow goes on; then
      the engine of today takes over with the history that was recorded. It gets to its
      first new events without refusing anything, in the state in which the engine of
      before would be there: same replies, tasks and waits, everything that was emitted
      acknowledged, and nothing pending but the synthetic timer of a wait parked last. */
  lemma {:induction false} RecordedHistoryReplays(p: Program, maxInterval: int, turns: seq<seq<Event>>, lasts: seq<M>,
                                                  parked: bool, arrived: seq<Event>) returns (steps: nat, cur: M)
    requires var e := Engine(false, maxInterval);
             Execution(p, e, turns, lasts) && LegacyTurns(p, e, turns, lasts, parked) && NeverAsksReplaying(p)
    requires GoesOn(lasts[|lasts| - 1]) && RecordsInTime(lasts)
    ensures var last := lasts[|lasts| - 1];
            && Reaches(p, Start(Initial(true, maxInterval), NextPast(last), arrived), steps, cur)
            && RelatedM(cur, Boundary(last, arrived), parked) && AtBoundary(cur)
            && |cur.ctx.ids.pending| <= (if parked then 1 else 0)
            && (forall i :: 0 <= i < |cur.ctx.ids.pending| ==> IsOptional(cur.ctx.ids.pending[i]))
  {
    hide Step, Inv, EndTurn, IsTurn, NextPast, CanBeAcknowledged, LegacyRun, ParkedAfter, NoneOptional, Related;
    var e := Engine(false, maxInterval);
    var k := |turns| - 1;
    var last := lasts[k];
    var n := TurnsMeetConditions(p, maxInterval, turns, lasts, parked);
    var first := First(e, turns, lasts);
    var a, r := ReplayRebuilds(p, e, turns, lasts);
    var b := BoundaryOf(e, turns, lasts);
    ReachesSplits(p, first, a, b, n, last);
    RelatedLeavesNone(p, maxInterval, first, n, last);
    steps := NextTurnRebuilds(p, first, a, b, n - a, last, arrived);
    NextTurnMeetsConditions(p, first, a, b, n - a, last, arrived, parked);
    StartRelates(maxInterval, NextPast(last), arrived);
    var start := Start(Initial(false, maxInterval), NextPast(last), arrived);
    assert Rebase(first, NextPast(last), arrived) == start;
    cur := StaysRelated(p, Start(Initial(true, maxInterval), NextPast(last), arrived), start, false, steps, Boundary(last, arrived));
    OnlyTrailingLeft(cur.ctx, Boundary(last, arrived).ctx, parked);
    RelatedAtBoundary(cur, Boundary(last, arrived), parked);
  }

  lemma RelatedAtBoundary(cur: M, leg: M, parked: bool)
    requires RelatedM(cur, leg, parked) && AtBoundary(leg)
    ensures AtBoundary(cur)
  {
  }

  lemma OnlyTrailingLeft(cur: Ctx, leg: Ctx, parked: bool)
    requires Related(cur, leg) && leg.ids.pending == [] && (TrailingOptional(cur.ids) ==> parked)
    ensures |cur.ids.pending| <= (if parked then 1 else 0)
    ensures forall i :: 0 <= i < |cur.ids.pending| ==> IsOptional(cur.ids.pending[i])
  {
    hide DropAll;
    NothingLeft(cur.ids);
    if cur.ids.pending != [] && !IsOptional(cur.ids.pending[0]) {
      DropAllThenTail(cur.ids);
    }
  }

  // ----- such executions exist -----

  lemma RespectsNext(p: Program, b: M, before: bool, n: nat, m: M, flag: bool)
    requires RespectsFor(p, b, before, n, m, flag) && !Halted(p, m) && LegacyStep(p, m, flag)
    ensures RespectsFor(p, b, before, n + 1, Step(p, m).value, StillParked(p, m, flag))
  {
    hide Step, LegacyStep, StillParked;
    OneMoreStep(p, b, n, m);
    LegacyRunAdds(p, b, before, n, m, 1);
    assert LegacyRun(p, m, flag, 1) && ParkedAfter(p, m, flag, 1) == StillParked(p, m, flag);
  }

  lemma RespectsEvent(p: Program, b: M, before: bool, n: nat, m: M, flag: bool, e: Event) returns (next: M)
    requires RespectsFor(p, b, before, n, m, flag) && TakesEvents(m)
    requires MoveOn(m.hist).index < |Current(MoveOn(m.hist))| && Current(MoveOn(m.hist))[MoveOn(m.hist).index] == e
    requires e.WorkflowStarted? || e.ExecutionStarted? || e.EventRaised?
    requires !m.ctx.suspended && ProcessEvent(m.ctx, e).ctx.ids == m.ctx.ids && !ProcessEvent(m.ctx, e).threw
    ensures next == Receive(m.(hist := MoveOn(m.hist).(index := MoveOn(m.hist).index + 1)), e)
    ensures RespectsFor(p, b, before, n + 1, next, flag)
  {
    hide ProcessEvent, RespectsFor;
    next := Step(p, m).value;
    RespectsNext(p, b, before, n, m, flag);
  }

  lemma RespectsCall(p: Program, b: M, before: bool, n: nat, m: M, flag: bool, call: Call) returns (next: M)
    requires RespectsFor(p, b, before, n, m, flag) && m.mode.Running? && p(m.trace) == Do(call)
    requires LegacyCall(m.ctx, flag, call)
    ensures next == Execute(m, Do(call))
    ensures RespectsFor(p, b, before, n + 1, next,
                        Parks(m.ctx, call) || (flag && next.ctx.ids.next == m.ctx.ids.next))
  {
    hide Attempt, RespectsFor, LegacyCall, Parks;
    next := Step(p, m).value;
    RespectsNext(p, b, before, n, m, flag);
  }

  lemma RespectsAwait(p: Program, b: M, before: bool, n: nat, m: M, flag: bool, task: nat) returns (next: M)
    requires RespectsFor(p, b, before, n, m, flag) && m.mode.Running? && p(m.trace) == Await(task)
    ensures next == m.(mode := Blocked(task)) && RespectsFor(p, b, before, n + 1, next, flag)
  {
    hide RespectsFor;
    next := Step(p, m).value;
    RespectsNext(p, b, before, n, m, flag);
  }

  lemma RespectsDone(p: Program, b: M, before: bool, n: nat, m: M, flag: bool) returns (next: M)
    requires RespectsFor(p, b, before, n, m, flag) && m.mode.Blocked? && AwaitDone(m.ctx, m.mode.task)
    ensures next == Continue(m, m.ctx, Result(m.ctx.board.cells[m.mode.task].visible)).(mode := Running)
    ensures RespectsFor(p, b, before, n + 1, next, flag)
  {
    hide RespectsFor;
    next := Step(p, m).value;
    RespectsNext(p, b, before, n, m, flag);
  }

  /** Awaits an event without a timeout, then an activity. */
  function WaitThenWork(trace: seq<Reply>): Op {
    if |trace| == 0 then Do(WaitForEvent("e", None))
    else if |trace| == 1 then Await(0)
    else if |trace| == 2 then Do(CallActivity("act", ""))
    else if |trace| == 3 then Await(1)
    else Return
  }

  const TURN_ONE: seq<Event> := [WorkflowStarted(0, {}), ExecutionStarted("w", "")]
  const TURN_TWO: seq<Event> := [WorkflowStarted(1, {}), EventRaised(0, "e", "")]

  /** The legacy context once the wait is parked. */
  function Waiting(now: int): Ctx {
    Fresh(Engine(false, 1)).(
      env := Env(now, 1, false), started := true, ids := Table([], map[], 1),
      board := Board([Cell(EventCell("e", Some(0)), Pending, Pending)], Waits(map["e" := 0], [[0]], [])))
  }

  lemma WaitParksFirst(c: Ctx)
    requires c == Fresh(Engine(false, 1)).(started := true)
    ensures Attempt(c, WaitForEvent("e", None)) == Waiting(0) && !AwaitDone(Waiting(0), 0)
    ensures LegacyCall(c, false, WaitForEvent("e", None)) && Parks(c, WaitForEvent("e", None))
  {
  }

  lemma FirstTurn() returns (last: M)
    ensures RespectsFor(WaitThenWork, Start(Fresh(Engine(false, 1)), [], TURN_ONE), false, 4, last, true)
    ensures last.mode == Blocked(0) && last.ctx == Waiting(0) && |last.trace| == 1
    ensures last.hist == History([], TURN_ONE, true, 2) && Halted(WaitThenWork, last)
  {
    hide Step, Halted, Attempt, LegacyCall, Parks, RespectsFor, Waiting;
    var p := WaitThenWork;
    var c := Fresh(Engine(false, 1));
    var m := Start(c, [], TURN_ONE);
    var start := m;
    assert RespectsFor(p, start, false, 0, m, false) by { StartsRespecting(p, start); }
    StartEvents(c);
    m := RespectsEvent(p, start, false, 0, m, false, TURN_ONE[0]);
    m := RespectsEvent(p, start, false, 1, m, false, TURN_ONE[1]);
    assert m.ctx == c.(started := true) && m.mode == Running && m.trace == [];
    WaitParksFirst(m.ctx);
    m := RespectsCall(p, start, false, 2, m, false, WaitForEvent("e", None));
    last := RespectsAwait(p, start, false, 3, m, true, 0);
    assert Halted(p, last) by { WaitingHalts(p, last); }
  }

  lemma StartsRespecting(p: Program, m: M)
    ensures RespectsFor(p, m, false, 0, m, false)
  {
  }

  lemma StartEvents(c: Ctx)
    requires c == Fresh(Engine(false, 1))
    ensures ProcessEvent(c, TURN_ONE[0]) == Handled(c, false)
    ensures ProcessEvent(c, TURN_ONE[1]) == Handled(c.(started := true), false)
  {
  }

  lemma WaitingHalts(p: Program, m: M)
    requires m.mode.Blocked? && !AwaitDone(m.ctx, m.mode.task) && m.hist.onArrived && m.hist.index == |m.hist.arrived|
    ensures Halted(p, m)
  {
  }

  /** The context after the event was delivered. */
  function Delivered(): Ctx {
    var o := Received(TURN_TWO[1]);
    Waiting(1).(board := Board([Cell(EventCell("e", Some(0)), o, o)], Waits(map[], [[]], [])))
  }

  lemma SecondTurnEvents()
    ensures ProcessEvent(Waiting(0), TURN_TWO[0]) == Handled(Waiting(1), false)
    ensures ProcessEvent(Waiting(1), TURN_TWO[1]) == Handled(Delivered(), false)
  {
    assert map["e" := 0] - {"e"} == map[];
  }

  lemma WorkStarts()
    ensures LegacyCall(Delivered(), true, CallActivity("act", "")) && !Parks(Delivered(), CallActivity("act", ""))
    ensures var d := Attempt(Delivered(), CallActivity("act", ""));
            && d.ids.next == 2 && d.ids.pending == [Entry(1, Action(1, ScheduleTask("act", "")))]
            && |d.board.cells| == 2 && d.board.cells[1].visible.Pending? && !d.isComplete && !d.suspended
            && d.patches.encountered == []
  {
  }

  lemma SecondTurn(b: M) returns (last: M)
    requires b.ctx == Waiting(0) && b.mode == Blocked(0) && |b.trace| == 1
    requires b.hist.index == |b.hist.past| && !b.hist.onArrived && b.hist.arrived == TURN_TWO
    ensures RespectsFor(WaitThenWork, b, true, 5, last, false)
    ensures last.mode == Blocked(1) && last.ctx.ids.pending == [Entry(1, Action(1, ScheduleTask("act", "")))]
    ensures GoesOn(last) && Met(last.ctx) == {} && Halted(WaitThenWork, last)
    ensures last.hist.past == b.hist.past && last.hist.arrived == TURN_TWO
  {
    hide Step, Halted, Attempt, LegacyCall, Parks, RespectsFor, ProcessEvent;
    var p := WaitThenWork;
    var m := b;
    assert RespectsFor(p, b, true, 0, b, true) by { StillRespecting(p, b); }
    SecondTurnEvents();
    WorkStarts();
    m := RespectsEvent(p, b, true, 0, m, true, TURN_TWO[0]);
    m := RespectsEvent(p, b, true, 1, m, true, TURN_TWO[1]);
    m := RespectsDone(p, b, true, 2, m, true);
    assert m.ctx == Delivered() && |m.trace| == 2;
    m := RespectsCall(p, b, true, 3, m, true, CallActivity("act", ""));
    last := RespectsAwait(p, b, true, 4, m, false, 1);
    assert Halted(p, last) by { WaitingHalts(p, last); }
  }

  lemma StillRespecting(p: Program, m: M)
    ensures RespectsFor(p, m, true, 0, m, true)
  {
  }

  lemma RespectingReaches(p: Program, b: M, before: bool, n: nat, last: M, parked: bool)
    requires RespectsFor(p, b, before, n, last, parked) && Halted(p, last)
    ensures RunsTo(p, b, last) && Reaches(p, b, n, last)
  {
    hide Step, LegacyStep, StillParked;
  }

  lemma BoundaryAfterFirst(last: M)
    requires last.mode == Blocked(0) && last.ctx == Waiting(0)
    ensures Boundary(last, TURN_TWO).ctx == Waiting(0)
    ensures Boundary(last, TURN_TWO).mode == Blocked(0) && Boundary(last, TURN_TWO).trace == last.trace
    ensures Boundary(last, TURN_TWO).hist == History(NextPast(last), TURN_TWO, false, |NextPast(last)|)
    ensures GoesOn(last)
  {
    assert Met(last.ctx) == {};
    assert last.ctx.patches.history + {} == last.ctx.patches.history;
    assert MorePatches(last.ctx, {}) == last.ctx;
  }

  lemma FirstTurnIsExecution(last: M)
    requires RespectsFor(WaitThenWork, Start(Fresh(Engine(false, 1)), [], TURN_ONE), false, 4, last, true)
    requires Halted(WaitThenWork, last)
    ensures Execution(WaitThenWork, Engine(false, 1), [TURN_ONE], [last])
    ensures LegacyTurns(WaitThenWork, Engine(false, 1), [TURN_ONE], [last], true)
  {
    hide Step, Halted, RespectsFor;
    var e := Engine(false, 1);
    var start := Start(Fresh(e), [], TURN_ONE);
    RespectingReaches(WaitThenWork, start, false, 4, last, true);
    assert [TURN_ONE][0] == TURN_ONE;
    assert First(e, [TURN_ONE], [last]) == start && BoundaryOf(e, [TURN_ONE], [last]) == start;
  }

  lemma SecondTurnIsExecution(last1: M, last2: M)
    requires Execution(WaitThenWork, Engine(false, 1), [TURN_ONE], [last1])
    requires LegacyTurns(WaitThenWork, Engine(false, 1), [TURN_ONE], [last1], true)
    requires GoesOn(last1) && NeverAsksReplaying(WaitThenWork)
    requires RespectsFor(WaitThenWork, Boundary(last1, TURN_TWO), true, 5, last2, false) && Halted(WaitThenWork, last2)
    ensures Execution(WaitThenWork, Engine(false, 1), [TURN_ONE, TURN_TWO], [last1, last2])
    ensures LegacyTurns(WaitThenWork, Engine(false, 1), [TURN_ONE, TURN_TWO], [last1, last2], false)
  {
    hide Step, Halted, RespectsFor, GoesOn, NextPast, Boundary, WaitThenWork, Inv;
    var p, e := WaitThenWork, Engine(false, 1);
    var turns, lasts := [TURN_ONE, TURN_TWO], [last1, last2];
    assert turns == [TURN_ONE] + [TURN_TWO] && lasts == [last1] + [last2];
    assert turns[..1] == [TURN_ONE] && lasts[..1] == [last1];
    RespectingReaches(p, Boundary(last1, TURN_TWO), true, 5, last2, false);
    OneMoreTurn(p, e, [TURN_ONE], [last1], TURN_TWO, 5, last2);
    assert BoundaryOf(e, turns, lasts) == Boundary(last1, TURN_TWO);
    assert LegacyTurns(p, e, turns[..1], lasts[..1], true);
    assert RespectsFor(p, BoundaryOf(e, turns, lasts), true, 5, lasts[1], false);
  }

  lemma CommitNothing(arrived: seq<Event>)
    ensures Commit(arrived, {}) == arrived
  {
    if arrived != [] && arrived[0].WorkflowStarted? {
      assert arrived[0].patches + {} == arrived[0].patches;
    }
  }

  lemma RecordedPast(last1: M, last2: M)
    requires last1.hist == History([], TURN_ONE, true, 2) && last1.ctx == Waiting(0)
    requires last2.hist.past == NextPast(last1) && last2.hist.arrived == TURN_TWO && Met(last2.ctx) == {}
    requires last2.ctx.ids.pending == [Entry(1, Action(1, ScheduleTask("act", "")))]
    ensures NextPast(last2) == TURN_ONE + TURN_TWO + [TaskScheduled(1)]
  {
    CommitNothing(TURN_ONE);
    CommitNothing(TURN_TWO);
    assert Met(last1.ctx) == {};
    assert NextPast(last1) == TURN_ONE;
  }

  /** A wait that was awaited and got its event in the second turn, and then an activity:
      the engine of before records an execution that meets all the conditions, with the
      activity under the id after the wait's. */
  lemma {:induction false} LegacyExecutionExists() returns (lasts: seq<M>)
    ensures |lasts| == 2 && NeverAsksReplaying(WaitThenWork) && GoesOn(lasts[1])
    ensures Execution(WaitThenWork, Engine(false, 1), [TURN_ONE, TURN_TWO], lasts)
    ensures LegacyTurns(WaitThenWork, Engine(false, 1), [TURN_ONE, TURN_TWO], lasts, false)
    ensures NextPast(lasts[1]) == TURN_ONE + TURN_TWO + [TaskScheduled(1)]
  {
    hide Step, Halted, RespectsFor, Waiting, Execution, LegacyTurns, Boundary, NextPast;
    var p, e := WaitThenWork, Engine(false, 1);
    var last1 := FirstTurn();
    var start := Start(Fresh(e), [], TURN_ONE);
    RespectingReaches(p, start, false, 4, last1, true);
    FirstTurnIsExecution(last1);
    BoundaryAfterFirst(last1);
    var last2 := SecondTurn(Boundary(last1, TURN_TWO));
    SecondTurnIsExecution(last1, last2);
    RecordedPast(last1, last2);
    lasts := [last1, last2];
  }
}
