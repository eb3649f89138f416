/** What an orchestrator is told when it asks: the time, whether it is replaying, whether a
    task is done, and whether a patch applies. */
module Replies {
  import opened WorkflowTypes
  import opened IdTable
  import opened ReplayContext
  import opened ContextInvariant
  import opened Machine
  import opened CarryOver
  import opened ReplayTurns

  // ----- the time -----

  /** The timestamp of the latest start of a turn among the events. */
  function LatestStart(events: seq<Event>): int {
    if events == [] then 0
    else if events[|events| - 1].WorkflowStarted? then events[|events| - 1].timestamp
    else LatestStart(events[..|events| - 1])
  }

  /** The patches that the starts of turns among the events carry. */
  function PatchesOf(events: seq<Event>): set<string> {
    if events == [] then {}
    else
      PatchesOf(events[..|events| - 1]) +
      (if events[|events| - 1].WorkflowStarted? then events[|events| - 1].patches else {})
  }

  ghost predicate NeverSuspends(events: seq<Event>) {
    forall i :: 0 <= i < |events| ==> !events[i].ExecutionSuspended?
  }

  /** The clock and the recorded patches are those of the events so far. */
  ghost predicate UpToDate(c: Ctx, seen: seq<Event>) {
    && !c.suspended && c.held == []
    && c.env.now == LatestStart(seen) && c.patches.history == PatchesOf(seen)
  }

  lemma EndTaskKeepsRest(c: Ctx, id: int, o: Outcome)
    ensures var d := EndTask(c, id, o);
            d.env == c.env && d.patches == c.patches && d.suspended == c.suspended && d.held == c.held
  {
    hide EndRecord, Allot;
  }

  lemma ProcessUpdates(c: Ctx, e: Event, seen: seq<Event>)
    requires UpToDate(c, seen) && !e.ExecutionSuspended?
    ensures UpToDate(ProcessEvent(c, e).ctx, seen + [e])
  {
    hide EndTask, RaiseEvent, Acknowledge, Put;
    assert (seen + [e])[..|seen|] == seen;
    assert c.(suspended := false) == c;
    if Ending(e).Some? { EndTaskKeepsRest(c, Ending(e).value.0, Ending(e).value.1); }
    assert PatchesOf(seen) + {} == PatchesOf(seen);
  }

  lemma ExecuteUpdates(m: M, op: Op, seen: seq<Event>)
    requires UpToDate(m.ctx, seen)
    ensures UpToDate(Execute(m, op).ctx, seen) && Execute(m, op).hist == m.hist
  {
    hide Perform, Allot, LatestStart, PatchesOf, Put;
  }

  lemma StepUpdates(p: Program, m: M)
    requires HistoryOk(m.hist) && UpToDate(m.ctx, Taken(m.hist)) && !Halted(p, m)
    requires NeverSuspends(m.hist.past) && NeverSuspends(m.hist.arrived)
    ensures var n := Step(p, m).value; HistoryOk(n.hist) && UpToDate(n.ctx, Taken(n.hist))
  {
    hide Execute, ProcessEvent, Taken, UpToDate, Close;
    StepKeepsHistory(p, m);
    if m.mode.Running? {
      ExecuteUpdates(m, p(m.trace), Taken(m.hist));
    } else if TakesEvents(m) {
      var h := MoveOn(m.hist);
      var e := Current(h)[h.index];
      TakeOne(m.hist);
      ProcessUpdates(m.ctx, e, Taken(m.hist));
      CloseUpdates(ProcessEvent(m.ctx, e).ctx, FAILED, "", {}, Taken(m.hist) + [e]);
    }
  }

  lemma CloseUpdates(c: Ctx, status: Status, output: string, carryover: set<Event>, seen: seq<Event>)
    requires UpToDate(c, seen)
    ensures UpToDate(Close(c, status, output, carryover), seen)
  {
    hide Put, LatestStart, PatchesOf;
  }

  lemma {:induction false} RunUpdates(p: Program, m: M, n: nat, last: M)
    requires HistoryOk(m.hist) && UpToDate(m.ctx, Taken(m.hist)) && Reaches(p, m, n, last)
    requires NeverSuspends(m.hist.past) && NeverSuspends(m.hist.arrived)
    ensures HistoryOk(last.hist) && UpToDate(last.ctx, Taken(last.hist))
    decreases n
  {
    hide Step, UpToDate, Taken;
    if n > 0 {
      StepKeepsHistory(p, m);
      StepUpdates(p, m);
      RunUpdates(p, Step(p, m).value, n - 1, last);
    }
  }

  lemma UpToDateAtStart(engine: Engine, past: seq<Event>, arrived: seq<Event>)
    ensures var start := Start(Fresh(engine), past, arrived);
            HistoryOk(start.hist) && UpToDate(start.ctx, Taken(start.hist))
  {
    assert past[..0] == [];
  }

  /** At every point of a turn without suspensions: an orchestrator that asks for the time is
      told the timestamp of the latest turn it has seen start; one that asks whether it is
      replaying is told so exactly until its first new event is taken; and one that asks
      whether a task is done is told so exactly if the task has an outcome. */
  lemma {:induction false} ToldExactly(p: Program, engine: Engine, past: seq<Event>, arrived: seq<Event>, n: nat, m: M)
    requires NeverSuspends(past) && NeverSuspends(arrived)
    requires Reaches(p, Start(Fresh(engine), past, arrived), n, m) && m.mode.Running?
    ensures HistoryOk(m.hist) && !Halted(p, m)
    ensures var told := Step(p, m).value.trace;
            && (p(m.trace).GetInstant? ==> told == m.trace + [Instant(LatestStart(Taken(m.hist)))])
            && (p(m.trace).IsReplaying? ==> told == m.trace + [Flag(|Taken(m.hist)| <= |past|)])
            && (p(m.trace).IsDone? ==>
                  var x := p(m.trace).task;
                  var cells := m.ctx.board.cells;
                  told == m.trace + [Flag(x < |cells| && cells[x].future != Pending)])
  {
    hide Reaches, LatestStart, PatchesOf;
    UpToDateAtStart(engine, past, arrived);
    RunUpdates(p, Start(Fresh(engine), past, arrived), n, m);
    RunKeepsHistory(p, Start(Fresh(engine), past, arrived), n, m);
  }

  // ----- patches -----

  lemma StepKeepsUnasked(p: Program, m: M, name: string)
    requires !Halted(p, m) && name !in m.ctx.patches.applied && !(m.mode.Running? && p(m.trace) == IsPatched(name))
    ensures name !in Step(p, m).value.ctx.patches.applied
  {
    hide Perform, Allot, ProcessEvent, Put;
    if TakesEvents(m) {
      var h := MoveOn(m.hist);
      ProcessKeepsEncountered(m.ctx, Current(h)[h.index]);
    }
  }

  /** None of the first n steps asks for the patch. */
  ghost predicate NeverAsks(p: Program, m: M, n: nat, name: string)
    decreases n
  {
    n > 0 && !Halted(p, m) ==>
      !(m.mode.Running? && p(m.trace) == IsPatched(name)) && NeverAsks(p, Step(p, m).value, n - 1, name)
  }

  lemma {:induction false} RunKeepsUnasked(p: Program, m: M, n: nat, last: M, name: string)
    requires Reaches(p, m, n, last) && NeverAsks(p, m, n, name) && name !in m.ctx.patches.applied
    ensures name !in last.ctx.patches.applied
    decreases n
  {
    hide Step;
    if n > 0 {
      StepKeepsUnasked(p, m, name);
      RunKeepsUnasked(p, Step(p, m).value, n - 1, last, name);
    }
  }

  /** The first time a turn without suspensions asks for a patch, it is told that it applies
      exactly if a turn that it has seen start carries the patch, or the replay is over. */
  lemma {:induction false} PatchAppliesExactlyWhen(p: Program, engine: Engine, past: seq<Event>, arrived: seq<Event>,
                                                   n: nat, m: M, name: string)
    requires NeverSuspends(past) && NeverSuspends(arrived)
    requires Reaches(p, Start(Fresh(engine), past, arrived), n, m) && m.mode.Running? && p(m.trace) == IsPatched(name)
    requires NeverAsks(p, Start(Fresh(engine), past, arrived), n, name)
    ensures HistoryOk(m.hist) && !Halted(p, m)
    ensures var applies := name in PatchesOf(Taken(m.hist)) || |Taken(m.hist)| > |past|;
            var next := Step(p, m).value;
            && next.trace == m.trace + [Flag(applies)]
            && (name in Met(next.ctx) <==> name in Met(m.ctx) || applies)
            && (forall other :: other != name ==> (other in Met(next.ctx) <==> other in Met(m.ctx)))
  {
    hide Reaches, LatestStart, PatchesOf, NeverAsks;
    UpToDateAtStart(engine, past, arrived);
    var start := Start(Fresh(engine), past, arrived);
    RunUpdates(p, start, n, m);
    RunKeepsHistory(p, start, n, m);
    RunKeepsUnasked(p, start, n, m, name);
  }
}
