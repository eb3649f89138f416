/** Replay over a whole sequence of turns: every turn reruns the orchestrator from the
    beginning on the recorded history, and yet the turns together do exactly what one
    uninterrupted execution would have done. */
module ReplayTurns {
  import opened WorkflowTypes
  import opened IdTable
  import opened ReplayContext
  import opened ContextInvariant
  import opened Machine

  // ----- what is recorded between two turns -----

  /** The history event that acknowledges an emitted action. */
  function AckOf(a: Action): Event {
    match a.body
    case ScheduleTask(_, _) => TaskScheduled(a.id)
    case CreateChild(_, _, _) => ChildCreated(a.id)
    case CreateTimer(_, fireAt, origin) => TimerCreated(a.id, fireAt, origin)
    case SendEvent(_, _, _) => Unsupported
    case CompleteWorkflow(_, _, _) => Noted
  }

  function Acks(pending: seq<Entry>): (r: seq<Event>)
    ensures |r| == |pending|
    ensures forall i :: 0 <= i < |pending| ==> r[i] == AckOf(pending[i].action)
  {
    seq(|pending|, i requires 0 <= i < |pending| => AckOf(pending[i].action))
  }

  /** The turn's leading event is recorded together with the patches met so far. */
  function Commit(arrived: seq<Event>, patches: set<string>): (r: seq<Event>)
    ensures |r| == |arrived|
    ensures forall i :: 1 <= i < |arrived| ==> r[i] == arrived[i]
  {
    if arrived != [] && arrived[0].WorkflowStarted? then
      [WorkflowStarted(arrived[0].timestamp, arrived[0].patches + patches)] + arrived[1..]
    else arrived
  }

  function Met(c: Ctx): set<string> {
    set name | name in c.patches.encountered
  }

  /** The past events of the turn after the one that ended in `last`. */
  function NextPast(last: M): seq<Event> {
    last.hist.past + Commit(last.hist.arrived, Met(last.ctx)) + Acks(last.ctx.ids.pending)
  }

  /** A turn brings a workflow-started event and then anything but acknowledgements. */
  predicate IsTurn(arrived: seq<Event>) {
    && arrived != []
    && arrived[0].WorkflowStarted?
    && forall i :: 0 <= i < |arrived| ==> !IsAcknowledgement(arrived[i])
  }

  predicate CanBeAcknowledged(pending: seq<Entry>) {
    forall i :: 0 <= i < |pending| ==> !pending[i].action.body.SendEvent? && !pending[i].action.body.CompleteWorkflow?
  }

  /** The workflow goes on after a turn that ended in `last`: it is not complete, everything
      it emitted has an acknowledgement, and if it is suspended, nothing was emitted. */
  predicate GoesOn(last: M) {
    && (last.mode.Blocked? || last.mode.Returned?)
    && !EndTurn(last).isComplete
    && CanBeAcknowledged(last.ctx.ids.pending)
    && (last.ctx.suspended ==> last.ctx.ids.pending == [])
  }

  /** A turn that starts suspended holds back the event that its patches are recorded with,
      so it has none to record. */
  predicate RecordsInTime(lasts: seq<M>) {
    |lasts| > 1 && lasts[|lasts| - 2].ctx.suspended ==> Met(lasts[|lasts| - 1].ctx) == {}
  }

  /** Turn by turn, each from the history that the turns before have left, the first from
      `past`. */
  ghost predicate ExecutionFrom(p: Program, engine: Engine, past: seq<Event>, turns: seq<seq<Event>>, lasts: seq<M>)
    decreases |turns|
  {
    && |turns| == |lasts| > 0
    && var k := |turns| - 1;
       && IsTurn(turns[k])
       && (k > 0 ==>
             ExecutionFrom(p, engine, past, turns[..k], lasts[..k]) && GoesOn(lasts[k - 1]) && RecordsInTime(lasts[..k]))
       && RunsTo(p, FirstFrom(engine, past, turns, lasts), lasts[k])
  }

  /** The start of the last of the turns. */
  function FirstFrom(engine: Engine, past: seq<Event>, turns: seq<seq<Event>>, lasts: seq<M>): M
    requires |turns| == |lasts| > 0
  {
    var k := |turns| - 1;
    Start(Fresh(engine), if k == 0 then past else NextPast(lasts[k - 1]), turns[k])
  }

  /** The same from nothing. */
  ghost predicate Execution(p: Program, engine: Engine, turns: seq<seq<Event>>, lasts: seq<M>) {
    ExecutionFrom(p, engine, [], turns, lasts)
  }

  function First(engine: Engine, turns: seq<seq<Event>>, lasts: seq<M>): M
    requires |turns| == |lasts| > 0
  {
    FirstFrom(engine, [], turns, lasts)
  }

  // ----- one execution without interruption -----

  function Extend(m: M, more: seq<Event>): M {
    m.(hist := m.hist.(arrived := m.hist.arrived + more))
  }

  /** The same turns, but the engine stays alive in between: nothing is replayed and
      nothing acknowledged. It starts in `b`. */
  ghost predicate UninterruptedFrom(p: Program, b: M, turns: seq<seq<Event>>, u: M)
    decreases |turns|
  {
    && |turns| > 0
    && var k := |turns| - 1;
       if k == 0 then RunsTo(p, b, u)
       else exists v :: UninterruptedFrom(p, b, turns[..k], v) && RunsTo(p, Extend(v, turns[k]), u)
  }

  ghost predicate Uninterrupted(p: Program, engine: Engine, turns: seq<seq<Event>>, u: M) {
    |turns| > 0 && UninterruptedFrom(p, Start(Fresh(engine), [], turns[0]), turns, u)
  }

  function Emitted(lasts: seq<M>): seq<Entry>
    decreases |lasts|
  {
    if lasts == [] then [] else Emitted(lasts[..|lasts| - 1]) + lasts[|lasts| - 1].ctx.ids.pending
  }

  ghost predicate NeverAsksReplaying(p: Program) {
    forall trace :: !p(trace).IsReplaying?
  }

  /** Replay of the turn after `last` has used up the recorded history: the state is that
      of `last`, with every emitted action acknowledged and the new patches recorded. */
  function Boundary(last: M, arrived: seq<Event>): M {
    var past := NextPast(last);
    var c := MorePatches(last.ctx, Met(last.ctx));
    M(c.(ids := c.ids.(pending := [])), last.mode, last.trace, History(past, arrived, false, |past|))
  }

  /** About to take the first new event. */
  predicate AtBoundary(b: M) {
    && b.hist.index == |b.hist.past| && !b.hist.onArrived
    && TakesEvents(b)
  }

  // ----- patches do not influence anything but patch answers -----

  function MorePatches(c: Ctx, names: set<string>): Ctx {
    c.(patches := c.patches.(history := c.patches.history + names))
  }

  lemma AttemptIgnoresPatches(c: Ctx, names: set<string>, call: Call)
    ensures Attempt(MorePatches(c, names), call) == MorePatches(Attempt(c, call), names)
  {
    hide Perform, Allot;
  }

  lemma HandleIgnoresPatches(c: Ctx, names: set<string>, e: Event)
    ensures Handle(MorePatches(c, names), e) == Handled(MorePatches(Handle(c, e).ctx, names), Handle(c, e).threw)
  {
    hide EndRecord, Allot, RaiseEvent, Acknowledge;
    if e.WorkflowStarted? {
      assert c.patches.history + names + e.patches == c.patches.history + e.patches + names;
    }
  }

  lemma {:induction false} DrainIgnoresPatches(c: Ctx, names: set<string>)
    ensures Drain(MorePatches(c, names)) == Handled(MorePatches(Drain(c).ctx, names), Drain(c).threw)
    decreases |c.held|
  {
    hide Handle;
    if c.held != [] {
      var d := c.(held := c.held[1..]);
      assert MorePatches(c, names).(held := c.held[1..]) == MorePatches(d, names);
      HandleIgnoresPatches(d, names, c.held[0]);
      HandleKeepsHeld(d, c.held[0]);
      if !Handle(d, c.held[0]).threw {
        DrainIgnoresPatches(Handle(d, c.held[0]).ctx, names);
      }
    }
  }

  lemma ProcessIgnoresPatches(c: Ctx, names: set<string>, e: Event)
    ensures ProcessEvent(MorePatches(c, names), e)
         == Handled(MorePatches(ProcessEvent(c, e).ctx, names), ProcessEvent(c, e).threw)
  {
    hide Handle, Drain;
    HandleIgnoresPatches(c, names, e);
    assert MorePatches(c, names).(suspended := false) == MorePatches(c.(suspended := false), names);
    DrainIgnoresPatches(c.(suspended := false), names);
  }

  // ----- first part of a replay: the history of the turns before the previous one -----

  function Rebase(m: M, past: seq<Event>, arrived: seq<Event>): M {
    m.(hist := m.hist.(past := past, arrived := arrived))
  }

  ghost predicate StillReplaying(m: M) {
    !m.hist.onArrived && !m.mode.Stopped? && !m.mode.Crashed?
  }

  /** As long as a run replays, it does not matter what follows its past events. */
  lemma RebasedStep(p: Program, m: M, past: seq<Event>, arrived: seq<Event>)
    requires !Halted(p, m) && StillReplaying(m) && StillReplaying(Step(p, m).value)
    requires m.hist.past <= past && HistoryOk(m.hist)
    ensures !Halted(p, Rebase(m, past, arrived))
    ensures Step(p, Rebase(m, past, arrived)).value == Rebase(Step(p, m).value, past, arrived)
  {
    hide Attempt, AskPatch, ProcessEvent, Close;
  }

  lemma {:induction false} RebasedRun(p: Program, m: M, n: nat, last: M, past: seq<Event>, arrived: seq<Event>)
    requires Reaches(p, m, n, last) && StillReplaying(last)
    requires m.hist.past <= past && HistoryOk(m.hist)
    ensures Reaches(p, Rebase(m, past, arrived), n, Rebase(last, past, arrived))
    decreases n
  {
    hide Step;
    if n > 0 {
      var next := Step(p, m).value;
      StepKeepsHistory(p, m);
      ReplayingBefore(p, next, n - 1, last);
      ReplayingBefore(p, m, n, last);
      RebasedStep(p, m, past, arrived);
      RebasedRun(p, next, n - 1, last, past, arrived);
    }
  }

  lemma StoppedIsHalted(p: Program, m: M)
    ensures m.mode.Stopped? || m.mode.Crashed? ==> Halted(p, m)
  {
  }

  lemma ReplayingBefore(p: Program, m: M, n: nat, last: M)
    requires Reaches(p, m, n, last) && StillReplaying(last) && HistoryOk(m.hist)
    ensures StillReplaying(m)
  {
    hide Step;
    RunKeepsHistory(p, m, n, last);
    StoppedIsHalted(p, m);
  }

  // ----- second part: the new events of the previous turn, now recorded -----

  /** The same state one turn later: the turn's events are past events now, and its
      patches are in the history. */
  function Shadow(m: M, names: set<string>, past: seq<Event>, arrived: seq<Event>): M {
    M(MorePatches(m.ctx, names), m.mode, m.trace, History(past, arrived, false, |m.hist.past| + m.hist.index))
  }

  ghost predicate Records(past: seq<Event>, h: History) {
    && |h.past| + |h.arrived| <= |past|
    && forall i :: 1 <= i < |h.arrived| ==> past[|h.past| + i] == h.arrived[i]
  }

  lemma ShadowStep(p: Program, m: M, names: set<string>, past: seq<Event>, arrived: seq<Event>)
    requires !Halted(p, m) && m.hist.onArrived && HistoryOk(m.hist) && Records(past, m.hist)
    requires var n := Step(p, m).value; !n.mode.Stopped? && !n.mode.Crashed? && Met(n.ctx) <= names
    requires NeverAsksReplaying(p)
    ensures !Halted(p, Shadow(m, names, past, arrived))
    ensures Step(p, Shadow(m, names, past, arrived)).value == Shadow(Step(p, m).value, names, past, arrived)
  {
    hide Attempt, ProcessEvent, Close;
    if m.mode.Running? {
      match p(m.trace) {
        case Do(call) => AttemptIgnoresPatches(m.ctx, names, call);
        case IsPatched(name) =>
          var d := AskPatch(m.ctx, name, false);
          if name !in m.ctx.patches.applied {
            assert d.patches.encountered[|m.ctx.patches.encountered|] == name;
            assert name in names;
          }
        case _ =>
      }
    } else if TakesEvents(m) {
      ProcessIgnoresPatches(m.ctx, names, m.hist.arrived[m.hist.index]);
    }
  }

  lemma MetOnlyGrows(p: Program, m: M, n: nat, last: M)
    requires Reaches(p, m, n, last)
    ensures Met(m.ctx) <= Met(last.ctx)
    decreases n
  {
    hide Step;
    if n > 0 {
      MetGrowsInStep(p, m);
      MetOnlyGrows(p, Step(p, m).value, n - 1, last);
    }
  }

  lemma MetGrowsInStep(p: Program, m: M)
    requires !Halted(p, m)
    ensures Met(m.ctx) <= Met(Step(p, m).value.ctx)
  {
    hide Perform, Allot, ProcessEvent;
    if m.mode.Running? {
    } else if TakesEvents(m) {
      var h := MoveOn(m.hist);
      ProcessKeepsEncountered(m.ctx, Current(h)[h.index]);
    }
  }

  lemma ProcessKeepsEncountered(c: Ctx, e: Event)
    ensures ProcessEvent(c, e).ctx.patches.encountered == c.patches.encountered
    ensures ProcessEvent(c, e).ctx.patches.applied == c.patches.applied
  {
    hide EndRecord, Allot, RaiseEvent, Acknowledge, Drain;
    DrainKeepsEncountered(c.(suspended := false));
  }

  lemma {:induction false} DrainKeepsEncountered(c: Ctx)
    ensures Drain(c).ctx.patches.encountered == c.patches.encountered
    ensures Drain(c).ctx.patches.applied == c.patches.applied
    decreases |c.held|
  {
    hide EndRecord, Allot, RaiseEvent, Acknowledge;
    if c.held != [] {
      var r := Handle(c.(held := c.held[1..]), c.held[0]);
      HandleKeepsHeld(c.(held := c.held[1..]), c.held[0]);
      if !r.threw { DrainKeepsEncountered(r.ctx); }
    }
  }

  lemma {:induction false} ShadowRun(p: Program, m: M, n: nat, last: M, names: set<string>, past: seq<Event>,
                                     arrived: seq<Event>)
    requires Reaches(p, m, n, last) && !last.mode.Stopped? && !last.mode.Crashed? && Met(last.ctx) <= names
    requires m.hist.onArrived && HistoryOk(m.hist) && Records(past, m.hist) && NeverAsksReplaying(p)
    ensures Reaches(p, Shadow(m, names, past, arrived), n, Shadow(last, names, past, arrived))
    decreases n
  {
    hide Step;
    if n > 0 {
      var next := Step(p, m).value;
      StepKeepsHistory(p, m);
      StoppedIsHalted(p, next);
      MetOnlyGrows(p, next, n - 1, last);
      ShadowStep(p, m, names, past, arrived);
      ShadowRun(p, next, n - 1, last, names, past, arrived);
    }
  }

  /** The turn's leading event carries the turn's patches when it is replayed. */
  lemma ShadowEnters(p: Program, b: M, names: set<string>, past: seq<Event>, arrived: seq<Event>)
    requires AtBoundary(b) && IsTurn(b.hist.arrived) && |b.hist.past| < |past|
    requires past[|b.hist.past|] == Commit(b.hist.arrived, names)[0] && (b.ctx.suspended ==> names == {})
    ensures !Halted(p, b) && !Halted(p, Rebase(b, past, arrived))
    ensures Step(p, b).value.hist == History(b.hist.past, b.hist.arrived, true, 1)
    ensures Step(p, Rebase(b, past, arrived)).value == Shadow(Step(p, b).value, names, past, arrived)
  {
    var e := b.hist.arrived[0];
    assert b.ctx.patches.history + (e.patches + names) == b.ctx.patches.history + e.patches + names;
    if b.ctx.suspended {
      assert e.patches + names == e.patches && b.ctx.patches.history + names == b.ctx.patches.history;
    }
  }

  // ----- third part: the acknowledgements -----

  /** Acknowledging the oldest pending action removes it and does nothing else. */
  lemma AckRemovesHead(c: Ctx)
    requires Inv(c) && !c.suspended && c.ids.pending != [] && CanBeAcknowledged(c.ids.pending)
    ensures ProcessEvent(c, AckOf(c.ids.pending[0].action))
         == Handled(c.(ids := c.ids.(pending := c.ids.pending[1..])), false)
  {
    assert IndexOf(c.ids.pending, c.ids.pending[0].key) == 0;
    assert Remove(c.ids.pending, c.ids.pending[0].key) == c.ids.pending[1..];
  }

  lemma {:induction false} AcksAreConsumed(p: Program, m: M)
    requires Inv(m.ctx) && CanBeAcknowledged(m.ctx.ids.pending) && (m.ctx.suspended ==> m.ctx.ids.pending == [])
    requires TakesEvents(m) && !m.mode.NotStarted?
    requires !m.hist.onArrived && m.hist.index <= |m.hist.past|
    requires m.hist.past[m.hist.index..] == Acks(m.ctx.ids.pending)
    ensures Reaches(p, m, |m.ctx.ids.pending|,
                    m.(ctx := m.ctx.(ids := m.ctx.ids.(pending := [])), hist := m.hist.(index := |m.hist.past|)))
    decreases |m.ctx.ids.pending|
  {
    hide Step, ProcessEvent, Inv, AckOf;
    var pending := m.ctx.ids.pending;
    if pending == [] {
      assert |m.hist.past[m.hist.index..]| == 0;
    } else {
      assert m.hist.past[m.hist.index] == m.hist.past[m.hist.index..][0];
      AckRemovesHead(m.ctx);
      var next := AckStep(p, m);
      assert next.hist.past[next.hist.index..] == m.hist.past[m.hist.index..][1..];
      assert Acks(pending)[1..] == Acks(pending[1..]);
      TailKeepsInv(m.ctx);
      AcksAreConsumed(p, next);
    }
  }

  lemma TailKeepsInv(c: Ctx)
    requires Inv(c) && c.ids.pending != []
    ensures Inv(c.(ids := c.ids.(pending := c.ids.pending[1..])))
  {
    RemoveKeepsIds(c.ids, c.ids.pending[0].key, c.isComplete);
    assert Remove(c.ids.pending, c.ids.pending[0].key) == c.ids.pending[1..];
  }

  lemma AckStep(p: Program, m: M) returns (next: M)
    requires TakesEvents(m) && !m.mode.NotStarted? && m.ctx.ids.pending != []
    requires !m.hist.onArrived && m.hist.index < |m.hist.past|
    requires m.hist.past[m.hist.index] == AckOf(m.ctx.ids.pending[0].action)
    requires ProcessEvent(m.ctx, AckOf(m.ctx.ids.pending[0].action))
          == Handled(m.ctx.(ids := m.ctx.ids.(pending := m.ctx.ids.pending[1..])), false)
    ensures next == m.(ctx := m.ctx.(ids := m.ctx.ids.(pending := m.ctx.ids.pending[1..])),
                       hist := m.hist.(index := m.hist.index + 1))
    ensures !Halted(p, m) && Step(p, m).value == next && TakesEvents(next)
  {
    hide ProcessEvent;
    next := Step(p, m).value;
  }

  // ----- the three parts together -----

  lemma LastIsAtEnd(p: Program, b: M, n: nat, last: M)
    requires Reaches(p, b, n, last) && HistoryOk(b.hist) && Halted(p, last) && b.hist.arrived != []
    requires last.mode.Blocked? || last.mode.Returned?
    ensures last.hist == History(b.hist.past, b.hist.arrived, true, |b.hist.arrived|) && TakesEvents(last)
  {
    hide Reaches;
    RunKeepsHistory(p, b, n, last);
  }

  lemma PastRecords(b: M, last: M)
    requires last.hist == History(b.hist.past, b.hist.arrived, true, |b.hist.arrived|) && b.hist.arrived != []
    ensures var past := NextPast(last);
            && b.hist.past <= past && |b.hist.past| < |past| && Records(past, last.hist)
            && past[|b.hist.past|] == Commit(b.hist.arrived, Met(last.ctx))[0]
            && past[|b.hist.past| + |b.hist.arrived|..] == Acks(last.ctx.ids.pending)
  {
    hide AckOf;
  }

  /** If one turn gets to its new events in `b` and from there to its end, the next turn
      gets, over the recorded history up to the acknowledgements, to the same end. */
  lemma NextTurnReplays(p: Program, first: M, a: nat, b: M, n: nat, last: M, arrived: seq<Event>)
    requires NeverAsksReplaying(p) && first.hist.index == 0 && !first.hist.onArrived
    requires Reaches(p, first, a, b) && AtBoundary(b) && IsTurn(b.hist.arrived)
    requires Reaches(p, b, n, last) && Halted(p, last) && (last.mode.Blocked? || last.mode.Returned?)
    requires b.ctx.suspended ==> Met(last.ctx) == {}
    ensures var past := NextPast(last);
            && n > 0 && last.hist == History(b.hist.past, b.hist.arrived, true, |b.hist.arrived|) && TakesEvents(last)
            && Reaches(p, Rebase(first, past, arrived), a, Rebase(b, past, arrived))
            && Reaches(p, Rebase(b, past, arrived), n, Shadow(last, Met(last.ctx), past, arrived))
            && past[|b.hist.past| + |b.hist.arrived|..] == Acks(last.ctx.ids.pending)
  {
    hide Step, NextPast, Commit, Shadow, Rebase;
    var names := Met(last.ctx);
    var past := NextPast(last);
    RunKeepsHistory(p, first, a, b);
    LastIsAtEnd(p, b, n, last);
    PastRecords(b, last);
    RebasedRun(p, first, a, b, past, arrived);
    ShadowEnters(p, b, names, past, arrived);
    var entered := Step(p, b).value;
    ShadowRun(p, entered, n - 1, last, names, past, arrived);
  }

  /** And if the workflow goes on, the acknowledgements leave it ready for the next turn's
      own new events, with all of the work rebuilt. */
  lemma NextTurnRebuilds(p: Program, first: M, a: nat, b: M, n: nat, last: M, arrived: seq<Event>) returns (steps: nat)
    requires Inv(first.ctx) && NeverAsksReplaying(p) && first.hist.index == 0 && !first.hist.onArrived
    requires Reaches(p, first, a, b) && AtBoundary(b) && IsTurn(b.hist.arrived)
    requires Reaches(p, b, n, last) && Halted(p, last) && GoesOn(last)
    requires b.ctx.suspended ==> Met(last.ctx) == {}
    ensures Reaches(p, Rebase(first, NextPast(last), arrived), steps, Boundary(last, arrived))
    ensures steps == a + n + |last.ctx.ids.pending|
    ensures AtBoundary(Boundary(last, arrived))
  {
    hide Step, Inv, AckOf, EndTurn, CanBeAcknowledged;
    var names := Met(last.ctx);
    var past := NextPast(last);
    NextTurnReplays(p, first, a, b, n, last, arrived);
    var shadow := Shadow(last, names, past, arrived);
    RunKeepsInv(p, first, a, b);
    RunKeepsInv(p, b, n, last);
    PatchesKeepInv(last.ctx, names);
    AcksAreConsumed(p, shadow);
    ReachesAdds(p, Rebase(first, past, arrived), a, Rebase(b, past, arrived), n, shadow);
    ReachesAdds(p, Rebase(first, past, arrived), a + n, shadow, |last.ctx.ids.pending|, Boundary(last, arrived));
    steps := a + n + |last.ctx.ids.pending|;
  }

  lemma PatchesKeepInv(c: Ctx, names: set<string>)
    requires Inv(c)
    ensures Inv(MorePatches(c, names))
  {
  }

  /** Where turn number |turns| gets to its new events: the first turn in `b`, a later one
      with the work of all turns before rebuilt. */
  function BoundaryFrom(b: M, turns: seq<seq<Event>>, lasts: seq<M>): M
    requires |turns| == |lasts| > 0
  {
    var k := |turns| - 1;
    if k == 0 then b else Boundary(lasts[k - 1], turns[k])
  }

  function BoundaryOf(engine: Engine, turns: seq<seq<Event>>, lasts: seq<M>): M
    requires |turns| == |lasts| > 0
  {
    BoundaryFrom(Start(Fresh(engine), [], turns[0]), turns, lasts)
  }

  /** The first turn gets from `past` to its new events in `b`. */
  ghost predicate Enters(p: Program, engine: Engine, past: seq<Event>, b: M, turns: seq<seq<Event>>, lasts: seq<M>) {
    && |turns| == |lasts| > 0
    && AtBoundary(b) && b.hist.arrived == turns[0]
    && (b.ctx.suspended && |lasts| > 1 ==> Met(lasts[0].ctx) == {})
    && exists n: nat :: Reaches(p, Start(Fresh(engine), past, turns[0]), n, b)
  }

  lemma EntersAtOnce(p: Program, engine: Engine, turns: seq<seq<Event>>, lasts: seq<M>)
    requires |turns| == |lasts| > 0
    ensures Enters(p, engine, [], Start(Fresh(engine), [], turns[0]), turns, lasts)
  {
    hide Step;
    var start := Start(Fresh(engine), [], turns[0]);
    assert Reaches(p, start, 0, start);
  }

  lemma EntersBefore(p: Program, engine: Engine, past: seq<Event>, b: M, turns: seq<seq<Event>>, lasts: seq<M>)
    requires Enters(p, engine, past, b, turns, lasts) && |turns| > 1
    ensures Enters(p, engine, past, b, turns[..|turns| - 1], lasts[..|turns| - 1])
  {
    hide Reaches;
  }

  lemma {:induction false} RebuildsFrom(p: Program, engine: Engine, past: seq<Event>, b: M, turns: seq<seq<Event>>, lasts: seq<M>)
    returns (steps: nat, rest: nat)
    requires ExecutionFrom(p, engine, past, turns, lasts) && NeverAsksReplaying(p)
    requires Enters(p, engine, past, b, turns, lasts)
    ensures Reaches(p, FirstFrom(engine, past, turns, lasts), steps, BoundaryFrom(b, turns, lasts))
    ensures AtBoundary(BoundaryFrom(b, turns, lasts)) && Inv(FirstFrom(engine, past, turns, lasts).ctx)
    ensures Reaches(p, BoundaryFrom(b, turns, lasts), rest, lasts[|lasts| - 1])
    decreases |turns|
  {
    hide Step, Inv, EndTurn, IsTurn, Boundary, NextPast, GoesOn, AtBoundary;
    var k := |turns| - 1;
    var first := FirstFrom(engine, past, turns, lasts);
    InitialInv(engine.synthetic, engine.maxInterval);
    var n: nat :| Reaches(p, first, n, lasts[k]);
    if k == 0 {
      steps :| Reaches(p, first, steps, b);
      ReachesSplits(p, first, steps, b, n, lasts[k]);
      rest := n - steps;
    } else {
      EntersBefore(p, engine, past, b, turns, lasts);
      var a, r := RebuildsFrom(p, engine, past, b, turns[..k], lasts[..k]);
      var first' := FirstFrom(engine, past, turns[..k], lasts[..k]);
      BoundaryHistory(p, engine, past, b, turns[..k], lasts[..k]);
      BoundaryHistory(p, engine, past, b, turns, lasts);
      steps := NextTurnRebuilds(p, first', a, BoundaryFrom(b, turns[..k], lasts[..k]), r, lasts[k - 1], turns[k]);
      assert Rebase(first', NextPast(lasts[k - 1]), turns[k]) == first;
      ReachesSplits(p, first, steps, Boundary(lasts[k - 1], turns[k]), n, lasts[k]);
      rest := n - steps;
    }
  }

  lemma BoundaryHistory(p: Program, engine: Engine, past: seq<Event>, b: M, turns: seq<seq<Event>>, lasts: seq<M>)
    requires Enters(p, engine, past, b, turns, lasts)
    ensures var c := BoundaryFrom(b, turns, lasts);
            && c.hist.arrived == turns[|turns| - 1]
            && (c.ctx.suspended && |turns| > 1 && RecordsInTime(lasts) ==> Met(lasts[|lasts| - 1].ctx) == {})
  {
    hide Reaches;
  }

  /** Replay is exact, patch answers included: in every turn, the run over the recorded
      history ends in the state in which the turn before ended (same replies, same
      tasks, same waits), with each action emitted so far acknowledged without error. */
  lemma {:induction false} ReplayRebuilds(p: Program, engine: Engine, turns: seq<seq<Event>>, lasts: seq<M>)
    returns (steps: nat, rest: nat)
    requires Execution(p, engine, turns, lasts) && NeverAsksReplaying(p)
    ensures Reaches(p, First(engine, turns, lasts), steps, BoundaryOf(engine, turns, lasts))
    ensures AtBoundary(BoundaryOf(engine, turns, lasts))
    ensures Reaches(p, BoundaryOf(engine, turns, lasts), rest, lasts[|lasts| - 1])
    ensures Inv(First(engine, turns, lasts).ctx)
    ensures BoundaryOf(engine, turns, lasts).hist.arrived == turns[|turns| - 1]
    ensures BoundaryOf(engine, turns, lasts).ctx.suspended && RecordsInTime(lasts) ==> Met(lasts[|lasts| - 1].ctx) == {}
  {
    hide Step, Inv, Boundary, NextPast, GoesOn, AtBoundary, Reaches;
    EntersAtOnce(p, engine, turns, lasts);
    var b := Start(Fresh(engine), [], turns[0]);
    steps, rest := RebuildsFrom(p, engine, [], b, turns, lasts);
    BoundaryHistory(p, engine, [], b, turns, lasts);
  }

  // ----- executions turn by turn -----

  lemma OneTurn(p: Program, engine: Engine, arrived: seq<Event>, last: M)
    requires IsTurn(arrived) && RunsTo(p, Start(Fresh(engine), [], arrived), last)
    ensures Execution(p, engine, [arrived], [last])
  {
    hide RunsTo, IsTurn, GoesOn;
    assert [arrived][0] == arrived && First(engine, [arrived], [last]) == Start(Fresh(engine), [], arrived);
  }

  /** An execution goes on with whatever a next turn makes of the state rebuilt for it. */
  lemma OneMoreTurn(p: Program, engine: Engine, turns: seq<seq<Event>>, lasts: seq<M>, arrived: seq<Event>, n: nat, last: M)
    requires Execution(p, engine, turns, lasts) && NeverAsksReplaying(p) && IsTurn(arrived)
    requires GoesOn(lasts[|lasts| - 1]) && RecordsInTime(lasts)
    requires Reaches(p, Boundary(lasts[|lasts| - 1], arrived), n, last) && Halted(p, last)
    ensures Execution(p, engine, turns + [arrived], lasts + [last])
  {
    hide Step, Inv, EndTurn, IsTurn, Boundary, NextPast, GoesOn, Halted;
    var k := |turns|;
    var before := lasts[k - 1];
    var a, r := ReplayRebuilds(p, engine, turns, lasts);
    var first := First(engine, turns, lasts);
    var steps := NextTurnRebuilds(p, first, a, BoundaryOf(engine, turns, lasts), r, before, arrived);
    assert (turns + [arrived])[..k] == turns && (lasts + [last])[..k] == lasts;
    var next := First(engine, turns + [arrived], lasts + [last]);
    assert Rebase(first, NextPast(before), arrived) == next;
    ReachesAdds(p, next, steps, Boundary(before, arrived), n, last);
    assert RunsTo(p, next, last);
  }

  // ----- patch answers within one run -----

  lemma ApplyKeepsAnswers(c: Ctx, i: Input, name: string)
    requires name in c.patches.applied
    ensures name in Apply(c, i).patches.applied && Apply(c, i).patches.applied[name] == c.patches.applied[name]
  {
    hide Perform, Allot, ProcessEvent;
    if i.Happened? {
      ProcessKeepsEncountered(c, i.event);
    }
  }

  /** Once a patch has been asked for, every later question in the same execution has the
      same answer, whatever happens in between and whether or not the replay has ended. */
  lemma {:induction false} PatchAnswerIsConstant(c: Ctx, name: string, inputs: seq<Input>, replaying: bool)
    requires name in c.patches.applied
    ensures PatchAnswer(ApplyAll(c, inputs).patches, name, replaying) == c.patches.applied[name]
    decreases |inputs|
  {
    hide Apply;
    if inputs != [] {
      ApplyKeepsAnswers(c, inputs[0], name);
      PatchAnswerIsConstant(Apply(c, inputs[0]), name, inputs[1..], replaying);
    }
  }
}
