/** The turns of an execution together issue every action once: what they emit, put one
    after another, is what a single uninterrupted run issues. */
module ExactlyOnce {
  import opened WorkflowTypes
  import opened IdTable
  import opened ReplayContext
  import opened ContextInvariant
  import opened Machine
  import opened ReplayTurns

  // ----- a context that still has the earlier actions pending -----

  function Behind(t: Table, before: seq<Entry>): Table {
    t.(pending := before + t.pending)
  }

  /** `c` with the actions of earlier turns still pending, and other recorded patches. */
  function Uncut(c: Ctx, before: seq<Entry>, history: set<string>): Ctx {
    c.(ids := Behind(c.ids, before), patches := c.patches.(history := history))
  }

  lemma AllotBehind(t: Table, before: seq<Entry>, spends: bool, issued: Option<Issuance>)
    requires Ordered(t) && Ordered(Behind(t, before))
    ensures Allot(Behind(t, before), spends, issued) == Behind(Allot(t, spends, issued), before)
  {
    var u := if spends then Skip(t) else t;
    FreshId(u);
    FreshId(Behind(u, before));
    if issued.Some? {
      var e := Entry(u.next, Action(u.next, issued.value.body));
      assert before + (t.pending + [e]) == before + t.pending + [e];
    }
  }

  lemma AttemptBehind(c: Ctx, before: seq<Entry>, history: set<string>, call: Call)
    requires Inv(c) && Inv(Uncut(c, before, history))
    ensures Attempt(Uncut(c, before, history), call) == Uncut(Attempt(c, call), before, history)
  {
    hide Perform, Allot;
    var e := Perform(c.env, c.board, call);
    AllotBehind(c.ids, before, e.spends, e.issued);
  }

  lemma CloseBehind(c: Ctx, before: seq<Entry>, history: set<string>, status: Status, output: string, carryover: set<Event>)
    requires Inv(c) && Inv(Uncut(c, before, history))
    ensures Close(Uncut(c, before, history), status, output, carryover)
         == Uncut(Close(c, status, output, carryover), before, history)
  {
    AllotBehind(c.ids, before, false, Some(Quiet(CompleteWorkflow(status, output, carryover))));
  }

  lemma EndTaskBehind(c: Ctx, before: seq<Entry>, history: set<string>, id: int, o: Outcome)
    requires Inv(c) && Inv(Uncut(c, before, history))
    ensures EndTask(Uncut(c, before, history), id, o) == Uncut(EndTask(c, id, o), before, history)
  {
    hide EndRecord, Allot;
    if id in c.ids.open {
      var e := EndRecord(c.env, c.board, c.ids.open[id], o);
      AllotBehind(Forget(c.ids, id), before, e.spends, e.issued);
    }
  }

  /** The recorded patches after `e` was handled. */
  function Recorded(c: Ctx, history: set<string>, e: Event): set<string> {
    if e.WorkflowStarted? then history + e.patches else history
  }

  lemma HandleBehind(c: Ctx, before: seq<Entry>, history: set<string>, e: Event)
    requires Inv(c) && Inv(Uncut(c, before, history)) && !IsAcknowledgement(e)
    ensures Handle(Uncut(c, before, history), e)
         == Handled(Uncut(Handle(c, e).ctx, before, Recorded(c, history, e)), Handle(c, e).threw)
  {
    hide EndTask, RaiseEvent, Complete, Inv;
    if Ending(e).Some? {
      EndTaskBehind(c, before, history, Ending(e).value.0, Ending(e).value.1);
    } else if e.ExecutionTerminated? && !c.isComplete {
      CloseBehind(c, before, history, TERMINATED, e.output, {});
    }
  }

  ghost predicate Plain(events: seq<Event>) {
    forall i :: 0 <= i < |events| ==> !IsAcknowledgement(events[i])
  }

  /** Two states that differ only in the earlier actions and the recorded patches. */
  ghost predicate Apart(u: Ctx, c: Ctx, before: seq<Entry>) {
    u == Uncut(c, before, u.patches.history) && Inv(u) && Inv(c) && Plain(c.held)
  }

  lemma {:induction false} DrainBehind(u: Ctx, c: Ctx, before: seq<Entry>)
    requires Apart(u, c, before)
    ensures Apart(Drain(u).ctx, Drain(c).ctx, before) && Drain(u).threw == Drain(c).threw
    decreases |c.held|
  {
    hide Handle, Inv;
    DrainKeepsInv(u);
    DrainKeepsInv(c);
    if c.held != [] {
      var e := c.held[0];
      var c' := c.(held := c.held[1..]);
      var u' := u.(held := u.held[1..]);
      assert u' == Uncut(c', before, u.patches.history);
      FewerHeld(c);
      FewerHeld(u);
      HandleBehind(c', before, u.patches.history, e);
      HandleKeepsHeld(c', e);
      HandleKeepsHeld(u', e);
      HandleKeepsInv(c', e);
      HandleKeepsInv(u', e);
      if !Handle(c', e).threw {
        DrainBehind(Handle(u', e).ctx, Handle(c', e).ctx, before);
      }
    }
  }

  lemma ProcessBehind(u: Ctx, c: Ctx, before: seq<Entry>, e: Event)
    requires Apart(u, c, before) && !IsAcknowledgement(e)
    ensures Apart(ProcessEvent(u, e).ctx, ProcessEvent(c, e).ctx, before)
    ensures ProcessEvent(u, e).threw == ProcessEvent(c, e).threw
  {
    hide Handle, Drain, Inv;
    ProcessKeepsInv(u, e);
    ProcessKeepsInv(c, e);
    if c.suspended && !e.ExecutionResumed? && !e.ExecutionTerminated? {
    } else if e.ExecutionResumed? {
      Unsuspended(u);
      Unsuspended(c);
      DrainBehind(u.(suspended := false), c.(suspended := false), before);
    } else {
      HandleBehind(c, before, u.patches.history, e);
      HandleKeepsHeld(c, e);
    }
  }

  // ----- lockstep -----

  /** `u` is where the uninterrupted run is while the last turn is in `m`. */
  ghost predicate Matches(u: M, m: M, before: seq<Entry>) {
    && Apart(u.ctx, m.ctx, before)
    && u.mode == m.mode && u.trace == m.trace
    && u.hist.onArrived && m.hist.onArrived
    && u.hist.index <= |u.hist.arrived| && m.hist.index <= |m.hist.arrived|
    && u.hist.arrived[u.hist.index..] == m.hist.arrived[m.hist.index..]
    && Plain(m.hist.arrived[m.hist.index..])
  }

  lemma ExecuteMatches(u: M, m: M, before: seq<Entry>, op: Op)
    requires Matches(u, m, before) && m.mode.Running?
    ensures Matches(Execute(u, op), Execute(m, op), before)
  {
    hide Attempt, Close, Inv;
    match op {
      case Do(call) =>
        AttemptBehind(m.ctx, before, u.ctx.patches.history, call);
        CallKeepsInv(u.ctx, call);
        CallKeepsInv(m.ctx, call);
        AttemptKeepsHeld(m.ctx, call);
      case ContinueAsNew(input, preserve) =>
        var carryover := if preserve then Carryover(m.ctx, m.hist) else {};
        assert Carryover(u.ctx, u.hist) == Carryover(m.ctx, m.hist);
        CloseMatches(u.ctx, m.ctx, before, CONTINUED_AS_NEW, input, carryover);
      case Throw(details) =>
        CloseMatches(u.ctx, m.ctx, before, FAILED, details, {});
      case IsPatched(name) =>
        AskMatches(u.ctx, m.ctx, before, name);
      case _ =>
    }
  }

  lemma CloseMatches(u: Ctx, c: Ctx, before: seq<Entry>, status: Status, output: string, carryover: set<Event>)
    requires Apart(u, c, before)
    ensures Apart(Close(u, status, output, carryover), Close(c, status, output, carryover), before)
  {
    hide Inv;
    CloseBehind(c, before, u.patches.history, status, output, carryover);
    ApplyKeepsInv(u, Closed(status, output, carryover));
    ApplyKeepsInv(c, Closed(status, output, carryover));
    CloseKeepsHeld(c, status, output, carryover);
  }

  lemma CloseKeepsHeld(c: Ctx, status: Status, output: string, carryover: set<Event>)
    ensures Close(c, status, output, carryover).held == c.held
    ensures Close(c, status, output, carryover).patches == c.patches
  {
  }

  /** Outside a replay the recorded patches have no say. */
  lemma AskMatches(u: Ctx, c: Ctx, before: seq<Entry>, name: string)
    requires Apart(u, c, before)
    ensures PatchAnswer(u.patches, name, false) == PatchAnswer(c.patches, name, false)
    ensures Apart(AskPatch(u, name, false), AskPatch(c, name, false), before)
  {
  }

  lemma ReceiveMatches(u: M, m: M, before: seq<Entry>, e: Event)
    requires Matches(u, m, before) && !IsAcknowledgement(e)
    ensures Matches(Receive(u, e), Receive(m, e), before)
  {
    hide ProcessEvent, Close, Inv;
    ProcessBehind(u.ctx, m.ctx, before, e);
    if ProcessEvent(m.ctx, e).threw {
      CloseMatches(ProcessEvent(u.ctx, e).ctx, ProcessEvent(m.ctx, e).ctx, before, FAILED, "", {});
    }
  }

  lemma StepMatches(p: Program, u: M, m: M, before: seq<Entry>)
    requires Matches(u, m, before)
    ensures Halted(p, u) == Halted(p, m)
    ensures !Halted(p, m) ==> Matches(Step(p, u).value, Step(p, m).value, before)
  {
    hide Execute, Receive, Inv;
    if m.mode.Running? {
      ExecuteMatches(u, m, before, p(m.trace));
    } else if TakesEvents(m) {
      var i, j := u.hist.index, m.hist.index;
      assert (i < |u.hist.arrived|) == (j < |m.hist.arrived|);
      if j < |m.hist.arrived| {
        assert u.hist.arrived[i] == u.hist.arrived[i..][0] == m.hist.arrived[j..][0] == m.hist.arrived[j];
        assert u.hist.arrived[i + 1..] == u.hist.arrived[i..][1..];
        assert m.hist.arrived[j + 1..] == m.hist.arrived[j..][1..];
        var u' := u.(hist := u.hist.(index := i + 1));
        var m' := m.(hist := m.hist.(index := j + 1));
        ReceiveMatches(u', m', before, m.hist.arrived[j]);
      }
    }
  }

  lemma {:induction false} RunMatches(p: Program, u: M, m: M, n: nat, last: M, before: seq<Entry>) returns (u': M)
    requires Matches(u, m, before) && Reaches(p, m, n, last)
    ensures Reaches(p, u, n, u') && Matches(u', last, before)
    decreases n
  {
    hide Step, Matches;
    if n == 0 {
      u' := u;
    } else {
      StepMatches(p, u, m, before);
      u' := RunMatches(p, Step(p, u).value, Step(p, m).value, n - 1, last, before);
    }
  }

  // ----- the theorem -----

  /** A state about to take its first new event behaves as if it had moved on already. */
  lemma MoveOnIsInvisible(p: Program, b: M, n: nat, last: M)
    requires AtBoundary(b) && n > 0
    ensures Reaches(p, b, n, last) <==> Reaches(p, b.(hist := MoveOn(b.hist)), n, last)
  {
    hide Receive;
  }

  /** The uninterrupted run that has seen the same turns is where the last of them ended. */
  ghost predicate KeepsUp(u: M, lasts: seq<M>)
    requires lasts != []
  {
    var last := lasts[|lasts| - 1];
    && u.ctx.ids.pending == Emitted(lasts)
    && u.trace == last.trace && u.mode == last.mode
    && u.ctx == Uncut(last.ctx, Emitted(lasts[..|lasts| - 1]), u.ctx.patches.history)
    && Inv(u.ctx) && Plain(last.ctx.held)
    && u.hist.onArrived && u.hist.index <= |u.hist.arrived|
    && (last.mode.Blocked? || last.mode.Returned? ==> u.hist.index == |u.hist.arrived|)
  }

  lemma {:induction false} ExactlyOnceFrom(p: Program, engine: Engine, past: seq<Event>, b: M, turns: seq<seq<Event>>,
                                           lasts: seq<M>) returns (u: M)
    requires ExecutionFrom(p, engine, past, turns, lasts) && NeverAsksReplaying(p)
    requires Enters(p, engine, past, b, turns, lasts) && Plain(b.ctx.held)
    ensures UninterruptedFrom(p, b, turns, u) && KeepsUp(u, lasts)
    decreases |turns|
  {
    hide Step, Inv, EndTurn, IsTurn, Plain, Boundary, NextPast, AtBoundary, Enters;
    var k := |turns| - 1;
    var steps, rest := RebuildsFrom(p, engine, past, b, turns, lasts);
    var last := lasts[k];
    var c := BoundaryFrom(b, turns, lasts);
    BoundaryHistory(p, engine, past, b, turns, lasts);
    RunKeepsInv(p, FirstFrom(engine, past, turns, lasts), steps, c);
    NotHaltedAtBoundary(p, c);
    MoveOnIsInvisible(p, c, rest, last);
    var c' := c.(hist := MoveOn(c.hist));
    var before := Emitted(lasts[..k]);
    var start := c';
    if k == 0 {
      StartMatches(c);
      assert before == [];
    } else {
      EntersBefore(p, engine, past, b, turns, lasts);
      var v := ExactlyOnceFrom(p, engine, past, b, turns[..k], lasts[..k]);
      start := Extend(v, turns[k]);
      assert lasts[..k][..k - 1] == lasts[..k - 1];
      ResumeMatches(v, lasts[k - 1], turns[k], Emitted(lasts[..k - 1]));
    }
    assert Matches(start, c', before);
    u := RunMatches(p, start, c', rest, last, before);
    StepMatches(p, u, last, before);
    assert RunsTo(p, start, u);
    if k == 0 {
      MoveOnIsInvisible(p, c, rest, u);
    }
    EndIsReached(p, u, last, before);
  }

  /** Turn by turn, replaying everything each time, an execution emits exactly the
      actions of one uninterrupted run, each of them once and in the same order, and its
      orchestrator sees the same replies. The last turn may end in any way. */
  lemma {:induction false} ReplayIsExactlyOnce(p: Program, engine: Engine, turns: seq<seq<Event>>, lasts: seq<M>)
    returns (u: M)
    requires Execution(p, engine, turns, lasts) && NeverAsksReplaying(p)
    ensures Uninterrupted(p, engine, turns, u)
    ensures u.ctx.ids.pending == Emitted(lasts)
    ensures var last := lasts[|lasts| - 1];
            && u.trace == last.trace && u.mode == last.mode
            && u.ctx == Uncut(last.ctx, Emitted(lasts[..|lasts| - 1]), u.ctx.patches.history)
    ensures Inv(u.ctx) && Plain(lasts[|lasts| - 1].ctx.held)
    ensures u.hist.onArrived && u.hist.index <= |u.hist.arrived|
    ensures var last := lasts[|lasts| - 1];
            last.mode.Blocked? || last.mode.Returned? ==> u.hist.index == |u.hist.arrived|
  {
    hide Step, Inv, Enters, RunsTo;
    EntersAtOnce(p, engine, turns, lasts);
    u := ExactlyOnceFrom(p, engine, [], Start(Fresh(engine), [], turns[0]), turns, lasts);
  }

  lemma NotHaltedAtBoundary(p: Program, b: M)
    requires AtBoundary(b) && IsTurn(b.hist.arrived)
    ensures !Halted(p, b)
  {
  }

  lemma StartMatches(b: M)
    requires AtBoundary(b) && IsTurn(b.hist.arrived) && Inv(b.ctx) && Plain(b.ctx.held)
    ensures var b' := b.(hist := MoveOn(b.hist)); Matches(b', b', [])
  {
    hide Inv;
    assert [] + b.ctx.ids.pending == b.ctx.ids.pending;
    assert b.ctx.patches.(history := b.ctx.patches.history) == b.ctx.patches;
    assert b.ctx.ids.(pending := [] + b.ctx.ids.pending) == b.ctx.ids;
    assert b.hist.arrived[0..] == b.hist.arrived;
  }

  /** Where one turn of the uninterrupted run ended is where the next turn of the
      execution has got to when it has replayed its past. */
  lemma ResumeMatches(v: M, last: M, arrived: seq<Event>, before: seq<Entry>)
    requires v.ctx == Uncut(last.ctx, before, v.ctx.patches.history) && v.mode == last.mode && v.trace == last.trace
    requires Inv(v.ctx) && Plain(last.ctx.held) && IsTurn(arrived)
    requires v.hist.onArrived && v.hist.index == |v.hist.arrived| && Inv(Boundary(last, arrived).ctx)
    ensures var b := Boundary(last, arrived);
            Matches(Extend(v, arrived), b.(hist := MoveOn(b.hist)), before + last.ctx.ids.pending)
  {
    var b := Boundary(last, arrived);
    assert before + last.ctx.ids.pending + [] == before + last.ctx.ids.pending;
    assert (v.hist.arrived + arrived)[|v.hist.arrived|..] == arrived;
    assert arrived[0..] == arrived;
  }

  lemma EndIsReached(p: Program, u: M, last: M, before: seq<Entry>)
    requires Matches(u, last, before) && Halted(p, last)
    ensures last.mode.Blocked? || last.mode.Returned? ==> u.hist.index == |u.hist.arrived|
  {
    hide Inv;
  }

  /** The ids emitted over all turns strictly ascend: no action is emitted by two turns,
      none twice by one, and what a turn emits is numbered above everything before. */
  lemma {:induction false} EmittedIdsAscend(p: Program, engine: Engine, turns: seq<seq<Event>>, lasts: seq<M>)
    requires Execution(p, engine, turns, lasts) && NeverAsksReplaying(p)
    ensures forall i, j :: 0 <= i < j < |Emitted(lasts)| ==> Emitted(lasts)[i].key < Emitted(lasts)[j].key
  {
    var u := ReplayIsExactlyOnce(p, engine, turns, lasts);
  }

  // ----- when an action is emitted again -----

  /** What acknowledgements leave pending: a sent event has none that is understood. */
  function Unacknowledged(pending: seq<Entry>): seq<Entry> {
    if pending == [] then []
    else if CanBeAcknowledged(pending[..1]) then Unacknowledged(pending[1..])
    else [pending[0]] + Unacknowledged(pending[1..])
  }

  lemma NoneUnacknowledged(pending: seq<Entry>)
    ensures Unacknowledged(pending) == [] <==> CanBeAcknowledged(pending)
  {
    if pending != [] {
      NoneUnacknowledged(pending[1..]);
      assert CanBeAcknowledged(pending) <==> CanBeAcknowledged(pending[..1]) && CanBeAcknowledged(pending[1..]) by {
        assert forall i :: 0 <= i < |pending| ==> pending[i] == if i == 0 then pending[..1][0] else pending[1..][i - 1];
      }
    }
  }

  lemma FoundInTheMiddle(t: Table, kept: seq<Entry>, rest: seq<Entry>)
    requires Ordered(t) && t.pending == kept + rest && rest != []
    ensures 0 <= rest[0].key == rest[0].action.id
    ensures Lookup(t.pending, rest[0].key) == Some(rest[0].action.body)
    ensures Remove(t.pending, rest[0].key) == kept + rest[1..]
  {
    var i := |kept|;
    assert t.pending[i] == rest[0];
    IndexOfKey(t.pending, i);
    assert t.pending[..i] == kept && t.pending[i + 1..] == rest[1..];
  }

  lemma AckInTheMiddle(t: Table, kept: seq<Entry>, rest: seq<Entry>)
    requires Ordered(t) && t.pending == kept + rest && rest != [] && CanBeAcknowledged(rest[..1])
    ensures IsAcknowledgement(AckOf(rest[0].action))
    ensures Acknowledge(t, AckOf(rest[0].action)) == Acked(t.(pending := kept + rest[1..]), false)
  {
    hide Ordered, Lookup, Remove, Drop;
    FoundInTheMiddle(t, kept, rest);
    assert rest[..1][0] == rest[0];
  }

  lemma AckLeaves(c: Ctx, kept: seq<Entry>, rest: seq<Entry>)
    requires Inv(c) && !c.suspended && c.ids.pending == kept + rest && rest != [] && CanBeAcknowledged(rest[..1])
    ensures ProcessEvent(c, AckOf(rest[0].action)).ctx == c.(ids := c.ids.(pending := kept + rest[1..]))
  {
    hide Acknowledge, CanBeAcknowledged, BoardOk, Drain;
    AckInTheMiddle(c.ids, kept, rest);
  }

  lemma AcksUnfold(c: Ctx, rest: seq<Entry>)
    requires rest != []
    ensures ProcessAll(c, Acks(rest)) == ProcessAll(ProcessEvent(c, AckOf(rest[0].action)).ctx, Acks(rest[1..]))
  {
    hide ProcessEvent, AckOf;
    assert Acks(rest)[1..] == Acks(rest[1..]);
  }

  lemma {:induction false} AcksLeave(c: Ctx, kept: seq<Entry>, rest: seq<Entry>, more: seq<Entry>)
    requires Inv(c) && !c.suspended && c.ids.pending == kept + rest + more
    ensures ProcessAll(c, Acks(rest)) == c.(ids := c.ids.(pending := kept + Unacknowledged(rest) + more))
    decreases |rest|
  {
    hide ProcessEvent, ProcessAll, Acks, AckOf, Inv, CanBeAcknowledged;
    if rest == [] {
      AcksOfNothing(c, rest);
      assert kept + rest + more == kept + Unacknowledged(rest) + more;
    } else {
      var d := ProcessEvent(c, AckOf(rest[0].action)).ctx;
      ProcessKeepsInv(c, AckOf(rest[0].action));
      AcksUnfold(c, rest);
      if CanBeAcknowledged(rest[..1]) {
        FirstIsAcknowledged(c, kept, rest, more);
        AcksLeave(d, kept, rest[1..], more);
      } else {
        NotAcknowledged(c, rest[0].action, rest);
        KeepFirst(kept, rest, more);
        AcksLeave(d, kept + [rest[0]], rest[1..], more);
      }
    }
  }

  lemma KeepFirst(kept: seq<Entry>, rest: seq<Entry>, more: seq<Entry>)
    requires rest != [] && !CanBeAcknowledged(rest[..1])
    ensures kept + rest + more == (kept + [rest[0]]) + rest[1..] + more
    ensures kept + [rest[0]] + Unacknowledged(rest[1..]) + more == kept + Unacknowledged(rest) + more
  {
    hide CanBeAcknowledged;
    assert rest == [rest[0]] + rest[1..];
    MoveBracket(kept, rest[0], rest[1..], more);
    MoveBracket(kept, rest[0], Unacknowledged(rest[1..]), more);
  }

  lemma MoveBracket<T>(a: seq<T>, x: T, b: seq<T>, c: seq<T>)
    ensures a + ([x] + b) + c == (a + [x]) + b + c
  {
    assert a + ([x] + b) == (a + [x]) + b;
  }

  lemma FirstIsAcknowledged(c: Ctx, kept: seq<Entry>, rest: seq<Entry>, more: seq<Entry>)
    requires Inv(c) && !c.suspended && c.ids.pending == kept + rest + more && rest != [] && CanBeAcknowledged(rest[..1])
    ensures ProcessEvent(c, AckOf(rest[0].action)).ctx == c.(ids := c.ids.(pending := kept + rest[1..] + more))
  {
    hide ProcessEvent, AckOf, Inv, CanBeAcknowledged;
    assert (rest + more)[..1] == rest[..1];
    assert c.ids.pending == kept + (rest + more);
    AckLeaves(c, kept, rest + more);
    assert kept + (rest + more)[1..] == kept + rest[1..] + more;
  }

  lemma AcksOfNothing(c: Ctx, rest: seq<Entry>)
    requires rest == []
    ensures ProcessAll(c, Acks(rest)) == c
  {
    assert Acks(rest) == [];
  }

  lemma NotAcknowledged(c: Ctx, a: Action, rest: seq<Entry>)
    requires rest != [] && rest[0].action == a && !CanBeAcknowledged(rest[..1]) && !c.suspended
    ensures ProcessEvent(c, AckOf(a)).ctx == c
  {
    hide EndTask, RaiseEvent, Complete, Acknowledge, Drain;
  }

  lemma {:induction false} SuspendedAcksAreHeld(c: Ctx, rest: seq<Entry>)
    requires c.suspended
    ensures ProcessAll(c, Acks(rest)) == c.(held := c.held + Acks(rest))
    decreases |rest|
  {
    hide Handle, Drain;
    if rest == [] {
      assert c.held + Acks(rest) == c.held;
    } else {
      var e := AckOf(rest[0].action);
      assert Acks(rest)[1..] == Acks(rest[1..]);
      SuspendedAcksAreHeld(c.(held := c.held + [e]), rest[1..]);
      assert c.held + [e] + Acks(rest[1..]) == c.held + Acks(rest);
    }
  }

  /** Exactly when the recorded acknowledgements clear what a turn emitted: not if the
      turn ended suspended, for they are then held and the next turn emits the actions
      again, and not for a sent event, which has no acknowledgement. */
  lemma {:induction false} AcksClearExactlyWhen(c: Ctx)
    requires Inv(c)
    ensures ProcessAll(c, Acks(c.ids.pending)).ids.pending == []
            <==> c.ids.pending == [] || (!c.suspended && CanBeAcknowledged(c.ids.pending))
  {
    hide Inv, ProcessEvent, AckOf, CanBeAcknowledged, Unacknowledged;
    if c.ids.pending == [] {
    } else if c.suspended {
      SuspendedAcksAreHeld(c, c.ids.pending);
    } else {
      assert [] + c.ids.pending + [] == c.ids.pending;
      AcksLeave(c, [], c.ids.pending, []);
      assert [] + Unacknowledged(c.ids.pending) + [] == Unacknowledged(c.ids.pending);
      NoneUnacknowledged(c.ids.pending);
    }
  }
}
