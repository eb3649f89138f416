/** What a turn emits again: which of the actions of the turn before are still pending when
    it ends. A turn that ends suspended leaves its acknowledgements to be held by the next
    one, which has to resume before it takes them. */
module SuspendedTurns {
  import opened WorkflowTypes
  import opened IdTable
  import opened ReplayContext
  import opened ContextInvariant
  import opened Machine
  import opened ReplayTurns
  import opened ExactlyOnce

  // ----- how far resumes get through what is held -----

  /** Each resume takes held events up to and including the first that the engine has no
      case for, whose handler throws. */
  function Passed(front: seq<Event>, resumes: nat): (r: nat)
    ensures r <= |front|
  {
    if resumes == 0 || front == [] then 0
    else 1 + Passed(front[1..], if front[0].Unsupported? then resumes - 1 else resumes)
  }

  lemma {:induction false} PassedNext(front: seq<Event>, resumes: nat)
    ensures Passed(front, resumes + 1)
         == Passed(front, resumes) + Passed(front[Passed(front, resumes)..], 1)
    decreases |front|
  {
    if resumes == 0 || front == [] {
      assert front[0..] == front;
    } else {
      var fewer := if front[0].Unsupported? then resumes - 1 else resumes;
      PassedNext(front[1..], fewer);
      assert front[1 + Passed(front[1..], fewer)..] == front[1..][Passed(front[1..], fewer)..];
    }
  }

  function CountUnsupported(events: seq<Event>): nat {
    if events == [] then 0 else (if events[0].Unsupported? then 1 else 0) + CountUnsupported(events[1..])
  }

  /** It takes one resume more than there are errors in front to get to what follows. */
  lemma {:induction false} PassedAllExactlyWhen(front: seq<Event>, rest: seq<Event>, resumes: nat)
    requires rest != [] && forall i :: 0 <= i < |rest| ==> !rest[i].Unsupported?
    ensures Passed(front + rest, resumes) == |front| + |rest| <==> resumes > CountUnsupported(front)
    decreases |front| + |rest|
  {
    if front == [] {
      assert front + rest == rest;
      if |rest| > 1 && resumes > 0 {
        PassedAllExactlyWhen([], rest[1..], resumes);
        assert [] + rest[1..] == rest[1..];
      }
    } else if resumes > 0 {
      assert (front + rest)[1..] == front[1..] + rest;
      PassedAllExactlyWhen(front[1..], rest, if front[0].Unsupported? then resumes - 1 else resumes);
    }
  }

  /** One pass ends with the first error or at the end. */
  lemma {:induction false} OnePass(events: seq<Event>)
    ensures var q := Passed(events, 1);
            && (forall i :: 0 <= i < q - 1 ==> !events[i].Unsupported?)
            && (q > 0 && !events[q - 1].Unsupported? ==> q == |events|)
            && (q == 0 ==> events == [])
    decreases |events|
  {
    if events != [] && !events[0].Unsupported? {
      OnePass(events[1..]);
      var q := Passed(events, 1);
      assert forall i :: 1 <= i < |events| ==> events[i] == events[1..][i - 1];
    }
  }

  function ResumesIn(events: seq<Event>): nat
    decreases |events|
  {
    if events == [] then 0
    else ResumesIn(events[..|events| - 1]) + (if events[|events| - 1].ExecutionResumed? then 1 else 0)
  }

  /** How many resumes a turn has taken from its own new events. */
  function ResumesTaken(h: History): nat {
    if h.onArrived && h.index <= |h.arrived| then ResumesIn(h.arrived[..h.index]) else 0
  }

  // ----- what stays pending -----

  /** What of `pending` stays when the first k of its acknowledgements have been taken. */
  function Kept(pending: seq<Entry>, k: nat): seq<Entry>
    requires k <= |pending|
  {
    Unacknowledged(pending[..k]) + pending[k..]
  }

  lemma {:induction false} UnacknowledgedSplits(a: seq<Entry>, b: seq<Entry>)
    ensures Unacknowledged(a + b) == Unacknowledged(a) + Unacknowledged(b)
    decreases |a|
  {
    hide CanBeAcknowledged;
    if a == [] {
      assert a + b == b;
    } else {
      assert (a + b)[..1] == a[..1] && (a + b)[1..] == a[1..] + b;
      UnacknowledgedSplits(a[1..], b);
    }
  }

  lemma KeptNext(pending: seq<Entry>, k: nat)
    requires k < |pending|
    ensures Kept(pending, k) == Unacknowledged(pending[..k]) + [pending[k]] + pending[k + 1..]
    ensures Kept(pending, k + 1) == Unacknowledged(pending[..k]) + Unacknowledged([pending[k]]) + pending[k + 1..]
  {
    hide CanBeAcknowledged;
    assert pending[..k + 1] == pending[..k] + [pending[k]];
    UnacknowledgedSplits(pending[..k], [pending[k]]);
    assert pending[k..] == [pending[k]] + pending[k + 1..];
  }

  /** One acknowledgement: it removes its action if it is understood, and throws exactly if
      it is an event the engine has no case for. */
  lemma AckOfOne(c: Ctx, kept: seq<Entry>, e: Entry, more: seq<Entry>)
    requires Inv(c) && c.ids.pending == kept + [e] + more
    ensures var r := Handle(c, AckOf(e.action));
            && r.ctx == c.(ids := c.ids.(pending := kept + Unacknowledged([e]) + more))
            && (r.threw <==> AckOf(e.action).Unsupported?)
  {
    hide Acknowledge, BoardOk;
    assert [e][..1] == [e] && [e][1..] == [];
    if CanBeAcknowledged([e]) {
      assert c.ids.pending == kept + ([e] + more) && ([e] + more)[..1] == [e] && ([e] + more)[1..] == more;
      AckInTheMiddle(c.ids, kept, [e] + more);
      assert kept + [] + more == kept + more;
    } else {
      assert Unacknowledged([e]) == [e];
    }
  }

  // ----- from there on, actions are only added -----

  /** New actions come after the old ones and have new ids. */
  ghost predicate Grows(t: Table, u: Table) {
    && t.pending <= u.pending && t.next <= u.next
    && forall j :: |t.pending| <= j < |u.pending| ==> u.pending[j].key >= t.next
  }

  lemma AllotGrows(t: Table, spends: bool, issued: Option<Issuance>)
    requires Ordered(t)
    ensures Grows(t, Allot(t, spends, issued))
  {
    hide Put;
    var u := if spends then Skip(t) else t;
    if issued.Some? {
      IssueAppends(u, issued.value);
    }
  }

  lemma AttemptGrows(c: Ctx, call: Call)
    requires Inv(c)
    ensures Grows(c.ids, Attempt(c, call).ids)
  {
    hide Perform, Allot, Grows, BoardOk;
    SameGrows(c.ids);
    var e := Perform(c.env, c.board, call);
    AllotGrows(c.ids, e.spends, e.issued);
  }

  lemma SameGrows(t: Table)
    ensures Grows(t, t)
  {
  }

  lemma CloseGrows(c: Ctx, status: Status, output: string, carryover: set<Event>)
    requires Inv(c)
    ensures Grows(c.ids, Close(c, status, output, carryover).ids)
  {
    AllotGrows(c.ids, false, Some(Quiet(CompleteWorkflow(status, output, carryover))));
  }

  lemma EndTaskGrows(c: Ctx, id: int, o: Outcome)
    requires Inv(c)
    ensures Grows(c.ids, EndTask(c, id, o).ids)
  {
    hide EndRecord, Allot, BoardOk;
    if id in c.ids.open {
      var e := EndRecord(c.env, c.board, c.ids.open[id], o);
      AllotGrows(Forget(c.ids, id), e.spends, e.issued);
    }
  }

  lemma HandleGrows(c: Ctx, e: Event)
    requires Inv(c) && !IsAcknowledgement(e)
    ensures Grows(c.ids, Handle(c, e).ctx.ids)
  {
    hide EndTask, RaiseEvent, Inv, Complete, Grows;
    SameGrows(c.ids);
    if Ending(e).Some? {
      EndTaskGrows(c, Ending(e).value.0, Ending(e).value.1);
    } else if e.ExecutionTerminated? {
      CloseGrows(c, TERMINATED, e.output, {});
    }
  }

  lemma PlainThrowsExactlyWhen(c: Ctx, e: Event)
    requires Inv(c) && Ordinary(e) && !IsAcknowledgement(e)
    ensures Handle(c, e).threw <==> e.Unsupported?
    ensures Inv(Handle(c, e).ctx)
  {
    hide Inv, EndTask, RaiseEvent, Complete;
    HandleKeepsInv(c, e);
  }

  // ----- what is held, and the acknowledgements in it -----

  /** `front` is what was held at the end of the turn before, and then the acknowledgements
      of what that turn emitted. */
  ghost predicate IsFront(front: seq<Event>, pending: seq<Entry>) {
    && |pending| <= |front|
    && front[|front| - |pending|..] == Acks(pending)
    && Plain(front[..|front| - |pending|])
    && HeldOk(front)
  }

  /** How many acknowledgements are among the first f events of `front`. */
  function AcksIn(front: seq<Event>, pending: seq<Entry>, f: nat): (k: nat)
    requires f <= |front|
    ensures k <= |pending|
  {
    if f + |pending| <= |front| then 0 else f + |pending| - |front|
  }

  /** The old actions that stay come first, everything after them is new. */
  ghost predicate Shape(t: Table, kept: seq<Entry>, next: int) {
    && kept <= t.pending && next <= t.next
    && forall j :: |kept| <= j < |t.pending| ==> t.pending[j].key >= next
  }

  lemma ShapeGrows(t: Table, u: Table, kept: seq<Entry>, next: int)
    requires Shape(t, kept, next) && Grows(t, u)
    ensures Shape(u, kept, next)
  {
  }

  /** The first f events of `front` have been taken, the rest of it is held, and so may be
      later events, none of which is an acknowledgement. */
  ghost predicate Left(c: Ctx, front: seq<Event>, pending: seq<Entry>, f: nat, next: int) {
    && Inv(c) && f <= |front|
    && front[f..] <= c.held && Plain(c.held[|front| - f..])
    && Shape(c.ids, Kept(pending, AcksIn(front, pending, f)), next)
  }

  lemma TakePlain(c: Ctx, e: Event, kept: seq<Entry>, next: int)
    requires Inv(c) && Ordinary(e) && !IsAcknowledgement(e) && Shape(c.ids, kept, next)
    ensures var r := Handle(c, e);
            Inv(r.ctx) && Shape(r.ctx.ids, kept, next) && (r.threw <==> e.Unsupported?)
  {
    hide Handle, Inv, Grows;
    PlainThrowsExactlyWhen(c, e);
    HandleGrows(c, e);
    ShapeGrows(c.ids, Handle(c, e).ctx.ids, kept, next);
  }

  lemma TakeAck(c: Ctx, pending: seq<Entry>, k: nat, next: int)
    requires Inv(c) && k < |pending| && Shape(c.ids, Kept(pending, k), next)
    ensures var r := Handle(c, AckOf(pending[k].action));
            Inv(r.ctx) && Shape(r.ctx.ids, Kept(pending, k + 1), next)
            && (r.threw <==> AckOf(pending[k].action).Unsupported?)
  {
    hide Handle, Inv, Unacknowledged, AckOf;
    KeptNext(pending, k);
    var done := Unacknowledged(pending[..k]);
    var rest := c.ids.pending[|Kept(pending, k)|..];
    assert c.ids.pending == Kept(pending, k) + rest;
    assert c.ids.pending == done + [pending[k]] + (pending[k + 1..] + rest);
    AckOfOne(c, done, pending[k], pending[k + 1..] + rest);
    HandleKeepsInv(c, AckOf(pending[k].action));
    assert done + Unacknowledged([pending[k]]) + (pending[k + 1..] + rest) == Kept(pending, k + 1) + rest;
  }

  lemma TakeHeld(c: Ctx, front: seq<Event>, pending: seq<Entry>, f: nat, next: int)
    requires IsFront(front, pending) && Left(c, front, pending, f, next) && c.held != []
    ensures var g := if f < |front| then f + 1 else f;
            var r := Handle(c.(held := c.held[1..]), c.held[0]);
            && Left(r.ctx, front, pending, g, next)
            && (f < |front| ==> c.held[0] == front[f] && (r.threw <==> front[f].Unsupported?))
            && r.ctx.suspended == c.suspended && r.ctx.held == c.held[1..]
  {
    hide Handle, Shape, Kept, AckOf, BoardOk, IdsOk;
    var d := c.(held := c.held[1..]);
    var e := c.held[0];
    FewerHeld(c);
    HandleKeepsHeld(d, e);
    HandleKeepsSuspended(d, e);
    var k := AcksIn(front, pending, f);
    if f < |front| {
      assert front[f..][0] == front[f] == e;
      assert front[f + 1..] == front[f..][1..];
      assert c.held[1..][|front| - f - 1..] == c.held[|front| - f..];
      if f + |pending| < |front| {
        assert front[..|front| - |pending|][f] == e;
        TakePlain(d, e, Kept(pending, k), next);
      } else {
        assert front[|front| - |pending|..][k] == e;
        TakeAck(d, pending, k, next);
      }
    } else {
      assert c.held[0..][0] == e;
      assert front[f..] == [];
      TakePlain(d, e, Kept(pending, k), next);
    }
  }

  lemma {:induction false} DrainLeaves(c: Ctx, front: seq<Event>, pending: seq<Entry>, f: nat, next: int)
    requires IsFront(front, pending) && Left(c, front, pending, f, next)
    ensures Left(Drain(c).ctx, front, pending, f + Passed(front[f..], 1), next)
    decreases |c.held|
  {
    hide Handle, Left, IsFront;
    LeftParts(c, front, pending, f, next);
    if c.held != [] {
      TakeHeld(c, front, pending, f, next);
      var d := Handle(c.(held := c.held[1..]), c.held[0]);
      if f < |front| {
        assert front[f..][1..] == front[f + 1..];
        assert Passed(front[f..], 1) == 1 + Passed(front[f + 1..], if front[f].Unsupported? then 0 else 1);
        if !d.threw { DrainLeaves(d.ctx, front, pending, f + 1, next); }
      } else if !d.threw {
        DrainLeaves(d.ctx, front, pending, f, next);
      }
    }
  }

  lemma LeftParts(c: Ctx, front: seq<Event>, pending: seq<Entry>, f: nat, next: int)
    requires Left(c, front, pending, f, next)
    ensures f <= |front| && (c.held == [] ==> f == |front|) && Inv(c)
  {
    hide Inv, Shape;
    assert |front[f..]| <= |c.held|;
  }

  lemma ProcessLeaves(c: Ctx, e: Event, front: seq<Event>, pending: seq<Entry>, f: nat, next: int)
    requires IsFront(front, pending) && Left(c, front, pending, f, next) && !IsAcknowledgement(e)
    ensures Left(ProcessEvent(c, e).ctx, front, pending,
                 if e.ExecutionResumed? then f + Passed(front[f..], 1) else f, next)
  {
    hide Handle, Drain, Shape, Kept, BoardOk, IdsOk, IsFront;
    if c.suspended && !e.ExecutionResumed? && !e.ExecutionTerminated? {
      assert !e.ExecutionSuspended? ==> (c.held + [e])[|front| - f..] == c.held[|front| - f..] + [e];
    } else if e.ExecutionResumed? {
      DrainLeaves(c.(suspended := false), front, pending, f, next);
    } else {
      HandleKeepsHeld(c, e);
      HandleKeepsInv(c, e);
      HandleGrows(c, e);
      ShapeGrows(c.ids, Handle(c, e).ctx.ids, Kept(pending, AcksIn(front, pending, f)), next);
    }
  }

  // ----- a turn from its own new events on -----

  /** How much of `front` has been taken: all of it at once by a turn that starts unsuspended,
      otherwise what the resumes so far have passed. */
  function Reached(front: seq<Event>, suspended: bool, h: History): (f: nat)
    ensures f <= |front|
  {
    if suspended then Passed(front, ResumesTaken(h)) else |front|
  }

  ghost predicate Owes(m: M, front: seq<Event>, pending: seq<Entry>, suspended: bool, next: int) {
    && HistoryOk(m.hist) && (m.hist.onArrived || m.hist.index == |m.hist.past|)
    && Plain(m.hist.arrived)
    && IsFront(front, pending)
    && Left(m.ctx, front, pending, Reached(front, suspended, m.hist), next)
  }

  lemma ReachedNext(front: seq<Event>, suspended: bool, h: History)
    requires HistoryOk(h) && (h.onArrived || h.index == |h.past|)
    requires MoveOn(h).index < |h.arrived|
    ensures var n := MoveOn(h);
            var f := Reached(front, suspended, h);
            Reached(front, suspended, n.(index := n.index + 1))
            == if h.arrived[n.index].ExecutionResumed? then f + Passed(front[f..], 1) else f
  {
    var i := MoveOn(h).index;
    OneMoreEvent(h.arrived, i);
    assert h.arrived[..0] == [];
    assert ResumesTaken(h) == ResumesIn(h.arrived[..i]);
    if suspended && h.arrived[i].ExecutionResumed? {
      PassedNext(front, ResumesTaken(h));
    }
  }

  lemma OneMoreEvent(events: seq<Event>, i: nat)
    requires i < |events|
    ensures ResumesIn(events[..i + 1]) == ResumesIn(events[..i]) + (if events[i].ExecutionResumed? then 1 else 0)
  {
    assert events[..i + 1][..i] == events[..i];
  }

  lemma StepOwes(p: Program, m: M, front: seq<Event>, pending: seq<Entry>, suspended: bool, next: int)
    requires Owes(m, front, pending, suspended, next) && !Halted(p, m)
    ensures Owes(Step(p, m).value, front, pending, suspended, next)
  {
    hide ProcessEvent, Attempt, Close, Inv, Left, Reached, IsFront;
    StepKeepsHistory(p, m);
    var f := Reached(front, suspended, m.hist);
    if m.mode.Running? {
      ExecuteLeaves(m, p(m.trace), front, pending, f, next);
    } else if TakesEvents(m) {
      ReachedNext(front, suspended, m.hist);
      var e := m.hist.arrived[MoveOn(m.hist).index];
      ProcessLeaves(m.ctx, e, front, pending, f, next);
      var g := if e.ExecutionResumed? then f + Passed(front[f..], 1) else f;
      CloseLeaves(ProcessEvent(m.ctx, e).ctx, FAILED, "", {}, front, pending, g, next);
    }
  }

  lemma CloseLeaves(c: Ctx, status: Status, output: string, carryover: set<Event>, front: seq<Event>,
                    pending: seq<Entry>, f: nat, next: int)
    requires Left(c, front, pending, f, next)
    ensures Left(Close(c, status, output, carryover), front, pending, f, next)
  {
    hide Shape, Kept, Inv, Grows, Plain;
    CloseGrows(c, status, output, carryover);
    CloseKeepsHeld(c, status, output, carryover);
    ApplyKeepsInv(c, Closed(status, output, carryover));
    ShapeGrows(c.ids, Close(c, status, output, carryover).ids, Kept(pending, AcksIn(front, pending, f)), next);
  }

  lemma AttemptLeaves(c: Ctx, call: Call, front: seq<Event>, pending: seq<Entry>, f: nat, next: int)
    requires Left(c, front, pending, f, next)
    ensures Left(Attempt(c, call), front, pending, f, next)
  {
    hide Shape, Kept, Inv, Grows, Plain, Attempt;
    AttemptGrows(c, call);
    AttemptKeepsHeld(c, call);
    CallKeepsInv(c, call);
    ShapeGrows(c.ids, Attempt(c, call).ids, Kept(pending, AcksIn(front, pending, f)), next);
  }

  lemma AskLeaves(c: Ctx, name: string, replaying: bool, front: seq<Event>, pending: seq<Entry>, f: nat, next: int)
    requires Left(c, front, pending, f, next)
    ensures Left(AskPatch(c, name, replaying), front, pending, f, next)
  {
    hide Shape, Kept, Plain, IdsOk, BoardOk;
  }

  lemma ExecuteLeaves(m: M, op: Op, front: seq<Event>, pending: seq<Entry>, f: nat, next: int)
    requires Left(m.ctx, front, pending, f, next)
    ensures Left(Execute(m, op).ctx, front, pending, f, next) && Execute(m, op).hist == m.hist
  {
    hide Attempt, AskPatch, Close, Left;
    match op {
      case Do(call) => AttemptLeaves(m.ctx, call, front, pending, f, next);
      case IsPatched(name) => AskLeaves(m.ctx, name, !m.hist.onArrived, front, pending, f, next);
      case ContinueAsNew(input, preserve) =>
        CloseLeaves(m.ctx, CONTINUED_AS_NEW, input, if preserve then Carryover(m.ctx, m.hist) else {},
                    front, pending, f, next);
      case Throw(details) => CloseLeaves(m.ctx, FAILED, details, {}, front, pending, f, next);
      case _ =>
    }
  }

  lemma {:induction false} RunOwes(p: Program, m: M, n: nat, last: M, front: seq<Event>, pending: seq<Entry>,
                                    suspended: bool, next: int)
    requires Owes(m, front, pending, suspended, next) && Reaches(p, m, n, last)
    ensures Owes(last, front, pending, suspended, next)
    decreases n
  {
    hide Step, Owes;
    if n > 0 {
      StepOwes(p, m, front, pending, suspended, next);
      RunOwes(p, Step(p, m).value, n - 1, last, front, pending, suspended, next);
    }
  }

  // ----- the next turn up to its own new events -----

  lemma AckKeepsBoard(c: Ctx, a: Action)
    ensures ProcessEvent(c, AckOf(a)).ctx.board == c.board
  {
    hide Acknowledge, Drain;
  }

  /** No error that is not swallowed: the orchestrator is blocked, or there is none. */
  ghost predicate Swallows(m: M, acks: seq<Event>) {
    m.mode.Blocked? || m.ctx.suspended || forall i :: 0 <= i < |acks| ==> !acks[i].Unsupported?
  }

  lemma AckIsTaken(p: Program, m: M, kept: seq<Entry>, rest: seq<Entry>, more: seq<Entry>) returns (next: M)
    requires TakesEvents(m) && !m.mode.NotStarted? && Inv(m.ctx) && rest != []
    requires !m.hist.onArrived && m.hist.index < |m.hist.past| && m.hist.past[m.hist.index] == AckOf(rest[0].action)
    requires Swallows(m, Acks(rest)) && (!m.ctx.suspended ==> m.ctx.ids.pending == kept + rest + more)
    ensures next == m.(ctx := ProcessEvent(m.ctx, AckOf(rest[0].action)).ctx, hist := m.hist.(index := m.hist.index + 1))
    ensures !Halted(p, m) && Step(p, m).value == next && TakesEvents(next) && next.ctx.suspended == m.ctx.suspended
    ensures !m.ctx.suspended ==> next.ctx.ids.pending == kept + Unacknowledged(rest[..1]) + rest[1..] + more
  {
    hide Handle, Unacknowledged, Inv, Drain, AckOf;
    var e := AckOf(rest[0].action);
    AckKeepsBoard(m.ctx, rest[0].action);
    AckIsOrdinary(rest[0].action);
    if !m.ctx.suspended {
      assert m.ctx.ids.pending == kept + [rest[0]] + (rest[1..] + more);
      AckOfOne(m.ctx, kept, rest[0], rest[1..] + more);
      assert rest[..1] == [rest[0]];
      assert kept + Unacknowledged([rest[0]]) + (rest[1..] + more) == kept + Unacknowledged(rest[..1]) + rest[1..] + more;
      assert Acks(rest)[0] == e;
    }
    next := Step(p, m).value;
  }

  lemma AckIsOrdinary(a: Action)
    ensures Ordinary(AckOf(a))
  {
  }

  /** An orchestrator that is blocked or has returned takes acknowledgements one by one. */
  lemma {:induction false} AcksAreTaken(p: Program, m: M, kept: seq<Entry>, rest: seq<Entry>, more: seq<Entry>)
    returns (next: M)
    requires TakesEvents(m) && !m.mode.NotStarted? && Inv(m.ctx)
    requires !m.hist.onArrived && m.hist.index <= |m.hist.past| && Acks(rest) <= m.hist.past[m.hist.index..]
    requires Swallows(m, Acks(rest)) && (!m.ctx.suspended ==> m.ctx.ids.pending == kept + rest + more)
    ensures m.hist.index + |rest| <= |m.hist.past|
    ensures next == m.(ctx := ProcessAll(m.ctx, Acks(rest)), hist := m.hist.(index := m.hist.index + |rest|))
    ensures Reaches(p, m, |rest|, next) && TakesEvents(next)
    decreases |rest|
  {
    hide Step, ProcessEvent, AckOf, Inv, Unacknowledged;
    if rest == [] {
      next := m;
    } else {
      var e := AckOf(rest[0].action);
      assert m.hist.past[m.hist.index] == m.hist.past[m.hist.index..][0] == Acks(rest)[0] == e;
      var n := AckIsTaken(p, m, kept, rest, more);
      ProcessKeepsInv(m.ctx, e);
      assert n.hist.past[n.hist.index..] == m.hist.past[m.hist.index..][1..];
      assert Acks(rest)[1..] == Acks(rest[1..]);
      next := AcksAreTaken(p, n, kept + Unacknowledged(rest[..1]), rest[1..], more);
    }
  }

  /** Whether or not a turn ends suspended, and whatever it leaves pending: the next turn
      rebuilds its end and then has the acknowledgements before it. */
  lemma EndIsRebuilt(p: Program, engine: Engine, turns: seq<seq<Event>>, lasts: seq<M>, arrived: seq<Event>)
    returns (steps: nat, shadow: M)
    requires Execution(p, engine, turns, lasts) && NeverAsksReplaying(p) && RecordsInTime(lasts)
    requires lasts[|lasts| - 1].mode.Blocked? || lasts[|lasts| - 1].mode.Returned?
    ensures var last := lasts[|lasts| - 1];
            && Reaches(p, Start(Fresh(engine), NextPast(last), arrived), steps, shadow)
            && shadow == Shadow(last, Met(last.ctx), NextPast(last), arrived)
            && TakesEvents(shadow) && Inv(shadow.ctx) && Inv(last.ctx)
            && shadow.hist.index <= |shadow.hist.past|
            && shadow.hist.past[shadow.hist.index..] == Acks(last.ctx.ids.pending)
  {
    hide Step, Inv, EndTurn, AtBoundary, Boundary, AckOf, GoesOn;
    var k := |turns| - 1;
    var last := lasts[k];
    var first := First(engine, turns, lasts);
    var a, n := ReplayRebuilds(p, engine, turns, lasts);
    var b := BoundaryOf(engine, turns, lasts);
    var past := NextPast(last);
    NextTurnReplays(p, first, a, b, n, last, arrived);
    shadow := Shadow(last, Met(last.ctx), past, arrived);
    RunKeepsInv(p, first, a, b);
    RunKeepsInv(p, b, n, last);
    PatchesKeepInv(last.ctx, Met(last.ctx));
    ReachesAdds(p, Rebase(first, past, arrived), a, Rebase(b, past, arrived), n, shadow);
    steps := a + n;
  }

  // ----- what is emitted again -----

  /** What the next turn has to get through. */
  function Front(last: M): seq<Event> {
    if last.ctx.suspended then last.ctx.held + Acks(last.ctx.ids.pending) else Acks(last.ctx.ids.pending)
  }

  /** How many of the acknowledgements a next turn takes. If the turn ended suspended: those
      that its resumes get to. Otherwise all of them, unless the orchestrator has returned,
      for then the first that the engine has no case for fails the execution. */
  function AcksTaken(last: M, resumes: nat): (k: nat)
    ensures k <= |last.ctx.ids.pending|
  {
    var pending := last.ctx.ids.pending;
    if last.ctx.suspended then AcksIn(Front(last), pending, Passed(Front(last), resumes))
    else if last.mode.Returned? then Passed(Acks(pending), 1)
    else |pending|
  }

  lemma FrontIsFront(last: M)
    requires Inv(last.ctx) && Plain(last.ctx.held)
    ensures IsFront(Front(last), last.ctx.ids.pending)
  {
    hide AckOf, IdsOk, BoardOk;
    var pending := last.ctx.ids.pending;
    forall i | 0 <= i < |pending| ensures Ordinary(Acks(pending)[i]) { AckIsOrdinary(pending[i].action); }
    assert Front(last)[|Front(last)| - |pending|..] == Acks(pending);
  }

  /** Past the acknowledgements, the invariant of the rest of the turn holds. */
  lemma OwesAfterAcks(last: M, arrived: seq<Event>, m: M)
    requires Inv(last.ctx) && Plain(last.ctx.held) && IsTurn(arrived)
    requires var past := NextPast(last);
             m == M(ProcessAll(MorePatches(last.ctx, Met(last.ctx)), Acks(last.ctx.ids.pending)), last.mode, last.trace,
                    History(past, arrived, false, |past|))
    requires Inv(m.ctx)
    ensures Owes(m, Front(last), last.ctx.ids.pending, last.ctx.suspended, last.ctx.ids.next)
  {
    hide Inv, ProcessAll, AckOf, Unacknowledged, IsFront;
    FrontIsFront(last);
    var c := MorePatches(last.ctx, Met(last.ctx));
    var pending := last.ctx.ids.pending;
    var front := Front(last);
    PatchesKeepInv(last.ctx, Met(last.ctx));
    if last.ctx.suspended {
      SuspendedAcksAreHeld(c, pending);
      NothingTaken(pending, front);
      assert Passed(front, 0) == 0;
      assert Plain(m.ctx.held[|front|..]);
    } else {
      assert [] + pending + [] == pending;
      AcksLeave(c, [], pending, []);
      assert [] + Unacknowledged(pending) + [] == Unacknowledged(pending);
      assert pending[..|pending|] == pending && pending[|pending|..] == [];
      assert Kept(pending, |pending|) == Unacknowledged(pending);
      assert m.ctx.held[0..] == m.ctx.held;
    }
  }

  lemma NothingTaken(pending: seq<Entry>, front: seq<Event>)
    ensures Kept(pending, 0) == pending && front[0..] == front
  {
    assert pending[..0] == [] && pending[0..] == pending;
  }

  lemma ThroughTheAcks(p: Program, last: M, arrived: seq<Event>, shadow: M) returns (n: nat, m: M)
    requires Inv(last.ctx) && Plain(last.ctx.held) && IsTurn(arrived)
    requires shadow == Shadow(last, Met(last.ctx), NextPast(last), arrived)
    requires TakesEvents(shadow) && !shadow.mode.NotStarted? && Inv(shadow.ctx) && shadow.hist.index <= |shadow.hist.past|
    requires shadow.hist.past[shadow.hist.index..] == Acks(last.ctx.ids.pending)
    requires Swallows(shadow, Acks(last.ctx.ids.pending))
    ensures Reaches(p, shadow, n, m)
    ensures Owes(m, Front(last), last.ctx.ids.pending, last.ctx.suspended, last.ctx.ids.next)
  {
    hide Step, Inv, ProcessAll, Owes, Front, Unacknowledged, IsTurn, Plain;
    var pending := last.ctx.ids.pending;
    assert [] + pending + [] == pending;
    assert |shadow.hist.past[shadow.hist.index..]| == |pending|;
    n := |pending|;
    m := AcksAreTaken(p, shadow, [], pending, []);
    RunKeepsInv(p, shadow, n, m);
    OwesAfterAcks(last, arrived, m);
  }

  lemma FirstError(pending: seq<Entry>) returns (i: nat)
    requires exists j :: 0 <= j < |Acks(pending)| && Acks(pending)[j].Unsupported?
    ensures Passed(Acks(pending), 1) == i + 1 <= |pending| && Acks(pending)[i].Unsupported?
    ensures forall j :: 0 <= j < i ==> !Acks(pending)[j].Unsupported?
  {
    hide AckOf, Acks;
    OnePass(Acks(pending));
    i := Passed(Acks(pending), 1) - 1;
  }

  lemma SplitsAt(pending: seq<Entry>, i: nat)
    requires i < |pending|
    ensures [] + pending[..i] + pending[i..] == pending && pending[i..] == [pending[i]] + pending[i + 1..]
    ensures Acks(pending[..i]) == Acks(pending)[..i] && Acks(pending)[i] == AckOf(pending[i].action)
  {
    hide AckOf;
  }

  /** Once the orchestrator has returned, an acknowledgement that the engine has no case for
      fails the execution; the later ones are not taken any more. */
  lemma FailsAtTheAcks(p: Program, last: M, shadow: M, arrived: seq<Event>) returns (n: nat, m: M)
    requires Inv(last.ctx) && last.mode.Returned? && !last.ctx.suspended
    requires shadow == Shadow(last, Met(last.ctx), NextPast(last), arrived)
    requires TakesEvents(shadow) && Inv(shadow.ctx) && shadow.hist.index <= |shadow.hist.past|
    requires shadow.hist.past[shadow.hist.index..] == Acks(last.ctx.ids.pending)
    requires !Swallows(shadow, Acks(last.ctx.ids.pending))
    ensures Reaches(p, shadow, n, m) && Halted(p, m)
    ensures Shape(m.ctx.ids, Kept(last.ctx.ids.pending, AcksTaken(last, 0)), last.ctx.ids.next)
  {
    hide Step, Inv, ProcessAll, ProcessEvent, AckOf, Unacknowledged, NextPast, Passed, Shape, Acks, Kept, Met, Reaches;
    var pending := last.ctx.ids.pending;
    var i := FirstError(pending);
    SplitsAt(pending, i);
    var done, rest := pending[..i], pending[i + 1..];
    var mid := AcksAreTaken(p, shadow, [], done, pending[i..]);
    AcksLeave(shadow.ctx, [], done, pending[i..]);
    RunKeepsInv(p, shadow, |done|, mid);
    assert shadow.hist.past[shadow.hist.index..][i] == Acks(pending)[i];
    assert [] + Unacknowledged(done) + pending[i..] == Unacknowledged(done) + [pending[i]] + rest;
    m := FailsAt(p, mid, Unacknowledged(done), pending[i], rest, last.ctx.ids.next);
    KeptNext(pending, i);
    OneMoreStep(p, shadow, |done|, mid);
    n := |done| + 1;
  }

  lemma FailsAt(p: Program, m: M, kept: seq<Entry>, e: Entry, more: seq<Entry>, next: int) returns (last: M)
    requires Inv(m.ctx) && m.mode.Returned? && !m.ctx.suspended && m.ctx.ids.next == next
    requires !m.hist.onArrived && m.hist.index < |m.hist.past| && m.hist.past[m.hist.index] == AckOf(e.action)
    requires AckOf(e.action).Unsupported? && m.ctx.ids.pending == kept + [e] + more
    ensures !Halted(p, m) && Step(p, m).value == last && Halted(p, last)
    ensures Shape(last.ctx.ids, kept + Unacknowledged([e]) + more, next)
  {
    hide Handle, Unacknowledged, Inv, Close, Drain;
    AckOfOne(m.ctx, kept, e, more);
    last := Step(p, m).value;
    var c := Handle(m.ctx, AckOf(e.action)).ctx;
    HandleKeepsInv(m.ctx, AckOf(e.action));
    CloseGrows(c, FAILED, "", {});
    ShapeGrows(c.ids, Close(c, FAILED, "", {}).ids, kept + Unacknowledged([e]) + more, next);
  }

  lemma StepsOf(p: Program, m: M, last: M) returns (n: nat)
    requires RunsTo(p, m, last)
    ensures Reaches(p, m, n, last) && Halted(p, last)
  {
    hide Step;
    n :| Reaches(p, m, n, last);
  }

  /** A state that a halted run passes through and that is halted is its end. */
  lemma SameEnd(p: Program, m: M, a: nat, mid: M, n: nat, last: M)
    requires Reaches(p, m, a, mid) && Halted(p, mid) && Reaches(p, m, n, last) && Halted(p, last)
    ensures mid == last
  {
    hide Step;
    ReachesSplits(p, m, a, mid, n, last);
  }

  /** Of the actions that a turn emitted, the next turn emits again exactly these: those
      that no acknowledgement is understood for, and those whose acknowledgement it does not
      get to (see AcksTaken). Everything else it emits is new. This holds however the turn
      ended, with whatever resumes the next one brings, and however that goes on and ends. */
  lemma {:induction false} EmittedAgainExactly(p: Program, engine: Engine, turns: seq<seq<Event>>, lasts: seq<M>,
                                               arrived: seq<Event>, next: M)
    requires Execution(p, engine, turns, lasts) && NeverAsksReplaying(p) && IsTurn(arrived) && RecordsInTime(lasts)
    requires lasts[|lasts| - 1].mode.Blocked? || lasts[|lasts| - 1].mode.Returned?
    requires RunsTo(p, Start(Fresh(engine), NextPast(lasts[|lasts| - 1]), arrived), next)
    ensures var last := lasts[|lasts| - 1];
            var again := Kept(last.ctx.ids.pending, AcksTaken(last, ResumesTaken(next.hist)));
            && again <= next.ctx.ids.pending
            && (forall i :: |again| <= i < |next.ctx.ids.pending| ==> next.ctx.ids.pending[i].key >= last.ctx.ids.next)
            && (forall i :: 0 <= i < |last.ctx.ids.pending| ==> last.ctx.ids.pending[i].key < last.ctx.ids.next)
  {
    hide Step, Inv, IsTurn, Kept, AcksTaken, GoesOn, NextPast, RunsTo, Front, Swallows, Shadow, Owes, ResumesTaken;
    var last := lasts[|lasts| - 1];
    var u := ReplayIsExactlyOnce(p, engine, turns, lasts);
    var steps, shadow := EndIsRebuilt(p, engine, turns, lasts, arrived);
    InvParts(last.ctx);
    var start := Start(Fresh(engine), NextPast(last), arrived);
    var n := StepsOf(p, start, next);
    ReachesSplits(p, start, steps, shadow, n, next);
    SameMode(last, shadow, arrived);
    if Swallows(shadow, Acks(last.ctx.ids.pending)) {
      var a, m := ThroughTheAcks(p, last, arrived, shadow);
      ReachesSplits(p, shadow, a, m, n - steps, next);
      RunOwes(p, m, n - steps - a, next, Front(last), last.ctx.ids.pending, last.ctx.suspended, last.ctx.ids.next);
      ReachedIsTaken(last, next);
    } else {
      var a, m := FailsAtTheAcks(p, last, shadow, arrived);
      SameEnd(p, shadow, a, m, n - steps, next);
      UnsuspendedTaken(last, ResumesTaken(next.hist));
    }
  }

  lemma SameMode(last: M, shadow: M, arrived: seq<Event>)
    requires shadow == Shadow(last, Met(last.ctx), NextPast(last), arrived)
    ensures shadow.mode == last.mode && shadow.ctx.suspended == last.ctx.suspended
    ensures Swallows(shadow, Acks(last.ctx.ids.pending)) <==> Swallows(last, Acks(last.ctx.ids.pending))
    ensures !Swallows(shadow, Acks(last.ctx.ids.pending)) ==> !last.mode.Blocked? && !last.ctx.suspended
  {
  }

  lemma UnsuspendedTaken(last: M, resumes: nat)
    requires !last.ctx.suspended
    ensures AcksTaken(last, resumes) == AcksTaken(last, 0)
  {
  }

  lemma ReachedIsTaken(last: M, next: M)
    requires Owes(next, Front(last), last.ctx.ids.pending, last.ctx.suspended, last.ctx.ids.next)
    requires last.mode.Blocked? || last.ctx.suspended || last.mode.Returned?
    requires Swallows(last, Acks(last.ctx.ids.pending))
    ensures Shape(next.ctx.ids, Kept(last.ctx.ids.pending, AcksTaken(last, ResumesTaken(next.hist))), last.ctx.ids.next)
  {
    hide Inv, Kept, Plain;
    OnePass(Acks(last.ctx.ids.pending));
  }

  lemma {:induction false} UnacknowledgedAre(pending: seq<Entry>)
    ensures forall i :: 0 <= i < |Unacknowledged(pending)| ==> Unacknowledged(pending)[i] in pending
    decreases |pending|
  {
    hide CanBeAcknowledged;
    if pending != [] {
      UnacknowledgedAre(pending[1..]);
    }
  }

  lemma KeptAre(pending: seq<Entry>, k: nat)
    requires k <= |pending|
    ensures forall i :: 0 <= i < |Kept(pending, k)| ==> Kept(pending, k)[i] in pending
    ensures Kept(pending, k) == [] <==> k == |pending| && CanBeAcknowledged(pending)
  {
    hide CanBeAcknowledged, Unacknowledged;
    UnacknowledgedAre(pending[..k]);
    NoneUnacknowledged(pending[..k]);
    assert k == |pending| ==> pending[..k] == pending;
  }

  lemma UnderstoodHaveNoError(pending: seq<Entry>)
    requires CanBeAcknowledged(pending)
    ensures forall i :: 0 <= i < |Acks(pending)| ==> !Acks(pending)[i].Unsupported?
  {
  }

  lemma AllAreTakenExactlyWhen(last: M, resumes: nat)
    requires CanBeAcknowledged(last.ctx.ids.pending) && last.ctx.ids.pending != []
    ensures AcksTaken(last, resumes) == |last.ctx.ids.pending|
            <==> (last.ctx.suspended ==> resumes > CountUnsupported(last.ctx.held))
  {
    hide CanBeAcknowledged, AckOf;
    var pending := last.ctx.ids.pending;
    UnderstoodHaveNoError(pending);
    PassedAllExactlyWhen(last.ctx.held, Acks(pending), resumes);
    OnePass(Acks(pending));
  }

  /** Nothing at all is emitted again if and only if nothing was pending, or everything
      pending has an acknowledgement that is understood and, if the turn ended suspended, the
      next one takes more resumes than the events held at that end would throw errors. */
  lemma {:induction false} NothingIsEmittedAgainExactlyWhen(p: Program, engine: Engine, turns: seq<seq<Event>>,
                                                            lasts: seq<M>, arrived: seq<Event>, next: M)
    requires Execution(p, engine, turns, lasts) && NeverAsksReplaying(p) && IsTurn(arrived) && RecordsInTime(lasts)
    requires lasts[|lasts| - 1].mode.Blocked? || lasts[|lasts| - 1].mode.Returned?
    requires RunsTo(p, Start(Fresh(engine), NextPast(lasts[|lasts| - 1]), arrived), next)
    ensures var c := lasts[|lasts| - 1].ctx;
            var clear := c.suspended ==> ResumesTaken(next.hist) > CountUnsupported(c.held);
            (forall i :: 0 <= i < |next.ctx.ids.pending| ==> next.ctx.ids.pending[i].key >= c.ids.next)
            <==> (c.ids.pending == [] || (CanBeAcknowledged(c.ids.pending) && clear))
  {
    hide IsTurn, AcksTaken, NextPast, RunsTo, NeverAsksReplaying, Kept, CanBeAcknowledged, ResumesTaken;
    var last := lasts[|lasts| - 1];
    var pending := last.ctx.ids.pending;
    EmittedAgainExactly(p, engine, turns, lasts, arrived, next);
    var k := AcksTaken(last, ResumesTaken(next.hist));
    KeptAre(pending, k);
    if pending != [] && CanBeAcknowledged(pending) {
      AllAreTakenExactlyWhen(last, ResumesTaken(next.hist));
    }
    if Kept(pending, k) != [] {
      assert next.ctx.ids.pending[0] == Kept(pending, k)[0];
    }
  }
}
