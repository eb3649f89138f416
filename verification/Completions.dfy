/** How a workflow ends: with which status and output, and when it ends by itself. */
module Completions {
  import opened WorkflowTypes
  import opened IdTable
  import opened ReplayContext
  import opened ContextInvariant
  import opened Machine
  import opened CallActions

  // ----- completing once -----

  /** Completing a running workflow by failure, termination or continue-as-new: one more
      action with that status and output. A completed one stays as it is. */
  lemma {:induction false} ClosingIsEmitted(c: Ctx, status: Status, output: string, carryover: set<Event>)
    requires Inv(c)
    ensures Close(c, status, output, carryover)
         == if c.isComplete then c
            else c.(ids := Emitting(c.ids, CompleteWorkflow(status, output, carryover), TaskRecord(0)).(open := c.ids.open),
                    isComplete := true)
  {
    hide Put, BoardOk;
    IssueEmits(c.ids, CompleteWorkflow(status, output, carryover), TaskRecord(0));
  }

  /** A termination completes the workflow even while it is suspended; a second completion
      is refused. */
  lemma {:induction false} TerminationCompletes(c: Ctx, output: string)
    requires Inv(c)
    ensures var r := ProcessEvent(c, ExecutionTerminated(output));
            && (r.threw <==> c.isComplete)
            && r.ctx == (if c.isComplete then c
                         else c.(ids := Emitting(c.ids, CompleteWorkflow(TERMINATED, output, {}), TaskRecord(0)).(open := c.ids.open),
                                 isComplete := true))
  {
    hide Put, BoardOk;
    IssueEmits(c.ids, CompleteWorkflow(TERMINATED, output, {}), TaskRecord(0));
  }

  // ----- what makes a workflow complete -----

  /** The next event that a machine which is not running takes. */
  function NextEvent(m: M): Option<Event> {
    var h := MoveOn(m.hist);
    if h.index < |Current(h)| then Some(Current(h)[h.index]) else None
  }

  /** The completion that a step brings about, as its cause says: the orchestrator's own
      call, its exception, its starting over, a termination, or an error in a handler
      outside any await. */
  ghost predicate Causes(p: Program, m: M, body: ActionBody) {
    if m.mode.Running? then
      match p(m.trace)
      case Do(call) => call.Conclude? && body == CompleteWorkflow(COMPLETED, call.output, {})
      case Throw(details) => body == CompleteWorkflow(FAILED, details, {})
      case ContinueAsNew(input, preserve) =>
        body == CompleteWorkflow(CONTINUED_AS_NEW, input, if preserve then Carryover(m.ctx, m.hist) else {})
      case _ => false
    else
      match NextEvent(m)
      case Some(ExecutionTerminated(output)) => body == CompleteWorkflow(TERMINATED, output, {})
      case Some(e) => !m.mode.Blocked? && ProcessEvent(m.ctx, e).threw && body == CompleteWorkflow(FAILED, "", {})
      case None => false
  }

  /** The completion actions among the pending ones. */
  ghost predicate OnlyCompletion(pending: seq<Entry>, body: ActionBody) {
    forall i :: 0 <= i < |pending| && pending[i].action.body.CompleteWorkflow? ==> pending[i].action.body == body
  }

  ghost predicate NoCompletion(pending: seq<Entry>) {
    forall i :: 0 <= i < |pending| ==> !pending[i].action.body.CompleteWorkflow?
  }

  lemma NoneWhileRunning(c: Ctx)
    requires Inv(c) && !c.isComplete
    ensures NoCompletion(c.ids.pending)
  {
    forall i | 0 <= i < |c.ids.pending| ensures !c.ids.pending[i].action.body.CompleteWorkflow? {
      assert !IsCompletion(c.ids.pending[i]);
    }
  }

  lemma EmittedOnly(c: Ctx, d: Ctx, body: ActionBody)
    requires Inv(c) && !c.isComplete && body.CompleteWorkflow?
    requires d.ids == Emitting(c.ids, body, TaskRecord(0)).(open := c.ids.open)
    ensures OnlyCompletion(d.ids.pending, body)
  {
    NoneWhileRunning(c);
  }

  // ----- nothing else adds or changes a completion -----

  /** Whatever completion is pending afterwards was pending before. */
  ghost predicate NoNewCompletion(t: Table, u: Table) {
    forall i :: 0 <= i < |u.pending| && u.pending[i].action.body.CompleteWorkflow? ==>
      exists j :: 0 <= j < |t.pending| && t.pending[j].action.body == u.pending[i].action.body
  }

  lemma NoNewKeepsOnly(t: Table, u: Table, body: ActionBody)
    requires NoNewCompletion(t, u)
    ensures OnlyCompletion(t.pending, body) ==> OnlyCompletion(u.pending, body)
    ensures NoCompletion(t.pending) ==> NoCompletion(u.pending)
  {
  }

  lemma NoNewTwice(t: Table, u: Table, v: Table)
    requires NoNewCompletion(t, u) && NoNewCompletion(u, v)
    ensures NoNewCompletion(t, v)
  {
  }

  lemma NoNewSame(t: Table, u: Table)
    requires u.pending == t.pending
    ensures NoNewCompletion(t, u)
  {
  }

  lemma AllotNoNew(t: Table, spends: bool, issued: Option<Issuance>)
    requires Ordered(t) && (issued.Some? ==> !issued.value.body.CompleteWorkflow?)
    ensures NoNewCompletion(t, Allot(t, spends, issued))
  {
    hide Put;
    var u := if spends then Skip(t) else t;
    if issued.Some? { IssueAppends(u, issued.value); }
  }

  lemma RemoveNoNew(t: Table, id: int)
    requires Ordered(t)
    ensures NoNewCompletion(t, t.(pending := Remove(t.pending, id)))
  {
    hide Remove, Lookup;
    RemovedIsOrdered(t, id);
  }

  lemma DropNoNew(t: Table, id: int)
    requires Ordered(t) && OptionalAt(t, id)
    ensures NoNewCompletion(t, Drop(t, id)) && Ordered(Drop(t, id))
  {
    hide Remove, RenumberAll, RenumberOpen;
    OptionalIsThere(t, id);
    DropEntries(t, IndexOf(t.pending, id));
    var i := IndexOf(t.pending, id);
    var d := Drop(t, id);
    forall k | 0 <= k < |d.pending| ensures exists j :: 0 <= j < |t.pending| && t.pending[j].action.body == d.pending[k].action.body {
      assert t.pending[if k < i then k else k + 1].action.body == d.pending[k].action.body;
    }
  }

  lemma AcknowledgeNoNew(t: Table, e: Event)
    requires Ordered(t) && IsAcknowledgement(e)
    ensures NoNewCompletion(t, Acknowledge(t, e).table)
  {
    hide Remove, Drop, Lookup, OptionalAt, Ordered, NoNewCompletion;
    var id := e.eventId;
    NoNewSame(t, t);
    RemoveNoNew(t, id);
    if OptionalAt(t, id) {
      DropNoNew(t, id);
      RemoveNoNew(Drop(t, id), id);
      NoNewTwice(t, Drop(t, id), Drop(t, id).(pending := Remove(Drop(t, id).pending, id)));
    }
  }

  lemma EndTaskNoNew(c: Ctx, id: int, o: Outcome)
    requires Inv(c)
    ensures NoNewCompletion(c.ids, EndTask(c, id, o).ids) && EndTask(c, id, o).isComplete == c.isComplete
  {
    hide Allot, BoardOk, ExpireWait;
    if id in c.ids.open {
      var e := EndRecord(c.env, c.board, c.ids.open[id], o);
      AllotNoNew(Forget(c.ids, id), e.spends, e.issued);
    }
  }

  /** Handling any event but a termination adds no completion. */
  lemma HandleNoNew(c: Ctx, e: Event)
    requires Inv(c) && !e.ExecutionTerminated?
    ensures NoNewCompletion(c.ids, Handle(c, e).ctx.ids) && Handle(c, e).ctx.isComplete == c.isComplete
  {
    hide Acknowledge, EndTask, RaiseEvent, BoardOk, Ordered, NoNewCompletion;
    NoNewSame(c.ids, c.ids);
    InvParts(c);
    if IsAcknowledgement(e) {
      AcknowledgeNoNew(c.ids, e);
    } else if Ending(e).Some? {
      EndTaskNoNew(c, Ending(e).value.0, Ending(e).value.1);
    }
  }

  lemma {:induction false} DrainNoNew(c: Ctx)
    requires Inv(c)
    ensures NoNewCompletion(c.ids, Drain(c).ctx.ids) && Drain(c).ctx.isComplete == c.isComplete
    decreases |c.held|
  {
    hide Handle, NoNewCompletion, IdsOk, BoardOk;
    NoNewSame(c.ids, c.ids);
    if c.held != [] {
      var d := c.(held := c.held[1..]);
      assert Ordinary(c.held[0]);
      HandleNoNew(d, c.held[0]);
      HandleKeepsInv(d, c.held[0]);
      HandleKeepsHeld(d, c.held[0]);
      if !Handle(d, c.held[0]).threw {
        DrainNoNew(Handle(d, c.held[0]).ctx);
        NoNewTwice(c.ids, Handle(d, c.held[0]).ctx.ids, Drain(c).ctx.ids);
      }
    }
  }

  lemma ProcessNoNew(c: Ctx, e: Event)
    requires Inv(c) && !e.ExecutionTerminated?
    ensures NoNewCompletion(c.ids, ProcessEvent(c, e).ctx.ids) && ProcessEvent(c, e).ctx.isComplete == c.isComplete
  {
    hide Handle, Drain, Inv, NoNewCompletion;
    NoNewSame(c.ids, c.ids);
    HandleNoNew(c, e);
    Unsuspended(c);
    DrainNoNew(c.(suspended := false));
  }

  lemma CallNoNew(c: Ctx, call: Call)
    requires Inv(c) && (!call.Conclude? || c.isComplete)
    ensures NoNewCompletion(c.ids, Attempt(c, call).ids) && Attempt(c, call).isComplete == c.isComplete
  {
    hide Allot, BoardOk, NoNewCompletion, FindBuffered, ParkWait;
    NoNewSame(c.ids, c.ids);
    if !c.isComplete {
      var e := Perform(c.env, c.board, call);
      AllotNoNew(c.ids, e.spends, e.issued);
    }
  }

  // ----- one step, and a whole run -----

  /** A step leaves the completions alone, or completes the workflow as its cause says. */
  lemma StepCompletesAs(p: Program, m: M) returns (body: ActionBody)
    requires Inv(m.ctx) && !Halted(p, m)
    ensures var c := Step(p, m).value.ctx;
            if m.ctx.isComplete || !c.isComplete then
              c.isComplete == m.ctx.isComplete && NoNewCompletion(m.ctx.ids, c.ids)
            else Causes(p, m, body) && body.CompleteWorkflow? && OnlyCompletion(c.ids.pending, body)
  {
    hide Attempt, Close, ProcessEvent, Inv, NoNewCompletion, OnlyCompletion;
    body := CompleteWorkflow(FAILED, "", {});
    NoNewSame(m.ctx.ids, m.ctx.ids);
    if m.mode.Running? {
      match p(m.trace) {
        case Do(call) =>
          if call.Conclude? && !m.ctx.isComplete {
            body := CompleteWorkflow(COMPLETED, call.output, {});
            ConclusionIsEmitted(m.ctx, call.output);
            EmittedOnly(m.ctx, Attempt(m.ctx, call), body);
          } else {
            CallNoNew(m.ctx, call);
          }
        case Throw(details) => body := ClosesAs(m.ctx, FAILED, details, {});
        case ContinueAsNew(input, preserve) =>
          body := ClosesAs(m.ctx, CONTINUED_AS_NEW, input, if preserve then Carryover(m.ctx, m.hist) else {});
        case _ =>
      }
    } else if TakesEvents(m) {
      body := ReceiveCompletesAs(p, m, NextEvent(m).value);
    }
  }

  lemma ClosesAs(c: Ctx, status: Status, output: string, carryover: set<Event>) returns (body: ActionBody)
    requires Inv(c)
    ensures body == CompleteWorkflow(status, output, carryover)
    ensures var d := Close(c, status, output, carryover);
            && d.isComplete
            && (c.isComplete ==> NoNewCompletion(c.ids, d.ids))
            && (!c.isComplete ==> OnlyCompletion(d.ids.pending, body))
  {
    hide Close, Inv;
    body := CompleteWorkflow(status, output, carryover);
    ClosingIsEmitted(c, status, output, carryover);
    if !c.isComplete { EmittedOnly(c, Close(c, status, output, carryover), body); }
    NoNewSame(c.ids, c.ids);
  }

  lemma ReceiveCompletesAs(p: Program, m: M, e: Event) returns (body: ActionBody)
    requires Inv(m.ctx) && !m.mode.Running? && NextEvent(m) == Some(e)
    ensures var c := Receive(m.(hist := MoveOn(m.hist).(index := MoveOn(m.hist).index + 1)), e).ctx;
            if m.ctx.isComplete || !c.isComplete then
              c.isComplete == m.ctx.isComplete && NoNewCompletion(m.ctx.ids, c.ids)
            else Causes(p, m, body) && body.CompleteWorkflow? && OnlyCompletion(c.ids.pending, body)
  {
    hide ProcessEvent, Inv, NoNewCompletion, OnlyCompletion, Close;
    body := CompleteWorkflow(FAILED, "", {});
    NoNewSame(m.ctx.ids, m.ctx.ids);
    var r := ProcessEvent(m.ctx, e);
    ProcessKeepsInv(m.ctx, e);
    if e.ExecutionTerminated? {
      TerminationCompletes(m.ctx, e.output);
      if m.ctx.isComplete {
        var other := ClosesAs(r.ctx, FAILED, "", {});
      } else {
        body := CompleteWorkflow(TERMINATED, e.output, {});
        EmittedOnly(m.ctx, r.ctx, body);
      }
    } else {
      ProcessNoNew(m.ctx, e);
      body := ClosesAs(r.ctx, FAILED, "", {});
      if m.ctx.isComplete { NoNewTwice(m.ctx.ids, r.ctx.ids, Close(r.ctx, FAILED, "", {}).ids); }
    }
  }

  /** In every run: a completion that is pending is the one that the step which completed the
      workflow brought about: COMPLETED with the output concluded with, FAILED with what was
      thrown, TERMINATED with what it was terminated with, CONTINUED_AS_NEW with the next
      input and what is carried over. */
  lemma {:induction false} CompletesAsItsCause(p: Program, m: M, n: nat, last: M) returns (k: nat, mid: M, body: ActionBody)
    requires Inv(m.ctx) && !m.ctx.isComplete && Reaches(p, m, n, last)
    ensures !last.ctx.isComplete ==> NoCompletion(last.ctx.ids.pending)
    ensures last.ctx.isComplete ==>
              k < n && Reaches(p, m, k, mid) && !mid.ctx.isComplete && Causes(p, mid, body)
              && OnlyCompletion(last.ctx.ids.pending, body)
    decreases n
  {
    hide Step, Inv, Causes, OnlyCompletion, NoCompletion, NoNewCompletion;
    NoneWhileRunning(m.ctx);
    k, mid, body := 0, m, CompleteWorkflow(FAILED, "", {});
    if n > 0 {
      var next := Step(p, m).value;
      StepKeepsInv(p, m);
      body := StepCompletesAs(p, m);
      if next.ctx.isComplete {
        StaysCompleted(p, next, n - 1, last, body);
      } else {
        k, mid, body := CompletesAsItsCause(p, next, n - 1, last);
        k := k + 1;
      }
    }
  }

  lemma {:induction false} StaysCompleted(p: Program, m: M, n: nat, last: M, body: ActionBody)
    requires Inv(m.ctx) && m.ctx.isComplete && OnlyCompletion(m.ctx.ids.pending, body) && Reaches(p, m, n, last)
    ensures last.ctx.isComplete && OnlyCompletion(last.ctx.ids.pending, body)
    decreases n
  {
    hide Step, Inv, OnlyCompletion, NoNewCompletion, Causes;
    if n > 0 {
      var next := Step(p, m).value;
      StepKeepsInv(p, m);
      var other := StepCompletesAs(p, m);
      NoNewKeepsOnly(m.ctx.ids, next.ctx.ids, body);
      StaysCompleted(p, next, n - 1, last, body);
    }
  }

  // ----- ending for good -----

  /** What ends the turn at once: an exception of the orchestrator, its starting over while
      the workflow is not complete, or an event whose handler throws outside any await. */
  ghost predicate EndsTurn(p: Program, m: M) {
    if m.mode.Running? then p(m.trace).Throw? || (p(m.trace).ContinueAsNew? && !m.ctx.isComplete)
    else TakesEvents(m) && !m.mode.Blocked? && NextEvent(m).Some? && ProcessEvent(m.ctx, NextEvent(m).value).threw
  }

  lemma Closes(c: Ctx, status: Status, output: string, carryover: set<Event>)
    ensures Close(c, status, output, carryover).isComplete
  {
    hide Put;
  }

  lemma ThrowingKeepsComplete(c: Ctx, e: Event)
    requires Inv(c) && ProcessEvent(c, e).threw
    ensures ProcessEvent(c, e).ctx.isComplete == c.isComplete
  {
    hide ProcessEvent, Inv;
    if e.ExecutionTerminated? {
      TerminationCompletes(c, e.output);
    } else {
      ProcessNoNew(c, e);
    }
  }

  /** A step ends the turn exactly for those causes. It completes the workflow, or crashes
      exactly if that was complete before: then not even the failure can be recorded. Any
      other step leaves the orchestrator running, waiting for its start or for a task, or done;
      done exactly by its return, waiting exactly by an await. */
  lemma {:induction false} EndsTurnExactlyWhen(p: Program, m: M)
    requires Inv(m.ctx) && !Halted(p, m)
    ensures var n := Step(p, m).value;
            && (n.mode.Stopped? || n.mode.Crashed? <==> EndsTurn(p, m))
            && (n.mode.Stopped? ==> !m.ctx.isComplete && n.ctx.isComplete)
            && (n.mode.Crashed? ==> m.ctx.isComplete && NoNewCompletion(m.ctx.ids, n.ctx.ids))
            && (n.mode.Returned? <==> (m.mode.Running? && p(m.trace).Return?) || (m.mode.Returned? && !EndsTurn(p, m)))
            && (m.mode.Running? ==> (n.mode.Blocked? <==> p(m.trace).Await?))
  {
    hide Attempt, ProcessEvent, Inv, Carryover, Close, NoNewCompletion;
    var body := StepCompletesAs(p, m);
    NoNewSame(m.ctx.ids, m.ctx.ids);
    if m.mode.Running? {
      match p(m.trace) {
        case Throw(details) => Closes(m.ctx, FAILED, details, {});
        case ContinueAsNew(input, preserve) =>
          Closes(m.ctx, CONTINUED_AS_NEW, input, if preserve then Carryover(m.ctx, m.hist) else {});
        case _ =>
      }
    } else if EndsTurn(p, m) {
      ThrowingKeepsComplete(m.ctx, NextEvent(m).value);
      Closes(ProcessEvent(m.ctx, NextEvent(m).value).ctx, FAILED, "", {});
    }
  }

  // ----- ending by itself -----

  /** A timer that belongs to an event wait. */
  ghost predicate IsWaitTimer(body: ActionBody) {
    exists name, fireAt, event :: body == CreateTimer(name, fireAt, ExternalEvent(event))
  }

  lemma OnlyWaitTimers(pending: seq<Entry>)
    ensures OnlyEventTimers(pending) <==> forall i :: 0 <= i < |pending| ==> IsWaitTimer(pending[i].action.body)
  {
    forall i | 0 <= i < |pending|
      ensures IsWaitTimer(pending[i].action.body)
              <==> pending[i].action.body.CreateTimer? && pending[i].action.body.origin.ExternalEvent?
    {
      var b := pending[i].action.body;
      if b.CreateTimer? && b.origin.ExternalEvent? { assert b == CreateTimer(b.timerName, b.fireAt, ExternalEvent(b.origin.event)); }
    }
  }

  /** A turn whose orchestrator did not yield completes the workflow, with status COMPLETED
      and no output, exactly when that is still open, no event wait is unfinished, and
      nothing is pending but timers of event waits. Else it changes nothing. */
  lemma {:induction false} EndsByItselfExactlyWhen(m: M)
    requires Inv(m.ctx)
    ensures var idle := (m.mode.NotStarted? || m.mode.Returned?) && !m.ctx.isComplete
                        && (forall x: nat :: !IsUnfinishedWait(m.ctx.board.cells, x))
                        && (forall i :: 0 <= i < |m.ctx.ids.pending| ==> IsWaitTimer(m.ctx.ids.pending[i].action.body));
            EndTurn(m) == if idle
              then m.ctx.(ids := Emitting(m.ctx.ids, CompleteWorkflow(COMPLETED, "", {}), TaskRecord(0)).(open := m.ctx.ids.open),
                          isComplete := true)
              else m.ctx
  {
    hide Close, Inv, OnlyEventTimers, IsUnfinishedWait, IsWaitTimer;
    ClosingIsEmitted(m.ctx, COMPLETED, "", {});
    NoneWaits(m.ctx);
    OnlyWaitTimers(m.ctx.ids.pending);
  }

  /** Names are mapped exactly while waits are unfinished. */
  lemma NoneWaits(c: Ctx)
    requires Inv(c)
    ensures c.board.waits.names == map[] <==> forall x: nat :: !IsUnfinishedWait(c.board.cells, x)
  {
    var b := c.board;
    if x: nat :| IsUnfinishedWait(b.cells, x) {
      assert IsParked(b.cells, b.waits, x);
    }
    if b.waits.names.Keys != {} {
      var name :| name in b.waits.names.Keys;
      var q := b.waits.names[name];
      assert QueueOk(b.cells, b.waits, q, b.waits.queues[q]);
      assert b.waits.queues[q][0] in b.waits.queues[q];
      assert IsUnfinishedWait(b.cells, b.waits.queues[q][0]);
    } else {
      assert b.waits.names == map[];
    }
  }
}
