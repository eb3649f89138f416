/** Activities and child workflows: when their task ends, with what outcome, and what an
    orchestrator that awaits it is told. */
module TaskOutcomes {
  import opened WorkflowTypes
  import opened IdTable
  import opened ReplayContext
  import opened ContextInvariant
  import opened Machine

  // ----- one completion -----

  /** The four events that end an activity or a child, as the history has them. */
  datatype Answer = Answered(event: Event, id: int, outcome: Outcome)

  ghost predicate IsAnswer(a: Answer) {
    || (exists result :: a.event == TaskCompleted(a.id, result) && a.outcome == Value(result))
    || (exists result :: a.event == ChildCompleted(a.id, result) && a.outcome == Value(result))
    || (exists details :: a.event == TaskFailed(a.id, details) && a.outcome == Failure(details))
    || (exists details :: a.event == ChildFailed(a.id, details) && a.outcome == Failure(details))
  }

  /** A result ends the task with that value, a failure with that failure: its task and no
      other, and the id is no longer open. Nothing else changes. */
  lemma {:induction false} AnswerEndsItsTask(c: Ctx, a: Answer, x: nat)
    requires Inv(c) && !c.suspended && IsAnswer(a)
    requires a.id in c.ids.open && c.ids.open[a.id] == TaskRecord(x)
    requires x < |c.board.cells| && c.board.cells[x].future.Pending?
    ensures ProcessEvent(c, a.event)
         == Handled(c.(ids := c.ids.(open := c.ids.open - {a.id}),
                       board := c.board.(cells := c.board.cells[x := Cell(TaskCell, a.outcome, a.outcome)])), false)
  {
    hide Ordered, WaitsOk;
    assert RecordOk(c.board.cells, c.ids.open[a.id]);
  }

  /** An answer for an id that is not open is a duplicate: it changes nothing. */
  lemma DuplicateIsIgnored(c: Ctx, a: Answer)
    requires !c.suspended && IsAnswer(a) && a.id !in c.ids.open
    ensures ProcessEvent(c, a.event) == Handled(c, false)
  {
  }

  /** An orchestrator blocked on the task goes on with that outcome. */
  lemma {:induction false} AwaitLearns(p: Program, m: M, a: Answer, x: nat) returns (next: M)
    requires Inv(m.ctx) && !m.ctx.suspended && m.mode == Blocked(x) && IsAnswer(a)
    requires a.id in m.ctx.ids.open && m.ctx.ids.open[a.id] == TaskRecord(x)
    requires x < |m.ctx.board.cells| && m.ctx.board.cells[x].future.Pending? && m.ctx.board.cells[x].visible.Pending?
    requires var h := MoveOn(m.hist); h.index < |Current(h)| && Current(h)[h.index] == a.event
    ensures Reaches(p, m, 2, next) && next.mode == Running && next.trace == m.trace + [Result(a.outcome)]
    ensures next.hist == MoveOn(m.hist).(index := MoveOn(m.hist).index + 1)
  {
    hide Inv, ProcessEvent, Reaches;
    AnswerEndsItsTask(m.ctx, a, x);
    ReachesItself(p, m);
    next := ThenEvent(p, m, 0, m, a.event);
    next := ThenDone(p, m, 1, next);
  }

  lemma ReachesItself(p: Program, m: M)
    ensures Reaches(p, m, 0, m)
  {
  }

  // ----- which tasks are unfinished -----

  ghost predicate OpenFor(open: map<int, Record>, id: int, x: nat) {
    id in open && open[id] == TaskRecord(x)
  }

  /** A task is unfinished exactly as long as an id is open for it, and never more than one
      is. What its await sees is its outcome. */
  ghost predicate TasksOk(cells: seq<Cell>, open: map<int, Record>) {
    && (forall id, x: nat :: OpenFor(open, id, x) ==> IsUnfinishedTask(cells, x))
    && (forall id, other, x: nat :: OpenFor(open, id, x) && OpenFor(open, other, x) ==> id == other)
    && (forall x: nat :: IsUnfinishedTask(cells, x) ==> HasOpen(open, x))
    && (forall x :: 0 <= x < |cells| && cells[x].kind.TaskCell? ==> cells[x].visible == cells[x].future)
  }

  ghost predicate IsUnfinishedTask(cells: seq<Cell>, x: nat) {
    x < |cells| && cells[x].kind.TaskCell? && cells[x].future.Pending?
  }

  ghost predicate HasOpen(open: map<int, Record>, x: nat) {
    exists id :: OpenFor(open, id, x)
  }

  /** Cells that are not tasks do not matter. */
  lemma OtherCellsKeepTasks(cells: seq<Cell>, cells': seq<Cell>, open: map<int, Record>)
    requires TasksOk(cells, open) && |cells| <= |cells'|
    requires forall x :: 0 <= x < |cells| && cells[x].kind.TaskCell? ==> cells'[x] == cells[x]
    requires forall x :: 0 <= x < |cells'| && cells'[x].kind.TaskCell? ==> x < |cells| && cells[x].kind.TaskCell?
    ensures TasksOk(cells', open)
  {
    forall x: nat | IsUnfinishedTask(cells', x) ensures HasOpen(open, x) {
      assert IsUnfinishedTask(cells, x);
    }
    forall id, x: nat | OpenFor(open, id, x) ensures IsUnfinishedTask(cells', x) {
      assert IsUnfinishedTask(cells, x);
    }
  }

  lemma OtherRecordsKeepTasks(cells: seq<Cell>, open: map<int, Record>, open': map<int, Record>)
    requires TasksOk(cells, open) && forall id, x: nat :: OpenFor(open', id, x) <==> OpenFor(open, id, x)
    ensures TasksOk(cells, open')
  {
    forall x: nat | IsUnfinishedTask(cells, x) ensures HasOpen(open', x) {
      var id :| OpenFor(open, id, x);
      assert OpenFor(open', id, x);
    }
  }

  lemma RenumberKeepsTasks(cells: seq<Cell>, open: map<int, Record>, at: int)
    requires TasksOk(cells, open) && (at in open ==> !open[at].TaskRecord?)
    ensures TasksOk(cells, RenumberOpen(open, at))
  {
    DownIsBijective(open, at);
    var r := RenumberOpen(open, at);
    hide RenumberOpen;
    forall id, x: nat | OpenFor(r, id, x) ensures IsUnfinishedTask(cells, x) {
      assert r[Down(at, Up(at, id))] == open[Up(at, id)];
      assert OpenFor(open, Up(at, id), x);
    }
    forall id, other, x: nat | OpenFor(r, id, x) && OpenFor(r, other, x) ensures id == other {
      assert r[Down(at, Up(at, id))] == open[Up(at, id)] && r[Down(at, Up(at, other))] == open[Up(at, other)];
      assert OpenFor(open, Up(at, id), x) && OpenFor(open, Up(at, other), x);
    }
    forall x: nat | IsUnfinishedTask(cells, x) ensures HasOpen(r, x) {
      var id :| OpenFor(open, id, x);
      assert OpenFor(r, Down(at, id), x);
    }
  }

  /** A new task: its cell and its record come together. */
  lemma NewTaskKeepsTasks(cells: seq<Cell>, open: map<int, Record>, next: int)
    requires TasksOk(cells, open) && next !in open
    ensures TasksOk(cells + [Cell(TaskCell, Pending, Pending)], open[next := TaskRecord(|cells|)])
  {
    var cells', open' := cells + [Cell(TaskCell, Pending, Pending)], open[next := TaskRecord(|cells|)];
    forall id, x: nat | OpenFor(open', id, x)
      ensures IsUnfinishedTask(cells', x) && (id == next <==> x == |cells|) && (id != next ==> OpenFor(open, id, x))
    {
      if id != next { assert OpenFor(open, id, x); assert IsUnfinishedTask(cells, x); }
    }
    forall x: nat | IsUnfinishedTask(cells', x) ensures HasOpen(open', x) {
      if x < |cells| {
        assert IsUnfinishedTask(cells, x);
        var id :| OpenFor(open, id, x);
        assert OpenFor(open', id, x);
      } else {
        assert OpenFor(open', next, x);
      }
    }
  }

  /** A task that ends: its outcome and its record go together. */
  lemma EndKeepsTasks(cells: seq<Cell>, open: map<int, Record>, id: int, x: nat, o: Outcome)
    requires TasksOk(cells, open) && OpenFor(open, id, x) && !o.Pending?
    ensures TasksOk(Settle(cells, x, o), open - {id})
  {
    var cells', open' := Settle(cells, x, o), open - {id};
    assert IsUnfinishedTask(cells, x);
    forall other, y: nat | OpenFor(open', other, y) ensures IsUnfinishedTask(cells', y) && OpenFor(open, other, y) {
      assert OpenFor(open, other, y);
      assert IsUnfinishedTask(cells, y);
    }
    forall y: nat | IsUnfinishedTask(cells', y) ensures HasOpen(open', y) {
      assert IsUnfinishedTask(cells, y);
      var other :| OpenFor(open, other, y);
      assert OpenFor(open', other, y);
    }
  }

  // ----- actions and records under one id belong together -----

  predicate Fit(rec: Record, body: ActionBody) {
    if rec.TaskRecord? then body.ScheduleTask? || body.CreateChild? else body.CreateTimer?
  }

  /** The action pending under an open id is the one that its record was made with. */
  ghost predicate Aligned(t: Table) {
    forall i :: 0 <= i < |t.pending| && t.pending[i].key in t.open ==> Fit(t.open[t.pending[i].key], t.pending[i].action.body)
  }

  lemma AllotKeepsAligned(t: Table, spends: bool, issued: Option<Issuance>)
    requires Ordered(t) && Aligned(t)
    requires issued.Some? && issued.value.Opened? ==> Fit(issued.value.rec, issued.value.body)
    ensures Aligned(Allot(t, spends, issued))
  {
    hide Put, Fit;
    var u := if spends then Skip(t) else t;
    if issued.Some? {
      IssueAppends(u, issued.value);
      FreshId(u);
    }
  }

  lemma RemoveKeepsAligned(t: Table, id: int)
    requires Ordered(t) && Aligned(t)
    ensures Aligned(t.(pending := Remove(t.pending, id)))
  {
    hide Remove, Lookup, Fit;
    RemovedIsOrdered(t, id);
  }

  lemma DropKeepsAligned(t: Table, i: nat)
    requires Ordered(t) && Aligned(t) && i < |t.pending| && IsOptionalTimer(t.pending[i].action.body)
    ensures Aligned(Drop(t, t.pending[i].key))
  {
    hide Remove, RenumberAll, RenumberOpen, Fit;
    var at := t.pending[i].key;
    var d := Drop(t, at);
    DropEntries(t, i);
    DownIsBijective(t.open, at);
    forall k | 0 <= k < |d.pending| && d.pending[k].key in d.open
      ensures Fit(d.open[d.pending[k].key], d.pending[k].action.body)
    {
      var j := if k < i then k else k + 1;
      assert d.pending[k].key == Down(at, t.pending[j].key) && d.pending[k].action.body == t.pending[j].action.body;
      assert Up(at, d.pending[k].key) == t.pending[j].key;
      assert d.open[Down(at, t.pending[j].key)] == t.open[t.pending[j].key];
    }
  }

  /** Dropping a synthetic timer takes no task's record with it. */
  lemma DropKeepsBoth(cells: seq<Cell>, t: Table, id: int)
    requires TasksOk(cells, t.open) && Aligned(t) && Ordered(t) && OptionalAt(t, id)
    ensures var u := Drop(t, id); TasksOk(cells, u.open) && Aligned(u) && Ordered(u)
  {
    hide TasksOk, RenumberOpen, RenumberAll, Remove;
    var i := IndexOf(t.pending, id);
    OptionalIsThere(t, id);
    DropKeepsAligned(t, i);
    DropKeepsOrder(t, id);
    RenumberKeepsTasks(cells, t.open, id);
  }

  lemma AcknowledgeKeepsBoth(cells: seq<Cell>, t: Table, e: Event)
    requires TasksOk(cells, t.open) && Aligned(t) && Ordered(t) && IsAcknowledgement(e)
    ensures var u := Acknowledge(t, e).table; TasksOk(cells, u.open) && Aligned(u)
  {
    hide TasksOk, Aligned, Ordered, Drop, Remove, Lookup;
    RemoveKeepsAligned(t, e.eventId);
    if OptionalAt(t, e.eventId) {
      DropKeepsBoth(cells, t, e.eventId);
      RemoveKeepsAligned(Drop(t, e.eventId), e.eventId);
    }
  }

  // ----- every call and every event keeps that -----

  ghost predicate TasksStay(c: Ctx) {
    Inv(c) && TasksOk(c.board.cells, c.ids.open) && Aligned(c.ids)
  }

  /** An effect that starts no task and ends none. */
  ghost predicate SparesTasks(b: Board, e: Effect) {
    && |b.cells| <= |e.board.cells|
    && (forall x :: 0 <= x < |b.cells| && b.cells[x].kind.TaskCell? ==> e.board.cells[x] == b.cells[x])
    && (forall x :: 0 <= x < |e.board.cells| && e.board.cells[x].kind.TaskCell? ==> x < |b.cells| && b.cells[x].kind.TaskCell?)
    && (e.issued.Some? && e.issued.value.Opened? ==> !e.issued.value.rec.TaskRecord? && e.issued.value.body.CreateTimer?)
  }

  lemma SparingKeepsTasks(b: Board, t: Table, e: Effect)
    requires TasksOk(b.cells, t.open) && Aligned(t) && SparesTasks(b, e) && Ordered(t)
    ensures TasksOk(e.board.cells, Allot(t, e.spends, e.issued).open) && Aligned(Allot(t, e.spends, e.issued))
  {
    hide Put, TasksOk;
    AllotKeepsAligned(t, e.spends, e.issued);
    OtherCellsKeepTasks(b.cells, e.board.cells, t.open);
    var open := Allot(t, e.spends, e.issued).open;
    forall id, x: nat ensures OpenFor(open, id, x) <==> OpenFor(t.open, id, x) {
    }
    OtherRecordsKeepTasks(e.board.cells, t.open, open);
  }

  lemma EndRecordSparesTasks(env: Env, b: Board, rec: Record, o: Outcome)
    requires RecordOk(b.cells, rec) && !rec.TaskRecord?
    ensures SparesTasks(b, EndRecord(env, b, rec, o))
  {
  }

  lemma ForgetKeepsBoth(t: Table, id: int)
    requires Ordered(t) && Aligned(t)
    ensures Ordered(Forget(t, id)) && Aligned(Forget(t, id))
  {
    hide Fit;
  }

  lemma EndTaskKeepsTasks(c: Ctx, id: int, o: Outcome)
    requires TasksStay(c) && !o.Pending?
    ensures TasksOk(EndTask(c, id, o).board.cells, EndTask(c, id, o).ids.open) && Aligned(EndTask(c, id, o).ids)
  {
    hide Allot, EndRecord, RecordOk, TasksOk, Ordered, WaitsOk, Aligned;
    if id in c.ids.open {
      var rec := c.ids.open[id];
      var t := Forget(c.ids, id);
      ForgetKeepsBoth(c.ids, id);
      if rec.TaskRecord? {
        EndKeepsTasks(c.board.cells, c.ids.open, id, rec.cell, o);
        TaskEffect(c, id, rec.cell, o);
      } else {
        assert RecordOk(c.board.cells, rec);
        EndRecordSparesTasks(c.env, c.board, rec, o);
        forall other, x: nat ensures OpenFor(t.open, other, x) <==> OpenFor(c.ids.open, other, x) {
        }
        OtherRecordsKeepTasks(c.board.cells, c.ids.open, t.open);
        SparingKeepsTasks(c.board, t, EndRecord(c.env, c.board, rec, o));
      }
    }
  }

  lemma TaskEffect(c: Ctx, id: int, x: nat, o: Outcome)
    requires OpenFor(c.ids.open, id, x)
    ensures EndTask(c, id, o).board.cells == Settle(c.board.cells, x, o)
    ensures EndTask(c, id, o).ids == Forget(c.ids, id)
  {
  }

  lemma RaiseSparesTasks(b: Board, open: map<int, Record>, e: Event)
    requires BoardOk(b, open) && e.EventRaised?
    ensures RaiseEvent(b, e).Some? && SparesTasks(b, Effect(RaiseEvent(b, e).value, false, None))
  {
    hide Leave;
    if e.name in b.waits.names {
      var q := b.waits.names[e.name];
      assert QueueOk(b.cells, b.waits, q, b.waits.queues[q]);
      assert b.waits.queues[q][0] in b.waits.queues[q];
    }
  }

  lemma HandleKeepsTasks(c: Ctx, e: Event)
    requires TasksStay(c)
    ensures TasksStay(Handle(c, e).ctx)
  {
    hide Inv, Acknowledge, EndTask, RaiseEvent, TasksOk, Aligned, Put;
    HandleKeepsInv(c, e);
    InvParts(c);
    if IsAcknowledgement(e) {
      AcknowledgeKeepsBoth(c.board.cells, c.ids, e);
    } else if Ending(e).Some? {
      EndTaskKeepsTasks(c, Ending(e).value.0, Ending(e).value.1);
    } else if e.EventRaised? {
      RaiseSparesTasks(c.board, c.ids.open, e);
      SparingKeepsTasks(c.board, c.ids, Effect(RaiseEvent(c.board, e).value, false, None));
    } else if e.ExecutionTerminated? {
      CloseKeepsTasks(c, TERMINATED, e.output, {});
    }
  }

  lemma CloseKeepsTasks(c: Ctx, status: Status, output: string, carryover: set<Event>)
    requires TasksStay(c)
    ensures TasksStay(Close(c, status, output, carryover))
  {
    hide Inv, TasksOk, Aligned, Put, Ordered;
    InvParts(c);
    ApplyKeepsInv(c, Closed(status, output, carryover));
    AllotKeepsAligned(c.ids, false, Some(Quiet(CompleteWorkflow(status, output, carryover))));
  }

  lemma {:induction false} DrainKeepsTasks(c: Ctx)
    requires TasksStay(c)
    ensures TasksStay(Drain(c).ctx)
    decreases |c.held|
  {
    hide Handle, Inv, TasksOk, Aligned;
    if c.held != [] {
      var d := c.(held := c.held[1..]);
      FewerHeld(c);
      HandleKeepsTasks(d, c.held[0]);
      HandleKeepsHeld(d, c.held[0]);
      if !Handle(d, c.held[0]).threw { DrainKeepsTasks(Handle(d, c.held[0]).ctx); }
    }
  }

  lemma NewTaskStays(c: Ctx, body: ActionBody)
    requires TasksStay(c) && (body.ScheduleTask? || body.CreateChild?)
    ensures var e := NewTask(c.board, body);
            TasksOk(e.board.cells, Allot(c.ids, e.spends, e.issued).open) && Aligned(Allot(c.ids, e.spends, e.issued))
  {
    hide TasksOk, BoardOk, Put;
    FreshId(c.ids);
    NewTaskKeepsTasks(c.board.cells, c.ids.open, c.ids.next);
    AllotKeepsAligned(c.ids, false, Some(Opened(body, TaskRecord(|c.board.cells|))));
  }

  lemma PerformSparesTasks(env: Env, b: Board, call: Call)
    requires !call.CallActivity? && !call.CallChild?
    ensures SparesTasks(b, Perform(env, b, call))
  {
    hide FindBuffered, IsInfiniteTimeout, Park;
  }

  lemma CallKeepsTasks(c: Ctx, call: Call)
    requires TasksStay(c)
    ensures TasksStay(Attempt(c, call))
  {
    hide Inv, Allot, NewTask, Wait, NewTimer, TasksOk, Aligned;
    CallKeepsInv(c, call);
    InvParts(c);
    if !c.isComplete {
      match call {
        case CallActivity(name, input) => NewTaskStays(c, ScheduleTask(name, input));
        case CallChild(name, instance, input) => NewTaskStays(c, CreateChild(name, instance, input));
        case _ =>
          PerformSparesTasks(c.env, c.board, call);
          SparingKeepsTasks(c.board, c.ids, Perform(c.env, c.board, call));
      }
    }
  }

  lemma ApplyKeepsTasks(c: Ctx, i: Input)
    requires TasksStay(c)
    ensures TasksStay(Apply(c, i))
  {
    hide Attempt, Handle, Drain, Inv, TasksOk, Aligned, Close;
    ApplyKeepsInv(c, i);
    match i {
      case Made(call) => CallKeepsTasks(c, call);
      case Closed(status, output, carryover) => CloseKeepsTasks(c, status, output, carryover);
      case Asked(_, _) =>
      case Happened(e) =>
        HandleKeepsTasks(c, e);
        Unsuspended(c);
        DrainKeepsTasks(c.(suspended := false));
    }
  }

  lemma {:induction false} RunKeepsTasks(c: Ctx, inputs: seq<Input>)
    requires TasksStay(c)
    ensures TasksStay(ApplyAll(c, inputs))
    decreases |inputs|
  {
    hide TasksStay, Apply;
    if inputs != [] {
      ApplyKeepsTasks(c, inputs[0]);
      RunKeepsTasks(Apply(c, inputs[0]), inputs[1..]);
    }
  }

  lemma InitialTasks(synthetic: bool, maxInterval: int)
    ensures TasksStay(Initial(synthetic, maxInterval))
  {
    InitialInv(synthetic, maxInterval);
  }

  /** In every reachable state an activity or child is unfinished exactly as long as an id
      is open for it, and then only one is; what an await sees of it is its outcome; and an
      action pending under an open id is the one its record was made with. */
  lemma {:induction false} UnfinishedIffOpen(synthetic: bool, maxInterval: int, inputs: seq<Input>, x: nat)
    ensures var c := ApplyAll(Initial(synthetic, maxInterval), inputs);
            && (IsUnfinishedTask(c.board.cells, x) <==> HasOpen(c.ids.open, x))
            && (forall id, other :: OpenFor(c.ids.open, id, x) && OpenFor(c.ids.open, other, x) ==> id == other)
            && (x < |c.board.cells| && c.board.cells[x].kind.TaskCell? ==>
                  c.board.cells[x].visible == c.board.cells[x].future)
            && Aligned(c.ids)
  {
    hide Inv, Aligned;
    InitialTasks(synthetic, maxInterval);
    RunKeepsTasks(Initial(synthetic, maxInterval), inputs);
  }

  // ----- every outcome was said by an event -----

  /** The event ends a task with this outcome. (A timer event whose id belongs to a task ends
      it with nothing.) */
  predicate Says(e: Event, o: Outcome) {
    match e
    case TaskCompleted(_, result) => o == Value(result)
    case ChildCompleted(_, result) => o == Value(result)
    case TaskFailed(_, details) => o == Failure(details)
    case ChildFailed(_, details) => o == Failure(details)
    case TimerFired(_) => o == Value("")
    case _ => false
  }

  predicate Said(seen: set<Event>, o: Outcome) {
    exists e :: e in seen && Says(e, o)
  }

  ghost predicate Told(c: Ctx, seen: set<Event>) {
    && Inv(c) && (forall e :: e in c.held ==> e in seen)
    && TasksTold(c.board.cells, seen)
  }

  ghost predicate TasksTold(cells: seq<Cell>, seen: set<Event>) {
    forall x :: 0 <= x < |cells| && cells[x].kind.TaskCell? && !cells[x].future.Pending? ==> Said(seen, cells[x].future)
  }

  lemma EndTaskTells(c: Ctx, id: int, o: Outcome, e: Event, seen: set<Event>)
    requires Inv(c) && TasksTold(c.board.cells, seen) && e in seen && Says(e, o)
    ensures TasksTold(EndTask(c, id, o).board.cells, seen)
  {
    hide Allot, EndRecord, RecordOk, Ordered, WaitsOk;
    if id in c.ids.open {
      var rec := c.ids.open[id];
      if rec.TaskRecord? {
        TaskEffect(c, id, rec.cell, o);
      } else {
        assert RecordOk(c.board.cells, rec);
        EndRecordSparesTasks(c.env, c.board, rec, o);
      }
    }
  }

  lemma HandleTells(c: Ctx, e: Event, seen: set<Event>)
    requires Told(c, seen) && e in seen
    ensures Told(Handle(c, e).ctx, seen)
  {
    hide Inv, Acknowledge, EndTask, RaiseEvent, Put;
    HandleKeepsInv(c, e);
    HandleKeepsHeld(c, e);
    InvParts(c);
    if Ending(e).Some? && !IsAcknowledgement(e) {
      EndTaskTells(c, Ending(e).value.0, Ending(e).value.1, e, seen);
    } else if e.EventRaised? {
      RaiseSparesTasks(c.board, c.ids.open, e);
    }
  }

  lemma {:induction false} DrainTells(c: Ctx, seen: set<Event>)
    requires Told(c, seen)
    ensures Told(Drain(c).ctx, seen)
    decreases |c.held|
  {
    hide Handle, Inv, TasksTold;
    if c.held != [] {
      var d := c.(held := c.held[1..]);
      FewerHeld(c);
      HandleTells(d, c.held[0], seen);
      HandleKeepsHeld(d, c.held[0]);
      if !Handle(d, c.held[0]).threw { DrainTells(Handle(d, c.held[0]).ctx, seen); }
    }
  }

  lemma CallTells(c: Ctx, call: Call, seen: set<Event>)
    requires Told(c, seen)
    ensures Told(Attempt(c, call), seen)
  {
    hide Inv, Allot, Wait, NewTimer;
    CallKeepsInv(c, call);
    AttemptKeepsHeld(c, call);
    if !c.isComplete && !call.CallActivity? && !call.CallChild? { PerformSparesTasks(c.env, c.board, call); }
  }

  lemma ApplyTells(c: Ctx, i: Input, seen: set<Event>)
    requires Told(c, seen) && (i.Happened? ==> i.event in seen)
    ensures Told(Apply(c, i), seen)
  {
    hide Attempt, Handle, Drain, Inv, TasksTold, Put;
    ApplyKeepsInv(c, i);
    match i {
      case Made(call) => CallTells(c, call, seen);
      case Happened(e) =>
        HandleTells(c, e, seen);
        Unsuspended(c);
        DrainTells(c.(suspended := false), seen);
      case _ =>
    }
  }

  lemma {:induction false} RunTells(c: Ctx, inputs: seq<Input>, seen: set<Event>)
    requires Told(c, seen) && forall i :: 0 <= i < |inputs| && inputs[i].Happened? ==> inputs[i].event in seen
    ensures Told(ApplyAll(c, inputs), seen)
    decreases |inputs|
  {
    hide Told, Apply;
    if inputs != [] {
      ApplyTells(c, inputs[0], seen);
      RunTells(Apply(c, inputs[0]), inputs[1..], seen);
    }
  }

  /** In every run: a task that has ended has the outcome that some event of the history
      carries; no result without a completion, no failure without a failure event. */
  lemma {:induction false} OutcomesAreSaid(synthetic: bool, maxInterval: int, inputs: seq<Input>, x: nat)
    requires var cells := ApplyAll(Initial(synthetic, maxInterval), inputs).board.cells;
             x < |cells| && cells[x].kind.TaskCell? && !cells[x].future.Pending?
    ensures exists k :: 0 <= k < |inputs| && inputs[k].Happened?
                        && Says(inputs[k].event, ApplyAll(Initial(synthetic, maxInterval), inputs).board.cells[x].future)
  {
    hide ApplyAll, Inv;
    InitialInv(synthetic, maxInterval);
    var seen := set k | 0 <= k < |inputs| && inputs[k].Happened? :: inputs[k].event;
    RunTells(Initial(synthetic, maxInterval), inputs, seen);
    var o := ApplyAll(Initial(synthetic, maxInterval), inputs).board.cells[x].future;
    assert Said(seen, o);
    var e :| e in seen && Says(e, o);
  }
}
