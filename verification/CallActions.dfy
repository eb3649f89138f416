/** What each call of the orchestrator emits, which ids it takes, and what the task it is
    given stands for. */
module CallActions {
  import opened WorkflowTypes
  import opened IdTable
  import opened ReplayContext
  import opened ContextInvariant
  import opened Machine

  /** One more action under the next id, with the record of what it is for. */
  function Emitting(t: Table, body: ActionBody, rec: Record): Table {
    Table(t.pending + [Entry(t.next, Action(t.next, body))], t.open[t.next := rec], t.next + 1)
  }

  lemma IssueEmits(t: Table, body: ActionBody, rec: Record)
    requires Ordered(t)
    ensures Issue(t, body, rec) == Emitting(t, body, rec)
    ensures IssueQuietly(t, body) == Emitting(t, body, rec).(open := t.open)
  {
    FreshId(t);
  }

  /** An activity: one action with its name and input, and a new task that is open under the
      action's id and that the orchestrator is given. */
  lemma {:induction false} ActivityIsScheduled(c: Ctx, name: string, input: string)
    requires Inv(c) && !c.isComplete
    ensures Attempt(c, CallActivity(name, input))
         == c.(ids := Emitting(c.ids, ScheduleTask(name, input), TaskRecord(|c.board.cells|)),
               board := c.board.(cells := c.board.cells + [Cell(TaskCell, Pending, Pending)]))
    ensures CallReply(c, CallActivity(name, input)) == TaskRef(|c.board.cells|)
  {
    hide Put, BoardOk;
    IssueEmits(c.ids, ScheduleTask(name, input), TaskRecord(|c.board.cells|));
  }

  lemma {:induction false} ChildIsCreated(c: Ctx, name: string, instance: string, input: string)
    requires Inv(c) && !c.isComplete
    ensures Attempt(c, CallChild(name, instance, input))
         == c.(ids := Emitting(c.ids, CreateChild(name, instance, input), TaskRecord(|c.board.cells|)),
               board := c.board.(cells := c.board.cells + [Cell(TaskCell, Pending, Pending)]))
    ensures CallReply(c, CallChild(name, instance, input)) == TaskRef(|c.board.cells|)
  {
    hide Put, BoardOk;
    IssueEmits(c.ids, CreateChild(name, instance, input), TaskRecord(|c.board.cells|));
  }

  /** A timer: its first sub-timer, for the final instant or one maximum interval from now,
      whichever comes first. */
  lemma {:induction false} TimerIsCreated(c: Ctx, name: string, fireAt: int)
    requires Inv(c) && !c.isComplete
    ensures var x := |c.board.cells|;
            && Attempt(c, StartTimer(name, fireAt))
               == c.(ids := Emitting(c.ids, CreateTimer(name, Earlier(fireAt, c.env.now + c.env.maxInterval), UserTimer),
                                     SubTimer(Chain(x, name, fireAt, UserTimer, None), true)),
                     board := c.board.(cells := c.board.cells + [Cell(TimerCell, Pending, Pending)]))
            && CallReply(c, StartTimer(name, fireAt)) == TaskRef(x)
  {
    hide Put, BoardOk;
    IssueEmits(c.ids, CreateTimer(name, Earlier(fireAt, c.env.now + c.env.maxInterval), UserTimer),
               SubTimer(Chain(|c.board.cells|, name, fireAt, UserTimer, None), true));
  }

  /** A sent event is an action only: nothing is opened for it. */
  lemma {:induction false} EventIsSent(c: Ctx, target: string, name: string, data: string)
    requires Inv(c) && !c.isComplete
    ensures Attempt(c, Send(target, name, data))
         == c.(ids := Emitting(c.ids, SendEvent(target, name, data), TaskRecord(0)).(open := c.ids.open))
    ensures CallReply(c, Send(target, name, data)) == Acknowledged
  {
    hide Put, BoardOk;
    IssueEmits(c.ids, SendEvent(target, name, data), TaskRecord(0));
  }

  /** Completing: one more action, with status COMPLETED and the output. */
  lemma {:induction false} ConclusionIsEmitted(c: Ctx, output: string)
    requires Inv(c) && !c.isComplete
    ensures Attempt(c, Conclude(output))
         == c.(ids := Emitting(c.ids, CompleteWorkflow(COMPLETED, output, {}), TaskRecord(0)).(open := c.ids.open),
               isComplete := true)
    ensures CallReply(c, Conclude(output)) == Acknowledged
  {
    hide Put, BoardOk;
    IssueEmits(c.ids, CompleteWorkflow(COMPLETED, output, {}), TaskRecord(0));
  }

  /** A completed orchestrator is refused every call. */
  lemma CallsAreRefusedOnceComplete(c: Ctx, call: Call)
    requires c.isComplete
    ensures Attempt(c, call) == c && CallReply(c, call) == Rejected
  {
  }

  // ----- waits -----

  /** The first buffered event whose name is the wait's, case aside. */
  ghost predicate FirstMatch(events: seq<Event>, name: string, k: nat) {
    && k < |events| && events[k].EventRaised? && SameIgnoringCase(name, events[k].name)
    && forall j :: 0 <= j < k ==> !(events[j].EventRaised? && SameIgnoringCase(name, events[j].name))
  }

  ghost predicate NoMatch(events: seq<Event>, name: string) {
    forall j :: 0 <= j < |events| ==> !(events[j].EventRaised? && SameIgnoringCase(name, events[j].name))
  }

  lemma BufferedIs(events: seq<Event>, name: string)
    ensures forall k: nat :: FirstMatch(events, name, k) ==> FindBuffered(events, name) == k
    ensures NoMatch(events, name) ==> FindBuffered(events, name) == |events|
  {
  }

  /** A finished wait: a task with its outcome, and an id that is spent on it. */
  function Finished(c: Ctx, name: string, o: Outcome): Ctx {
    c.(ids := c.ids.(next := c.ids.next + 1),
       board := c.board.(cells := c.board.cells + [Cell(EventCell(name, None), o, o)]))
  }

  /** A wait takes the first buffered event that matches, whatever its timeout. */
  lemma {:induction false} WaitTakesBuffered(c: Ctx, name: string, timeout: Option<int>, k: nat)
    requires Inv(c) && !c.isComplete && FirstMatch(c.board.waits.unprocessed, name, k)
    ensures var events := c.board.waits.unprocessed;
            var f := Finished(c, name, Received(events[k]));
            && Attempt(c, WaitForEvent(name, timeout))
               == f.(board := f.board.(waits := c.board.waits.(unprocessed := events[..k] + events[k + 1..])))
            && CallReply(c, WaitForEvent(name, timeout)) == TaskRef(|c.board.cells|)
  {
    hide BoardOk, Ordered;
    BufferedIs(c.board.waits.unprocessed, name);
  }

  /** With nothing to take and no time to wait, it is cancelled on the spot. */
  lemma {:induction false} WaitWithoutTimeIsCancelled(c: Ctx, name: string)
    requires Inv(c) && !c.isComplete && NoMatch(c.board.waits.unprocessed, name)
    ensures Attempt(c, WaitForEvent(name, Some(0))) == Finished(c, name, Cancelled)
    ensures CallReply(c, WaitForEvent(name, Some(0))) == TaskRef(|c.board.cells|)
  {
    hide BoardOk, Ordered;
    BufferedIs(c.board.waits.unprocessed, name);
  }

  /** Otherwise it is the last in the queue of its name, with one id for itself. */
  ghost predicate Parks(b: Board, name: string, d: Board) {
    var w, v, x := b.waits, d.waits, |b.cells|;
    && name in v.names && v.names - {name} == w.names - {name} && v.unprocessed == w.unprocessed
    && v.names[name] < |v.queues|
    && v.queues[v.names[name]] == (if name in w.names then QueueAt(w, w.names[name]) else []) + [x]
    && |w.queues| <= |v.queues|
    && (forall q :: 0 <= q < |w.queues| && (name in w.names ==> q != w.names[name]) ==> v.queues[q] == w.queues[q])
    && x < |d.cells| && d.cells[..x] == b.cells
    && d.cells[x] == Cell(EventCell(name, Some(v.names[name])), Pending, Pending)
  }

  lemma ParkWaitParks(c: Ctx, name: string, timers: seq<Cell>)
    requires Inv(c)
    ensures var b := ParkWait(c.board, name);
            && Parks(c.board, name, b.(cells := b.cells + timers))
            && (name in b.waits.names && NewGuard(c.board, name) == Guard(name, |c.board.cells|, b.waits.names[name]))
            && |b.cells| == |c.board.cells| + 1
  {
    hide IdsOk, RecordsOk, QueuesOk, UnfinishedAreParked, BufferOk;
  }

  /** A wait with a timeout also starts a timer over that time, with an id and a task of its
      own, that will cancel it. */
  lemma {:induction false} WaitWithTimeoutParks(c: Ctx, name: string, timeout: int)
    requires Inv(c) && !c.isComplete && NoMatch(c.board.waits.unprocessed, name) && 0 < timeout && timeout != 9223372036854775807_999_999_999
    ensures var d := Attempt(c, WaitForEvent(name, Some(timeout)));
            var x := |c.board.cells|;
            var due := c.env.now + timeout;
            && Parks(c.board, name, d.board) && d == c.(ids := d.ids, board := d.board) && CallReply(c, WaitForEvent(name, Some(timeout))) == TaskRef(x)
            && d.board.cells[x + 1..] == [Cell(TimerCell, Pending, Pending)]
            && d.ids == Emitting(c.ids.(next := c.ids.next + 1),
                                 CreateTimer(name, Earlier(due, c.env.now + c.env.maxInterval), ExternalEvent(name)),
                                 SubTimer(Chain(x + 1, name, due, ExternalEvent(name),
                                                Some(Guard(name, x, d.board.waits.names[name]))), true))
  {
    hide BoardOk, Ordered, Put, ParkWait, NewGuard, Parks;
    BufferedIs(c.board.waits.unprocessed, name);
    ParkWaitParks(c, name, [Cell(TimerCell, Pending, Pending)]);
    var b := ParkWait(c.board, name);
    var t := c.ids.(next := c.ids.next + 1);
    SpentIsOrdered(c.ids);
    var due := c.env.now + timeout;
    IssueEmits(t, CreateTimer(name, Earlier(due, c.env.now + c.env.maxInterval), ExternalEvent(name)),
               SubTimer(Chain(|c.board.cells| + 1, name, due, ExternalEvent(name), Some(NewGuard(c.board, name))), true));
    assert Attempt(c, WaitForEvent(name, Some(timeout))).board == b.(cells := b.cells + [Cell(TimerCell, Pending, Pending)]);
  }

  lemma SpentIsOrdered(t: Table)
    requires Ordered(t)
    ensures Ordered(t.(next := t.next + 1))
  {
  }

  /** A wait without a timeout starts the synthetic timer at the reserved instant. */
  lemma {:induction false} IndefiniteWaitParks(c: Ctx, name: string, timeout: Option<int>)
    requires Inv(c) && !c.isComplete && NoMatch(c.board.waits.unprocessed, name) && c.env.synthetic
    requires timeout.None? || timeout.value < 0 || timeout.value == 9223372036854775807_999_999_999
    ensures var d := Attempt(c, WaitForEvent(name, timeout));
            var x := |c.board.cells|;
            && Parks(c.board, name, d.board) && d == c.(ids := d.ids, board := d.board) && CallReply(c, WaitForEvent(name, timeout)) == TaskRef(x)
            && |d.board.cells| == x + 1
            && d.ids == Emitting(c.ids.(next := c.ids.next + 1),
                                 CreateTimer(name, 253402300799_999_999_999, ExternalEvent(name)),
                                 OptionalTimer(Guard(name, x, d.board.waits.names[name])))
  {
    hide BoardOk, Ordered, Put, ParkWait, NewGuard, Parks;
    BufferedIs(c.board.waits.unprocessed, name);
    ParkWaitParks(c, name, []);
    var b := ParkWait(c.board, name);
    SpentIsOrdered(c.ids);
    IssueEmits(c.ids.(next := c.ids.next + 1), CreateTimer(name, SENTINEL_FIRE_AT, ExternalEvent(name)),
               OptionalTimer(NewGuard(c.board, name)));
    assert b.(cells := b.cells + []) == b;
  }
}
