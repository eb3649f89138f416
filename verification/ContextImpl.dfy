/** The execution context as the object it is: fields that the calls and the handlers of
    history events update in place. Each method is proved to do to the fields what the
    functions of ReplayContext say. */
module ContextImpl {
  import opened WorkflowTypes
  import opened IdTable
  import opened ReplayContext
  import opened ContextInvariant
  import opened Machine

  class ContextImplTask {
    const maximumTimerInterval: int
    const pastEvents: seq<Event>
    const newEvents: seq<Event>
    // the actions to emit and the tasks that await completion
    var pendingActions: seq<Entry>
    var openTasks: map<int, Record>
    var sequenceNumber: int
    // the futures that were handed out
    var cells: seq<Cell>
    // external events
    var outstandingEvents: map<string, nat>
    var queues: seq<seq<nat>>
    var unprocessedEvents: seq<Event>
    // the execution
    var currentInstant: int
    var isStarted: bool
    var isSuspended: bool
    var eventsWhileSuspended: seq<Event>
    var isComplete: bool
    // patches
    var appliedPatches: map<string, bool>
    var historyPatches: set<string>
    var encounteredPatches: seq<string>
    // the history iterator
    var onNewEvents: bool
    var currentHistoryIndex: nat

    ghost function Ids(): Table
      reads this
    {
      Table(pendingActions, openTasks, sequenceNumber)
    }

    ghost function TheWaits(): Waits
      reads this
    {
      Waits(outstandingEvents, queues, unprocessedEvents)
    }

    ghost function TheBoard(): Board
      reads this
    {
      Board(cells, TheWaits())
    }

    ghost function TheEnv(): Env
      reads this
    {
      Env(currentInstant, maximumTimerInterval, true)
    }

    ghost function Snapshot(): Ctx
      reads this
    {
      Ctx(TheEnv(), Ids(), TheBoard(), isStarted, isSuspended, eventsWhileSuspended, isComplete,
          Patches(appliedPatches, historyPatches, encounteredPatches))
    }

    ghost function TheHistory(): History
      reads this
    {
      History(pastEvents, newEvents, onNewEvents, currentHistoryIndex)
    }

    constructor (past: seq<Event>, arrived: seq<Event>, maxInterval: int)
      ensures Snapshot() == Initial(true, maxInterval) && TheHistory() == History(past, arrived, false, 0)
    {
      maximumTimerInterval, pastEvents, newEvents := maxInterval, past, arrived;
      pendingActions, openTasks, sequenceNumber := [], map[], 0;
      cells, outstandingEvents, queues, unprocessedEvents := [], map[], [], [];
      currentInstant, isStarted, isSuspended, eventsWhileSuspended, isComplete := 0, false, false, [], false;
      appliedPatches, historyPatches, encounteredPatches := map[], {}, [];
      onNewEvents, currentHistoryIndex := false, 0;
    }

    // ----- the calls of the orchestrator -----

    method AddAction(body: ActionBody)
      modifies this`pendingActions, this`sequenceNumber
      ensures Ids() == IssueQuietly(old(Ids()), body)
    {
      var id := sequenceNumber;
      sequenceNumber := sequenceNumber + 1;
      pendingActions := Put(pendingActions, id, body);
    }

    method AddActionWithRecord(body: ActionBody, rec: Record)
      modifies this`pendingActions, this`openTasks, this`sequenceNumber
      ensures Ids() == Issue(old(Ids()), body, rec)
    {
      var id := sequenceNumber;
      sequenceNumber := sequenceNumber + 1;
      pendingActions := Put(pendingActions, id, body);
      openTasks := openTasks[id := rec];
    }

    method AddTask(body: ActionBody) returns (task: nat)
      modifies this`pendingActions, this`openTasks, this`sequenceNumber, this`cells
      ensures Snapshot() == WithEffect(old(Snapshot()), NewTask(old(TheBoard()), body)) && task == |old(cells)|
    {
      task := |cells|;
      cells := cells + [Cell(TaskCell, Pending, Pending)];
      AddActionWithRecord(body, TaskRecord(task));
    }

    /** None stands for the exception of a completed orchestrator. */
    method DoCallActivity(name: string, input: string) returns (task: Option<nat>)
      modifies this`pendingActions, this`openTasks, this`sequenceNumber, this`cells
      ensures Snapshot() == Attempt(old(Snapshot()), CallActivity(name, input))
      ensures task == if old(isComplete) then None else Some(|old(cells)|)
    {
      if isComplete {
        return None;
      }
      var id := AddTask(ScheduleTask(name, input));
      task := Some(id);
    }

    method DoCallChild(name: string, instance: string, input: string) returns (task: Option<nat>)
      modifies this`pendingActions, this`openTasks, this`sequenceNumber, this`cells
      ensures Snapshot() == Attempt(old(Snapshot()), CallChild(name, instance, input))
      ensures task == if old(isComplete) then None else Some(|old(cells)|)
    {
      if isComplete {
        return None;
      }
      var id := AddTask(CreateChild(name, instance, input));
      task := Some(id);
    }

    method DoSendEvent(target: string, name: string, data: string) returns (threw: bool)
      modifies this`pendingActions, this`sequenceNumber
      ensures Snapshot() == Attempt(old(Snapshot()), Send(target, name, data)) && threw == old(isComplete)
    {
      if isComplete {
        return true;
      }
      AddAction(SendEvent(target, name, data));
      return false;
    }

    /** Issues a sub-timer of a chain, at most one maximum interval ahead. */
    method CreateTimerTask(chain: Chain, name: string, first: bool)
      modifies this`pendingActions, this`openTasks, this`sequenceNumber
      ensures Ids() == IssueOne(old(Ids()), SubTimerIssue(TheEnv(), chain, name, first))
    {
      var remaining := chain.finalFireAt - currentInstant;
      var fireAt := chain.finalFireAt;
      if remaining > maximumTimerInterval {
        fireAt := currentInstant + maximumTimerInterval;
      }
      AddActionWithRecord(CreateTimer(name, fireAt, chain.origin), SubTimer(chain, first));
    }

    method AddTimer(name: string, finalFireAt: int, origin: TimerOrigin, guard: Option<Guard>) returns (task: nat)
      modifies this`pendingActions, this`openTasks, this`sequenceNumber, this`cells
      ensures Snapshot() == WithEffect(old(Snapshot()), NewTimer(TheEnv(), old(TheBoard()), name, finalFireAt, origin, guard))
      ensures task == |old(cells)|
    {
      task := |cells|;
      cells := cells + [Cell(TimerCell, Pending, Pending)];
      CreateTimerTask(Chain(task, name, finalFireAt, origin, guard), name, true);
    }

    method DoCreateTimer(name: string, finalFireAt: int) returns (task: Option<nat>)
      modifies this`pendingActions, this`openTasks, this`sequenceNumber, this`cells
      ensures Snapshot() == Attempt(old(Snapshot()), StartTimer(name, finalFireAt))
      ensures task == if old(isComplete) then None else Some(|old(cells)|)
    {
      if isComplete {
        return None;
      }
      var id := AddTimer(name, finalFireAt, UserTimer, None);
      task := Some(id);
    }

    /** The first buffered event that matches, ignoring case. */
    method FindEvent(name: string) returns (i: nat)
      ensures i == FindBuffered(unprocessedEvents, name)
    {
      i := 0;
      while i < |unprocessedEvents|
        invariant i <= |unprocessedEvents|
        invariant forall j :: 0 <= j < i ==>
                    !(unprocessedEvents[j].EventRaised? && SameIgnoringCase(name, unprocessedEvents[j].name))
      {
        if unprocessedEvents[i].EventRaised? && SameIgnoringCase(name, unprocessedEvents[i].name) {
          return;
        }
        i := i + 1;
      }
    }

    method Park(name: string, task: nat) returns (queue: nat)
      requires name in outstandingEvents ==> outstandingEvents[name] < |queues|
      modifies this`outstandingEvents, this`queues
      ensures TheWaits() == ReplayContext.Park(old(TheWaits()), name, task)
      ensures queue == if name in old(outstandingEvents) then old(outstandingEvents)[name] else |old(queues)|
    {
      if name !in outstandingEvents {
        outstandingEvents := outstandingEvents[name := |queues|];
        queues := queues + [[]];
      }
      queue := outstandingEvents[name];
      queues := queues[queue := queues[queue] + [task]];
      assert name !in old(outstandingEvents) ==> queues[queue] == [task];
    }

    method WaitForExternalEvent(name: string, timeout: Option<int>) returns (task: Option<nat>)
      requires Inv(Snapshot())
      modifies this`pendingActions, this`openTasks, this`sequenceNumber, this`cells,
               this`outstandingEvents, this`queues, this`unprocessedEvents
      ensures Snapshot() == Attempt(old(Snapshot()), WaitForEvent(name, timeout))
      ensures task == if old(isComplete) then None else Some(|old(cells)|)
    {
      if isComplete {
        return None;
      }
      assert NamesOk(TheWaits());
      hide Inv, Allot;
      task := Some(|cells|);
      BeginWait(name, timeout);
    }

    method BeginWait(name: string, timeout: Option<int>)
      requires NamesOk(TheWaits())
      modifies this`pendingActions, this`openTasks, this`sequenceNumber, this`cells,
               this`outstandingEvents, this`queues, this`unprocessedEvents
      ensures Snapshot() == WithEffect(old(Snapshot()), Wait(TheEnv(), old(TheBoard()), name, timeout))
    {
      hide AddGuard, ParkWait, NewGuard, NamesOk, FindBuffered;
      sequenceNumber := sequenceNumber + 1;
      var i := FindEvent(name);
      if i < |unprocessedEvents| {
        cells := cells + [Cell(EventCell(name, None), Received(unprocessedEvents[i]), Received(unprocessedEvents[i]))];
        unprocessedEvents := unprocessedEvents[..i] + unprocessedEvents[i + 1..];
      } else if !IsInfiniteTimeout(timeout) && timeout.value == 0 {
        cells := cells + [Cell(EventCell(name, None), Cancelled, Cancelled)];
      } else {
        GuardSpendsNothing(TheEnv(), ParkWait(TheBoard(), name), NewGuard(TheBoard(), name), timeout);
        ParkWithGuard(name, timeout);
      }
    }

    /** Joins the queue of the name. */
    method JoinQueue(name: string) returns (guard: Guard)
      requires NamesOk(TheWaits())
      modifies this`cells, this`outstandingEvents, this`queues
      ensures TheBoard() == ParkWait(old(TheBoard()), name) && guard == NewGuard(old(TheBoard()), name)
    {
      var task := |cells|;
      var queue := Park(name, task);
      cells := cells + [Cell(EventCell(name, Some(queue)), Pending, Pending)];
      guard := Guard(name, task, queue);
    }

    /** And creates the timer that guards the wait. */
    method ParkWithGuard(name: string, timeout: Option<int>)
      requires NamesOk(TheWaits())
      modifies this`pendingActions, this`openTasks, this`sequenceNumber, this`cells, this`outstandingEvents, this`queues
      ensures Snapshot() == WithEffect(old(Snapshot()), AddGuard(TheEnv(), ParkWait(old(TheBoard()), name),
                                                                 NewGuard(old(TheBoard()), name), timeout))
    {
      hide Allot, NewTimer, ParkWait, NewGuard, NamesOk;
      var guard := JoinQueue(name);
      if IsInfiniteTimeout(timeout) {
        AddOptionalTimer(guard);
      } else {
        var _ := AddTimer(guard.name, currentInstant + timeout.value, ExternalEvent(guard.name), Some(guard));
      }
    }

    method AddOptionalTimer(guard: Guard)
      modifies this`pendingActions, this`openTasks, this`sequenceNumber
      ensures Ids() == Allot(old(Ids()), false, Some(Opened(CreateTimer(guard.name, SENTINEL_FIRE_AT, ExternalEvent(guard.name)),
                                                            OptionalTimer(guard))))
    {
      AddActionWithRecord(CreateTimer(guard.name, SENTINEL_FIRE_AT, ExternalEvent(guard.name)), OptionalTimer(guard));
    }

    // ----- acknowledgements -----

    method ShiftActions(atId: int)
      requires forall i, j :: 0 <= i < j < |pendingActions| ==> pendingActions[i].key < pendingActions[j].key
      requires forall i :: 0 <= i < |pendingActions| ==> pendingActions[i].key != atId
      modifies this`pendingActions
      ensures pendingActions == RenumberAll(old(pendingActions), atId)
    {
      var newPending: seq<Entry> := [];
      for i := 0 to |pendingActions|
        invariant newPending == RenumberAll(pendingActions, atId)[..i]
      {
        var entry := pendingActions[i];
        var id := entry.key;
        assert forall j :: 0 <= j < i ==> newPending[j].key < Renumber(entry, atId).key;
        if id > atId {
          newPending := PutEntry(newPending, id - 1, entry.action.(id := id - 1));
        } else {
          newPending := PutEntry(newPending, id, entry.action);
        }
      }
      pendingActions := newPending;
    }

    method SortedIdsAbove(atId: int) returns (ids: seq<int>)
      ensures forall i, j :: 0 <= i < j < |ids| ==> ids[i] < ids[j]
      ensures forall id :: id in ids <==> id in openTasks && id > atId
    {
      ids := [];
      var rest := set id | id in openTasks && id > atId;
      while rest != {}
        invariant forall id :: id in ids || id in rest <==> id in openTasks && id > atId
        invariant forall i, j :: 0 <= i < j < |ids| ==> ids[i] < ids[j]
        invariant forall i, id :: 0 <= i < |ids| && id in rest ==> ids[i] < id
        decreases |rest|
      {
        var least := Least(rest);
        ids := ids + [least];
        rest := rest - {least};
      }
    }

    static method Least(ids: set<int>) returns (least: int)
      requires ids != {}
      ensures least in ids && forall id :: id in ids ==> least <= id
    {
      SomeMember(ids);
      least :| least in ids;
      var rest := ids - {least};
      while rest != {}
        invariant least in ids && rest <= ids && forall id :: id in ids && id !in rest ==> least <= id
        decreases |rest|
      {
        SomeMember(rest);
        var id :| id in rest;
        rest := rest - {id};
        if id < least {
          least := id;
        }
      }
    }

    method ShiftRecords(atId: int)
      requires atId !in openTasks
      modifies this`openTasks
      ensures openTasks == RenumberOpen(old(openTasks), atId)
    {
      var ids := SortedIdsAbove(atId);
      ghost var was := openTasks;
      hide MovedBelow, RenumberOpen;
      NoneMoved(was, atId);
      for k := 0 to |ids|
        invariant MovedBelow(was, atId, Bound(ids, k, atId), openTasks)
      {
        var id := ids[k];
        NextIsLeast(was, atId, ids, k);
        MoveOne(was, atId, Bound(ids, k, atId), id, openTasks);
        var record := openTasks[id];
        openTasks := openTasks - {id};
        openTasks := openTasks[id - 1 := record];
      }
      NoneIsLeft(was, atId, ids);
      AllMoved(was, atId, Bound(ids, |ids|, atId), openTasks);
    }

    method DropOptionalExternalEventTimerAt(atId: int) returns (dropped: bool)
      requires Ordered(Ids())
      modifies this`pendingActions, this`openTasks, this`sequenceNumber
      ensures dropped == OptionalAt(old(Ids()), atId)
      ensures Ids() == if dropped then Drop(old(Ids()), atId) else old(Ids())
    {
      var body := Lookup(pendingActions, atId);
      if body.None? || !IsOptionalTimer(body.value) {
        return false;
      }
      RemovedIsOrdered(Ids(), atId);
      pendingActions := Remove(pendingActions, atId);
      openTasks := openTasks - {atId};
      ShiftActions(atId);
      ShiftRecords(atId);
      sequenceNumber := sequenceNumber - 1;
      ForgottenFirst(old(openTasks), atId);
      return true;
    }

    method HandleTaskScheduled(taskId: int) returns (threw: bool)
      requires Ordered(Ids())
      modifies this`pendingActions, this`openTasks, this`sequenceNumber
      ensures Acked(Ids(), threw) == AckCall(old(Ids()), taskId, TaskAck)
    {
      var taskAction := Lookup(pendingActions, taskId);
      if taskAction.None? || !taskAction.value.ScheduleTask? {
        var dropped := DropOptionalExternalEventTimerAt(taskId);
        if dropped {
          taskAction := Lookup(pendingActions, taskId);
        }
      }
      if taskAction.None? || !taskAction.value.ScheduleTask? {
        return true;
      }
      pendingActions := Remove(pendingActions, taskId);
      return false;
    }

    method HandleChildCreated(taskId: int) returns (threw: bool)
      requires Ordered(Ids())
      modifies this`pendingActions, this`openTasks, this`sequenceNumber
      ensures Acked(Ids(), threw) == AckCall(old(Ids()), taskId, ChildAck)
    {
      var taskAction := Lookup(pendingActions, taskId);
      if taskAction.None? || !taskAction.value.CreateChild? {
        var dropped := DropOptionalExternalEventTimerAt(taskId);
        if dropped {
          taskAction := Lookup(pendingActions, taskId);
        }
      }
      if taskAction.None? || !taskAction.value.CreateChild? {
        return true;
      }
      pendingActions := Remove(pendingActions, taskId);
      return false;
    }

    method HandleTimerCreated(timerId: int, optional: bool) returns (threw: bool)
      requires Ordered(Ids())
      modifies this`pendingActions, this`openTasks, this`sequenceNumber
      ensures Acked(Ids(), threw) == AckTimer(old(Ids()), timerId, optional)
    {
      if timerId == INFRASTRUCTURE_TIMER_ID {
        return false;
      }
      var pending := Lookup(pendingActions, timerId);
      if pending.Some? && IsOptionalTimer(pending.value) && !optional {
        var _ := DropOptionalExternalEventTimerAt(timerId);
      }
      var timerAction := Lookup(pendingActions, timerId);
      pendingActions := Remove(pendingActions, timerId);
      threw := timerAction.None? || !timerAction.value.CreateTimer?;
    }

    // ----- completions -----

    method CompleteFuture(i: nat, o: Outcome)
      modifies this`cells
      ensures cells == Settle(old(cells), i, o)
    {
      if i < |cells| && cells[i].future.Pending? {
        cells := cells[i := cells[i].(future := o, visible := o)];
      }
    }

    /** Takes a wait out of a queue object, wherever in it the wait is. */
    method RemoveFromQueue(queue: seq<nat>, wait: nat) returns (rest: seq<nat>)
      ensures rest == Without(queue, wait)
    {
      rest := [];
      var i := 0;
      while i < |queue|
        invariant i <= |queue| && rest + Without(queue[i..], wait) == Without(queue, wait)
      {
        if queue[i] != wait {
          rest := rest + [queue[i]];
        }
        i := i + 1;
      }
    }

    /** The callback of a guarding timer. */
    method OnTimerFired(g: Guard)
      modifies this`cells, this`outstandingEvents, this`queues
      ensures TheBoard() == ExpireWait(old(TheBoard()), g)
    {
      if g.wait < |cells| && cells[g.wait].future.Pending? {
        var rest := RemoveFromQueue(if g.queue < |queues| then queues[g.queue] else [], g.wait);
        if g.queue < |queues| {
          queues := queues[g.queue := rest];
        }
        if rest == [] {
          outstandingEvents := outstandingEvents - {g.name};
        }
        CompleteFuture(g.wait, Cancelled);
      }
    }

    /** The sub-timer's own future ends first, then the chain continues or is completed. */
    method EndSubTimerOf(chain: Chain, first: bool, o: Outcome)
      modifies this`cells, this`outstandingEvents, this`queues, this`pendingActions, this`openTasks, this`sequenceNumber
      ensures Snapshot() == WithEffect(old(Snapshot()), EndSubTimer(TheEnv(), old(TheBoard()), chain, first, o))
    {
      hide ExpireWait, IssueOne, SubTimerIssue, SetVisible, SetFuture;
      if o.Failure? {
        if first {
          cells := SetVisible(cells, chain.cell, o);
        }
        return;
      }
      if first {
        cells := SetVisible(cells, chain.cell, Value(""));
      }
      if Seconds(currentInstant) < Seconds(chain.finalFireAt) {
        CreateTimerTask(chain, chain.name + "-next", false);
      } else {
        cells := SetFuture(cells, chain.cell, Value(""));
        if chain.guard.Some? {
          OnTimerFired(chain.guard.value);
        }
      }
    }

    /** A completed, failed or fired event: the record leaves the open tasks, and whoever
        waits is told. */
    method HandleEnding(taskId: int, o: Outcome)
      modifies this`cells, this`outstandingEvents, this`queues, this`pendingActions, this`openTasks, this`sequenceNumber
      ensures Snapshot() == EndTask(old(Snapshot()), taskId, o)
    {
      hide ExpireWait, EndSubTimer, Settle;
      if taskId !in openTasks {
        return;
      }
      var rec := openTasks[taskId];
      openTasks := openTasks - {taskId};
      match rec {
        case TaskRecord(cell) => CompleteFuture(cell, o);
        case SubTimer(chain, first) => EndSubTimerOf(chain, first, o);
        case OptionalTimer(guard) =>
          if !o.Failure? {
            OnTimerFired(guard);
          }
      }
    }

    // ----- external events -----

    method HandleEventRaised(e: Event)
      requires e.EventRaised? && Inv(Snapshot())
      modifies this`cells, this`outstandingEvents, this`queues, this`unprocessedEvents
      ensures Some(TheBoard()) == RaiseEvent(old(TheBoard()), e)
    {
      RaiseKeepsBoard(TheBoard(), openTasks, e);
      if e.name !in outstandingEvents {
        unprocessedEvents := unprocessedEvents + [e];
        return;
      }
      var q := outstandingEvents[e.name];
      var task := queues[q][0];
      queues := queues[q := queues[q][1..]];
      if queues[q] == [] {
        outstandingEvents := outstandingEvents - {e.name};
      }
      CompleteFuture(task, Received(e));
    }

    // ----- completion -----

    method CompleteInternal(status: Status, output: string, carryover: set<Event>) returns (threw: bool)
      modifies this`pendingActions, this`sequenceNumber, this`isComplete
      ensures Snapshot() == Close(old(Snapshot()), status, output, carryover) && threw == old(isComplete)
    {
      if isComplete {
        return true;
      }
      AddAction(CompleteWorkflow(status, output, carryover));
      isComplete := true;
      return false;
    }

    /** The orchestrator has its result. */
    method DoComplete(output: string) returns (threw: bool)
      modifies this`pendingActions, this`sequenceNumber, this`isComplete
      ensures Snapshot() == Attempt(old(Snapshot()), Conclude(output)) && threw == old(isComplete)
    {
      threw := CompleteInternal(COMPLETED, output, {});
    }

    method DoFail(details: string) returns (threw: bool)
      modifies this`pendingActions, this`sequenceNumber, this`isComplete
      ensures Snapshot() == Close(old(Snapshot()), FAILED, details, {}) && threw == old(isComplete)
    {
      threw := CompleteInternal(FAILED, details, {});
    }

    method CarryoverEvents() returns (events: set<Event>)
      ensures events == Carryover(Snapshot(), TheHistory())
    {
      events := set e | e in unprocessedEvents;
      var i := currentHistoryIndex;
      while i < |newEvents|
        invariant currentHistoryIndex <= |newEvents| ==> currentHistoryIndex <= i <= |newEvents|
        invariant forall e ::
            e in events <==>
              (e in unprocessedEvents
               || (currentHistoryIndex <= |newEvents| && e in newEvents[currentHistoryIndex..i] && e.EventRaised?))
      {
        assert newEvents[currentHistoryIndex..i + 1] == newEvents[currentHistoryIndex..i] + [newEvents[i]];
        if newEvents[i].EventRaised? {
          events := events + {newEvents[i]};
        }
        i := i + 1;
      }
      assert currentHistoryIndex <= |newEvents| ==> newEvents[currentHistoryIndex..i] == newEvents[currentHistoryIndex..];
    }

    /** The call itself only throws; the completion follows when the turn unwinds. */
    method ContinueAsNewWith(input: string, preserve: bool) returns (threw: bool)
      modifies this`pendingActions, this`sequenceNumber, this`isComplete
      ensures threw == old(isComplete)
      ensures Snapshot() == Close(old(Snapshot()), CONTINUED_AS_NEW, input,
                                  if preserve then Carryover(old(Snapshot()), TheHistory()) else {})
    {
      if isComplete {
        return true;
      }
      var carryover: set<Event> := {};
      if preserve {
        carryover := CarryoverEvents();
      }
      threw := CompleteInternal(CONTINUED_AS_NEW, input, carryover);
    }

    // ----- patches -----

    method CheckPatch(name: string) returns (answer: bool)
      modifies this`appliedPatches
      ensures answer == PatchAnswer(old(Snapshot()).patches, name, !onNewEvents)
      ensures appliedPatches == old(appliedPatches)[name := answer]
    {
      if name in appliedPatches {
        answer := appliedPatches[name];
        assert appliedPatches[name := answer] == appliedPatches;
        return;
      }
      if name in historyPatches {
        appliedPatches := appliedPatches[name := true];
        return true;
      }
      if !onNewEvents {
        appliedPatches := appliedPatches[name := false];
        return false;
      }
      appliedPatches := appliedPatches[name := true];
      return true;
    }

    method IsPatched(name: string) returns (answer: bool)
      modifies this`appliedPatches, this`encounteredPatches
      ensures Snapshot() == AskPatch(old(Snapshot()), name, !onNewEvents)
      ensures answer == PatchAnswer(old(Snapshot()).patches, name, !onNewEvents)
    {
      answer := CheckPatch(name);
      if answer {
        encounteredPatches := encounteredPatches + [name];
      }
    }

    // ----- history events -----

    method HandleAcknowledgement(e: Event) returns (threw: bool)
      requires IsAcknowledgement(e) && Ordered(Ids())
      modifies this`pendingActions, this`openTasks, this`sequenceNumber
      ensures Acked(Ids(), threw) == Acknowledge(old(Ids()), e)
    {
      match e {
        case TaskScheduled(id) => threw := HandleTaskScheduled(id);
        case ChildCreated(id) => threw := HandleChildCreated(id);
        case TimerCreated(id, _, _) => threw := HandleTimerCreated(id, IsOptionalTimerEvent(e));
      }
    }

    method HandleControl(e: Event) returns (threw: bool)
      requires !IsAcknowledgement(e) && Ending(e).None? && !e.EventRaised? && !e.ExecutionResumed?
      modifies this
      ensures Handled(Snapshot(), threw) == Control(old(Snapshot()), e) && TheHistory() == old(TheHistory())
    {
      threw := false;
      match e {
        case WorkflowStarted(timestamp, patches) =>
          currentInstant := timestamp;
          historyPatches := historyPatches + patches;
        case ExecutionStarted(_, _) => isStarted := true;
        case ExecutionSuspended => isSuspended := true;
        case ExecutionTerminated(output) => threw := CompleteInternal(TERMINATED, output, {});
        case Noted =>
        case _ => threw := true;
      }
    }

    /** The switch over event types, except for a resume. */
    method Dispatch(e: Event) returns (threw: bool)
      requires Inv(Snapshot()) && !e.ExecutionResumed?
      modifies this
      ensures Handled(Snapshot(), threw) == Handle(old(Snapshot()), e)
      ensures Inv(Snapshot()) && TheHistory() == old(TheHistory())
    {
      hide Inv, Ordered, BoardOk, Control, EndTask, Acknowledge, RaiseEvent, Ending, IsAcknowledgement;
      HandleKeepsInv(Snapshot(), e);
      InvParts(Snapshot());
      threw := false;
      if IsAcknowledgement(e) {
        threw := HandleAcknowledgement(e);
      } else if Ending(e).Some? {
        HandleEnding(Ending(e).value.0, Ending(e).value.1);
      } else if e.EventRaised? {
        HandleEventRaised(e);
      } else {
        threw := HandleControl(e);
      }
    }

    method ProcessHistoryEvent(e: Event) returns (threw: bool)
      requires Inv(Snapshot())
      modifies this
      ensures Handled(Snapshot(), threw) == ProcessEvent(old(Snapshot()), e)
      ensures Inv(Snapshot()) && TheHistory() == old(TheHistory())
      decreases if e.ExecutionResumed? then 2 else 0
    {
      ProcessKeepsInv(Snapshot(), e);
      hide Inv, Handle, Drain;
      var overrideSuspension := e.ExecutionResumed? || e.ExecutionTerminated?;
      if isSuspended && !overrideSuspension {
        if !e.ExecutionSuspended? {
          eventsWhileSuspended := eventsWhileSuspended + [e];
        }
        threw := false;
      } else if e.ExecutionResumed? {
        threw := HandleExecutionResumed();
      } else {
        threw := Dispatch(e);
      }
    }

    /** Replays the held events through the ordinary entry point. */
    method HandleExecutionResumed() returns (threw: bool)
      requires Inv(Snapshot())
      modifies this
      ensures Handled(Snapshot(), threw) == Drain(old(Snapshot()).(suspended := false))
      ensures TheHistory() == old(TheHistory())
      decreases 1
    {
      hide Inv, Drain, ProcessEvent;
      isSuspended := false;
      threw := false;
      ghost var start := Snapshot();
      Unsuspended(old(Snapshot()));
      NothingToDrain(start);
      while eventsWhileSuspended != []
        invariant Inv(Snapshot()) && !isSuspended && TheHistory() == old(TheHistory())
        invariant Drain(Snapshot()) == Drain(start)
        invariant eventsWhileSuspended == [] ==> Drain(Snapshot()) == Handled(Snapshot(), false)
        decreases |eventsWhileSuspended|
      {
        ghost var c := Snapshot();
        DrainByProcessing(c);
        var e := eventsWhileSuspended[0];
        eventsWhileSuspended := eventsWhileSuspended[1..];
        assert Snapshot() == c.(held := c.held[1..]);
        threw := ProcessHistoryEvent(e);
        if threw {
          return;
        }
        NothingToDrain(Snapshot());
      }
    }

    /** The history iterator: moves on to the new events when the past ones are used up,
        and processes one event. */
    method MoveNext() returns (more: bool, threw: bool)
      requires Inv(Snapshot())
      modifies this
      ensures var h := MoveOn(old(TheHistory()));
              if h.index >= |Current(h)| then
                !more && !threw && TheHistory() == h && Snapshot() == old(Snapshot())
              else
                more && TheHistory() == h.(index := h.index + 1)
                && Handled(Snapshot(), threw) == ProcessEvent(old(Snapshot()), Current(h)[h.index])
      ensures Inv(Snapshot())
    {
      hide Inv, ProcessEvent;
      if !onNewEvents && currentHistoryIndex >= |pastEvents| {
        onNewEvents, currentHistoryIndex := true, 0;
      }
      if onNewEvents && currentHistoryIndex >= |newEvents| {
        return false, false;
      }
      var next := if onNewEvents then newEvents[currentHistoryIndex] else pastEvents[currentHistoryIndex];
      currentHistoryIndex := currentHistoryIndex + 1;
      threw := ProcessHistoryEvent(next);
      more := true;
    }

    ghost function EventsLeft(): nat
      requires HistoryOk(TheHistory())
      reads this
    {
      if onNewEvents then |newEvents| - currentHistoryIndex else |newEvents| + 1 + |pastEvents| - currentHistoryIndex
    }

    /** The orchestrator waits for a task: events are processed, and what their handlers
        throw is ignored, until the task is done or no event is left. None stands for the
        exception that yields to the worker. In the machine's terms, the blocked
        orchestrator takes n steps to `last`. */
    method AwaitTask(task: nat, ghost p: Program, ghost trace: seq<Reply>)
      returns (r: Option<Outcome>, ghost n: nat, ghost last: M)
      requires Inv(Snapshot()) && HistoryOk(TheHistory())
      modifies this
      ensures Reaches(p, M(old(Snapshot()), Blocked(task), trace, old(TheHistory())), n, last)
      ensures last.ctx == Snapshot() && last.mode == Blocked(task) && last.trace == trace
      ensures r.Some? ==> TheHistory() == last.hist && AwaitDone(Snapshot(), task) && r.value == cells[task].visible
      ensures r.None? ==> TheHistory() == MoveOn(last.hist) && Halted(p, last)
      ensures Inv(Snapshot())
    {
      hide Inv, ProcessEvent;
      ghost var start := M(Snapshot(), Blocked(task), trace, TheHistory());
      n, last := 0, start;
      r := None;
      while true
        invariant Inv(Snapshot()) && HistoryOk(TheHistory())
        invariant Reaches(p, start, n, last)
        invariant last == M(Snapshot(), Blocked(task), trace, TheHistory())
        decreases EventsLeft()
      {
        if task < |cells| && !cells[task].visible.Pending? {
          r := Some(cells[task].visible);
          return;
        }
        ghost var next := Step(p, last);
        var more, threw := MoveNext();
        if !more {
          return;
        }
        assert next == Some(M(Snapshot(), Blocked(task), trace, TheHistory()));
        OneMoreStep(p, start, n, last);
        n, last := n + 1, next.value;
      }
    }

    // ----- the end of a turn -----

    method PendingActionsOnlyObsoleteEventTimers() returns (only: bool)
      ensures only == OnlyEventTimers(pendingActions)
    {
      for i := 0 to |pendingActions|
        invariant OnlyEventTimers(pendingActions[..i])
      {
        var body := pendingActions[i].action.body;
        if !body.CreateTimer? || !body.origin.ExternalEvent? {
          return false;
        }
      }
      return true;
    }

    /** What follows the loop over the events. `completed`: they were all consumed without
        the orchestrator yielding. */
    method FinishTurn(completed: bool)
      modifies this`pendingActions, this`sequenceNumber, this`isComplete
      ensures forall m: M :: m.ctx == old(Snapshot()) && completed == (m.mode.NotStarted? || m.mode.Returned?) ==>
                Snapshot() == EndTurn(m)
    {
      var only := PendingActionsOnlyObsoleteEventTimers();
      if completed && only && outstandingEvents == map[] {
        var _ := CompleteInternal(COMPLETED, "", {});
      }
    }

    /** The rest of an execution whose orchestrator has returned: the remaining events,
        failure if a handler throws, and implicit completion. `escaped`: even the attempt
        to fail threw, because the orchestrator was complete. */
    method ExecuteRest(ghost p: Program, ghost trace: seq<Reply>) returns (escaped: bool, ghost n: nat, ghost last: M)
      requires Inv(Snapshot()) && HistoryOk(TheHistory())
      modifies this
      ensures Reaches(p, M(old(Snapshot()), Returned, trace, old(TheHistory())), n, last) && Halted(p, last)
      ensures Snapshot() == EndTurn(last) && (escaped <==> last.mode.Crashed?)
    {
      hide Inv, ProcessEvent, OnlyEventTimers;
      ghost var start := M(Snapshot(), Returned, trace, TheHistory());
      n, last := 0, start;
      escaped := false;
      var more, threw := true, false;
      while more && !threw
        invariant Inv(Snapshot()) && (more ==> HistoryOk(TheHistory()))
        invariant Reaches(p, start, n, last)
        invariant !threw ==> last.ctx == Snapshot() && last.mode == Returned && last.trace == trace
        invariant !threw && more ==> last.hist == TheHistory()
        invariant !more ==> !threw && Halted(p, last)
        invariant threw ==> last.ctx == Close(Snapshot(), FAILED, "", {})
        invariant threw ==> last.mode == if isComplete then Crashed else Stopped
        decreases if more && !threw then 1 + EventsLeft() else 0
      {
        ghost var next := Step(p, last);
        more, threw := MoveNext();
        if more {
          assert next == Some(Receive(last.(hist := TheHistory()), Current(MoveOn(last.hist))[MoveOn(last.hist).index]));
          OneMoreStep(p, start, n, last);
          n, last := n + 1, next.value;
        }
      }
      if threw {
        escaped := DoFail("");
        if escaped {
          return;
        }
      }
      FinishTurn(!threw);
    }
  }

  // ----- lemmas about single operations -----

  lemma GuardSpendsNothing(env: Env, b: Board, g: Guard, timeout: Option<int>)
    ensures !AddGuard(env, b, g, timeout).spends
  {
  }

  function PutEntry(pending: seq<Entry>, id: int, action: Action): seq<Entry> {
    var i := IndexOf(pending, id);
    if i < |pending| then pending[i := Entry(id, action)] else pending + [Entry(id, action)]
  }

  lemma ForgottenFirst(open: map<int, Record>, at: int)
    ensures RenumberOpen(open - {at}, at) == RenumberOpen(open, at)
  {
    DownIsBijective(open, at);
    DownIsBijective(open - {at}, at);
    var a, b := RenumberOpen(open - {at}, at), RenumberOpen(open, at);
    forall k ensures k in a <==> k in b {
      if k in a { assert Up(at, k) in open - {at}; assert Down(at, Up(at, k)) in b; }
      if k in b { assert Up(at, k) in open - {at}; assert Down(at, Up(at, k)) in a; }
    }
    assert forall k :: k in a ==> a[k] == b[k];
  }

  /** The records of ids between `at` and `bound` have moved down by one in `open`. */
  ghost predicate MovedBelow(was: map<int, Record>, at: int, bound: int, open: map<int, Record>) {
    && (forall id :: id in was && at < id < bound ==> id - 1 in open && open[id - 1] == was[id])
    && (forall id :: id in was && !(at < id < bound) ==> id in open && open[id] == was[id])
    && (forall k :: k in open ==> (k in was && !(at < k < bound)) || (k + 1 in was && at < k + 1 < bound))
  }

  /** Ids below this have been moved when k of them were. */
  function Bound(ids: seq<int>, k: nat, at: int): int
    requires k <= |ids|
  {
    if k == 0 then at + 1 else ids[k - 1] + 1
  }

  ghost predicate AreSortedAbove(ids: seq<int>, was: map<int, Record>, at: int) {
    && (forall i, j :: 0 <= i < j < |ids| ==> ids[i] < ids[j])
    && (forall id :: id in ids <==> id in was && id > at)
  }

  lemma NextIsLeast(was: map<int, Record>, at: int, ids: seq<int>, k: nat)
    requires AreSortedAbove(ids, was, at) && k < |ids|
    ensures at < Bound(ids, k, at) <= ids[k] && ids[k] in was
    ensures forall other :: other in was && Bound(ids, k, at) <= other ==> ids[k] <= other
  {
    assert ids[k] in ids && (k > 0 ==> ids[k - 1] in ids);
    forall other | other in was && Bound(ids, k, at) <= other ensures ids[k] <= other {
      assert other in ids;
      var j :| 0 <= j < |ids| && ids[j] == other;
    }
  }

  lemma NoneIsLeft(was: map<int, Record>, at: int, ids: seq<int>)
    requires AreSortedAbove(ids, was, at)
    ensures at < Bound(ids, |ids|, at) && forall id :: id in was && id > at ==> id < Bound(ids, |ids|, at)
  {
    assert ids != [] ==> ids[|ids| - 1] in ids;
    forall id | id in was && id > at ensures id < Bound(ids, |ids|, at) {
      assert id in ids;
    }
  }

  lemma NoneMoved(was: map<int, Record>, at: int)
    ensures MovedBelow(was, at, at + 1, was)
  {
  }

  /** Moving the next id down overwrites nothing. */
  lemma MoveOne(was: map<int, Record>, at: int, bound: int, id: int, open: map<int, Record>)
    requires MovedBelow(was, at, bound, open) && at !in was && at < bound <= id && id in was
    requires forall other :: other in was && bound <= other ==> id <= other
    ensures id in open && MovedBelow(was, at, id + 1, (open - {id})[id - 1 := open[id]])
  {
    var moved := (open - {id})[id - 1 := open[id]];
    forall other | other in was && at < other < id + 1 ensures other - 1 in moved && moved[other - 1] == was[other] {
      assert other == id || at < other < bound;
    }
    forall other | other in was && !(at < other < id + 1) ensures other in moved && moved[other] == was[other] {
      assert other != id && other != id - 1;
    }
    forall k | k in moved ensures (k in was && !(at < k < id + 1)) || (k + 1 in was && at < k + 1 < id + 1) {
      if k == id - 1 {
        assert k + 1 in was;
      } else {
        assert k in open && k != id;
        assert bound <= k && k in was ==> id <= k;
        assert (k in was && !(at < k < bound)) || (k + 1 in was && at < k + 1 < bound);
      }
    }
  }

  lemma AllMoved(was: map<int, Record>, at: int, bound: int, open: map<int, Record>)
    requires MovedBelow(was, at, bound, open) && at !in was && at < bound
    requires forall id :: id in was && id > at ==> id < bound
    ensures open == RenumberOpen(was, at)
  {
    hide RenumberOpen;
    var r := RenumberOpen(was, at);
    DownIsBijective(was, at);
    forall k ensures k in open <==> k in r { SameKeys(was, at, bound, open, k); }
    forall k | k in r ensures open[k] == r[k] {
      assert Up(at, k) in was;
      SameRecord(was, at, bound, open, Up(at, k));
    }
  }

  lemma SameKeys(was: map<int, Record>, at: int, bound: int, open: map<int, Record>, k: int)
    requires MovedBelow(was, at, bound, open) && at !in was && at < bound
    requires forall id :: id in was && id > at ==> id < bound
    ensures k in open <==> k in RenumberOpen(was, at)
  {
    DownIsBijective(was, at);
    if k in RenumberOpen(was, at) {
      assert Up(at, k) in was;
    }
    if k in open {
      var id := if k in was && !(at < k < bound) then k else k + 1;
      assert Down(at, id) == k;
    }
  }

  lemma SameRecord(was: map<int, Record>, at: int, bound: int, open: map<int, Record>, id: int)
    requires MovedBelow(was, at, bound, open) && at < bound && id in was && id != at
    requires forall other :: other in was && other > at ==> other < bound
    ensures Down(at, id) in open && open[Down(at, id)] == was[id]
  {
  }

  lemma NothingToDrain(c: Ctx)
    ensures c.held == [] ==> Drain(c) == Handled(c, false)
  {
  }

  /** One held event through the ordinary entry point, and then the rest. None of them
      suspends again, and none is a resume. */
  lemma DrainByProcessing(c: Ctx)
    requires Inv(c) && c.held != [] && !c.suspended
    ensures var d := c.(held := c.held[1..]);
            var r := ProcessEvent(d, c.held[0]);
            && Inv(d) && !c.held[0].ExecutionResumed?
            && Drain(c) == (if r.threw then r else Drain(r.ctx))
            && !r.ctx.suspended && |r.ctx.held| < |c.held|
  {
    hide Handle;
    var d := c.(held := c.held[1..]);
    assert Ordinary(c.held[0]);
    FewerHeld(c);
    HandleKeepsHeld(d, c.held[0]);
    HandleKeepsSuspended(d, c.held[0]);
  }
}
