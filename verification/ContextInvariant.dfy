/** What every call and every history event keeps, in whatever order they come. */
module ContextInvariant {
  import opened WorkflowTypes
  import opened IdTable
  import opened ReplayContext

  // ----- ids and actions -----

  predicate IsCompletion(e: Entry) { e.action.body.CompleteWorkflow? }

  /** Ids are in order, and there is at most one complete-workflow action, which only a
      completed orchestrator has. */
  ghost predicate IdsOk(t: Table, isComplete: bool) {
    && Ordered(t)
    && (forall i :: 0 <= i < |t.pending| && IsCompletion(t.pending[i]) ==> isComplete)
    && (forall i, j :: 0 <= i < j < |t.pending| && IsCompletion(t.pending[i]) ==> !IsCompletion(t.pending[j]))
  }

  lemma IssueKeepsIds(t: Table, body: ActionBody, rec: Record, isComplete: bool)
    requires IdsOk(t, isComplete) && !body.CompleteWorkflow?
    ensures IdsOk(Issue(t, body, rec), isComplete) && IdsOk(IssueQuietly(t, body), isComplete)
  {
    hide Put;
    IssueAppends(t, Quiet(body));
    IssueAppends(t, Opened(body, rec));
  }

  lemma CompleteKeepsIds(t: Table, body: ActionBody)
    requires IdsOk(t, false)
    ensures IdsOk(IssueQuietly(t, body), true)
  {
    hide Put;
    IssueAppends(t, Quiet(body));
  }

  lemma RemoveKeepsIds(t: Table, id: int, isComplete: bool)
    requires IdsOk(t, isComplete)
    ensures IdsOk(t.(pending := Remove(t.pending, id)), isComplete)
  {
    var i := IndexOf(t.pending, id);
    var rest := Remove(t.pending, id);
    if i < |t.pending| {
      assert forall j :: 0 <= j < |rest| ==> rest[j] == t.pending[if j < i then j else j + 1];
      hide Remove, IndexOf;
      FewerKeepsIds(t, i, rest, isComplete);
    }
  }

  lemma FewerKeepsIds(t: Table, i: nat, rest: seq<Entry>, isComplete: bool)
    requires IdsOk(t, isComplete) && i < |t.pending| && |rest| == |t.pending| - 1
    requires forall j :: 0 <= j < |rest| ==> rest[j] == t.pending[if j < i then j else j + 1]
    ensures IdsOk(t.(pending := rest), isComplete)
  {
  }

  lemma DropKeepsIds(t: Table, at: int, isComplete: bool)
    requires IdsOk(t, isComplete) && OptionalAt(t, at)
    ensures IdsOk(Drop(t, at), isComplete)
  {
    DropKeepsOrder(t, at);
    RemoveKeepsIds(t, at, isComplete);
    var rest := Remove(t.pending, at);
    assert forall j :: 0 <= j < |rest| ==> IsCompletion(Drop(t, at).pending[j]) == IsCompletion(rest[j]);
  }

  // ----- event waits -----

  ghost predicate IsParked(cells: seq<Cell>, w: Waits, x: nat) {
    && x < |cells|
    && cells[x].kind.EventCell?
    && cells[x].kind.queue.Some?
    && x in QueueAt(w, cells[x].kind.queue.value)
    && cells[x].kind.event in w.names
    && w.names[cells[x].kind.event] == cells[x].kind.queue.value
  }

  ghost predicate IsUnfinishedWait(cells: seq<Cell>, x: nat) {
    x < |cells| && cells[x].kind.EventCell? && cells[x].future.Pending?
  }

  /** Mapped queues are live, distinct and not empty. */
  ghost predicate NamesOk(w: Waits) {
    && (forall n :: n in w.names ==> w.names[n] < |w.queues| && w.queues[w.names[n]] != [])
    && (forall n, m :: n in w.names && m in w.names && n != m ==> w.names[n] != w.names[m])
  }

  /** Whatever sits in any queue object is an unfinished wait parked in that very queue;
      each queue is in order of arrival. */
  ghost predicate QueuesOk(cells: seq<Cell>, w: Waits) {
    forall q :: 0 <= q < |w.queues| ==> QueueOk(cells, w, q, w.queues[q])
  }

  ghost predicate QueueOk(cells: seq<Cell>, w: Waits, q: nat, queue: seq<nat>) {
    && (forall x :: x in queue ==>
          IsUnfinishedWait(cells, x) && cells[x].kind.queue == Some(q)
          && cells[x].kind.event in w.names && w.names[cells[x].kind.event] == q)
    && (forall i, j :: 0 <= i < j < |queue| ==> queue[i] < queue[j])
  }

  ghost predicate UnfinishedAreParked(cells: seq<Cell>, w: Waits) {
    forall x: nat :: IsUnfinishedWait(cells, x) ==> IsParked(cells, w, x)
  }

  /** No buffered event has a waiter of exactly its name. */
  ghost predicate BufferOk(w: Waits) {
    forall i :: 0 <= i < |w.unprocessed| ==> w.unprocessed[i].EventRaised? && w.unprocessed[i].name !in w.names
  }

  ghost predicate WaitsOk(cells: seq<Cell>, w: Waits) {
    NamesOk(w) && QueuesOk(cells, w) && UnfinishedAreParked(cells, w) && BufferOk(w)
  }

  // ----- open records -----

  ghost predicate GuardOk(cells: seq<Cell>, g: Guard) {
    g.wait < |cells| && cells[g.wait].kind == EventCell(g.name, Some(g.queue))
  }

  ghost predicate RecordOk(cells: seq<Cell>, rec: Record) {
    match rec
    case TaskRecord(x) => x < |cells| && cells[x].kind.TaskCell?
    case SubTimer(chain, _) =>
      && chain.cell < |cells| && cells[chain.cell].kind.TimerCell?
      && cells[chain.cell].future.Pending?
      && (chain.guard.Some? ==> GuardOk(cells, chain.guard.value))
    case OptionalTimer(g) => GuardOk(cells, g)
  }

  /** Records point at cells of their own kind, a chain with a sub-timer outstanding has
      not ended, and it has only that one. */
  ghost predicate RecordsOk(cells: seq<Cell>, open: map<int, Record>) {
    && (forall id :: id in open ==> RecordOk(cells, open[id]))
    && (forall id, other :: id in open && other in open && SameChain(open[id], open[other]) ==> id == other)
  }

  predicate SameChain(a: Record, b: Record) {
    a.SubTimer? && b.SubTimer? && a.chain.cell == b.chain.cell
  }

  lemma RenumberKeepsRecords(cells: seq<Cell>, open: map<int, Record>, at: int)
    requires RecordsOk(cells, open)
    ensures RecordsOk(cells, RenumberOpen(open, at))
  {
    DownIsBijective(open, at);
    var r := RenumberOpen(open, at);
    assert forall k :: k in r ==> r[k] == open[Up(at, k)];
    forall k, l | k in r && l in r && SameChain(r[k], r[l]) ensures k == l {
      assert Up(at, k) == Up(at, l);
    }
  }

  lemma IssueKeepsRecords(cells: seq<Cell>, open: map<int, Record>, id: int, rec: Record)
    requires RecordsOk(cells, open) && RecordOk(cells, rec)
    requires forall other :: other in open ==> !SameChain(rec, open[other])
    ensures RecordsOk(cells, open[id := rec])
  {
  }

  /** Cells may be added and finished as long as no chain that is still open ends. */
  lemma CellsKeepRecords(cells: seq<Cell>, cells': seq<Cell>, open: map<int, Record>)
    requires RecordsOk(cells, open)
    requires |cells| <= |cells'| && forall x :: 0 <= x < |cells| ==> cells'[x].kind == cells[x].kind
    requires forall x :: 0 <= x < |cells| && cells[x].kind.TimerCell? && cells'[x].future != cells[x].future ==>
               forall id :: id in open && open[id].SubTimer? ==> open[id].chain.cell != x
    ensures RecordsOk(cells', open)
  {
    forall id | id in open ensures RecordOk(cells', open[id]) {
      assert RecordOk(cells, open[id]);
    }
  }

  // ----- the whole -----

  predicate Ordinary(e: Event) {
    !e.ExecutionSuspended? && !e.ExecutionResumed? && !e.ExecutionTerminated?
  }

  ghost predicate HeldOk(held: seq<Event>) {
    forall i :: 0 <= i < |held| ==> Ordinary(held[i])
  }

  /** The board and the open records fit together. */
  ghost predicate BoardOk(b: Board, open: map<int, Record>) {
    WaitsOk(b.cells, b.waits) && RecordsOk(b.cells, open)
  }

  ghost predicate Inv(c: Ctx) {
    && IdsOk(c.ids, c.isComplete)
    && BoardOk(c.board, c.ids.open)
    && HeldOk(c.held)
  }

  lemma InvParts(c: Ctx)
    requires Inv(c)
    ensures Ordered(c.ids) && IdsOk(c.ids, c.isComplete) && BoardOk(c.board, c.ids.open)
  {
  }

  lemma ParkKeepsBuffer(w: Waits, name: string, x: nat)
    ensures Park(w, name, x).unprocessed == w.unprocessed
  {
  }

  lemma AttemptKeepsHeld(c: Ctx, call: Call)
    ensures var d := Attempt(c, call); d.held == c.held && d.suspended == c.suspended && d.patches == c.patches
  {
    hide Perform, Allot;
  }

  lemma HandleKeepsSuspended(c: Ctx, e: Event)
    requires !e.ExecutionSuspended? && !e.ExecutionResumed?
    ensures Handle(c, e).ctx.suspended == c.suspended
  {
    hide EndRecord, Allot, Acknowledge, RaiseEvent;
  }

  lemma FewerHeld(c: Ctx)
    requires Inv(c) && c.held != []
    ensures Inv(c.(held := c.held[1..]))
  {
  }

  lemma Unsuspended(c: Ctx)
    requires Inv(c)
    ensures Inv(c.(suspended := false))
  {
  }

  // ----- waits: each change keeps them -----

  /** Cells that are not unfinished event waits do not matter to the waits. */
  lemma OtherCellsKeepWaits(cells: seq<Cell>, cells': seq<Cell>, w: Waits)
    requires WaitsOk(cells, w)
    requires |cells| <= |cells'| && forall x :: 0 <= x < |cells| ==> cells'[x].kind == cells[x].kind
    requires forall x :: 0 <= x < |cells| && cells[x].kind.EventCell? ==> cells'[x].future == cells[x].future
    requires forall x :: |cells| <= x < |cells'| ==> !IsUnfinishedWait(cells', x)
    ensures WaitsOk(cells', w)
  {
    forall x: nat | IsUnfinishedWait(cells', x) ensures IsParked(cells', w, x) {
      assert IsUnfinishedWait(cells, x);
      assert IsParked(cells, w, x);
    }
    forall q | 0 <= q < |w.queues| ensures QueueOk(cells', w, q, w.queues[q]) {
      assert QueueOk(cells, w, q, w.queues[q]);
    }
  }

  lemma BufferKeepsWaits(cells: seq<Cell>, w: Waits, e: Event)
    requires WaitsOk(cells, w) && e.EventRaised? && e.name !in w.names
    ensures WaitsOk(cells, w.(unprocessed := w.unprocessed + [e]))
  {
    var v := w.(unprocessed := w.unprocessed + [e]);
    SameQueues(cells, w, v);
  }

  lemma UnbufferKeepsWaits(cells: seq<Cell>, w: Waits, i: nat)
    requires WaitsOk(cells, w) && i < |w.unprocessed|
    ensures WaitsOk(cells, w.(unprocessed := w.unprocessed[..i] + w.unprocessed[i + 1..]))
  {
    var v := w.(unprocessed := w.unprocessed[..i] + w.unprocessed[i + 1..]);
    SameQueues(cells, w, v);
    assert forall j :: 0 <= j < |v.unprocessed| ==> v.unprocessed[j] == w.unprocessed[if j < i then j else j + 1];
  }

  lemma SameQueues(cells: seq<Cell>, w: Waits, v: Waits)
    requires WaitsOk(cells, w) && v.names == w.names && v.queues == w.queues
    ensures NamesOk(v) && QueuesOk(cells, v) && UnfinishedAreParked(cells, v)
  {
    forall x: nat | IsUnfinishedWait(cells, x) ensures IsParked(cells, v, x) {
      assert IsParked(cells, w, x);
    }
    forall q | 0 <= q < |v.queues| ensures QueueOk(cells, v, q, v.queues[q]) {
      assert QueueOk(cells, w, q, w.queues[q]);
    }
  }

  lemma ParkKeepsOldQueue(cells: seq<Cell>, w: Waits, name: string, cell: Cell, r: nat)
    requires WaitsOk(cells, w) && r < |w.queues|
    ensures QueueOk(cells + [cell], Park(w, name, |cells|), r, w.queues[r])
  {
    hide UnfinishedAreParked, BufferOk, IsParked;
    assert QueueOk(cells, w, r, w.queues[r]);
  }

  lemma QueueGrows(cells: seq<Cell>, w: Waits, q: nat, queue: seq<nat>, x: nat)
    requires QueueOk(cells, w, q, queue) && (forall y :: y in queue ==> y < x) && QueueOk(cells, w, q, [x])
    ensures QueueOk(cells, w, q, queue + [x])
  {
    assert x in [x];
    forall i, j | 0 <= i < j < |queue + [x]| ensures (queue + [x])[i] < (queue + [x])[j] {
      assert queue[i] in queue;
    }
  }

  lemma ParkKeepsQueue(cells: seq<Cell>, w: Waits, name: string, r: nat)
    requires WaitsOk(cells, w)
    ensures var v := Park(w, name, |cells|);
            name in v.names && r < |v.queues| ==>
              QueueOk(cells + [Cell(EventCell(name, Some(v.names[name])), Pending, Pending)], v, r, v.queues[r])
  {
    hide UnfinishedAreParked, BufferOk, IsParked;
    var v := Park(w, name, |cells|);
    var cell := Cell(EventCell(name, Some(v.names[name])), Pending, Pending);
    if r < |w.queues| {
      ParkKeepsOldQueue(cells, w, name, cell, r);
      if r == v.names[name] {
        assert QueueOk(cells, w, r, w.queues[r]);
        QueueGrows(cells + [cell], v, r, w.queues[r], |cells|);
      }
    }
  }

  lemma ParkKeepsWaits(cells: seq<Cell>, w: Waits, name: string)
    requires WaitsOk(cells, w)
    requires forall i :: 0 <= i < |w.unprocessed| && w.unprocessed[i].EventRaised? ==> w.unprocessed[i].name != name
    ensures var v := Park(w, name, |cells|);
            name in v.names && WaitsOk(cells + [Cell(EventCell(name, Some(v.names[name])), Pending, Pending)], v)
  {
    var v := Park(w, name, |cells|);
    var q := v.names[name];
    var grown := cells + [Cell(EventCell(name, Some(q)), Pending, Pending)];
    assert NamesOk(v);
    assert BufferOk(v);
    forall r | 0 <= r < |v.queues| ensures QueueOk(grown, v, r, v.queues[r]) {
      ParkKeepsQueue(cells, w, name, r);
    }
    forall x: nat | IsUnfinishedWait(grown, x) ensures IsParked(grown, v, x) {
      if x < |cells| {
        assert IsUnfinishedWait(cells, x);
        assert IsParked(cells, w, x);
      } else {
        assert v.queues[q][|v.queues[q]| - 1] == x;
      }
    }
  }

  ghost predicate IsRest(rest: seq<nat>, queue: seq<nat>, x: nat) {
    && (forall y :: y in rest <==> y in queue && y != x)
    && (forall i, j :: 0 <= i < j < |rest| ==> rest[i] < rest[j])
  }

  lemma LeaveKeepsQueue(cells: seq<Cell>, w: Waits, x: nat, rest: seq<nat>, o: Outcome, r: nat)
    requires WaitsOk(cells, w) && IsUnfinishedWait(cells, x) && !o.Pending? && IsParked(cells, w, x)
    requires IsRest(rest, QueueAt(w, cells[x].kind.queue.value), x) && r < |w.queues|
    ensures var v := Leave(w, cells[x].kind.event, cells[x].kind.queue.value, rest);
            r < |v.queues| && QueueOk(Settle(cells, x, o), v, r, v.queues[r])
  {
    var q := cells[x].kind.queue.value;
    var v := Leave(w, cells[x].kind.event, q, rest);
    assert QueueOk(cells, w, r, w.queues[r]);
    if r == q {
      assert v.queues[r] == rest;
    } else {
      assert v.queues[r] == w.queues[r];
      forall y | y in w.queues[r] ensures y != x && cells[y].kind.event != cells[x].kind.event {
        assert cells[y].kind.queue == Some(r);
      }
    }
  }

  /** A wait leaves its queue and finishes; an emptied queue leaves the map. */
  lemma LeaveKeepsWaits(cells: seq<Cell>, w: Waits, x: nat, rest: seq<nat>, o: Outcome)
    requires WaitsOk(cells, w) && IsUnfinishedWait(cells, x) && !o.Pending?
    requires IsParked(cells, w, x)
    requires IsRest(rest, QueueAt(w, cells[x].kind.queue.value), x)
    ensures WaitsOk(Settle(cells, x, o), Leave(w, cells[x].kind.event, cells[x].kind.queue.value, rest))
  {
    var q := cells[x].kind.queue.value;
    var name := cells[x].kind.event;
    var v := Leave(w, name, q, rest);
    var done := Settle(cells, x, o);
    assert NamesOk(v);
    assert BufferOk(v);
    forall r | 0 <= r < |v.queues| ensures QueueOk(done, v, r, v.queues[r]) {
      LeaveKeepsQueue(cells, w, x, rest, o, r);
    }
    forall y: nat | IsUnfinishedWait(done, y) ensures IsParked(done, v, y) {
      assert IsUnfinishedWait(cells, y);
      assert IsParked(cells, w, y);
      LeaveKeepsParked(cells, w, x, rest, y);
    }
  }

  lemma LeaveKeepsParked(cells: seq<Cell>, w: Waits, x: nat, rest: seq<nat>, y: nat)
    requires NamesOk(w) && IsParked(cells, w, x) && IsParked(cells, w, y) && x != y
    requires IsRest(rest, QueueAt(w, cells[x].kind.queue.value), x)
    ensures IsParked(cells, Leave(w, cells[x].kind.event, cells[x].kind.queue.value, rest), y)
  {
    if cells[y].kind.event == cells[x].kind.event {
      assert y in rest;
    }
  }

  lemma WithoutIsSorted(q: seq<nat>, x: nat)
    requires forall i, j :: 0 <= i < j < |q| ==> q[i] < q[j]
    ensures forall i, j :: 0 <= i < j < |Without(q, x)| ==> Without(q, x)[i] < Without(q, x)[j]
  {
    if q != [] {
      WithoutIsSorted(q[1..], x);
      var r := Without(q[1..], x);
      assert forall i :: 0 <= i < |r| ==> r[i] in r;
    }
  }

  // ----- each handler and each call keeps the invariant -----

  lemma ExpireKeepsBoard(b: Board, open: map<int, Record>, g: Guard)
    requires BoardOk(b, open) && GuardOk(b.cells, g)
    ensures BoardOk(ExpireWait(b, g), open)
  {
    if b.cells[g.wait].future.Pending? {
      assert IsUnfinishedWait(b.cells, g.wait);
      assert IsParked(b.cells, b.waits, g.wait);
      var queue := QueueAt(b.waits, g.queue);
      assert QueueOk(b.cells, b.waits, g.queue, b.waits.queues[g.queue]);
      WithoutIsSorted(queue, g.wait);
      LeaveKeepsWaits(b.cells, b.waits, g.wait, Without(queue, g.wait), Cancelled);
      CellsKeepRecords(b.cells, Settle(b.cells, g.wait, Cancelled), open);
    }
  }

  lemma RaiseKeepsBoard(b: Board, open: map<int, Record>, e: Event)
    requires BoardOk(b, open) && e.EventRaised?
    ensures RaiseEvent(b, e).Some? && BoardOk(RaiseEvent(b, e).value, open)
  {
    if e.name !in b.waits.names {
      BufferKeepsWaits(b.cells, b.waits, e);
    } else {
      var q := b.waits.names[e.name];
      var queue := b.waits.queues[q];
      assert QueueOk(b.cells, b.waits, q, queue);
      var x := queue[0];
      assert x in queue;
      assert IsUnfinishedWait(b.cells, x);
      assert IsParked(b.cells, b.waits, x);
      assert b.cells[x].kind.event == e.name;
      assert forall y :: y in queue ==> y == x || y in queue[1..];
      assert forall i :: 0 <= i < |queue[1..]| ==> queue[1..][i] == queue[i + 1] && x < queue[i + 1];
      LeaveKeepsWaits(b.cells, b.waits, x, queue[1..], Received(e));
      CellsKeepRecords(b.cells, Settle(b.cells, x, Received(e)), open);
    }
  }

  lemma VisibleKeepsBoard(b: Board, open: map<int, Record>, x: nat, o: Outcome)
    requires BoardOk(b, open)
    ensures BoardOk(b.(cells := SetVisible(b.cells, x, o)), open)
  {
    var cells := SetVisible(b.cells, x, o);
    OtherCellsKeepWaits(b.cells, cells, b.waits);
    CellsKeepRecords(b.cells, cells, open);
  }

  ghost predicate ChainIsIdle(open: map<int, Record>, x: nat) {
    forall id :: id in open && open[id].SubTimer? ==> open[id].chain.cell != x
  }

  lemma FutureKeepsBoard(b: Board, open: map<int, Record>, x: nat, o: Outcome)
    requires BoardOk(b, open) && x < |b.cells| && b.cells[x].kind.TimerCell? && ChainIsIdle(open, x)
    ensures BoardOk(b.(cells := SetFuture(b.cells, x, o)), open)
  {
    var cells := SetFuture(b.cells, x, o);
    OtherCellsKeepWaits(b.cells, cells, b.waits);
    CellsKeepRecords(b.cells, cells, open);
  }

  /** Issuing keeps ids and records in order when the record is good for the new board
      and, if it is a sub-timer, its chain has no other outstanding. */
  ghost predicate MayIssue(cells: seq<Cell>, open: map<int, Record>, i: Option<Issuance>) {
    i.Some? ==>
      && !i.value.body.CompleteWorkflow?
      && (i.value.Opened? ==> RecordOk(cells, i.value.rec))
      && (i.value.Opened? && i.value.rec.SubTimer? ==> ChainIsIdle(open, i.value.rec.chain.cell))
  }

  lemma AllotKeeps(cells: seq<Cell>, t: Table, isComplete: bool, spends: bool, issued: Option<Issuance>)
    requires IdsOk(t, isComplete) && RecordsOk(cells, t.open) && MayIssue(cells, t.open, issued)
    ensures IdsOk(Allot(t, spends, issued), isComplete) && RecordsOk(cells, Allot(t, spends, issued).open)
  {
    var u := if spends then Skip(t) else t;
    assert IdsOk(u, isComplete);
    if issued.Some? {
      var rec := if issued.value.Opened? then issued.value.rec else TaskRecord(0);
      IssueKeepsIds(u, issued.value.body, rec, isComplete);
      if issued.value.Opened? {
        IssueKeepsRecords(cells, u.open, u.next, rec);
      }
    }
  }

  ghost predicate EffectOk(e: Effect, open: map<int, Record>) {
    BoardOk(e.board, open) && MayIssue(e.board.cells, open, e.issued)
  }

  lemma EffectKeepsInv(c: Ctx, e: Effect)
    requires Inv(c) && EffectOk(e, c.ids.open)
    ensures Inv(WithEffect(c, e))
  {
    hide IdsOk, RecordsOk, WaitsOk, MayIssue, Allot;
    AllotKeeps(e.board.cells, c.ids, c.isComplete, e.spends, e.issued);
  }

  lemma EndSubTimerIsOk(env: Env, b: Board, open: map<int, Record>, chain: Chain, first: bool, o: Outcome)
    requires BoardOk(b, open) && RecordOk(b.cells, SubTimer(chain, first)) && ChainIsIdle(open, chain.cell)
    ensures EffectOk(EndSubTimer(env, b, chain, first, o), open)
  {
    VisibleKeepsBoard(b, open, chain.cell, if o.Failure? then o else Value(""));
    if !o.Failure? && ChainIsOver(env.now, chain) {
      var seen := if first then b.(cells := SetVisible(b.cells, chain.cell, Value(""))) else b;
      FutureKeepsBoard(seen, open, chain.cell, Value(""));
      if chain.guard.Some? {
        ExpireKeepsBoard(seen.(cells := SetFuture(seen.cells, chain.cell, Value(""))), open, chain.guard.value);
      }
    }
  }

  lemma EndRecordIsOk(env: Env, b: Board, open: map<int, Record>, rec: Record, o: Outcome)
    requires BoardOk(b, open) && RecordOk(b.cells, rec) && !o.Pending?
    requires rec.SubTimer? ==> ChainIsIdle(open, rec.chain.cell)
    ensures EffectOk(EndRecord(env, b, rec, o), open)
  {
    match rec {
      case TaskRecord(x) =>
        OtherCellsKeepWaits(b.cells, Settle(b.cells, x, o), b.waits);
        CellsKeepRecords(b.cells, Settle(b.cells, x, o), open);
      case SubTimer(chain, first) => EndSubTimerIsOk(env, b, open, chain, first, o);
      case OptionalTimer(g) => ExpireKeepsBoard(b, open, g);
    }
  }

  lemma EndTaskKeepsInv(c: Ctx, id: int, o: Outcome)
    requires Inv(c) && !o.Pending?
    ensures Inv(EndTask(c, id, o))
  {
    hide EndRecord, Allot, WaitsOk;
    if id in c.ids.open {
      var rec := c.ids.open[id];
      var rest := c.ids.open - {id};
      assert RecordOk(c.board.cells, rec);
      if rec.SubTimer? {
        forall other | other in rest && rest[other].SubTimer? ensures rest[other].chain.cell != rec.chain.cell {
          assert !SameChain(c.ids.open[other], rec);
        }
      }
      EndRecordIsOk(c.env, c.board, rest, rec, o);
      EffectKeepsInv(c.(ids := Forget(c.ids, id)), EndRecord(c.env, c.board, rec, o));
    }
  }

  /** Acknowledging touches a table only by renumbering and by removing an action. */
  lemma AckKeepsTable(cells: seq<Cell>, t: Table, isComplete: bool, id: int)
    requires IdsOk(t, isComplete) && RecordsOk(cells, t.open)
    ensures IdsOk(t.(pending := Remove(t.pending, id)), isComplete)
    ensures OptionalAt(t, id) ==>
              var u := Drop(t, id);
              IdsOk(u, isComplete) && IdsOk(u.(pending := Remove(u.pending, id)), isComplete) && RecordsOk(cells, u.open)
  {
    RemoveKeepsIds(t, id, isComplete);
    if OptionalAt(t, id) {
      DropKeepsIds(t, id, isComplete);
      RemoveKeepsIds(Drop(t, id), id, isComplete);
      RenumberKeepsRecords(cells, t.open, id);
    }
  }

  lemma AcknowledgeKeeps(cells: seq<Cell>, t: Table, isComplete: bool, e: Event)
    requires IdsOk(t, isComplete) && RecordsOk(cells, t.open) && IsAcknowledgement(e)
    ensures IdsOk(Acknowledge(t, e).table, isComplete) && RecordsOk(cells, Acknowledge(t, e).table.open)
  {
    AckKeepsTable(cells, t, isComplete, e.eventId);
  }

  lemma HandleKeepsInv(c: Ctx, e: Event)
    requires Inv(c)
    ensures Inv(Handle(c, e).ctx)
    ensures e.EventRaised? ==> !Handle(c, e).threw
  {
    if IsAcknowledgement(e) {
      AcknowledgeKeeps(c.board.cells, c.ids, c.isComplete, e);
    } else if Ending(e).Some? {
      EndTaskKeepsInv(c, Ending(e).value.0, Ending(e).value.1);
    } else if e.EventRaised? {
      RaiseKeepsBoard(c.board, c.ids.open, e);
    } else if e.ExecutionTerminated? && !c.isComplete {
      CompleteKeepsIds(c.ids, CompleteWorkflow(TERMINATED, e.output, {}));
    }
  }

  lemma {:induction false} DrainKeepsInv(c: Ctx)
    requires Inv(c)
    ensures Inv(Drain(c).ctx)
    decreases |c.held|
  {
    hide Handle;
    if c.held != [] {
      var d := c.(held := c.held[1..]);
      HandleKeepsInv(d, c.held[0]);
      HandleKeepsHeld(d, c.held[0]);
      if !Handle(d, c.held[0]).threw {
        DrainKeepsInv(Handle(d, c.held[0]).ctx);
      }
    }
  }

  lemma ProcessKeepsInv(c: Ctx, e: Event)
    requires Inv(c)
    ensures Inv(ProcessEvent(c, e).ctx)
  {
    hide Handle, Drain;
    if c.suspended && !e.ExecutionResumed? && !e.ExecutionTerminated? {
    } else if e.ExecutionResumed? {
      DrainKeepsInv(c.(suspended := false));
    } else {
      HandleKeepsInv(c, e);
    }
  }

  lemma NewTimerIsOk(env: Env, b: Board, open: map<int, Record>, name: string, finalFireAt: int, origin: TimerOrigin,
                     guard: Option<Guard>)
    requires BoardOk(b, open) && (guard.Some? ==> GuardOk(b.cells, guard.value))
    ensures EffectOk(NewTimer(env, b, name, finalFireAt, origin, guard), open)
  {
    var grown := b.cells + [Cell(TimerCell, Pending, Pending)];
    OtherCellsKeepWaits(b.cells, grown, b.waits);
    CellsKeepRecords(b.cells, grown, open);
    forall id | id in open && open[id].SubTimer? ensures open[id].chain.cell != |b.cells| {
      assert RecordOk(b.cells, open[id]);
    }
  }

  /** A wait that is over at once: it took a buffered event or its timeout was zero. */
  lemma FinishedWaitIsOk(b: Board, open: map<int, Record>, name: string, o: Outcome)
    requires BoardOk(b, open) && !o.Pending?
    ensures BoardOk(AddEventCell(b, name, None, o), open)
  {
    var done := b.cells + [Cell(EventCell(name, None), o, o)];
    OtherCellsKeepWaits(b.cells, done, b.waits);
    CellsKeepRecords(b.cells, done, open);
  }

  lemma ParkIsOk(b: Board, open: map<int, Record>, name: string)
    requires BoardOk(b, open)
    requires FindBuffered(b.waits.unprocessed, name) == |b.waits.unprocessed|
    ensures BoardOk(ParkWait(b, name), open) && GuardOk(ParkWait(b, name).cells, NewGuard(b, name))
  {
    assert SameIgnoringCase(name, name);
    ParkKeepsWaits(b.cells, b.waits, name);
    var queue := NewGuard(b, name).queue;
    assert Park(b.waits, name, |b.cells|).names[name] == queue;
    CellsKeepRecords(b.cells, b.cells + [Cell(EventCell(name, Some(queue)), Pending, Pending)], open);
  }

  lemma AddGuardIsOk(env: Env, b: Board, open: map<int, Record>, g: Guard, timeout: Option<int>)
    requires BoardOk(b, open) && GuardOk(b.cells, g)
    ensures EffectOk(AddGuard(env, b, g, timeout), open)
  {
    if !IsInfiniteTimeout(timeout) {
      NewTimerIsOk(env, b, open, g.name, env.now + timeout.value, ExternalEvent(g.name), Some(g));
    }
  }

  lemma WaitIsOk(env: Env, b: Board, open: map<int, Record>, name: string, timeout: Option<int>)
    requires BoardOk(b, open)
    ensures EffectOk(Wait(env, b, name, timeout), open)
  {
    hide RecordsOk, NamesOk, QueuesOk, UnfinishedAreParked, BufferOk;
    var i := FindBuffered(b.waits.unprocessed, name);
    if i < |b.waits.unprocessed| {
      FinishedWaitIsOk(b, open, name, Received(b.waits.unprocessed[i]));
      UnbufferKeepsWaits(TakeBuffered(b, name, i).cells, b.waits, i);
    } else if !IsInfiniteTimeout(timeout) && timeout.value == 0 {
      FinishedWaitIsOk(b, open, name, Cancelled);
    } else {
      ParkIsOk(b, open, name);
      AddGuardIsOk(env, ParkWait(b, name), open, NewGuard(b, name), timeout);
    }
  }

  lemma NewTaskIsOk(b: Board, open: map<int, Record>, body: ActionBody)
    requires BoardOk(b, open) && !body.CompleteWorkflow?
    ensures EffectOk(NewTask(b, body), open)
  {
    var cells := b.cells + [Cell(TaskCell, Pending, Pending)];
    OtherCellsKeepWaits(b.cells, cells, b.waits);
    CellsKeepRecords(b.cells, cells, open);
  }

  lemma CallKeepsInv(c: Ctx, call: Call)
    requires Inv(c)
    ensures Inv(Attempt(c, call))
  {
    hide Wait, NewTask, NewTimer, WaitsOk, RecordsOk, Put;
    if !c.isComplete {
      var open := c.ids.open;
      match call {
        case CallActivity(name, input) => NewTaskIsOk(c.board, open, ScheduleTask(name, input));
        case CallChild(name, instance, input) => NewTaskIsOk(c.board, open, CreateChild(name, instance, input));
        case StartTimer(name, fireAt) => NewTimerIsOk(c.env, c.board, open, name, fireAt, UserTimer, None);
        case WaitForEvent(name, timeout) => WaitIsOk(c.env, c.board, open, name, timeout);
        case Send(_, _, _) =>
        case Conclude(output) => CompleteKeepsIds(c.ids, CompleteWorkflow(COMPLETED, output, {}));
      }
      if !call.Conclude? {
        assert EffectOk(Perform(c.env, c.board, call), open);
        EffectKeepsInv(c, Perform(c.env, c.board, call));
      }
    }
  }

  lemma ApplyKeepsInv(c: Ctx, i: Input)
    requires Inv(c)
    ensures Inv(Apply(c, i))
  {
    hide Attempt, ProcessEvent;
    match i {
      case Made(call) => CallKeepsInv(c, call);
      case Closed(status, output, carryover) =>
        if !c.isComplete { CompleteKeepsIds(c.ids, CompleteWorkflow(status, output, carryover)); }
      case Asked(_, _) =>
      case Happened(e) => ProcessKeepsInv(c, e);
    }
  }

  /** The invariant holds in every reachable state. */
  lemma {:induction false} InvAlways(c: Ctx, inputs: seq<Input>)
    requires Inv(c)
    ensures Inv(ApplyAll(c, inputs))
    decreases |inputs|
  {
    hide Inv, Apply;
    if inputs != [] {
      ApplyKeepsInv(c, inputs[0]);
      InvAlways(Apply(c, inputs[0]), inputs[1..]);
    }
  }

  lemma InitialInv(synthetic: bool, maxInterval: int)
    ensures Inv(Initial(synthetic, maxInterval))
  {
  }
}
