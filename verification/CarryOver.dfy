/** No raised event is lost or doubled: each is buffered, held, or the outcome of exactly
    one wait, and continue-as-new hands on precisely those that no wait received. */
module CarryOver {
  import opened WorkflowTypes
  import opened IdTable
  import opened ReplayContext
  import opened ContextInvariant
  import opened Machine

  /** The events that waits have received. */
  function Delivered(cells: seq<Cell>): multiset<Event> {
    if cells == [] then multiset{}
    else Delivered(cells[..|cells| - 1]) + Got(cells[|cells| - 1])
  }

  function Got(cell: Cell): multiset<Event> {
    if cell.future.Received? then multiset{cell.future.event} else multiset{}
  }

  function Raised(events: seq<Event>): multiset<Event> {
    if events == [] then multiset{}
    else Raised(events[..|events| - 1]) + One(events[|events| - 1])
  }

  function One(e: Event): multiset<Event> {
    if e.EventRaised? then multiset{e} else multiset{}
  }

  /** Where the raised events are. */
  function OnBoard(b: Board): multiset<Event> {
    multiset(b.waits.unprocessed) + Delivered(b.cells)
  }

  function Ledger(c: Ctx): multiset<Event> {
    OnBoard(c.board) + Raised(c.held)
  }

  // ----- sums -----

  lemma RaisedSplits(a: seq<Event>, b: seq<Event>)
    ensures Raised(a + b) == Raised(a) + Raised(b)
    decreases |b|
  {
    if b == [] {
      assert a + b == a;
    } else {
      var n := |b| - 1;
      assert (a + b)[..|a + b| - 1] == a + b[..n];
      RaisedSplits(a, b[..n]);
    }
  }

  lemma RaisedHeadTail(events: seq<Event>)
    requires events != []
    ensures Raised(events) == One(events[0]) + Raised(events[1..])
  {
    assert events == [events[0]] + events[1..];
    RaisedSplits([events[0]], events[1..]);
    assert [events[0]][..0] == [];
    assert Raised([events[0]]) == One(events[0]);
  }

  lemma DeliveredAppends(cells: seq<Cell>, cell: Cell)
    ensures Delivered(cells + [cell]) == Delivered(cells) + Got(cell)
  {
    assert (cells + [cell])[..|cells|] == cells;
  }

  lemma AddToBoth(a: multiset<Event>, b: multiset<Event>, c: multiset<Event>, d: multiset<Event>, more: multiset<Event>)
    requires a + c == b + d
    ensures (a + more) + c == (b + more) + d
  {
    assert (a + more) + c == (a + c) + more;
    assert (b + more) + d == (b + d) + more;
  }

  lemma Cancel(a: multiset<Event>, b: multiset<Event>, c: multiset<Event>)
    requires a + c == b + c
    ensures a == b
  {
    assert (a + c) - c == a;
    assert (b + c) - c == b;
  }

  lemma {:induction false} DeliveredUpdates(cells: seq<Cell>, x: nat, cell: Cell)
    requires x < |cells|
    ensures Delivered(cells[x := cell]) + Got(cells[x]) == Delivered(cells) + Got(cell)
    decreases |cells|
  {
    hide Got;
    var n := |cells| - 1;
    if x == n {
      assert cells[x := cell][..n] == cells[..n];
      assert Delivered(cells[x := cell]) == Delivered(cells[..n]) + Got(cell);
      assert Delivered(cells[..n]) + Got(cell) + Got(cells[x]) == Delivered(cells[..n]) + Got(cells[x]) + Got(cell);
    } else {
      var rest := cells[..n];
      assert cells[x := cell][..n] == rest[x := cell];
      DeliveredUpdates(rest, x, cell);
      AddToBoth(Delivered(rest[x := cell]), Delivered(rest), Got(cells[x]), Got(cell), Got(cells[n]));
    }
  }

  lemma SameDelivered(cells: seq<Cell>, x: nat, cell: Cell)
    requires x < |cells| && Got(cells[x]) == Got(cell)
    ensures Delivered(cells[x := cell]) == Delivered(cells)
  {
    hide Got, Delivered;
    DeliveredUpdates(cells, x, cell);
    Cancel(Delivered(cells[x := cell]), Delivered(cells), Got(cell));
  }

  // ----- each input keeps the ledger -----

  lemma SettleDelivers(cells: seq<Cell>, x: nat, o: Outcome)
    requires x < |cells| && cells[x].future.Pending?
    ensures Delivered(Settle(cells, x, o)) == Delivered(cells) + (if o.Received? then multiset{o.event} else multiset{})
  {
    hide Delivered;
    var cell := cells[x].(future := o, visible := o);
    DeliveredUpdates(cells, x, cell);
    Cancel(Delivered(cells[x := cell]), Delivered(cells) + Got(cell), Got(cells[x]));
  }

  lemma SettleElse(cells: seq<Cell>, x: nat, o: Outcome)
    requires !o.Received?
    ensures Delivered(Settle(cells, x, o)) == Delivered(cells)
    ensures Delivered(SetVisible(cells, x, o)) == Delivered(cells)
    ensures Delivered(SetFuture(cells, x, o)) == Delivered(cells)
  {
    if x < |cells| {
      SameDelivered(cells, x, cells[x].(visible := o));
      if cells[x].future.Pending? {
        SameDelivered(cells, x, cells[x].(future := o, visible := o));
        SameDelivered(cells, x, cells[x].(future := o));
      }
    }
  }

  lemma ExpireKeepsBook(b: Board, g: Guard)
    ensures OnBoard(ExpireWait(b, g)) == OnBoard(b)
  {
    SettleElse(b.cells, g.wait, Cancelled);
  }

  lemma EndSubTimerKeepsBook(env: Env, b: Board, chain: Chain, first: bool, o: Outcome)
    requires !o.Received?
    ensures OnBoard(EndSubTimer(env, b, chain, first, o).board) == OnBoard(b)
  {
    hide ExpireWait, Delivered, SetVisible, SetFuture;
    SettleElse(b.cells, chain.cell, if o.Failure? then o else Value(""));
    if !o.Failure? {
      var seen := if first then b.(cells := SetVisible(b.cells, chain.cell, Value(""))) else b;
      SettleElse(seen.cells, chain.cell, Value(""));
      if chain.guard.Some? {
        ExpireKeepsBook(seen.(cells := SetFuture(seen.cells, chain.cell, Value(""))), chain.guard.value);
      }
    }
  }

  lemma EndRecordKeepsBook(env: Env, b: Board, rec: Record, o: Outcome)
    requires !o.Received?
    ensures OnBoard(EndRecord(env, b, rec, o).board) == OnBoard(b)
  {
    hide ExpireWait, EndSubTimer, Settle, Delivered;
    match rec {
      case TaskRecord(x) => SettleElse(b.cells, x, o);
      case OptionalTimer(g) => ExpireKeepsBook(b, g);
      case SubTimer(chain, first) => EndSubTimerKeepsBook(env, b, chain, first, o);
    }
  }

  lemma RaiseBooks(b: Board, open: map<int, Record>, e: Event)
    requires BoardOk(b, open) && e.EventRaised?
    ensures RaiseEvent(b, e).Some? && OnBoard(RaiseEvent(b, e).value) == OnBoard(b) + multiset{e}
  {
    RaiseKeepsBoard(b, open, e);
    if e.name in b.waits.names {
      var queue := b.waits.queues[b.waits.names[e.name]];
      assert QueueOk(b.cells, b.waits, b.waits.names[e.name], queue);
      assert queue[0] in queue;
      SettleDelivers(b.cells, queue[0], Received(e));
    }
  }

  lemma TakeKeepsBook(b: Board, name: string, i: nat)
    requires i < |b.waits.unprocessed|
    ensures OnBoard(TakeBuffered(b, name, i)) == OnBoard(b)
  {
    var es := b.waits.unprocessed;
    DeliveredAppends(b.cells, Cell(EventCell(name, None), Received(es[i]), Received(es[i])));
    assert es == es[..i] + [es[i]] + es[i + 1..];
    assert multiset(es) == multiset(es[..i]) + multiset{es[i]} + multiset(es[i + 1..]);
  }

  lemma PerformKeepsBook(env: Env, b: Board, call: Call)
    ensures OnBoard(Perform(env, b, call).board) == OnBoard(b)
  {
    hide Wait, Delivered;
    match call {
      case CallActivity(_, _) => DeliveredAppends(b.cells, Cell(TaskCell, Pending, Pending));
      case CallChild(_, _, _) => DeliveredAppends(b.cells, Cell(TaskCell, Pending, Pending));
      case StartTimer(_, _) => DeliveredAppends(b.cells, Cell(TimerCell, Pending, Pending));
      case WaitForEvent(name, timeout) => WaitKeepsBook(env, b, name, timeout);
      case _ =>
    }
  }

  /** A new cell that holds no event, and waits with the same buffer. */
  lemma EmptyCellKeepsBook(b: Board, cell: Cell, w: Waits)
    requires !cell.future.Received? && w.unprocessed == b.waits.unprocessed
    ensures OnBoard(Board(b.cells + [cell], w)) == OnBoard(b)
  {
    hide Delivered;
    DeliveredAppends(b.cells, cell);
  }

  lemma WaitKeepsBook(env: Env, b: Board, name: string, timeout: Option<int>)
    ensures OnBoard(Wait(env, b, name, timeout).board) == OnBoard(b)
  {
    hide OnBoard, Park;
    var i := FindBuffered(b.waits.unprocessed, name);
    if i < |b.waits.unprocessed| {
      TakeKeepsBook(b, name, i);
    } else if !IsInfiniteTimeout(timeout) && timeout.value == 0 {
      EmptyCellKeepsBook(b, Cell(EventCell(name, None), Cancelled, Cancelled), b.waits);
    } else {
      var parked := ParkWait(b, name);
      ParkKeepsBuffer(b.waits, name, |b.cells|);
      EmptyCellKeepsBook(b, Cell(EventCell(name, Some(NewGuard(b, name).queue)), Pending, Pending), parked.waits);
      EmptyCellKeepsBook(parked, Cell(TimerCell, Pending, Pending), parked.waits);
    }
  }

  lemma HandleBooks(c: Ctx, e: Event)
    requires Inv(c)
    ensures OnBoard(Handle(c, e).ctx.board) == OnBoard(c.board) + One(e)
  {
    hide OnBoard, EndRecord, RaiseEvent, Acknowledge, Allot;
    if Ending(e).Some? && Ending(e).value.0 in c.ids.open {
      EndRecordKeepsBook(c.env, c.board, c.ids.open[Ending(e).value.0], Ending(e).value.1);
    } else if e.EventRaised? {
      RaiseBooks(c.board, c.ids.open, e);
    }
  }

  lemma {:induction false} DrainBooks(c: Ctx)
    requires Inv(c)
    ensures Ledger(Drain(c).ctx) == Ledger(c)
    decreases |c.held|
  {
    hide Handle, Inv, OnBoard;
    if c.held != [] {
      var d := c.(held := c.held[1..]);
      assert Inv(d) by { FewerHeld(c); }
      HandleBooks(d, c.held[0]);
      HandleKeepsHeld(d, c.held[0]);
      HandleKeepsInv(d, c.held[0]);
      RaisedHeadTail(c.held);
      if !Handle(d, c.held[0]).threw {
        DrainBooks(Handle(d, c.held[0]).ctx);
      }
    }
  }

  lemma HoldBooks(held: seq<Event>, e: Event)
    ensures Raised(held + [e]) == Raised(held) + One(e)
  {
    assert (held + [e])[..|held|] == held;
  }

  lemma ProcessBooks(c: Ctx, e: Event)
    requires Inv(c)
    ensures Ledger(ProcessEvent(c, e).ctx) == Ledger(c) + One(e)
  {
    hide Handle, Drain, OnBoard, Inv, Raised;
    if c.suspended && !e.ExecutionResumed? && !e.ExecutionTerminated? {
      HoldBooks(c.held, e);
      assert OnBoard(c.board) + (Raised(c.held) + One(e)) == Ledger(c) + One(e);
    } else if e.ExecutionResumed? {
      assert Inv(c.(suspended := false)) by { Unsuspended(c); }
      DrainBooks(c.(suspended := false));
    } else {
      HandleBooks(c, e);
      HandleKeepsHeld(c, e);
      assert OnBoard(c.board) + One(e) + Raised(c.held) == Ledger(c) + One(e);
    }
  }

  lemma AttemptBooks(c: Ctx, call: Call)
    ensures Ledger(Attempt(c, call)) == Ledger(c)
  {
    hide Perform, Allot, OnBoard;
    PerformKeepsBook(c.env, c.board, call);
  }

  /** Conservation: an event enters the ledger when it is raised and never leaves it. */
  lemma {:induction false} NothingIsLost(c: Ctx, i: Input)
    requires Inv(c)
    ensures Ledger(Apply(c, i)) == Ledger(c) + (if i.Happened? then One(i.event) else multiset{})
  {
    hide Attempt, ProcessEvent, OnBoard;
    match i {
      case Made(call) => AttemptBooks(c, call);
      case Happened(e) => ProcessBooks(c, e);
      case _ =>
    }
  }

  // ----- a whole execution -----

  /** The events taken from the history so far. */
  function Taken(h: History): seq<Event>
    requires HistoryOk(h)
  {
    if h.onArrived then h.past + h.arrived[..h.index] else h.past[..h.index]
  }

  /** Those still to come. */
  function ToCome(h: History): seq<Event>
    requires HistoryOk(h)
  {
    if h.onArrived then h.arrived[h.index..] else h.past[h.index..] + h.arrived
  }

  lemma ExecuteBooks(m: M, op: Op)
    ensures Ledger(Execute(m, op).ctx) == Ledger(m.ctx) && Execute(m, op).hist == m.hist
  {
    hide Attempt, OnBoard, Raised;
    if op.Do? { AttemptBooks(m.ctx, op.call); }
  }

  lemma ReceiveBooks(m: M, e: Event)
    requires Inv(m.ctx)
    ensures Ledger(Receive(m, e).ctx) == Ledger(m.ctx) + One(e) && Receive(m, e).hist == m.hist
  {
    hide ProcessEvent, OnBoard, Raised;
    ProcessBooks(m.ctx, e);
  }

  lemma TakeOne(h: History)
    requires HistoryOk(h) && MoveOn(h).index < |Current(MoveOn(h))|
    ensures var n := MoveOn(h);
            Taken(n.(index := n.index + 1)) == Taken(h) + [Current(n)[n.index]]
  {
  }

  lemma StepBooks(p: Program, m: M)
    requires Inv(m.ctx) && HistoryOk(m.hist) && Ledger(m.ctx) == Raised(Taken(m.hist)) && !Halted(p, m)
    ensures HistoryOk(Step(p, m).value.hist)
    ensures Ledger(Step(p, m).value.ctx) == Raised(Taken(Step(p, m).value.hist))
  {
    hide Execute, Receive, Ledger, Raised, Inv, Taken;
    StepKeepsHistory(p, m);
    if m.mode.Running? {
      ExecuteBooks(m, p(m.trace));
    } else if !m.mode.Blocked? || !AwaitDone(m.ctx, m.mode.task) {
      var h := MoveOn(m.hist);
      var e := Current(h)[h.index];
      TakeOne(m.hist);
      ReceiveBooks(m.(hist := h.(index := h.index + 1)), e);
      HoldBooks(Taken(m.hist), e);
    }
  }

  lemma {:induction false} RunBooks(p: Program, m: M, n: nat, last: M)
    requires Reaches(p, m, n, last) && Inv(m.ctx) && HistoryOk(m.hist) && Ledger(m.ctx) == Raised(Taken(m.hist))
    ensures HistoryOk(last.hist) && Ledger(last.ctx) == Raised(Taken(last.hist)) && Inv(last.ctx)
    decreases n
  {
    hide Step, Inv, Ledger, Taken, HistoryOk;
    if n > 0 {
      StepBooks(p, m);
      StepKeepsInv(p, m);
      RunBooks(p, Step(p, m).value, n - 1, last);
    }
  }

  ghost predicate PairwiseDistinct(events: seq<Event>) {
    forall e :: Raised(events)[e] <= 1
  }

  /** The raised events of the whole history that no wait has received. */
  ghost function Undelivered(m: M): set<Event> {
    set e | e in Raised(m.hist.past + m.hist.arrived) && e !in Delivered(m.ctx.board.cells)
  }

  lemma {:induction false} InRaised(events: seq<Event>, e: Event)
    ensures e in Raised(events) <==> e in events && e.EventRaised?
    decreases |events|
  {
    if events != [] {
      var n := |events| - 1;
      InRaised(events[..n], e);
      assert events == events[..n] + [events[n]];
    }
  }

  lemma HistorySplits(h: History)
    requires HistoryOk(h)
    ensures Raised(h.past + h.arrived) == Raised(Taken(h)) + Raised(ToCome(h))
  {
    assert h.past + h.arrived == Taken(h) + ToCome(h);
    RaisedSplits(Taken(h), ToCome(h));
  }

  /** The undelivered events are those buffered, those held and those to come, each in one
      of these places only. */
  lemma UndeliveredAre(p: Program, start: M, n: nat, m: M, e: Event)
    requires Inv(start.ctx) && Ledger(start.ctx) == multiset{} && start.hist.index == 0 && !start.hist.onArrived
    requires Reaches(p, start, n, m) && PairwiseDistinct(m.hist.past + m.hist.arrived)
    ensures HistoryOk(m.hist)
    ensures e in Undelivered(m) <==>
            e in m.ctx.board.waits.unprocessed || (e.EventRaised? && (e in m.ctx.held || e in ToCome(m.hist)))
    ensures e.EventRaised? && e in ToCome(m.hist) ==> e !in m.ctx.board.waits.unprocessed
    ensures e.EventRaised? && e in m.ctx.held ==> e !in m.ctx.board.waits.unprocessed && e !in ToCome(m.hist)
  {
    hide Step, Inv, Taken, ToCome, Delivered;
    assert Taken(start.hist) == [] by { NothingTaken(start.hist); }
    RunBooks(p, start, n, m);
    HistorySplits(m.hist);
    InRaised(ToCome(m.hist), e);
    InRaised(m.ctx.held, e);
    var w, d, r := multiset(m.ctx.board.waits.unprocessed), Delivered(m.ctx.board.cells), Raised(ToCome(m.hist));
    assert Raised(m.hist.past + m.hist.arrived)[e] == w[e] + d[e] + Raised(m.ctx.held)[e] + r[e] <= 1;
  }

  lemma NothingTaken(h: History)
    requires h.index == 0 && !h.onArrived
    ensures HistoryOk(h) && Taken(h) == []
  {
  }

  lemma StartBooks(maxInterval: int, past: seq<Event>, arrived: seq<Event>)
    ensures var start := Start(Initial(true, maxInterval), past, arrived);
            Inv(start.ctx) && HistoryOk(start.hist) && Ledger(start.ctx) == multiset{}
  {
    InitialInv(true, maxInterval);
  }

  /** Continue-as-new with preservation, once a new event has been taken: what is carried
      over was delivered to no wait, and it is all of that exactly when no raised event is
      still held from a suspension. */
  lemma {:induction false} CarryoverExactlyWhen(p: Program, maxInterval: int, past: seq<Event>, arrived: seq<Event>,
                                                n: nat, m: M)
    requires Reaches(p, Start(Initial(true, maxInterval), past, arrived), n, m)
    requires m.hist.onArrived && PairwiseDistinct(past + arrived)
    ensures Carryover(m.ctx, m.hist) <= Undelivered(m)
    ensures Carryover(m.ctx, m.hist) == Undelivered(m) <==> NoneRaised(m.ctx.held)
  {
    hide Reaches, Undelivered, Inv, Ledger, PairwiseDistinct;
    var start := Start(Initial(true, maxInterval), past, arrived);
    StartBooks(maxInterval, past, arrived);
    RunKeepsHistory(p, start, n, m);
    forall e
      ensures e in Carryover(m.ctx, m.hist) <==> e in m.ctx.board.waits.unprocessed || (e in ToCome(m.hist) && e.EventRaised?)
      ensures e in Undelivered(m) <==> e in Carryover(m.ctx, m.hist) || (e in m.ctx.held && e.EventRaised?)
      ensures e.EventRaised? && e in m.ctx.held ==> e !in Carryover(m.ctx, m.hist)
    {
      UndeliveredAre(p, start, n, m, e);
    }
  }

  /** If the orchestrator continues as new while past events are still being replayed,
      the index is one into the past events although it is used on the new ones. The
      carry-over is then right exactly when no raised event is held, none is left in the
      past, and none is among the new events that the index skips. */
  lemma {:induction false} CarryoverDuringReplay(p: Program, maxInterval: int, past: seq<Event>, arrived: seq<Event>,
                                                 n: nat, m: M)
    requires Reaches(p, Start(Initial(true, maxInterval), past, arrived), n, m)
    requires !m.hist.onArrived && PairwiseDistinct(past + arrived)
    ensures m.hist.index <= |past|
    ensures Carryover(m.ctx, m.hist) == Undelivered(m)
            <==> NoneRaised(m.ctx.held) && NoneRaised(past[m.hist.index..]) && NoneRaised(Skipped(arrived, m.hist.index))
  {
    hide Reaches, Undelivered, Inv, Ledger, PairwiseDistinct, HistoryOk;
    var start := Start(Initial(true, maxInterval), past, arrived);
    StartBooks(maxInterval, past, arrived);
    RunKeepsHistory(p, start, n, m);
    IndexInPast(m.hist);
    var i := m.hist.index;
    var missed, late := past[i..] + Skipped(arrived, i), arrived[Lesser(i, |arrived|)..];
    assert past[i..] + arrived == missed + late;
    assert past + arrived == past[..i] + missed + late;
    forall e
      ensures e in Carryover(m.ctx, m.hist) <==> e in m.ctx.board.waits.unprocessed || (e in late && e.EventRaised?)
      ensures e in Undelivered(m) <==>
              e in m.ctx.board.waits.unprocessed || (e.EventRaised? && (e in m.ctx.held || e in missed || e in late))
      ensures e.EventRaised? && (e in missed || e in m.ctx.held) ==> e !in m.ctx.board.waits.unprocessed && e !in late
    {
      UndeliveredAre(p, start, n, m, e);
      assert ToCome(m.hist) == missed + late;
      DistinctParts(past[..i], missed, late, e);
    }
    assert NoneRaised(missed) <==> NoneRaised(past[i..]) && NoneRaised(Skipped(arrived, i)) by {
      assert forall e :: e in missed <==> e in past[i..] || e in Skipped(arrived, i);
    }
  }

  lemma IndexInPast(h: History)
    requires HistoryOk(h) && !h.onArrived
    ensures h.index <= |h.past|
  {
  }

  ghost predicate NoneRaised(events: seq<Event>) {
    forall e :: e in events ==> !e.EventRaised?
  }

  function Skipped(arrived: seq<Event>, index: nat): seq<Event> {
    arrived[..Lesser(index, |arrived|)]
  }

  lemma DistinctParts(a: seq<Event>, b: seq<Event>, c: seq<Event>, e: Event)
    ensures PairwiseDistinct(a + b + c) && e.EventRaised? && e in b ==> e !in c
  {
    RaisedSplits(a + b, c);
    RaisedSplits(a, b);
    InRaised(b, e);
    InRaised(c, e);
    assert Raised(a + b + c)[e] == Raised(a)[e] + Raised(b)[e] + Raised(c)[e];
  }
}
