/** External-event waits over whole runs: where an unfinished wait is, how it ends, and
    that the timers that guard waits never disturb a newer queue of the same name. */
module EventWaits {
  import opened WorkflowTypes
  import opened IdTable
  import opened ReplayContext
  import opened ContextInvariant

  /** In every reachable state, a wait is unfinished exactly when it sits in the queue
      object that its name is mapped to now. */
  lemma {:induction false} UnfinishedIffParked(synthetic: bool, maxInterval: int, inputs: seq<Input>, x: nat)
    ensures var b := ApplyAll(Initial(synthetic, maxInterval), inputs).board;
            IsUnfinishedWait(b.cells, x) <==> IsParked(b.cells, b.waits, x)
  {
    InitialInv(synthetic, maxInterval);
    InvAlways(Initial(synthetic, maxInterval), inputs);
    var b := ApplyAll(Initial(synthetic, maxInterval), inputs).board;
    if IsParked(b.cells, b.waits, x) {
      var q := b.cells[x].kind.queue.value;
      assert QueueOk(b.cells, b.waits, q, b.waits.queues[q]);
    }
  }

  /** In every reachable state, no name has both a waiter and a buffered event, and no
      mapped queue is empty. */
  lemma {:induction false} NoWaiterBesideItsEvent(synthetic: bool, maxInterval: int, inputs: seq<Input>, name: string)
    ensures var w := ApplyAll(Initial(synthetic, maxInterval), inputs).board.waits;
            name in w.names ==>
              QueueAt(w, w.names[name]) != [] && forall e :: e in w.unprocessed ==> !IsRaised(e, name)
  {
    InitialInv(synthetic, maxInterval);
    InvAlways(Initial(synthetic, maxInterval), inputs);
  }

  /** The callback of an open guarding timer unmaps a name only if that name is mapped to
      the callback's own queue and its own wait was the last one there; and it acts only
      on a wait that is still unfinished. */
  lemma {:induction false} StaleCallbackIsHarmless(c: Ctx, id: int, g: Guard)
    requires Inv(c) && id in c.ids.open
    requires c.ids.open[id] == OptionalTimer(g)
          || (c.ids.open[id].SubTimer? && c.ids.open[id].chain.guard == Some(g))
    ensures var b := ExpireWait(c.board, g);
            && (b.waits.names == c.board.waits.names
                || (g.name in c.board.waits.names && c.board.waits.names[g.name] == g.queue
                    && (forall x :: x in QueueAt(c.board.waits, g.queue) <==> x == g.wait)
                    && b.waits.names == c.board.waits.names - {g.name}))
            && (forall q :: 0 <= q < |c.board.waits.queues| && q != g.queue ==> b.waits.queues[q] == c.board.waits.queues[q])
            && (b == c.board <==> !IsUnfinishedWait(c.board.cells, g.wait))
  {
    var b := c.board;
    assert RecordOk(b.cells, c.ids.open[id]);
    if b.cells[g.wait].future.Pending? {
      assert IsUnfinishedWait(b.cells, g.wait);
      assert IsParked(b.cells, b.waits, g.wait);
      var queue := QueueAt(b.waits, g.queue);
      assert QueueOk(b.cells, b.waits, g.queue, b.waits.queues[g.queue]);
      assert ExpireWait(b, g).cells[g.wait].future == Cancelled;
    }
  }

  // ----- an outcome is final -----

  /** Cells are only added, and a finished one never changes its outcome. */
  ghost predicate Grown(cells: seq<Cell>, cells': seq<Cell>) {
    && |cells| <= |cells'|
    && forall x :: 0 <= x < |cells| ==>
         cells'[x].kind == cells[x].kind && (!cells[x].future.Pending? ==> cells'[x].future == cells[x].future)
  }

  lemma EndRecordGrows(env: Env, b: Board, rec: Record, o: Outcome)
    ensures Grown(b.cells, EndRecord(env, b, rec, o).board.cells)
  {
  }

  lemma HandleGrows(c: Ctx, e: Event)
    ensures Grown(c.board.cells, Handle(c, e).ctx.board.cells)
  {
    hide EndRecord, Allot, Acknowledge;
    if Ending(e).Some? && Ending(e).value.0 in c.ids.open {
      EndRecordGrows(c.env, c.board, c.ids.open[Ending(e).value.0], Ending(e).value.1);
    }
  }

  lemma {:induction false} DrainGrows(c: Ctx)
    ensures Grown(c.board.cells, Drain(c).ctx.board.cells)
    decreases |c.held|
  {
    hide Handle;
    if c.held != [] {
      var d := c.(held := c.held[1..]);
      HandleGrows(d, c.held[0]);
      HandleKeepsHeld(d, c.held[0]);
      if !Handle(d, c.held[0]).threw { DrainGrows(Handle(d, c.held[0]).ctx); }
    }
  }

  lemma ApplyGrows(c: Ctx, i: Input)
    ensures Grown(c.board.cells, Apply(c, i).board.cells)
  {
    hide Handle, Drain, Allot, Grown, FindBuffered;
    match i {
      case Made(call) => if !c.isComplete { PerformGrows(c.env, c.board, call); } else { SameIsGrown(c.board.cells); }
      case Happened(e) =>
        HandleGrows(c, e);
        DrainGrows(c.(suspended := false));
        SameIsGrown(c.board.cells);
      case _ => SameIsGrown(c.board.cells);
    }
  }

  lemma SameIsGrown(cells: seq<Cell>)
    ensures Grown(cells, cells)
  {
  }

  lemma PerformGrows(env: Env, b: Board, call: Call)
    ensures Grown(b.cells, Perform(env, b, call).board.cells)
  {
    hide FindBuffered, IsInfiniteTimeout, Park;
  }

  lemma {:induction false} RunGrows(c: Ctx, inputs: seq<Input>)
    ensures Grown(c.board.cells, ApplyAll(c, inputs).board.cells)
    decreases |inputs|
  {
    hide Apply;
    if inputs == [] {
      SameIsGrown(c.board.cells);
    } else {
      ApplyGrows(c, inputs[0]);
      RunGrows(Apply(c, inputs[0]), inputs[1..]);
    }
  }

  /** Each task ends once: whatever its outcome first is, nothing changes it later. An
      event wait is thus ended by an event or by cancellation, never by both. */
  lemma {:induction false} OutcomeIsFinal(c: Ctx, inputs: seq<Input>, x: nat)
    requires x < |c.board.cells| && !c.board.cells[x].future.Pending?
    ensures var cells := ApplyAll(c, inputs).board.cells;
            x < |cells| && cells[x].future == c.board.cells[x].future
  {
    hide ApplyAll;
    RunGrows(c, inputs);
  }
}
