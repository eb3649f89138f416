/** Event waits with a timeout: what ends them, and with what. */
module WaitTimeouts {
  import opened WorkflowTypes
  import opened IdTable
  import opened ReplayContext
  import opened ContextInvariant
  import opened EventWaits
  import opened TimerChains

  // ----- the firing that ends the wait -----

  lemma {:induction false} WithoutOne(q: seq<nat>, k: nat)
    requires k < |q| && forall i, j :: 0 <= i < j < |q| ==> q[i] < q[j]
    ensures Without(q, q[k]) == q[..k] + q[k + 1..]
    decreases |q|
  {
    if k == 0 {
      NothingWithout(q[1..], q[0]);
    } else {
      WithoutOne(q[1..], k - 1);
      assert q[1..][..k - 1] == q[1..k] && q[1..][k..] == q[k + 1..];
    }
  }

  lemma {:induction false} NothingWithout(q: seq<nat>, x: nat)
    requires x !in q
    ensures Without(q, x) == q
    decreases |q|
  {
    if q != [] {
      NothingWithout(q[1..], x);
    }
  }

  /** Where the wait that an open timer guards stands in its queue. */
  lemma GuardedPlace(c: Ctx, id: int, g: Guard) returns (k: nat)
    requires Inv(c) && id in c.ids.open
    requires c.ids.open[id] == OptionalTimer(g) || (c.ids.open[id].SubTimer? && c.ids.open[id].chain.guard == Some(g))
    requires g.wait < |c.board.cells| && c.board.cells[g.wait].future.Pending?
    ensures var w := c.board.waits;
            && g.name in w.names && w.names[g.name] == g.queue < |w.queues|
            && k < |w.queues[g.queue]| && w.queues[g.queue][k] == g.wait
            && GuardOk(c.board.cells, g)
            && forall i, j :: 0 <= i < j < |w.queues[g.queue]| ==> w.queues[g.queue][i] < w.queues[g.queue][j]
  {
    assert RecordOk(c.board.cells, c.ids.open[id]);
    assert IsUnfinishedWait(c.board.cells, g.wait);
    assert IsParked(c.board.cells, c.board.waits, g.wait);
    assert QueueOk(c.board.cells, c.board.waits, g.queue, c.board.waits.queues[g.queue]);
    k :| 0 <= k < |c.board.waits.queues[g.queue]| && c.board.waits.queues[g.queue][k] == g.wait;
  }

  /** When the sub-timer that guards an unfinished wait fires in the final second or later,
      the wait is cancelled and leaves its queue; its name stays mapped exactly if others
      wait in that queue. The timer is done. Nothing else changes. */
  lemma {:induction false} TimeoutCancels(c: Ctx, id: int) returns (k: nat)
    requires Inv(c) && !c.suspended && id in c.ids.open && c.ids.open[id].SubTimer? && c.ids.open[id].chain.guard.Some?
    requires var due := c.ids.open[id].chain.finalFireAt; c.env.now >= due - due % 1_000_000_000
    requires var g := c.ids.open[id].chain.guard.value; g.wait < |c.board.cells| && c.board.cells[g.wait].future.Pending?
    ensures var chain := c.ids.open[id].chain;
            var g := chain.guard.value;
            var d := ProcessEvent(c, TimerFired(id)).ctx;
            var was := QueueAt(c.board.waits, g.queue);
            && g.wait < |d.board.cells| && d.board.cells[g.wait].future == d.board.cells[g.wait].visible == Cancelled
            && chain.cell < |d.board.cells| && d.board.cells[chain.cell].future == Value("")
            && |d.board.cells| == |c.board.cells|
            && (forall x :: 0 <= x < |d.board.cells| && x != g.wait && x != chain.cell ==> d.board.cells[x] == c.board.cells[x])
            && k < |was| && was[k] == g.wait && QueueAt(d.board.waits, g.queue) == was[..k] + was[k + 1..]
            && |d.board.waits.queues| == |c.board.waits.queues|
            && (forall q :: 0 <= q < |d.board.waits.queues| && q != g.queue ==>
                  d.board.waits.queues[q] == c.board.waits.queues[q])
            && (g.name in d.board.waits.names <==> |was| > 1)
            && d.board.waits.names - {g.name} == c.board.waits.names - {g.name}
            && d.board.waits.unprocessed == c.board.waits.unprocessed
            && d.ids == c.ids.(open := c.ids.open - {id})
  {
    hide Inv, Ordered, EndSubTimer, RecordsOk, Without, ChainIsOver;
    var chain := c.ids.open[id].chain;
    OnlySubTimer(c, id);
    SecondHasBegunExactlyWhen(c.env.now, chain.finalFireAt);
    k := GuardedPlace(c, id, chain.guard.value);
    WithoutOne(c.board.waits.queues[chain.guard.value.queue], k);
    OverdueBoard(c.env, c.board, chain, c.ids.open[id].first, k);
  }

  /** So does the synthetic timer of an indefinite wait, should it ever fire. */
  lemma {:induction false} SyntheticTimerCancels(c: Ctx, id: int, g: Guard) returns (k: nat)
    requires Inv(c) && !c.suspended && id in c.ids.open && c.ids.open[id] == OptionalTimer(g)
    requires g.wait < |c.board.cells| && c.board.cells[g.wait].future.Pending?
    ensures var d := ProcessEvent(c, TimerFired(id)).ctx;
            var was := QueueAt(c.board.waits, g.queue);
            && d.board.cells == c.board.cells[g.wait := c.board.cells[g.wait].(future := Cancelled, visible := Cancelled)]
            && k < |was| && was[k] == g.wait
            && d.board.waits.queues == c.board.waits.queues[g.queue := was[..k] + was[k + 1..]]
            && (g.name in d.board.waits.names <==> |was| > 1)
            && d.board.waits.unprocessed == c.board.waits.unprocessed
            && d.ids == c.ids.(open := c.ids.open - {id})
  {
    hide Inv, Ordered, ExpireWait, Without;
    k := GuardedPlace(c, id, g);
    WithoutOne(c.board.waits.queues[g.queue], k);
    ExpiryOf(c.board, g, k);
  }

  lemma OverdueBoard(env: Env, b: Board, chain: Chain, first: bool, k: nat)
    requires RecordOk(b.cells, SubTimer(chain, first)) && chain.guard.Some? && Seconds(env.now) >= Seconds(chain.finalFireAt)
    requires var g := chain.guard.value;
             && GuardOk(b.cells, g) && b.cells[g.wait].future.Pending? && g.queue < |b.waits.queues|
             && k < |b.waits.queues[g.queue]| && b.waits.queues[g.queue][k] == g.wait
             && Without(b.waits.queues[g.queue], g.wait) == b.waits.queues[g.queue][..k] + b.waits.queues[g.queue][k + 1..]
    ensures var g := chain.guard.value;
            var e := EndSubTimer(env, b, chain, first, Value(""));
            var d := e.board;
            var was := b.waits.queues[g.queue];
            && !e.spends && e.issued.None? && |d.cells| == |b.cells|
            && d.cells[g.wait].future == d.cells[g.wait].visible == Cancelled && d.cells[chain.cell].future == Value("")
            && (forall x :: 0 <= x < |d.cells| && x != g.wait && x != chain.cell ==> d.cells[x] == b.cells[x])
            && d.waits.queues == b.waits.queues[g.queue := was[..k] + was[k + 1..]]
            && d.waits.unprocessed == b.waits.unprocessed
            && (|was| > 1 ==> d.waits.names == b.waits.names)
            && (|was| == 1 ==> d.waits.names == b.waits.names - {g.name})
  {
    hide ExpireWait, Without;
    var seen := if first then b.(cells := SetVisible(b.cells, chain.cell, Value(""))) else b;
    ExpiryOf(seen.(cells := SetFuture(seen.cells, chain.cell, Value(""))), chain.guard.value, k);
  }

  lemma ExpiryOf(b: Board, g: Guard, k: nat)
    requires g.wait < |b.cells| && b.cells[g.wait].future.Pending? && g.queue < |b.waits.queues|
    requires k < |b.waits.queues[g.queue]|
    requires Without(b.waits.queues[g.queue], g.wait) == b.waits.queues[g.queue][..k] + b.waits.queues[g.queue][k + 1..]
    ensures var was := b.waits.queues[g.queue];
            var d := ExpireWait(b, g);
            && d.cells == b.cells[g.wait := b.cells[g.wait].(future := Cancelled, visible := Cancelled)]
            && d.waits.queues == b.waits.queues[g.queue := was[..k] + was[k + 1..]]
            && d.waits.unprocessed == b.waits.unprocessed
            && (|was| > 1 ==> d.waits.names == b.waits.names)
            && (|was| == 1 ==> d.waits.names == b.waits.names - {g.name})
  {
  }

  // ----- a wait and its timer, over whole runs -----

  /** Wait x and the timer `own` that guards it: the wait is not cancelled before its timer
      is done, and it is finished once that is. An event it received has its name. */
  ghost predicate Coupled(b: Board, x: nat, own: Chain) {
    && x < |b.cells| && b.cells[x].kind.EventCell? && own.cell < |b.cells| && b.cells[own.cell].kind.TimerCell?
    && own.guard.Some? && own.guard.value.wait == x && b.cells[x].kind.event == own.guard.value.name
    && (b.cells[own.cell].future.Pending? ==> !b.cells[x].future.Cancelled?)
    && (!b.cells[own.cell].future.Pending? ==> !b.cells[x].future.Pending?)
    && Ends(b.cells[x].future, b.cells[x].kind.event)
  }

  predicate Ends(o: Outcome, name: string) {
    o.Pending? || o.Cancelled? || (o.Received? && IsRaised(o.event, name))
  }

  ghost predicate StaysCoupled(c: Ctx, x: nat, own: Chain) {
    && Inv(c) && Coupled(c.board, x, own)
    && Owed(c.ids.open, x, own) && Owed(c.ids.open, own.cell, own)
  }

  lemma EndRecordKeepsCoupled(env: Env, b: Board, rec: Record, o: Outcome, x: nat, own: Chain)
    requires Coupled(b, x, own) && RecordOk(b.cells, rec)
    requires Touches(rec, x) ==> IsPartOf(rec, own)
    requires Touches(rec, own.cell) ==> IsPartOf(rec, own)
    ensures Coupled(EndRecord(env, b, rec, o).board, x, own)
  {
    hide ExpireWait, EndSubTimer;
    match rec {
      case TaskRecord(_) =>
      case OptionalTimer(g) => ExpiryKeepsOthers(b, g, x); ExpiryKeepsOthers(b, g, own.cell);
      case SubTimer(chain, first) =>
        if chain == own { EndOwnKeepsCoupled(env, b, first, o, x, own); } else { EndOtherKeepsCoupled(env, b, chain, first, o, x, own); }
    }
  }

  lemma EndOwnKeepsCoupled(env: Env, b: Board, first: bool, o: Outcome, x: nat, own: Chain)
    requires Coupled(b, x, own)
    ensures Coupled(EndSubTimer(env, b, own, first, o).board, x, own)
  {
    hide Leave, Without;
  }

  lemma EndOtherKeepsCoupled(env: Env, b: Board, chain: Chain, first: bool, o: Outcome, x: nat, own: Chain)
    requires Coupled(b, x, own) && RecordOk(b.cells, SubTimer(chain, first))
    requires !Touches(SubTimer(chain, first), x) && !Touches(SubTimer(chain, first), own.cell)
    ensures Coupled(EndSubTimer(env, b, chain, first, o).board, x, own)
  {
    hide ExpireWait;
    if !o.Failure? && ChainIsOver(env.now, chain) && chain.guard.Some? {
      var seen := if first then b.(cells := SetVisible(b.cells, chain.cell, Value(""))) else b;
      var done := seen.(cells := SetFuture(seen.cells, chain.cell, Value("")));
      ExpiryKeepsOthers(done, chain.guard.value, x);
      ExpiryKeepsOthers(done, chain.guard.value, own.cell);
    }
  }

  lemma EndTaskKeepsCoupled(c: Ctx, id: int, o: Outcome, x: nat, own: Chain)
    requires StaysCoupled(c, x, own)
    ensures Coupled(EndTask(c, id, o).board, x, own)
  {
    hide Allot, EndRecord, RecordOk, Coupled, Touches;
    if id in c.ids.open {
      var rec := c.ids.open[id];
      assert RecordOk(c.board.cells, rec);
      assert Touches(rec, x) ==> Concerns(c.ids.open, id, x);
      assert Touches(rec, own.cell) ==> Concerns(c.ids.open, id, own.cell);
      EndRecordKeepsCoupled(c.env, c.board, rec, o, x, own);
    }
  }

  lemma RaiseKeepsCoupled(b: Board, open: map<int, Record>, e: Event, x: nat, own: Chain)
    requires BoardOk(b, open) && e.EventRaised? && Coupled(b, x, own)
    ensures RaiseEvent(b, e).Some? && Coupled(RaiseEvent(b, e).value, x, own)
  {
    hide Leave;
    if e.name in b.waits.names {
      var q := b.waits.names[e.name];
      assert QueueOk(b.cells, b.waits, q, b.waits.queues[q]);
      assert b.waits.queues[q][0] in b.waits.queues[q];
    }
  }

  lemma HandleKeepsCoupled(c: Ctx, e: Event, x: nat, own: Chain)
    requires StaysCoupled(c, x, own)
    ensures StaysCoupled(Handle(c, e).ctx, x, own)
  {
    hide Inv, Acknowledge, EndTask, RaiseEvent, Owed, Coupled;
    HandleKeepsInv(c, e);
    HandleKeepsOwed(c, e, x, own);
    HandleKeepsOwed(c, e, own.cell, own);
    if Ending(e).Some? && !IsAcknowledgement(e) {
      EndTaskKeepsCoupled(c, Ending(e).value.0, Ending(e).value.1, x, own);
    } else if e.EventRaised? {
      assert BoardOk(c.board, c.ids.open) by { InvParts(c); }
      RaiseKeepsCoupled(c.board, c.ids.open, e, x, own);
    }
  }

  lemma {:induction false} DrainKeepsCoupled(c: Ctx, x: nat, own: Chain)
    requires StaysCoupled(c, x, own)
    ensures StaysCoupled(Drain(c).ctx, x, own)
    decreases |c.held|
  {
    hide Handle, Inv, Owed, Coupled;
    if c.held != [] {
      var d := c.(held := c.held[1..]);
      FewerHeld(c);
      HandleKeepsCoupled(d, c.held[0], x, own);
      HandleKeepsHeld(d, c.held[0]);
      if !Handle(d, c.held[0]).threw {
        DrainKeepsCoupled(Handle(d, c.held[0]).ctx, x, own);
      }
    }
  }

  lemma CallKeepsCoupled(c: Ctx, call: Call, x: nat, own: Chain)
    requires StaysCoupled(c, x, own)
    ensures StaysCoupled(Attempt(c, call), x, own)
  {
    hide Inv, Allot, Perform, Owed, Coupled;
    CallKeepsInv(c, call);
    CoupledAreThere(c.board, x, own);
    CallKeepsOwed(c, call, x, own);
    CallKeepsOwed(c, call, own.cell, own);
    if !c.isComplete { PerformKeepsCoupled(c.env, c.board, call, x, own); }
  }

  lemma CoupledAreThere(b: Board, x: nat, own: Chain)
    requires Coupled(b, x, own)
    ensures x < |b.cells| && own.cell < |b.cells|
  {
  }

  lemma PerformKeepsCoupled(env: Env, b: Board, call: Call, x: nat, own: Chain)
    requires Coupled(b, x, own)
    ensures Coupled(Perform(env, b, call).board, x, own)
  {
    hide FindBuffered, IsInfiniteTimeout, Park;
  }

  lemma ApplyKeepsCoupled(c: Ctx, i: Input, x: nat, own: Chain)
    requires StaysCoupled(c, x, own)
    ensures StaysCoupled(Apply(c, i), x, own)
  {
    hide Attempt, Handle, Drain, Inv, Owed, Coupled, Put;
    ApplyKeepsInv(c, i);
    CoupledAreThere(c.board, x, own);
    ApplyKeepsOwed(c, i, x, own);
    ApplyKeepsOwed(c, i, own.cell, own);
    match i {
      case Made(call) => CallKeepsCoupled(c, call, x, own);
      case Happened(e) =>
        HandleKeepsCoupled(c, e, x, own);
        Unsuspended(c);
        DrainKeepsCoupled(c.(suspended := false), x, own);
      case _ =>
    }
  }

  lemma {:induction false} RunKeepsCoupled(c: Ctx, inputs: seq<Input>, x: nat, own: Chain)
    requires StaysCoupled(c, x, own)
    ensures StaysCoupled(ApplyAll(c, inputs), x, own)
    decreases |inputs|
  {
    hide StaysCoupled, Apply;
    if inputs != [] {
      ApplyKeepsCoupled(c, inputs[0], x, own);
      RunKeepsCoupled(Apply(c, inputs[0]), inputs[1..], x, own);
    }
  }

  /** Whatever calls and events come after a wait was parked with a timeout: as long as its
      timer is not done, it is not cancelled; once the timer is done, the wait has ended, and
      it was cancelled exactly if no event was delivered to it. Only events of its name are. */
  lemma {:induction false} WaitEndsWithItsTimer(c: Ctx, name: string, timeout: Option<int>, inputs: seq<Input>)
    requires Inv(c) && !c.isComplete && Starts(c, WaitForEvent(name, timeout)).Some?
    ensures var x := |c.board.cells|;
            var cells := ApplyAll(Attempt(c, WaitForEvent(name, timeout)), inputs).board.cells;
            && x + 1 < |cells|
            && (cells[x + 1].future.Pending? ==> !cells[x].future.Cancelled?)
            && (!cells[x + 1].future.Pending? ==>
                  !cells[x].future.Pending? && (cells[x].future == Cancelled <==> !cells[x].future.Received?))
            && (cells[x].future.Received? ==> cells[x].future.event.EventRaised? && cells[x].future.event.name == name)
  {
    hide Inv, ApplyAll, Owed, FindBuffered, Park, Allot;
    var call := WaitForEvent(name, timeout);
    var own := Starts(c, call).value;
    var x := |c.board.cells|;
    CallKeepsInv(c, call);
    StartsOwed(c, call, x);
    StartsOwed(c, call, own.cell);
    assert Coupled(Attempt(c, call).board, x, own);
    RunKeepsCoupled(Attempt(c, call), inputs, x, own);
  }
}
