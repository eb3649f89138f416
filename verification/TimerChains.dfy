/** Durable timers longer than the maximum interval, those that guard a wait with a timeout
    among them: a chain of sub-timers that ends on time, one sub-timer at a time. */
module TimerChains {
  import opened WorkflowTypes
  import opened IdTable
  import opened ReplayContext
  import opened ContextInvariant
  import opened EventWaits

  ghost predicate HasSubTimer(open: map<int, Record>, id: int, cell: nat) {
    id in open && open[id].SubTimer? && open[id].chain.cell == cell
  }

  // ----- one sub-timer -----

  lemma OnlySubTimer(c: Ctx, id: int)
    requires Inv(c) && id in c.ids.open && c.ids.open[id].SubTimer?
    ensures RecordOk(c.board.cells, c.ids.open[id]) && Ordered(Forget(c.ids, id))
    ensures forall other :: !HasSubTimer(Forget(c.ids, id).open, other, c.ids.open[id].chain.cell)
  {
    var open := Forget(c.ids, id).open;
    forall other | other in open ensures !HasSubTimer(open, other, c.ids.open[id].chain.cell) {
      assert !SameChain(c.ids.open[other], c.ids.open[id]) || other == id;
    }
  }

  lemma OverdueEffect(env: Env, b: Board, chain: Chain, first: bool, o: Outcome)
    requires RecordOk(b.cells, SubTimer(chain, first)) && !o.Failure? && ChainIsOver(env.now, chain)
    ensures var e := EndSubTimer(env, b, chain, first, o);
            |e.board.cells| == |b.cells| && e.board.cells[chain.cell].future == Value("") && !e.spends && e.issued == None
  {
  }

  lemma OnwardEffect(env: Env, b: Board, chain: Chain, first: bool, o: Outcome)
    requires RecordOk(b.cells, SubTimer(chain, first)) && !o.Failure? && !ChainIsOver(env.now, chain)
    ensures var e := EndSubTimer(env, b, chain, first, o);
            && |e.board.cells| == |b.cells| && e.board.cells[chain.cell].future == Pending && !e.spends
            && e.issued == Some(SubTimerIssue(env, chain, chain.name + "-next", false))
  {
  }

  lemma IssuedIsFound(t: Table, i: Issuance)
    requires Ordered(t)
    ensures Lookup(IssueOne(t, i).pending, t.next) == Some(i.body)
  {
    IssueAppends(t, i);
    IndexOfKey(IssueOne(t, i).pending, |t.pending|);
  }

  /** The second an instant lies in has begun when the clock is not before its first
      nanosecond. */
  lemma {:induction false} SecondHasBegunExactlyWhen(now: int, instant: int)
    ensures Seconds(now) >= Seconds(instant) <==> now >= instant - instant % 1_000_000_000
  {
    var s := NANOS_PER_SECOND;
    assert now == s * Seconds(now) + now % s && instant == s * Seconds(instant) + instant % s;
    if Seconds(now) < Seconds(instant) {
      assert s * Seconds(now) + s <= s * Seconds(instant);
    } else {
      assert s * Seconds(now) >= s * Seconds(instant);
    }
  }

  /** A sub-timer that fires does exactly one of two things. If the clock has reached the
      chain's final second, the chain's future is completed and nothing of it is
      outstanding. Otherwise the future stays open and exactly one new sub-timer is
      outstanding, issued under the next id. */
  lemma {:induction false} SubTimerEndsOrContinues(c: Ctx, id: int, result: string)
    requires Inv(c) && id in c.ids.open && c.ids.open[id].SubTimer?
    ensures var chain := c.ids.open[id].chain;
            var d := EndTask(c, id, Value(result));
            chain.cell < |d.board.cells| &&
            if c.env.now >= chain.finalFireAt - chain.finalFireAt % 1_000_000_000 then
              && d.board.cells[chain.cell].future == Value("")
              && (forall other :: !HasSubTimer(d.ids.open, other, chain.cell))
            else
              && d.board.cells[chain.cell].future == Pending
              && (forall other :: HasSubTimer(d.ids.open, other, chain.cell) <==> other == c.ids.next)
              && d.ids.open[c.ids.next] == SubTimer(chain, false)
              && Lookup(d.ids.pending, c.ids.next)
                 == Some(CreateTimer(chain.name + "-next",
                                     SubTimerFireAt(c.env.now, chain.finalFireAt, c.env.maxInterval), chain.origin))
  {
    hide Inv, EndSubTimer, Ordered, RecordOk, Lookup, Put;
    var rec := c.ids.open[id];
    OnlySubTimer(c, id);
    SecondHasBegunExactlyWhen(c.env.now, rec.chain.finalFireAt);
    if ChainIsOver(c.env.now, rec.chain) {
      OverdueEffect(c.env, c.board, rec.chain, rec.first, Value(result));
    } else {
      OnwardEffect(c.env, c.board, rec.chain, rec.first, Value(result));
      IssuedIsFound(Forget(c.ids, id), SubTimerIssue(c.env, rec.chain, rec.chain.name + "-next", false));
      var open := Forget(c.ids, id).open[c.ids.next := SubTimer(rec.chain, false)];
      assert EndTask(c, id, Value(result)).ids.open == open;
      forall other | other != c.ids.next ensures !HasSubTimer(open, other, rec.chain.cell) {
        assert !HasSubTimer(Forget(c.ids, id).open, other, rec.chain.cell);
      }
    }
  }

  /** A failure that is reported for a timer's id ends that sub-timer and nothing else: the
      timer is not done, the wait it guards goes on, and only an await of the timer learns
      of it, if that was the first sub-timer. */
  lemma {:induction false} FailureEndsNoTimer(c: Ctx, id: int, details: string)
    requires Inv(c) && !c.suspended && id in c.ids.open && !c.ids.open[id].TaskRecord?
    ensures var rec := c.ids.open[id];
            var d := ProcessEvent(c, TaskFailed(id, details)).ctx;
            && d.ids == c.ids.(open := c.ids.open - {id}) && d.board.waits == c.board.waits
            && |d.board.cells| == |c.board.cells|
            && (forall x :: 0 <= x < |d.board.cells| ==>
                  d.board.cells[x] ==
                    if rec.SubTimer? && rec.first && rec.chain.cell == x && c.board.cells[x].visible.Pending?
                    then c.board.cells[x].(visible := Failure(details)) else c.board.cells[x])
    ensures ProcessEvent(c, ChildFailed(id, details)) == ProcessEvent(c, TaskFailed(id, details))
  {
    hide Ordered, WaitsOk, ExpireWait, ChainIsOver;
    assert RecordOk(c.board.cells, c.ids.open[id]);
  }

  // ----- which records concern a task -----

  /** The record at the id can time out cell x: a sub-timer of timer x, or a timer that
      guards wait x. */
  ghost predicate Concerns(open: map<int, Record>, id: int, x: nat) {
    id in open && Touches(open[id], x)
  }

  predicate Touches(rec: Record, x: nat) {
    match rec
    case TaskRecord(_) => false
    case SubTimer(chain, _) => chain.cell == x || (chain.guard.Some? && chain.guard.value.wait == x)
    case OptionalTimer(g) => g.wait == x
  }

  predicate IsPartOf(rec: Record, own: Chain) {
    rec.SubTimer? && rec.chain == own
  }

  /** Whatever can time out cell x is a sub-timer of the one chain `own`. */
  ghost predicate Owed(open: map<int, Record>, x: nat, own: Chain) {
    forall id :: Concerns(open, id, x) ==> IsPartOf(open[id], own)
  }

  /** What an effect may issue that can time out cell x by another chain. */
  ghost predicate IssuesOwed(issued: Option<Issuance>, x: nat, own: Chain) {
    issued.Some? && issued.value.Opened? && Touches(issued.value.rec, x) ==> IsPartOf(issued.value.rec, own)
  }

  lemma AllotKeepsOwed(t: Table, spends: bool, issued: Option<Issuance>, x: nat, own: Chain)
    requires Owed(t.open, x, own) && IssuesOwed(issued, x, own)
    ensures Owed(Allot(t, spends, issued).open, x, own)
  {
    hide Touches;
    var open := Allot(t, spends, issued).open;
    forall id | Concerns(open, id, x) ensures IsPartOf(open[id], own) {
      if id in t.open && t.open[id] == open[id] { assert Concerns(t.open, id, x); }
    }
  }

  lemma EndRecordIssuesOwed(env: Env, b: Board, rec: Record, o: Outcome, x: nat, own: Chain)
    requires Touches(rec, x) ==> IsPartOf(rec, own)
    ensures IssuesOwed(EndRecord(env, b, rec, o).issued, x, own)
  {
    hide ExpireWait;
  }

  lemma EndTaskKeepsOwed(c: Ctx, id: int, o: Outcome, x: nat, own: Chain)
    requires Owed(c.ids.open, x, own)
    ensures Owed(EndTask(c, id, o).ids.open, x, own) && EndTask(c, id, o).env == c.env
  {
    hide Allot, EndRecord, Touches;
    if id in c.ids.open {
      var rec := c.ids.open[id];
      assert Touches(rec, x) ==> Concerns(c.ids.open, id, x);
      EndRecordIssuesOwed(c.env, c.board, rec, o, x, own);
      var e := EndRecord(c.env, c.board, rec, o);
      assert forall other :: Concerns(Forget(c.ids, id).open, other, x) ==> Concerns(c.ids.open, other, x);
      AllotKeepsOwed(Forget(c.ids, id), e.spends, e.issued, x, own);
    }
  }

  lemma AcknowledgeKeepsOwed(t: Table, e: Event, x: nat, own: Chain)
    requires Owed(t.open, x, own) && IsAcknowledgement(e)
    ensures Owed(Acknowledge(t, e).table.open, x, own)
  {
    hide Lookup, RenumberOpen, RenumberAll, Touches;
    DownIsBijective(t.open, e.eventId);
    var r := RenumberOpen(t.open, e.eventId);
    forall k | Concerns(r, k, x) ensures IsPartOf(r[k], own) {
      var id := Up(e.eventId, k);
      assert Down(e.eventId, id) == k;
      assert Concerns(t.open, id, x);
    }
  }

  lemma OthersKeepRecords(c: Ctx, e: Event)
    requires !IsAcknowledgement(e) && Ending(e).None?
    ensures Handle(c, e).ctx.ids.open == c.ids.open && Handle(c, e).ctx.env.maxInterval == c.env.maxInterval
  {
    hide RaiseEvent, Put;
  }

  lemma HandleKeepsOwed(c: Ctx, e: Event, x: nat, own: Chain)
    requires Owed(c.ids.open, x, own)
    ensures Owed(Handle(c, e).ctx.ids.open, x, own)
    ensures Handle(c, e).ctx.env.maxInterval == c.env.maxInterval
  {
    hide Acknowledge, EndTask, RaiseEvent, Owed;
    if IsAcknowledgement(e) {
      AcknowledgeKeepsOwed(c.ids, e, x, own);
    } else if Ending(e).Some? {
      EndTaskKeepsOwed(c, Ending(e).value.0, Ending(e).value.1, x, own);
    } else {
      OthersKeepRecords(c, e);
    }
  }

  lemma {:induction false} DrainKeepsOwed(c: Ctx, x: nat, own: Chain)
    requires Owed(c.ids.open, x, own)
    ensures Owed(Drain(c).ctx.ids.open, x, own) && Drain(c).ctx.env.maxInterval == c.env.maxInterval
    decreases |c.held|
  {
    hide Handle, Owed;
    if c.held != [] {
      var d := c.(held := c.held[1..]);
      HandleKeepsOwed(d, c.held[0], x, own);
      HandleKeepsHeld(d, c.held[0]);
      if !Handle(d, c.held[0]).threw { DrainKeepsOwed(Handle(d, c.held[0]).ctx, x, own); }
    }
  }

  lemma PerformIssuesOwed(env: Env, b: Board, call: Call, x: nat, own: Chain)
    requires x < |b.cells|
    ensures IssuesOwed(Perform(env, b, call).issued, x, own)
  {
    hide FindBuffered, IsInfiniteTimeout, Park;
  }

  lemma CallKeepsOwed(c: Ctx, call: Call, x: nat, own: Chain)
    requires Owed(c.ids.open, x, own) && x < |c.board.cells|
    ensures Owed(Attempt(c, call).ids.open, x, own) && Attempt(c, call).env == c.env
  {
    hide Allot, Perform, Owed;
    if !c.isComplete {
      var e := Perform(c.env, c.board, call);
      PerformIssuesOwed(c.env, c.board, call, x, own);
      AllotKeepsOwed(c.ids, e.spends, e.issued, x, own);
    }
  }

  lemma ApplyKeepsOwed(c: Ctx, i: Input, x: nat, own: Chain)
    requires Owed(c.ids.open, x, own) && x < |c.board.cells|
    ensures Owed(Apply(c, i).ids.open, x, own) && x < |Apply(c, i).board.cells|
    ensures Apply(c, i).env.maxInterval == c.env.maxInterval
  {
    hide Attempt, Handle, Drain, Owed, Put;
    ApplyGrows(c, i);
    match i {
      case Made(call) => CallKeepsOwed(c, call, x, own);
      case Happened(e) =>
        HandleKeepsOwed(c, e, x, own);
        DrainKeepsOwed(c.(suspended := false), x, own);
      case _ =>
    }
  }

  lemma {:induction false} RunKeepsOwed(c: Ctx, inputs: seq<Input>, x: nat, own: Chain)
    requires Owed(c.ids.open, x, own) && x < |c.board.cells|
    ensures Owed(ApplyAll(c, inputs).ids.open, x, own) && x < |ApplyAll(c, inputs).board.cells|
    ensures ApplyAll(c, inputs).env.maxInterval == c.env.maxInterval
    decreases |inputs|
  {
    hide Apply, Owed;
    if inputs != [] {
      ApplyKeepsOwed(c, inputs[0], x, own);
      RunKeepsOwed(Apply(c, inputs[0]), inputs[1..], x, own);
    }
  }

  // ----- the calls that start a chain -----

  /** A timer, or a wait that parks with a timeout: the chain it starts. The cell of the wait
      comes first, that of its timer after it. */
  function Starts(c: Ctx, call: Call): Option<Chain> {
    match call
    case StartTimer(name, finalFireAt) => Some(Chain(|c.board.cells|, name, finalFireAt, UserTimer, None))
    case WaitForEvent(name, timeout) =>
      if IsInfiniteTimeout(timeout) || timeout.value == 0
         || FindBuffered(c.board.waits.unprocessed, name) < |c.board.waits.unprocessed| then None
      else
        var w := c.board.waits;
        var queue := if name in w.names then w.names[name] else |w.queues|;
        Some(Chain(|c.board.cells| + 1, name, c.env.now + timeout.value, ExternalEvent(name),
                   Some(Guard(name, |c.board.cells|, queue))))
    case _ => None
  }

  lemma NoneConcernsYet(c: Ctx, x: nat)
    requires Inv(c) && x >= |c.board.cells|
    ensures forall id :: !Concerns(c.ids.open, id, x)
  {
    forall id | id in c.ids.open ensures !Concerns(c.ids.open, id, x) {
      assert RecordOk(c.board.cells, c.ids.open[id]);
    }
  }

  /** Nothing but the new chain can time out its own cell or the wait that it guards. */
  lemma StartsOwed(c: Ctx, call: Call, x: nat)
    requires Inv(c) && !c.isComplete && Starts(c, call).Some? && |c.board.cells| <= x <= Starts(c, call).value.cell
    ensures var own := Starts(c, call).value;
            var d := Attempt(c, call);
            && Owed(d.ids.open, x, own) && x < |d.board.cells| && d.env == c.env
            && d.board.cells[x].future.Pending?
            && d.board.cells[x].kind.TimerCell? == (x == own.cell) && !d.board.cells[x].kind.TaskCell?
  {
    hide Inv, Allot, FindBuffered, Park;
    var e := Perform(c.env, c.board, call);
    NoneConcernsYet(c, x);
    AllotKeepsOwed(c.ids, e.spends, e.issued, x, Starts(c, call).value);
  }

  // ----- how long an await on a timer takes -----

  /** The await of a timer watches the end of the first sub-timer, not the timer's own
      future. After whatever calls and events since the timer was started, if the first
      sub-timer is still outstanding and now fires exactly on time, the await returns, and
      it returns before the timer is due exactly when the timer is longer than the maximum
      interval and ends in a later second than the first interval. */
  lemma {:induction false} AwaitReturnsEarlyExactlyWhen(c: Ctx, call: Call, inputs: seq<Input>, id: int)
    requires Inv(c) && !c.isComplete && Starts(c, call).Some?
    requires var own := Starts(c, call).value;
             var d := ApplyAll(Attempt(c, call), inputs);
             && HasSubTimer(d.ids.open, id, own.cell) && d.ids.open[id].first
             && d.env.now == SubTimerFireAt(c.env.now, own.finalFireAt, c.env.maxInterval)
    ensures var own := Starts(c, call).value;
            var (x, finalFireAt) := (own.cell, own.finalFireAt);
            var cells := EndTask(ApplyAll(Attempt(c, call), inputs), id, Value("")).board.cells;
            x < |cells| && !cells[x].visible.Pending?
            && (cells[x].future.Pending? <==>
                  finalFireAt - c.env.now > c.env.maxInterval
                  && Seconds(c.env.now + c.env.maxInterval) < Seconds(finalFireAt))
  {
    hide Inv, ApplyAll, Attempt, FindBuffered, EndTask;
    var own := Starts(c, call).value;
    var x := own.cell;
    StartsOwed(c, call, x);
    CallKeepsInv(c, call);
    InvAlways(Attempt(c, call), inputs);
    RunKeepsOwed(Attempt(c, call), inputs, x, own);
    var d := ApplyAll(Attempt(c, call), inputs);
    assert Concerns(d.ids.open, id, x);
    OnTime(d, id, c.env.now);
  }

  lemma OnTime(c: Ctx, id: int, started: int)
    requires Inv(c) && id in c.ids.open && c.ids.open[id].SubTimer? && c.ids.open[id].first
    requires c.env.now == SubTimerFireAt(started, c.ids.open[id].chain.finalFireAt, c.env.maxInterval)
    ensures var chain := c.ids.open[id].chain;
            var cells := EndTask(c, id, Value("")).board.cells;
            chain.cell < |cells| && !cells[chain.cell].visible.Pending?
            && (cells[chain.cell].future.Pending? <==>
                  chain.finalFireAt - started > c.env.maxInterval
                  && Seconds(started + c.env.maxInterval) < Seconds(chain.finalFireAt))
  {
    hide Inv, Ordered, Allot, ExpireWait;
    var rec := c.ids.open[id];
    OnlySubTimer(c, id);
    if rec.chain.guard.Some? && ChainIsOver(c.env.now, rec.chain) {
      var seen := c.board.(cells := SetVisible(c.board.cells, rec.chain.cell, Value("")));
      var done := seen.(cells := SetFuture(seen.cells, rec.chain.cell, Value("")));
      ExpiryKeepsOthers(done, rec.chain.guard.value, rec.chain.cell);
    }
  }

  /** Cancelling a wait touches no other cell. */
  lemma ExpiryKeepsOthers(b: Board, g: Guard, x: nat)
    requires x < |b.cells| && GuardOk(b.cells, g) && (g.wait != x || b.cells[x].kind.TimerCell?)
    ensures x < |ExpireWait(b, g).cells| && ExpireWait(b, g).cells[x] == b.cells[x]
  {
  }

  // ----- nothing is timed out before its time -----

  /** No turn among these events starts in the final second or later. */
  predicate Before(events: seq<Event>, finalFireAt: int) {
    forall i :: 0 <= i < |events| && events[i].WorkflowStarted? ==> Seconds(events[i].timestamp) < Seconds(finalFireAt)
  }

  predicate BeforeInputs(inputs: seq<Input>, finalFireAt: int) {
    forall i :: 0 <= i < |inputs| && inputs[i].Happened? ==> Before([inputs[i].event], finalFireAt)
  }

  /** A timer whose own future is open, or a wait that was not cancelled. */
  ghost predicate InTime(b: Board, x: nat) {
    && x < |b.cells| && !b.cells[x].kind.TaskCell?
    && (b.cells[x].kind.TimerCell? ==> b.cells[x].future.Pending?)
    && !b.cells[x].future.Cancelled?
  }

  ghost predicate NotYet(c: Ctx, x: nat, own: Chain) {
    && Inv(c) && InTime(c.board, x) && Owed(c.ids.open, x, own)
    && Seconds(c.env.now) < Seconds(own.finalFireAt) && Before(c.held, own.finalFireAt)
  }

  lemma EndRecordNotYet(env: Env, b: Board, rec: Record, o: Outcome, x: nat, own: Chain)
    requires InTime(b, x) && RecordOk(b.cells, rec) && Seconds(env.now) < Seconds(own.finalFireAt)
    requires Touches(rec, x) ==> IsPartOf(rec, own)
    ensures InTime(EndRecord(env, b, rec, o).board, x)
  {
    hide ExpireWait;
    match rec {
      case TaskRecord(_) =>
      case OptionalTimer(g) => ExpiryKeepsOthers(b, g, x);
      case SubTimer(chain, first) =>
        if !o.Failure? && ChainIsOver(env.now, chain) && chain.guard.Some? {
          var seen := if first then b.(cells := SetVisible(b.cells, chain.cell, Value(""))) else b;
          ExpiryKeepsOthers(seen.(cells := SetFuture(seen.cells, chain.cell, Value(""))), chain.guard.value, x);
        }
    }
  }

  lemma EndTaskNotYet(c: Ctx, id: int, o: Outcome, x: nat, own: Chain)
    requires NotYet(c, x, own)
    ensures InTime(EndTask(c, id, o).board, x)
  {
    hide Allot, EndRecord, RecordOk, InTime, Touches;
    if id in c.ids.open {
      var rec := c.ids.open[id];
      assert RecordOk(c.board.cells, rec);
      assert Touches(rec, x) ==> Concerns(c.ids.open, id, x);
      EndRecordNotYet(c.env, c.board, rec, o, x, own);
    }
  }

  lemma RaiseKeepsInTime(b: Board, open: map<int, Record>, e: Event, x: nat)
    requires BoardOk(b, open) && e.EventRaised? && InTime(b, x)
    ensures RaiseEvent(b, e).Some? && InTime(RaiseEvent(b, e).value, x)
  {
    hide Leave;
    if e.name in b.waits.names {
      var q := b.waits.names[e.name];
      assert QueueOk(b.cells, b.waits, q, b.waits.queues[q]);
      assert b.waits.queues[q][0] in b.waits.queues[q];
    }
  }

  lemma HandleNotYet(c: Ctx, e: Event, x: nat, own: Chain)
    requires NotYet(c, x, own) && Before([e], own.finalFireAt)
    ensures NotYet(Handle(c, e).ctx, x, own)
  {
    hide Inv, Acknowledge, EndTask, RaiseEvent, Owed, InTime;
    HandleKeepsInv(c, e);
    HandleKeepsHeld(c, e);
    HandleKeepsOwed(c, e, x, own);
    if IsAcknowledgement(e) {
    } else if Ending(e).Some? {
      EndTaskNotYet(c, Ending(e).value.0, Ending(e).value.1, x, own);
      EndTaskKeepsOwed(c, Ending(e).value.0, Ending(e).value.1, x, own);
    } else if e.EventRaised? {
      assert BoardOk(c.board, c.ids.open) by { InvParts(c); }
      RaiseKeepsInTime(c.board, c.ids.open, e, x);
    } else {
      assert [e][0] == e;
    }
  }

  lemma {:induction false} DrainNotYet(c: Ctx, x: nat, own: Chain)
    requires NotYet(c, x, own)
    ensures NotYet(Drain(c).ctx, x, own)
    decreases |c.held|
  {
    hide Handle, Inv, Owed, InTime;
    if c.held != [] {
      var d := c.(held := c.held[1..]);
      FewerHeld(c);
      assert Before([c.held[0]], own.finalFireAt) && Before(d.held, own.finalFireAt);
      HandleNotYet(d, c.held[0], x, own);
      HandleKeepsHeld(d, c.held[0]);
      if !Handle(d, c.held[0]).threw {
        DrainNotYet(Handle(d, c.held[0]).ctx, x, own);
      }
    }
  }

  lemma ProcessNotYet(c: Ctx, e: Event, x: nat, own: Chain)
    requires NotYet(c, x, own) && Before([e], own.finalFireAt)
    ensures NotYet(ProcessEvent(c, e).ctx, x, own)
  {
    hide Handle, Drain, Inv, Owed, InTime;
    ProcessKeepsInv(c, e);
    if c.suspended && !e.ExecutionResumed? && !e.ExecutionTerminated? {
      assert forall i :: 0 <= i < |c.held + [e]| ==> (c.held + [e])[i] == if i < |c.held| then c.held[i] else [e][0];
    } else if e.ExecutionResumed? {
      var d := c.(suspended := false);
      assert Inv(d) by { Unsuspended(c); }
      DrainNotYet(d, x, own);
    } else {
      HandleNotYet(c, e, x, own);
    }
  }

  lemma CallNotYet(c: Ctx, call: Call, x: nat, own: Chain)
    requires NotYet(c, x, own)
    ensures NotYet(Attempt(c, call), x, own)
  {
    hide Inv, Allot, Perform, Owed, InTime;
    CallKeepsInv(c, call);
    CallKeepsOwed(c, call, x, own) by { assert InTime(c.board, x); InTimeIsThere(c.board, x); }
    if !c.isComplete {
      PerformKeepsInTime(c.env, c.board, call, x);
    }
  }

  lemma InTimeIsThere(b: Board, x: nat)
    requires InTime(b, x)
    ensures x < |b.cells|
  {
  }

  lemma PerformKeepsInTime(env: Env, b: Board, call: Call, x: nat)
    requires InTime(b, x)
    ensures InTime(Perform(env, b, call).board, x)
  {
    hide FindBuffered, IsInfiniteTimeout, Park;
  }

  lemma ApplyNotYet(c: Ctx, i: Input, x: nat, own: Chain)
    requires NotYet(c, x, own) && (i.Happened? ==> Before([i.event], own.finalFireAt))
    ensures NotYet(Apply(c, i), x, own)
  {
    hide Attempt, ProcessEvent, Inv, InTime;
    ApplyKeepsInv(c, i);
    match i {
      case Made(call) => CallNotYet(c, call, x, own);
      case Happened(e) => ProcessNotYet(c, e, x, own);
      case _ =>
    }
  }

  lemma {:induction false} RunNotYet(c: Ctx, inputs: seq<Input>, x: nat, own: Chain)
    requires NotYet(c, x, own) && BeforeInputs(inputs, own.finalFireAt)
    ensures NotYet(ApplyAll(c, inputs), x, own)
    decreases |inputs|
  {
    hide NotYet, Apply;
    if inputs != [] {
      ApplyNotYet(c, inputs[0], x, own);
      RunNotYet(Apply(c, inputs[0]), inputs[1..], x, own);
    }
  }

  /** A timer, or the timer that guards a wait with a timeout, started before its final
      second is not done, and the wait is not cancelled, as long as no turn has started in
      that second or later: whatever calls and events come, in whatever order, held ones and
      duplicate or misdirected completions included. */
  lemma {:induction false} TimerNeverFiresEarly(c: Ctx, call: Call, inputs: seq<Input>)
    requires Inv(c) && !c.isComplete && Starts(c, call).Some?
    requires var finalFireAt := Starts(c, call).value.finalFireAt;
             && Seconds(c.env.now) < Seconds(finalFireAt) && Before(c.held, finalFireAt)
             && BeforeInputs(inputs, finalFireAt)
    ensures var x := Starts(c, call).value.cell;
            var cells := ApplyAll(Attempt(c, call), inputs).board.cells;
            && x < |cells| && cells[x].future.Pending?
            && (call.WaitForEvent? ==> cells[|c.board.cells|].kind.EventCell? && !cells[|c.board.cells|].future.Cancelled?)
  {
    hide Inv, ApplyAll, Attempt, Owed;
    var own := Starts(c, call).value;
    var x := own.cell;
    var d := Attempt(c, call);
    CallKeepsInv(c, call);
    AttemptKeepsHeld(c, call);
    StartsOwed(c, call, |c.board.cells|);
    StartsOwed(c, call, x);
    RunNotYet(d, inputs, |c.board.cells|, own);
    RunNotYet(d, inputs, x, own);
    RunGrows(d, inputs);
  }
}
