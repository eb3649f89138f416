/** How many sub-timers a durable timer takes, over any run of calls and events. */
module TimerRuns {
  import opened WorkflowTypes
  import opened IdTable
  import opened ReplayContext
  import opened ContextInvariant
  import opened EventWaits
  import opened TimerChains

  // ----- counting the firings -----

  /** How many sub-timers of a timer have fired so far, and the instant that the latest one
      was created for. */
  datatype Tally = Tally(fired: nat, due: int)

  /** The event ends, without failure, an outstanding sub-timer of timer cell x. */
  ghost predicate Fires(c: Ctx, e: Event, x: nat) {
    Ending(e).Some? && HasSubTimer(c.ids.open, Ending(e).value.0, x) && !Ending(e).value.1.Failure?
  }

  ghost function Count(c: Ctx, e: Event, x: nat, finalFireAt: int, t: Tally): Tally {
    if Fires(c, e, x) then Tally(t.fired + 1, SubTimerFireAt(c.env.now, finalFireAt, c.env.maxInterval)) else t
  }

  ghost function CountHeld(c: Ctx, x: nat, finalFireAt: int, t: Tally): Tally
    decreases |c.held|
  {
    if c.held == [] then t
    else
      var d := c.(held := c.held[1..]);
      var u := Count(d, c.held[0], x, finalFireAt, t);
      HandleKeepsHeld(d, c.held[0]);
      if Handle(d, c.held[0]).threw then u else CountHeld(Handle(d, c.held[0]).ctx, x, finalFireAt, u)
  }

  ghost function CountInput(c: Ctx, i: Input, x: nat, finalFireAt: int, t: Tally): Tally {
    if !i.Happened? || (c.suspended && !i.event.ExecutionResumed? && !i.event.ExecutionTerminated?) then t
    else if i.event.ExecutionResumed? then CountHeld(c.(suspended := false), x, finalFireAt, t)
    else Count(c, i.event, x, finalFireAt, t)
  }

  ghost function CountAll(c: Ctx, inputs: seq<Input>, x: nat, finalFireAt: int, t: Tally): Tally
    decreases |inputs|
  {
    if inputs == [] then t
    else CountAll(Apply(c, inputs[0]), inputs[1..], x, finalFireAt, CountInput(c, inputs[0], x, finalFireAt, t))
  }

  // ----- no sub-timer fires before the instant it was created for -----

  ghost predicate Punctual(c: Ctx, e: Event, x: nat, t: Tally) {
    Fires(c, e, x) ==> c.env.now >= t.due
  }

  ghost predicate PunctualHeld(c: Ctx, x: nat, finalFireAt: int, t: Tally)
    decreases |c.held|
  {
    c.held != [] ==>
      var d := c.(held := c.held[1..]);
      HandleKeepsHeld(d, c.held[0]);
      Punctual(d, c.held[0], x, t)
      && (!Handle(d, c.held[0]).threw ==>
            PunctualHeld(Handle(d, c.held[0]).ctx, x, finalFireAt, Count(d, c.held[0], x, finalFireAt, t)))
  }

  ghost predicate PunctualInput(c: Ctx, i: Input, x: nat, finalFireAt: int, t: Tally) {
    if !i.Happened? || (c.suspended && !i.event.ExecutionResumed? && !i.event.ExecutionTerminated?) then true
    else if i.event.ExecutionResumed? then PunctualHeld(c.(suspended := false), x, finalFireAt, t)
    else Punctual(c, i.event, x, t)
  }

  ghost predicate PunctualAll(c: Ctx, inputs: seq<Input>, x: nat, finalFireAt: int, t: Tally)
    decreases |inputs|
  {
    inputs != [] ==>
      PunctualInput(c, inputs[0], x, finalFireAt, t)
      && PunctualAll(Apply(c, inputs[0]), inputs[1..], x, finalFireAt, CountInput(c, inputs[0], x, finalFireAt, t))
  }

  // ----- what holds all along -----

  ghost predicate Outstanding(open: map<int, Record>, x: nat) {
    exists id :: HasSubTimer(open, id, x)
  }

  ghost predicate Within(n: int, length: int, maxInterval: int) {
    n <= 0 || n * maxInterval < length
  }

  ghost predicate OnSchedule(c: Ctx, x: nat, started: int, own: Chain, maxInterval: int, t: Tally) {
    && Inv(c) && x < |c.board.cells| && c.env.maxInterval == maxInterval > 0
    && Owed(c.ids.open, x, own)
    && Within(t.fired - 1, own.finalFireAt - started, maxInterval)
    && (Outstanding(c.ids.open, x) ==>
          Within(t.fired, own.finalFireAt - started, maxInterval)
          && (t.due == own.finalFireAt || t.due >= started + (t.fired + 1) * maxInterval))
  }

  /** A change that starts no sub-timer for x. */
  ghost predicate StartsNone(open: map<int, Record>, open': map<int, Record>, x: nat) {
    forall id :: HasSubTimer(open', id, x) ==>
      exists other :: HasSubTimer(open, other, x) && open[other].chain == open'[id].chain
  }

  lemma StaysOnSchedule(c: Ctx, d: Ctx, x: nat, started: int, own: Chain, maxInterval: int, t: Tally)
    requires OnSchedule(c, x, started, own, maxInterval, t) && StartsNone(c.ids.open, d.ids.open, x)
    requires Inv(d) && |c.board.cells| <= |d.board.cells| && d.env.maxInterval == c.env.maxInterval
    requires Owed(d.ids.open, x, own)
    ensures OnSchedule(d, x, started, own, maxInterval, t)
  {
    hide Inv, Within, Owed;
  }

  ghost predicate IssuesNone(issued: Option<Issuance>, x: nat) {
    issued.Some? && issued.value.Opened? && issued.value.rec.SubTimer? ==> issued.value.rec.chain.cell != x
  }

  lemma AllotStartsNone(t: Table, spends: bool, issued: Option<Issuance>, x: nat)
    requires IssuesNone(issued, x)
    ensures StartsNone(t.open, Allot(t, spends, issued).open, x)
  {
    var open := Allot(t, spends, issued).open;
    forall id | HasSubTimer(open, id, x)
      ensures exists other :: HasSubTimer(t.open, other, x) && t.open[other].chain == open[id].chain
    {
      assert HasSubTimer(t.open, id, x) && t.open[id].chain == open[id].chain;
    }
  }

  lemma AckStartsNone(t: Table, e: Event, x: nat)
    requires IsAcknowledgement(e)
    ensures StartsNone(t.open, Acknowledge(t, e).table.open, x)
  {
    hide Lookup, RenumberOpen, RenumberAll;
    DownIsBijective(t.open, e.eventId);
    var open := Acknowledge(t, e).table.open;
    forall id | HasSubTimer(open, id, x)
      ensures exists other :: HasSubTimer(t.open, other, x) && t.open[other].chain == open[id].chain
    {
      var other := if open == t.open then id else Up(e.eventId, id);
      assert HasSubTimer(t.open, other, x) && t.open[other].chain == open[id].chain;
    }
  }

  lemma OtherEndingStartsNone(c: Ctx, id: int, o: Outcome, x: nat)
    requires HasSubTimer(c.ids.open, id, x) ==> o.Failure?
    ensures StartsNone(c.ids.open, EndTask(c, id, o).ids.open, x)
  {
    hide Allot, ExpireWait, StartsNone;
    SameStartsNone(c.ids.open, x);
    if id in c.ids.open {
      var e := EndRecord(c.env, c.board, c.ids.open[id], o);
      AllotStartsNone(Forget(c.ids, id), e.spends, e.issued, x);
      ForgettingStartsNone(c.ids, id, Allot(Forget(c.ids, id), e.spends, e.issued).open, x);
    }
  }

  lemma SameStartsNone(open: map<int, Record>, x: nat)
    ensures StartsNone(open, open, x)
  {
  }

  lemma ForgettingStartsNone(t: Table, id: int, open: map<int, Record>, x: nat)
    requires StartsNone(Forget(t, id).open, open, x)
    ensures StartsNone(t.open, open, x)
  {
    forall k | HasSubTimer(open, k, x)
      ensures exists other :: HasSubTimer(t.open, other, x) && t.open[other].chain == open[k].chain
    {
      var other :| HasSubTimer(Forget(t, id).open, other, x) && Forget(t, id).open[other].chain == open[k].chain;
      assert HasSubTimer(t.open, other, x);
    }
  }

  // ----- one event -----

  /** A punctual firing that ends the chain or continues it. */
  lemma FiringStaysOnSchedule(c: Ctx, id: int, result: string, x: nat, started: int, own: Chain, maxInterval: int,
                              t: Tally)
    requires OnSchedule(c, x, started, own, maxInterval, t) && HasSubTimer(c.ids.open, id, x) && c.env.now >= t.due
    requires Inv(EndTask(c, id, Value(result))) && EndTask(c, id, Value(result)).env == c.env
    ensures OnSchedule(EndTask(c, id, Value(result)), x, started, own, maxInterval,
                       Tally(t.fired + 1, SubTimerFireAt(c.env.now, own.finalFireAt, maxInterval)))
  {
    hide Inv, EndTask, Lookup;
    assert Concerns(c.ids.open, id, x);
    assert c.ids.open[id].chain.finalFireAt == own.finalFireAt;
    assert Outstanding(c.ids.open, x);
    EndTaskKeepsOwed(c, id, Value(result), x, own);
    SubTimerEndsOrContinues(c, id, result);
    SecondHasBegunExactlyWhen(c.env.now, own.finalFireAt);
    var d := EndTask(c, id, Value(result));
    if Seconds(c.env.now) < Seconds(own.finalFireAt) {
      OnwardArithmetic(c.env.now, started, own.finalFireAt, maxInterval, t);
    }
  }

  lemma OnwardArithmetic(now: int, started: int, finalFireAt: int, maxInterval: int, t: Tally)
    requires maxInterval > 0 && now < finalFireAt && now >= t.due
    requires t.due == finalFireAt || t.due >= started + (t.fired + 1) * maxInterval
    ensures Within(t.fired + 1, finalFireAt - started, maxInterval)
    ensures var due := SubTimerFireAt(now, finalFireAt, maxInterval);
            due == finalFireAt || due >= started + (t.fired + 1 + 1) * maxInterval
  {
    assert (t.fired + 1 + 1) * maxInterval == (t.fired + 1) * maxInterval + maxInterval;
  }

  lemma HandleOnSchedule(c: Ctx, e: Event, x: nat, started: int, own: Chain, maxInterval: int, t: Tally)
    requires OnSchedule(c, x, started, own, maxInterval, t) && Punctual(c, e, x, t)
    ensures OnSchedule(Handle(c, e).ctx, x, started, own, maxInterval, Count(c, e, x, own.finalFireAt, t))
  {
    hide Inv, Acknowledge, EndTask, RaiseEvent, Owed, Outstanding, Within, StartsNone, HasSubTimer;
    HandleKeepsInv(c, e);
    HandleGrows(c, e);
    HandleKeepsOwed(c, e, x, own);
    SameStartsNone(c.ids.open, x);
    if IsAcknowledgement(e) {
      AckStartsNone(c.ids, e, x);
      StaysOnSchedule(c, Handle(c, e).ctx, x, started, own, maxInterval, t);
    } else if Ending(e).Some? {
      var (id, o) := Ending(e).value;
      EndTaskKeepsOwed(c, id, o, x, own);
      if Fires(c, e, x) {
        FiringStaysOnSchedule(c, id, o.v, x, started, own, maxInterval, t);
      } else {
        OtherEndingStartsNone(c, id, o, x);
        StaysOnSchedule(c, Handle(c, e).ctx, x, started, own, maxInterval, t);
      }
    } else {
      OthersKeepRecords(c, e);
      StaysOnSchedule(c, Handle(c, e).ctx, x, started, own, maxInterval, t);
    }
  }

  lemma {:induction false} DrainOnSchedule(c: Ctx, x: nat, started: int, own: Chain, maxInterval: int, t: Tally)
    requires OnSchedule(c, x, started, own, maxInterval, t) && PunctualHeld(c, x, own.finalFireAt, t)
    ensures OnSchedule(Drain(c).ctx, x, started, own, maxInterval, CountHeld(c, x, own.finalFireAt, t))
    decreases |c.held|
  {
    hide Handle, Inv, Owed, Outstanding, Within, Punctual, Count;
    if c.held != [] {
      var d := c.(held := c.held[1..]);
      var e := c.held[0];
      FewerHeld(c);
      HandleOnSchedule(d, e, x, started, own, maxInterval, t);
      HandleKeepsHeld(d, e);
      if !Handle(d, e).threw {
        DrainOnSchedule(Handle(d, e).ctx, x, started, own, maxInterval, Count(d, e, x, own.finalFireAt, t));
      }
    }
  }

  lemma CallOnSchedule(c: Ctx, call: Call, x: nat, started: int, own: Chain, maxInterval: int, t: Tally)
    requires OnSchedule(c, x, started, own, maxInterval, t)
    ensures OnSchedule(Attempt(c, call), x, started, own, maxInterval, t)
  {
    hide Inv, Allot, Perform, Owed, Outstanding, Within, StartsNone;
    CallKeepsInv(c, call);
    CallKeepsOwed(c, call, x, own);
    if !c.isComplete {
      var e := Perform(c.env, c.board, call);
      PerformGrows(c.env, c.board, call);
      PerformIssuesNone(c.env, c.board, call, x);
      AllotStartsNone(c.ids, e.spends, e.issued, x);
      StaysOnSchedule(c, Attempt(c, call), x, started, own, maxInterval, t);
    }
  }

  lemma PerformIssuesNone(env: Env, b: Board, call: Call, x: nat)
    requires x < |b.cells|
    ensures IssuesNone(Perform(env, b, call).issued, x)
  {
    hide FindBuffered, IsInfiniteTimeout, Park;
  }

  lemma ApplyOnSchedule(c: Ctx, i: Input, x: nat, started: int, own: Chain, maxInterval: int, t: Tally)
    requires OnSchedule(c, x, started, own, maxInterval, t) && PunctualInput(c, i, x, own.finalFireAt, t)
    ensures OnSchedule(Apply(c, i), x, started, own, maxInterval, CountInput(c, i, x, own.finalFireAt, t))
  {
    hide Attempt, Handle, Drain, Inv, Owed, Outstanding, Within, Punctual, Count, CountHeld, PunctualHeld;
    ApplyKeepsInv(c, i);
    match i {
      case Made(call) => CallOnSchedule(c, call, x, started, own, maxInterval, t);
      case Happened(e) =>
        if c.suspended && !e.ExecutionResumed? && !e.ExecutionTerminated? {
        } else if e.ExecutionResumed? {
          Unsuspended(c);
          DrainOnSchedule(c.(suspended := false), x, started, own, maxInterval, t);
        } else {
          HandleOnSchedule(c, e, x, started, own, maxInterval, t);
        }
      case _ =>
    }
  }

  lemma {:induction false} RunOnSchedule(c: Ctx, inputs: seq<Input>, x: nat, started: int, own: Chain,
                                         maxInterval: int, t: Tally)
    requires OnSchedule(c, x, started, own, maxInterval, t) && PunctualAll(c, inputs, x, own.finalFireAt, t)
    ensures OnSchedule(ApplyAll(c, inputs), x, started, own, maxInterval, CountAll(c, inputs, x, own.finalFireAt, t))
    decreases |inputs|
  {
    hide OnSchedule, Apply, PunctualInput, CountInput;
    if inputs != [] {
      ApplyOnSchedule(c, inputs[0], x, started, own, maxInterval, t);
      RunOnSchedule(Apply(c, inputs[0]), inputs[1..], x, started, own, maxInterval,
                    CountInput(c, inputs[0], x, own.finalFireAt, t));
    }
  }

  /** Whatever calls and events come after a timer was started, or a wait with a timeout
      was parked, as long as no sub-timer of it fires before the instant it was created for:
      the timer takes one sub-timer, or at most its length over the maximum interval, rounded
      up. The one outstanding at the end is counted. */
  lemma {:induction false} ChainIsBounded(c: Ctx, call: Call, inputs: seq<Input>)
    requires Inv(c) && !c.isComplete && c.env.maxInterval > 0 && Starts(c, call).Some?
    requires var own := Starts(c, call).value;
             var x := own.cell;
             PunctualAll(Attempt(c, call), inputs, x, own.finalFireAt,
                         Tally(0, SubTimerFireAt(c.env.now, own.finalFireAt, c.env.maxInterval)))
    ensures var own := Starts(c, call).value;
            var x := own.cell;
            var d := Attempt(c, call);
            var t := Tally(0, SubTimerFireAt(c.env.now, own.finalFireAt, c.env.maxInterval));
            var taken := CountAll(d, inputs, x, own.finalFireAt, t).fired
                         + (if Outstanding(ApplyAll(d, inputs).ids.open, x) then 1 else 0);
            taken <= 1 || (taken - 1) * c.env.maxInterval < own.finalFireAt - c.env.now
  {
    hide Inv, ApplyAll, CountAll, PunctualAll, Outstanding, Owed, Attempt, FindBuffered;
    var own := Starts(c, call).value;
    var x := own.cell;
    var d := Attempt(c, call);
    var t := Tally(0, SubTimerFireAt(c.env.now, own.finalFireAt, c.env.maxInterval));
    CallKeepsInv(c, call);
    StartsOwed(c, call, x);
    assert OnSchedule(d, x, c.env.now, own, c.env.maxInterval, t);
    RunOnSchedule(d, inputs, x, c.env.now, own, c.env.maxInterval, t);
  }
}
