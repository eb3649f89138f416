/** Suspension only delays events: a list of events that ends unsuspended leaves the same
    state as the list without its suspend and resume events. */
module SuspendResume {
  import opened WorkflowTypes
  import opened IdTable
  import opened ReplayContext
  import opened ContextInvariant

  function Erase(events: seq<Event>): seq<Event> {
    if events == [] then []
    else if events[0].ExecutionSuspended? || events[0].ExecutionResumed? then Erase(events[1..])
    else [events[0]] + Erase(events[1..])
  }

  /** Whether the execution is suspended after the events. */
  predicate Suspends(suspended: bool, events: seq<Event>)
    decreases |events|
  {
    if events == [] then suspended
    else Suspends(if events[0].ExecutionSuspended? then true else if events[0].ExecutionResumed? then false else suspended,
                  events[1..])
  }

  /** A termination takes effect during suspension, so it must not come then. */
  predicate NoTerminationInside(suspended: bool, events: seq<Event>)
    decreases |events|
  {
    events != [] ==>
      && !(suspended && events[0].ExecutionTerminated?)
      && NoTerminationInside(
           if events[0].ExecutionSuspended? then true else if events[0].ExecutionResumed? then false else suspended,
           events[1..])
  }

  /** No handler throws. */
  predicate Clean(c: Ctx, events: seq<Event>)
    decreases |events|
  {
    events != [] ==> !Handle(c, events[0]).threw && Clean(Handle(c, events[0]).ctx, events[1..])
  }

  function HandleAll(c: Ctx, events: seq<Event>): Ctx
    decreases |events|
  {
    if events == [] then c else HandleAll(Handle(c, events[0]).ctx, events[1..])
  }

  lemma EndTaskIgnoresHeld(c: Ctx, held: seq<Event>, id: int, o: Outcome)
    ensures EndTask(c.(held := held), id, o) == EndTask(c, id, o).(held := held)
  {
    hide EndRecord, Allot;
  }

  lemma HandleIgnoresHeld(c: Ctx, held: seq<Event>, e: Event)
    ensures Handle(c.(held := held), e)
         == Handled(Handle(c, e).ctx.(held := held), Handle(c, e).threw)
  {
    hide EndTask, Acknowledge, RaiseEvent, IssueQuietly, IsAcknowledgement;
    if Ending(e).Some? {
      EndTaskIgnoresHeld(c, held, Ending(e).value.0, Ending(e).value.1);
    }
  }

  /** How many of the held events a resume takes: all of them, or up to and including the
      first whose handler throws. */
  function Taken(c: Ctx, held: seq<Event>): (r: nat)
    ensures r <= |held|
    decreases |held|
  {
    if held == [] then 0
    else if Handle(c, held[0]).threw then 1
    else 1 + Taken(Handle(c, held[0]).ctx, held[1..])
  }

  /** No handler throws, except perhaps the last one. */
  predicate NearlyClean(c: Ctx, events: seq<Event>) {
    events == [] || Clean(c, events[..|events| - 1])
  }

  lemma {:induction false} TakenExactlyWhen(c: Ctx, held: seq<Event>)
    ensures Taken(c, held) == |held| <==> NearlyClean(c, held)
    decreases |held|
  {
    hide Handle;
    if |held| > 1 {
      TakenExactlyWhen(Handle(c, held[0]).ctx, held[1..]);
      assert held[..|held| - 1][1..] == held[1..][..|held[1..]| - 1];
    }
  }

  /** A resume handles the held events in order, up to the first error, and leaves the
      rest held. */
  lemma {:induction false} DrainTakes(c: Ctx, held: seq<Event>)
    requires c.held == []
    ensures var k := Taken(c, held);
            Drain(c.(held := held)).ctx == HandleAll(c, held[..k]).(held := held[k..])
    decreases |held|
  {
    hide Handle;
    if held == [] {
      assert c.(held := held) == c;
    } else {
      var d := c.(held := held[1..]);
      assert c.(held := held).(held := held[1..]) == d;
      HandleIgnoresHeld(c, held[1..], held[0]);
      HandleKeepsHeld(c, held[0]);
      var next := Handle(c, held[0]).ctx;
      if Handle(c, held[0]).threw {
        assert held[..1][1..] == [];
        assert HandleAll(next, []) == next;
      } else {
        DrainTakes(next, held[1..]);
        var k := Taken(next, held[1..]);
        assert held[..k + 1][1..] == held[1..][..k];
        assert held[k + 1..] == held[1..][k..];
      }
    }
  }

  lemma {:induction false} HandleAllSplits(c: Ctx, a: seq<Event>, b: seq<Event>)
    ensures HandleAll(c, a + b) == HandleAll(HandleAll(c, a), b)
    decreases |a|
  {
    hide Handle;
    if a == [] {
      assert a + b == b;
    } else {
      assert (a + b)[1..] == a[1..] + b;
      HandleAllSplits(Handle(c, a[0]).ctx, a[1..], b);
    }
  }

  predicate Calm(e: Event) { !e.ExecutionSuspended? && !e.ExecutionResumed? }

  lemma {:induction false} HandleAllKeepsCalm(c: Ctx, events: seq<Event>)
    requires forall i :: 0 <= i < |events| ==> Calm(events[i])
    ensures HandleAll(c, events).suspended == c.suspended && HandleAll(c, events).held == c.held
    decreases |events|
  {
    hide Handle;
    if events != [] {
      HandleKeepsSuspended(c, events[0]);
      HandleKeepsHeld(c, events[0]);
      HandleAllKeepsCalm(Handle(c, events[0]).ctx, events[1..]);
    }
  }

  /** What is held after the events, and what has been handled by then. */
  function HeldAfter(suspended: bool, held: seq<Event>, events: seq<Event>): seq<Event>
    decreases |events|
  {
    if events == [] then held
    else if events[0].ExecutionResumed? then HeldAfter(false, [], events[1..])
    else if events[0].ExecutionSuspended? then HeldAfter(true, held, events[1..])
    else HeldAfter(suspended, if suspended then held + [events[0]] else held, events[1..])
  }

  function HandledAfter(suspended: bool, held: seq<Event>, events: seq<Event>): seq<Event>
    decreases |events|
  {
    if events == [] then []
    else if events[0].ExecutionResumed? then held + HandledAfter(false, [], events[1..])
    else if events[0].ExecutionSuspended? then HandledAfter(true, held, events[1..])
    else if suspended then HandledAfter(true, held + [events[0]], events[1..])
    else [events[0]] + HandledAfter(false, held, events[1..])
  }

  /** What was handled and what is held are together, in order, the events so far without
      the suspensions. */
  lemma {:induction false} HandledThenHeld(suspended: bool, held: seq<Event>, events: seq<Event>)
    requires !suspended ==> held == []
    ensures HandledAfter(suspended, held, events) + HeldAfter(suspended, held, events) == held + Erase(events)
    ensures !Suspends(suspended, events) ==> HeldAfter(suspended, held, events) == []
    decreases |events|
  {
    if events != [] {
      var e, rest := events[0], events[1..];
      if e.ExecutionResumed? {
        HandledThenHeld(false, [], rest);
        assert held + HandledAfter(false, [], rest) + HeldAfter(false, [], rest)
            == held + (HandledAfter(false, [], rest) + HeldAfter(false, [], rest));
        assert [] + Erase(rest) == Erase(rest);
      } else if e.ExecutionSuspended? {
        HandledThenHeld(true, held, rest);
      } else if suspended {
        HandledThenHeld(true, held + [e], rest);
        assert held + [e] + Erase(rest) == held + ([e] + Erase(rest));
      } else {
        HandledThenHeld(false, held, rest);
        assert held + Erase(events) == [e] + (held + Erase(rest));
        assert [e] + HandledAfter(false, held, rest) + HeldAfter(false, held, rest)
            == [e] + (HandledAfter(false, held, rest) + HeldAfter(false, held, rest));
      }
    }
  }

  /** At each resume, no held event but the last makes its handler throw. Events outside
      suspensions may. */
  predicate DrainsFully(c: Ctx, suspended: bool, held: seq<Event>, events: seq<Event>)
    decreases |events|
  {
    if events == [] then true
    else if events[0].ExecutionResumed? then
      NearlyClean(c, held) && DrainsFully(HandleAll(c, held), false, [], events[1..])
    else if events[0].ExecutionSuspended? then DrainsFully(c, true, held, events[1..])
    else if suspended then DrainsFully(c, true, held + [events[0]], events[1..])
    else DrainsFully(Handle(c, events[0]).ctx, false, held, events[1..])
  }

  /** After every list of events, whether or not it ends suspended: the state is that of
      the handled events, and the rest is held. */
  lemma {:induction false} AtEveryPoint(c: Ctx, suspended: bool, held: seq<Event>, events: seq<Event>)
    requires !c.suspended && c.held == [] && (!suspended ==> held == [])
    requires forall i :: 0 <= i < |held| ==> Calm(held[i])
    requires NoTerminationInside(suspended, events) && DrainsFully(c, suspended, held, events)
    ensures ProcessAll(c.(suspended := suspended, held := held), events)
         == HandleAll(c, HandledAfter(suspended, held, events))
            .(suspended := Suspends(suspended, events), held := HeldAfter(suspended, held, events))
    decreases |events|
  {
    hide Handle, NearlyClean;
    var s := c.(suspended := suspended, held := held);
    if events != [] {
      var e, rest := events[0], events[1..];
      if e.ExecutionResumed? {
        TakenExactlyWhen(c, held);
        DrainTakes(c, held);
        assert held[..|held|] == held && held[|held|..] == [];
        var d := HandleAll(c, held);
        HandleAllKeepsCalm(c, held);
        assert s.(suspended := false) == c.(held := held);
        assert d.(suspended := false, held := []) == d;
        HandleAllSplits(c, held, HandledAfter(false, [], rest));
        AtEveryPoint(d, false, [], rest);
      } else if e.ExecutionSuspended? {
        if !suspended { SuspendOnly(c, e); }
        assert ProcessEvent(s, e).ctx == c.(suspended := true, held := held);
        AtEveryPoint(c, true, held, rest);
      } else if suspended {
        assert s.(held := s.held + [e]) == c.(suspended := true, held := held + [e]);
        AtEveryPoint(c, true, held + [e], rest);
      } else {
        assert s == c;
        HandleKeepsSuspended(c, e);
        HandleKeepsHeld(c, e);
        var d := Handle(c, e).ctx;
        assert d.(suspended := false, held := []) == d;
        AtEveryPoint(d, false, [], rest);
      }
    }
  }

  lemma SuspendOnly(c: Ctx, e: Event)
    requires !Calm(e)
    ensures Handle(c, e).ctx == c.(suspended := e.ExecutionSuspended?)
  {
  }

  lemma {:induction false} ErasedIsHandled(c: Ctx, events: seq<Event>)
    requires !c.suspended
    ensures ProcessAll(c, Erase(events)) == HandleAll(c, Erase(events))
    decreases |events|
  {
    hide Handle;
    if events != [] {
      if Calm(events[0]) {
        assert Erase(events)[1..] == Erase(events[1..]);
        HandleKeepsSuspended(c, events[0]);
        ErasedIsHandled(Handle(c, events[0]).ctx, events[1..]);
      } else {
        ErasedIsHandled(c, events[1..]);
      }
    }
  }

  /** Transparency: with nothing held before, no termination during suspension and no error
      that interrupts a resume, suspending and resuming along the way changes nothing. */
  lemma {:induction false} SuspensionIsTransparent(c: Ctx, events: seq<Event>)
    requires !c.suspended && c.held == []
    requires !Suspends(false, events) && NoTerminationInside(false, events)
    requires DrainsFully(c, false, [], events)
    ensures ProcessAll(c, events) == ProcessAll(c, Erase(events))
  {
    assert c.(suspended := false, held := []) == c;
    HandledThenHeld(false, [], events);
    assert HandledAfter(false, [], events) == Erase(events) by {
      assert HandledAfter(false, [], events) + [] == HandledAfter(false, [], events);
      assert [] + Erase(events) == Erase(events);
    }
    AtEveryPoint(c, false, [], events);
    ErasedIsHandled(c, events);
    HandleAllKeepsCalmOf(c, events);
  }

  lemma HandleAllKeepsCalmOf(c: Ctx, events: seq<Event>)
    requires !c.suspended && c.held == []
    ensures HandleAll(c, Erase(events)).(suspended := false, held := []) == HandleAll(c, Erase(events))
  {
    ErasedIsCalm(events);
    HandleAllKeepsCalm(c, Erase(events));
  }

  lemma {:induction false} ErasedIsCalm(events: seq<Event>)
    ensures forall i :: 0 <= i < |Erase(events)| ==> Calm(Erase(events)[i])
    decreases |events|
  {
    if events != [] {
      ErasedIsCalm(events[1..]);
    }
  }

  // ----- one stretch: exactly when -----

  predicate MayBeHeld(events: seq<Event>) {
    forall i :: 0 <= i < |events| ==> Calm(events[i]) && !events[i].ExecutionTerminated?
  }

  lemma {:induction false} StretchIs(c: Ctx, held: seq<Event>, events: seq<Event>)
    requires c.held == [] && !c.suspended && MayBeHeld(events)
    ensures ProcessAll(c.(suspended := true, held := held), events + [ExecutionResumed])
         == Drain(c.(held := held + events)).ctx
    decreases |events|
  {
    hide Handle, Drain;
    var s := c.(suspended := true, held := held);
    var all := events + [ExecutionResumed];
    if events == [] {
      assert all[1..] == [] && held + events == held;
      assert s.(suspended := false) == c.(held := held);
      assert ProcessAll(s, all) == ProcessAll(ProcessEvent(s, all[0]).ctx, []);
    } else {
      assert all[1..] == events[1..] + [ExecutionResumed];
      assert s.(held := held + [events[0]]) == c.(suspended := true, held := held + [events[0]]);
      StretchIs(c, held + [events[0]], events[1..]);
      assert held + [events[0]] + events[1..] == held + events;
    }
  }

  /** A suspension around any events is invisible, and leaves nothing held, exactly when
      none of them but the last makes its handler throw. Otherwise what follows the first
      error stays held although the execution is not suspended. */
  lemma {:induction false} StretchIsTransparentExactlyWhen(c: Ctx, events: seq<Event>)
    requires !c.suspended && c.held == [] && MayBeHeld(events)
    ensures var d := ProcessAll(c, [ExecutionSuspended] + events + [ExecutionResumed]);
            && (d == ProcessAll(c, events) <==> NearlyClean(c, events))
            && (d.held == [] <==> NearlyClean(c, events))
            && d.held == events[Taken(c, events)..] && !d.suspended
  {
    hide Handle, NearlyClean, Drain;
    var all := [ExecutionSuspended] + events + [ExecutionResumed];
    assert all[1..] == events + [ExecutionResumed];
    SuspendOnly(c, ExecutionSuspended);
    assert ProcessAll(c, all) == ProcessAll(c.(suspended := true, held := []), all[1..]);
    StretchIs(c, [], events);
    assert [] + events == events;
    var k := Taken(c, events);
    DrainTakes(c, events);
    TakenExactlyWhen(c, events);
    HandleAllKeepsCalm(c, events[..k]);
    HandleAllKeepsCalm(c, events);
    assert k == |events| ==> events[..k] == events;
    CalmIsErased(events);
    ErasedIsHandled(c, events);
    assert HandleAll(c, events).(held := []) == HandleAll(c, events);
  }

  lemma {:induction false} CalmIsErased(events: seq<Event>)
    requires MayBeHeld(events)
    ensures Erase(events) == events
    decreases |events|
  {
    if events != [] {
      CalmIsErased(events[1..]);
    }
  }

  lemma ProcessFour(c: Ctx, events: seq<Event>, c1: Ctx, c2: Ctx, c3: Ctx)
    requires |events| == 4
    requires ProcessEvent(c, events[0]).ctx == c1 && ProcessEvent(c1, events[1]).ctx == c2
    requires ProcessEvent(c2, events[2]).ctx == c3
    ensures ProcessAll(c, events) == ProcessEvent(c3, events[3]).ctx
  {
    hide ProcessEvent;
    var a, b, d := events[1..], events[2..], events[3..];
    assert a[1..] == b && b[1..] == d && d[1..] == [];
    assert ProcessAll(c3, d) == ProcessEvent(c3, events[3]).ctx;
    assert ProcessAll(c2, b) == ProcessAll(c3, d);
    assert ProcessAll(c1, a) == ProcessAll(c2, b);
  }

  /** For instance, an event the engine has no case for, held before a raised one, leaves the
      raised one held although the execution is not suspended any more. */
  lemma ErrorStrandsHeldEvents(c: Ctx, name: string)
    requires !c.suspended && c.held == []
    ensures var e := EventRaised(0, name, "");
            ProcessAll(c, [ExecutionSuspended, Unsupported, e, ExecutionResumed]) == c.(held := [e])
  {
    hide ProcessAll;
    var e := EventRaised(0, name, "");
    var s := c.(suspended := true);
    var full := c.(held := [Unsupported, e]);
    assert Drain(full) == Handled(c.(held := [e]), true) by {
      assert full.held[1..] == [e] && full.(held := [e]) == c.(held := [e]);
    }
    ProcessFour(c, [ExecutionSuspended, Unsupported, e, ExecutionResumed],
                s, s.(held := [Unsupported]), s.(held := [Unsupported, e]));
  }
}
