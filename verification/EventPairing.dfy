/** For one event name with indefinite waits, the i-th wait gets the i-th raised event,
    however the two are interleaved and whatever happens under other names. */
module EventPairing {
  import opened WorkflowTypes
  import opened IdTable
  import opened ReplayContext
  import opened ContextInvariant

  /** The inputs among which the pairing is claimed: waits for `name` have no timeout, and
      no other name differs from it only by case. Suspensions, completions and terminations
      may come at any point. */
  predicate Fair(i: Input, name: string) {
    match i
    case Made(WaitForEvent(n, timeout)) =>
      (n == name ==> IsInfiniteTimeout(timeout)) && (SameIgnoringCase(n, name) ==> n == name)
    case Happened(e) => e.EventRaised? && SameIgnoringCase(e.name, name) ==> e.name == name
    case _ => true
  }

  /** The synthetic timer of an indefinite wait is never completed. */
  predicate SparesGuards(c: Ctx, e: Event) {
    Ending(e).Some? && Ending(e).value.0 in c.ids.open ==> !c.ids.open[Ending(e).value.0].OptionalTimer?
  }

  /** When held events are replayed, that is so for each, and only the last may make its
      handler throw. */
  predicate SparesHeld(c: Ctx)
    decreases |c.held|
  {
    c.held != [] ==>
      var d := c.(held := c.held[1..]);
      HandleKeepsHeld(d, c.held[0]);
      SparesGuards(d, c.held[0])
      && (if Handle(d, c.held[0]).threw then |c.held| == 1 else SparesHeld(Handle(d, c.held[0]).ctx))
  }

  predicate Spares(c: Ctx, i: Input) {
    i.Happened? ==>
      if c.suspended && !i.event.ExecutionResumed? && !i.event.ExecutionTerminated? then true
      else if i.event.ExecutionResumed? then SparesHeld(c.(suspended := false))
      else SparesGuards(c, i.event)
  }

  predicate FairRun(c: Ctx, inputs: seq<Input>, name: string)
    decreases |inputs|
  {
    inputs != [] ==> Fair(inputs[0], name) && Spares(c, inputs[0]) && FairRun(Apply(c, inputs[0]), inputs[1..], name)
  }

  /** The wait, and the raised event, that one input adds to the lists. A completed
      orchestrator is refused its waits. */
  function FirstWait(c: Ctx, i: Input, name: string): seq<nat> {
    if i.Made? && i.call.WaitForEvent? && i.call.event == name && !c.isComplete then [|c.board.cells|] else []
  }

  function FirstRaise(i: Input, name: string): seq<Event> {
    if i.Happened? && IsRaised(i.event, name) then [i.event] else []
  }

  /** The tasks of the waits for `name`, in the order of the calls. */
  function WaitsFor(c: Ctx, inputs: seq<Input>, name: string): seq<nat>
    decreases |inputs|
  {
    if inputs == [] then [] else FirstWait(c, inputs[0], name) + WaitsFor(Apply(c, inputs[0]), inputs[1..], name)
  }

  function RaisesOf(inputs: seq<Input>, name: string): seq<Event> {
    if inputs == [] then [] else FirstRaise(inputs[0], name) + RaisesOf(inputs[1..], name)
  }

  function Named(events: seq<Event>, name: string): seq<Event> {
    if events == [] then []
    else if IsRaised(events[0], name) then [events[0]] + Named(events[1..], name)
    else Named(events[1..], name)
  }

  lemma NamedAppend(a: seq<Event>, b: seq<Event>, name: string)
    ensures Named(a + b, name) == Named(a, name) + Named(b, name)
  {
    if a == [] {
      assert a + b == b;
    } else {
      assert (a + b)[1..] == a[1..] + b;
      NamedAppend(a[1..], b, name);
    }
  }

  lemma NamedEmpty(events: seq<Event>, name: string)
    ensures Named(events, name) == [] <==> forall i :: 0 <= i < |events| ==> !IsRaised(events[i], name)
  {
  }

  function WaitingFor(w: Waits, name: string): seq<nat> {
    if name in w.names then QueueAt(w, w.names[name]) else []
  }

  ghost predicate SameNames(events: seq<Event>, name: string) {
    forall i :: 0 <= i < |events| && events[i].EventRaised? && SameIgnoringCase(events[i].name, name) ==> events[i].name == name
  }

  /** No finite timeout guards a wait for the name. */
  ghost predicate Unguarded(open: map<int, Record>, name: string) {
    forall id :: id in open ==> IsElsewhere(open[id], name)
  }

  predicate IsElsewhere(rec: Record, name: string) {
    rec.SubTimer? && rec.chain.guard.Some? ==> rec.chain.guard.value.name != name
  }

  ghost predicate IsWaitFor(cells: seq<Cell>, x: nat, name: string) {
    x < |cells| && cells[x].kind.EventCell? && cells[x].kind.event == name
  }

  /** What holds for the name after `waits` and `raises`: pairs are formed in order, the
      surplus waits are queued or the surplus events are buffered, in order. */
  ghost predicate BoardPaired(b: Board, name: string, waits: seq<nat>, raises: seq<Event>) {
    var k := Lesser(|waits|, |raises|);
    && (forall i :: 0 <= i < |waits| ==> IsWaitFor(b.cells, waits[i], name))
    && (forall i :: 0 <= i < k ==> b.cells[waits[i]].future == Received(raises[i]))
    && (forall i :: k <= i < |waits| ==> b.cells[waits[i]].future == Pending)
    && WaitingFor(b.waits, name) == waits[k..]
    && Named(b.waits.unprocessed, name) == raises[k..]
  }

  /** The pairing on the board, of the waits and the raised events handled so far. */
  ghost predicate Paired(c: Ctx, name: string, waits: seq<nat>, raises: seq<Event>) {
    && Inv(c)
    && SameNames(c.board.waits.unprocessed, name)
    && BoardPaired(c.board, name, waits, raises)
    && Unguarded(c.ids.open, name)
  }

  /** The raised events are those handled and then those held. */
  ghost predicate PairedWithHeld(c: Ctx, name: string, waits: seq<nat>, raises: seq<Event>) {
    && |Named(c.held, name)| <= |raises|
    && raises[|raises| - |Named(c.held, name)|..] == Named(c.held, name)
    && Paired(c, name, waits, raises[..|raises| - |Named(c.held, name)|])
    && SameNames(c.held, name)
    && (!c.suspended ==> c.held == [])
  }

  // ----- what happens under other names -----

  /** Nothing that concerns `name` changes. */
  ghost predicate SameFor(b: Board, d: Board, name: string) {
    && |b.cells| <= |d.cells|
    && (forall x: nat :: IsWaitFor(b.cells, x, name) ==> d.cells[x] == b.cells[x])
    && WaitingFor(d.waits, name) == WaitingFor(b.waits, name)
    && Named(d.waits.unprocessed, name) == Named(b.waits.unprocessed, name)
    && (SameNames(b.waits.unprocessed, name) ==> SameNames(d.waits.unprocessed, name))
  }

  lemma SameStaysPaired(b: Board, d: Board, name: string, waits: seq<nat>, raises: seq<Event>)
    requires BoardPaired(b, name, waits, raises) && SameFor(b, d, name)
    ensures BoardPaired(d, name, waits, raises)
  {
    forall i | 0 <= i < |waits| ensures d.cells[waits[i]] == b.cells[waits[i]] {
      assert IsWaitFor(b.cells, waits[i], name);
    }
  }

  lemma SameForAgain(b: Board, d: Board, e: Board, name: string)
    requires SameFor(b, d, name) && SameFor(d, e, name)
    ensures SameFor(b, e, name)
  {
    forall x: nat | IsWaitFor(b.cells, x, name) ensures e.cells[x] == b.cells[x] {
      assert IsWaitFor(d.cells, x, name);
    }
  }

  lemma NamedWithout(events: seq<Event>, i: nat, name: string)
    requires i < |events| && !IsRaised(events[i], name)
    ensures Named(events[..i] + events[i + 1..], name) == Named(events, name)
  {
    var rest := events[i..];
    assert rest[1..] == events[i + 1..];
    assert events == events[..i] + rest;
    NamedAppend(events[..i], rest, name);
    NamedAppend(events[..i], events[i + 1..], name);
  }

  lemma OtherWait(env: Env, b: Board, open: map<int, Record>, other: string, timeout: Option<int>, name: string)
    requires BoardOk(b, open) && other != name && !SameIgnoringCase(other, name)
    ensures SameFor(b, Wait(env, b, other, timeout).board, name)
  {
    var i := FindBuffered(b.waits.unprocessed, other);
    if i < |b.waits.unprocessed| {
      NamedWithout(b.waits.unprocessed, i, name);
      var es := b.waits.unprocessed;
      var rest := es[..i] + es[i + 1..];
      assert forall j :: 0 <= j < |rest| ==> rest[j] == es[if j < i then j else j + 1];
    } else if !IsInfiniteTimeout(timeout) && timeout.value == 0 {
    } else {
      ParkElsewhere(b, open, other, name);
    }
  }

  lemma ParkElsewhere(b: Board, open: map<int, Record>, other: string, name: string)
    requires BoardOk(b, open) && other != name
    ensures SameFor(b, ParkWait(b, other), name)
  {
  }

  lemma OtherRaise(b: Board, open: map<int, Record>, e: Event, name: string)
    requires BoardOk(b, open) && e.EventRaised? && e.name != name && !SameIgnoringCase(e.name, name)
    ensures RaiseEvent(b, e).Some? && SameFor(b, RaiseEvent(b, e).value, name)
  {
    RaiseKeepsBoard(b, open, e);
    if e.name !in b.waits.names {
      NamedAppend(b.waits.unprocessed, [e], name);
      assert Named([e], name) == [];
    } else {
      var q := b.waits.names[e.name];
      assert QueueOk(b.cells, b.waits, q, b.waits.queues[q]);
      var x := b.waits.queues[q][0];
      assert x in b.waits.queues[q];
      LeaveElsewhere(b.waits, e.name, b.waits.queues[q][1..], name);
    }
  }

  lemma LeaveElsewhere(w: Waits, other: string, rest: seq<nat>, name: string)
    requires NamesOk(w) && other in w.names && other != name
    ensures WaitingFor(Leave(w, other, w.names[other], rest), name) == WaitingFor(w, name)
  {
  }

  lemma OtherExpires(b: Board, open: map<int, Record>, g: Guard, name: string)
    requires BoardOk(b, open) && GuardOk(b.cells, g) && g.name != name
    ensures SameFor(b, ExpireWait(b, g), name)
  {
    if b.cells[g.wait].future.Pending? {
      assert IsUnfinishedWait(b.cells, g.wait);
      assert IsParked(b.cells, b.waits, g.wait);
      LeaveElsewhere(b.waits, g.name, Without(QueueAt(b.waits, g.queue), g.wait), name);
    }
  }

  lemma OtherRecordEnds(env: Env, b: Board, open: map<int, Record>, rec: Record, o: Outcome, name: string)
    requires BoardOk(b, open) && RecordOk(b.cells, rec) && !rec.OptionalTimer? && IsElsewhere(rec, name) && !o.Pending?
    requires rec.SubTimer? ==> ChainIsIdle(open, rec.chain.cell)
    ensures SameFor(b, EndRecord(env, b, rec, o).board, name)
    ensures var i := EndRecord(env, b, rec, o).issued; i.Some? && i.value.Opened? ==> IsElsewhere(i.value.rec, name)
  {
    hide Named, WaitingFor, NamesOk, QueuesOk, UnfinishedAreParked, BufferOk, ExpireWait;
    if rec.SubTimer? && !o.Failure? && ChainIsOver(env.now, rec.chain) {
      var chain := rec.chain;
      VisibleKeepsBoard(b, open, chain.cell, Value(""));
      var seen := if rec.first then b.(cells := SetVisible(b.cells, chain.cell, Value(""))) else b;
      FutureKeepsBoard(seen, open, chain.cell, Value(""));
      var done := seen.(cells := SetFuture(seen.cells, chain.cell, Value("")));
      assert SameFor(b, done, name);
      if chain.guard.Some? {
        OtherExpires(done, open, chain.guard.value, name);
        SameForAgain(b, done, ExpireWait(done, chain.guard.value), name);
      }
    }
  }

  lemma AllotStaysUnguarded(t: Table, spends: bool, issued: Option<Issuance>, name: string)
    requires Unguarded(t.open, name) && (issued.Some? && issued.value.Opened? ==> IsElsewhere(issued.value.rec, name))
    ensures Unguarded(Allot(t, spends, issued).open, name)
  {
  }

  lemma AckStaysUnguarded(t: Table, e: Event, name: string)
    requires Unguarded(t.open, name) && IsAcknowledgement(e)
    ensures Unguarded(Acknowledge(t, e).table.open, name)
  {
    DownIsBijective(t.open, e.eventId);
  }

  // ----- one input -----

  lemma EventStaysPaired(c: Ctx, e: Event, name: string, waits: seq<nat>, raises: seq<Event>)
    requires Paired(c, name, waits, raises) && Fair(Happened(e), name) && SparesGuards(c, e)
    requires !IsRaised(e, name)
    ensures Paired(Handle(c, e).ctx, name, waits, raises)
  {
    hide Inv, EndRecord, Allot, Acknowledge, RaiseEvent, BoardPaired, Unguarded, SameNames;
    HandleKeepsInv(c, e);
    assert BoardOk(c.board, c.ids.open) && IdsOk(c.ids, c.isComplete) by { InvParts(c); }
    if IsAcknowledgement(e) {
      AckStaysUnguarded(c.ids, e, name);
    } else if Ending(e).Some? {
      var (id, o) := Ending(e).value;
      if id in c.ids.open {
        var rec := c.ids.open[id];
        var rest := c.ids.open - {id};
        RestIsOk(c, id);
        ElsewhereAt(c.ids.open, id, name);
        OtherRecordEnds(c.env, c.board, rest, rec, o, name);
        var eff := EndRecord(c.env, c.board, rec, o);
        SameStaysPaired(c.board, eff.board, name, waits, raises);
        AllotStaysUnguarded(Forget(c.ids, id), eff.spends, eff.issued, name);
      }
    } else if e.EventRaised? {
      OtherRaise(c.board, c.ids.open, e, name);
      SameStaysPaired(c.board, RaiseEvent(c.board, e).value, name, waits, raises);
    }
  }

  lemma RestIsOk(c: Ctx, id: int)
    requires Inv(c) && id in c.ids.open
    ensures BoardOk(c.board, c.ids.open - {id}) && RecordOk(c.board.cells, c.ids.open[id])
    ensures c.ids.open[id].SubTimer? ==> ChainIsIdle(c.ids.open - {id}, c.ids.open[id].chain.cell)
  {
    var rec := c.ids.open[id];
    forall other | other in c.ids.open && other != id && c.ids.open[other].SubTimer? && rec.SubTimer?
      ensures c.ids.open[other].chain.cell != rec.chain.cell
    {
      assert !SameChain(c.ids.open[other], rec);
    }
  }

  lemma ElsewhereAt(open: map<int, Record>, id: int, name: string)
    requires Unguarded(open, name) && id in open
    ensures IsElsewhere(open[id], name) && Unguarded(open - {id}, name)
  {
  }

  lemma RaiseStaysPaired(c: Ctx, e: Event, name: string, waits: seq<nat>, raises: seq<Event>)
    requires Paired(c, name, waits, raises) && IsRaised(e, name)
    ensures Paired(Handle(c, e).ctx, name, waits, raises + [e])
  {
    hide Inv, EndRecord, Allot, Acknowledge, BoardPaired, Unguarded, NamesOk, QueuesOk, UnfinishedAreParked, BufferOk;
    HandleKeepsInv(c, e);
    InvParts(c);
    RaiseKeepsBoard(c.board, c.ids.open, e);
    if name in c.board.waits.names {
      DeliveryStaysPaired(c.board, c.ids.open, e, name, waits, raises);
    } else {
      BufferStaysPaired(c.board, e, name, waits, raises);
    }
  }

  lemma DeliveryStaysPaired(b: Board, open: map<int, Record>, e: Event, name: string, waits: seq<nat>, raises: seq<Event>)
    requires BoardPaired(b, name, waits, raises) && BoardOk(b, open) && IsRaised(e, name) && name in b.waits.names
    ensures RaiseEvent(b, e).Some? && BoardPaired(RaiseEvent(b, e).value, name, waits, raises + [e])
    ensures RaiseEvent(b, e).value.waits.unprocessed == b.waits.unprocessed
  {
    hide BoardOk, RaiseEvent, Named;
    var k := |raises|;
    var queue := WaitingFor(b.waits, name);
    Delivers(b, open, e, name);
    assert queue == waits[k..] && queue[0] == waits[k];
    assert waits[k..][1..] == waits[k + 1..];
    assert forall i :: k < i < |waits| ==> waits[i] == queue[i - k];
    assert raises[k..] == [] && (raises + [e])[k + 1..] == [];
    forall i | 0 <= i < k ensures waits[i] != waits[k] {
      assert b.cells[waits[i]].future == Received(raises[i]);
    }
  }

  /** The first waiter gets the event, the others move up. */
  lemma Delivers(b: Board, open: map<int, Record>, e: Event, name: string)
    requires BoardOk(b, open) && IsRaised(e, name) && name in b.waits.names
    ensures var queue := WaitingFor(b.waits, name);
            && queue != [] && RaiseEvent(b, e).Some? && queue[0] < |b.cells| && b.cells[queue[0]].future.Pending?
            && (forall i :: 0 < i < |queue| ==> queue[0] < queue[i])
            && var d := RaiseEvent(b, e).value;
               d.cells == b.cells[queue[0] := b.cells[queue[0]].(future := Received(e), visible := Received(e))]
               && WaitingFor(d.waits, name) == queue[1..] && d.waits.unprocessed == b.waits.unprocessed
  {
    var queue := b.waits.queues[b.waits.names[name]];
    assert QueueOk(b.cells, b.waits, b.waits.names[name], queue);
    assert queue[0] in queue;
  }

  lemma BufferStaysPaired(b: Board, e: Event, name: string, waits: seq<nat>, raises: seq<Event>)
    requires BoardPaired(b, name, waits, raises) && IsRaised(e, name) && name !in b.waits.names
    ensures RaiseEvent(b, e).Some? && BoardPaired(RaiseEvent(b, e).value, name, waits, raises + [e])
    ensures RaiseEvent(b, e).value.waits.unprocessed == b.waits.unprocessed + [e]
  {
    NamedAppend(b.waits.unprocessed, [e], name);
    assert Named([e], name) == [e];
    assert waits[Lesser(|waits|, |raises|)..] == [];
    assert (raises + [e])[|waits|..] == raises[|waits|..] + [e];
  }

  lemma WaitStaysPaired(c: Ctx, name: string, timeout: Option<int>, waits: seq<nat>, raises: seq<Event>)
    requires Paired(c, name, waits, raises) && IsInfiniteTimeout(timeout) && !c.isComplete
    ensures Paired(Attempt(c, WaitForEvent(name, timeout)), name, waits + [|c.board.cells|], raises)
  {
    hide Inv, BoardPaired, Unguarded, SameNames, Allot, Wait, BoardOk;
    CallKeepsInv(c, WaitForEvent(name, timeout));
    InvParts(c);
    InfiniteWait(c.env, c.board, c.ids.open, name, timeout, waits, raises);
    var e := Wait(c.env, c.board, name, timeout);
    AllotStaysUnguarded(c.ids, e.spends, e.issued, name);
  }

  lemma InfiniteWait(env: Env, b: Board, open: map<int, Record>, name: string, timeout: Option<int>, waits: seq<nat>,
                     raises: seq<Event>)
    requires BoardPaired(b, name, waits, raises) && SameNames(b.waits.unprocessed, name) && BoardOk(b, open)
    requires IsInfiniteTimeout(timeout)
    ensures var e := Wait(env, b, name, timeout);
            && BoardPaired(e.board, name, waits + [|b.cells|], raises) && SameNames(e.board.waits.unprocessed, name)
            && (e.issued.Some? && e.issued.value.Opened? ==> IsElsewhere(e.issued.value.rec, name))
  {
    hide BoardPaired, BoardOk, SameNames;
    var es := b.waits.unprocessed;
    var i := FindBuffered(es, name);
    if i < |es| {
      FirstNamed(es, i, name);
      RestIsSameNames(es, i, name);
      TakeStaysPaired(b, name, i, waits, raises);
    } else {
      forall j | 0 <= j < |es| ensures !IsRaised(es[j], name) {
        assert SameIgnoringCase(name, name);
      }
      NamedEmpty(es, name);
      ParkStaysPaired(b, open, name, waits, raises);
    }
  }

  lemma RestIsSameNames(es: seq<Event>, i: nat, name: string)
    requires SameNames(es, name) && i < |es|
    ensures SameNames(es[..i] + es[i + 1..], name)
  {
    var rest := es[..i] + es[i + 1..];
    assert forall j :: 0 <= j < |rest| ==> rest[j] == es[if j < i then j else j + 1];
  }

  lemma FirstNamed(es: seq<Event>, i: nat, name: string)
    requires SameNames(es, name) && i < |es| && FindBuffered(es, name) == i
    ensures IsRaised(es[i], name)
    ensures Named(es, name) == [es[i]] + Named(es[..i] + es[i + 1..], name)
  {
    assert SameIgnoringCase(es[i].name, name);
    forall j | 0 <= j < i ensures !IsRaised(es[..i][j], name) {
      assert SameIgnoringCase(name, name);
    }
    NamedEmpty(es[..i], name);
    assert es == es[..i] + es[i..];
    assert es[i..][1..] == es[i + 1..];
    NamedAppend(es[..i], es[i..], name);
    NamedAppend(es[..i], es[i + 1..], name);
  }

  lemma TakeStaysPaired(b: Board, name: string, i: nat, waits: seq<nat>, raises: seq<Event>)
    requires BoardPaired(b, name, waits, raises) && i < |b.waits.unprocessed|
    requires var es := b.waits.unprocessed; Named(es, name) == [es[i]] + Named(es[..i] + es[i + 1..], name)
    ensures BoardPaired(TakeBuffered(b, name, i), name, waits + [|b.cells|], raises)
  {
    var k := Lesser(|waits|, |raises|);
    assert raises[k..][0] == raises[k] == b.waits.unprocessed[i];
    assert k == |waits|;
    assert raises[k..][1..] == raises[k + 1..];
  }

  lemma ParkStaysPaired(b: Board, open: map<int, Record>, name: string, waits: seq<nat>, raises: seq<Event>)
    requires BoardPaired(b, name, waits, raises) && BoardOk(b, open) && Named(b.waits.unprocessed, name) == []
    ensures BoardPaired(ParkWait(b, name), name, waits + [|b.cells|], raises)
  {
    var k := Lesser(|waits|, |raises|);
    assert raises[k..] == [];
    assert k == |raises|;
    assert (waits + [|b.cells|])[k..] == waits[k..] + [|b.cells|];
  }

  lemma CallStaysPaired(c: Ctx, call: Call, name: string, waits: seq<nat>, raises: seq<Event>)
    requires Paired(c, name, waits, raises) && Fair(Made(call), name)
    requires !(call.WaitForEvent? && call.event == name && !c.isComplete)
    ensures Paired(Attempt(c, call), name, waits, raises)
  {
    hide Inv, Allot, Wait, BoardPaired, Unguarded, SameNames;
    CallKeepsInv(c, call);
    InvParts(c);
    if !c.isComplete {
      var e := Perform(c.env, c.board, call);
      if call.WaitForEvent? {
        OtherWait(c.env, c.board, c.ids.open, call.event, call.timeout, name);
        assert e.issued.Some? && e.issued.value.Opened? ==> IsElsewhere(e.issued.value.rec, name) by {
          GuardOfWait(c.env, c.board, call.event, call.timeout, name);
        }
      }
      assert SameFor(c.board, e.board, name);
      SameStaysPaired(c.board, e.board, name, waits, raises);
      AllotStaysUnguarded(c.ids, e.spends, e.issued, name);
    }
  }

  lemma GuardOfWait(env: Env, b: Board, other: string, timeout: Option<int>, name: string)
    requires other != name
    ensures var i := Wait(env, b, other, timeout).issued;
            i.Some? && i.value.Opened? ==> IsElsewhere(i.value.rec, name)
  {
  }

  lemma HandleStaysPaired(c: Ctx, e: Event, name: string, waits: seq<nat>, raises: seq<Event>)
    requires Paired(c, name, waits, raises) && Fair(Happened(e), name) && SparesGuards(c, e)
    ensures Paired(Handle(c, e).ctx, name, waits, raises + Named([e], name))
  {
    hide Handle, Paired, SparesGuards, Fair;
    assert raises + [] == raises && Named([e], name) == if IsRaised(e, name) then [e] else [];
    if IsRaised(e, name) {
      RaiseStaysPaired(c, e, name, waits, raises);
    } else {
      EventStaysPaired(c, e, name, waits, raises);
    }
  }

  /** A resume handles what was held, in order. */
  lemma {:induction false} DrainStaysPaired(c: Ctx, name: string, waits: seq<nat>, raises: seq<Event>)
    requires Paired(c, name, waits, raises) && SameNames(c.held, name) && SparesHeld(c)
    ensures Paired(Drain(c).ctx, name, waits, raises + Named(c.held, name)) && Drain(c).ctx.held == []
    decreases |c.held|
  {
    hide Handle, SparesGuards, BoardPaired, Unguarded, Inv;
    if c.held == [] {
      assert raises + [] == raises;
    } else {
      var e, rest := c.held[0], c.held[1..];
      var d := c.(held := rest);
      FewerHeld(c);
      HeldIsFair(c.held, name);
      HandleStaysPaired(d, e, name, waits, raises);
      HandleKeepsHeld(d, e);
      assert [e] + rest == c.held;
      NamedAppend([e], rest, name);
      assert raises + Named([e], name) + Named(rest, name) == raises + Named(c.held, name);
      if Handle(d, e).threw {
        assert rest == [] && Named(rest, name) == [];
      } else {
        DrainStaysPaired(Handle(d, e).ctx, name, waits, raises + Named([e], name));
      }
    }
  }

  lemma HeldIsFair(held: seq<Event>, name: string)
    requires SameNames(held, name) && held != []
    ensures Fair(Happened(held[0]), name) && SameNames(held[1..], name)
  {
  }

  // ----- runs -----

  lemma RunSplits(c: Ctx, inputs: seq<Input>, name: string)
    requires inputs != [] && FairRun(c, inputs, name)
    ensures Fair(inputs[0], name) && Spares(c, inputs[0]) && FairRun(Apply(c, inputs[0]), inputs[1..], name)
    ensures WaitsFor(c, inputs, name) == FirstWait(c, inputs[0], name) + WaitsFor(Apply(c, inputs[0]), inputs[1..], name)
    ensures RaisesOf(inputs, name) == FirstRaise(inputs[0], name) + RaisesOf(inputs[1..], name)
    ensures ApplyAll(c, inputs) == ApplyAll(Apply(c, inputs[0]), inputs[1..])
  {
    hide Apply, Fair, Spares;
  }

  lemma {:induction false} PairedThroughout(c: Ctx, inputs: seq<Input>, name: string, waits: seq<nat>, raises: seq<Event>)
    requires PairedWithHeld(c, name, waits, raises) && FairRun(c, inputs, name)
    ensures PairedWithHeld(ApplyAll(c, inputs), name, waits + WaitsFor(c, inputs, name), raises + RaisesOf(inputs, name))
    decreases |inputs|
  {
    hide PairedWithHeld, Apply, Spares, Fair, FirstWait, FirstRaise;
    if inputs == [] {
      assert waits + [] == waits && raises + [] == raises;
    } else {
      RunSplits(c, inputs, name);
      hide FairRun, WaitsFor, RaisesOf, ApplyAll;
      var i, rest := inputs[0], inputs[1..];
      InputStaysPaired(c, i, name, waits, raises);
      PairedThroughout(Apply(c, i), rest, name, waits + FirstWait(c, i, name), raises + FirstRaise(i, name));
      assert waits + FirstWait(c, i, name) + WaitsFor(Apply(c, i), rest, name) == waits + WaitsFor(c, inputs, name);
      assert raises + FirstRaise(i, name) + RaisesOf(rest, name) == raises + RaisesOf(inputs, name);
    }
  }

  lemma FirstRaiseIs(e: Event, name: string)
    ensures FirstRaise(Happened(e), name) == Named([e], name)
  {
  }

  lemma HeldStaysPaired(c: Ctx, e: Event, name: string, waits: seq<nat>, raises: seq<Event>)
    requires PairedWithHeld(c, name, waits, raises) && Fair(Happened(e), name) && c.suspended
    requires Inv(c.(held := c.held + [e]))
    ensures PairedWithHeld(c.(held := c.held + [e]), name, waits, raises + Named([e], name))
  {
    hide Inv, BoardPaired, Unguarded, Named;
    NamedAppend(c.held, [e], name);
    var h, n := Named(c.held, name), Named([e], name);
    var more := raises + n;
    assert more[|more| - |h + n|..] == raises[|raises| - |h|..] + n;
    assert more[..|more| - |h + n|] == raises[..|raises| - |h|];
    assert forall j :: 0 <= j < |c.held + [e]| ==> (c.held + [e])[j] == if j < |c.held| then c.held[j] else e;
  }

  lemma EventStaysPairedWithHeld(c: Ctx, e: Event, name: string, waits: seq<nat>, raises: seq<Event>)
    requires PairedWithHeld(c, name, waits, raises) && Fair(Happened(e), name) && Spares(c, Happened(e))
    ensures PairedWithHeld(ProcessEvent(c, e).ctx, name, waits, raises + Named([e], name))
  {
    hide Handle, Drain, Paired, SparesGuards, SparesHeld, Fair;
    var done := raises[..|raises| - |Named(c.held, name)|];
    assert Inv(c) by { PairedIsOk(c, name, waits, done); }
    ProcessKeepsInv(c, e);
    if c.suspended && !e.ExecutionResumed? && !e.ExecutionTerminated? {
      HoldEvent(c, e, name, waits, raises);
    } else if e.ExecutionResumed? {
      assert Paired(c.(suspended := false), name, waits, done) by { UnsuspendedIsPaired(c, name, waits, done); }
      DrainStaysPaired(c.(suspended := false), name, waits, done);
      assert done + Named(c.held, name) == raises && raises + [] == raises;
    } else {
      HandleStaysPaired(c, e, name, waits, done);
      HandleKeepsHeld(c, e);
      var n := Named([e], name);
      if c.suspended {
        HandleKeepsSuspended(c, e);
        assert n == [] && raises + [] == raises && done + [] == done;
      } else {
        assert done == raises;
        assert (raises + n)[..|raises + n|] == raises + n;
        assert Handle(c, e).ctx.held == [];
      }
    }
  }

  lemma HoldEvent(c: Ctx, e: Event, name: string, waits: seq<nat>, raises: seq<Event>)
    requires PairedWithHeld(c, name, waits, raises) && Fair(Happened(e), name) && c.suspended
    requires !e.ExecutionResumed? && !e.ExecutionTerminated? && Inv(ProcessEvent(c, e).ctx)
    ensures PairedWithHeld(ProcessEvent(c, e).ctx, name, waits, raises + Named([e], name))
  {
    hide PairedWithHeld, Inv;
    if e.ExecutionSuspended? {
      assert Named([e], name) == [] && raises + [] == raises;
    } else {
      HeldStaysPaired(c, e, name, waits, raises);
    }
  }

  lemma PairedIsOk(c: Ctx, name: string, waits: seq<nat>, raises: seq<Event>)
    requires Paired(c, name, waits, raises)
    ensures Inv(c)
  {
  }

  lemma UnsuspendedIsPaired(c: Ctx, name: string, waits: seq<nat>, raises: seq<Event>)
    requires Paired(c, name, waits, raises)
    ensures Paired(c.(suspended := false), name, waits, raises)
  {
  }

  lemma InputStaysPaired(c: Ctx, i: Input, name: string, waits: seq<nat>, raises: seq<Event>)
    requires PairedWithHeld(c, name, waits, raises) && Fair(i, name) && Spares(c, i)
    ensures PairedWithHeld(Apply(c, i), name, waits + FirstWait(c, i, name), raises + FirstRaise(i, name))
  {
    hide Attempt, ProcessEvent, Paired, Close, AskPatch, Spares;
    assert waits + [] == waits && raises + [] == raises;
    var done := raises[..|raises| - |Named(c.held, name)|];
    match i {
      case Made(call) =>
        AttemptKeepsHeld(c, call);
        if call.WaitForEvent? && call.event == name && !c.isComplete {
          WaitStaysPaired(c, name, call.timeout, waits, done);
        } else {
          CallStaysPaired(c, call, name, waits, done);
        }
      case Asked(_, _) => AskStaysPaired(c, i, name, waits, done);
      case Closed(_, _, _) => AskStaysPaired(c, i, name, waits, done);
      case Happened(e) =>
        FirstRaiseIs(e, name);
        EventStaysPairedWithHeld(c, e, name, waits, raises);
    }
  }

  /** A patch question and a completion leave the board alone. */
  lemma AskStaysPaired(c: Ctx, i: Input, name: string, waits: seq<nat>, raises: seq<Event>)
    requires Paired(c, name, waits, raises) && (i.Asked? || i.Closed?)
    ensures Paired(Apply(c, i), name, waits, raises)
    ensures Apply(c, i).held == c.held && Apply(c, i).suspended == c.suspended
  {
    hide Inv, BoardPaired, Unguarded, Put;
    ApplyKeepsInv(c, i);
  }

  lemma StartsPaired(synthetic: bool, maxInterval: int, name: string)
    ensures PairedWithHeld(Initial(synthetic, maxInterval), name, [], [])
  {
    hide Inv;
    InitialInv(synthetic, maxInterval);
  }

  lemma PairedOutcome(d: Ctx, name: string, waits: seq<nat>, raises: seq<Event>, i: nat)
    requires PairedWithHeld(d, name, waits, raises) && i < |waits|
    ensures var handled := |raises| - |Named(d.held, name)|;
            && 0 <= handled && raises[handled..] == Named(d.held, name) && (!d.suspended ==> handled == |raises|)
            && waits[i] < |d.board.cells|
            && d.board.cells[waits[i]].future == if i < handled then Received(raises[i]) else Pending
  {
    hide Inv, Unguarded, SameNames;
    assert IsWaitFor(d.board.cells, waits[i], name);
  }

  /** The i-th wait has the i-th raised event as its outcome, or is unfinished if there is
      none yet or it is still held. The pairing depends on the two lists alone, and on how
      many of the raised events are held from a suspension. */
  lemma {:induction false} PairingIgnoresInterleaving(synthetic: bool, maxInterval: int, inputs: seq<Input>,
                                                      name: string, i: nat)
    requires FairRun(Initial(synthetic, maxInterval), inputs, name)
    requires i < |WaitsFor(Initial(synthetic, maxInterval), inputs, name)|
    ensures var c := Initial(synthetic, maxInterval);
            var x := WaitsFor(c, inputs, name)[i];
            var d := ApplyAll(c, inputs);
            var raises := RaisesOf(inputs, name);
            var handled := |raises| - |Named(d.held, name)|;
            && 0 <= handled && raises[handled..] == Named(d.held, name) && (!d.suspended ==> handled == |raises|)
            && x < |d.board.cells|
            && d.board.cells[x].future == if i < handled then Received(raises[i]) else Pending
  {
    hide ApplyAll, WaitsFor, RaisesOf, FairRun, PairedWithHeld, Named, Initial;
    var c := Initial(synthetic, maxInterval);
    StartsPaired(synthetic, maxInterval, name);
    PairedThroughout(c, inputs, name, [], []);
    var waits, raises := WaitsFor(c, inputs, name), RaisesOf(inputs, name);
    assert [] + waits == waits && [] + raises == raises;
    PairedOutcome(ApplyAll(c, inputs), name, waits, raises, i);
  }

  // ----- names that differ by case -----

  lemma FoundLast(w: seq<Event>, e: Event, name: string)
    requires FindBuffered(w, name) == |w| && e.EventRaised?
    ensures FindBuffered(w + [e], name) == if SameIgnoringCase(name, e.name) then |w| else |w| + 1
  {
    hide SameIgnoringCase, FindBuffered;
    var all := w + [e];
    var r := FindBuffered(all, name);
    assert all[|w|] == e && forall j :: 0 <= j < |w| ==> all[j] == w[j];
  }

  lemma RaisedEarly(c: Ctx, e: Event, name: string)
    requires Inv(c) && !c.isComplete && !c.suspended && e.EventRaised? && e.name !in c.board.waits.names
    requires FindBuffered(c.board.waits.unprocessed, name) == |c.board.waits.unprocessed|
    ensures var d := ApplyAll(c, [Happened(e), Made(WaitForEvent(name, None))]);
            && |d.board.cells| > |c.board.cells|
            && d.board.cells[|c.board.cells|].future == if SameIgnoringCase(name, e.name) then Received(e) else Pending
  {
    hide Inv, SameIgnoringCase, Allot, Park;
    var w := c.board.waits.unprocessed;
    var d := ProcessEvent(c, e).ctx;
    assert d == c.(board := c.board.(waits := c.board.waits.(unprocessed := w + [e])));
    FoundLast(w, e, name);
    ApplyTwo(c, Happened(e), Made(WaitForEvent(name, None)));
  }

  lemma RaisedLate(c: Ctx, e: Event, name: string)
    requires Inv(c) && !c.isComplete && !c.suspended && e.EventRaised? && e.name !in c.board.waits.names
    requires FindBuffered(c.board.waits.unprocessed, name) == |c.board.waits.unprocessed| && name !in c.board.waits.names
    ensures var d := ApplyAll(c, [Made(WaitForEvent(name, None)), Happened(e)]);
            && |d.board.cells| > |c.board.cells|
            && d.board.cells[|c.board.cells|].future == if name == e.name then Received(e) else Pending
  {
    hide Inv, SameIgnoringCase, Allot, FindBuffered;
    ApplyTwo(c, Made(WaitForEvent(name, None)), Happened(e));
  }

  /** Raising an event and then waiting for it, and waiting and then raising it, come to
      the same for the wait exactly when the names are equal or differ by more than case.
      (No wait is parked under either name, and nothing buffered matches.) */
  lemma {:induction false} OrderDecidesExactlyWhen(c: Ctx, e: Event, name: string)
    requires Inv(c) && !c.isComplete && !c.suspended && e.EventRaised?
    requires name !in c.board.waits.names && e.name !in c.board.waits.names
    requires FindBuffered(c.board.waits.unprocessed, name) == |c.board.waits.unprocessed|
    ensures var early := ApplyAll(c, [Happened(e), Made(WaitForEvent(name, None))]);
            var late := ApplyAll(c, [Made(WaitForEvent(name, None)), Happened(e)]);
            var x := |c.board.cells|;
            && x < |early.board.cells| && x < |late.board.cells|
            && (early.board.cells[x].future == late.board.cells[x].future
                <==> !SameIgnoringCase(name, e.name) || name == e.name)
  {
    hide ApplyAll, Inv, FindBuffered;
    RaisedEarly(c, e, name);
    RaisedLate(c, e, name);
  }

  const CAPITALS := "ABCDEFGHIJKLMNOPQRSTUVWXYZ"
  const SMALLS := "abcdefghijklmnopqrstuvwxyz"

  ghost predicate AreCases(capital: char, small: char) {
    exists k :: 0 <= k < 26 && CAPITALS[k] == capital && SMALLS[k] == small
  }

  ghost predicate SameLetter(x: char, y: char) {
    x == y || AreCases(x, y) || AreCases(y, x)
  }

  lemma AlphabetIsInOrder(k: nat)
    requires k < 26
    ensures CAPITALS[k] == 'A' + k as char && SMALLS[k] == 'a' + k as char
  {
  }

  lemma CapitalsFold(x: char, y: char)
    ensures 'A' <= x <= 'Z' && y == x + ('a' - 'A') <==> AreCases(x, y)
  {
    if 'A' <= x <= 'Z' && y == x + ('a' - 'A') {
      var k := x as int - 'A' as int;
      AlphabetIsInOrder(k);
      assert CAPITALS[k] == x && SMALLS[k] == y;
    }
    if AreCases(x, y) {
      var k :| 0 <= k < 26 && CAPITALS[k] == x && SMALLS[k] == y;
      AlphabetIsInOrder(k);
    }
  }

  lemma LettersMeetExactlyWhen(x: char, y: char)
    ensures Lower(x) == Lower(y) <==> SameLetter(x, y)
  {
    CapitalsFold(x, y);
    CapitalsFold(y, x);
    if 'A' <= x <= 'Z' && 'A' <= y <= 'Z' && Lower(x) == Lower(y) {
      assert x as int == y as int;
    }
  }

  /** A wait takes a buffered event exactly if their names differ at most in the case of letters of the alphabet. */
  lemma NamesMeetExactlyWhen(a: string, b: string)
    ensures SameIgnoringCase(a, b) <==> |a| == |b| && forall i :: 0 <= i < |a| ==> SameLetter(a[i], b[i])
  {
    hide SameLetter;
    if |a| == |b| {
      forall i | 0 <= i < |a| ensures Lower(a[i]) == Lower(b[i]) <==> SameLetter(a[i], b[i]) {
        LettersMeetExactlyWhen(a[i], b[i]);
      }
    }
  }

  /** For instance, a wait for "A" takes an "a" that came before it, but is not woken by an
      "a" that comes after it. */
  lemma {:induction false} CaseDecidesByOrder()
    ensures var e := EventRaised(0, "a", "");
            var early := ApplyAll(Initial(true, 1), [Happened(e), Made(WaitForEvent("A", None))]);
            var late := ApplyAll(Initial(true, 1), [Made(WaitForEvent("A", None)), Happened(e)]);
            && |early.board.cells| > 0 && early.board.cells[0].future == Received(e)
            && |late.board.cells| > 0 && late.board.cells[0].future == Pending
  {
    hide ApplyAll, Inv;
    InitialInv(true, 1);
    assert SameIgnoringCase("A", "a");
    RaisedEarly(Initial(true, 1), EventRaised(0, "a", ""), "A");
    RaisedLate(Initial(true, 1), EventRaised(0, "a", ""), "A");
  }
}
