/** Replay of a history that was written before indefinite waits got a guarding timer.
    The engine allocates those timers all the same and, whenever an acknowledgement does
    not fit, drops one and renumbers. This is compared with a machine that never
    allocates them. */
module LegacyReplay {
  import opened WorkflowTypes
  import opened IdTable
  import opened ReplayContext
  import opened ContextInvariant
  import opened Machine

  // ----- a table without its optional timers -----

  predicate IsOptional(e: Entry) { IsOptionalTimer(e.action.body) }

  function FirstOptional(pending: seq<Entry>): (r: nat)
    ensures r <= |pending|
    ensures r < |pending| ==> IsOptional(pending[r])
    ensures forall j :: 0 <= j < r ==> !IsOptional(pending[j])
  {
    if pending == [] || IsOptional(pending[0]) then 0 else 1 + FirstOptional(pending[1..])
  }

  /** Drops every pending optional timer, oldest first, the way the engine drops one. */
  function DropAll(t: Table): Table
    decreases |t.pending|
  {
    var i := FirstOptional(t.pending);
    if i == |t.pending| then t
    else
      DropShortens(t, i);
      DropAll(Drop(t, t.pending[i].key))
  }

  lemma DropShortens(t: Table, i: nat)
    requires i < |t.pending|
    ensures |Drop(t, t.pending[i].key).pending| == |t.pending| - 1
  {
    assert IndexOf(t.pending, t.pending[i].key) <= i;
  }

  lemma FirstOptionalIs(pending: seq<Entry>, i: nat)
    requires i <= |pending| && (forall j :: 0 <= j < i ==> !IsOptional(pending[j]))
    requires i < |pending| ==> IsOptional(pending[i])
    ensures FirstOptional(pending) == i
  {
  }

  // ----- dropping commutes with everything that happens elsewhere -----

  lemma DropThenIssue(t: Table, i: nat, issued: Issuance)
    requires Ordered(t) && i < |t.pending| && IsOptional(t.pending[i])
    ensures Drop(IssueOne(t, issued), t.pending[i].key) == IssueOne(Drop(t, t.pending[i].key), issued)
  {
    hide Remove, RenumberAll, RenumberOpen, Put;
    var at := t.pending[i].key;
    var n := IssueOne(t, issued);
    var d := Drop(t, at);
    IssueAppends(t, issued);
    DropEntries(t, i);
    IssueAppends(d, issued);
    DropEntries(n, i);
    assert Drop(n, at).pending == IssueOne(d, issued).pending;
    if issued.Opened? {
      FreshId(t);
      RenumberAfterOpening(t.open, at, t.next, issued.rec);
    }
  }

  lemma DropThenAllot(t: Table, i: nat, spends: bool, issued: Option<Issuance>)
    requires Ordered(t) && i < |t.pending| && IsOptional(t.pending[i])
    ensures Drop(Allot(t, spends, issued), t.pending[i].key) == Allot(Drop(t, t.pending[i].key), spends, issued)
  {
    hide Remove, RenumberAll, RenumberOpen, IssueOne;
    var u := if spends then Skip(t) else t;
    if issued.Some? {
      DropThenIssue(u, i, issued.value);
    }
  }

  lemma RenumberAfterOpening(open: map<int, Record>, at: int, next: int, rec: Record)
    requires at < next && next !in open && forall id :: id in open ==> id < next
    ensures RenumberOpen(open[next := rec], at) == RenumberOpen(open, at)[next - 1 := rec]
  {
    DownIsBijective(open, at);
    DownIsBijective(open[next := rec], at);
    var l := RenumberOpen(open[next := rec], at);
    var r := RenumberOpen(open, at)[next - 1 := rec];
    forall k ensures k in l <==> k in r {
      if k in l {
        assert Up(at, k) in open[next := rec];
      }
      if k in RenumberOpen(open, at) {
        assert Up(at, k) in open && Down(at, Up(at, k)) == k;
        assert Down(at, Up(at, k)) in l;
      }
      assert Down(at, next) == next - 1;
    }
    forall k | k in l ensures l[k] == r[k] {
    }
  }

  /** New actions of other kinds come out the same with and without the timers. */
  lemma {:induction false} DropAllThenAllot(t: Table, spends: bool, issued: Option<Issuance>)
    requires Ordered(t) && (issued.Some? ==> !IsOptionalTimer(issued.value.body))
    ensures DropAll(Allot(t, spends, issued)) == Allot(DropAll(t), spends, issued)
    decreases |t.pending|
  {
    var i := FirstOptional(t.pending);
    var a := Allot(t, spends, issued);
    var u := if spends then Skip(t) else t;
    FreshId(u);
    assert t.pending <= a.pending;
    if i == |t.pending| {
      FirstOptionalIs(a.pending, |a.pending|);
    } else {
      FirstOptionalIs(a.pending, i);
      assert a.pending[i] == t.pending[i];
      DropThenAllot(t, i, spends, issued);
      DropEntries(t, i);
      DropAllThenAllot(Drop(t, t.pending[i].key), spends, issued);
    }
  }

  /** The timer of an indefinite wait leaves no trace but the wait's own id. */
  lemma DropNewGuard(t: Table, body: ActionBody, rec: Record)
    requires Ordered(t) && IsOptionalTimer(body)
    ensures Drop(Issue(t, body, rec), t.next) == t
  {
    hide Remove, RenumberAll, RenumberOpen, Put;
    var n := IssueOne(t, Opened(body, rec));
    IssueAppends(t, Opened(body, rec));
    DropEntries(n, |t.pending|);
    assert Drop(n, t.next).pending == t.pending;
    RenumberAfterGuard(t.open, t.next, rec);
  }

  lemma {:induction false} DropAllThenGuard(t: Table, body: ActionBody, rec: Record)
    requires Ordered(t) && IsOptionalTimer(body)
    ensures DropAll(Allot(t, true, Some(Opened(body, rec)))) == Allot(DropAll(t), true, None)
    decreases |t.pending|
  {
    hide Drop, IssueOne, Issue;
    var i := FirstOptional(t.pending);
    var issued := Opened(body, rec);
    var a := Allot(t, true, Some(issued));
    IssueAppends(Skip(t), issued);
    assert t.pending <= a.pending;
    assert a.pending[i] == if i < |t.pending| then t.pending[i] else Entry(t.next + 1, Action(t.next + 1, body));
    FirstOptionalIs(a.pending, i);
    assert DropAll(a) == DropAll(Drop(a, a.pending[i].key));
    if i == |t.pending| {
      assert a == Issue(Skip(t), body, rec) by { GuardIsIssued(t, body, rec); }
      DropNewGuard(Skip(t), body, rec);
      FirstOptionalIs(Skip(t).pending, i);
    } else {
      DropThenAllot(t, i, true, Some(issued));
      DropEntries(t, i);
      DropAllThenGuard(Drop(t, t.pending[i].key), body, rec);
    }
  }

  lemma GuardIsIssued(t: Table, body: ActionBody, rec: Record)
    ensures Allot(t, true, Some(Opened(body, rec))) == Issue(Skip(t), body, rec)
  {
  }

  lemma RenumberAfterGuard(open: map<int, Record>, at: int, rec: Record)
    requires forall id :: id in open ==> id < at
    ensures RenumberOpen(open[at := rec], at) == open
  {
    DownIsBijective(open[at := rec], at);
    var l := RenumberOpen(open[at := rec], at);
    forall k ensures k in l <==> k in open {
      if k in open { assert Down(at, k) == k && k in open[at := rec]; }
    }
  }

  predicate BelowOptionals(t: Table, id: int) {
    forall j :: 0 <= j < |t.pending| && IsOptional(t.pending[j]) ==> id < t.pending[j].key
  }

  /** An id below every optional timer is not renumbered. */
  lemma {:induction false} DropAllThenForget(t: Table, id: int)
    requires Ordered(t) && BelowOptionals(t, id)
    ensures DropAll(Forget(t, id)) == Forget(DropAll(t), id)
    ensures id in DropAll(t).open <==> id in t.open
    ensures id in t.open ==> DropAll(t).open[id] == t.open[id]
    decreases |t.pending|
  {
    var i := FirstOptional(t.pending);
    if i < |t.pending| {
      var at := t.pending[i].key;
      assert id < at;
      DropEntries(t, i);
      DownIsBijective(t.open, at);
      DownIsBijective(t.open - {id}, at);
      RenumberAfterForgetting(t.open, at, id);
      assert Drop(Forget(t, id), at) == Forget(Drop(t, at), id);
      assert Down(at, id) == id && Up(at, id) == id;
      DropAllThenForget(Drop(t, at), id);
    }
  }

  lemma RenumberAfterForgetting(open: map<int, Record>, at: int, id: int)
    requires id < at
    ensures RenumberOpen(open - {id}, at) == RenumberOpen(open, at) - {id}
  {
    DownIsBijective(open, at);
    DownIsBijective(open - {id}, at);
    var l := RenumberOpen(open - {id}, at);
    var r := RenumberOpen(open, at) - {id};
    forall k ensures k in l <==> k in r {
      if k in l { assert Up(at, k) in open; assert Down(at, Up(at, k)) in RenumberOpen(open, at); }
      if k in r { assert Up(at, k) in open - {id}; assert Down(at, Up(at, k)) in l; }
    }
  }

  function Tail(t: Table): Table
    requires t.pending != []
  {
    t.(pending := t.pending[1..])
  }

  /** The oldest action keeps its place and number if it is not an optional timer. */
  lemma TailOfDrop(t: Table, i: nat)
    requires Ordered(t) && 0 < i < |t.pending| && IsOptional(t.pending[i])
    ensures |Drop(t, t.pending[i].key).pending| > 0
    ensures Drop(Tail(t), t.pending[i].key) == Tail(Drop(t, t.pending[i].key))
  {
    hide Remove, RenumberAll, RenumberOpen;
    assert t.pending[1..][i - 1] == t.pending[i];
    DropEntries(t, i);
    TailIsOrdered(t);
    DropEntries(Tail(t), i - 1);
    var at := t.pending[i].key;
    assert Drop(Tail(t), at).pending == Drop(t, at).pending[1..];
  }

  lemma {:induction false} DropAllThenTail(t: Table)
    requires Ordered(t) && t.pending != [] && !IsOptional(t.pending[0])
    ensures DropAll(t).pending != [] && DropAll(t).pending[0] == t.pending[0]
    ensures DropAll(Tail(t)) == Tail(DropAll(t))
    decreases |t.pending|
  {
    hide Remove, RenumberAll, RenumberOpen;
    var i := FirstOptional(t.pending);
    FirstOptionalIs(t.pending[1..], i - 1);
    if i < |t.pending| {
      var at := t.pending[i].key;
      assert t.pending[1..][i - 1] == t.pending[i];
      DropEntries(t, i);
      TailOfDrop(t, i);
      DropAllThenTail(Drop(t, at));
    }
  }

  lemma TailIsOrdered(t: Table)
    requires Ordered(t) && t.pending != []
    ensures Ordered(Tail(t))
  {
  }

  // ----- the shape that makes renumbering possible -----

  /** Each optional timer is directly followed by an action of another kind, or nothing
      has been issued since. */
  ghost predicate Guarded(t: Table) {
    && (forall i :: 0 <= i < |t.pending| - 1 && IsOptional(t.pending[i]) ==>
          t.pending[i + 1].key == t.pending[i].key + 1 && !IsOptional(t.pending[i + 1]))
    && (t.pending != [] && IsOptional(t.pending[|t.pending| - 1]) ==> t.pending[|t.pending| - 1].key + 1 == t.next)
  }

  /** The last id that was issued belongs to an optional timer that is still pending. */
  predicate TrailingOptional(t: Table) {
    t.pending != [] && IsOptional(t.pending[|t.pending| - 1]) && t.pending[|t.pending| - 1].key + 1 == t.next
  }

  lemma AllotKeepsGuarded(t: Table, spends: bool, issued: Option<Issuance>)
    requires Ordered(t) && Guarded(t) && (spends ==> !TrailingOptional(t))
    requires issued.Some? && IsOptionalTimer(issued.value.body) ==> spends
    ensures Guarded(Allot(t, spends, issued)) && Ordered(Allot(t, spends, issued))
  {
    hide Put;
    var u := if spends then Skip(t) else t;
    assert Guarded(u);
    if issued.Some? {
      IssueAppends(u, issued.value);
      IssueKeepsGuarded(u, IssueOne(u, issued.value), issued.value.body);
    }
  }

  lemma IssueKeepsGuarded(u: Table, d: Table, body: ActionBody)
    requires Guarded(u) && (IsOptionalTimer(body) ==> !TrailingOptional(u)) && d.next == u.next + 1
    requires d.pending == u.pending + [Entry(u.next, Action(u.next, body))]
    ensures Guarded(d)
  {
    forall i | 0 <= i < |d.pending| - 1 && IsOptional(d.pending[i])
      ensures d.pending[i + 1].key == d.pending[i].key + 1 && !IsOptional(d.pending[i + 1])
    {
      assert d.pending[i] == u.pending[i];
      if i + 1 < |u.pending| {
        assert d.pending[i + 1] == u.pending[i + 1];
      }
    }
  }

  lemma TailKeepsGuarded(t: Table)
    requires Ordered(t) && Guarded(t) && t.pending != []
    ensures Guarded(Tail(t)) && Ordered(Tail(t))
  {
    TailIsOrdered(t);
    var d := Tail(t);
    forall i | 0 <= i < |d.pending| - 1 && IsOptional(d.pending[i])
      ensures d.pending[i + 1].key == d.pending[i].key + 1 && !IsOptional(d.pending[i + 1])
    {
      assert d.pending[i] == t.pending[i + 1] && d.pending[i + 1] == t.pending[i + 2];
    }
  }

  lemma DropHeadKeepsGuarded(t: Table)
    requires Ordered(t) && Guarded(t) && t.pending != [] && IsOptional(t.pending[0])
    ensures Guarded(Drop(t, t.pending[0].key)) && Ordered(Drop(t, t.pending[0].key))
  {
    hide Remove, RenumberAll, RenumberOpen;
    DropEntries(t, 0);
    var d := Drop(t, t.pending[0].key);
    assert forall i :: 0 <= i < |d.pending| ==> IsOptional(d.pending[i]) == IsOptional(t.pending[i + 1]);
  }

  /** With the oldest optional timer in front, the next action takes its id. */
  lemma DropAllHead(t: Table)
    requires Ordered(t) && Guarded(t) && DropAll(t).pending != []
    ensures t.pending != []
    ensures IsOptional(t.pending[0]) ==>
              && |t.pending| > 1 && t.pending[1].key == t.pending[0].key + 1 && !IsOptional(t.pending[1])
              && DropAll(t).pending[0].key == t.pending[0].key
              && DropAll(t).pending[0].action.body == t.pending[1].action.body
    ensures !IsOptional(t.pending[0]) ==> DropAll(t).pending[0] == t.pending[0]
  {
    hide Remove, RenumberAll, RenumberOpen;
    if t.pending != [] && IsOptional(t.pending[0]) {
      var d := Drop(t, t.pending[0].key);
      DropEntries(t, 0);
      assert DropAll(t) == DropAll(d);
      if |t.pending| > 1 {
        assert IsOptional(d.pending[0]) == IsOptional(t.pending[1]);
        DropAllThenTail(d);
      }
    } else if t.pending != [] {
      DropAllThenTail(t);
    }
  }

  // ----- what a legacy history brings -----

  /** An id that was acknowledged: it was issued, and it is not pending any more, nor is
      any id before it. */
  predicate IsAcknowledged(t: Table, id: int) {
    id < t.next && (t.pending == [] || id < t.pending[0].key)
  }

  predicate Fits(e: Event, body: ActionBody)
    requires IsAcknowledgement(e)
  {
    match e
    case TaskScheduled(_) => body.ScheduleTask?
    case ChildCreated(_) => body.CreateChild?
    case TimerCreated(_, _, _) => body.CreateTimer? && !IsOptionalTimerEvent(e)
  }

  /** Acknowledgements come oldest action first and none is for a synthetic timer;
      completions are for ids acknowledged before; no sub-timer that is issued looks like
      a synthetic timer. */
  predicate LegacyEvent(leg: Ctx, e: Event) {
    if IsAcknowledgement(e) then
      leg.ids.pending != [] && e.eventId == leg.ids.pending[0].key && Fits(e, leg.ids.pending[0].action.body)
    else if Ending(e).Some? then
      var (id, o) := Ending(e).value;
      && IsAcknowledged(leg.ids, id)
      && (id in leg.ids.open ==> NotOptional(EndRecord(leg.env, leg.board, leg.ids.open[id], o).issued))
    else true
  }

  predicate NotOptional(i: Option<Issuance>) {
    i.Some? ==> !IsOptionalTimer(i.value.body)
  }

  /** The same for events that may be held, or release held ones. */
  predicate LegacyInput(leg: Ctx, e: Event) {
    if leg.suspended && !e.ExecutionResumed? && !e.ExecutionTerminated? then true
    else if e.ExecutionResumed? then LegacyDrain(leg.(suspended := false))
    else LegacyEvent(leg, e)
  }

  predicate LegacyDrain(leg: Ctx)
    decreases |leg.held|
  {
    if leg.held == [] then true
    else
      var d := leg.(held := leg.held[1..]);
      HandleKeepsHeld(d, leg.held[0]);
      LegacyEvent(d, leg.held[0]) && (!Handle(d, leg.held[0]).threw ==> LegacyDrain(Handle(d, leg.held[0]).ctx))
  }

  /** An indefinite wait that finds nothing buffered: the kind that has a synthetic timer
      in the engine of today. */
  predicate Parks(leg: Ctx, call: Call) {
    && call.WaitForEvent? && !leg.isComplete
    && IsInfiniteTimeout(call.timeout) && FindBuffered(leg.board.waits.unprocessed, call.event) == |leg.board.waits.unprocessed|
  }

  /** No wait directly after a parked one (`parked`: nothing has been issued since one
      parked), and no timer that looks like a synthetic one. */
  predicate LegacyCall(leg: Ctx, parked: bool, call: Call) {
    !leg.isComplete ==> (call.WaitForEvent? ==> !parked) && NotOptional(Perform(leg.env, leg.board, call).issued)
  }

  // ----- the relation -----

  /** The engine's state is the legacy state plus some optional timers that are pending. */
  ghost predicate Related(cur: Ctx, leg: Ctx) {
    && leg == cur.(ids := DropAll(cur.ids), env := cur.env.(synthetic := false))
    && cur.env.synthetic
    && Inv(cur)
    && Guarded(cur.ids)
  }

  /** A change that does not leave a synthetic timer as the last thing issued, unless it
      was that before and nothing was issued. */
  ghost predicate AddsNoTrailing(cur: Ctx, cur': Ctx, leg: Ctx, leg': Ctx) {
    TrailingOptional(cur'.ids) ==> TrailingOptional(cur.ids) && leg'.ids.next == leg.ids.next
  }

  lemma TrailingAfterAllot(t: Table, spends: bool, issued: Option<Issuance>)
    requires Ordered(t) && TrailingOptional(Allot(t, spends, issued))
    ensures (issued.Some? && IsOptionalTimer(issued.value.body)) || (!spends && issued.None? && TrailingOptional(t))
  {
    hide Put;
    var u := if spends then Skip(t) else t;
    if issued.Some? {
      IssueAppends(u, issued.value);
    }
  }

  lemma WaitParks(cur: Ctx, leg: Ctx, name: string, timeout: Option<int>)
    requires leg.board == cur.board && leg.env == cur.env.(synthetic := false) && !leg.isComplete
    requires NotOptional(Wait(leg.env, leg.board, name, timeout).issued)
    ensures var i := Wait(cur.env, cur.board, name, timeout).issued;
            i.Some? && IsOptionalTimer(i.value.body) ==> Parks(leg, WaitForEvent(name, timeout))
    ensures Wait(cur.env, cur.board, name, timeout).spends
  {
    hide FindBuffered, ParkWait, NewGuard;
  }

  lemma WaitRelates(cur: Ctx, leg: Ctx, name: string, timeout: Option<int>)
    requires Related(cur, leg) && !TrailingOptional(cur.ids)
    requires NotOptional(Wait(leg.env, leg.board, name, timeout).issued)
    ensures var n := Wait(cur.env, cur.board, name, timeout);
            var o := Wait(leg.env, leg.board, name, timeout);
            && n.board == o.board
            && DropAll(Allot(cur.ids, n.spends, n.issued)) == Allot(leg.ids, o.spends, o.issued)
            && Guarded(Allot(cur.ids, n.spends, n.issued))
  {
    hide Inv, DropAll, Guarded, Allot, FindBuffered, TrailingOptional;
    var n := Wait(cur.env, cur.board, name, timeout);
    InvParts(cur);
    AllotKeepsGuarded(cur.ids, n.spends, n.issued);
    if n.issued.Some? && IsOptionalTimer(n.issued.value.body) {
      DropAllThenGuard(cur.ids, n.issued.value.body, n.issued.value.rec);
    } else {
      DropAllThenAllot(cur.ids, n.spends, n.issued);
    }
  }

  lemma CallRelates(cur: Ctx, leg: Ctx, parked: bool, call: Call)
    requires Related(cur, leg) && LegacyCall(leg, parked, call) && (TrailingOptional(cur.ids) ==> parked)
    ensures Related(Attempt(cur, call), Attempt(leg, call))
    ensures Parks(leg, call) || AddsNoTrailing(cur, Attempt(cur, call), leg, Attempt(leg, call))
  {
    hide Inv, DropAll, Guarded, Allot, Wait, TrailingOptional, NewTimer, Parks;
    CallKeepsInv(cur, call);
    if !cur.isComplete {
      InvParts(cur);
      var n := Perform(cur.env, cur.board, call);
      var o := Perform(leg.env, leg.board, call);
      if TrailingOptional(Allot(cur.ids, n.spends, n.issued)) {
        TrailingAfterAllot(cur.ids, n.spends, n.issued);
      }
      if call.WaitForEvent? {
        WaitRelates(cur, leg, call.event, call.timeout);
        WaitParks(cur, leg, call.event, call.timeout);
      } else {
        TimerIgnoresSynthetic(cur.env, cur.board, call);
        AllotKeepsGuarded(cur.ids, n.spends, n.issued);
        DropAllThenAllot(cur.ids, n.spends, n.issued);
      }
    }
  }

  lemma TimerIgnoresSynthetic(env: Env, b: Board, call: Call)
    requires !call.WaitForEvent?
    ensures Perform(env, b, call) == Perform(env.(synthetic := false), b, call)
    ensures !Perform(env, b, call).spends && Perform(env, b, call).issued.Some?
  {
  }

  lemma CloseRelates(cur: Ctx, leg: Ctx, status: Status, output: string, carryover: set<Event>)
    requires Related(cur, leg)
    ensures Related(Close(cur, status, output, carryover), Close(leg, status, output, carryover))
    ensures var cur', leg' := Close(cur, status, output, carryover), Close(leg, status, output, carryover);
            AddsNoTrailing(cur, cur', leg, leg')
  {
    hide Inv, DropAll, Guarded, TrailingOptional;
    ApplyKeepsInv(cur, Closed(status, output, carryover));
    InvParts(cur);
    var issued := Some(Quiet(CompleteWorkflow(status, output, carryover)));
    if TrailingOptional(Allot(cur.ids, false, issued)) {
      TrailingAfterAllot(cur.ids, false, issued);
    }
    AllotKeepsGuarded(cur.ids, false, issued);
    DropAllThenAllot(cur.ids, false, issued);
  }

  lemma BelowOldestOptional(t: Table, id: int)
    requires Ordered(t) && Guarded(t) && IsAcknowledged(DropAll(t), id)
    ensures BelowOptionals(t, id)
  {
    hide Remove, RenumberAll, RenumberOpen;
    if DropAll(t).pending != [] {
      DropAllHead(t);
    } else {
      NothingLeft(t);
    }
  }

  /** If dropping the optional timers leaves nothing, there was at most one, just issued. */
  lemma NothingLeft(t: Table)
    requires Ordered(t) && Guarded(t) && DropAll(t).pending == []
    ensures t.pending == [] || (|t.pending| == 1 && DropAll(t).next == t.pending[0].key)
  {
    hide Remove, RenumberAll, RenumberOpen;
    if t.pending != [] {
      if !IsOptional(t.pending[0]) {
        DropAllThenTail(t);
      } else {
        DropEntries(t, 0);
        var d := Drop(t, t.pending[0].key);
        if |t.pending| > 1 {
          assert !IsOptional(d.pending[0]);
          DropAllThenTail(d);
        } else {
          FirstOptionalIs(d.pending, 0);
        }
      }
    }
  }

  lemma EndRecordIgnoresSynthetic(env: Env, b: Board, rec: Record, o: Outcome)
    ensures EndRecord(env, b, rec, o) == EndRecord(env.(synthetic := false), b, rec, o)
    ensures !EndRecord(env, b, rec, o).spends
  {
  }

  /** A completion reaches the same task in both machines. */
  lemma {:induction false} EndTaskRelates(cur: Ctx, leg: Ctx, id: int, o: Outcome)
    requires Related(cur, leg) && IsAcknowledged(leg.ids, id) && !o.Pending?
    requires id in leg.ids.open ==> NotOptional(EndRecord(leg.env, leg.board, leg.ids.open[id], o).issued)
    ensures id in cur.ids.open <==> id in leg.ids.open
    ensures id in cur.ids.open ==> cur.ids.open[id] == leg.ids.open[id]
    ensures Related(EndTask(cur, id, o), EndTask(leg, id, o))
    ensures AddsNoTrailing(cur, EndTask(cur, id, o), leg, EndTask(leg, id, o))
  {
    hide Inv, DropAll, Guarded, Allot, EndRecord, TrailingOptional;
    InvParts(cur);
    EndTaskKeepsInv(cur, id, o);
    BelowOldestOptional(cur.ids, id);
    DropAllThenForget(cur.ids, id);
    if id in cur.ids.open {
      var rec := cur.ids.open[id];
      EndRecordIgnoresSynthetic(cur.env, cur.board, rec, o);
      var e := EndRecord(cur.env, cur.board, rec, o);
      var t := Forget(cur.ids, id);
      assert Ordered(t);
      ForgetKeepsGuarded(cur.ids, id);
      AllotKeepsGuarded(t, e.spends, e.issued);
      DropAllThenAllot(t, e.spends, e.issued);
      if TrailingOptional(Allot(t, e.spends, e.issued)) {
        TrailingAfterAllot(t, e.spends, e.issued);
        QuietEnding(cur, leg, id, o);
      }
    }
  }

  lemma QuietEnding(cur: Ctx, leg: Ctx, id: int, o: Outcome)
    requires id in leg.ids.open && EndRecord(leg.env, leg.board, leg.ids.open[id], o).issued.None?
    requires !EndRecord(leg.env, leg.board, leg.ids.open[id], o).spends && TrailingOptional(Forget(cur.ids, id))
    ensures EndTask(leg, id, o).ids.next == leg.ids.next && TrailingOptional(cur.ids)
  {
    hide EndRecord;
  }

  lemma ForgetKeepsGuarded(t: Table, id: int)
    requires Guarded(t)
    ensures Guarded(Forget(t, id))
  {
  }

  /** Acknowledging the oldest action, after dropping the optional timer in front of it
      if there is one. */
  lemma HeadIsFound(t: Table)
    requires t.pending != []
    ensures Lookup(t.pending, t.pending[0].key) == Some(t.pending[0].action.body)
    ensures OptionalAt(t, t.pending[0].key) == IsOptional(t.pending[0])
    ensures Remove(t.pending, t.pending[0].key) == t.pending[1..]
  {
  }

  lemma AckHead(t: Table, e: Event)
    requires Ordered(t) && IsAcknowledgement(e) && t.pending != []
    requires e.eventId == t.pending[0].key && Fits(e, t.pending[0].action.body) && !IsOptional(t.pending[0])
    ensures Acknowledge(t, e) == Acked(Tail(t), false)
  {
    hide Lookup, Remove, Drop, OptionalAt;
    HeadIsFound(t);
  }

  lemma AckBehindOptional(t: Table, e: Event)
    requires Ordered(t) && IsAcknowledgement(e) && t.pending != []
    requires e.eventId == t.pending[0].key && IsOptional(t.pending[0])
    requires var d := Drop(t, t.pending[0].key);
             d.pending != [] && d.pending[0].key == e.eventId && Fits(e, d.pending[0].action.body)
    ensures Acknowledge(t, e) == Acked(Tail(Drop(t, t.pending[0].key)), false)
  {
    hide Lookup, Remove, Drop, OptionalAt;
    var d := Drop(t, t.pending[0].key);
    HeadIsFound(t);
    HeadIsFound(d);
  }

  /** What acknowledging the oldest legacy action does to the table that has the optional
      timers as well. */
  lemma AckEffect(t: Table, e: Event) returns (u: Table)
    requires Ordered(t) && Guarded(t) && IsAcknowledgement(e) && DropAll(t).pending != []
    requires e.eventId == DropAll(t).pending[0].key && Fits(e, DropAll(t).pending[0].action.body)
    ensures Acknowledge(t, e) == Acked(u, false)
    ensures DropAll(u) == Tail(DropAll(t)) && Guarded(u) && (TrailingOptional(u) ==> TrailingOptional(t))
  {
    hide DropAll, Guarded, Drop, Acknowledge, TrailingOptional;
    DropAllHead(t);
    if IsOptional(t.pending[0]) {
      var d := Drop(t, t.pending[0].key);
      DropEntries(t, 0);
      DropHeadKeepsGuarded(t);
      assert DropAll(t) == DropAll(d) by { DropAllDropsFirst(t); }
      AckBehindOptional(t, e);
      DropAllThenTail(d);
      TailKeepsGuarded(d);
      TrailingInTail(d);
      TrailingAfterDrop(t);
      u := Tail(d);
    } else {
      AckHead(t, e);
      DropAllThenTail(t);
      TailKeepsGuarded(t);
      TrailingInTail(t);
      u := Tail(t);
    }
  }

  lemma {:induction false} AcknowledgeRelates(cur: Ctx, leg: Ctx, e: Event)
    requires Related(cur, leg) && IsAcknowledgement(e) && LegacyEvent(leg, e)
    ensures Related(Handle(cur, e).ctx, Handle(leg, e).ctx)
    ensures !Handle(cur, e).threw && !Handle(leg, e).threw
    ensures AddsNoTrailing(cur, Handle(cur, e).ctx, leg, Handle(leg, e).ctx)
  {
    hide Inv, DropAll, Guarded, Acknowledge, TrailingOptional, Ordered;
    HandleKeepsInv(cur, e);
    InvParts(cur);
    DropAllIsOrdered(cur.ids);
    HeadIsReal(cur.ids);
    AckHead(leg.ids, e);
    var u := AckEffect(cur.ids, e);
  }

  lemma HeadIsReal(t: Table)
    requires Ordered(t) && Guarded(t) && DropAll(t).pending != []
    ensures !IsOptional(DropAll(t).pending[0])
  {
    hide DropAll;
    DropAllHead(t);
  }

  lemma TrailingInTail(t: Table)
    requires t.pending != []
    ensures TrailingOptional(Tail(t)) ==> TrailingOptional(t)
  {
  }

  lemma TrailingAfterDrop(t: Table)
    requires Ordered(t) && t.pending != [] && IsOptional(t.pending[0])
    ensures TrailingOptional(Drop(t, t.pending[0].key)) ==> TrailingOptional(t)
  {
    hide Drop;
    DropEntries(t, 0);
  }

  lemma DropAllDropsFirst(t: Table)
    requires t.pending != [] && IsOptional(t.pending[0])
    ensures DropAll(t) == DropAll(Drop(t, t.pending[0].key))
  {
  }

  lemma {:induction false} DropAllIsOrdered(t: Table)
    requires Ordered(t)
    ensures Ordered(DropAll(t))
    decreases |t.pending|
  {
    hide Remove, RenumberAll, RenumberOpen;
    var i := FirstOptional(t.pending);
    if i < |t.pending| {
      DropEntries(t, i);
      DropAllIsOrdered(Drop(t, t.pending[i].key));
    }
  }

  lemma HandleRelates(cur: Ctx, leg: Ctx, e: Event)
    requires Related(cur, leg) && LegacyEvent(leg, e)
    ensures Related(Handle(cur, e).ctx, Handle(leg, e).ctx)
    ensures Handle(cur, e).threw == Handle(leg, e).threw
    ensures IsAcknowledgement(e) ==> !Handle(cur, e).threw
    ensures AddsNoTrailing(cur, Handle(cur, e).ctx, leg, Handle(leg, e).ctx)
  {
    hide Inv, DropAll, Guarded, EndTask, Acknowledge, RaiseEvent, TrailingOptional;
    HandleKeepsInv(cur, e);
    if IsAcknowledgement(e) {
      AcknowledgeRelates(cur, leg, e);
    } else if Ending(e).Some? {
      EndTaskRelates(cur, leg, Ending(e).value.0, Ending(e).value.1);
    } else if e.ExecutionTerminated? && !cur.isComplete {
      CloseRelates(cur, leg, TERMINATED, e.output, {});
    }
  }

  lemma {:induction false} DrainRelates(cur: Ctx, leg: Ctx)
    requires Related(cur, leg) && LegacyDrain(leg)
    ensures Related(Drain(cur).ctx, Drain(leg).ctx) && Drain(cur).threw == Drain(leg).threw
    ensures AddsNoTrailing(cur, Drain(cur).ctx, leg, Drain(leg).ctx)
    decreases |leg.held|
  {
    hide Inv, DropAll, Guarded, Handle, LegacyEvent, TrailingOptional;
    if leg.held != [] {
      var e := leg.held[0];
      var n := cur.(held := cur.held[1..]);
      var o := leg.(held := leg.held[1..]);
      FewerHeld(cur);
      HandleRelates(n, o, e);
      HandleKeepsHeld(n, e);
      HandleKeepsHeld(o, e);
      if !Handle(o, e).threw {
        DrainRelates(Handle(n, e).ctx, Handle(o, e).ctx);
      }
    }
  }

  lemma ProcessRelates(cur: Ctx, leg: Ctx, e: Event)
    requires Related(cur, leg) && LegacyInput(leg, e)
    ensures Related(ProcessEvent(cur, e).ctx, ProcessEvent(leg, e).ctx)
    ensures ProcessEvent(cur, e).threw == ProcessEvent(leg, e).threw
    ensures AddsNoTrailing(cur, ProcessEvent(cur, e).ctx, leg, ProcessEvent(leg, e).ctx)
  {
    hide Inv, DropAll, Guarded, Handle, Drain, LegacyEvent, LegacyDrain, TrailingOptional;
    ProcessKeepsInv(cur, e);
    if cur.suspended && !e.ExecutionResumed? && !e.ExecutionTerminated? {
    } else if e.ExecutionResumed? {
      assert Inv(cur.(suspended := false)) by { Unsuspended(cur); }
      DrainRelates(cur.(suspended := false), leg.(suspended := false));
    } else {
      HandleRelates(cur, leg, e);
    }
  }

  // ----- lockstep -----

  ghost predicate RelatedM(cur: M, leg: M, parked: bool) {
    && Related(cur.ctx, leg.ctx)
    && (TrailingOptional(cur.ctx.ids) ==> parked)
    && cur.mode == leg.mode && cur.trace == leg.trace && cur.hist == leg.hist
  }

  /** What one step of the legacy machine must respect: its call, or the event it takes. */
  predicate LegacyStep(p: Program, leg: M, parked: bool) {
    if leg.mode.Running? then p(leg.trace).Do? ==> LegacyCall(leg.ctx, parked, p(leg.trace).call)
    else
      var h := MoveOn(leg.hist);
      TakesEvents(leg) && h.index < |Current(h)| ==> LegacyInput(leg.ctx, Current(h)[h.index])
  }

  /** Whether, after the step, a parked wait is the last thing that took an id. */
  predicate StillParked(p: Program, leg: M, parked: bool)
    requires !Halted(p, leg)
  {
    || (leg.mode.Running? && p(leg.trace).Do? && Parks(leg.ctx, p(leg.trace).call))
    || (parked && Step(p, leg).value.ctx.ids.next == leg.ctx.ids.next)
  }

  lemma ExecuteRelates(p: Program, cur: M, leg: M, parked: bool)
    requires RelatedM(cur, leg, parked) && leg.mode.Running? && LegacyStep(p, leg, parked)
    ensures RelatedM(Execute(cur, p(leg.trace)), Execute(leg, p(leg.trace)), StillParked(p, leg, parked))
  {
    hide Inv, DropAll, Guarded, Attempt, Close, LegacyCall, TrailingOptional, Parks;
    match p(leg.trace) {
      case Do(call) => CallRelates(cur.ctx, leg.ctx, parked, call);
      case ContinueAsNew(input, preserve) =>
        CloseRelates(cur.ctx, leg.ctx, CONTINUED_AS_NEW, input, if preserve then Carryover(cur.ctx, cur.hist) else {});
      case Throw(details) => CloseRelates(cur.ctx, leg.ctx, FAILED, details, {});
      case IsPatched(name) => assert Inv(AskPatch(cur.ctx, name, !cur.hist.onArrived)) by {
        ApplyKeepsInv(cur.ctx, Asked(name, !cur.hist.onArrived));
      }
      case _ =>
    }
  }

  lemma ReceiveRelates(cur: M, leg: M, parked: bool, e: Event)
    requires RelatedM(cur, leg, parked) && LegacyInput(leg.ctx, e)
    ensures RelatedM(Receive(cur, e), Receive(leg, e), parked && Receive(leg, e).ctx.ids.next == leg.ctx.ids.next)
  {
    hide Inv, DropAll, Guarded, LegacyInput, ProcessEvent, Close, TrailingOptional;
    ProcessRelates(cur.ctx, leg.ctx, e);
    CloseRelates(ProcessEvent(cur.ctx, e).ctx, ProcessEvent(leg.ctx, e).ctx, FAILED, "", {});
  }

  lemma StepRelates(p: Program, cur: M, leg: M, parked: bool)
    requires RelatedM(cur, leg, parked) && LegacyStep(p, leg, parked)
    ensures Halted(p, cur) == Halted(p, leg)
    ensures !Halted(p, leg) ==> RelatedM(Step(p, cur).value, Step(p, leg).value, StillParked(p, leg, parked))
  {
    hide Inv, DropAll, Guarded, Execute, Receive, LegacyCall, LegacyInput, TrailingOptional, Parks;
    if leg.mode.Running? {
      ExecuteRelates(p, cur, leg, parked);
    } else if TakesEvents(leg) {
      var h := MoveOn(leg.hist);
      if h.index < |Current(h)| {
        var h' := h.(index := h.index + 1);
        ReceiveRelates(cur.(hist := h'), leg.(hist := h'), parked, Current(h)[h.index]);
      }
    }
  }

  /** Each of the next n steps respects the conditions. */
  ghost predicate LegacyRun(p: Program, leg: M, parked: bool, n: nat)
    decreases n
  {
    n > 0 && !Halted(p, leg) ==>
      LegacyStep(p, leg, parked) && LegacyRun(p, Step(p, leg).value, StillParked(p, leg, parked), n - 1)
  }

  /** Whether a parked wait is the last thing that took an id after n steps. */
  ghost predicate ParkedAfter(p: Program, leg: M, parked: bool, n: nat)
    decreases n
  {
    if n == 0 || Halted(p, leg) then parked
    else ParkedAfter(p, Step(p, leg).value, StillParked(p, leg, parked), n - 1)
  }

  lemma OnlyEventTimersRelates(t: Table)
    requires Ordered(t)
    ensures OnlyEventTimers(t.pending) <==> OnlyEventTimers(DropAll(t).pending)
    decreases |t.pending|
  {
    hide Remove, RenumberAll, RenumberOpen;
    var i := FirstOptional(t.pending);
    if i < |t.pending| {
      DropEntries(t, i);
      var d := Drop(t, t.pending[i].key);
      OneTimerLess(t.pending, i, d.pending);
      OnlyEventTimersRelates(d);
    }
  }

  lemma OneTimerLess(pending: seq<Entry>, i: nat, rest: seq<Entry>)
    requires i < |pending| && IsOptional(pending[i]) && |rest| == |pending| - 1
    requires forall j :: 0 <= j < i ==> rest[j].action.body == pending[j].action.body
    requires forall j :: i <= j < |rest| ==> rest[j].action.body == pending[j + 1].action.body
    ensures OnlyEventTimers(pending) <==> OnlyEventTimers(rest)
  {
    if OnlyEventTimers(rest) {
      forall j | 0 <= j < |pending|
        ensures pending[j].action.body.CreateTimer? && pending[j].action.body.origin.ExternalEvent?
      {
        if j != i {
          var k := if j < i then j else j - 1;
          assert rest[k].action.body == pending[j].action.body;
        }
      }
    }
  }

  lemma EndTurnRelates(cur: M, leg: M, parked: bool)
    requires RelatedM(cur, leg, parked)
    ensures Related(EndTurn(cur), EndTurn(leg))
  {
    hide Inv, DropAll, Guarded;
    InvParts(cur.ctx);
    OnlyEventTimersRelates(cur.ctx.ids);
    CloseRelates(cur.ctx, leg.ctx, COMPLETED, "", {});
  }

  lemma {:induction false} StaysRelated(p: Program, cur: M, leg: M, parked: bool, n: nat, last: M) returns (last': M)
    requires RelatedM(cur, leg, parked) && Reaches(p, leg, n, last) && LegacyRun(p, leg, parked, n)
    ensures Reaches(p, cur, n, last') && RelatedM(last', last, ParkedAfter(p, leg, parked, n))
    ensures Related(EndTurn(last'), EndTurn(last))
    decreases n
  {
    hide Step, RelatedM, LegacyStep, StillParked;
    if n == 0 {
      last' := cur;
      EndTurnRelates(cur, leg, parked);
    } else {
      StepRelates(p, cur, leg, parked);
      last' := StaysRelated(p, Step(p, cur).value, Step(p, leg).value, StillParked(p, leg, parked), n - 1, last);
    }
  }

  lemma StartRelates(maxInterval: int, past: seq<Event>, arrived: seq<Event>)
    ensures RelatedM(Start(Initial(true, maxInterval), past, arrived), Start(Initial(false, maxInterval), past, arrived), false)
  {
    InitialInv(true, maxInterval);
    FirstOptionalIs([], 0);
  }

  /** Replaying a legacy history, the engine goes through the very states of the machine
      that never had those timers: same replies, same tasks, same waits, no
      acknowledgement refused, and the same pending actions once the optional timers are
      dropped. */
  lemma {:induction false} LegacyReplay(p: Program, maxInterval: int, past: seq<Event>, arrived: seq<Event>, n: nat, last: M)
    returns (last': M)
    requires Reaches(p, Start(Initial(false, maxInterval), past, arrived), n, last)
    requires LegacyRun(p, Start(Initial(false, maxInterval), past, arrived), false, n)
    ensures Reaches(p, Start(Initial(true, maxInterval), past, arrived), n, last')
    ensures Related(last'.ctx, last.ctx) && last'.mode == last.mode && last'.trace == last.trace && last'.hist == last.hist
    ensures Related(EndTurn(last'), EndTurn(last))
  {
    hide Step, LegacyRun, Related;
    StartRelates(maxInterval, past, arrived);
    last' := StaysRelated(p, Start(Initial(true, maxInterval), past, arrived),
                          Start(Initial(false, maxInterval), past, arrived), false, n, last);
  }

  // ----- when a legacy acknowledgement is accepted at all -----

  /** The oldest real action is behind k optional timers, so legacy histories number it k
      lower. Its acknowledgement is accepted exactly when there is no such timer, or one
      that directly precedes it: the engine drops a single timer, and only at that id. */
  lemma {:induction false} AcceptedExactlyWhenAdjacent(t: Table, k: nat, e: Event)
    requires Ordered(t) && k < |t.pending| && (forall j :: 0 <= j < k ==> IsOptional(t.pending[j]))
    requires e.TaskScheduled? || e.ChildCreated?
    requires Fits(e, t.pending[k].action.body) && e.eventId == t.pending[k].key - k
    ensures !Acknowledge(t, e).threw <==> k == 0 || (k == 1 && t.pending[0].key + 1 == t.pending[1].key)
  {
    hide Remove, Drop;
    var id := e.eventId;
    if k == 0 {
      AckHead(t, e);
    } else {
      var i := IndexOf(t.pending, id);
      if i < |t.pending| {
        assert i < k;
        LookupAfterDrop(t, i);
        if i > 0 || k > 1 { GapBelow(t.pending, i, k); }
      }
    }
  }

  /** The same for a timer. Here the engine does not look whether what it finds is a
      synthetic timer, so it also accepts when two of those have adjacent ids, at the
      acknowledged one; otherwise the condition is that for the other actions. */
  lemma {:induction false} TimerAcceptedExactlyWhen(t: Table, k: nat, e: Event)
    requires Ordered(t) && k < |t.pending| && (forall j :: 0 <= j < k ==> IsOptional(t.pending[j]))
    requires e.TimerCreated? && Fits(e, t.pending[k].action.body) && !IsOptional(t.pending[k])
    requires e.eventId == t.pending[k].key - k
    ensures !Acknowledge(t, e).threw
            <==> k == 0 || exists i :: 0 <= i < k && t.pending[i].key == e.eventId && t.pending[i + 1].key == e.eventId + 1
    ensures (forall i :: 0 <= i < k - 1 ==> t.pending[i + 1].key != t.pending[i].key + 1) ==>
              (!Acknowledge(t, e).threw <==> k == 0 || (k == 1 && t.pending[0].key + 1 == t.pending[1].key))
  {
    hide Acknowledge, Ordered, Lookup, Remove;
    KeysAscend(t);
    GapBelow(t.pending, 0, k);
    if k == 0 {
      AckHead(t, e);
    } else {
      var i := IndexOf(t.pending, e.eventId);
      if i < |t.pending| {
        KeysAscend(t);
        assert i < k;
        TimerAck(t, i, e);
        assert k > 1 ==> (i + 1 == k ==> t.pending[k].key != e.eventId + 1);
      } else {
        TimerAckOfNothing(t, e);
      }
    }
  }

  ghost predicate Ascending(pending: seq<Entry>) {
    forall i, j :: 0 <= i < j < |pending| ==> pending[i].key < pending[j].key
  }

  lemma KeysAscend(t: Table)
    requires Ordered(t)
    ensures Ascending(t.pending) && forall i :: 0 <= i < |t.pending| ==> t.pending[i].key >= 0
  {
  }

  lemma TimerAck(t: Table, i: nat, e: Event)
    requires e.TimerCreated? && !IsOptionalTimerEvent(e)
    requires Ordered(t) && i < |t.pending| && IsOptional(t.pending[i]) && t.pending[i].key == e.eventId
    ensures !Acknowledge(t, e).threw
            <==> i + 1 < |t.pending| && t.pending[i + 1].key == e.eventId + 1 && t.pending[i + 1].action.body.CreateTimer?
  {
    hide Drop, Remove;
    IndexOfKey(t.pending, i);
    LookupAfterDrop(t, i);
  }

  lemma TimerAckOfNothing(t: Table, e: Event)
    requires e.TimerCreated? && e.eventId >= 0 && IndexOf(t.pending, e.eventId) == |t.pending|
    ensures Acknowledge(t, e).threw
  {
  }

  lemma LookupAfterDrop(t: Table, i: nat)
    requires Ordered(t) && i < |t.pending| && IsOptional(t.pending[i])
    ensures Lookup(Drop(t, t.pending[i].key).pending, t.pending[i].key)
         == if i + 1 < |t.pending| && t.pending[i + 1].key == t.pending[i].key + 1 then Some(t.pending[i + 1].action.body)
            else None
  {
    hide Remove, RenumberAll, RenumberOpen;
    var d := Drop(t, t.pending[i].key);
    DropEntries(t, i);
    if i < |d.pending| && d.pending[i].key == t.pending[i].key {
      IndexOfKey(d.pending, i);
    }
  }

  lemma GapBelow(pending: seq<Entry>, i: nat, k: nat)
    requires i <= k < |pending|
    requires forall a, b :: 0 <= a < b < |pending| ==> pending[a].key < pending[b].key
    ensures pending[i].key <= pending[k].key - (k - i)
    decreases k - i
  {
    if i < k { GapBelow(pending, i + 1, k); }
  }

  /** What an indefinite wait that finds nothing buffered does to the ids. */
  lemma IndefiniteWait(c: Ctx, name: string)
    requires Ordered(c.ids) && !c.isComplete && !c.suspended && c.board.waits.unprocessed == []
    ensures var d := Attempt(c, WaitForEvent(name, None));
            && !d.isComplete && !d.suspended && d.board.waits.unprocessed == [] && d.env == c.env && Ordered(d.ids)
            && d.ids.next == c.ids.next + (if c.env.synthetic then 2 else 1)
            && d.ids.pending == c.ids.pending + (if c.env.synthetic then [GuardEntry(c.ids.next + 1, name)] else [])
  {
    hide Put, Park;
    ParkKeepsBuffer(c.board.waits, name, |c.board.cells|);
    assert ParkWait(c.board, name).waits.unprocessed == c.board.waits.unprocessed;
    hide ParkWait;
    assert FindBuffered(c.board.waits.unprocessed, name) == 0;
    assert c.ids.pending + [] == c.ids.pending;
    var body := GuardEntry(0, name).action.body;
    IssueAppends(Skip(c.ids), Opened(body, OptionalTimer(NewGuard(c.board, name))));
  }

  function GuardEntry(id: int, name: string): Entry {
    Entry(id, Action(id, CreateTimer(name, SENTINEL_FIRE_AT, ExternalEvent(name))))
  }

  lemma TwoWaits(synthetic: bool)
    ensures var d := ApplyAll(Initial(synthetic, 1), [Made(WaitForEvent("a", None)), Made(WaitForEvent("b", None))]);
            && !d.isComplete && !d.suspended && Ordered(d.ids) && d.ids.next == (if synthetic then 4 else 2)
            && d.ids.pending == if synthetic then [GuardEntry(1, "a"), GuardEntry(3, "b")] else []
  {
    hide Attempt, Ordered;
    var a, b := WaitForEvent("a", None), WaitForEvent("b", None);
    var c := Initial(synthetic, 1);
    ApplyTwo(c, Made(a), Made(b));
    assert Ordered(c.ids) by { InitialInv(synthetic, 1); InvParts(c); }
    IndefiniteWait(c, "a");
    IndefiniteWait(Attempt(c, a), "b");
  }

  /** Two indefinite waits in a row, and then an activity: the old engine had given the
      activity id 2, and replay reports non-determinism for it. */
  lemma {:induction false} TwoWaitsInARowAreRejected()
    ensures var waits := ApplyAll(Initial(true, 1), [Made(WaitForEvent("a", None)), Made(WaitForEvent("b", None))]);
            var leg := ApplyAll(Initial(false, 1), [Made(WaitForEvent("a", None)), Made(WaitForEvent("b", None))]);
            && leg.ids.next == 2
            && ProcessEvent(Attempt(waits, CallActivity("act", "")), TaskScheduled(2)).threw
            && !ProcessEvent(Attempt(leg, CallActivity("act", "")), TaskScheduled(2)).threw
  {
    hide ApplyAll, Ordered, Put;
    TwoWaits(true);
    TwoWaits(false);
    var waits := ApplyAll(Initial(true, 1), [Made(WaitForEvent("a", None)), Made(WaitForEvent("b", None))]);
    var leg := ApplyAll(Initial(false, 1), [Made(WaitForEvent("a", None)), Made(WaitForEvent("b", None))]);
    IssueAppends(waits.ids, Opened(ScheduleTask("act", ""), TaskRecord(|waits.board.cells|)));
    IssueAppends(leg.ids, Opened(ScheduleTask("act", ""), TaskRecord(|leg.board.cells|)));
    var pending := Attempt(waits, CallActivity("act", "")).ids.pending;
    assert |pending| == 3 && pending[0].key == 1 && pending[1].key == 3 && pending[2].key == 4;
    assert IndexOf(pending, 2) == 3;
  }
}
