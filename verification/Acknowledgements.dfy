/** Non-determinism: exactly which pending action a recorded acknowledgement must meet, and
    what is left of the two maps. */
module Acknowledgements {
  import opened WorkflowTypes
  import opened IdTable
  import opened ReplayContext
  import opened ContextInvariant

  // ----- what is pending under an id -----

  ghost predicate PendingAt(t: Table, id: int, body: ActionBody) {
    exists i :: 0 <= i < |t.pending| && t.pending[i].key == id && t.pending[i].action.body == body
  }

  ghost predicate ActivityAt(t: Table, id: int) {
    exists activity, input :: PendingAt(t, id, ScheduleTask(activity, input))
  }

  ghost predicate ChildAt(t: Table, id: int) {
    exists workflow, instance, input :: PendingAt(t, id, CreateChild(workflow, instance, input))
  }

  ghost predicate TimerAt(t: Table, id: int) {
    exists name, fireAt, origin :: PendingAt(t, id, CreateTimer(name, fireAt, origin))
  }

  /** The synthetic timer of an indefinite wait. */
  ghost predicate SyntheticAt(t: Table, id: int) {
    exists name, event :: PendingAt(t, id, CreateTimer(name, SENTINEL_FIRE_AT, ExternalEvent(event)))
  }

  lemma FoundIsPending(t: Table, id: int)
    requires Ordered(t)
    ensures var body := Lookup(t.pending, id);
            && (body.Some? ==> PendingAt(t, id, body.value))
            && (forall b :: PendingAt(t, id, b) ==> body == Some(b))
  {
    LookupIs(t, id);
    var i := IndexOf(t.pending, id);
    if i < |t.pending| { assert t.pending[i].key == id; }
  }

  lemma WhatIsFound(t: Table, id: int)
    requires Ordered(t)
    ensures var body := Lookup(t.pending, id);
            && (ActivityAt(t, id) <==> body.Some? && body.value.ScheduleTask?)
            && (ChildAt(t, id) <==> body.Some? && body.value.CreateChild?)
            && (TimerAt(t, id) <==> body.Some? && body.value.CreateTimer?)
            && (SyntheticAt(t, id) <==> OptionalAt(t, id))
  {
    hide Lookup, Ordered, PendingAt;
    FoundIsPending(t, id);
    var body := Lookup(t.pending, id);
    if body.Some? {
      match body.value {
        case ScheduleTask(a, i) => assert PendingAt(t, id, ScheduleTask(a, i));
        case CreateChild(w, n, i) => assert PendingAt(t, id, CreateChild(w, n, i));
        case CreateTimer(n, f, o) =>
          assert PendingAt(t, id, CreateTimer(n, f, o));
          if o.ExternalEvent? { assert o == ExternalEvent(o.event); }
        case _ =>
      }
    }
  }

  // ----- what an acknowledgement leaves -----

  /** The entry at the id has left, everything else is as it was. */
  ghost predicate Removes(t: Table, id: int, u: Table) {
    && u.open == t.open && u.next == t.next
    && (forall b :: !PendingAt(u, id, b))
    && (forall k, b :: k != id ==> (PendingAt(u, k, b) <==> PendingAt(t, k, b)))
  }

  /** The synthetic timer at the id has left both maps, with the entry behind it, and all
      larger ids have moved down by one. */
  ghost predicate RemovesBehind(t: Table, id: int, u: Table) {
    && u.next == t.next - 1
    && (forall b :: !PendingAt(u, id, b))
    && (forall k, b :: k < id ==> (PendingAt(u, k, b) <==> PendingAt(t, k, b)))
    && (forall k, b :: k > id ==> (PendingAt(u, k, b) <==> PendingAt(t, k + 1, b)))
    && (forall k :: k < id ==> (k in u.open <==> k in t.open) && (k in u.open ==> u.open[k] == t.open[k]))
    && (forall k :: k >= id ==> (k in u.open <==> k + 1 in t.open) && (k in u.open ==> u.open[k] == t.open[k + 1]))
  }

  lemma {:induction false} RemoveRemoves(t: Table, id: int)
    requires Ordered(t)
    ensures Removes(t, id, t.(pending := Remove(t.pending, id))) && Ordered(t.(pending := Remove(t.pending, id)))
  {
    hide Remove, Ordered, Removes;
    var i := IndexOf(t.pending, id);
    RemovedEntries(t.pending, id);
    RemoveKeepsOrder(t, id);
    if i < |t.pending| {
      OneRemoved(t, i, t.(pending := Remove(t.pending, id)));
    } else {
      NoneRemoved(t, id);
    }
  }

  lemma RemoveKeepsOrder(t: Table, id: int)
    requires Ordered(t)
    ensures Ordered(t.(pending := Remove(t.pending, id)))
  {
    hide Remove, Lookup;
    RemovedIsOrdered(t, id);
  }

  lemma RemovedEntries(pending: seq<Entry>, id: int)
    ensures var i := IndexOf(pending, id);
            var rest := Remove(pending, id);
            if i == |pending| then rest == pending
            else
              && |rest| == |pending| - 1
              && (forall j :: 0 <= j < |rest| ==> rest[j] == pending[if j < i then j else j + 1])
              && (forall j :: 0 <= j < |pending| && j != i ==> pending[j] == rest[if j < i then j else j - 1])
  {
    hide IndexOf;
    var i := IndexOf(pending, id);
    if i < |pending| {
      var a, b := pending[..i], pending[i + 1..];
      forall j | 0 <= j < |a + b| ensures (a + b)[j] == pending[if j < i then j else j + 1] {
        if j < i { assert (a + b)[j] == a[j]; } else { assert (a + b)[j] == b[j - i]; }
      }
      forall j | 0 <= j < |pending| && j != i ensures pending[j] == (a + b)[if j < i then j else j - 1] {
        if j < i { assert (a + b)[j] == a[j]; } else { assert (a + b)[j - 1] == b[j - 1 - i]; }
      }
    }
  }

  lemma NoneRemoved(t: Table, id: int)
    requires IndexOf(t.pending, id) == |t.pending|
    ensures Removes(t, id, t)
  {
  }

  lemma OneRemoved(t: Table, i: nat, u: Table)
    requires Ordered(t) && i < |t.pending| && u == t.(pending := u.pending) && |u.pending| == |t.pending| - 1
    requires forall j :: 0 <= j < |u.pending| ==> u.pending[j] == t.pending[if j < i then j else j + 1]
    requires forall j :: 0 <= j < |t.pending| && j != i ==> t.pending[j] == u.pending[if j < i then j else j - 1]
    ensures Removes(t, t.pending[i].key, u)
  {
    hide PendingAt;
    forall k, b | k != t.pending[i].key && PendingAt(t, k, b) ensures PendingAt(u, k, b) {
      StillPending(t, i, u, k, b);
    }
    forall k, b | PendingAt(u, k, b) ensures PendingAt(t, k, b) && k != t.pending[i].key {
      WasPending(t, i, u, k, b);
    }
  }

  lemma StillPending(t: Table, i: nat, u: Table, k: int, b: ActionBody)
    requires i < |t.pending| && |u.pending| == |t.pending| - 1 && k != t.pending[i].key && PendingAt(t, k, b)
    requires forall j :: 0 <= j < |t.pending| && j != i ==> t.pending[j] == u.pending[if j < i then j else j - 1]
    ensures PendingAt(u, k, b)
  {
    var j :| 0 <= j < |t.pending| && t.pending[j].key == k && t.pending[j].action.body == b;
    assert u.pending[if j < i then j else j - 1] == t.pending[j];
  }

  lemma WasPending(t: Table, i: nat, u: Table, k: int, b: ActionBody)
    requires Ordered(t) && i < |t.pending| && |u.pending| == |t.pending| - 1 && PendingAt(u, k, b)
    requires forall j :: 0 <= j < |u.pending| ==> u.pending[j] == t.pending[if j < i then j else j + 1]
    ensures PendingAt(t, k, b) && k != t.pending[i].key
  {
    var j :| 0 <= j < |u.pending| && u.pending[j].key == k && u.pending[j].action.body == b;
    assert t.pending[if j < i then j else j + 1] == u.pending[j];
  }

  /** What a dropped timer leaves, id by id. */
  lemma {:induction false} DropMoves(t: Table, id: int)
    requires Ordered(t) && OptionalAt(t, id)
    ensures var d := Drop(t, id);
            && Ordered(d) && d.next == t.next - 1
            && (forall k, b :: k < id ==> (PendingAt(d, k, b) <==> PendingAt(t, k, b)))
            && (forall k, b :: k >= id ==> (PendingAt(d, k, b) <==> PendingAt(t, k + 1, b)))
            && (forall k :: k < id ==> (k in d.open <==> k in t.open) && (k in d.open ==> d.open[k] == t.open[k]))
            && (forall k :: k >= id ==> (k in d.open <==> k + 1 in t.open) && (k in d.open ==> d.open[k] == t.open[k + 1]))
  {
    hide Drop, Lookup, Ordered, PendingAt;
    var i := DropRenumbers(t, id);
    var d := Drop(t, id);
    forall k: int, b | k != id
      ensures PendingAt(d, Down(id, k), b) <==> PendingAt(t, k, b)
    {
      FoundIsPending(t, k);
      FoundIsPending(d, Down(id, k));
    }
    forall k: int, b ensures PendingAt(d, k, b) <==> PendingAt(t, Up(id, k), b) {
      assert Down(id, Up(id, k)) == k && Up(id, k) != id;
    }
    forall k: int ensures (k in d.open <==> Up(id, k) in t.open) && (k in d.open ==> d.open[k] == t.open[Up(id, k)]) {
      assert Down(id, Up(id, k)) == k && Up(id, k) != id;
    }
  }

  lemma DropThenRemove(t: Table, id: int)
    requires Ordered(t) && OptionalAt(t, id)
    ensures var d := Drop(t, id); RemovesBehind(t, id, d.(pending := Remove(d.pending, id)))
  {
    hide Drop, Remove, Ordered, PendingAt, OptionalAt;
    DropMoves(t, id);
    RemoveRemoves(Drop(t, id), id);
  }

  // ----- exactly when -----

  /** A recorded activity is accepted if and only if an activity is pending under its id, or
      one is pending behind a synthetic timer under its id; else the orchestrator is
      non-deterministic. */
  lemma {:induction false} ScheduledExactlyWhen(c: Ctx, id: int)
    requires Inv(c) && !c.suspended
    ensures var r := ProcessEvent(c, TaskScheduled(id));
            var t := c.ids;
            && (!r.threw <==> ActivityAt(t, id) || (SyntheticAt(t, id) && ActivityAt(t, id + 1)))
            && (ActivityAt(t, id) ==> Removes(t, id, r.ctx.ids))
            && (SyntheticAt(t, id) && ActivityAt(t, id + 1) ==> RemovesBehind(t, id, r.ctx.ids))
            && (!ActivityAt(t, id) && !SyntheticAt(t, id) ==> r.ctx == c)
            && r.ctx == c.(ids := r.ctx.ids)
  {
    hide BoardOk, Ordered, Lookup, Remove, Drop, OptionalAt, ActivityAt, SyntheticAt, Removes, RemovesBehind, PendingAt;
    InvParts(c);
    var t := c.ids;
    AcksInTable(t, id);
  }

  /** The same for a recorded child workflow. */
  lemma {:induction false} ChildExactlyWhen(c: Ctx, id: int)
    requires Inv(c) && !c.suspended
    ensures var r := ProcessEvent(c, ChildCreated(id));
            var t := c.ids;
            && (!r.threw <==> ChildAt(t, id) || (SyntheticAt(t, id) && ChildAt(t, id + 1)))
            && (ChildAt(t, id) ==> Removes(t, id, r.ctx.ids))
            && (SyntheticAt(t, id) && ChildAt(t, id + 1) ==> RemovesBehind(t, id, r.ctx.ids))
            && (!ChildAt(t, id) && !SyntheticAt(t, id) ==> r.ctx == c)
            && r.ctx == c.(ids := r.ctx.ids)
  {
    hide BoardOk, Ordered, Lookup, Remove, Drop, OptionalAt, ChildAt, SyntheticAt, Removes, RemovesBehind, PendingAt;
    InvParts(c);
    var t := c.ids;
    AcksInTable(t, id);
  }

  /** What the handlers look at. */
  lemma AcksInTable(t: Table, id: int)
    requires Ordered(t)
    ensures var body := Lookup(t.pending, id);
            && (ActivityAt(t, id) <==> body.Some? && body.value.ScheduleTask?)
            && (ChildAt(t, id) <==> body.Some? && body.value.CreateChild?)
            && (TimerAt(t, id) <==> body.Some? && body.value.CreateTimer?)
            && (SyntheticAt(t, id) <==> OptionalAt(t, id))
            && (OptionalAt(t, id) ==> body.Some? && body.value.CreateTimer?)
    ensures Removes(t, id, t.(pending := Remove(t.pending, id)))
    ensures OptionalAt(t, id) ==>
              var d := Drop(t, id);
              var behind := Lookup(d.pending, id);
              && (ActivityAt(t, id + 1) <==> behind.Some? && behind.value.ScheduleTask?)
              && (ChildAt(t, id + 1) <==> behind.Some? && behind.value.CreateChild?)
              && (TimerAt(t, id + 1) <==> behind.Some? && behind.value.CreateTimer?)
              && RemovesBehind(t, id, d.(pending := Remove(d.pending, id)))
  {
    hide Ordered, Remove, Drop, Removes, RemovesBehind, PendingAt, Lookup;
    WhatIsFound(t, id);
    RemoveRemoves(t, id);
    if OptionalAt(t, id) {
      DropMoves(t, id);
      DropThenRemove(t, id);
      WhatIsFound(Drop(t, id), id);
    }
  }

  /** A recorded timer is accepted if and only if it is one of the dispatcher's own, or a
      timer is pending under its id; where that is a synthetic timer and the recorded one is
      not, the one behind it counts. Whatever was pending there is removed in any case. */
  lemma {:induction false} TimerExactlyWhen(c: Ctx, id: int, fireAt: int, origin: TimerOrigin)
    requires Inv(c) && !c.suspended && id != INFRASTRUCTURE_TIMER_ID
    ensures var r := ProcessEvent(c, TimerCreated(id, fireAt, origin));
            var t := c.ids;
            var drops := SyntheticAt(t, id) && !(fireAt == SENTINEL_FIRE_AT && origin.ExternalEvent?);
            && (!r.threw <==> if drops then TimerAt(t, id + 1) else TimerAt(t, id))
            && (if drops then RemovesBehind(t, id, r.ctx.ids) else Removes(t, id, r.ctx.ids))
            && r.ctx == c.(ids := r.ctx.ids)
  {
    hide BoardOk, Ordered, Lookup, Remove, Drop, OptionalAt, TimerAt, SyntheticAt, Removes, RemovesBehind, PendingAt;
    InvParts(c);
    AcksInTable(c.ids, id);
  }

  lemma InfrastructureTimerIsIgnored(c: Ctx, fireAt: int, origin: TimerOrigin)
    requires !c.suspended
    ensures ProcessEvent(c, TimerCreated(INFRASTRUCTURE_TIMER_ID, fireAt, origin)) == Handled(c, false)
  {
  }
}
