/** Executions whose first turns ran on the engine of before synthetic timers and whose
    later turns run on the engine of today. */
module UpgradedTurns {
  import opened WorkflowTypes
  import opened IdTable
  import opened ReplayContext
  import opened ContextInvariant
  import opened Machine
  import opened ReplayTurns
  import opened ExactlyOnce
  import opened LegacyReplay
  import opened LegacyHistories
  import opened SuspendedTurns

  // ----- all that is pending was issued from a certain id on -----

  /** Nothing pending is older than `next`, and nothing to come acknowledges anything. */
  ghost predicate AllNew(m: M, next: int) {
    Owes(m, [], [], false, next)
  }

  lemma NewFromTheStart(m: M, next: int)
    requires AtBoundary(m) && IsTurn(m.hist.arrived) && Inv(m.ctx) && Plain(m.ctx.held) && next <= m.ctx.ids.next
    requires forall i :: 0 <= i < |m.ctx.ids.pending| ==> m.ctx.ids.pending[i].key >= next
    ensures AllNew(m, next)
  {
    hide Inv;
    assert Acks([]) == [];
    assert m.ctx.held[0..] == m.ctx.held;
    assert Kept([], 0) == [];
  }

  lemma AllAreNew(m: M, next: int)
    requires AllNew(m, next)
    ensures next <= m.ctx.ids.next && forall i :: 0 <= i < |m.ctx.ids.pending| ==> m.ctx.ids.pending[i].key >= next
  {
    hide Inv;
    assert Kept([], 0) == [];
  }

  /** Turn by turn, everything emitted has an id from `next` on. */
  lemma {:induction false} EmittedFrom(p: Program, engine: Engine, past: seq<Event>, b: M, turns: seq<seq<Event>>,
                                       lasts: seq<M>, next: int)
    requires ExecutionFrom(p, engine, past, turns, lasts) && NeverAsksReplaying(p)
    requires Enters(p, engine, past, b, turns, lasts) && Plain(b.ctx.held) && next <= b.ctx.ids.next
    requires forall i :: 0 <= i < |b.ctx.ids.pending| ==> b.ctx.ids.pending[i].key >= next
    ensures next <= lasts[|lasts| - 1].ctx.ids.next
    ensures forall i :: 0 <= i < |Emitted(lasts)| ==> Emitted(lasts)[i].key >= next
    decreases |turns|
  {
    hide Step, Inv, EndTurn, IsTurn, Plain, NextPast, AtBoundary, Enters, AllNew, GoesOn;
    var k := |turns| - 1;
    var steps, rest := RebuildsFrom(p, engine, past, b, turns, lasts);
    var c := BoundaryFrom(b, turns, lasts);
    BoundaryHistory(p, engine, past, b, turns, lasts);
    RunKeepsInv(p, FirstFrom(engine, past, turns, lasts), steps, c);
    if k == 0 {
      assert Emitted(lasts[..0]) == [];
    } else {
      EntersBefore(p, engine, past, b, turns, lasts);
      EmittedFrom(p, engine, past, b, turns[..k], lasts[..k], next);
      var v := ExactlyOnceFrom(p, engine, past, b, turns[..k], lasts[..k]);
    }
    NewFromTheStart(c, next);
    StaysNew(p, c, rest, lasts[k], next);
    AllAreNew(lasts[k], next);
  }

  lemma StaysNew(p: Program, m: M, n: nat, last: M, next: int)
    requires AllNew(m, next) && Reaches(p, m, n, last)
    ensures AllNew(last, next)
  {
    hide Owes;
    RunOwes(p, m, n, last, [], [], false, next);
  }

  // ----- what the engine of today starts with -----

  /** What is left of the old turns is at most the synthetic timer of the wait parked last,
      under an id that they have not used. */
  lemma LeftoverIsNew(cur: Ctx, leg: Ctx)
    requires Related(cur, leg) && leg.ids.pending == []
    ensures leg.ids.next <= cur.ids.next && forall i :: 0 <= i < |cur.ids.pending| ==> cur.ids.pending[i].key >= leg.ids.next
  {
    hide DropAll;
    InvParts(cur);
    NothingLeft(cur.ids);
    if cur.ids.pending == [] { NothingDropped(cur.ids); }
  }

  lemma NothingDropped(t: Table)
    requires t.pending == []
    ensures DropAll(t) == t
  {
  }

  lemma OldIdsAscend(p: Program, engine: Engine, turns: seq<seq<Event>>, lasts: seq<M>)
    requires Execution(p, engine, turns, lasts) && NeverAsksReplaying(p)
    ensures forall i :: 0 <= i < |Emitted(lasts)| ==> Emitted(lasts)[i].key < lasts[|lasts| - 1].ctx.ids.next
    ensures Plain(lasts[|lasts| - 1].ctx.held)
  {
    hide BoardOk, Execution;
    var u := ReplayIsExactlyOnce(p, engine, turns, lasts);
  }

  /** Where the engine of today gets to its first new events. */
  lemma TakesOver(p: Program, maxInterval: int, before: M, turns: seq<seq<Event>>, lasts: seq<M>, steps: nat, cur: M,
                  parked: bool)
    requires |turns| == |lasts| > 0
    requires Reaches(p, Start(Initial(true, maxInterval), NextPast(before), turns[0]), steps, cur)
    requires RelatedM(cur, Boundary(before, turns[0]), parked) && AtBoundary(cur) && Plain(before.ctx.held)
    requires before.ctx.suspended && |lasts| > 1 ==> Met(lasts[0].ctx) == {}
    ensures Enters(p, Engine(true, maxInterval), NextPast(before), cur, turns, lasts)
    ensures Plain(cur.ctx.held) && before.ctx.ids.next <= cur.ctx.ids.next
    ensures forall i :: 0 <= i < |cur.ctx.ids.pending| ==> cur.ctx.ids.pending[i].key >= before.ctx.ids.next
  {
    hide Reaches, NextPast, AtBoundary, DropAll, Inv, Guarded;
    assert Reaches(p, Start(Fresh(Engine(true, maxInterval)), NextPast(before), turns[0]), steps, cur);
    LeftoverIsNew(cur.ctx, Boundary(before, turns[0]).ctx);
  }

  /** The upgrade is exactly-once. The turns on the engine of today, each replaying
      everything from the start, the old turns included, together emit exactly the actions
      of one run of that engine that starts where the old turns have left off and is never
      interrupted, and no id is used twice over all turns, old and new. */
  lemma {:induction false} UpgradeIsExactlyOnce(p: Program, maxInterval: int, oldTurns: seq<seq<Event>>, oldLasts: seq<M>,
                                                parked: bool, turns: seq<seq<Event>>, lasts: seq<M>)
    returns (steps: nat, cur: M, u: M)
    requires Execution(p, Engine(false, maxInterval), oldTurns, oldLasts) && NeverAsksReplaying(p)
    requires LegacyTurns(p, Engine(false, maxInterval), oldTurns, oldLasts, parked)
    requires GoesOn(oldLasts[|oldLasts| - 1]) && RecordsInTime(oldLasts)
    requires ExecutionFrom(p, Engine(true, maxInterval), NextPast(oldLasts[|oldLasts| - 1]), turns, lasts)
    requires oldLasts[|oldLasts| - 1].ctx.suspended && |lasts| > 1 ==> Met(lasts[0].ctx) == {}
    ensures var before := oldLasts[|oldLasts| - 1];
            && Reaches(p, Start(Initial(true, maxInterval), NextPast(before), turns[0]), steps, cur)
            && RelatedM(cur, Boundary(before, turns[0]), parked)
    ensures UninterruptedFrom(p, cur, turns, u) && u.ctx.ids.pending == Emitted(lasts)
    ensures u.trace == lasts[|lasts| - 1].trace && u.mode == lasts[|lasts| - 1].mode
    ensures var all := Emitted(oldLasts) + Emitted(lasts);
            forall i, j :: 0 <= i < j < |all| ==> all[i].key < all[j].key
  {
    hide Reaches, Inv, Enters, RunsTo, NextPast, GoesOn, LegacyTurns, RelatedM, UninterruptedFrom, Boundary, AtBoundary;
    var engine := Engine(true, maxInterval);
    var before := oldLasts[|oldLasts| - 1];
    steps, cur := RecordedHistoryReplays(p, maxInterval, oldTurns, oldLasts, parked, turns[0]);
    OldIdsAscend(p, Engine(false, maxInterval), oldTurns, oldLasts);
    EmittedIdsAscend(p, Engine(false, maxInterval), oldTurns, oldLasts);
    TakesOver(p, maxInterval, before, turns, lasts, steps, cur, parked);
    u := ExactlyOnceFrom(p, engine, NextPast(before), cur, turns, lasts);
    EmittedFrom(p, engine, NextPast(before), cur, turns, lasts, before.ctx.ids.next);
    InvParts(u.ctx);
  }
}
