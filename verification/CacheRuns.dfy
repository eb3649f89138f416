/** The history cache over whole runs: what a hit returns, which instances are cached, and
    which writes pass the token fence. */
module CacheRuns {
  import opened WorkflowTypes
  import opened HistoryCache

  ghost predicate IsRun(l: Limits, ops: seq<Op>, states: seq<Cache>) {
    && |states| == |ops| + 1
    && states[0] == Cache(map[], map[])
    && forall i :: 0 <= i < |ops| ==> Does(l, states[i], ops[i], states[i + 1])
  }

  lemma RunPrefix(l: Limits, ops: seq<Op>, states: seq<Cache>)
    requires IsRun(l, ops, states) && |ops| > 0
    ensures var n := |ops| - 1;
            IsRun(l, ops[..n], states[..n + 1]) && Does(l, states[n], ops[n], states[n + 1])
  {
  }

  // ----- bounds -----

  lemma {:induction false} PartIsSmaller(part: Entries, entries: Entries)
    requires part.Keys <= entries.Keys && forall id :: id in part ==> part[id].bytes == entries[id].bytes
    ensures |part| <= |entries| && Total(part) <= Total(entries)
    decreases |entries|
  {
    if part == map[] {
    } else {
      var id :| id in part;
      TotalSplits(part, id);
      TotalSplits(entries, id);
      PartIsSmaller(part - {id}, entries - {id});
    }
  }

  ghost predicate Bounded(l: Limits, entries: Entries) {
    |entries| <= l.maxInstances && (l.maxBytes > 0 ==> Total(entries) <= l.maxBytes || |entries| <= 1)
  }

  /** After a put the new history is there, and the bounds hold unless it is alone. */
  lemma PutKeepsBounds(l: Limits, entries: Entries, id: string, events: seq<Event>, now: int, entries': Entries)
    requires Puts(l, entries, id, events, now, entries') && l.maxInstances > 0
    ensures id in entries' && entries'[id].events == events
    ensures InBounds(l, entries') || entries'.Keys == {id}
    ensures Bounded(l, entries')
  {
    if !InBounds(l, entries') {
      assert |entries'| == |{id}|;
    }
  }

  lemma LessIsBounded(l: Limits, part: Entries, entries: Entries)
    requires Bounded(l, entries) && part.Keys <= entries.Keys && forall id :: id in part ==> part[id].bytes == entries[id].bytes
    ensures Bounded(l, part)
  {
    PartIsSmaller(part, entries);
  }

  lemma StepKeepsBounds(l: Limits, c: Cache, op: Op, d: Cache)
    requires Bounded(l, c.entries) && Does(l, c, op, d) && l.maxInstances > 0
    ensures Bounded(l, d.entries)
  {
    hide Puts, Total, Bounded;
    match op {
      case Put(id, events, now) => PutKeepsBounds(l, c.entries, id, events, now, d.entries);
      case Commit(id, token, events, ended, now) =>
        if IsLatest(c.tokens, id, token) && !ended {
          PutKeepsBounds(l, c.entries, id, events, now, d.entries);
        } else {
          LessIsBounded(l, d.entries, c.entries);
        }
      case _ => LessIsBounded(l, d.entries, c.entries);
    }
  }

  /** In every reachable state the count cap holds, and the byte budget holds unless a
      single entry exceeds it. */
  lemma {:induction false} AlwaysBounded(l: Limits, ops: seq<Op>, states: seq<Cache>)
    requires IsRun(l, ops, states) && l.maxInstances > 0
    ensures Bounded(l, states[|ops|].entries)
    decreases |ops|
  {
    hide Does, Bounded;
    if |ops| == 0 {
      assert Bounded(l, map[]) by { EmptyIsBounded(l); }
    } else {
      RunPrefix(l, ops, states);
      var n := |ops| - 1;
      AlwaysBounded(l, ops[..n], states[..n + 1]);
      StepKeepsBounds(l, states[n], ops[n], states[n + 1]);
    }
  }

  lemma EmptyIsBounded(l: Limits)
    ensures Bounded(l, map[])
  {
  }

  // ----- what a hit returns -----

  /** What an operation writes for an instance, if it does: a history, or its absence. */
  function Written(c: Cache, op: Op, id: string): Option<Option<seq<Event>>> {
    match op
    case Put(x, events, _) => if x == id then Some(Some(events)) else None
    case Remove(x) => if x == id then Some(None) else None
    case Reset => Some(None)
    case Commit(x, token, events, ended, _) =>
      if x == id && IsLatest(c.tokens, x, token) then Some(if ended then None else Some(events)) else None
    case _ => None
  }

  function LastWritten(ops: seq<Op>, states: seq<Cache>, id: string): Option<seq<Event>>
    requires |states| == |ops| + 1
    decreases |ops|
  {
    if |ops| == 0 then None
    else
      var n := |ops| - 1;
      var w := Written(states[n], ops[n], id);
      if w.Some? then w.value else LastWritten(ops[..n], states[..n + 1], id)
  }

  lemma StepWrites(l: Limits, c: Cache, op: Op, d: Cache, id: string)
    requires Does(l, c, op, d) && id in d.entries
    ensures var w := Written(c, op, id);
            if w.Some? then w.value == Some(d.entries[id].events) && d.entries[id].bytes == Measured(l, d.entries[id].events)
            else id in c.entries && d.entries[id].events == c.entries[id].events && d.entries[id].bytes == c.entries[id].bytes
  {
    hide InBounds, StopsAt, Total;
  }

  /** Whatever the cache holds for an instance is the last history put for it, with no
      removal, reset or end of the instance since. */
  lemma {:induction false} HitIsLastPut(l: Limits, ops: seq<Op>, states: seq<Cache>, id: string)
    requires IsRun(l, ops, states) && id in states[|ops|].entries
    ensures LastWritten(ops, states, id) == Some(states[|ops|].entries[id].events)
    ensures states[|ops|].entries[id].bytes == Measured(l, states[|ops|].entries[id].events)
    decreases |ops|
  {
    hide Does, Written, Measured;
    if |ops| > 0 {
      RunPrefix(l, ops, states);
      var n := |ops| - 1;
      StepWrites(l, states[n], ops[n], states[n + 1], id);
      if Written(states[n], ops[n], id).None? {
        HitIsLastPut(l, ops[..n], states[..n + 1], id);
      }
    }
  }

  // ----- least recently used, over a whole run -----

  /** Only gets and puts, at strictly increasing instants. */
  ghost predicate IsPlain(ops: seq<Op>) {
    && (forall i :: 0 <= i < |ops| ==> ops[i].Get? || ops[i].Put?)
    && (forall i, j :: 0 <= i < j < |ops| ==> ops[i].now < ops[j].now)
  }

  /** A put touches its instance, and a get that hits does. */
  function Touches(ops: seq<Op>, states: seq<Cache>): seq<string>
    requires |states| == |ops| + 1
    decreases |ops|
  {
    if |ops| == 0 then []
    else
      var n := |ops| - 1;
      Touches(ops[..n], states[..n + 1]) + Touched(ops[n], states[n])
  }

  function Touched(op: Op, c: Cache): seq<string> {
    if op.Put? || (op.Get? && op.id in c.entries) then [op.id] else []
  }

  /** Where each touched instance was touched last. */
  function Ranks(touches: seq<string>): map<string, nat> {
    if touches == [] then map[] else Ranks(touches[..|touches| - 1])[touches[|touches| - 1] := |touches| - 1]
  }

  lemma {:induction false} RanksAreLast(touches: seq<string>)
    ensures var r := Ranks(touches);
            && (forall id :: id in r <==> id in touches)
            && (forall id :: id in r ==> r[id] < |touches| && touches[r[id]] == id)
            && (forall id, j :: id in r && r[id] < j < |touches| ==> touches[j] != id)
    decreases |touches|
  {
    if touches != [] {
      var rest := touches[..|touches| - 1];
      RanksAreLast(rest);
      assert touches == rest + [touches[|rest|]];
    }
  }

  function Elements(touches: seq<string>): set<string> {
    set x | x in touches
  }

  /** The distinct instances touched after `id` was last. */
  function TouchedSince(touches: seq<string>, id: string): set<string>
    requires id in touches
  {
    RanksAreLast(touches);
    Elements(touches[Ranks(touches)[id] + 1..])
  }

  /** Instants of last access are in the order of the last touches. */
  ghost predicate ByAge(entries: Entries, ranks: map<string, nat>) {
    && entries.Keys <= ranks.Keys
    && forall a, b :: a in entries && b in entries ==>
         (entries[a].lastAccess < entries[b].lastAccess <==> ranks[a] < ranks[b])
  }

  /** Nothing that is not cached was touched more recently than something that is. */
  ghost predicate NewestCached(entries: Entries, ranks: map<string, nat>) {
    && entries.Keys <= ranks.Keys
    && forall gone, id :: gone !in entries && gone in ranks && id in entries ==> ranks[gone] < ranks[id]
  }

  /** All that was ever touched, or as many as the cap allows. */
  ghost predicate FullOrAll(l: Limits, entries: Entries, ranks: map<string, nat>) {
    |entries| <= l.maxInstances && (entries.Keys == ranks.Keys || |entries| == l.maxInstances)
  }

  ghost predicate Lru(l: Limits, entries: Entries, ranks: map<string, nat>) {
    ByAge(entries, ranks) && NewestCached(entries, ranks) && FullOrAll(l, entries, ranks)
  }

  ghost predicate Below(ranks: map<string, nat>, n: nat) {
    && (forall id :: id in ranks ==> ranks[id] < n)
    && (forall a, b :: a in ranks && b in ranks && ranks[a] == ranks[b] ==> a == b)
  }

  ghost predicate OlderThan(entries: Entries, now: int) {
    forall x :: x in entries ==> entries[x].lastAccess < now
  }

  lemma TouchKeepsLru(l: Limits, entries: Entries, ranks: map<string, nat>, id: string, e: Entry, n: nat)
    requires Lru(l, entries, ranks) && Below(ranks, n) && id in entries && OlderThan(entries, e.lastAccess)
    ensures Lru(l, entries[id := e], ranks[id := n])
  {
    assert entries[id := e].Keys == entries.Keys;
    assert ranks[id := n].Keys == ranks.Keys;
  }

  lemma KeptAreByAge(entries: Entries, ranks: map<string, nat>, id: string, e: Entry, n: nat, kept: Entries)
    requires ByAge(entries, ranks) && Below(ranks, n) && id !in entries && OlderThan(entries, e.lastAccess)
    requires LeavesRecent(entries[id := e], id, kept)
    ensures ByAge(kept, ranks[id := n])
  {
  }

  lemma KeptAreNewest(entries: Entries, ranks: map<string, nat>, id: string, e: Entry, n: nat, kept: Entries)
    requires ByAge(entries, ranks) && NewestCached(entries, ranks) && Below(ranks, n) && id !in entries
    requires LeavesRecent(entries[id := e], id, kept)
    ensures NewestCached(kept, ranks[id := n])
  {
    var more := entries[id := e];
    var r := ranks[id := n];
    forall gone, x | gone !in kept && gone in r && x in kept ensures r[gone] < r[x] {
      if gone in entries && x != id {
        assert more[gone].lastAccess <= more[x].lastAccess;
        assert ranks[gone] != ranks[x];
      }
    }
  }

  lemma NewKeepsLru(l: Limits, entries: Entries, ranks: map<string, nat>, id: string, e: Entry, n: nat, kept: Entries)
    requires Lru(l, entries, ranks) && Below(ranks, n) && id !in entries && OlderThan(entries, e.lastAccess)
    requires LeavesRecent(entries[id := e], id, kept) && |kept| <= l.maxInstances
    requires kept == entries[id := e] || |kept| == l.maxInstances
    ensures Lru(l, kept, ranks[id := n])
  {
    hide ByAge, NewestCached, Below, OlderThan, LeavesRecent;
    KeptAreByAge(entries, ranks, id, e, n, kept);
    KeptAreNewest(entries, ranks, id, e, n, kept);
    if kept == entries[id := e] {
      assert kept.Keys == entries.Keys + {id} && |kept.Keys| == |entries.Keys| + 1;
      assert ranks[id := n].Keys == ranks.Keys + {id};
    }
  }

  /** Without a byte budget, eviction stops at the count cap. */
  lemma PutStopsAtCap(l: Limits, entries: Entries, id: string, events: seq<Event>, now: int, kept: Entries)
    requires Puts(l, entries, id, events, now, kept) && l.maxBytes == 0 && l.maxInstances > 0
    ensures |kept| <= l.maxInstances
    ensures kept == entries[id := Entry(events, 0, now)] || |kept| == l.maxInstances
  {
    hide Total;
    var more := entries[id := Entry(events, 0, now)];
    if kept.Keys == {id} {
      assert |kept| == |{id}|;
    }
    if kept != more {
      var last :| StopsAt(l, more, kept, last);
      assert |kept[last := more[last]]| == |kept| + 1;
    }
  }

  lemma StepKeepsLru(l: Limits, c: Cache, op: Op, d: Cache, ranks: map<string, nat>, n: nat)
    requires Lru(l, c.entries, ranks) && Below(ranks, n) && Does(l, c, op, d) && l.maxBytes == 0 && l.maxInstances > 0
    requires (op.Get? || op.Put?) && OlderThan(c.entries, op.now)
    ensures Lru(l, d.entries, if op.Put? || op.id in c.entries then ranks[op.id := n] else ranks)
    ensures OlderThan(d.entries, op.now + 1)
  {
    hide Lru, InBounds, StopsAt, Below;
    var id := op.id;
    if op.Get? {
      if id in c.entries {
        TouchKeepsLru(l, c.entries, ranks, id, c.entries[id].(lastAccess := op.now), n);
      }
    } else {
      var e := Entry(op.events, 0, op.now);
      PutStopsAtCap(l, c.entries, id, op.events, op.now, d.entries);
      if id in c.entries {
        TouchKeepsLru(l, c.entries, ranks, id, e, n);
        NothingEvicted(l, c.entries, ranks, id, e, d.entries);
      } else {
        NewKeepsLru(l, c.entries, ranks, id, e, n, d.entries);
      }
    }
  }

  lemma NothingEvicted(l: Limits, entries: Entries, ranks: map<string, nat>, id: string, e: Entry, kept: Entries)
    requires Lru(l, entries, ranks) && id in entries && LeavesRecent(entries[id := e], id, kept)
    requires kept == entries[id := e] || |kept| == l.maxInstances
    ensures kept == entries[id := e]
  {
    hide ByAge, NewestCached;
    var more := entries[id := e];
    assert more.Keys == entries.Keys;
    assert |more| == |entries|;
    if x :| x in more && x !in kept {
      SmallerSet(kept.Keys, more.Keys - {x});
    }
  }

  lemma RanksGrow(touches: seq<string>, id: string)
    ensures Ranks(touches + [id]) == Ranks(touches)[id := |touches|]
    ensures Below(Ranks(touches), |touches|)
  {
    RanksAreLast(touches);
    assert (touches + [id])[..|touches|] == touches;
  }

  lemma LastStepKeepsLru(l: Limits, ops: seq<Op>, states: seq<Cache>, touches: seq<string>)
    requires |states| == |ops| + 1 && ops != [] && l.maxBytes == 0 && l.maxInstances > 0
    requires var n := |ops| - 1;
             && Does(l, states[n], ops[n], states[n + 1]) && (ops[n].Get? || ops[n].Put?)
             && Lru(l, states[n].entries, Ranks(touches)) && OlderThan(states[n].entries, ops[n].now)
             && touches == Touches(ops[..n], states[..n + 1])
    ensures Lru(l, states[|ops|].entries, Ranks(Touches(ops, states)))
    ensures OlderThan(states[|ops|].entries, ops[|ops| - 1].now + 1)
  {
    hide Ranks, Below, Touches, Does, Lru, OlderThan;
    var n := |ops| - 1;
    RanksGrow(touches, ops[n].id);
    StepKeepsLru(l, states[n], ops[n], states[n + 1], Ranks(touches), |touches|);
    TouchesSplit(ops, states);
  }

  lemma {:induction false} RunIsLru(l: Limits, ops: seq<Op>, states: seq<Cache>)
    requires IsRun(l, ops, states) && IsPlain(ops) && l.maxBytes == 0 && l.maxInstances > 0
    ensures Lru(l, states[|ops|].entries, Ranks(Touches(ops, states)))
    ensures |ops| > 0 ==> OlderThan(states[|ops|].entries, ops[|ops| - 1].now + 1)
    decreases |ops|
  {
    hide Does, Lru, OlderThan, Ranks;
    assert |states| == |ops| + 1 && states[0].entries == map[] by { RunStarts(l, ops, states); }
    if |ops| == 0 {
      NothingIsLru(l, ops, states);
    } else {
      hide IsRun, IsPlain, Touches;
      RunPrefix(l, ops, states);
      PlainPrefix(ops);
      var n := |ops| - 1;
      RunIsLru(l, ops[..n], states[..n + 1]);
      ClockMovesOn(ops, states, n);
      LastStepKeepsLru(l, ops, states, Touches(ops[..n], states[..n + 1]));
    }
  }

  lemma RunStarts(l: Limits, ops: seq<Op>, states: seq<Cache>)
    requires IsRun(l, ops, states)
    ensures |states| == |ops| + 1 && states[0].entries == map[]
  {
  }

  lemma TouchesSplit(ops: seq<Op>, states: seq<Cache>)
    requires |states| == |ops| + 1 && ops != []
    ensures var n := |ops| - 1;
            var touches := Touches(ops[..n], states[..n + 1]);
            Touches(ops, states) == if Touched(ops[n], states[n]) == [] then touches else touches + [ops[n].id]
  {
  }

  lemma PlainPrefix(ops: seq<Op>)
    requires IsPlain(ops) && ops != []
    ensures IsPlain(ops[..|ops| - 1]) && (ops[|ops| - 1].Get? || ops[|ops| - 1].Put?)
  {
  }

  lemma NothingIsLru(l: Limits, ops: seq<Op>, states: seq<Cache>)
    requires ops == [] && |states| == 1 && states[0].entries == map[]
    ensures Lru(l, states[0].entries, Ranks(Touches(ops, states)))
  {
  }

  lemma ClockMovesOn(ops: seq<Op>, states: seq<Cache>, n: nat)
    requires n == |ops| - 1 && |states| == |ops| + 1 && states[0].entries == map[] && IsPlain(ops)
    requires n > 0 ==> OlderThan(states[n].entries, ops[n - 1].now + 1)
    ensures OlderThan(states[n].entries, ops[n].now)
  {
  }

  /** The cached instances are always exactly the N most recently touched distinct ones,
      N being the instance cap: an instance is cached just when it was touched and fewer
      than N others were touched since. */
  lemma {:induction false} CachedAreTheMostRecent(l: Limits, ops: seq<Op>, states: seq<Cache>, id: string)
    requires IsRun(l, ops, states) && IsPlain(ops) && l.maxBytes == 0 && l.maxInstances > 0
    ensures var touches := Touches(ops, states);
            id in states[|ops|].entries <==> id in touches && |TouchedSince(touches, id)| < l.maxInstances
  {
    hide Touches, Does, Ranks, TouchedSince, ByAge;
    RunIsLru(l, ops, states);
    var touches := Touches(ops, states);
    RanksAreLast(touches);
    var entries := states[|ops|].entries;
    if id in entries {
      var since := TouchedSince(touches, id);
      forall x | x in since ensures x in entries.Keys - {id} {
        TouchedLater(touches, id, x);
      }
      SmallerSet(since, entries.Keys - {id});
    } else if id in touches {
      var since := TouchedSince(touches, id);
      forall x | x in entries.Keys ensures x in since {
        TouchedLater(touches, id, x);
      }
      SmallerSet(entries.Keys, since);
    }
  }

  lemma TouchedLater(touches: seq<string>, id: string, x: string)
    requires id in touches && id in Ranks(touches)
    ensures x in TouchedSince(touches, id) <==> x in Ranks(touches) && Ranks(touches)[x] > Ranks(touches)[id]
  {
    RanksAreLast(touches);
    var ranks := Ranks(touches);
    var later := touches[ranks[id] + 1..];
    if x in TouchedSince(touches, id) {
      var j :| 0 <= j < |later| && later[j] == x;
      assert touches[ranks[id] + 1 + j] == x;
    }
    if x in ranks && ranks[x] > ranks[id] {
      assert later[ranks[x] - ranks[id] - 1] == x;
    }
  }

  // ----- the token fence -----

  /** The operation at position i dispatches the instance. */
  predicate Dispatches(ops: seq<Op>, i: int, id: string) {
    0 <= i < |ops| && ops[i].Note? && ops[i].id == id
  }

  predicate Forgets(c: Cache, op: Op, id: string) {
    op == Forget(id) || (op.Commit? && op.id == id && op.ended && IsLatest(c.tokens, id, op.token))
  }

  /** The commit at position j gets past the fence. */
  ghost predicate Lands(ops: seq<Op>, states: seq<Cache>, j: nat)
    requires j < |ops| <= |states| && ops[j].Commit?
  {
    IsLatest(states[j].tokens, ops[j].id, ops[j].token)
  }

  /** The newest dispatch of an instance that has not been forgotten since. */
  ghost predicate NewestMark(ops: seq<Op>, states: seq<Cache>, id: string, n: nat, i: nat)
    requires |states| == |ops| + 1
  {
    && i < n <= |ops| && Dispatches(ops, i, id)
    && (forall k :: i < k < n ==> !Dispatches(ops, k, id))
    && (forall k :: i < k < n ==> !Forgets(states[k], ops[k], id))
  }

  lemma StepKeepsToken(l: Limits, c: Cache, op: Op, d: Cache, id: string)
    requires Does(l, c, op, d) && !(op.Note? && op.id == id)
    ensures if Forgets(c, op, id) then id !in d.tokens
            else (id in d.tokens <==> id in c.tokens) && (id in c.tokens ==> d.tokens[id] == c.tokens[id])
  {
    hide Puts, Sweeps;
  }

  /** The recorded token is that of the newest dispatch, whatever else happened since,
      resets included. */
  lemma {:induction false} TokenIsNewest(l: Limits, ops: seq<Op>, states: seq<Cache>, id: string, n: nat)
    requires IsRun(l, ops, states) && n <= |ops|
    ensures forall i: nat :: NewestMark(ops, states, id, n, i) ==> id in states[n].tokens && states[n].tokens[id] == ops[i].token
    ensures id in states[n].tokens ==> exists i: nat :: NewestMark(ops, states, id, n, i)
    decreases n
  {
    hide Does, Forgets;
    if n > 0 {
      TokenIsNewest(l, ops, states, id, n - 1);
      assert Does(l, states[n - 1], ops[n - 1], states[n]);
      if Dispatches(ops, n - 1, id) {
        assert id in states[n].tokens && states[n].tokens[id] == ops[n - 1].token by {
          NoteSetsToken(l, ops[n - 1], states[n - 1], states[n]);
        }
        assert NewestMark(ops, states, id, n, n - 1);
      } else {
        StepKeepsToken(l, states[n - 1], ops[n - 1], states[n], id);
        forall i: nat | NewestMark(ops, states, id, n, i)
          ensures id in states[n].tokens && states[n].tokens[id] == ops[i].token
        {
          assert NewestMark(ops, states, id, n - 1, i);
          assert !Forgets(states[n - 1], ops[n - 1], id);
        }
        if id in states[n].tokens {
          var i: nat :| NewestMark(ops, states, id, n - 1, i);
          assert NewestMark(ops, states, id, n, i);
        }
      }
    }
  }

  lemma NoteSetsToken(l: Limits, op: Op, c: Cache, d: Cache)
    requires op.Note? && Does(l, c, op, d)
    ensures d.tokens == c.tokens[op.id := op.token]
  {
  }

  /** Tokens are distinct, and a runner commits only what was dispatched to it. */
  ghost predicate Dispatched(ops: seq<Op>, id: string) {
    && (forall i, k :: Dispatches(ops, i, id) && Dispatches(ops, k, id) && ops[i].token == ops[k].token ==> i == k)
    && (forall j :: 0 <= j < |ops| && ops[j].Commit? && ops[j].id == id ==>
          exists i :: i < j && Dispatches(ops, i, id) && ops[i].token == ops[j].token)
  }

  ghost predicate NeverForgets(ops: seq<Op>, states: seq<Cache>, id: string, n: nat)
    requires |states| == |ops| + 1
  {
    forall k :: 0 <= k < n <= |ops| ==> !Forgets(states[k], ops[k], id)
  }

  lemma {:induction false} NewestExists(ops: seq<Op>, states: seq<Cache>, id: string, n: nat, i: nat) returns (newest: nat)
    requires |states| == |ops| + 1 && i < n <= |ops| && Dispatches(ops, i, id) && NeverForgets(ops, states, id, n)
    ensures NewestMark(ops, states, id, n, newest) && newest >= i
    decreases n
  {
    if Dispatches(ops, n - 1, id) {
      newest := n - 1;
    } else {
      newest := NewestExists(ops, states, id, n - 1, i);
    }
  }

  /** In any run, a commit lands exactly when its token is that of the newest dispatch
      since the instance was last forgotten, or there is no such dispatch. */
  lemma {:induction false} LandsExactlyWhen(l: Limits, ops: seq<Op>, states: seq<Cache>, j: nat)
    requires IsRun(l, ops, states) && j < |ops| && ops[j].Commit?
    ensures Lands(ops, states, j)
            <==> forall i: nat :: NewestMark(ops, states, ops[j].id, j, i) ==> ops[i].token == ops[j].token
  {
    hide Does, NewestMark;
    TokenIsNewest(l, ops, states, ops[j].id, j);
  }

  /** As long as the instance has not been forgotten, a commit lands exactly when no newer
      dispatch than its own has been noted, however many resets there were. */
  lemma {:induction false} LandsExactlyWhenNewest(l: Limits, ops: seq<Op>, states: seq<Cache>, id: string,
                                                  i: nat, j: nat)
    requires IsRun(l, ops, states) && Dispatched(ops, id) && j < |ops| && NeverForgets(ops, states, id, j)
    requires ops[j].Commit? && ops[j].id == id && i < j && Dispatches(ops, i, id) && ops[i].token == ops[j].token
    ensures Lands(ops, states, j) <==> forall k :: i < k < j ==> !Dispatches(ops, k, id)
  {
    hide Does, Forgets;
    TokenIsNewest(l, ops, states, id, j);
    var newest := NewestExists(ops, states, id, j, i);
    assert states[j].tokens[id] == ops[newest].token;
    if newest == i {
      assert Lands(ops, states, j);
    }
  }

  /** Commits of one instance that land do so in the order of their dispatches. */
  lemma {:induction false} LandedInDispatchOrder(l: Limits, ops: seq<Op>, states: seq<Cache>, id: string,
                                                 i: nat, j: nat, i': nat, j': nat)
    requires IsRun(l, ops, states) && Dispatched(ops, id) && NeverForgets(ops, states, id, j')
    requires j < j' < |ops| && ops[j].Commit? && ops[j].id == id && ops[j'].Commit? && ops[j'].id == id
    requires i < j && Dispatches(ops, i, id) && ops[i].token == ops[j].token
    requires i' < j' && Dispatches(ops, i', id) && ops[i'].token == ops[j'].token
    requires Lands(ops, states, j) && Lands(ops, states, j')
    ensures i <= i'
  {
    hide Does, Forgets;
    LandsExactlyWhenNewest(l, ops, states, id, i', j');
  }

  /** Why the instance must not have been forgotten: once the newest dispatch has ended the
      instance, a superseded runner's write lands. */
  lemma ForgettingOpensTheFence(l: Limits, id: string, stale: seq<Event>) returns (ops: seq<Op>, states: seq<Cache>)
    requires l.maxInstances > 0
    ensures ops == [Note(id, "old"), Note(id, "new"), Commit(id, "new", [], true, 0), Commit(id, "old", stale, false, 1)]
    ensures IsRun(l, ops, states) && Dispatched(ops, id)
    ensures id in states[4].entries && states[4].entries[id].events == stale
  {
    ops := [Note(id, "old"), Note(id, "new"), Commit(id, "new", [], true, 0), Commit(id, "old", stale, false, 1)];
    var none: Entries := map[];
    var one := none[id := Entry(stale, Measured(l, stale), 1)];
    states := [Cache(none, map[]), Cache(none, map[id := "old"]), Cache(none, map[id := "new"]), Cache(none, map[]),
               Cache(one, map[])];
    assert map[id := "old"][id := "new"] == map[id := "new"];
    assert none - {id} == none;
    assert map[id := "new"] - {id} == map[];
    assert one.Keys == {id};
    assert Puts(l, none, id, stale, 1, one);
    assert ops[0].token == ops[3].token && ops[1].token == ops[2].token;
    assert Dispatches(ops, 0, id) && Dispatches(ops, 1, id);
  }

  // ----- idle instances -----

  /** The operation is a turn's access to the instance: a hit, a put, or a write that lands. */
  predicate Accesses(c: Cache, op: Op, id: string) {
    match op
    case Get(x, _) => x == id && id in c.entries
    case Put(x, _, _) => x == id
    case Commit(x, token, _, ended, _) => x == id && IsLatest(c.tokens, id, token) && !ended
    case _ => false
  }

  /** The instant of the last access. */
  function LastAccess(ops: seq<Op>, states: seq<Cache>, id: string): Option<int>
    requires |states| == |ops| + 1
    decreases |ops|
  {
    if |ops| == 0 then None
    else
      var n := |ops| - 1;
      if Accesses(states[n], ops[n], id) then Some(ops[n].now) else LastAccess(ops[..n], states[..n + 1], id)
  }

  lemma StepAccesses(l: Limits, c: Cache, op: Op, d: Cache, id: string)
    requires Does(l, c, op, d) && id in d.entries
    ensures if Accesses(c, op, id) then d.entries[id].lastAccess == op.now
            else id in c.entries && d.entries[id].lastAccess == c.entries[id].lastAccess
  {
    hide InBounds, StopsAt, Total, Measured;
  }

  lemma {:induction false} AccessIsRecorded(l: Limits, ops: seq<Op>, states: seq<Cache>, id: string)
    requires IsRun(l, ops, states) && id in states[|ops|].entries
    ensures LastAccess(ops, states, id) == Some(states[|ops|].entries[id].lastAccess)
    decreases |ops|
  {
    hide Does, Accesses;
    if |ops| > 0 {
      RunPrefix(l, ops, states);
      var n := |ops| - 1;
      StepAccesses(l, states[n], ops[n], states[n + 1], id);
      if !Accesses(states[n], ops[n], id) { AccessIsRecorded(l, ops[..n], states[..n + 1], id); }
    }
  }

  /** A sweep removes exactly the instances whose last access is longer ago than the
      time-to-live, and keeps the histories of the others. */
  lemma {:induction false} SweepRemovesTheIdle(l: Limits, ops: seq<Op>, states: seq<Cache>, now: int, id: string)
    requires ops != [] && ops[|ops| - 1] == Sweep(now) && IsRun(l, ops, states)
    ensures var n := |ops| - 1;
            var last := LastAccess(ops[..n], states[..n + 1], id);
            && (id in states[n].entries ==> last.Some?)
            && (id in states[n + 1].entries <==> id in states[n].entries && now - last.value <= l.ttl)
            && (id in states[n + 1].entries ==> states[n + 1].entries[id].events == states[n].entries[id].events)
  {
    hide Accesses, Puts;
    var n := |ops| - 1;
    RunPrefix(l, ops, states);
    if id in states[n].entries { AccessIsRecorded(l, ops[..n], states[..n + 1], id); }
  }

  /** Nothing else removes an instance but its own removal or end, a reset, and the eviction
      that a history for another instance causes. */
  lemma {:induction false} OthersStayCached(l: Limits, c: Cache, op: Op, d: Cache, id: string)
    requires Does(l, c, op, d) && id in c.entries && id !in d.entries
    ensures op == Remove(id) || op == Reset || (op.Sweep? && op.now - c.entries[id].lastAccess > l.ttl)
         || (op.Put? && op.id != id)
         || (op.Commit? && IsLatest(c.tokens, op.id, op.token) && (op.ended <==> op.id == id))
  {
    hide InBounds, StopsAt, Total, Measured;
  }

  // ----- bytes -----

  /** The serialized size of a history is that of its events together. */
  lemma {:induction false} SizesAdd(size: Event -> nat, a: seq<Event>, b: seq<Event>)
    ensures SizeOf(size, a + b) == SizeOf(size, a) + SizeOf(size, b)
    ensures forall e :: SizeOf(size, [e]) == size(e)
    decreases |b|
  {
    forall e ensures SizeOf(size, [e]) == size(e) {
      assert [e][..0] == [];
    }
    if b == [] {
      assert a + b == a;
    } else {
      var n := |b| - 1;
      assert (a + b)[..|a + b| - 1] == a + b[..n];
      SizesAdd(size, a, b[..n]);
    }
  }

  /** The sizes of all cached histories together. */
  ghost function CachedSize(size: Event -> nat, entries: Entries): nat
    decreases |entries|
  {
    if entries == map[] then 0
    else
      var id :| id in entries;
      SizeOf(size, entries[id].events) + CachedSize(size, entries - {id})
  }

  lemma {:induction false} TotalIsSize(l: Limits, entries: Entries)
    requires forall id :: id in entries ==> entries[id].bytes == SizeOf(l.size, entries[id].events)
    ensures Total(entries) == CachedSize(l.size, entries)
    decreases |entries|
  {
    hide SizeOf;
    if entries != map[] {
      var id :| id in entries && CachedSize(l.size, entries) == SizeOf(l.size, entries[id].events) + CachedSize(l.size, entries - {id});
      TotalSplits(entries, id);
      TotalIsSize(l, entries - {id});
    }
  }

  /** With a byte budget, in every reachable state the cached histories are together within
      it, or there is only one; without one, sizes do not matter. And the count cap holds. */
  lemma {:induction false} BudgetHolds(l: Limits, ops: seq<Op>, states: seq<Cache>)
    requires IsRun(l, ops, states) && l.maxInstances > 0
    ensures |states[|ops|].entries| <= l.maxInstances
    ensures l.maxBytes > 0 ==>
              CachedSize(l.size, states[|ops|].entries) <= l.maxBytes || |states[|ops|].entries| <= 1
  {
    hide Does, Total, SizeOf, LastWritten;
    AlwaysBounded(l, ops, states);
    if l.maxBytes > 0 {
      var entries := states[|ops|].entries;
      forall id | id in entries ensures entries[id].bytes == SizeOf(l.size, entries[id].events) {
        HitIsLastPut(l, ops, states, id);
      }
      TotalIsSize(l, entries);
    }
  }

  /** A put evicts something only if, with the most recent of what it evicted, the count cap
      or the byte budget would be exceeded. */
  lemma {:induction false} EvictsOnlyIfItMust(l: Limits, entries: Entries, id: string, events: seq<Event>, now: int,
                                              entries': Entries)
    requires Puts(l, entries, id, events, now, entries')
    ensures var all := entries[id := Entry(events, Measured(l, events), now)];
            entries' == all
            || exists last :: last in all && last !in entries'
                 && (|entries'| + 1 > l.maxInstances
                     || (l.maxBytes > 0 && Total(entries') + all[last].bytes > l.maxBytes))
  {
    hide Measured;
    var all := entries[id := Entry(events, Measured(l, events), now)];
    if entries' != all {
      var last :| StopsAt(l, all, entries', last);
      var back := entries'[last := all[last]];
      TotalSplits(back, last);
      assert back - {last} == entries';
      assert back.Keys == entries'.Keys + {last} && |back.Keys| == |entries'.Keys| + 1;
    }
  }

  /** What the cache runs with when it is given no limits of its own. */
  lemma DefaultsAre(ttl: Option<int>, maxInstances: int, maxBytes: int, size: Event -> nat)
    ensures var l := Effective(ttl, maxInstances, maxBytes, size);
            && l.ttl == (if ttl.Some? && ttl.value > 0 then ttl.value else 3_600_000_000_000)
            && l.maxInstances == (if maxInstances > 0 then maxInstances else 100_000)
            && (maxBytes > 0 ==> l.maxBytes == maxBytes) && (maxBytes <= 0 ==> l.maxBytes == 0)
            && l.size == size
  {
  }
}
