/** The cache of committed histories: least-recently-used eviction under a count cap and a
    byte budget, a sliding time-to-live, and a fence of dispatch tokens. */
module HistoryCache {
  import opened WorkflowTypes

  const DEFAULT_TTL: int := 3600 * NANOS_PER_SECOND
  const DEFAULT_MAX_INSTANCES: int := 100_000

  datatype Entry = Entry(events: seq<Event>, bytes: nat, lastAccess: int)

  type Entries = map<string, Entry>

  /** `size` is the serialized size of an event; a budget of zero means no budget. */
  datatype Limits = Limits(ttl: int, maxInstances: nat, maxBytes: nat, size: Event -> nat)

  function Effective(ttl: Option<int>, maxInstances: int, maxBytes: int, size: Event -> nat): (l: Limits)
    ensures l.ttl > 0 && l.maxInstances > 0
  {
    Limits(if ttl.Some? && ttl.value > 0 then ttl.value else DEFAULT_TTL,
           if maxInstances > 0 then maxInstances else DEFAULT_MAX_INSTANCES,
           if maxBytes > 0 then maxBytes else 0,
           size)
  }

  // ----- sizes -----

  function SizeOf(size: Event -> nat, events: seq<Event>): nat {
    if events == [] then 0 else SizeOf(size, events[..|events| - 1]) + size(events[|events| - 1])
  }

  function Measured(l: Limits, events: seq<Event>): nat {
    if l.maxBytes > 0 then SizeOf(l.size, events) else 0
  }

  ghost function Total(entries: Entries): nat {
    if entries == map[] then 0
    else
      var id :| id in entries;
      entries[id].bytes + Total(entries - {id})
  }

  /** The total does not depend on the order of summation. */
  lemma {:induction false} TotalSplits(entries: Entries, id: string)
    requires id in entries
    ensures Total(entries) == entries[id].bytes + Total(entries - {id})
    decreases |entries|
  {
    var first :| first in entries && Total(entries) == entries[first].bytes + Total(entries - {first});
    if first != id {
      TotalSplits(entries - {first}, id);
      TotalSplits(entries - {id}, first);
      assert entries - {first} - {id} == entries - {id} - {first};
    }
  }

  lemma TotalAfterPut(entries: Entries, id: string, entry: Entry)
    ensures Total(entries[id := entry])
         == Total(entries) - (if id in entries then entries[id].bytes else 0) + entry.bytes
  {
    hide Total;
    TotalSplits(entries[id := entry], id);
    assert entries[id := entry] - {id} == entries - {id};
    if id in entries {
      TotalSplits(entries, id);
    } else {
      assert entries - {id} == entries;
    }
  }

  // ----- bounds and victims -----

  predicate Fits(l: Limits, count: nat, bytes: int) {
    count <= l.maxInstances && (l.maxBytes > 0 ==> bytes <= l.maxBytes)
  }

  ghost predicate InBounds(l: Limits, entries: Entries) {
    Fits(l, |entries|, Total(entries))
  }

  ghost predicate IsVictim(entries: Entries, keep: string, id: string) {
    && id in entries && id != keep
    && forall other :: other in entries && other != keep ==> entries[id].lastAccess <= entries[other].lastAccess
  }

  /** `kept` is part of `entries` and holds `keep`, and what is gone was no more recent
      than anything kept, save `keep`. */
  ghost predicate LeavesRecent(entries: Entries, keep: string, kept: Entries) {
    && keep in kept
    && kept.Keys <= entries.Keys
    && (forall id :: id in kept ==> kept[id] == entries[id])
    && (forall gone, id :: gone in entries && gone !in kept && id in kept && id != keep ==>
          entries[gone].lastAccess <= entries[id].lastAccess)
  }

  /** Eviction has not gone too far: with the most recent of the evicted entries, `last`,
      the bounds would still be exceeded. */
  ghost predicate StopsAt(l: Limits, entries: Entries, kept: Entries, last: string) {
    && last in entries && last !in kept
    && (forall gone :: gone in entries && gone !in kept ==> entries[gone].lastAccess <= entries[last].lastAccess)
    && !InBounds(l, kept[last := entries[last]])
  }

  ghost predicate EvictsToFit(l: Limits, entries: Entries, keep: string, kept: Entries) {
    && LeavesRecent(entries, keep, kept)
    && (InBounds(l, kept) || kept.Keys == {keep})
    && (kept == entries || exists last :: StopsAt(l, entries, kept, last))
  }

  lemma EvictMore(l: Limits, entries: Entries, keep: string, kept: Entries, victim: string)
    requires LeavesRecent(entries, keep, kept) && IsVictim(kept, keep, victim) && !InBounds(l, kept)
    ensures LeavesRecent(entries, keep, kept - {victim})
    ensures StopsAt(l, entries, kept - {victim}, victim)
    ensures Total(kept - {victim}) == Total(kept) - kept[victim].bytes
  {
    TotalSplits(kept, victim);
    assert (kept - {victim})[victim := entries[victim]] == kept;
  }

  // ----- the cache as a value, and what each operation does to it -----

  datatype Cache = Cache(entries: Entries, tokens: map<string, string>)

  datatype Op =
    | Get(id: string, now: int)
    | Put(id: string, events: seq<Event>, now: int)
    | Remove(id: string)
    | Reset
    | Sweep(now: int)
    | Note(id: string, token: string)
    | Forget(id: string)
    | Commit(id: string, token: string, events: seq<Event>, ended: bool, now: int)

  function Touch(entries: Entries, id: string, now: int): Entries {
    if id in entries then entries[id := entries[id].(lastAccess := now)] else entries
  }

  predicate IsLatest(tokens: map<string, string>, id: string, token: string) {
    id in tokens ==> tokens[id] == token
  }

  ghost predicate Puts(l: Limits, entries: Entries, id: string, events: seq<Event>, now: int, entries': Entries) {
    EvictsToFit(l, entries[id := Entry(events, Measured(l, events), now)], id, entries')
  }

  /** Which entries have outlived the time-to-live. */
  ghost predicate Sweeps(l: Limits, entries: Entries, now: int, entries': Entries) {
    && (forall id :: id in entries' <==> id in entries && now - entries[id].lastAccess <= l.ttl)
    && (forall id :: id in entries' ==> entries'[id] == entries[id])
  }

  /** `d` is a state that `c` can be in after `op`: eviction may choose among entries that
      were accessed at the same instant, everything else is determined. A commit is the
      runner's gated write after a turn. */
  ghost predicate Does(l: Limits, c: Cache, op: Op, d: Cache) {
    match op
    case Get(id, now) => d == c.(entries := Touch(c.entries, id, now))
    case Put(id, events, now) => d.tokens == c.tokens && Puts(l, c.entries, id, events, now, d.entries)
    case Remove(id) => d == c.(entries := c.entries - {id})
    case Reset => d == c.(entries := map[])
    case Sweep(now) => d.tokens == c.tokens && Sweeps(l, c.entries, now, d.entries)
    case Note(id, token) => d == c.(tokens := c.tokens[id := token])
    case Forget(id) => d == c.(tokens := c.tokens - {id})
    case Commit(id, token, events, ended, now) =>
      if !IsLatest(c.tokens, id, token) then d == c
      else if ended then d == Cache(c.entries - {id}, c.tokens - {id})
      else d.tokens == c.tokens && Puts(l, c.entries, id, events, now, d.entries)
  }

  // ----- the object -----

  class WorkflowHistoryCache {
    const limits: Limits
    var entries: Entries
    var latestTokens: map<string, string>
    var totalBytes: int

    ghost predicate Valid()
      reads this
    {
      totalBytes == Total(entries)
    }

    ghost function Contents(): Cache
      reads this
    {
      Cache(entries, latestTokens)
    }

    constructor (ttl: Option<int>, maxInstances: int, maxBytes: int, size: Event -> nat)
      ensures Valid() && Contents() == Cache(map[], map[])
      ensures limits == Effective(ttl, maxInstances, maxBytes, size)
    {
      limits := Effective(ttl, maxInstances, maxBytes, size);
      entries, latestTokens, totalBytes := map[], map[], 0;
    }

    method GetHistory(id: string, now: int) returns (r: Option<seq<Event>>)
      requires Valid()
      modifies this
      ensures Valid() && Does(limits, old(Contents()), Get(id, now), Contents())
      ensures r == if id in old(entries) then Some(old(entries)[id].events) else None
    {
      if id !in entries {
        return None;
      }
      ghost var was := entries;
      entries := entries[id := entries[id].(lastAccess := now)];
      r := Some(entries[id].events);
      TotalSplits(was, id);
      TotalSplits(entries, id);
      assert entries - {id} == was - {id};
    }

    method PutHistory(id: string, events: seq<Event>, now: int)
      requires Valid()
      modifies this
      ensures Valid() && Does(limits, old(Contents()), Put(id, events, now), Contents())
    {
      hide Total, EvictsToFit, SizeOf;
      var bytes := 0;
      if limits.maxBytes > 0 {
        bytes := Measure(events);
      }
      TotalAfterPut(entries, id, Entry(events, bytes, now));
      if id in entries {
        totalBytes := totalBytes - entries[id].bytes;
      }
      entries := entries[id := Entry(events, bytes, now)];
      totalBytes := totalBytes + bytes;
      EvictToFit(id);
    }

    method Measure(events: seq<Event>) returns (bytes: nat)
      ensures bytes == SizeOf(limits.size, events)
    {
      bytes := 0;
      for i := 0 to |events|
        invariant bytes == SizeOf(limits.size, events[..i])
      {
        assert events[..i + 1][..i] == events[..i];
        bytes := bytes + limits.size(events[i]);
      }
      assert events[..|events|] == events;
    }

    method RemoveHistory(id: string)
      requires Valid()
      modifies this`entries, this`totalBytes
      ensures Valid() && Does(limits, old(Contents()), Remove(id), Contents())
    {
      if id in entries {
        TotalSplits(entries, id);
        totalBytes := totalBytes - entries[id].bytes;
      } else {
        assert entries - {id} == entries;
      }
      entries := entries - {id};
    }

    method NoteDispatch(id: string, token: string)
      requires Valid()
      modifies this`latestTokens
      ensures Valid() && Does(limits, old(Contents()), Note(id, token), Contents())
    {
      latestTokens := latestTokens[id := token];
    }

    method IsLatestDispatch(id: string, token: string) returns (latest: bool)
      ensures latest <==> IsLatest(latestTokens, id, token)
    {
      latest := id !in latestTokens || latestTokens[id] == token;
    }

    method ForgetDispatch(id: string)
      requires Valid()
      modifies this`latestTokens
      ensures Valid() && Does(limits, old(Contents()), Forget(id), Contents())
    {
      latestTokens := latestTokens - {id};
    }

    /** The tokens survive on purpose. */
    method Clear()
      modifies this`entries, this`totalBytes
      ensures Valid() && Does(limits, old(Contents()), Reset, Contents())
    {
      entries, totalBytes := map[], 0;
    }

    method SweepExpired(now: int)
      requires Valid()
      modifies this`entries, this`totalBytes
      ensures Valid() && Does(limits, old(Contents()), Sweep(now), Contents())
    {
      var expired := set id | id in entries && now - entries[id].lastAccess > limits.ttl;
      var rest := expired;
      while rest != {}
        invariant Valid() && rest <= expired
        invariant entries == old(entries) - (expired - rest)
        decreases |rest|
      {
        var id :| id in rest;
        RemoveHistory(id);
        rest := rest - {id};
        assert entries == old(entries) - (expired - rest);
      }
    }

    method EvictToFit(keep: string)
      requires Valid() && keep in entries
      modifies this`entries, this`totalBytes
      ensures Valid() && EvictsToFit(limits, old(entries), keep, entries)
    {
      ghost var last := keep;
      while |entries| > 1
        invariant Valid() && LeavesRecent(old(entries), keep, entries)
        invariant entries == old(entries) || StopsAt(limits, old(entries), entries, last)
        decreases |entries|
      {
        var overCount := |entries| > limits.maxInstances;
        var overBytes := limits.maxBytes > 0 && totalBytes > limits.maxBytes;
        if !overCount && !overBytes {
          return;
        }
        var victim := LeastRecentlyUsedExcept(keep);
        if victim.None? {
          return;
        }
        EvictMore(limits, old(entries), keep, entries, victim.value);
        last := victim.value;
        RemoveHistory(victim.value);
      }
      AloneIsKeep(entries, keep);
    }

    method LeastRecentlyUsedExcept(keep: string) returns (oldest: Option<string>)
      ensures oldest.None? ==> entries.Keys <= {keep}
      ensures oldest.Some? ==> IsVictim(entries, keep, oldest.value)
    {
      oldest := None;
      var oldestAccess := 0x7FFF_FFFF_FFFF_FFFF;
      var rest := entries.Keys;
      while rest != {}
        invariant rest <= entries.Keys
        invariant oldest.None? ==> forall id | id in entries && id !in rest :: id == keep
        invariant oldest.Some? ==> oldest.value in entries && oldest.value != keep
                                   && entries[oldest.value].lastAccess == oldestAccess
        invariant oldest.Some? ==>
                    forall id | id in entries && id !in rest && id != keep :: oldestAccess <= entries[id].lastAccess
        decreases |rest|
      {
        var id :| id in rest;
        rest := rest - {id};
        if id == keep {
          continue;
        }
        if oldest.None? || entries[id].lastAccess < oldestAccess {
          oldest, oldestAccess := Some(id), entries[id].lastAccess;
        }
      }
    }

    /** The runner's write after a turn, taken as one atomic step. */
    method UpdateHistory(id: string, token: string, events: seq<Event>, ended: bool, now: int)
      requires Valid()
      modifies this
      ensures Valid() && Does(limits, old(Contents()), Commit(id, token, events, ended, now), Contents())
    {
      var latest := IsLatestDispatch(id, token);
      if !latest {
        return;
      }
      if ended {
        RemoveHistory(id);
        ForgetDispatch(id);
      } else {
        PutHistory(id, events, now);
      }
    }
  }

  lemma AloneIsKeep(entries: Entries, keep: string)
    requires keep in entries && |entries| <= 1
    ensures entries.Keys == {keep}
  {
    if id :| id in entries && id != keep {
      assert {id, keep} <= entries.Keys;
      SmallerSet({id, keep}, entries.Keys);
    }
  }

  lemma {:induction false} SmallerSet<T>(a: set<T>, b: set<T>)
    requires a <= b
    ensures |a| <= |b|
    decreases |a|
  {
    if a != {} {
      var x :| x in a;
      SmallerSet(a - {x}, b - {x});
    }
  }
}
