/** The two id-keyed maps of the engine and the sequence number that feeds them, with
    the in-place renumbering that lets old histories replay. */
module IdTable {
  import opened WorkflowTypes

  /** One entry of the insertion-ordered map of pending actions. */
  datatype Entry = Entry(key: int, action: Action)

  datatype Table = Table(pending: seq<Entry>, open: map<int, Record>, next: int)

  // ----- the insertion-ordered map -----

  function IndexOf(pending: seq<Entry>, id: int): (r: nat)
    ensures r <= |pending|
    ensures r < |pending| ==> pending[r].key == id
    ensures forall j :: 0 <= j < r ==> pending[j].key != id
  {
    if pending == [] || pending[0].key == id then 0 else 1 + IndexOf(pending[1..], id)
  }

  function Lookup(pending: seq<Entry>, id: int): Option<ActionBody> {
    var i := IndexOf(pending, id);
    if i < |pending| then Some(pending[i].action.body) else None
  }

  /** A key that is already present keeps its place; a new one goes to the end. */
  function Put(pending: seq<Entry>, id: int, body: ActionBody): seq<Entry> {
    var i := IndexOf(pending, id);
    var entry := Entry(id, Action(id, body));
    if i < |pending| then pending[i := entry] else pending + [entry]
  }

  function Remove(pending: seq<Entry>, id: int): seq<Entry> {
    var i := IndexOf(pending, id);
    if i < |pending| then pending[..i] + pending[i + 1..] else pending
  }

  // ----- issuing ids -----

  /** An id that is spent without an action, as every event wait does. */
  function Skip(t: Table): Table {
    t.(next := t.next + 1)
  }

  function IssueQuietly(t: Table, body: ActionBody): Table {
    t.(pending := Put(t.pending, t.next, body), next := t.next + 1)
  }

  function Issue(t: Table, body: ActionBody, rec: Record): Table {
    t.(pending := Put(t.pending, t.next, body), open := t.open[t.next := rec], next := t.next + 1)
  }

  /** An action to issue, with or without a record of the task behind it. */
  datatype Issuance = Quiet(body: ActionBody) | Opened(body: ActionBody, rec: Record)

  function IssueOne(t: Table, i: Issuance): Table {
    match i
    case Quiet(body) => IssueQuietly(t, body)
    case Opened(body, rec) => Issue(t, body, rec)
  }

  /** What a call or a completion does to the ids: it may spend one, and then issue an
      action under the next. */
  function Allot(t: Table, spends: bool, issued: Option<Issuance>): Table {
    var u := if spends then Skip(t) else t;
    if issued.Some? then IssueOne(u, issued.value) else u
  }

  function Forget(t: Table, id: int): Table {
    t.(open := t.open - {id})
  }

  // ----- renumbering -----

  function OptionalAt(t: Table, id: int): bool {
    var body := Lookup(t.pending, id);
    body.Some? && IsOptionalTimer(body.value)
  }

  /** Where a surviving id goes when the id `at` disappears, and back. */
  function Down(at: int, id: int): int { if id > at then id - 1 else id }
  function Up(at: int, id: int): int { if id >= at then id + 1 else id }

  function Renumber(e: Entry, at: int): Entry {
    if e.key > at then Entry(e.key - 1, e.action.(id := e.key - 1)) else e
  }

  function RenumberAll(pending: seq<Entry>, at: int): (r: seq<Entry>)
    ensures |r| == |pending|
    ensures forall i :: 0 <= i < |pending| ==> r[i] == Renumber(pending[i], at)
  {
    seq(|pending|, i requires 0 <= i < |pending| => Renumber(pending[i], at))
  }

  function RenumberOpen(open: map<int, Record>, at: int): map<int, Record> {
    map k | k in (set id | id in open && id != at :: Down(at, id)) && Up(at, k) in open :: open[Up(at, k)]
  }

  function Drop(t: Table, at: int): Table {
    Table(RenumberAll(Remove(t.pending, at), at), RenumberOpen(t.open, at), t.next - 1)
  }

  // ----- acknowledgements -----

  datatype AckKind = TaskAck | ChildAck

  predicate Answers(kind: AckKind, body: Option<ActionBody>) {
    match kind
    case TaskAck => body.Some? && body.value.ScheduleTask?
    case ChildAck => body.Some? && body.value.CreateChild?
  }

  /** `threw` stands for the non-determinism exception; the table is the state that
      the exception leaves behind. */
  datatype Acked = Acked(table: Table, threw: bool)

  function AckCall(t: Table, id: int, kind: AckKind): Acked {
    if Answers(kind, Lookup(t.pending, id)) then
      Acked(t.(pending := Remove(t.pending, id)), false)
    else if OptionalAt(t, id) then
      var u := Drop(t, id);
      if Answers(kind, Lookup(u.pending, id)) then
        Acked(u.(pending := Remove(u.pending, id)), false)
      else Acked(u, true)
    else Acked(t, true)
  }

  /** The timer handler removes whatever sits at the id before it looks at it. */
  function AckTimer(t: Table, id: int, optional: bool): Acked {
    if id == INFRASTRUCTURE_TIMER_ID then Acked(t, false)
    else
      var u := if OptionalAt(t, id) && !optional then Drop(t, id) else t;
      var body := Lookup(u.pending, id);
      Acked(u.(pending := Remove(u.pending, id)), body.None? || !body.value.CreateTimer?)
  }

  // ----- the id invariant -----

  /** Keys ascend in insertion order, each is its own action's id, and every id in use
      is at least zero and below the next one. */
  ghost predicate Ordered(t: Table) {
    && (forall i, j :: 0 <= i < j < |t.pending| ==> t.pending[i].key < t.pending[j].key)
    && (forall i :: 0 <= i < |t.pending| ==> t.pending[i].key == t.pending[i].action.id < t.next)
    && (forall i :: 0 <= i < |t.pending| ==> 0 <= t.pending[i].key)
    && 0 <= t.next
    && (forall id :: id in t.open ==> id < t.next)
  }

  lemma IndexOfKey(pending: seq<Entry>, i: nat)
    requires i < |pending|
    requires forall j :: 0 <= j < i ==> pending[j].key != pending[i].key
    ensures IndexOf(pending, pending[i].key) == i
  {
    assert IndexOf(pending, pending[i].key) >= i;
  }

  /** A new id is new in both maps, so issuing it appends. */
  lemma FreshId(t: Table)
    requires Ordered(t)
    ensures IndexOf(t.pending, t.next) == |t.pending| && t.next !in t.open
  {
  }

  lemma IssueAppends(t: Table, i: Issuance)
    requires Ordered(t)
    ensures Ordered(IssueOne(t, i))
    ensures IssueOne(t, i).pending == t.pending + [Entry(t.next, Action(t.next, i.body))]
  {
    FreshId(t);
  }

  lemma DownIsBijective(open: map<int, Record>, at: int)
    ensures forall id | id in open && id != at ::
              Down(at, id) in RenumberOpen(open, at) && RenumberOpen(open, at)[Down(at, id)] == open[id]
    ensures forall k | k in RenumberOpen(open, at) ::
              Up(at, k) in open && Up(at, k) != at && Down(at, Up(at, k)) == k
  {
    forall id | id in open && id != at
      ensures Down(at, id) in RenumberOpen(open, at) && RenumberOpen(open, at)[Down(at, id)] == open[id]
    {
      assert Up(at, Down(at, id)) == id;
    }
  }

  lemma RemovedIsOrdered(t: Table, at: int)
    requires Ordered(t)
    ensures var rest := Remove(t.pending, at);
            && (forall i, j :: 0 <= i < j < |rest| ==> rest[i].key < rest[j].key)
            && (forall i :: 0 <= i < |rest| ==> rest[i].key != at && rest[i] in t.pending)
            && |rest| == |t.pending| - (if Lookup(t.pending, at).Some? then 1 else 0)
  {
    var k := IndexOf(t.pending, at);
    var rest := Remove(t.pending, at);
    assert forall i :: 0 <= i < |rest| ==> rest[i] == t.pending[if i < k then i else i + 1];
  }

  lemma DropKeepsOrder(t: Table, at: int)
    requires Ordered(t) && OptionalAt(t, at)
    ensures Ordered(Drop(t, at))
    ensures |Drop(t, at).pending| == |t.pending| - 1
  {
    hide Remove, Lookup, RenumberOpen, IsOptionalTimer;
    RemovedIsOrdered(t, at);
    DownIsBijective(t.open, at);
    AtIsUsed(t, at);
  }

  lemma AtIsUsed(t: Table, at: int)
    requires Ordered(t) && OptionalAt(t, at)
    ensures 0 <= at < t.next
  {
  }

  /** Dropping the i-th entry, entry by entry. */
  lemma DropEntries(t: Table, i: nat)
    requires Ordered(t) && i < |t.pending| && IsOptionalTimer(t.pending[i].action.body)
    ensures var d := Drop(t, t.pending[i].key);
            && Ordered(d) && |d.pending| == |t.pending| - 1 && d.next == t.next - 1
            && (forall j :: 0 <= j < i ==> d.pending[j] == t.pending[j])
            && (forall j :: i <= j < |d.pending| ==>
                  d.pending[j] == Entry(t.pending[j + 1].key - 1, Action(t.pending[j + 1].key - 1, t.pending[j + 1].action.body)))
  {
    var at := t.pending[i].key;
    IndexOfKey(t.pending, i);
    DropKeepsOrder(t, at);
    var rest := Remove(t.pending, at);
    assert forall j :: 0 <= j < |rest| ==> rest[j] == t.pending[if j < i then j else j + 1];
  }

  /** In an ordered map an entry is found under its key, and nothing else is. */
  lemma LookupIs(t: Table, id: int)
    requires Ordered(t)
    ensures forall j :: 0 <= j < |t.pending| && t.pending[j].key == id ==> Lookup(t.pending, id) == Some(t.pending[j].action.body)
    ensures Lookup(t.pending, id).Some? ==> exists j :: 0 <= j < |t.pending| && t.pending[j].key == id
  {
    var i := IndexOf(t.pending, id);
    if i < |t.pending| {
      assert t.pending[i].key == id;
    }
  }

  /** Dropping the optional timer at `at` renumbers and does nothing else. The timer's
      action and record are gone; every other id keeps its action and its record, both
      under the same new id; no two ids become one; and the actions keep their order. */
  lemma {:induction false} DropRenumbers(t: Table, at: int) returns (i: nat)
    requires Ordered(t) && OptionalAt(t, at)
    ensures var d := Drop(t, at);
            && Ordered(d) && d.next == t.next - 1
            && (forall id | id != at :: Lookup(d.pending, Down(at, id)) == Lookup(t.pending, id))
            && (forall id | id != at :: Down(at, id) in d.open <==> id in t.open)
            && (forall id | id != at && id in t.open :: d.open[Down(at, id)] == t.open[id])
            && (forall id, other | id != at && other != at && id < other :: Down(at, id) < Down(at, other))
            && (forall k :: Up(at, k) != at && Down(at, Up(at, k)) == k)
            && i < |t.pending| && t.pending[i].key == at
            && Bodies(d.pending) == Bodies(t.pending)[..i] + Bodies(t.pending)[i + 1..]
  {
    hide Drop, Ordered, Lookup, RenumberOpen;
    i := IndexOf(t.pending, at);
    assert i < |t.pending| && IsOptionalTimer(t.pending[i].action.body) by { OptionalIsThere(t, at); }
    DropEntries(t, i);
    forall id | id != at
      ensures Lookup(Drop(t, at).pending, Down(at, id)) == Lookup(t.pending, id)
    {
      LookupMoves(t, i, id);
    }
    OpenMoves(t, at);
  }

  lemma OptionalIsThere(t: Table, at: int)
    requires OptionalAt(t, at)
    ensures IndexOf(t.pending, at) < |t.pending| && IsOptionalTimer(t.pending[IndexOf(t.pending, at)].action.body)
  {
  }

  lemma OpenMoves(t: Table, at: int)
    ensures var d := Drop(t, at);
            && (forall id | id != at :: Down(at, id) in d.open <==> id in t.open)
            && (forall id | id != at && id in t.open :: d.open[Down(at, id)] == t.open[id])
  {
    hide RenumberOpen, RenumberAll, Remove;
    DownIsBijective(t.open, at);
    forall id | id != at && Down(at, id) in RenumberOpen(t.open, at) ensures id in t.open {
      assert Up(at, Down(at, id)) == id;
    }
  }

  lemma LookupMoves(t: Table, i: nat, id: int)
    requires Ordered(t) && i < |t.pending| && IsOptionalTimer(t.pending[i].action.body) && id != t.pending[i].key
    ensures Lookup(Drop(t, t.pending[i].key).pending, Down(t.pending[i].key, id)) == Lookup(t.pending, id)
  {
    hide Lookup, Drop;
    var at := t.pending[i].key;
    var d := Drop(t, at);
    DropEntries(t, i);
    LookupIs(t, id);
    LookupIs(d, Down(at, id));
    if j :| 0 <= j < |t.pending| && t.pending[j].key == id {
      var k := if j < i then j else j - 1;
      assert d.pending[k].key == Down(at, id);
    } else {
      forall k | 0 <= k < |d.pending| ensures d.pending[k].key != Down(at, id) {
        var j := if k < i then k else k + 1;
        assert d.pending[k].key == Down(at, t.pending[j].key);
      }
    }
  }

  function Bodies(pending: seq<Entry>): (r: seq<ActionBody>)
    ensures |r| == |pending|
    ensures forall i :: 0 <= i < |pending| ==> r[i] == pending[i].action.body
  {
    seq(|pending|, i requires 0 <= i < |pending| => pending[i].action.body)
  }
}
