// The in-memory delivery store: three dictionaries behind one lock, the reference
// form of the lease queue.
module MemoryStore {
  import opened Delivery
  import opened LeaseMachine

  // A snapshot of the store.  `order` is the insertion order of the records
  // dictionary, which the stable sort of a claim falls back on.
  datatype MemState = MemState(
    order: seq<Id>,
    records: map<Id, Record>,
    log: map<Id, seq<Attempt>>,
    leases: map<Id, Time>)

  ghost predicate Valid(s: MemState) {
    && Distinct(s.order)
    && (forall id :: id in s.order <==> id in s.records)
    && (forall id :: id in s.records ==> s.records[id].deliveryId == id && id in s.log)
    && s.leases.Keys <= s.records.Keys
  }

  // A row is in flight exactly when it has a lease entry, and it was due when leased.
  ghost predicate LeasesAgree(s: MemState) {
    && (forall id :: id in s.leases <==> id in s.records && s.records[id].status.InFlight?)
    && (forall id :: id in s.leases ==> s.records[id].fireAt <= s.leases[id])
  }

  // ---- What each operation does to the snapshot --------------------------------

  ghost function EnqueueOne(s: MemState, r: Record): MemState {
    if r.deliveryId in s.records then s
    else s.(order := s.order + [r.deliveryId], records := s.records[r.deliveryId := r],
      log := s.log[r.deliveryId := []])
  }

  ghost function Enqueued(s: MemState, rs: seq<Record>): MemState {
    if rs == [] then s else EnqueueOne(Enqueued(s, rs[..|rs| - 1]), rs[|rs| - 1])
  }

  // A mark on an unknown id raises KeyError before it changes anything.
  ghost function Marked(s: MemState, id: Id, r: Record, a: Attempt): MemState
    requires id in s.log
  {
    s.(records := s.records[id := r], log := s.log[id := s.log[id] + [a]], leases := s.leases - {id})
  }

  ghost function MarkedSent(s: MemState, id: Id, a: Attempt): MemState {
    if id in s.records && id in s.log then Marked(s, id, s.records[id].(status := Sent), a) else s
  }

  ghost function MarkedDead(s: MemState, id: Id, a: Attempt): MemState {
    if id in s.records && id in s.log then Marked(s, id, s.records[id].(status := DeadLettered), a) else s
  }

  ghost function RetryScheduled(s: MemState, id: Id, fireAt: Time, a: Attempt): MemState {
    if id in s.records && id in s.log
    then Marked(s, id,
      s.records[id].(status := FailedRetry, fireAt := fireAt, attempts := s.records[id].attempts + 1), a)
    else s
  }

  ghost function AttemptAppended(s: MemState, id: Id, a: Attempt): MemState {
    s.(log := s.log[id := (if id in s.log then s.log[id] else []) + [a]])
  }

  predicate IsReady(r: Record, now: Time) {
    r.status.Claimable() && r.fireAt <= now
  }

  function ReadyRows(order: seq<Id>, records: map<Id, Record>, now: Time): (rs: seq<Record>)
    requires forall id :: id in order ==> id in records
  {
    if order == [] then []
    else
      var rest := ReadyRows(order[..|order| - 1], records, now);
      var last := records[order[|order| - 1]];
      if IsReady(last, now) then rest + [last] else rest
  }

  // Stable sort by firing time: a row goes after every earlier row it ties with.
  function InsertByFireAt(sorted: seq<Record>, r: Record): seq<Record> {
    if sorted == [] || sorted[|sorted| - 1].fireAt <= r.fireAt then sorted + [r]
    else InsertByFireAt(sorted[..|sorted| - 1], r) + [sorted[|sorted| - 1]]
  }

  function SortByFireAt(rs: seq<Record>): seq<Record> {
    if rs == [] then [] else InsertByFireAt(SortByFireAt(rs[..|rs| - 1]), rs[|rs| - 1])
  }

  function Batch(order: seq<Id>, records: map<Id, Record>, now: Time, n: nat): seq<Record>
    requires forall id :: id in order ==> id in records
  {
    var ready := SortByFireAt(ReadyRows(order, records, now));
    ready[..Min(n, |ready|)]
  }

  ghost function Ids(rs: seq<Record>): seq<Id> {
    seq(|rs|, i requires 0 <= i < |rs| => rs[i].deliveryId)
  }

  ghost function IdsOf(rs: seq<Record>): set<Id> {
    set r | r in rs :: r.deliveryId
  }

  ghost function LeaseIds(s: MemState, ids: set<Id>, expiry: Time): MemState {
    s.(records := map id | id in s.records :: if id in ids then s.records[id].(status := InFlight) else s.records[id],
       leases := map id | id in s.leases.Keys + ids :: if id in ids then expiry else s.leases[id])
  }

  ghost function BatchIds(s: MemState, now: Time, n: nat): set<Id>
    requires Valid(s)
  {
    IdsOf(Batch(s.order, s.records, now, n))
  }

  ghost function Claimed(s: MemState, now: Time, ttl: nat, n: nat): MemState
    requires Valid(s)
  {
    LeaseIds(s, BatchIds(s, now, n), now + Span(ttl))
  }

  ghost function StaleIds(s: MemState, now: Time): set<Id> {
    set id | id in s.leases && s.leases[id] < now && id in s.records && s.records[id].status.InFlight?
  }

  ghost function Returned(s: MemState, ids: set<Id>): MemState {
    s.(records := map id | id in s.records :: if id in ids then s.records[id].(status := Pending) else s.records[id],
       leases := s.leases - ids)
  }

  ghost function Reclaimed(s: MemState, now: Time): MemState {
    Returned(s, StaleIds(s, now))
  }

  // Leasing or returning one more id is one more iteration of the store's loop.
  lemma LeaseOneMore(s: MemState, ids: set<Id>, id: Id, expiry: Time)
    requires id in s.records
    ensures var t := LeaseIds(s, ids, expiry);
      LeaseIds(s, ids + {id}, expiry)
      == t.(records := t.records[id := s.records[id].(status := InFlight)], leases := t.leases[id := expiry])
  {
  }

  lemma ReturnOneMore(s: MemState, ids: set<Id>, id: Id)
    requires id in s.records
    ensures var t := Returned(s, ids);
      Returned(s, ids + {id})
      == t.(records := t.records[id := s.records[id].(status := Pending)], leases := t.leases - {id})
  {
  }

  // ---- The store itself ----------------------------------------------------------

  class MemoryWebhookDeliveryStore {
    var order: seq<Id>
    var records: map<Id, Record>
    var log: map<Id, seq<Attempt>>
    var leases: map<Id, Time>

    ghost function State(): MemState
      reads this
    {
      MemState(order, records, log, leases)
    }

    constructor ()
      ensures State() == MemState([], map[], map[], map[])
    {
      order, records, log, leases := [], map[], map[], map[];
    }

    method EnqueueMany(rs: seq<Record>)
      modifies this
      ensures State() == Enqueued(old(State()), rs)
    {
      for i := 0 to |rs|
        invariant State() == Enqueued(old(State()), rs[..i])
      {
        assert rs[..i + 1][..i] == rs[..i];
        var r := rs[i];
        if r.deliveryId !in records {
          order := order + [r.deliveryId];
          records := records[r.deliveryId := r];
          log := log[r.deliveryId := []];
        }
      }
      assert rs[..|rs|] == rs;
    }

    method MarkSent(id: Id, a: Attempt) returns (found: bool)
      requires Valid(State())
      modifies this
      ensures found == (id in old(records))
      ensures State() == MarkedSent(old(State()), id, a)
    {
      found := id in records;
      if found {
        records := records[id := records[id].(status := Sent)];
        log := log[id := log[id] + [a]];
        leases := leases - {id};
      }
    }

    method ScheduleRetry(id: Id, fireAt: Time, a: Attempt) returns (found: bool)
      requires Valid(State())
      modifies this
      ensures found == (id in old(records))
      ensures State() == RetryScheduled(old(State()), id, fireAt, a)
    {
      found := id in records;
      if found {
        var rec := records[id];
        records := records[id := rec.(status := FailedRetry, fireAt := fireAt, attempts := rec.attempts + 1)];
        log := log[id := log[id] + [a]];
        leases := leases - {id};
      }
    }

    method MarkDead(id: Id, a: Attempt) returns (found: bool)
      requires Valid(State())
      modifies this
      ensures found == (id in old(records))
      ensures State() == MarkedDead(old(State()), id, a)
    {
      found := id in records;
      if found {
        records := records[id := records[id].(status := DeadLettered)];
        log := log[id := log[id] + [a]];
        leases := leases - {id};
      }
    }

    method AppendAttempt(id: Id, a: Attempt)
      modifies this
      ensures State() == AttemptAppended(old(State()), id, a)
    {
      if id !in log {
        log := log[id := []];
      }
      log := log[id := log[id] + [a]];
    }

    // Returns the rows as they were before they were leased.
    method ClaimBatch(now: Time, ttl: nat, n: nat) returns (batch: seq<Record>)
      requires Valid(State())
      modifies this
      ensures batch == Batch(old(order), old(records), now, n)
      ensures State() == Claimed(old(State()), now, ttl, n)
    {
      batch := Batch(order, records, now, n);
      BatchIsStored(State(), now, n);
      LeaseAll(batch, now + Span(ttl));
    }

    method LeaseAll(batch: seq<Record>, expiry: Time)
      requires forall r :: r in batch ==> r.deliveryId in records && records[r.deliveryId] == r
      modifies this
      ensures State() == LeaseIds(old(State()), IdsOf(batch), expiry)
    {
      for i := 0 to |batch|
        invariant State() == LeaseIds(old(State()), IdsOf(batch[..i]), expiry)
      {
        var r := batch[i];
        assert batch[..i + 1] == batch[..i] + [r];
        LeaseOneMore(old(State()), IdsOf(batch[..i]), r.deliveryId, expiry);
        assert IdsOf(batch[..i + 1]) == IdsOf(batch[..i]) + {r.deliveryId};
        records := records[r.deliveryId := r.(status := InFlight)];
        leases := leases[r.deliveryId := expiry];
      }
      assert batch[..|batch|] == batch;
    }

    method ReclaimStale(now: Time) returns (count: nat)
      requires Valid(State())
      modifies this
      ensures State() == Reclaimed(old(State()), now)
      ensures count == |StaleIds(old(State()), now)|
    {
      var stale := set id | id in leases && leases[id] < now && records[id].status.InFlight?;
      assert stale == StaleIds(State(), now);
      ReturnAll(stale);
      count := |stale|;
    }

    method ReturnAll(stale: set<Id>)
      requires stale <= records.Keys
      modifies this
      ensures State() == Returned(old(State()), stale)
    {
      ghost var before := State();
      var todo, done := stale, {};
      while todo != {}
        invariant stale == done + todo
        invariant State() == Returned(before, done) && records.Keys == before.records.Keys
        decreases |todo|
      {
        var id :| id in todo;
        ReturnOneMore(before, done, id);
        assert done + {id} + (todo - {id}) == done + todo;
        records := records[id := records[id].(status := Pending)];
        leases := leases - {id};
        todo, done := todo - {id}, done + {id};
      }
    }
  }

  // ---- Sort and slice is a legal claim -------------------------------------------

  ghost function Position(order: seq<Id>): (pos: map<Id, nat>)
    requires Distinct(order)
    ensures pos.Keys == Elements(order)
    ensures forall i :: 0 <= i < |order| ==> order[i] in pos && pos[order[i]] == i
  {
    if order == [] then map[] else Position(order[..|order| - 1])[order[|order| - 1] := |order| - 1]
  }

  // The order in which a claim serves due rows: by firing time, then by age in the dictionary.
  ghost predicate Precedes(pos: map<Id, nat>, a: Record, b: Record)
    requires a.deliveryId in pos && b.deliveryId in pos
  {
    a.fireAt < b.fireAt || (a.fireAt == b.fireAt && pos[a.deliveryId] < pos[b.deliveryId])
  }

  ghost predicate Ranked(pos: map<Id, nat>, rs: seq<Record>) {
    && (forall i :: 0 <= i < |rs| ==> rs[i].deliveryId in pos)
    && (forall i, j :: 0 <= i < j < |rs| ==> Precedes(pos, rs[i], rs[j]))
  }

  lemma {:induction false} InsertKeepsRank(pos: map<Id, nat>, t: seq<Record>, r: Record)
    requires Ranked(pos, t) && r.deliveryId in pos
    requires forall i :: 0 <= i < |t| ==> pos[t[i].deliveryId] < pos[r.deliveryId]
    ensures Ranked(pos, InsertByFireAt(t, r))
    ensures forall x :: x in InsertByFireAt(t, r) <==> x in t || x == r
    ensures |InsertByFireAt(t, r)| == |t| + 1
  {
    if t != [] && t[|t| - 1].fireAt > r.fireAt {
      var front, last := t[..|t| - 1], t[|t| - 1];
      InsertKeepsRank(pos, front, r);
      assert t == front + [last];
      var u := InsertByFireAt(front, r);
      forall i | 0 <= i < |u| ensures Precedes(pos, u[i], last) {
        assert u[i] in u;
      }
    }
  }

  lemma {:induction false} SortRanks(pos: map<Id, nat>, rs: seq<Record>)
    requires forall i :: 0 <= i < |rs| ==> rs[i].deliveryId in pos
    requires forall i, j :: 0 <= i < j < |rs| ==> pos[rs[i].deliveryId] < pos[rs[j].deliveryId]
    ensures Ranked(pos, SortByFireAt(rs))
    ensures forall x :: x in SortByFireAt(rs) <==> x in rs
    ensures |SortByFireAt(rs)| == |rs|
  {
    if rs != [] {
      var front, last := rs[..|rs| - 1], rs[|rs| - 1];
      SortRanks(pos, front);
      assert rs == front + [last];
      var t := SortByFireAt(front);
      forall i | 0 <= i < |t| ensures pos[t[i].deliveryId] < pos[last.deliveryId] {
        assert t[i] in t;
        assert t[i] in front;
      }
      InsertKeepsRank(pos, t, last);
    }
  }

  lemma {:induction false} ReadyRowsAreTheDueRows(order: seq<Id>, records: map<Id, Record>, now: Time,
      pos: map<Id, nat>)
    requires forall id :: id in order ==> id in records && records[id].deliveryId == id
    requires forall i :: 0 <= i < |order| ==> order[i] in pos && pos[order[i]] == i
    ensures var rs := ReadyRows(order, records, now);
      && (forall r :: r in rs <==> r.deliveryId in order && records[r.deliveryId] == r && IsReady(r, now))
      && (forall i, j :: 0 <= i < j < |rs| ==>
        rs[i].deliveryId in pos && rs[j].deliveryId in pos && pos[rs[i].deliveryId] < pos[rs[j].deliveryId])
  {
    if order != [] {
      var front, last := order[..|order| - 1], order[|order| - 1];
      assert order == front + [last];
      ReadyRowsAreTheDueRows(front, records, now, pos);
      var rs := ReadyRows(front, records, now);
      forall i | 0 <= i < |rs| ensures rs[i].deliveryId in pos && pos[rs[i].deliveryId] < |front| {
        assert rs[i] in rs;
        var k :| 0 <= k < |front| && front[k] == rs[i].deliveryId;
        assert order[k] == front[k];
      }
    }
  }

  ghost function ViewOf(s: MemState, id: Id, r: Record): View {
    if r.status.Claimable() then Ready(r.fireAt)
    else if r.status.InFlight? then Leased(if id in s.leases then s.leases[id] else 0)
    else Done
  }

  ghost function QueueOf(s: MemState): Queue {
    map id | id in s.records :: ViewOf(s, id, s.records[id])
  }

  // All due rows, in the order a claim serves them.
  ghost function Line(s: MemState, now: Time): seq<Record>
    requires Valid(s)
  {
    SortByFireAt(ReadyRows(s.order, s.records, now))
  }

  lemma LineIsTheDueRows(s: MemState, now: Time)
    requires Valid(s)
    ensures Ranked(Position(s.order), Line(s, now))
    ensures forall r :: r in Line(s, now) <==>
      r.deliveryId in s.records && s.records[r.deliveryId] == r && IsReady(r, now)
  {
    var pos := Position(s.order);
    var rs := ReadyRows(s.order, s.records, now);
    ReadyRowsAreTheDueRows(s.order, s.records, now, pos);
    forall i | 0 <= i < |rs| ensures rs[i].deliveryId in pos {
      assert rs[i] in rs;
    }
    SortRanks(pos, rs);
  }

  lemma BatchIsStored(s: MemState, now: Time, n: nat)
    requires Valid(s)
    ensures var batch := Batch(s.order, s.records, now, n);
      forall r :: r in batch ==> r.deliveryId in s.records && s.records[r.deliveryId] == r && IsReady(r, now)
  {
    LineIsTheDueRows(s, now);
  }

  lemma DueMeansReady(s: MemState, now: Time, id: Id)
    ensures id in Due(QueueOf(s), now) <==> id in s.records && IsReady(s.records[id], now)
  {
  }

  lemma BatchIdsAreReady(s: MemState, now: Time, n: nat)
    requires Valid(s)
    ensures forall id :: id in BatchIds(s, now, n) ==> id in s.records && IsReady(s.records[id], now)
  {
    BatchIsStored(s, now, n);
  }

  // The ids of the line are the due ids of the abstract queue, each once.
  lemma LineIds(s: MemState, now: Time)
    requires Valid(s)
    ensures Distinct(Ids(Line(s, now)))
    ensures Elements(Ids(Line(s, now))) == Due(QueueOf(s), now)
  {
    LineIsTheDueRows(s, now);
    RankedIsDistinct(Position(s.order), Line(s, now));
    forall id ensures id in Ids(Line(s, now)) <==> id in Due(QueueOf(s), now) {
      DueMeansReady(s, now, id);
      InIds(Line(s, now), id);
    }
  }

  lemma RankedIsDistinct(pos: map<Id, nat>, rs: seq<Record>)
    requires Ranked(pos, rs)
    requires forall a, b :: a in rs && b in rs && a.deliveryId == b.deliveryId ==> a == b
    ensures Distinct(Ids(rs))
  {
    forall i, j | 0 <= i < j < |rs| ensures Ids(rs)[i] != Ids(rs)[j] {
      assert Precedes(pos, rs[i], rs[j]);
      assert rs[i] in rs && rs[j] in rs;
    }
  }

  lemma InIds(rs: seq<Record>, id: Id)
    ensures id in Ids(rs) <==> exists r :: r in rs && r.deliveryId == id
  {
    if id in Ids(rs) {
      var k :| 0 <= k < |rs| && Ids(rs)[k] == id;
      assert rs[k] in rs;
    }
    if r :| r in rs && r.deliveryId == id {
      var k :| 0 <= k < |rs| && rs[k] == r;
      assert Ids(rs)[k] == id;
    }
  }

  lemma LineFiresInOrder(s: MemState, now: Time, i: nat, j: nat)
    requires Valid(s)
    requires i < j < |Line(s, now)|
    ensures var a, b := Line(s, now)[i], Line(s, now)[j];
      && a in Line(s, now) && b in Line(s, now) && a.fireAt <= b.fireAt
  {
    LineIsTheDueRows(s, now);
    var line := Line(s, now);
    assert Precedes(Position(s.order), line[i], line[j]);
  }

  // The memory store's sort and slice takes exactly what the abstract queue allows.
  lemma BatchMeetsClaim(s: MemState, now: Time, n: nat)
    requires Valid(s)
    ensures Earliest(DueTimes(QueueOf(s), now), n, Ids(Batch(s.order, s.records, now, n)))
  {
    LineIds(s, now);
    LineIsTheDueRows(s, now);
    var line := Line(s, now);
    var ids, times := Ids(line), DueTimes(QueueOf(s), now);
    assert Ids(Batch(s.order, s.records, now, n)) == ids[..Min(n, |ids|)];
    forall i | 0 <= i < |ids| ensures ids[i] in times && times[ids[i]] == line[i].fireAt {
      assert ids[i] in Elements(ids) && line[i] in line;
    }
    forall i, j | 0 <= i < j < |ids| ensures times[ids[i]] <= times[ids[j]] {
      LineFiresInOrder(s, now, i, j);
    }
    SortedPrefixIsEarliest(times, n, ids);
  }

  // ---- Every operation, as one step -----------------------------------------------

  // EnqueueMany is one DoEnqueue a record; every other method is one operation.
  datatype Op =
    | DoEnqueue(record: Record)
    | DoClaim(now: Time, ttl: nat, n: nat)
    | DoReclaim(now: Time)
    | DoSent(id: Id, attempt: Attempt)
    | DoRetry(id: Id, fireAt: Time, attempt: Attempt)
    | DoDead(id: Id, attempt: Attempt)
    | DoAppend(id: Id, attempt: Attempt)

  ghost function Do(s: MemState, op: Op): MemState
    requires Valid(s)
  {
    match op
    case DoEnqueue(r) => EnqueueOne(s, r)
    case DoClaim(now, ttl, n) => Claimed(s, now, ttl, n)
    case DoReclaim(now) => Reclaimed(s, now)
    case DoSent(id, a) => MarkedSent(s, id, a)
    case DoRetry(id, fireAt, a) => RetryScheduled(s, id, fireAt, a)
    case DoDead(id, a) => MarkedDead(s, id, a)
    case DoAppend(id, a) => AttemptAppended(s, id, a)
  }

  lemma KeepsValid(s: MemState, op: Op)
    requires Valid(s)
    ensures Valid(Do(s, op))
    ensures s.records.Keys <= Do(s, op).records.Keys
  {
    match op
    case DoClaim(now, ttl, n) =>
      BatchIdsAreReady(s, now, n);
      LeasingKeepsValid(s, BatchIds(s, now, n), now + Span(ttl));
    case DoSent(id, a) => if id in s.records { MarkingKeepsValid(s, id, s.records[id].(status := Sent), a); }
    case DoRetry(id, fireAt, a) =>
      if id in s.records {
        MarkingKeepsValid(s, id,
          s.records[id].(status := FailedRetry, fireAt := fireAt, attempts := s.records[id].attempts + 1), a);
      }
    case DoDead(id, a) => if id in s.records { MarkingKeepsValid(s, id, s.records[id].(status := DeadLettered), a); }
    case _ =>
  }

  lemma LeasingKeepsValid(s: MemState, ids: set<Id>, expiry: Time)
    requires Valid(s) && ids <= s.records.Keys
    ensures Valid(LeaseIds(s, ids, expiry))
  {
  }

  lemma MarkingKeepsValid(s: MemState, id: Id, r: Record, a: Attempt)
    requires Valid(s) && id in s.records && r.deliveryId == id
    ensures Valid(Marked(s, id, r, a))
  {
  }

  predicate IsMark(op: Op) {
    op.DoSent? || op.DoRetry? || op.DoDead? || op.DoAppend?
  }

  // A mark on a known row is one change to its record, one log line, and either the end
  // of its lease or not.
  ghost function Change(s: MemState, id: Id, r: Record, a: Attempt, ends: bool): MemState
    requires id in s.log
  {
    s.(records := s.records[id := r], log := s.log[id := s.log[id] + [a]],
      leases := if ends then s.leases - {id} else s.leases)
  }

  ghost function MarkedRecord(r: Record, op: Op): Record
    requires IsMark(op)
  {
    match op
    case DoSent(_, _) => r.(status := Sent)
    case DoRetry(_, fireAt, _) => r.(status := FailedRetry, fireAt := fireAt, attempts := r.attempts + 1)
    case DoDead(_, _) => r.(status := DeadLettered)
    case DoAppend(_, _) => r
  }

  lemma MarkIsChange(s: MemState, op: Op)
    requires Valid(s) && IsMark(op) && op.id in s.records
    ensures Do(s, op) == Change(s, op.id, MarkedRecord(s.records[op.id], op), op.attempt, !op.DoAppend?)
  {
    if op.DoAppend? {
      assert s.records[op.id := s.records[op.id]] == s.records;
    }
  }

  lemma ChangesCommute(s: MemState, x: Id, rx: Record, ax: Attempt, endsX: bool, y: Id, ry: Record, ay: Attempt,
      endsY: bool)
    requires x in s.log && y in s.log && x != y
    ensures Change(Change(s, x, rx, ax, endsX), y, ry, ay, endsY) ==
      Change(Change(s, y, ry, ay, endsY), x, rx, ax, endsX)
  {
    assert s.leases - {x} - {y} == s.leases - {y} - {x};
  }

  // Marks of different rows commute: however the sends of a batch interleave, the store
  // ends up as if they had come one after the other.
  lemma MarksCommute(s: MemState, x: Op, y: Op)
    requires Valid(s) && IsMark(x) && IsMark(y) && x.id != y.id && x.id in s.records && y.id in s.records
    ensures Valid(Do(s, x)) && Valid(Do(s, y))
    ensures Do(Do(s, x), y) == Do(Do(s, y), x)
  {
    KeepsValid(s, x);
    KeepsValid(s, y);
    MarkIsChange(s, x);
    MarkIsChange(s, y);
    MarkIsChange(Do(s, x), y);
    MarkIsChange(Do(s, y), x);
    ChangesCommute(s, x.id, MarkedRecord(s.records[x.id], x), x.attempt, !x.DoAppend?, y.id,
      MarkedRecord(s.records[y.id], y), y.attempt, !y.DoAppend?);
  }

  // What may become of a row: its status, firing time, attempts, lease and log.
  datatype Fate = Fate(status: Status, fireAt: Time, attempts: int, lease: Option<Time>, log: seq<Attempt>)

  ghost function FateOf(s: MemState, id: Id): Fate
    requires id in s.records && id in s.log
  {
    var r := s.records[id];
    Fate(r.status, r.fireAt, r.attempts, if id in s.leases then Some(s.leases[id]) else None, s.log[id])
  }

  ghost predicate Befalls(op: Op, id: Id, taken: set<Id>, was: Fate, fate: Fate) {
    match op
    case DoEnqueue(_) => fate == was
    case DoClaim(now, ttl, _) =>
      fate == if id in taken then was.(status := InFlight, lease := Some(now + ttl * 1_000_000)) else was
    case DoReclaim(now) =>
      if was.status == InFlight && was.lease.Some? && was.lease.value < now
      then fate == was.(status := Pending, lease := None) else fate == was
    case DoSent(x, a) => fate == if x == id then Fate(Sent, was.fireAt, was.attempts, None, was.log + [a]) else was
    case DoRetry(x, fireAt, a) =>
      fate == if x == id then Fate(FailedRetry, fireAt, was.attempts + 1, None, was.log + [a]) else was
    case DoDead(x, a) =>
      fate == if x == id then Fate(DeadLettered, was.fireAt, was.attempts, None, was.log + [a]) else was
    case DoAppend(x, a) => fate == if x == id then was.(log := was.log + [a]) else was
  }

  // Everything else about a row is kept.
  ghost predicate Meets(s: MemState, op: Op, taken: set<Id>, id: Id, s': MemState)
    requires id in s.records && id in s.log
  {
    && id in s'.records && id in s'.log
    && var r, fate := s.records[id], FateOf(s', id);
       && s'.records[id] == r.(status := fate.status, fireAt := fate.fireAt, attempts := fate.attempts)
       && Befalls(op, id, taken, FateOf(s, id), fate)
  }

  lemma EnqueueMeets(s: MemState, r: Record, id: Id)
    requires id in s.records && id in s.log
    ensures Meets(s, DoEnqueue(r), {}, id, EnqueueOne(s, r))
  {
  }

  lemma LeasingMeets(s: MemState, ids: set<Id>, now: Time, ttl: nat, n: nat, id: Id)
    requires id in s.records && id in s.log
    ensures Meets(s, DoClaim(now, ttl, n), ids, id, LeaseIds(s, ids, now + Span(ttl)))
  {
  }

  lemma ReclaimingMeets(s: MemState, now: Time, id: Id)
    requires id in s.records && id in s.log
    ensures Meets(s, DoReclaim(now), {}, id, Reclaimed(s, now))
  {
  }

  lemma MarkingMeets(s: MemState, op: Op, id: Id)
    requires Valid(s) && IsMark(op) && id in s.records
    ensures Meets(s, op, {}, id, Do(s, op))
  {
    if op.id in s.records {
      MarkIsChange(s, op);
      ChangingMeets(s, op, id);
    } else {
      assert op.DoAppend? ==> Do(s, op) == s.(log := Do(s, op).log);
    }
  }

  lemma ChangingMeets(s: MemState, op: Op, id: Id)
    requires IsMark(op) && op.id in s.log && op.id in s.records && id in s.records && id in s.log
    ensures Meets(s, op, {}, id, Change(s, op.id, MarkedRecord(s.records[op.id], op), op.attempt, !op.DoAppend?))
  {
  }

  ghost function Taken(s: MemState, op: Op): set<Id>
    requires Valid(s)
  {
    if op.DoClaim? then BatchIds(s, op.now, op.n) else {}
  }

  lemma QueueingMeets(s: MemState, op: Op, id: Id)
    requires Valid(s) && !IsMark(op) && id in s.records
    ensures Meets(s, op, Taken(s, op), id, Do(s, op))
  {
    if op.DoEnqueue? {
      EnqueueMeets(s, op.record, id);
    } else if op.DoReclaim? {
      ReclaimingMeets(s, op.now, id);
    } else {
      ClaimingMeets(s, op.now, op.ttl, op.n, id);
    }
  }

  lemma ClaimingMeets(s: MemState, now: Time, ttl: nat, n: nat, id: Id)
    requires Valid(s) && id in s.records
    ensures Meets(s, DoClaim(now, ttl, n), BatchIds(s, now, n), id, Claimed(s, now, ttl, n))
  {
    LeasingMeets(s, BatchIds(s, now, n), now, ttl, n, id);
  }

  // No operation changes anything else about a row, and each brings exactly the rows it
  // names to the status it is called after; a claim, the rows of its batch.
  lemma RowsKeepTheirPayload(s: MemState, op: Op, id: Id)
    requires Valid(s) && id in s.records
    ensures Meets(s, op, Taken(s, op), id, Do(s, op))
  {
    if IsMark(op) {
      MarkingMeets(s, op, id);
    } else {
      QueueingMeets(s, op, id);
    }
  }

  // New rows come from enqueues alone, with an empty log, as they were handed in.
  lemma NewRowsWereEnqueued(s: MemState, op: Op, id: Id)
    requires Valid(s) && id !in s.records
    ensures id in Do(s, op).records <==> op.DoEnqueue? && op.record.deliveryId == id
    ensures id in Do(s, op).records ==> Do(s, op).records[id] == op.record && Do(s, op).log[id] == []
    ensures id in Do(s, op).records ==> Do(s, op).order == s.order + [id]
  {
    KeepsValid(s, op);
  }

  ghost predicate BringsInFlight(s: MemState, op: Op) {
    op.DoEnqueue? && op.record.status.InFlight? && op.record.deliveryId !in s.records
  }

  // A row stays in flight exactly as long as its lease entry exists, whatever is
  // called in whatever order -- unless a producer enqueues a row already in flight.
  lemma LeaseAgreementIsKept(s: MemState, op: Op)
    requires Valid(s) && LeasesAgree(s)
    ensures LeasesAgree(Do(s, op)) <==> !BringsInFlight(s, op)
  {
    match op
    case DoEnqueue(r) =>
      var t := EnqueueOne(s, r);
      if BringsInFlight(s, op) {
        assert r.deliveryId in t.records && r.deliveryId !in t.leases;
      }
    case DoClaim(now, ttl, n) => ClaimingAgrees(s, now, ttl, n);
    case DoReclaim(now) => ReturningAgrees(s, StaleIds(s, now));
    case DoSent(id, a) => if id in s.records { MarkingAgrees(s, id, s.records[id].(status := Sent), a); }
    case DoRetry(id, fireAt, a) =>
      if id in s.records {
        MarkingAgrees(s, id,
          s.records[id].(status := FailedRetry, fireAt := fireAt, attempts := s.records[id].attempts + 1), a);
      }
    case DoDead(id, a) => if id in s.records { MarkingAgrees(s, id, s.records[id].(status := DeadLettered), a); }
    case DoAppend(id, a) =>
  }

  lemma LeasingAgrees(s: MemState, ids: set<Id>, now: Time, expiry: Time)
    requires LeasesAgree(s) && now <= expiry
    requires forall id :: id in ids ==> id in s.records && s.records[id].fireAt <= now
    ensures LeasesAgree(LeaseIds(s, ids, expiry))
  {
  }

  lemma ClaimingAgrees(s: MemState, now: Time, ttl: nat, n: nat)
    requires Valid(s) && LeasesAgree(s)
    ensures LeasesAgree(Claimed(s, now, ttl, n))
  {
    BatchIdsAreReady(s, now, n);
    LeasingAgrees(s, BatchIds(s, now, n), now, now + Span(ttl));
  }

  lemma ReturningAgrees(s: MemState, ids: set<Id>)
    requires LeasesAgree(s)
    ensures LeasesAgree(Returned(s, ids))
  {
  }

  lemma MarkingAgrees(s: MemState, id: Id, r: Record, a: Attempt)
    requires LeasesAgree(s) && id in s.log && !r.status.InFlight?
    ensures LeasesAgree(Marked(s, id, r, a))
  {
  }

  ghost function StepOfEnqueue(s: MemState, r: Record): Step {
    if r.deliveryId in s.records then Note else Enqueue(r.deliveryId, ViewOf(s, r.deliveryId, r))
  }

  // The abstract step an operation takes; marks on unknown rows take none.
  ghost function StepOf(s: MemState, op: Op): Step
    requires Valid(s)
  {
    match op
    case DoEnqueue(r) => StepOfEnqueue(s, r)
    case DoClaim(now, ttl, n) => Claim(BatchIds(s, now, n), now, now + Span(ttl))
    case DoReclaim(now) => Reclaim(now, map id | id in StaleIds(s, now) :: s.records[id].fireAt)
    case DoSent(id, _) => if id in s.records then Finish(id) else Note
    case DoRetry(id, fireAt, _) => if id in s.records then Retry(id, fireAt) else Note
    case DoDead(id, _) => if id in s.records then Finish(id) else Note
    case DoAppend(_, _) => Note
  }

  lemma LeasingMoves(s: MemState, ids: set<Id>, now: Time, expiry: Time)
    requires ids <= s.records.Keys
    ensures QueueOf(LeaseIds(s, ids, expiry)) == Apply(QueueOf(s), Claim(ids, now, expiry))
  {
  }

  lemma ReturningMoves(s: MemState, ids: set<Id>, now: Time, fires: map<Id, Time>)
    requires ids <= s.records.Keys
    requires fires == map id | id in ids :: s.records[id].fireAt
    ensures QueueOf(Returned(s, ids)) == Apply(QueueOf(s), Reclaim(now, fires))
  {
  }

  lemma MarkingMoves(s: MemState, id: Id, r: Record, a: Attempt, step: Step)
    requires id in s.log && id in s.records
    requires step == (if r.status.Claimable() then Retry(id, r.fireAt) else Finish(id)) && !r.status.InFlight?
    ensures Moves(false, QueueOf(s), step, QueueOf(Marked(s, id, r, a)))
  {
  }

  lemma EnqueueMoves(s: MemState, r: Record)
    ensures Moves(false, QueueOf(s), StepOfEnqueue(s, r), QueueOf(EnqueueOne(s, r)))
  {
  }

  lemma ClaimingMoves(s: MemState, ids: set<Id>, now: Time, expiry: Time)
    requires forall id :: id in ids ==> id in s.records && IsReady(s.records[id], now)
    ensures Moves(false, QueueOf(s), Claim(ids, now, expiry), QueueOf(LeaseIds(s, ids, expiry)))
  {
    LeasingMoves(s, ids, now, expiry);
  }

  lemma ReclaimingMoves(s: MemState, now: Time)
    requires Valid(s)
    ensures Moves(false, QueueOf(s), StepOf(s, DoReclaim(now)), QueueOf(Reclaimed(s, now)))
  {
    ReturningMoves(s, StaleIds(s, now), now, map id | id in StaleIds(s, now) :: s.records[id].fireAt);
  }

  ghost predicate Refines(s: MemState, op: Op)
    requires Valid(s)
  {
    Moves(false, QueueOf(s), StepOf(s, op), QueueOf(Do(s, op)))
  }

  lemma ClaimRefines(s: MemState, now: Time, ttl: nat, n: nat)
    requires Valid(s)
    ensures Refines(s, DoClaim(now, ttl, n))
  {
    var op := DoClaim(now, ttl, n);
    var ids, expiry := BatchIds(s, now, n), now + Span(ttl);
    assert Do(s, op) == LeaseIds(s, ids, expiry);
    assert StepOf(s, op) == Claim(ids, now, expiry);
    BatchIdsAreReady(s, now, n);
    ClaimingMoves(s, ids, now, expiry);
  }

  lemma RetryRefines(s: MemState, id: Id, fireAt: Time, a: Attempt)
    requires Valid(s)
    ensures Refines(s, DoRetry(id, fireAt, a))
  {
    if id in s.records {
      var r := s.records[id].(status := FailedRetry, fireAt := fireAt, attempts := s.records[id].attempts + 1);
      MarkingMoves(s, id, r, a, Retry(id, fireAt));
      assert Do(s, DoRetry(id, fireAt, a)) == Marked(s, id, r, a);
    }
  }

  lemma SentRefines(s: MemState, id: Id, a: Attempt)
    requires Valid(s)
    ensures Refines(s, DoSent(id, a)) && Refines(s, DoDead(id, a))
  {
    if id in s.records {
      MarkingMoves(s, id, s.records[id].(status := Sent), a, Finish(id));
      MarkingMoves(s, id, s.records[id].(status := DeadLettered), a, Finish(id));
    }
  }

  // The memory store is an instance of the lease queue: every operation is the
  // abstract step it names, and reclaim is strict and gives back the old firing time.
  lemma RefinesLeaseQueue(s: MemState, op: Op)
    requires Valid(s)
    ensures Moves(false, QueueOf(s), StepOf(s, op), QueueOf(Do(s, op)))
  {
    match op
    case DoEnqueue(r) => EnqueueMoves(s, r);
    case DoClaim(now, ttl, n) => ClaimRefines(s, now, ttl, n);
    case DoReclaim(now) => ReclaimingMoves(s, now);
    case DoSent(id, a) => SentRefines(s, id, a);
    case DoRetry(id, fireAt, a) => RetryRefines(s, id, fireAt, a);
    case DoDead(id, a) => SentRefines(s, id, a);
    case DoAppend(id, a) =>
  }

  ghost predicate StoreRun(ss: seq<MemState>, ops: seq<Op>) {
    && |ss| == |ops| + 1
    && (forall k :: 0 <= k < |ss| ==> Valid(ss[k]))
    && (forall k :: 0 <= k < |ops| ==> ss[k + 1] == Do(ss[k], ops[k]))
  }

  ghost function Queues(ss: seq<MemState>): seq<Queue> {
    seq(|ss|, k requires 0 <= k < |ss| => QueueOf(ss[k]))
  }

  ghost function Steps(ss: seq<MemState>, ops: seq<Op>): seq<Step>
    requires StoreRun(ss, ops)
  {
    seq(|ops|, k requires 0 <= k < |ops| => StepOf(ss[k], ops[k]))
  }

  lemma RunRefines(ss: seq<MemState>, ops: seq<Op>)
    requires StoreRun(ss, ops)
    ensures Run(false, Queues(ss), Steps(ss, ops))
  {
    forall k | 0 <= k < |ops| ensures Moves(false, Queues(ss)[k], Steps(ss, ops)[k], Queues(ss)[k + 1]) {
      RefinesLeaseQueue(ss[k], ops[k]);
    }
  }

  ghost predicate ClaimsRow(s: MemState, op: Op, id: Id)
    requires Valid(s)
  {
    op.DoClaim? && id in BatchIds(s, op.now, op.n)
  }

  ghost predicate Frees(op: Op, id: Id, expiry: Time) {
    (op.DoRetry? && op.id == id) || (op.DoReclaim? && expiry < op.now)
  }

  lemma JustifierFrees(s: MemState, op: Op, id: Id, expiry: Time)
    requires Valid(s) && Justifies(false, StepOf(s, op), id, expiry)
    ensures Frees(op, id, expiry)
  {
  }

  // Concretely: two claims of one row in any run of the memory store have a retry of
  // it between them, or a reclaim later than the first lease's expiry.
  lemma SecondClaimHasACause(ss: seq<MemState>, ops: seq<Op>, i: nat, j: nat, id: Id)
    requires StoreRun(ss, ops)
    requires i < j < |ops| && ClaimsRow(ss[i], ops[i], id) && ClaimsRow(ss[j], ops[j], id)
    ensures exists k :: i < k < j && Frees(ops[k], id, ops[i].now + Span(ops[i].ttl))
  {
    var queues, steps, expiry := Queues(ss), Steps(ss, ops), ops[i].now + Span(ops[i].ttl);
    RunRefines(ss, ops);
    assert steps[i] == Claim(BatchIds(ss[i], ops[i].now, ops[i].n), ops[i].now, expiry);
    assert Takes(steps[j], id);
    SecondClaimIsJustified(false, queues, steps, i, j, id);
    var k :| i < k < j && Justifies(false, steps[k], id, expiry);
    JustifierFrees(ss[k], ops[k], id, expiry);
  }

  // ---- Nothing gets stuck -----------------------------------------------------------

  // After any crash, at any time: a row that waits is due from its firing time on, one in
  // flight from just after its lease, and any other row never again.
  lemma UnfinishedRowsComeBack(s: MemState, id: Id, now: Time)
    requires Valid(s) && LeasesAgree(s) && id in s.records
    ensures id in Due(QueueOf(Reclaimed(s, now)), now) <==>
      match s.records[id].status
      case Pending => s.records[id].fireAt <= now
      case FailedRetry => s.records[id].fireAt <= now
      case InFlight => id in s.leases && s.leases[id] < now
      case _ => false
  {
    DueMeansReady(Reclaimed(s, now), now, id);
  }

  // ... and a claim that asks for enough rows then takes it.
  lemma DueRowsAreClaimed(s: MemState, id: Id, now: Time, n: nat)
    requires Valid(s)
    requires id in Due(QueueOf(s), now) && n >= |Due(QueueOf(s), now)|
    ensures id in BatchIds(s, now, n)
  {
    LineIds(s, now);
    DistinctCount(Ids(Line(s, now)));
    InIds(Line(s, now), id);
  }
}
