// Deliveries as rows with a nullable lease column: what Postgres keeps in its
// deliveries table and Mongo in its collection, and the updates both issue.
module RowTable {
  import opened Delivery
  import opened LeaseMachine

  datatype Row = Row(record: Record, lease: Option<Time>)

  type Table = map<Id, Row>

  predicate IsDue(row: Row, now: Time) {
    row.record.status.Claimable() && row.record.fireAt <= now
  }

  predicate IsStale(row: Row, now: Time) {
    row.record.status.InFlight? && row.lease.Some? && row.lease.value < now
  }

  function DueRows(t: Table, now: Time): map<Id, Time> {
    map id | id in t && IsDue(t[id], now) :: t[id].record.fireAt
  }

  // One statement on the table.  Marks carry no guard on status or lease.
  datatype Op =
    | Insert(record: Record)
    | Lease(ids: set<Id>, now: Time, expiry: Time)
    | Release(now: Time)
    | SetSent(id: Id, attempts: int)
    | SetRetry(id: Id, fireAt: Time, attempts: int)
    | SetDead(id: Id, attempts: int)
    | SetAttempts(id: Id, attempts: int)

  function Leasing(row: Row, expiry: Time): Row {
    Row(row.record.(status := InFlight), Some(expiry))
  }

  function Releasing(row: Row): Row {
    Row(row.record.(status := Pending), None)
  }

  function Marking(row: Row, status: Status, fireAt: Time, attempts: int): Row {
    Row(row.record.(status := status, fireAt := fireAt, attempts := attempts), None)
  }

  function Do(t: Table, op: Op): Table {
    match op
    case Insert(r) => if r.deliveryId in t then t else t[r.deliveryId := Row(r, None)]
    case Lease(ids, _, expiry) => map id | id in t :: if id in ids then Leasing(t[id], expiry) else t[id]
    case Release(now) => map id | id in t :: if IsStale(t[id], now) then Releasing(t[id]) else t[id]
    case SetSent(id, n) => if id in t then t[id := Marking(t[id], Sent, t[id].record.fireAt, n)] else t
    case SetRetry(id, fireAt, n) => if id in t then t[id := Marking(t[id], FailedRetry, fireAt, n)] else t
    case SetDead(id, n) => if id in t then t[id := Marking(t[id], DeadLettered, t[id].record.fireAt, n)] else t
    case SetAttempts(id, n) => if id in t then t[id := t[id].(record := t[id].record.(attempts := n))] else t
  }

  function Inserted(t: Table, rs: seq<Record>): Table {
    if rs == [] then t else Do(Inserted(t, rs[..|rs| - 1]), Insert(rs[|rs| - 1]))
  }

  // A statement that leases rows must have selected due ones.
  ghost predicate Allowed(t: Table, op: Op) {
    op.Lease? ==> forall id :: id in op.ids ==> id in t && IsDue(t[id], op.now)
  }

  // ---- The table is an instance of the lease queue ---------------------------------

  ghost function ViewOf(row: Row): View {
    if row.record.status.Claimable() then Ready(row.record.fireAt)
    else if row.record.status.InFlight? then Leased(if row.lease.Some? then row.lease.value else 0)
    else Done
  }

  ghost function QueueOf(t: Table): Queue {
    map id | id in t :: ViewOf(t[id])
  }

  ghost function StepOf(t: Table, op: Op): Step {
    match op
    case Insert(r) => if r.deliveryId in t then Note else Enqueue(r.deliveryId, ViewOf(Row(r, None)))
    case Lease(ids, now, expiry) => Claim(ids, now, expiry)
    case Release(now) => Reclaim(now, map id | id in t && IsStale(t[id], now) :: t[id].record.fireAt)
    case SetSent(id, _) => if id in t then Finish(id) else Note
    case SetRetry(id, fireAt, _) => if id in t then Retry(id, fireAt) else Note
    case SetDead(id, _) => if id in t then Finish(id) else Note
    case SetAttempts(_, _) => Note
  }

  lemma TableRefinesLeaseQueue(t: Table, op: Op)
    requires Allowed(t, op)
    ensures Moves(false, QueueOf(t), StepOf(t, op), QueueOf(Do(t, op)))
  {
    match op
    case Lease(ids, now, expiry) => LeaseRefines(t, ids, now, expiry);
    case Release(now) => ReleaseRefines(t, now);
    case Insert(r) =>
    case SetAttempts(id, n) => SameView(t, id, n);
    case SetSent(id, n) => if id in t { MarkRefines(t, id, Marking(t[id], Sent, t[id].record.fireAt, n)); }
    case SetRetry(id, fireAt, n) => if id in t { MarkRefines(t, id, Marking(t[id], FailedRetry, fireAt, n)); }
    case SetDead(id, n) => if id in t { MarkRefines(t, id, Marking(t[id], DeadLettered, t[id].record.fireAt, n)); }
  }

  lemma LeaseRefines(t: Table, ids: set<Id>, now: Time, expiry: Time)
    requires Allowed(t, Lease(ids, now, expiry))
    ensures Moves(false, QueueOf(t), Claim(ids, now, expiry), QueueOf(Do(t, Lease(ids, now, expiry))))
  {
    assert QueueOf(Do(t, Lease(ids, now, expiry))) == Apply(QueueOf(t), Claim(ids, now, expiry));
  }

  lemma ReleaseRefines(t: Table, now: Time)
    ensures Moves(false, QueueOf(t), StepOf(t, Release(now)), QueueOf(Do(t, Release(now))))
  {
    assert QueueOf(Do(t, Release(now))) == Apply(QueueOf(t), StepOf(t, Release(now)));
  }

  lemma MarkRefines(t: Table, id: Id, row: Row)
    requires id in t
    ensures QueueOf(t[id := row]) == QueueOf(t)[id := ViewOf(row)]
  {
  }

  lemma SameView(t: Table, id: Id, n: int)
    ensures QueueOf(Do(t, SetAttempts(id, n))) == QueueOf(t)
  {
  }

  lemma DueTimesOfTable(t: Table, now: Time)
    ensures DueTimes(QueueOf(t), now) == DueRows(t, now)
  {
  }

  ghost predicate TableRun(ts: seq<Table>, ops: seq<Op>) {
    && |ts| == |ops| + 1
    && forall k :: 0 <= k < |ops| ==> Allowed(ts[k], ops[k]) && ts[k + 1] == Do(ts[k], ops[k])
  }

  ghost predicate Frees(op: Op, id: Id, expiry: Time) {
    (op.SetRetry? && op.id == id) || (op.Release? && expiry < op.now)
  }

  // In any run of statements by any number of workers, two leases of one row have a
  // scheduled retry of it between them, or a reclaim later than the first expiry.
  lemma SecondLeaseHasACause(ts: seq<Table>, ops: seq<Op>, i: nat, j: nat, id: Id)
    requires TableRun(ts, ops)
    requires i < j < |ops| && ops[i].Lease? && ops[j].Lease? && id in ops[i].ids && id in ops[j].ids
    ensures exists k :: i < k < j && Frees(ops[k], id, ops[i].expiry)
  {
    var qs := seq(|ts|, k requires 0 <= k < |ts| => QueueOf(ts[k]));
    var steps := seq(|ops|, k requires 0 <= k < |ops| => StepOf(ts[k], ops[k]));
    forall k | 0 <= k < |steps| ensures Moves(false, qs[k], steps[k], qs[k + 1]) {
      TableRefinesLeaseQueue(ts[k], ops[k]);
    }
    SecondClaimIsJustified(false, qs, steps, i, j, id);
    var k :| i < k < j && Justifies(false, steps[k], id, steps[i].expiry);
    assert steps[k] == StepOf(ts[k], ops[k]);
  }

  // What may become of a row: its new status, firing time, attempts and lease.
  datatype Fate = Fate(status: Status, fireAt: Time, attempts: int, lease: Option<Time>)

  ghost predicate Befalls(op: Op, id: Id, row: Row, fate: Fate) {
    var was := Fate(row.record.status, row.record.fireAt, row.record.attempts, row.lease);
    match op
    case Insert(_) => fate == was
    case Lease(ids, _, expiry) =>
      fate == if id in ids then Fate(InFlight, was.fireAt, was.attempts, Some(expiry)) else was
    case Release(now) =>
      if row.record.status == InFlight && row.lease.Some? && row.lease.value < now
      then fate == Fate(Pending, was.fireAt, was.attempts, None) else fate == was
    case SetSent(x, n) => fate == if x == id then Fate(Sent, was.fireAt, n, None) else was
    case SetRetry(x, fireAt, n) => fate == if x == id then Fate(FailedRetry, fireAt, n, None) else was
    case SetDead(x, n) => fate == if x == id then Fate(DeadLettered, was.fireAt, n, None) else was
    case SetAttempts(x, n) => fate == if x == id then Fate(was.status, was.fireAt, n, was.lease) else was
  }

  // No statement forgets a row or changes anything else about it, and each brings exactly
  // the rows it names to the status it is called after.
  lemma RowsKeepTheirPayload(t: Table, op: Op, id: Id)
    requires id in t
    ensures id in Do(t, op)
    ensures
      var r, row' := t[id].record, Do(t, op)[id];
      var fate := Fate(row'.record.status, row'.record.fireAt, row'.record.attempts, row'.lease);
      && row'.record == r.(status := fate.status, fireAt := fate.fireAt, attempts := fate.attempts)
      && Befalls(op, id, t[id], fate)
  {
  }

  // New rows come from inserts alone, unleased and as they were handed in.
  lemma NewRowsWereInserted(t: Table, op: Op, id: Id)
    requires id !in t
    ensures id in Do(t, op) <==> op.Insert? && op.record.deliveryId == id
    ensures id in Do(t, op) ==> Do(t, op)[id] == Row(op.record, None)
  {
  }

  // A list of inserts adds the first record of each unknown id, and nothing else.
  lemma {:induction false} FirstInsertWins(t: Table, rs: seq<Record>, id: Id)
    ensures id in t ==> id in Inserted(t, rs) && Inserted(t, rs)[id] == t[id]
    ensures id !in t ==> (id in Inserted(t, rs) <==> exists k :: 0 <= k < |rs| && rs[k].deliveryId == id)
    ensures id !in t && id in Inserted(t, rs) ==> exists k ::
      0 <= k < |rs| && IsFirst(rs, k, id) && Inserted(t, rs)[id] == Row(rs[k], None)
  {
    if rs != [] {
      var front, last := rs[..|rs| - 1], rs[|rs| - 1];
      FirstInsertWins(t, front, id);
      assert forall k :: 0 <= k < |front| ==> rs[k] == front[k];
      if id !in t && id in Inserted(t, front) {
        var k :| 0 <= k < |front| && IsFirst(front, k, id) && Inserted(t, front)[id] == Row(front[k], None);
        assert IsFirst(rs, k, id);
      } else if id !in t && last.deliveryId == id {
        assert IsFirst(rs, |front|, id);
      }
    }
  }

  ghost predicate IsFirst(rs: seq<Record>, k: nat, id: Id)
    requires k < |rs|
  {
    rs[k].deliveryId == id && forall j :: 0 <= j < k ==> rs[j].deliveryId != id
  }

  // A batch leased at once is the same as its rows leased one by one.
  lemma BatchIsOneByOne(t: Table, first: set<Id>, more: set<Id>, now: Time, expiry: Time)
    requires first !! more
    ensures Do(Do(t, Lease(first, now, expiry)), Lease(more, now, expiry)) == Do(t, Lease(first + more, now, expiry))
    ensures Allowed(t, Lease(first + more, now, expiry)) ==>
      Allowed(Do(t, Lease(first, now, expiry)), Lease(more, now, expiry))
  {
  }

  // In flight means leased, and nothing but an insert of a row already in flight
  // can break it.
  ghost predicate LeasesAgree(t: Table) {
    forall id :: id in t ==> (t[id].record.status.InFlight? <==> t[id].lease.Some?)
  }

  lemma TableKeepsLeases(t: Table, op: Op)
    requires LeasesAgree(t)
    ensures LeasesAgree(Do(t, op)) <==> !(op.Insert? && op.record.status.InFlight? && op.record.deliveryId !in t)
  {
    if op.Insert? && op.record.status.InFlight? && op.record.deliveryId !in t {
      assert op.record.deliveryId in Do(t, op);
    }
  }
}
