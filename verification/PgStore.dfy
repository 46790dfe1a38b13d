// The Postgres delivery store: each method is one short transaction that writes the
// attempt log and the row together.
module PgStore {
  import opened Delivery
  import opened LeaseMachine
  import opened RowTable

  function AsPending(rs: seq<Record>): (ps: seq<Record>) {
    seq(|rs|, i requires 0 <= i < |rs| => rs[i].(status := Pending))
  }

  // Whatever status a record was handed in with, the row it becomes is pending; the rest
  // of it is kept, and the first record of an id wins.
  lemma NewRowsArePending(t: Table, rs: seq<Record>, id: Id)
    requires id !in t
    ensures id in Inserted(t, AsPending(rs)) <==> exists k :: 0 <= k < |rs| && rs[k].deliveryId == id
    ensures id in Inserted(t, AsPending(rs)) ==>
      exists k ::
        && 0 <= k < |rs| && IsFirst(rs, k, id)
        && Inserted(t, AsPending(rs))[id] == Row(rs[k].(status := Pending), None)
  {
    var ps := AsPending(rs);
    FirstInsertWins(t, ps, id);
    assert forall k :: 0 <= k < |rs| ==> ps[k].deliveryId == rs[k].deliveryId;
    if id in Inserted(t, ps) {
      var k :| 0 <= k < |ps| && IsFirst(ps, k, id) && Inserted(t, ps)[id] == Row(ps[k], None);
      assert IsFirst(rs, k, id);
    }
  }

  class PgWebhookDeliveryStore {
    var rows: Table
    var log: seq<(Id, Attempt)>

    constructor ()
      ensures rows == map[] && log == []
    {
      rows, log := map[], [];
    }

    // The status the producer handed in is not stored: every new row is pending.
    method EnqueueMany(rs: seq<Record>) returns (inserted: nat)
      modifies this
      ensures rows == Inserted(old(rows), AsPending(rs)) && log == old(log)
      ensures inserted == |rows| - |old(rows)|
    {
      inserted := 0;
      var ps := AsPending(rs);
      for i := 0 to |ps|
        invariant rows == Inserted(old(rows), ps[..i]) && log == old(log)
        invariant inserted == |rows| - |old(rows)|
      {
        assert ps[..i + 1][..i] == ps[..i];
        if ps[i].deliveryId !in rows {
          rows := rows[ps[i].deliveryId := Row(ps[i], None)];
          inserted := inserted + 1;
        }
      }
      assert ps[..|ps|] == ps;
    }

    // Rows another transaction holds locked are passed over; the rows come back in
    // no particular order.
    method ClaimBatch(now: Time, ttl: nat, n: nat, locked: set<Id>) returns (batch: set<Record>, ids: seq<Id>)
      modifies this
      ensures Earliest(DueRows(old(rows), now) - locked, n, ids)
      ensures rows == Do(old(rows), Lease(Elements(ids), now, now + Span(ttl))) && log == old(log)
      ensures Allowed(old(rows), Lease(Elements(ids), now, now + Span(ttl)))
      ensures batch == set id | id in ids :: rows[id].record
    {
      ids := TakeEarliest(DueRows(rows, now) - locked, n);
      var taken := set id | id in ids;
      rows := Do(rows, Lease(taken, now, now + Span(ttl)));
      batch := set id | id in ids :: rows[id].record;
    }

    method ReclaimStale(now: Time) returns (count: nat)
      modifies this
      ensures rows == Do(old(rows), Release(now)) && log == old(log)
      ensures count == |set id | id in old(rows) && IsStale(old(rows)[id], now)|
    {
      var stale := set id | id in rows && IsStale(rows[id], now);
      rows := Do(rows, Release(now));
      count := |stale|;
    }

    method MarkSent(id: Id, a: Attempt)
      modifies this
      ensures rows == Do(old(rows), SetSent(id, a.number)) && log == old(log) + [(id, a)]
    {
      log := log + [(id, a)];
      if id in rows {
        rows := rows[id := Row(rows[id].record.(status := Sent, attempts := a.number), None)];
      }
    }

    method ScheduleRetry(id: Id, fireAt: Time, a: Attempt)
      modifies this
      ensures rows == Do(old(rows), SetRetry(id, fireAt, a.number)) && log == old(log) + [(id, a)]
    {
      log := log + [(id, a)];
      if id in rows {
        rows := rows[id := Row(rows[id].record.(status := FailedRetry, fireAt := fireAt, attempts := a.number), None)];
      }
    }

    method MarkDead(id: Id, a: Attempt)
      modifies this
      ensures rows == Do(old(rows), SetDead(id, a.number)) && log == old(log) + [(id, a)]
    {
      log := log + [(id, a)];
      if id in rows {
        rows := rows[id := Row(rows[id].record.(status := DeadLettered, attempts := a.number), None)];
      }
    }

    method AppendAttempt(id: Id, a: Attempt)
      modifies this
      ensures rows == Do(old(rows), SetAttempts(id, a.number)) && log == old(log) + [(id, a)]
    {
      log := log + [(id, a)];
      if id in rows {
        rows := rows[id := rows[id].(record := rows[id].record.(attempts := a.number))];
      }
    }
  }
}
