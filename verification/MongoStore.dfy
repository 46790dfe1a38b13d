// The Mongo delivery store: one document a delivery, claimed one atomic
// find-and-update at a time.
module MongoStore {
  import opened Delivery
  import opened LeaseMachine
  import opened RowTable
  import Memory = MemoryStore

  // $push at position 0 with $slice: newest first, at most `limit` kept.
  function Pushed(log: seq<Attempt>, a: Attempt, limit: nat): seq<Attempt> {
    ([a] + log)[..Min(limit, |log| + 1)]
  }

  ghost function PushedAll(history: seq<Attempt>, limit: nat): seq<Attempt> {
    if history == [] then [] else Pushed(PushedAll(history[..|history| - 1], limit), history[|history| - 1], limit)
  }

  // However many attempts were pushed, the document keeps the `limit` newest.
  lemma {:induction false} LogKeepsTheNewest(history: seq<Attempt>, limit: nat, k: nat)
    requires k < Min(limit, |history|)
    ensures |PushedAll(history, limit)| == Min(limit, |history|)
    ensures PushedAll(history, limit)[k] == history[|history| - 1 - k]
  {
    var front := history[..|history| - 1];
    LogLength(front, limit);
    if k > 0 {
      LogKeepsTheNewest(front, limit, k - 1);
    }
  }

  lemma {:induction false} LogLength(history: seq<Attempt>, limit: nat)
    ensures |PushedAll(history, limit)| == Min(limit, |history|)
  {
    if history != [] {
      LogLength(history[..|history| - 1], limit);
    }
  }

  ghost predicate IsLeast(times: map<Id, Time>, least: Id) {
    least in times && forall id :: id in times ==> times[least] <= times[id]
  }

  class MongoWebhookDeliveryStore {
    var rows: Table
    var log: map<Id, seq<Attempt>>
    const attemptsLimit: nat

    ghost predicate Valid()
      reads this
    {
      log.Keys == rows.Keys
    }

    constructor (limit: nat)
      ensures rows == map[] && log == map[] && attemptsLimit == limit && Valid()
    {
      rows, log, attemptsLimit := map[], map[], limit;
    }

    method EnqueueMany(rs: seq<Record>)
      requires Valid()
      modifies this
      ensures Valid()
      ensures rows == Inserted(old(rows), rs)
      ensures forall id :: id in rows ==> log[id] == if id in old(rows) then old(log)[id] else []
    {
      for i := 0 to |rs|
        invariant Valid() && old(rows).Keys <= rows.Keys
        invariant rows == Inserted(old(rows), rs[..i])
        invariant forall id :: id in rows ==> log[id] == if id in old(rows) then old(log)[id] else []
      {
        assert rs[..i + 1][..i] == rs[..i];
        if rs[i].deliveryId !in rows {
          rows := rows[rs[i].deliveryId := Row(rs[i], None)];
          log := log[rs[i].deliveryId := []];
        }
      }
      assert rs[..|rs|] == rs;
    }

    // One round trip: lease a due document with the least firing time, if any.
    method FindOneAndLease(now: Time, expiry: Time) returns (found: Option<Id>)
      modifies this
      ensures log == old(log)
      ensures found.None? ==> DueRows(old(rows), now) == map[] && rows == old(rows)
      ensures found.Some? ==> IsLeast(DueRows(old(rows), now), found.value)
      ensures found.Some? ==> rows == Do(old(rows), Lease({found.value}, now, expiry))
    {
      var due := DueRows(rows, now);
      if due == map[] {
        return None;
      }
      ghost var some := SomeTimeIsLeast(due, due.Keys);
      var least :| least in due && forall id :: id in due ==> due[least] <= due[id];
      rows := Do(rows, Lease({least}, now, expiry));
      found := Some(least);
    }

    // With no other worker in between, the loop of single claims takes exactly what
    // one sorted query would, and returns the documents as leased.
    method ClaimBatch(now: Time, ttl: nat, n: nat) returns (batch: seq<Record>, ghost ids: seq<Id>)
      requires Valid()
      modifies this
      ensures Valid() && log == old(log)
      ensures Earliest(DueRows(old(rows), now), n, ids)
      ensures rows == Do(old(rows), Lease(Elements(ids), now, now + Span(ttl)))
      ensures |batch| == |ids|
      ensures forall k :: 0 <= k < |ids| ==>
        ids[k] in old(rows) && batch[k] == Leasing(old(rows)[ids[k]], now + Span(ttl)).record
    {
      batch, ids := [], [];
      ghost var before := rows;
      var expiry := now + Span(ttl);
      NothingTakenYet(before, now, expiry);
      var i := 0;
      while i < n
        invariant i == |ids| == |batch| <= n
        invariant Valid() && log == old(log)
        invariant TakenSoFar(before, now, expiry, ids, rows)
        invariant forall k :: 0 <= k < |ids| ==> ids[k] in before && batch[k] == Leasing(before[ids[k]], expiry).record
      {
        ghost var current := rows;
        var found := FindOneAndLease(now, expiry);
        if found.None? {
          NoneLeftToTake(before, now, expiry, ids, current, n);
          return;
        }
        TakeOneMore(before, now, expiry, ids, current, found.value);
        ids := ids + [found.value];
        batch := batch + [rows[found.value].record];
        i := i + 1;
      }
    }

    method ReclaimStale(now: Time) returns (count: nat)
      modifies this
      ensures rows == Do(old(rows), Release(now)) && log == old(log)
      ensures count == |set id | id in old(rows) && IsStale(old(rows)[id], now)|
    {
      var stale := set id | id in rows && IsStale(rows[id], now);
      rows := Do(rows, Release(now));
      count := |stale|;
    }

    method MarkSent(id: Id, a: Attempt)
      requires Valid()
      modifies this
      ensures Valid() && rows == Do(old(rows), SetSent(id, a.number))
      ensures log == if id in old(log) then old(log)[id := Pushed(old(log)[id], a, attemptsLimit)] else old(log)
    {
      if id in rows {
        rows := rows[id := Row(rows[id].record.(status := Sent, attempts := a.number), None)];
        log := log[id := Pushed(log[id], a, attemptsLimit)];
      }
    }

    method ScheduleRetry(id: Id, fireAt: Time, a: Attempt)
      requires Valid()
      modifies this
      ensures Valid() && rows == Do(old(rows), SetRetry(id, fireAt, a.number))
      ensures log == if id in old(log) then old(log)[id := Pushed(old(log)[id], a, attemptsLimit)] else old(log)
    {
      if id in rows {
        rows := rows[id := Row(rows[id].record.(status := FailedRetry, fireAt := fireAt, attempts := a.number), None)];
        log := log[id := Pushed(log[id], a, attemptsLimit)];
      }
    }

    method MarkDead(id: Id, a: Attempt)
      requires Valid()
      modifies this
      ensures Valid() && rows == Do(old(rows), SetDead(id, a.number))
      ensures log == if id in old(log) then old(log)[id := Pushed(old(log)[id], a, attemptsLimit)] else old(log)
    {
      if id in rows {
        rows := rows[id := Row(rows[id].record.(status := DeadLettered, attempts := a.number), None)];
        log := log[id := Pushed(log[id], a, attemptsLimit)];
      }
    }

    // Unlike Postgres, the log line is all that changes: `attempts` stays as it was.
    method AppendAttempt(id: Id, a: Attempt)
      requires Valid()
      modifies this
      ensures Valid() && rows == old(rows)
      ensures log == if id in old(log) then old(log)[id := Pushed(old(log)[id], a, attemptsLimit)] else old(log)
    {
      if id in rows {
        log := log[id := Pushed(log[id], a, attemptsLimit)];
      }
    }
  }

  // The claim loop's progress: `ids` are the earliest due rows and exactly they are leased.
  ghost predicate TakenSoFar(before: Table, now: Time, expiry: Time, ids: seq<Id>, current: Table) {
    && Earliest(DueRows(before, now), |ids|, ids)
    && current == Do(before, Lease(Elements(ids), now, expiry))
  }

  lemma NothingTakenYet(before: Table, now: Time, expiry: Time)
    ensures TakenSoFar(before, now, expiry, [], before)
  {
  }

  // After some rows are leased, what is still due is what was due and not taken.
  lemma StillDue(before: Table, now: Time, expiry: Time, ids: seq<Id>, current: Table)
    requires TakenSoFar(before, now, expiry, ids, current)
    ensures DueRows(current, now) == DueRows(before, now) - Elements(ids)
  {
  }

  lemma TakeOneMore(before: Table, now: Time, expiry: Time, ids: seq<Id>, current: Table, least: Id)
    requires TakenSoFar(before, now, expiry, ids, current)
    requires IsLeast(DueRows(current, now), least)
    ensures TakenSoFar(before, now, expiry, ids + [least], Do(current, Lease({least}, now, expiry)))
    ensures least in before && current[least] == before[least]
  {
    StillDue(before, now, expiry, ids, current);
    var due, left := DueRows(before, now), DueRows(current, now);
    assert forall id :: id in due && id !in ids ==> id in left && left[id] == due[id];
    ExtractMinIsEarliest(due, ids, least);
    assert Elements(ids + [least]) == Elements(ids) + {least};
  }

  lemma NoneLeftToTake(before: Table, now: Time, expiry: Time, ids: seq<Id>, current: Table, n: nat)
    requires TakenSoFar(before, now, expiry, ids, current)
    requires DueRows(current, now) == map[] && |ids| <= n
    ensures Earliest(DueRows(before, now), n, ids)
  {
    StillDue(before, now, expiry, ids, current);
    forall id | id in DueRows(before, now) ensures id in ids {
      assert id !in DueRows(current, now);
    }
    ExhaustedIsEarliest(DueRows(before, now), ids, n);
  }

  // Mongo's extract-min loop and the memory store's stable sort and slice take the
  // same firing times, position by position, from the same due rows.
  lemma ExtractMinEqualsSortedPrefix(t: Table, s: Memory.MemState, now: Time, n: nat, ids: seq<Id>, k: nat)
    requires Memory.Valid(s) && Memory.QueueOf(s) == QueueOf(t)
    requires Earliest(DueRows(t, now), n, ids) && k < |ids|
    ensures var batch := Memory.Batch(s.order, s.records, now, n);
      |batch| == |ids| && batch[k].fireAt == t[ids[k]].record.fireAt
  {
    DueTimesOfTable(t, now);
    Memory.BatchMeetsClaim(s, now, n);
    Memory.BatchIsStored(s, now, n);
    var batch := Memory.Batch(s.order, s.records, now, n);
    ClaimTimesAreUnique(DueRows(t, now), n, ids, Memory.Ids(batch), k);
    assert batch[k] in batch;
    Memory.DueMeansReady(s, now, batch[k].deliveryId);
  }
}
