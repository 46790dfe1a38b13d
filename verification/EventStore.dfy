// The in-memory event store: producers append, ingestors claim under a lease, then
// acknowledge or park.
module EventStore {
  import opened Delivery
  import Lease = LeaseMachine

  // `payload` is the size of the event's data as JSON, or None if it has no JSON form.
  datatype Event = Event(eventId: Id, name: string, tenant: Option<string>, payload: Option<nat>)

  datatype EventStatus = Pending | Claimed | Done | Failed

  datatype EventRow = EventRow(event: Event, status: EventStatus, leaseUntil: Option<Time>)

  // `order` is the insertion order of the dictionary.
  datatype EventState = EventState(order: seq<Id>, rows: map<Id, EventRow>)

  ghost predicate Valid(s: EventState) {
    && Distinct(s.order)
    && (forall id :: id in s.order <==> id in s.rows)
    && (forall id :: id in s.rows ==> s.rows[id].event.eventId == id)
  }

  // A lease is held exactly while an event is claimed.
  ghost predicate LeasesAgree(s: EventState) {
    forall id :: id in s.rows ==> (s.rows[id].status.Claimed? <==> s.rows[id].leaseUntil.Some?)
  }

  predicate IsStale(row: EventRow, now: Time) {
    row.status.Claimed? && row.leaseUntil.Some? && row.leaseUntil.value < now
  }

  function Appended(s: EventState, e: Event): EventState {
    if e.eventId in s.rows then s
    else EventState(s.order + [e.eventId], s.rows[e.eventId := EventRow(e, EventStatus.Pending, None)])
  }

  function PendingIds(order: seq<Id>, rows: map<Id, EventRow>): seq<Id> {
    if order == [] then []
    else
      var last := order[|order| - 1];
      PendingIds(order[..|order| - 1], rows) + if last in rows && rows[last].status.Pending? then [last] else []
  }

  // The first n pending events, oldest first.
  function ClaimIds(s: EventState, n: nat): seq<Id> {
    var pending := PendingIds(s.order, s.rows);
    pending[..Min(n, |pending|)]
  }

  function WithStatus(s: EventState, ids: set<Id>, status: EventStatus, lease: Option<Time>): EventState {
    s.(rows := map id | id in s.rows :: if id in ids then EventRow(s.rows[id].event, status, lease) else s.rows[id])
  }

  function StaleIds(s: EventState, now: Time): set<Id> {
    set id | id in s.rows && IsStale(s.rows[id], now)
  }

  ghost function ClaimedState(s: EventState, now: Time, ttl: nat, n: nat): EventState {
    WithStatus(s, Elements(ClaimIds(s, n)), Claimed, Some(now + Span(ttl)))
  }

  ghost function Reclaimed(s: EventState, now: Time): EventState {
    WithStatus(s, StaleIds(s, now), EventStatus.Pending, None)
  }

  lemma WithOneMore(s: EventState, ids: set<Id>, status: EventStatus, lease: Option<Time>, id: Id)
    ensures var t := WithStatus(s, ids, status, lease);
      WithStatus(s, ids + {id}, status, lease)
      == if id in s.rows then t.(rows := t.rows[id := EventRow(s.rows[id].event, status, lease)]) else t
  {
  }

  lemma {:induction false} PendingAreListed(order: seq<Id>, rows: map<Id, EventRow>)
    ensures forall id :: id in PendingIds(order, rows) <==> id in order && id in rows && rows[id].status.Pending?
    ensures Distinct(order) ==> Distinct(PendingIds(order, rows))
  {
    if order != [] {
      PendingAreListed(order[..|order| - 1], rows);
      assert order == order[..|order| - 1] + [order[|order| - 1]];
    }
  }

  lemma {:induction false} PendingOfPrefix(order: seq<Id>, rows: map<Id, EventRow>, k: nat)
    requires k <= |order|
    ensures PendingIds(order[..k], rows) <= PendingIds(order, rows)
  {
    if k < |order| {
      PendingOfPrefix(order[..|order| - 1], rows, k);
      assert order[..|order| - 1][..k] == order[..k];
    } else {
      assert order[..k] == order;
    }
  }

  // The events themselves, in the order of their ids.
  ghost predicate Hands(rows: map<Id, EventRow>, ids: seq<Id>, events: seq<Event>) {
    |events| == |ids| && forall k :: 0 <= k < |ids| ==> ids[k] in rows && events[k] == rows[ids[k]].event
  }

  class MemoryEventStore {
    var order: seq<Id>
    var rows: map<Id, EventRow>

    constructor ()
      ensures State() == EventState([], map[])
    {
      order, rows := [], map[];
    }

    ghost function State(): EventState
      reads this
    {
      EventState(order, rows)
    }

    method Append(e: Event)
      modifies this
      ensures State() == Appended(old(State()), e)
    {
      if e.eventId !in rows {
        order := order + [e.eventId];
        rows := rows[e.eventId := EventRow(e, EventStatus.Pending, None)];
      }
    }

    method ClaimEvents(now: Time, ttl: nat, n: nat) returns (claimed: seq<Event>, ghost ids: seq<Id>)
      requires Valid(State())
      modifies `rows
      ensures ids == ClaimIds(old(State()), n) && Hands(old(rows), ids, claimed)
      ensures State() == ClaimedState(old(State()), now, ttl, n)
    {
      claimed, ids := LeasePending(Some(now + Span(ttl)), n);
    }

    method LeasePending(until: Option<Time>, n: nat) returns (claimed: seq<Event>, ghost ids: seq<Id>)
      requires Valid(State())
      modifies `rows
      ensures ids == ClaimIds(old(State()), n) && Hands(old(rows), ids, claimed)
      ensures State() == WithStatus(old(State()), Elements(ids), Claimed, until)
    {
      ghost var before := State();
      claimed, ids := [], [];
      var i := 0;
      while i < |order| && |claimed| < n
        invariant 0 <= i <= |order|
        invariant ids == PendingIds(order[..i], before.rows) && |ids| <= n && Hands(before.rows, ids, claimed)
        invariant State() == WithStatus(before, Elements(ids), Claimed, until)
      {
        var id := order[i];
        ClaimOneMore(before, i, ids, claimed, until);
        if rows[id].status.Pending? {
          rows := rows[id := EventRow(rows[id].event, Claimed, until)];
          claimed, ids := claimed + [rows[id].event], ids + [id];
        }
        i := i + 1;
      }
      ClaimIsComplete(before, i, ids, n);
    }

    method Ack(ids: seq<Id>)
      modifies `rows
      ensures State() == WithStatus(old(State()), Elements(ids), Done, None)
    {
      ghost var before := State();
      for i := 0 to |ids|
        invariant State() == WithStatus(before, Elements(ids[..i]), Done, None)
      {
        WithOneMore(before, Elements(ids[..i]), Done, None, ids[i]);
        assert Elements(ids[..i + 1]) == Elements(ids[..i]) + {ids[i]};
        if ids[i] in rows {
          rows := rows[ids[i] := EventRow(rows[ids[i]].event, Done, None)];
        }
      }
      assert ids[..|ids|] == ids;
    }

    method MarkFailed(id: Id)
      modifies `rows
      ensures State() == WithStatus(old(State()), {id}, Failed, None)
    {
      if id in rows {
        rows := rows[id := EventRow(rows[id].event, Failed, None)];
      }
    }

    method ReclaimStale(now: Time) returns (count: nat)
      requires Valid(State())
      modifies `rows
      ensures State() == Reclaimed(old(State()), now)
      ensures count == |StaleIds(old(State()), now)|
    {
      ghost var before := State();
      NothingPutBack(before, now);
      count := 0;
      for i := 0 to |order|
        invariant PutBackSoFar(before, i, now, State(), count)
      {
        PutBackOneMore(before, i, now, State(), count);
        if IsStale(rows[order[i]], now) {
          rows := rows[order[i] := EventRow(rows[order[i]].event, EventStatus.Pending, None)];
          count := count + 1;
        }
      }
      AllPutBack(before, now, State(), count);
    }
  }

  ghost function StaleAmong(s: EventState, ids: seq<Id>, now: Time): set<Id> {
    set id | id in ids && id in s.rows && IsStale(s.rows[id], now)
  }

  // A reclaim that has looked at the first i events.
  ghost predicate PutBackSoFar(s: EventState, i: nat, now: Time, t: EventState, count: nat) {
    && i <= |s.order|
    && t == WithStatus(s, StaleAmong(s, s.order[..i], now), EventStatus.Pending, None)
    && count == |StaleAmong(s, s.order[..i], now)|
  }

  lemma NothingPutBack(s: EventState, now: Time)
    ensures PutBackSoFar(s, 0, now, s, 0)
  {
  }

  // One more event looked at: put back if its lease has ended.
  lemma PutBackOneMore(s: EventState, i: nat, now: Time, t: EventState, count: nat)
    requires Valid(s) && i < |s.order| && PutBackSoFar(s, i, now, t, count)
    ensures s.order[i] in t.rows
    ensures
      var id := s.order[i];
      if IsStale(t.rows[id], now)
      then PutBackSoFar(s, i + 1, now, t.(rows := t.rows[id := EventRow(t.rows[id].event, EventStatus.Pending, None)]),
        count + 1)
      else PutBackSoFar(s, i + 1, now, t, count)
  {
    StaleOneMore(s, i, now);
    WithOneMore(s, StaleAmong(s, s.order[..i], now), EventStatus.Pending, None, s.order[i]);
  }

  lemma StaleOneMore(s: EventState, i: nat, now: Time)
    requires Valid(s) && i < |s.order|
    ensures
      var id, done := s.order[i], StaleAmong(s, s.order[..i], now);
      && id in s.rows && id !in done
      && StaleAmong(s, s.order[..i + 1], now) == if IsStale(s.rows[id], now) then done + {id} else done
  {
    assert s.order[..i + 1] == s.order[..i] + [s.order[i]];
  }

  lemma AllPutBack(s: EventState, now: Time, t: EventState, count: nat)
    requires Valid(s) && PutBackSoFar(s, |s.order|, now, t, count)
    ensures t == Reclaimed(s, now) && count == |StaleIds(s, now)|
  {
    assert s.order[..|s.order|] == s.order;
    assert StaleAmong(s, s.order, now) == StaleIds(s, now);
  }

  // One more event looked at by a claim: taken over if it is pending.
  lemma ClaimOneMore(s: EventState, i: nat, ids: seq<Id>, events: seq<Event>, until: Option<Time>)
    requires Valid(s) && i < |s.order|
    requires ids == PendingIds(s.order[..i], s.rows) && Hands(s.rows, ids, events)
    ensures s.order[i] in s.rows
    ensures var id, t := s.order[i], WithStatus(s, Elements(ids), Claimed, until);
      && t.rows[id] == s.rows[id]
      && PendingIds(s.order[..i + 1], s.rows) == ids + (if s.rows[id].status.Pending? then [id] else [])
      && Hands(s.rows, ids + [id], events + [s.rows[id].event])
      && WithStatus(s, Elements(ids + [id]), Claimed, until) ==
        t.(rows := t.rows[id := EventRow(s.rows[id].event, Claimed, until)])
  {
    var id := s.order[i];
    PendingAreListed(s.order[..i], s.rows);
    assert s.order[..i + 1][..i] == s.order[..i];
    WithOneMore(s, Elements(ids), Claimed, until, id);
    assert Elements(ids + [id]) == Elements(ids) + {id};
  }

  lemma ClaimIsComplete(s: EventState, i: nat, ids: seq<Id>, n: nat)
    requires i <= |s.order| && ids == PendingIds(s.order[..i], s.rows) && |ids| <= n
    requires i < |s.order| ==> |ids| == n
    ensures ids == ClaimIds(s, n)
  {
    PendingOfPrefix(s.order, s.rows, i);
    assert s.order[..|s.order|] == s.order;
  }

  // ---- Every step keeps the store's shape, and the store is a lease queue ------------------

  // Acknowledging a list is acknowledging its ids one by one.
  datatype Op =
    | Append(event: Event)
    | Claim(now: Time, ttl: nat, n: nat)
    | Ack(id: Id)
    | Fail(id: Id)
    | Reclaim(now: Time)

  ghost function Do(s: EventState, op: Op): EventState {
    match op
    case Append(e) => Appended(s, e)
    case Claim(now, ttl, n) => ClaimedState(s, now, ttl, n)
    case Ack(id) => WithStatus(s, {id}, Done, None)
    case Fail(id) => WithStatus(s, {id}, Failed, None)
    case Reclaim(now) => Reclaimed(s, now)
  }

  lemma EventsKeepShape(s: EventState, op: Op)
    requires Valid(s) && LeasesAgree(s)
    ensures Valid(Do(s, op)) && LeasesAgree(Do(s, op)) && s.rows.Keys <= Do(s, op).rows.Keys
  {
  }

  // What becomes of an event's status and lease; the event itself never changes.
  lemma EventAfter(s: EventState, op: Op, id: Id)
    requires Valid(s) && id in s.rows
    ensures id in Do(s, op).rows && Do(s, op).rows[id].event == s.rows[id].event
    ensures
      var was, now := s.rows[id], Do(s, op).rows[id];
      var same := now.status == was.status && now.leaseUntil == was.leaseUntil;
      match op
      case Append(_) => same
      case Claim(clock, ttl, n) =>
        if id in ClaimIds(s, n) then now.status.Claimed? && now.leaseUntil == Some(clock + ttl * 1_000_000) else same
      case Ack(x) => if x == id then now.status.Done? && now.leaseUntil.None? else same
      case Fail(x) => if x == id then now.status.Failed? && now.leaseUntil.None? else same
      case Reclaim(clock) =>
        if was.status.Claimed? && was.leaseUntil.Some? && was.leaseUntil.value < clock
        then now.status.Pending? && now.leaseUntil.None? else same
  {
  }

  lemma NewEventsWait(s: EventState, op: Op, id: Id)
    requires Valid(s) && id !in s.rows
    ensures id in Do(s, op).rows <==> op.Append? && op.event.eventId == id
    ensures id in Do(s, op).rows ==>
      Do(s, op).rows[id] == EventRow(op.event, EventStatus.Pending, None) && Do(s, op).order == s.order + [id]
  {
  }

  // A claim takes the oldest pending events: one left behind is younger than all taken.
  lemma OldestGoFirst(s: EventState, n: nat, i: nat, j: nat)
    requires Valid(s) && i < j < |s.order| && s.order[j] in ClaimIds(s, n)
    requires s.order[i] in s.rows && s.rows[s.order[i]].status.Pending?
    ensures s.order[i] in ClaimIds(s, n)
  {
    var pending := PendingIds(s.order, s.rows);
    var ids := ClaimIds(s, n);
    var k :| 0 <= k < |ids| && ids[k] == s.order[j];
    var m := PendingInOrder(s.order, s.rows, i, j, k);
    assert ids[m] == pending[m];
  }

  lemma {:induction false} PendingInOrder(order: seq<Id>, rows: map<Id, EventRow>, i: nat, j: nat,
      k: nat) returns (m: nat)
    requires Distinct(order) && i < j < |order| && order[i] in rows && rows[order[i]].status.Pending?
    requires k < |PendingIds(order, rows)| && PendingIds(order, rows)[k] == order[j]
    ensures m < k && PendingIds(order, rows)[m] == order[i]
  {
    var front := order[..|order| - 1];
    PendingAreListed(front, rows);
    if j == |order| - 1 {
      assert front[i] == order[i] && order[i] in front;
      assert order[j] !in front;
      m :| 0 <= m < |PendingIds(front, rows)| && PendingIds(front, rows)[m] == order[i];
      assert k == |PendingIds(front, rows)|;
    } else {
      assert order[j] in front && order[|order| - 1] !in front;
      assert k < |PendingIds(front, rows)|;
      m := PendingInOrder(front, rows, i, j, k);
    }
  }

  // An event is claimed only while it is pending, so no two ingestors hold it at once.
  lemma ClaimsArePending(s: EventState, now: Time, ttl: nat, n: nat)
    requires Valid(s)
    ensures forall id :: id in ClaimIds(s, n) ==>
      id in s.rows && s.rows[id].status.Pending? && Do(s, Claim(now, ttl, n)).rows[id].status.Claimed?
    ensures Distinct(ClaimIds(s, n)) && |ClaimIds(s, n)| <= n
    ensures |ClaimIds(s, n)| < n ==> forall id :: id in s.rows && s.rows[id].status.Pending? ==> id in ClaimIds(s, n)
  {
    PendingAreListed(s.order, s.rows);
    var pending := PendingIds(s.order, s.rows);
    assert forall id :: id in ClaimIds(s, n) ==> id in pending;
    assert pending[..|pending|] == pending;
  }

  // Pending events have been ready since before the run; a claimed one is held until its
  // lease ends.
  ghost function ViewOf(status: EventStatus, lease: Option<Time>, since: Time): Lease.View {
    match status
    case Pending => Lease.Ready(since)
    case Claimed => Lease.Leased(if lease.Some? then lease.value else since)
    case _ => Lease.Done
  }

  ghost function QueueOf(s: EventState, since: Time): Lease.Queue {
    map id | id in s.rows :: ViewOf(s.rows[id].status, s.rows[id].leaseUntil, since)
  }

  ghost function StepOf(s: EventState, op: Op, since: Time): Lease.Step {
    match op
    case Append(e) => if e.eventId in s.rows then Lease.Note else Lease.Enqueue(e.eventId, Lease.Ready(since))
    case Claim(now, ttl, n) => Lease.Claim(Elements(ClaimIds(s, n)), now, now + Span(ttl))
    case Ack(id) => if id in s.rows then Lease.Finish(id) else Lease.Note
    case Fail(id) => if id in s.rows then Lease.Finish(id) else Lease.Note
    case Reclaim(now) => Lease.Reclaim(now, map id | id in StaleIds(s, now) :: since)
  }

  predicate Within(op: Op, since: Time) {
    op.Claim? ==> since <= op.now
  }

  lemma QueueWithStatus(s: EventState, ids: set<Id>, status: EventStatus, lease: Option<Time>, since: Time)
    ensures var q := QueueOf(s, since);
      QueueOf(WithStatus(s, ids, status, lease), since) == map id | id in q ::
        if id in ids then ViewOf(status, lease, since) else q[id]
  {
  }

  lemma ClaimRefines(s: EventState, now: Time, ttl: nat, n: nat, since: Time)
    requires Valid(s) && since <= now
    ensures Lease.Moves(false, QueueOf(s, since), StepOf(s, Claim(now, ttl, n), since),
      QueueOf(ClaimedState(s, now, ttl, n), since))
  {
    ClaimsArePending(s, now, ttl, n);
    QueueWithStatus(s, Elements(ClaimIds(s, n)), Claimed, Some(now + Span(ttl)), since);
  }

  lemma ReclaimRefines(s: EventState, now: Time, since: Time)
    ensures Lease.Moves(false, QueueOf(s, since), StepOf(s, Reclaim(now), since), QueueOf(Reclaimed(s, now), since))
  {
    QueueWithStatus(s, StaleIds(s, now), EventStatus.Pending, None, since);
  }

  lemma FinishRefines(s: EventState, id: Id, status: EventStatus, since: Time)
    requires status.Done? || status.Failed?
    ensures Lease.Moves(false, QueueOf(s, since),
      if id in s.rows then Lease.Finish(id) else Lease.Note, QueueOf(WithStatus(s, {id}, status, None), since))
  {
    QueueWithStatus(s, {id}, status, None, since);
  }

  lemma EventsRefineLeaseQueue(s: EventState, op: Op, since: Time)
    requires Valid(s) && Within(op, since)
    ensures Lease.Moves(false, QueueOf(s, since), StepOf(s, op, since), QueueOf(Do(s, op), since))
  {
    match op
    case Append(e) =>
    case Claim(now, ttl, n) => ClaimRefines(s, now, ttl, n, since);
    case Ack(id) => FinishRefines(s, id, Done, since);
    case Fail(id) => FinishRefines(s, id, Failed, since);
    case Reclaim(now) => ReclaimRefines(s, now, since);
  }

  ghost predicate EventRun(ss: seq<EventState>, ops: seq<Op>, since: Time) {
    && |ss| == |ops| + 1
    && forall k :: 0 <= k < |ops| ==> Valid(ss[k]) && Within(ops[k], since) && ss[k + 1] == Do(ss[k], ops[k])
  }

  lemma JustifierReclaims(s: EventState, op: Op, since: Time, id: Id, expiry: Time)
    requires Lease.Justifies(false, StepOf(s, op, since), id, expiry)
    ensures op.Reclaim? && expiry < op.now
  {
  }

  ghost function Queues(ss: seq<EventState>, since: Time): seq<Lease.Queue> {
    seq(|ss|, k requires 0 <= k < |ss| => QueueOf(ss[k], since))
  }

  ghost function Steps(ss: seq<EventState>, ops: seq<Op>, since: Time): seq<Lease.Step>
    requires |ss| >= |ops|
  {
    seq(|ops|, k requires 0 <= k < |ops| => StepOf(ss[k], ops[k], since))
  }

  lemma EventRunRefines(ss: seq<EventState>, ops: seq<Op>, since: Time)
    requires EventRun(ss, ops, since)
    ensures Lease.Run(false, Queues(ss, since), Steps(ss, ops, since))
  {
    forall k | 0 <= k < |ops|
      ensures Lease.Moves(false, Queues(ss, since)[k], Steps(ss, ops, since)[k], Queues(ss, since)[k + 1]) {
      EventsRefineLeaseQueue(ss[k], ops[k], since);
    }
  }

  // An event handed out twice was reclaimed in between, after the first lease ran out:
  // acknowledging or parking it never puts it back.
  lemma SecondClaimFollowsAReclaim(ss: seq<EventState>, ops: seq<Op>, since: Time, i: nat, j: nat, id: Id)
    requires EventRun(ss, ops, since)
    requires i < j < |ops| && ops[i].Claim? && ops[j].Claim?
    requires id in ClaimIds(ss[i], ops[i].n) && id in ClaimIds(ss[j], ops[j].n)
    ensures exists k :: i < k < j && ops[k].Reclaim? && ops[i].now + Span(ops[i].ttl) < ops[k].now
  {
    var steps, expiry := Steps(ss, ops, since), ops[i].now + Span(ops[i].ttl);
    EventRunRefines(ss, ops, since);
    assert steps[i] == Lease.Claim(Elements(ClaimIds(ss[i], ops[i].n)), ops[i].now, expiry);
    assert Lease.Takes(steps[j], id);
    Lease.SecondClaimIsJustified(false, Queues(ss, since), steps, i, j, id);
    var k :| i < k < j && Lease.Justifies(false, steps[k], id, expiry);
    JustifierReclaims(ss[k], ops[k], since, id, expiry);
  }
}
