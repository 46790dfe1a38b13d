// The Redis delivery store: two sorted sets (ready by firing time, inflight by lease
// end) moved by scripts, beside one hash a delivery.  Times here are milliseconds.
module RedisStore {
  import opened Delivery
  import opened LeaseMachine

  datatype Hash = Hash(status: Status, attempts: int, fireAt: Time)

  datatype RedisState = RedisState(
    ready: map<Id, Time>,
    inflight: map<Id, Time>,
    hashes: map<Id, Hash>,
    log: map<Id, seq<Attempt>>)

  // The layout: no id in both sets, no id without a hash, and a known delivery is in
  // neither set exactly when it is finished.
  ghost predicate LayoutHolds(s: RedisState) {
    && s.ready.Keys !! s.inflight.Keys
    && s.ready.Keys + s.inflight.Keys <= s.hashes.Keys
    && (forall id :: id in s.hashes ==> (id !in s.ready && id !in s.inflight <==> s.hashes[id].status.Terminal()))
  }

  // ZRANGEBYSCORE key 0 hi
  function ScoredUpTo(zset: map<Id, Time>, hi: Time): map<Id, Time> {
    map id | id in zset && 0 <= zset[id] <= hi :: zset[id]
  }

  // ---- What each operation does -----------------------------------------------------

  datatype Op =
    | Add(id: Id, hash: Hash)
    | Move(ids: set<Id>, now: Time, leaseEnd: Time, statusWritten: bool)
    | MoveBack(now: Time)
    | SetSent(id: Id, attempt: Attempt)
    | SetRetry(id: Id, fireAt: Time, attempt: Attempt)
    | SetDead(id: Id, attempt: Attempt)
    | AppendOnly(id: Id, attempt: Attempt)

  // LPUSH then LTRIM 0 limit-1; a limit of zero asks for 0..-1, which trims nothing.
  function Trimmed(log: seq<Attempt>, limit: nat): seq<Attempt> {
    if limit == 0 || |log| <= limit then log else log[..limit]
  }

  function Logged(log: map<Id, seq<Attempt>>, id: Id, a: Attempt, limit: nat): map<Id, seq<Attempt>> {
    log[id := Trimmed([a] + (if id in log then log[id] else []), limit)]
  }

  function HashOr(hashes: map<Id, Hash>, id: Id): Hash {
    if id in hashes then hashes[id] else Hash(Pending, 0, 0)
  }

  // ZADD of every one of `ids` at one score.
  ghost function Scored(zset: map<Id, Time>, ids: set<Id>, score: Time): map<Id, Time> {
    map id | id in zset.Keys + ids :: if id in ids then score else zset[id]
  }

  ghost function Stamped(hashes: map<Id, Hash>, ids: set<Id>): map<Id, Hash> {
    map id | id in hashes :: if id in ids then hashes[id].(status := InFlight) else hashes[id]
  }

  // What a claim hands out: the rows that still have a hash, in the order of the move.
  function Fetched(hashes: map<Id, Hash>, ids: seq<Id>): seq<(Id, Hash)> {
    if ids == [] then []
    else
      var last := ids[|ids| - 1];
      Fetched(hashes, ids[..|ids| - 1]) + if last in hashes then [(last, hashes[last].(status := InFlight))] else []
  }

  // The same without recursion: the rows of those ids that have a hash, once for each
  // place the id has in the list, in the order of the places, and in flight.
  ghost predicate HandsOut(hashes: map<Id, Hash>, ids: seq<Id>, batch: seq<(Id, Hash)>, places: seq<nat>) {
    && |places| == |batch|
    && (forall k :: 0 <= k < |places| ==> places[k] < |ids| && ids[places[k]] in hashes)
    && (forall j, k :: 0 <= j < k < |places| ==> places[j] < places[k])
    && (forall i :: 0 <= i < |ids| && ids[i] in hashes ==> i in places)
    && forall k :: 0 <= k < |batch| ==>
      batch[k] == (ids[places[k]], hashes[ids[places[k]]].(status := InFlight))
  }

  ghost predicate IsHandedOut(hashes: map<Id, Hash>, ids: seq<Id>, batch: seq<(Id, Hash)>) {
    exists places :: HandsOut(hashes, ids, batch, places)
  }

  lemma FetchedIsHandedOut(hashes: map<Id, Hash>, ids: seq<Id>, batch: seq<(Id, Hash)>)
    requires batch == Fetched(hashes, ids)
    ensures IsHandedOut(hashes, ids, batch)
  {
    var _ := FetchedPlaces(hashes, ids);
  }

  lemma {:induction false} FetchedPlaces(hashes: map<Id, Hash>, ids: seq<Id>) returns (places: seq<nat>)
    ensures HandsOut(hashes, ids, Fetched(hashes, ids), places)
  {
    if ids == [] {
      places := [];
    } else {
      var front, last := ids[..|ids| - 1], ids[|ids| - 1];
      var early := FetchedPlaces(hashes, front);
      places := early + if last in hashes then [|front|] else [];
      HandsOutOneMore(hashes, front, last, Fetched(hashes, front), early);
      assert ids == front + [last];
    }
  }

  lemma HandsOutOneMore(hashes: map<Id, Hash>, ids: seq<Id>, id: Id, batch: seq<(Id, Hash)>, places: seq<nat>)
    requires HandsOut(hashes, ids, batch, places)
    ensures id !in hashes ==> HandsOut(hashes, ids + [id], batch, places)
    ensures id in hashes ==>
      HandsOut(hashes, ids + [id], batch + [(id, hashes[id].(status := InFlight))], places + [|ids|])
  {
    var more := ids + [id];
    assert forall i :: 0 <= i < |ids| ==> more[i] == ids[i];
    if id in hashes {
      assert (places + [|ids|])[|places|] == |ids|;
      assert forall i :: i in places ==> i in places + [|ids|];
    }
  }

  lemma {:induction false} PlacesClimb(places: seq<nat>, n: nat, k: nat)
    requires forall i, j :: 0 <= i < j < |places| ==> places[i] < places[j]
    requires k < |places| && forall i :: 0 <= i < |places| ==> places[i] < n
    ensures k <= places[k] <= n - |places| + k
    decreases |places|
  {
    if k < |places| - 1 {
      PlacesClimb(places[..|places| - 1], places[|places| - 1], k);
    } else if k > 0 {
      PlacesClimb(places[..k], places[k], k - 1);
    }
  }

  // Where no hash is missing, as the layout has it, every id moved is handed out at its place.
  lemma AllAreHandedOut(s: RedisState, ids: seq<Id>, batch: seq<(Id, Hash)>, places: seq<nat>)
    requires LayoutHolds(s) && forall i :: 0 <= i < |ids| ==> ids[i] in s.ready
    requires HandsOut(s.hashes, ids, batch, places)
    ensures |batch| == |ids|
    ensures forall k :: 0 <= k < |ids| ==> batch[k] == (ids[k], s.hashes[ids[k]].(status := InFlight))
  {
    forall i: nat | i < |ids| ensures i in places {
      assert ids[i] in s.hashes;
    }
    AllPlaces(places, |ids|);
    forall k | 0 <= k < |places| ensures places[k] == k {
      PlacesClimb(places, |ids|, k);
    }
  }

  lemma {:induction false} AllPlaces(places: seq<nat>, n: nat)
    requires forall i: nat :: i < n ==> i in places
    requires forall i, j :: 0 <= i < j < |places| ==> places[i] < places[j]
    requires forall i :: 0 <= i < |places| ==> places[i] < n
    ensures |places| == n
  {
    if n > 0 {
      assert n - 1 in places;
      var front, last := places[..|places| - 1], places[|places| - 1];
      assert places == front + [last];
      forall i: nat | i < n - 1 ensures i in front {
        assert i in places;
      }
      AllPlaces(front, n - 1);
    }
  }

  // One more iteration of a script's loop.
  lemma ScoreOneMore(zset: map<Id, Time>, ids: set<Id>, id: Id, score: Time)
    ensures Scored(zset, ids + {id}, score) == Scored(zset, ids, score)[id := score]
  {
  }

  lemma NothingMoved(ready: map<Id, Time>, inflight: map<Id, Time>, ids: seq<Id>, score: Time)
    ensures ready - Elements(ids[..0]) == ready && Scored(inflight, Elements(ids[..0]), score) == inflight
  {
  }

  lemma MoveOneMore(ready: map<Id, Time>, inflight: map<Id, Time>, ids: seq<Id>, i: nat, score: Time)
    requires i < |ids|
    ensures ready - Elements(ids[..i + 1]) == ready - Elements(ids[..i]) - {ids[i]}
    ensures Scored(inflight, Elements(ids[..i + 1]), score) ==
      Scored(inflight, Elements(ids[..i]), score)[ids[i] := score]
  {
    assert ids[..i + 1] == ids[..i] + [ids[i]];
    assert Elements(ids[..i + 1]) == Elements(ids[..i]) + {ids[i]};
    ScoreOneMore(inflight, Elements(ids[..i]), ids[i], score);
  }

  lemma MoveBackOneMore(inflight: map<Id, Time>, ready: map<Id, Time>, stale: set<Id>, todo: set<Id>, id: Id,
      score: Time)
    requires todo <= stale && id in todo
    ensures inflight - (stale - (todo - {id})) == inflight - (stale - todo) - {id}
    ensures Scored(ready, stale - (todo - {id}), score) == Scored(ready, stale - todo, score)[id := score]
  {
    assert stale - (todo - {id}) == stale - todo + {id};
    ScoreOneMore(ready, stale - todo, id, score);
  }

  lemma StampOneMore(hashes: map<Id, Hash>, ids: set<Id>, id: Id)
    ensures Stamped(hashes, ids + {id}) ==
      if id in hashes then Stamped(hashes, ids)[id := hashes[id].(status := InFlight)] else Stamped(hashes, ids)
  {
  }

  ghost function Do(s: RedisState, op: Op, limit: nat): RedisState {
    match op
    case Add(id, hash) => s.(ready := s.ready[id := hash.fireAt], hashes := s.hashes[id := hash])
    case Move(ids, _, leaseEnd, written) =>
      s.(ready := s.ready - ids,
         inflight := Scored(s.inflight, ids, leaseEnd),
         hashes := if written then Stamped(s.hashes, ids) else s.hashes)
    case MoveBack(now) =>
      var stale := ScoredUpTo(s.inflight, now).Keys;
      s.(inflight := s.inflight - stale, ready := Scored(s.ready, stale, now))
    case SetSent(id, a) => Finished(s, id, Sent, a, limit)
    case SetDead(id, a) => Finished(s, id, DeadLettered, a, limit)
    case SetRetry(id, fireAt, a) =>
      s.(inflight := s.inflight - {id}, ready := s.ready[id := fireAt],
         hashes := s.hashes[id := Hash(FailedRetry, a.number, fireAt)], log := Logged(s.log, id, a, limit))
    case AppendOnly(id, a) => s.(log := Logged(s.log, id, a, limit))
  }

  ghost function Finished(s: RedisState, id: Id, status: Status, a: Attempt, limit: nat): RedisState {
    s.(inflight := s.inflight - {id}, ready := s.ready - {id},
       hashes := s.hashes[id := HashOr(s.hashes, id).(status := status, attempts := a.number)],
         log := Logged(s.log, id, a, limit))
  }

  ghost function AllAdded(s: RedisState, rows: seq<(Id, Hash)>, limit: nat): RedisState {
    if rows == [] then s
      else Do(AllAdded(s, rows[..|rows| - 1], limit), Add(rows[|rows| - 1].0, rows[|rows| - 1].1), limit)
  }

  ghost predicate IsLastOf(rows: seq<(Id, Hash)>, k: nat, id: Id)
    requires k < |rows|
  {
    rows[k].0 == id && forall j :: k < j < |rows| ==> rows[j].0 != id
  }

  lemma {:induction false} AddsTouchNoOthers(s: RedisState, rows: seq<(Id, Hash)>, limit: nat, id: Id)
    requires forall k :: 0 <= k < |rows| ==> rows[k].0 != id
    ensures
      var t := AllAdded(s, rows, limit);
      && t.inflight == s.inflight && t.log == s.log
      && (id in t.hashes <==> id in s.hashes) && (id in s.hashes ==> t.hashes[id] == s.hashes[id])
      && (id in t.ready <==> id in s.ready) && (id in s.ready ==> t.ready[id] == s.ready[id])
  {
    if rows != [] {
      AddsTouchNoOthers(s, rows[..|rows| - 1], limit, id);
    }
  }

  // After a list of enqueues every id of the list is ready with the last of its hashes, at
  // that hash's firing time, and nothing leaves inflight.
  lemma {:induction false} LastAddWins(s: RedisState, rows: seq<(Id, Hash)>, limit: nat, k: nat)
    requires k < |rows| && IsLastOf(rows, k, rows[k].0)
    ensures
      var t, id := AllAdded(s, rows, limit), rows[k].0;
      && t.inflight == s.inflight && t.log == s.log
      && id in t.hashes && t.hashes[id] == rows[k].1
      && id in t.ready && t.ready[id] == rows[k].1.fireAt
  {
    var front, last := rows[..|rows| - 1], rows[|rows| - 1];
    if k < |front| {
      LastAddWins(s, front, limit, k);
    } else {
      AddsKeepTheRest(s, front, limit);
    }
  }

  lemma {:induction false} AddsKeepTheRest(s: RedisState, rows: seq<(Id, Hash)>, limit: nat)
    ensures AllAdded(s, rows, limit).inflight == s.inflight && AllAdded(s, rows, limit).log == s.log
  {
    if rows != [] {
      AddsKeepTheRest(s, rows[..|rows| - 1], limit);
    }
  }

  // A move takes ids the script's range query returned.
  ghost predicate Allowed(s: RedisState, op: Op) {
    op.Move? ==> op.ids <= ScoredUpTo(s.ready, op.now).Keys
  }

  ghost predicate ClobbersLease(s: RedisState, op: Op) {
    op.Add? && (op.id in s.inflight || op.hash.status.Terminal())
  }

  // Every operation keeps the layout, whoever calls it and however late -- except an
  // enqueue over an id that is in flight (or of a row handed in as finished).  It
  // also holds when a claim crashes between its script and its status writes.
  lemma LayoutIsKept(s: RedisState, op: Op, limit: nat)
    requires LayoutHolds(s) && Allowed(s, op)
    ensures LayoutHolds(Do(s, op, limit)) <==> !ClobbersLease(s, op)
  {
    match op
    case Add(id, hash) =>
      var t := Do(s, op, limit);
      assert id in t.hashes && id in t.ready;
    case Move(ids, now, leaseEnd, written) => MovingKeepsLayout(s, ids, leaseEnd, written);
    case MoveBack(now) => MovingBackKeepsLayout(s, ScoredUpTo(s.inflight, now).Keys, now);
    case _ =>
  }

  lemma MovingBackKeepsLayout(s: RedisState, stale: set<Id>, now: Time)
    requires LayoutHolds(s) && stale <= s.inflight.Keys
    ensures LayoutHolds(s.(inflight := s.inflight - stale, ready := Scored(s.ready, stale, now)))
  {
  }

  lemma MovingKeepsLayout(s: RedisState, ids: set<Id>, leaseEnd: Time, written: bool)
    requires LayoutHolds(s) && ids <= s.ready.Keys
    ensures LayoutHolds(s.(
      ready := s.ready - ids,
      inflight := Scored(s.inflight, ids, leaseEnd),
      hashes := if written then Stamped(s.hashes, ids) else s.hashes))
  {
  }

  ghost predicate Logs(op: Op, id: Id) {
    (op.SetSent? || op.SetRetry? || op.SetDead? || op.AppendOnly?) && op.id == id
  }

  // What becomes of a known delivery's hash; only an enqueue writes over its attempts or
  // firing time without an attempt to show for it.
  lemma HashAfter(s: RedisState, op: Op, limit: nat, id: Id)
    requires id in s.hashes
    ensures id in Do(s, op, limit).hashes
    ensures
      var was, now := s.hashes[id], Do(s, op, limit).hashes[id];
      match op
      case Add(x, hash) => now == if x == id then hash else was
      case Move(ids, _, _, written) => now == if written && id in ids then was.(status := InFlight) else was
      case MoveBack(_) => now == was
      case SetSent(x, a) => now == if x == id then Hash(Sent, a.number, was.fireAt) else was
      case SetRetry(x, fireAt, a) => now == if x == id then Hash(FailedRetry, a.number, fireAt) else was
      case SetDead(x, a) => now == if x == id then Hash(DeadLettered, a.number, was.fireAt) else was
      case AppendOnly(_, _) => now == was
  {
  }

  ghost function LogOf(s: RedisState, id: Id): seq<Attempt> {
    if id in s.log then s.log[id] else []
  }

  // The attempts that a run of operations has logged for a delivery, oldest first.
  ghost function Attempts(ops: seq<Op>, id: Id): seq<Attempt> {
    if ops == [] then []
    else
      var last := ops[|ops| - 1];
      Attempts(ops[..|ops| - 1], id) + if Logs(last, id) then [last.attempt] else []
  }

  ghost predicate KeepsNewest(log: seq<Attempt>, history: seq<Attempt>, limit: nat) {
    && |log| == (if limit == 0 then |history| else Min(limit, |history|))
    && forall k :: 0 <= k < |log| ==> log[k] == history[|history| - 1 - k]
  }

  // In any run a delivery's list holds its newest attempts, newest first: as many as the
  // history limit allows, or all of them where it is zero.
  lemma {:induction false} LogKeepsTheNewest(ss: seq<RedisState>, ops: seq<Op>, limit: nat, id: Id)
    requires |ss| == |ops| + 1 && LogOf(ss[0], id) == []
    requires forall k :: 0 <= k < |ops| ==> ss[k + 1] == Do(ss[k], ops[k], limit)
    ensures KeepsNewest(LogOf(ss[|ops|], id), Attempts(ops, id), limit)
  {
    if ops != [] {
      var front, last := ops[..|ops| - 1], ops[|ops| - 1];
      LogKeepsTheNewest(ss[..|ops|], front, limit, id);
      assert ss[|ops|] == Do(ss[|front|], last, limit);
      LogOneMore(ss[|front|], last, limit, id, Attempts(front, id));
    }
  }

  lemma LogOneMore(s: RedisState, op: Op, limit: nat, id: Id, history: seq<Attempt>)
    requires KeepsNewest(LogOf(s, id), history, limit)
    ensures KeepsNewest(LogOf(Do(s, op, limit), id), history + if Logs(op, id) then [op.attempt] else [], limit)
  {
    LogAfter(s, op, limit, id);
    if Logs(op, id) {
      TrimmedKeepsNewest(LogOf(s, id), history, op.attempt, limit);
    } else {
      assert history + [] == history;
    }
  }

  lemma LogAfter(s: RedisState, op: Op, limit: nat, id: Id)
    ensures LogOf(Do(s, op, limit), id)
         == if Logs(op, id) then Trimmed([op.attempt] + LogOf(s, id), limit) else LogOf(s, id)
  {
  }

  lemma TrimmedKeepsNewest(log: seq<Attempt>, history: seq<Attempt>, a: Attempt, limit: nat)
    requires KeepsNewest(log, history, limit)
    ensures KeepsNewest(Trimmed([a] + log, limit), history + [a], limit)
  {
  }

  ghost predicate FreshRun(ss: seq<RedisState>, ops: seq<Op>, limit: nat) {
    && |ss| == |ops| + 1
    && ss[0] == RedisState(map[], map[], map[], map[])
    && forall k :: 0 <= k < |ops| ==>
      && Allowed(ss[k], ops[k]) && ss[k + 1] == Do(ss[k], ops[k], limit)
      && (ops[k].Add? ==> ops[k].id !in ss[k].hashes && ops[k].hash.status.Pending?)
  }

  lemma {:induction false} LayoutHoldsThroughout(ss: seq<RedisState>, ops: seq<Op>, limit: nat, k: nat)
    requires FreshRun(ss, ops, limit) && k < |ss|
    ensures LayoutHolds(ss[k])
  {
    if k > 0 {
      LayoutHoldsThroughout(ss, ops, limit, k - 1);
      LayoutIsKept(ss[k - 1], ops[k - 1], limit);
    }
  }

  // ---- The layout is an instance of the lease queue -----------------------------------

  ghost function ViewOf(s: RedisState, id: Id): View {
    if id in s.inflight then Leased(s.inflight[id])
    else if id in s.ready then Ready(s.ready[id])
    else Done
  }

  ghost function QueueOf(s: RedisState): Queue {
    map id | id in s.hashes :: ViewOf(s, id)
  }

  ghost function StepOf(s: RedisState, op: Op): Step {
    match op
    case Add(id, hash) => if id in s.hashes then Retry(id, hash.fireAt) else Enqueue(id, Ready(hash.fireAt))
    case Move(ids, now, leaseEnd, _) => Claim(ids, now, leaseEnd)
    case MoveBack(now) => Reclaim(now, map id | id in ScoredUpTo(s.inflight, now) :: now)
    case SetSent(id, _) => if id in s.hashes then Finish(id) else Enqueue(id, Done)
    case SetDead(id, _) => if id in s.hashes then Finish(id) else Enqueue(id, Done)
    case SetRetry(id, fireAt, _) => if id in s.hashes then Retry(id, fireAt) else Enqueue(id, Ready(fireAt))
    case AppendOnly(_, _) => Note
  }

  lemma MovingRefines(s: RedisState, ids: set<Id>, now: Time, leaseEnd: Time, written: bool, limit: nat)
    requires LayoutHolds(s) && ids <= ScoredUpTo(s.ready, now).Keys
    ensures var op := Move(ids, now, leaseEnd, written);
      Moves(true, QueueOf(s), StepOf(s, op), QueueOf(Do(s, op, limit)))
  {
    var op := Move(ids, now, leaseEnd, written);
    assert QueueOf(Do(s, op, limit)) == Apply(QueueOf(s), StepOf(s, op));
  }

  lemma MovingBackRefines(s: RedisState, now: Time, limit: nat)
    requires LayoutHolds(s)
    ensures Moves(true, QueueOf(s), StepOf(s, MoveBack(now)), QueueOf(Do(s, MoveBack(now), limit)))
  {
    assert QueueOf(Do(s, MoveBack(now), limit)) == Apply(QueueOf(s), StepOf(s, MoveBack(now)));
  }

  lemma FinishingRefines(s: RedisState, id: Id, status: Status, a: Attempt, limit: nat)
    requires LayoutHolds(s)
    ensures Moves(true, QueueOf(s), StepOf(s, SetSent(id, a)), QueueOf(Finished(s, id, status, a, limit)))
  {
  }

  lemma RequeueingRefines(s: RedisState, op: Op, limit: nat)
    requires LayoutHolds(s) && !ClobbersLease(s, op) && (op.Add? || op.SetRetry?)
    ensures Moves(true, QueueOf(s), StepOf(s, op), QueueOf(Do(s, op, limit)))
  {
    var t := Do(s, op, limit);
    var fireAt := if op.Add? then op.hash.fireAt else op.fireAt;
    Requeued(s, t, op.id, fireAt);
  }

  lemma Requeued(s: RedisState, t: RedisState, id: Id, fireAt: Time)
    requires t.hashes.Keys == s.hashes.Keys + {id}
    requires t.ready == s.ready[id := fireAt] && t.inflight == s.inflight - {id}
    ensures QueueOf(t) == QueueOf(s)[id := Ready(fireAt)]
  {
  }

  // Each operation is the abstract step it names.  Reclaim is inclusive here and
  // rescores the row to now; an enqueue over a finished id revives it.
  lemma RedisRefinesLeaseQueue(s: RedisState, op: Op, limit: nat)
    requires LayoutHolds(s) && Allowed(s, op) && !ClobbersLease(s, op)
    ensures Moves(true, QueueOf(s), StepOf(s, op), QueueOf(Do(s, op, limit)))
  {
    match op
    case Move(ids, now, leaseEnd, written) => MovingRefines(s, ids, now, leaseEnd, written, limit);
    case MoveBack(now) => MovingBackRefines(s, now, limit);
    case Add(_, _) => RequeueingRefines(s, op, limit);
    case SetRetry(_, _, _) => RequeueingRefines(s, op, limit);
    case SetSent(id, a) => FinishingRefines(s, id, Sent, a, limit);
    case SetDead(id, a) => FinishingRefines(s, id, DeadLettered, a, limit);
    case AppendOnly(_, _) =>
  }

  ghost predicate Frees(op: Op, id: Id, leaseEnd: Time) {
    (op.SetRetry? && op.id == id) || (op.MoveBack? && leaseEnd <= op.now)
  }

  // Two claims of one delivery in any run with fresh ids have a retry of it between
  // them, or a reclaim no earlier than the end of the first lease.
  lemma SecondMoveHasACause(ss: seq<RedisState>, ops: seq<Op>, limit: nat, i: nat, j: nat, id: Id)
    requires FreshRun(ss, ops, limit)
    requires i < j < |ops| && ops[i].Move? && ops[j].Move? && id in ops[i].ids && id in ops[j].ids
    ensures exists k :: i < k < j && Frees(ops[k], id, ops[i].leaseEnd)
  {
    var qs := seq(|ss|, k requires 0 <= k < |ss| => QueueOf(ss[k]));
    var steps := seq(|ops|, k requires 0 <= k < |ops| => StepOf(ss[k], ops[k]));
    forall k | 0 <= k < |steps| ensures Moves(true, qs[k], steps[k], qs[k + 1]) {
      LayoutHoldsThroughout(ss, ops, limit, k);
      RedisRefinesLeaseQueue(ss[k], ops[k], limit);
    }
    SecondClaimIsJustified(true, qs, steps, i, j, id);
    var k :| i < k < j && Justifies(true, steps[k], id, steps[i].expiry);
    assert steps[k] == StepOf(ss[k], ops[k]);
  }

  // Rows dated from 1970 on: the script's range query finds exactly the due rows.
  lemma RangeQueryFindsTheDueRows(s: RedisState, now: Time)
    requires LayoutHolds(s)
    ensures ScoredUpTo(s.ready, now) == DueTimes(QueueOf(s), now) <==>
      (forall id :: id in s.ready && s.ready[id] < 0 ==> s.ready[id] > now)
  {
    var scored, due := ScoredUpTo(s.ready, now), DueTimes(QueueOf(s), now);
    if forall id :: id in s.ready && s.ready[id] < 0 ==> s.ready[id] > now {
      assert scored == due;
    } else {
      var id :| id in s.ready && s.ready[id] < 0 && s.ready[id] <= now;
      assert id in due && id !in scored;
    }
  }

  // ---- The store itself ---------------------------------------------------------------

  class RedisWebhookDeliveryStore {
    var ready: map<Id, Time>
    var inflight: map<Id, Time>
    var hashes: map<Id, Hash>
    var log: map<Id, seq<Attempt>>
    const historyLimit: nat

    ghost function State(): RedisState
      reads this
    {
      RedisState(ready, inflight, hashes, log)
    }

    constructor (limit: nat)
      ensures State() == RedisState(map[], map[], map[], map[]) && historyLimit == limit
    {
      ready, inflight, hashes, log, historyLimit := map[], map[], map[], map[], limit;
    }

    // No check for ids already known: a later write wins.
    method EnqueueMany(rows: seq<(Id, Hash)>)
      modifies this
      ensures State() == AllAdded(old(State()), rows, historyLimit)
    {
      for i := 0 to |rows|
        invariant State() == AllAdded(old(State()), rows[..i], historyLimit)
      {
        assert rows[..i + 1][..i] == rows[..i];
        hashes := hashes[rows[i].0 := rows[i].1];
        ready := ready[rows[i].0 := rows[i].1.fireAt];
      }
      assert rows[..|rows|] == rows;
    }

    // The claim script: a range query, then one ZREM and one ZADD an id.
    method ClaimScript(now: Time, leaseEnd: Time, n: nat) returns (ids: seq<Id>)
      modifies `ready, `inflight
      ensures Earliest(ScoredUpTo(old(ready), now), n, ids)
      ensures State() == Do(old(State()), Move(Elements(ids), now, leaseEnd, false), historyLimit)
    {
      ids := TakeEarliest(ScoredUpTo(ready, now), n);
      MoveAll(ids, leaseEnd);
    }

    method MoveAll(ids: seq<Id>, leaseEnd: Time)
      modifies `ready, `inflight
      ensures ready == old(ready) - Elements(ids) && inflight == Scored(old(inflight), Elements(ids), leaseEnd)
    {
      ghost var ready0, inflight0 := ready, inflight;
      NothingMoved(ready0, inflight0, ids, leaseEnd);
      for i := 0 to |ids|
        invariant ready == ready0 - Elements(ids[..i])
        invariant inflight == Scored(inflight0, Elements(ids[..i]), leaseEnd)
      {
        MoveOneMore(ready0, inflight0, ids, i, leaseEnd);
        ready := ready - {ids[i]};
        inflight := inflight[ids[i] := leaseEnd];
      }
      assert ids[..|ids|] == ids;
    }

    // Rows whose hash is gone are left out of the batch.
    method ClaimBatch(now: Time, ttlMs: nat, n: nat) returns (batch: seq<(Id, Hash)>, ids: seq<Id>)
      modifies this
      ensures Earliest(ScoredUpTo(old(ready), now), n, ids)
      ensures State() == Do(old(State()), Move(Elements(ids), now, now + ttlMs, true), historyLimit)
      ensures IsHandedOut(old(hashes), ids, batch)
    {
      batch, ids := MoveAndStamp(now, ttlMs, n);
      FetchedIsHandedOut(old(hashes), ids, batch);
    }

    // The script, and the status writes that follow it.
    method MoveAndStamp(now: Time, ttlMs: nat, n: nat) returns (batch: seq<(Id, Hash)>, ids: seq<Id>)
      modifies this
      ensures Earliest(ScoredUpTo(old(ready), now), n, ids)
      ensures State() == Do(old(State()), Move(Elements(ids), now, now + ttlMs, true), historyLimit)
      ensures batch == Fetched(old(hashes), ids)
    {
      ghost var before := State();
      ids := ClaimScript(now, now + ttlMs, n);
      batch := WriteStatuses(before, now, now + ttlMs, ids);
    }

    // What follows the script: read the hashes and write the new status to each.
    method WriteStatuses(ghost before: RedisState, now: Time, leaseEnd: Time, ids: seq<Id>)
        returns (batch: seq<(Id, Hash)>)
      requires State() == Do(before, Move(Elements(ids), now, leaseEnd, false), historyLimit)
      modifies `hashes
      ensures State() == Do(before, Move(Elements(ids), now, leaseEnd, true), historyLimit)
      ensures batch == Fetched(before.hashes, ids)
    {
      batch := StampAll(ids);
    }

    method StampAll(moved: seq<Id>) returns (batch: seq<(Id, Hash)>)
      modifies `hashes
      ensures hashes == Stamped(old(hashes), Elements(moved))
      ensures batch == Fetched(old(hashes), moved)
    {
      ghost var hashes0 := hashes;
      batch := [];
      for i := 0 to |moved|
        invariant hashes == Stamped(hashes0, Elements(moved[..i]))
        invariant batch == Fetched(hashes0, moved[..i])
      {
        var id := moved[i];
        assert Elements(moved[..i + 1]) == Elements(moved[..i]) + {id};
        assert moved[..i + 1][..i] == moved[..i];
        StampOneMore(hashes0, Elements(moved[..i]), id);
        if id in hashes {
          batch := batch + [(id, hashes[id].(status := InFlight))];
          hashes := hashes[id := hashes[id].(status := InFlight)];
        }
      }
      assert moved[..|moved|] == moved;
    }

    // The reclaim script: every lease that ends by now, back to ready with score now.
    method ReclaimStale(now: Time) returns (count: nat)
      modifies this
      ensures State() == Do(old(State()), MoveBack(now), historyLimit)
      ensures count == |ScoredUpTo(old(inflight), now)|
    {
      var stale := ScoredUpTo(inflight, now).Keys;
      MoveBackAll(stale, now);
      count := |stale|;
    }

    method MoveBackAll(stale: set<Id>, now: Time)
      modifies `inflight, `ready
      ensures inflight == old(inflight) - stale && ready == Scored(old(ready), stale, now)
    {
      ghost var inflight0, ready0 := inflight, ready;
      var todo := stale;
      while todo != {}
        invariant todo <= stale
        invariant inflight == inflight0 - (stale - todo)
        invariant ready == Scored(ready0, stale - todo, now)
        decreases |todo|
      {
        var id :| id in todo;
        MoveBackOneMore(inflight0, ready0, stale, todo, id, now);
        inflight := inflight - {id};
        ready := ready[id := now];
        todo := todo - {id};
      }
      assert stale - todo == stale;
    }

    method AppendAttempt(id: Id, a: Attempt)
      modifies this
      ensures State() == Do(old(State()), AppendOnly(id, a), historyLimit)
    {
      log := Logged(log, id, a, historyLimit);
    }

    method MarkSent(id: Id, a: Attempt)
      modifies this
      ensures State() == Do(old(State()), SetSent(id, a), historyLimit)
    {
      AppendAttempt(id, a);
      inflight := inflight - {id};
      ready := ready - {id};
      hashes := hashes[id := HashOr(hashes, id).(status := Sent, attempts := a.number)];
    }

    method ScheduleRetry(id: Id, fireAt: Time, a: Attempt)
      modifies this
      ensures State() == Do(old(State()), SetRetry(id, fireAt, a), historyLimit)
    {
      AppendAttempt(id, a);
      inflight := inflight - {id};
      ready := ready[id := fireAt];
      hashes := hashes[id := HashOr(hashes, id).(status := FailedRetry, attempts := a.number, fireAt := fireAt)];
    }

    method MarkDead(id: Id, a: Attempt)
      modifies this
      ensures State() == Do(old(State()), SetDead(id, a), historyLimit)
    {
      AppendAttempt(id, a);
      inflight := inflight - {id};
      ready := ready - {id};
      hashes := hashes[id := HashOr(hashes, id).(status := DeadLettered, attempts := a.number)];
    }
  }
}
