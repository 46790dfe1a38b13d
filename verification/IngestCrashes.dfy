// Any number of ingestors over one event store, each of which may stop between any two
// of its calls: what survives, and how often a delivery can be queued twice.
module IngestCrashes {
  import opened Delivery
  import opened EventStore

  // An ingestor at work: the events still to handle, the targets found for the first of
  // them once its lookup is done, and the events to acknowledge at the end.
  datatype Worker = Worker(batch: seq<Id>, found: Option<set<Id>>, acked: set<Id>)

  datatype Pair = Pair(sub: Id, event: Id)

  // `rows` are the queued deliveries as (subscription, event) pairs.  `seen` remembers
  // every lookup ever made and `reclaims` every event a reclaim put back.
  datatype World = World(
    events: EventState,
    rows: multiset<Pair>,
    workers: map<nat, Worker>,
    seen: set<(Id, set<Id>)>,
    reclaims: multiset<Id>)

  const START := World(EventState([], map[]), multiset{}, map[], {}, multiset{})

  datatype Step =
    | Produce(event: Event)
    | PutBack(now: Time)
    | Take(p: nat, now: Time, ttl: nat, n: nat)
    | LookUp(p: nat, targets: set<Id>)
    | Enqueue(p: nat)
    | Fail(p: nat)
    | Acknowledge(p: nat)
    | Crash(p: nat)

  predicate Busy(w: World, p: nat) {
    p in w.workers && w.workers[p].batch != []
  }

  predicate Possible(w: World, step: Step) {
    match step
    case Produce(_) => true
    case PutBack(_) => true
    case Take(p, _, _, _) => p !in w.workers
    case LookUp(p, _) => Busy(w, p) && w.workers[p].found.None?
    case Enqueue(p) => Busy(w, p) && w.workers[p].found.Some?
    case Fail(p) => Busy(w, p)
    case Acknowledge(p) => p in w.workers && w.workers[p].batch == []
    case Crash(p) => p in w.workers
  }

  function RowsOf(targets: set<Id>, event: Id): set<Pair> {
    set sub | sub in targets :: Pair(sub, event)
  }

  ghost function Next(w: World, step: Step): World
    requires Possible(w, step)
  {
    match step
    case Produce(e) => w.(events := Appended(w.events, e))
    case PutBack(now) =>
      w.(events := Reclaimed(w.events, now), reclaims := w.reclaims + multiset(StaleIds(w.events, now)))
    case Take(p, now, ttl, n) =>
      w.(events := ClaimedState(w.events, now, ttl, n),
        workers := w.workers[p := Worker(ClaimIds(w.events, n), None, {})])
    case LookUp(p, targets) =>
      var me := w.workers[p];
      w.(workers := w.workers[p := me.(found := Some(targets))], seen := w.seen + {(me.batch[0], targets)})
    case Enqueue(p) =>
      var me := w.workers[p];
      w.(rows := w.rows + multiset(RowsOf(me.found.value, me.batch[0])),
         workers := w.workers[p := Worker(me.batch[1..], None, me.acked + {me.batch[0]})])
    case Fail(p) =>
      var me := w.workers[p];
      w.(events := WithStatus(w.events, {me.batch[0]}, Failed, None),
        workers := w.workers[p := Worker(me.batch[1..], None, me.acked)])
    case Acknowledge(p) =>
      w.(events := WithStatus(w.events, w.workers[p].acked, Done, None), workers := w.workers - {p})
    case Crash(p) => w.(workers := w.workers - {p})
  }

  ghost predicate IsRun(steps: seq<Step>) {
    steps == [] || (IsRun(steps[..|steps| - 1]) && Possible(After(steps[..|steps| - 1]), steps[|steps| - 1]))
  }

  ghost function After(steps: seq<Step>): World {
    if steps == [] then START
    else
      var w := After(steps[..|steps| - 1]);
      if Possible(w, steps[|steps| - 1]) then Next(w, steps[|steps| - 1]) else w
  }

  // ---- Done means delivered -------------------------------------------------------------

  ghost predicate AllQueued(rows: multiset<Pair>, event: Id, targets: set<Id>) {
    forall sub :: sub in targets ==> rows[Pair(sub, event)] > 0
  }

  // Some lookup of the event had all of its targets queued.
  ghost predicate Covered(w: World, event: Id) {
    exists targets: set<Id> :: (event, targets) in w.seen && AllQueued(w.rows, event, targets)
  }

  ghost predicate WorkerSound(w: World, me: Worker) {
    && Distinct(me.batch)
    && (me.found.Some? ==> me.batch != [] && (me.batch[0], me.found.value) in w.seen)
    && (forall event :: event in me.acked ==> Covered(w, event))
  }

  ghost predicate Sound(w: World) {
    && Valid(w.events)
    && (forall p :: p in w.workers ==> WorkerSound(w, w.workers[p]))
    && (forall event :: event in w.events.rows && w.events.rows[event].status.Done? ==> Covered(w, event))
  }

  lemma CoverIsKept(w: World, w': World, event: Id)
    requires Covered(w, event) && w.seen <= w'.seen && w.rows <= w'.rows
    ensures Covered(w', event)
  {
    var targets: set<Id> :| (event, targets) in w.seen && AllQueued(w.rows, event, targets);
    assert AllQueued(w'.rows, event, targets);
  }

  lemma WorkerIsKept(w: World, w': World, me: Worker)
    requires WorkerSound(w, me) && w.seen <= w'.seen && w.rows <= w'.rows
    ensures WorkerSound(w', me)
  {
    forall event | event in me.acked ensures Covered(w', event) {
      CoverIsKept(w, w', event);
    }
  }

  lemma EnqueueCovers(w: World, p: nat)
    requires Sound(w) && Possible(w, Enqueue(p))
    ensures Covered(Next(w, Enqueue(p)), w.workers[p].batch[0])
  {
    var me, w' := w.workers[p], Next(w, Enqueue(p));
    assert forall sub :: sub in me.found.value ==> Pair(sub, me.batch[0]) in RowsOf(me.found.value, me.batch[0]);
    assert AllQueued(w'.rows, me.batch[0], me.found.value);
  }

  lemma TailIsDistinct(batch: seq<Id>)
    requires Distinct(batch) && batch != []
    ensures Distinct(batch[1..]) && batch[0] !in batch[1..]
  {
  }

  lemma StepsKeepWorkersSound(w: World, step: Step, p: nat)
    requires Sound(w) && Possible(w, step) && p in Next(w, step).workers
    ensures WorkerSound(Next(w, step), Next(w, step).workers[p])
  {
    var w' := Next(w, step);
    if p in w.workers {
      WorkerIsKept(w, w', w.workers[p]);
      if w.workers[p].batch != [] {
        TailIsDistinct(w.workers[p].batch);
      }
    }
    match step
    case Take(_, now, ttl, n) => ClaimsArePending(w.events, now, ttl, n);
    case Enqueue(q) => EnqueueCovers(w, q);
    case _ =>
  }

  lemma StepsKeepDoneCovered(w: World, step: Step, event: Id)
    requires Sound(w) && Possible(w, step)
    requires event in Next(w, step).events.rows && Next(w, step).events.rows[event].status.Done?
    ensures Covered(Next(w, step), event)
  {
    if event in w.events.rows && w.events.rows[event].status.Done? {
      CoverIsKept(w, Next(w, step), event);
    } else {
      assert step.Acknowledge? && event in w.workers[step.p].acked;
      CoverIsKept(w, Next(w, step), event);
    }
  }

  lemma StepsKeepSound(w: World, step: Step)
    requires Sound(w) && Possible(w, step)
    ensures Sound(Next(w, step))
  {
    forall p | p in Next(w, step).workers ensures WorkerSound(Next(w, step), Next(w, step).workers[p]) {
      StepsKeepWorkersSound(w, step, p);
    }
    forall event | event in Next(w, step).events.rows && Next(w, step).events.rows[event].status.Done?
      ensures Covered(Next(w, step), event) {
      StepsKeepDoneCovered(w, step, event);
    }
  }

  // In every run, with crashes and lease reclaims anywhere, an event is DONE only if
  // every target found by some lookup of it has its row.
  lemma {:induction false} DoneMeansDelivered(steps: seq<Step>)
    requires IsRun(steps)
    ensures Sound(After(steps))
  {
    if steps != [] {
      DoneMeansDelivered(steps[..|steps| - 1]);
      StepsKeepSound(After(steps[..|steps| - 1]), steps[|steps| - 1]);
    }
  }

  // ---- How often a pair can be queued -------------------------------------------------------

  ghost function HoldersAmong(workers: map<nat, Worker>, event: Id): set<nat> {
    set p | p in workers && event in workers[p].batch
  }

  ghost function Holders(w: World, event: Id): set<nat> {
    HoldersAmong(w.workers, event)
  }

  function PendingCount(s: EventState, event: Id): nat {
    if event in s.rows && s.rows[event].status.Pending? then 1 else 0
  }

  function Waiting(w: World, event: Id): nat {
    PendingCount(w.events, event)
  }

  // Rows already queued, plus all that may still be queued without another reclaim.
  ghost predicate Bounded(w: World, event: Id, sub: Id) {
    w.rows[Pair(sub, event)] + |Holders(w, event)| + Waiting(w, event) <= 1 + w.reclaims[event]
  }

  lemma HoldersShrink(a: set<nat>, b: set<nat>, p: nat)
    requires b <= a
    ensures |b| <= |a| && (p in a && p !in b ==> |b| < |a|)
  {
    SubsetCount(b, a);
  }

  lemma ClaimKeepsBound(w: World, p: nat, now: Time, ttl: nat, n: nat, event: Id, sub: Id)
    requires Sound(w) && Possible(w, Take(p, now, ttl, n)) && Bounded(w, event, sub)
    ensures Bounded(Next(w, Take(p, now, ttl, n)), event, sub)
  {
    var w' := Next(w, Take(p, now, ttl, n));
    ClaimsArePending(w.events, now, ttl, n);
    ClaimMovesWaiting(w.events, ClaimIds(w.events, n), Some(now + Span(ttl)), event);
    OneHolderMore(w.workers, p, Worker(ClaimIds(w.events, n), None, {}), event);
  }

  lemma OneHolderMore(workers: map<nat, Worker>, p: nat, me: Worker, event: Id)
    requires p !in workers
    ensures |HoldersAmong(workers[p := me], event)| == |HoldersAmong(workers, event)| +
      if event in me.batch then 1 else 0
  {
    assert HoldersAmong(workers[p := me], event) == HoldersAmong(workers, event) +
      if event in me.batch then {p} else {};
  }

  // A claim takes pending events and leaves all others as they were.
  lemma ClaimMovesWaiting(s: EventState, ids: seq<Id>, until: Option<Time>, event: Id)
    requires forall id :: id in ids ==> id in s.rows && s.rows[id].status.Pending?
    ensures PendingCount(WithStatus(s, Elements(ids), Claimed, until), event) ==
      if event in ids then 0 else PendingCount(s, event)
    ensures event in ids ==> PendingCount(s, event) == 1
  {
  }

  lemma RetireKeepsBound(w: World, step: Step, event: Id, sub: Id)
    requires Sound(w) && Possible(w, step) && (step.Enqueue? || step.Fail?) && Bounded(w, event, sub)
    ensures Bounded(Next(w, step), event, sub)
  {
    var w', p := Next(w, step), step.p;
    TailIsDistinct(w.workers[p].batch);
    assert w.workers[p].batch == [w.workers[p].batch[0]] + w.workers[p].batch[1..];
    HoldersShrink(Holders(w, event), Holders(w', event), p);
  }

  lemma StepsKeepBound(w: World, step: Step, event: Id, sub: Id)
    requires Sound(w) && Possible(w, step) && Bounded(w, event, sub)
    requires event !in w.events.rows ==> w.rows[Pair(sub, event)] == 0 && Holders(w, event) == {}
    ensures Bounded(Next(w, step), event, sub)
  {
    var w' := Next(w, step);
    match step
    case Take(p, now, ttl, n) => ClaimKeepsBound(w, p, now, ttl, n, event, sub);
    case Enqueue(_) => RetireKeepsBound(w, step, event, sub);
    case Fail(_) => RetireKeepsBound(w, step, event, sub);
    case _ =>
      assert Holders(w', event) <= Holders(w, event);
      SubsetCount(Holders(w', event), Holders(w, event));
  }

  ghost predicate Known(w: World, event: Id, sub: Id) {
    event !in w.events.rows ==> w.rows[Pair(sub, event)] == 0 && Holders(w, event) == {}
  }

  lemma StepsKeepKnown(w: World, step: Step, event: Id, sub: Id)
    requires Sound(w) && Possible(w, step) && Known(w, event, sub)
    ensures Known(Next(w, step), event, sub)
  {
    var w' := Next(w, step);
    match step
    case Take(p, now, ttl, n) => ClaimsArePending(w.events, now, ttl, n);
    case Enqueue(p) => assert p in Holders(w, w.workers[p].batch[0]);
    case _ =>
  }

  // A pair is queued at most once, plus once for each time a reclaim put its event back:
  // nothing else, crashes included, can queue a delivery twice.
  lemma {:induction false} DuplicatesNeedReclaims(steps: seq<Step>, event: Id, sub: Id)
    requires IsRun(steps)
    ensures Bounded(After(steps), event, sub) && Known(After(steps), event, sub)
    ensures After(steps).rows[Pair(sub, event)] <= 1 + After(steps).reclaims[event]
  {
    if steps != [] {
      var front := steps[..|steps| - 1];
      DuplicatesNeedReclaims(front, event, sub);
      DoneMeansDelivered(front);
      StepsKeepBound(After(front), steps[|steps| - 1], event, sub);
      StepsKeepKnown(After(front), steps[|steps| - 1], event, sub);
    } else {
      assert Holders(START, event) == {};
    }
  }

  lemma OneMore(steps: seq<Step>, step: Step)
    requires IsRun(steps) && Possible(After(steps), step)
    ensures IsRun(steps + [step]) && After(steps + [step]) == Next(After(steps), step)
  {
    assert (steps + [step])[..|steps|] == steps;
  }

  // A store with one event, waiting or handed out under a lease until `now`.
  function OnlyPending(event: Event): EventState {
    EventState([event.eventId], map[event.eventId := EventRow(event, EventStatus.Pending, None)])
  }

  function OnlyClaimed(event: Event, now: Time): EventState {
    EventState([event.eventId], map[event.eventId := EventRow(event, Claimed, Some(now))])
  }

  function Served(steps: seq<Step>, now: Time, sub: Id): seq<Step> {
    steps + [Take(0, now, 0, 1)] + [LookUp(0, {sub})] + [Enqueue(0)]
  }

  // Queueing one claimed event: claim, look up, enqueue.
  lemma Serving(steps: seq<Step>, event: Event, now: Time, sub: Id)
    requires IsRun(steps) && After(steps).workers == map[] && After(steps).events == OnlyPending(event)
    ensures
      var w, w' := After(steps), After(Served(steps, now, sub));
      && IsRun(Served(steps, now, sub)) && w'.workers.Keys == {0} && w'.events == OnlyClaimed(event, now)
      && w'.rows == w.rows + multiset{Pair(sub, event.eventId)} && w'.reclaims == w.reclaims
  {
    OnlyOneToClaim(event, now);
    var taken := steps + [Take(0, now, 0, 1)];
    OneMore(steps, Take(0, now, 0, 1));
    OneMore(taken, LookUp(0, {sub}));
    OneMore(taken + [LookUp(0, {sub})], Enqueue(0));
    assert RowsOf({sub}, event.eventId) == {Pair(sub, event.eventId)};
  }

  lemma OnlyOneToClaim(event: Event, now: Time)
    ensures ClaimIds(OnlyPending(event), 1) == [event.eventId]
    ensures ClaimedState(OnlyPending(event), now, 0, 1) == OnlyClaimed(event, now)
  {
    var s := OnlyPending(event);
    assert s.order[..0] == [] && PendingIds([], s.rows) == [];
    assert PendingIds(s.order, s.rows) == [event.eventId];
    assert Elements([event.eventId]) == {event.eventId};
  }

  lemma ReclaimOffersAgain(event: Event, now: Time)
    ensures StaleIds(OnlyClaimed(event, now), now + 1) == {event.eventId}
    ensures Reclaimed(OnlyClaimed(event, now), now + 1) == OnlyPending(event)
  {
    assert StaleIds(OnlyClaimed(event, now), now + 1) == {event.eventId};
  }

  // ... and a crash right after: a reclaim offers the event again.
  lemma Abandoned(steps: seq<Step>, event: Event, now: Time, sub: Id) returns (steps': seq<Step>)
    requires IsRun(steps) && After(steps).workers == map[] && After(steps).events == OnlyPending(event)
    ensures
      var w, w' := After(steps), After(steps');
      && IsRun(steps') && w'.workers == map[] && w'.events == OnlyPending(event)
      && w'.rows == w.rows + multiset{Pair(sub, event.eventId)}
      && w'.reclaims == w.reclaims + multiset{event.eventId}
  {
    Serving(steps, event, now, sub);
    var served := Served(steps, now, sub);
    OneMore(served, Crash(0));
    OneMore(served + [Crash(0)], PutBack(now + 1));
    ReclaimOffersAgain(event, now);
    steps' := served + [Crash(0)] + [PutBack(now + 1)];
  }

  // n ingestors in a row that queue the event and crash before acknowledging it.
  lemma {:induction false} AbandonedTimes(event: Event, sub: Id, n: nat) returns (steps: seq<Step>)
    ensures IsRun(steps) && After(steps).workers == map[] && After(steps).events == OnlyPending(event)
    ensures After(steps).rows[Pair(sub, event.eventId)] == n && After(steps).reclaims[event.eventId] == n
  {
    if n == 0 {
      OneMore([], Produce(event));
      steps := [] + [Produce(event)];
    } else {
      steps := AbandonedTimes(event, sub, n - 1);
      steps := Abandoned(steps, event, 0, sub);
    }
  }

  // The bound is met, for every number of reclaims.
  lemma BoundIsReached(event: Event, sub: Id, n: nat) returns (steps: seq<Step>)
    ensures IsRun(steps)
    ensures After(steps).reclaims[event.eventId] == n && After(steps).rows[Pair(sub, event.eventId)] == n + 1
  {
    var before := AbandonedTimes(event, sub, n);
    Serving(before, event, 0, sub);
    steps := Served(before, 0, sub);
  }

  // One crash between the enqueue and the acknowledgement is enough: the same event is
  // queued twice for the same subscription, and no step removes the second row.
  lemma CrashBeforeAckQueuesTwice(event: Event, sub: Id)
    ensures exists steps :: IsRun(steps) && After(steps).rows[Pair(sub, event.eventId)] == 2
  {
    var steps := BoundIsReached(event, sub, 1);
    assert IsRun(steps) && After(steps).rows[Pair(sub, event.eventId)] == 2;
  }

  ghost predicate QueuesWithin(steps: seq<Step>, reclaims: nat, most: nat, event: Id, sub: Id) {
    IsRun(steps) && After(steps).reclaims[event] <= reclaims ==> After(steps).rows[Pair(sub, event)] <= most
  }

  ghost predicate AlwaysWithin(reclaims: nat, most: nat, event: Id, sub: Id) {
    forall steps :: QueuesWithin(steps, reclaims, most, event, sub)
  }

  // How often a pair can be queued is decided by the reclaims of its event alone: at most
  // `most` times in all runs with that many reclaims exactly when `most` exceeds them.
  lemma QueuedExactlyPerReclaim(reclaims: nat, most: nat, event: Id, sub: Id)
    ensures AlwaysWithin(reclaims, most, event, sub) <==> most >= reclaims + 1
  {
    if most >= reclaims + 1 {
      forall steps ensures QueuesWithin(steps, reclaims, most, event, sub) {
        if IsRun(steps) {
          DuplicatesNeedReclaims(steps, event, sub);
        }
      }
    } else {
      var steps := BoundIsReached(Event(event, "", None, Some(0)), sub, reclaims);
      assert !QueuesWithin(steps, reclaims, most, event, sub);
    }
  }

  // So the promised deduplication holds exactly in runs without a reclaim of the event.
  lemma DeduplicatedExactlyWithoutReclaims(reclaims: nat, event: Id, sub: Id)
    ensures AlwaysWithin(reclaims, 1, event, sub) <==> reclaims == 0
  {
    QueuedExactlyPerReclaim(reclaims, 1, event, sub);
  }
}
