// A single ingestor that does not crash, over any number of ticks: subscriptions change
// between them, producers append, and the engine works on the queue all the while.
module IngestRuns {
  import opened Delivery
  import opened EventStore
  import opened Ingest
  import Memory = MemoryStore

  // `found` remembers, for every event acknowledged, the allowed targets its lookup found.
  datatype World = World(
    events: EventState,
    queue: Memory.MemState,
    minted: nat,
    found: map<Id, set<Id>>)

  const START := World(EventState([], map[]), Memory.MemState([], map[], map[], map[]), 0, map[])

  // Work is one operation of the engine on the delivery store.
  datatype Step =
    | Produce(event: Event)
    | Tick(env: Env, now: Time, ttl: nat, n: nat, batch: seq<Event>, made: seq<Record>)
    | Work(op: Memory.Op)

  ghost function Noted(found: map<Id, set<Id>>, env: Env, acked: seq<Event>): map<Id, set<Id>> {
    if acked == [] then found
    else
      var last := acked[|acked| - 1];
      Noted(found, env, acked[..|acked| - 1])[last.eventId := Targets(env, last)]
  }

  ghost predicate Takes(uuid: nat -> Id, w: World, step: Step, w': World) {
    match step
    case Produce(e) => w' == w.(events := Appended(w.events, e))
    case Tick(env, now, ttl, n, batch, made) =>
      && IsTick(env, w.events, now, ttl, n, batch, made, w.queue, w'.events, w'.queue)
      && Minted(uuid, made, w.minted) && w'.minted == w.minted + |made|
      && w'.found == Noted(w.found, env, Passing(env, batch))
    case Work(op) => Memory.Valid(w.queue) && !op.DoEnqueue? && w' == w.(queue := Memory.Do(w.queue, op))
  }

  ghost predicate Run(uuid: nat -> Id, ws: seq<World>, steps: seq<Step>) {
    && |ws| == |steps| + 1 && ws[0] == START
    && (forall i, j :: uuid(i) == uuid(j) ==> i == j)
    && forall k :: 0 <= k < |steps| ==> Takes(uuid, ws[k], steps[k], ws[k + 1])
  }

  // ---- The invariant ----------------------------------------------------------------------

  ghost function RowsOf(rows: map<Id, Record>, sub: Id, event: Id): set<Id> {
    set id | id in rows && rows[id].subscriptionId == sub && rows[id].eventId == event
  }

  function Expected(found: map<Id, set<Id>>, sub: Id, event: Id): nat {
    if event in found && sub in found[event] then 1 else 0
  }

  ghost predicate OneEach(rows: map<Id, Record>, found: map<Id, set<Id>>) {
    forall sub, event :: |RowsOf(rows, sub, event)| == Expected(found, sub, event)
  }

  // Nothing is claimed between ticks, and an event is DONE exactly when it was acknowledged.
  ghost predicate Settled(s: EventState, found: map<Id, set<Id>>) {
    && EventStore.Valid(s) && found.Keys <= s.rows.Keys
    && forall id :: id in s.rows ==> !s.rows[id].status.Claimed? && (s.rows[id].status.Done? <==> id in found)
  }

  ghost predicate Inv(uuid: nat -> Id, w: World) {
    && Settled(w.events, w.found) && OneEach(w.queue.records, w.found)
    && Memory.Valid(w.queue) && FreshIds(uuid, w.minted, w.queue)
  }

  // ---- Steps of producers and of the engine -------------------------------------------------

  lemma WorkKeepsRows(s: Memory.MemState, op: Memory.Op, id: Id)
    requires Memory.Valid(s) && !op.DoEnqueue?
    ensures id in Memory.Do(s, op).records <==> id in s.records
    ensures id in s.records ==>
      var r, r' := s.records[id], Memory.Do(s, op).records[id];
      r' == r.(status := r'.status, fireAt := r'.fireAt, attempts := r'.attempts)
  {
    if id in s.records {
      Memory.RowsKeepTheirPayload(s, op, id);
    } else {
      Memory.NewRowsWereEnqueued(s, op, id);
    }
  }

  lemma WorkKeepsInv(uuid: nat -> Id, w: World, op: Memory.Op)
    requires Inv(uuid, w) && !op.DoEnqueue?
    ensures Inv(uuid, w.(queue := Memory.Do(w.queue, op)))
  {
    var rows, rows' := w.queue.records, Memory.Do(w.queue, op).records;
    Memory.KeepsValid(w.queue, op);
    forall id ensures id in rows' <==> id in rows {
      WorkKeepsRows(w.queue, op, id);
    }
    forall sub, event ensures RowsOf(rows', sub, event) == RowsOf(rows, sub, event) {
      forall id ensures id in RowsOf(rows', sub, event) <==> id in RowsOf(rows, sub, event) {
        WorkKeepsRows(w.queue, op, id);
      }
    }
  }

  lemma ProduceKeepsSettled(s: EventState, found: map<Id, set<Id>>, e: Event)
    requires Settled(s, found)
    ensures Settled(Appended(s, e), found)
  {
  }

  // ---- Ticks ----------------------------------------------------------------------------------

  lemma NothingToReclaim(s: EventState, now: Time)
    requires forall id :: id in s.rows ==> !s.rows[id].status.Claimed?
    ensures EventStore.Reclaimed(s, now) == s
  {
    assert StaleIds(s, now) == {};
  }

  lemma {:induction false} NotedKeys(found: map<Id, set<Id>>, env: Env, acked: seq<Event>)
    ensures Noted(found, env, acked).Keys == found.Keys + EventIds(acked)
    ensures forall id :: id in found && id !in EventIds(acked) ==> Noted(found, env, acked)[id] == found[id]
  {
    if acked != [] {
      NotedKeys(found, env, acked[..|acked| - 1]);
      assert acked == acked[..|acked| - 1] + [acked[|acked| - 1]];
    }
  }

  lemma {:induction false} NotedTargets(found: map<Id, set<Id>>, env: Env, acked: seq<Event>, k: nat)
    requires DistinctEvents(acked) && k < |acked|
    ensures acked[k].eventId in Noted(found, env, acked)
    ensures Noted(found, env, acked)[acked[k].eventId] == Targets(env, acked[k])
  {
    if k < |acked| - 1 {
      NotedTargets(found, env, acked[..|acked| - 1], k);
    }
  }

  lemma {:induction false} PassingAreDistinct(env: Env, batch: seq<Event>)
    requires DistinctEvents(batch)
    ensures DistinctEvents(Passing(env, batch))
  {
    if batch != [] {
      var front := batch[..|batch| - 1];
      PassingAreDistinct(env, front);
      PassingAreListed(env, front);
      forall k | 0 <= k < |Passing(env, front)|
        ensures Passing(env, front)[k].eventId != batch[|batch| - 1].eventId
      {
        assert Passing(env, front)[k] in Passing(env, front);
        assert Passing(env, front)[k] in front;
      }
    }
  }

  // Claiming leaves the batch claimed; failing and acknowledging it leave nothing so.
  lemma TickSettles(s: EventState, found: map<Id, set<Id>>, env: Env, now: Time, ttl: nat, n: nat,
      batch: seq<Event>, s': EventState)
    requires Settled(s, found) && Hands(s.rows, ClaimIds(s, n), batch)
    requires s' == WithStatus(WithStatus(ClaimedState(s, now, ttl, n), EventIds(Failing(env, batch)), Failed, None),
                              EventIds(Passing(env, batch)), Done, None)
    ensures Settled(s', Noted(found, env, Passing(env, batch)))
  {
    ClaimedAreDistinct(s, n, batch);
    ClaimsArePending(s, now, ttl, n);
    PassingAreListed(env, batch);
    NotedKeys(found, env, Passing(env, batch));
    BatchSplits(env, batch);
    var passing, failing := EventIds(Passing(env, batch)), EventIds(Failing(env, batch));
    StatusAfterTick(s, now, ttl, n, failing, passing);
  }

  lemma BatchSplits(env: Env, batch: seq<Event>)
    ensures EventIds(batch) == EventIds(Passing(env, batch)) + EventIds(Failing(env, batch))
  {
    PassingAreListed(env, batch);
  }

  lemma StatusAfterTick(s: EventState, now: Time, ttl: nat, n: nat, failing: set<Id>, passing: set<Id>)
    requires EventStore.Valid(s) && passing + failing == Elements(ClaimIds(s, n))
    requires forall id :: id in ClaimIds(s, n) ==> id in s.rows
    ensures
      var s' := WithStatus(WithStatus(ClaimedState(s, now, ttl, n), failing, Failed, None), passing, Done, None);
      && EventStore.Valid(s') && s'.rows.Keys == s.rows.Keys
      && forall id :: id in s.rows ==>
           s'.rows[id].status == if id in passing then Done else if id in failing then Failed else s.rows[id].status
  {
  }

  lemma RowsGrow(q: Memory.MemState, q': Memory.MemState, made: seq<Record>, sub: Id, event: Id)
    requires AddsRows(q.records, made, q'.records)
    ensures |RowsOf(q'.records, sub, event)| == |RowsOf(q.records, sub, event)| + |RowsFor(q, q', sub, event)|
  {
    assert RowsOf(q'.records, sub, event) == RowsOf(q.records, sub, event) + RowsFor(q, q', sub, event);
  }

  // Which of the acknowledged events wants a pair is what the lookup is noted to have found.
  lemma WantedIsNoted(found: map<Id, set<Id>>, env: Env, acked: seq<Event>, sub: Id, event: Id)
    requires DistinctEvents(acked) && EventIds(acked) !! found.Keys
    ensures Expected(Noted(found, env, acked), sub, event)
         == Expected(found, sub, event) + if Wanted(env, acked, (sub, event)) then 1 else 0
  {
    NotedKeys(found, env, acked);
    if event in EventIds(acked) {
      var e :| e in acked && e.eventId == event;
      var k :| 0 <= k < |acked| && acked[k] == e;
      NotedTargets(found, env, acked, k);
      assert Wanted(env, acked, (sub, event)) <==> sub in Targets(env, acked[k]);
    } else {
      assert forall k :: 0 <= k < |acked| ==> acked[k] in acked;
    }
  }

  lemma TickKeepsOneEach(found: map<Id, set<Id>>, env: Env, acked: seq<Event>, now: Time, made: seq<Record>,
      q: Memory.MemState, q': Memory.MemState)
    requires OneEach(q.records, found) && DistinctEvents(acked) && EventIds(acked) !! found.Keys
    requires IsIngest(env, acked, now, made) && AddsRows(q.records, made, q'.records)
    ensures OneEach(q'.records, Noted(found, env, acked))
  {
    forall sub, event ensures |RowsOf(q'.records, sub, event)| == Expected(Noted(found, env, acked), sub, event) {
      OneRowPerPair(env, acked, now, made, q, q', (sub, event));
      RowsGrow(q, q', made, sub, event);
      WantedIsNoted(found, env, acked, sub, event);
    }
  }

  lemma {:induction false} EnqueuedStaysValid(q: Memory.MemState, rs: seq<Record>)
    requires Memory.Valid(q)
    ensures Memory.Valid(Memory.Enqueued(q, rs))
  {
    if rs != [] {
      EnqueuedStaysValid(q, rs[..|rs| - 1]);
      Memory.KeepsValid(Memory.Enqueued(q, rs[..|rs| - 1]), Memory.DoEnqueue(rs[|rs| - 1]));
    }
  }

  lemma MintingGoesOn(uuid: nat -> Id, start: nat, made: seq<Record>, q: Memory.MemState, q': Memory.MemState)
    requires FreshIds(uuid, start, q) && Minted(uuid, made, start) && AddsRows(q.records, made, q'.records)
    ensures FreshIds(uuid, start + |made|, q')
  {
    forall k: nat | k >= start + |made| ensures uuid(k) !in q'.records {
      assert uuid(k) !in q.records;
      assert forall m :: 0 <= m < |made| ==> made[m].deliveryId == uuid(start + m);
    }
  }

  lemma TickKeepsInv(uuid: nat -> Id, w: World, step: Step, w': World)
    requires Inv(uuid, w) && step.Tick? && Takes(uuid, w, step, w')
    ensures Inv(uuid, w')
  {
    var acked := Passing(step.env, step.batch);
    NothingToReclaim(w.events, step.now);
    ClaimedAreDistinct(w.events, step.n, step.batch);
    PassingAreDistinct(step.env, step.batch);
    TickSettles(w.events, w.found, step.env, step.now, step.ttl, step.n, step.batch, w'.events);
    MintedAreFresh(uuid, w.minted, w.queue, step.made);
    FreshRowsAreAdded(w.queue, step.made);
    EnqueuedStaysValid(w.queue, step.made);
    MintingGoesOn(uuid, w.minted, step.made, w.queue, w'.queue);
    AckedWerePending(w.events, w.found, step.env, step.now, step.ttl, step.n, step.batch);
    TickKeepsOneEach(w.found, step.env, acked, step.now, step.made, w.queue, w'.queue);
  }

  lemma AckedWerePending(s: EventState, found: map<Id, set<Id>>, env: Env, now: Time, ttl: nat, n: nat,
      batch: seq<Event>)
    requires Settled(s, found) && Hands(s.rows, ClaimIds(s, n), batch)
    ensures EventIds(Passing(env, batch)) !! found.Keys
  {
    ClaimedAreDistinct(s, n, batch);
    ClaimsArePending(s, now, ttl, n);
    BatchSplits(env, batch);
  }

  // ---- Runs -------------------------------------------------------------------------------------

  lemma StepKeepsInv(uuid: nat -> Id, w: World, step: Step, w': World)
    requires Inv(uuid, w) && Takes(uuid, w, step, w')
    ensures Inv(uuid, w')
  {
    match step
    case Produce(e) => ProduceKeepsSettled(w.events, w.found, e);
    case Tick(_, _, _, _, _, _) => TickKeepsInv(uuid, w, step, w');
    case Work(op) => WorkKeepsInv(uuid, w, op);
  }

  lemma {:induction false} RunKeepsInv(uuid: nat -> Id, ws: seq<World>, steps: seq<Step>, k: nat)
    requires Run(uuid, ws, steps) && k < |ws|
    ensures Inv(uuid, ws[k])
  {
    if k > 0 {
      RunKeepsInv(uuid, ws, steps, k - 1);
      StepKeepsInv(uuid, ws[k - 1], steps[k - 1], ws[k]);
    }
  }

  // The tick whose lookup an acknowledged event's targets come from.
  ghost predicate LookedUp(step: Step, event: Id, targets: set<Id>) {
    step.Tick? && exists k :: 0 <= k < |step.batch| && IsLookup(step, k, event, targets)
  }

  ghost predicate IsLookup(step: Step, k: nat, event: Id, targets: set<Id>)
    requires step.Tick? && k < |step.batch|
  {
    var e := step.batch[k];
    && e.eventId == event && !MustFail(step.env, e)
    && forall sub :: sub in targets <==> IsOwed(step.env, e, sub)
  }

  // An acknowledged event was looked up in its tick, and what was noted of it is whom it
  // was owed to.
  lemma AckedWasLookedUp(found: map<Id, set<Id>>, step: Step, e: Event)
    requires step.Tick? && DistinctEvents(step.batch) && e in Passing(step.env, step.batch)
    ensures e.eventId in Noted(found, step.env, Passing(step.env, step.batch))
    ensures LookedUp(step, e.eventId, Noted(found, step.env, Passing(step.env, step.batch))[e.eventId])
  {
    var acked := Passing(step.env, step.batch);
    PassingAreDistinct(step.env, step.batch);
    PassingAreListed(step.env, step.batch);
    var m :| 0 <= m < |acked| && acked[m] == e;
    NotedTargets(found, step.env, acked, m);
    var k :| 0 <= k < |step.batch| && step.batch[k] == e;
    OwedAreLookedUp(step, k);
  }

  lemma OwedAreLookedUp(step: Step, k: nat)
    requires step.Tick? && k < |step.batch| && !Fails(step.env, step.batch[k])
    ensures IsLookup(step, k, step.batch[k].eventId, Targets(step.env, step.batch[k]))
  {
    FailsExactlyThen(step.env, step.batch[k]);
    forall sub ensures sub in Targets(step.env, step.batch[k]) <==> IsOwed(step.env, step.batch[k], sub) {
      TargetsAreOwed(step.env, step.batch[k], sub);
    }
  }

  lemma NotedWasLookedUp(uuid: nat -> Id, w: World, step: Step, w': World, event: Id)
    requires Inv(uuid, w) && Takes(uuid, w, step, w') && event in w'.found
    ensures (event in w.found && w'.found[event] == w.found[event]) || LookedUp(step, event, w'.found[event])
  {
    if step.Tick? {
      var acked := Passing(step.env, step.batch);
      NotedKeys(w.found, step.env, acked);
      if event in EventIds(acked) {
        NothingToReclaim(w.events, step.now);
        ClaimedAreDistinct(w.events, step.n, step.batch);
        var e :| e in acked && e.eventId == event;
        AckedWasLookedUp(w.found, step, e);
      }
    }
  }

  lemma {:induction false} FoundWasLookedUp(uuid: nat -> Id, ws: seq<World>, steps: seq<Step>, k: nat, event: Id)
    requires Run(uuid, ws, steps) && k < |ws| && event in ws[k].found
    ensures exists j :: 0 <= j < k && LookedUp(steps[j], event, ws[k].found[event])
  {
    assert k > 0;
    RunKeepsInv(uuid, ws, steps, k - 1);
    NotedWasLookedUp(uuid, ws[k - 1], steps[k - 1], ws[k], event);
    if !LookedUp(steps[k - 1], event, ws[k].found[event]) {
      FoundWasLookedUp(uuid, ws, steps, k - 1, event);
    }
  }

  ghost predicate OneRowFor(rows: map<Id, Record>, event: Id, targets: set<Id>) {
    forall sub :: |RowsOf(rows, sub, event)| == if sub in targets then 1 else 0
  }

  // In every run of one ingestor that does not crash: between ticks no event is claimed;
  // a DONE event has exactly one row for each allowed target that some lookup of it found
  // and none for anyone else; any other event, FAILED ones included, has no row at all.
  lemma ExactlyOncePerPair(uuid: nat -> Id, ws: seq<World>, steps: seq<Step>, k: nat, event: Id)
    requires Run(uuid, ws, steps) && k < |ws|
    ensures event in ws[k].events.rows ==> !ws[k].events.rows[event].status.Claimed?
    ensures
      if event in ws[k].events.rows && ws[k].events.rows[event].status.Done? then
        exists targets, j ::
          0 <= j < k && LookedUp(steps[j], event, targets) && OneRowFor(ws[k].queue.records, event, targets)
      else OneRowFor(ws[k].queue.records, event, {})
  {
    RunKeepsInv(uuid, ws, steps, k);
    var rows, found := ws[k].queue.records, ws[k].found;
    assert forall sub :: |RowsOf(rows, sub, event)| == Expected(found, sub, event);
    if event in found {
      FoundWasLookedUp(uuid, ws, steps, k, event);
      assert OneRowFor(rows, event, found[event]);
    } else {
      assert OneRowFor(rows, event, {});
    }
  }

  // ---- What the rows say ------------------------------------------------------------------------

  ghost predicate MadeBy(step: Step, r: Record) {
    step.Tick? && CameFrom(step.env, step.batch, step.now, r)
  }

  lemma WorkKeepsOrigin(step: Step, r: Record, r': Record)
    requires MadeBy(step, r) && r' == r.(status := r'.status, fireAt := r'.fireAt, attempts := r'.attempts)
    ensures MadeBy(step, r')
  {
    var k :| 0 <= k < |step.batch| && !MustFail(step.env, step.batch[k])
      && IsAddressed(step.env, step.batch[k], step.now, r);
    assert IsAddressed(step.env, step.batch[k], step.now, r');
  }

  lemma NewRowsAreMade(uuid: nat -> Id, w: World, step: Step, w': World, id: Id)
    requires Inv(uuid, w) && Takes(uuid, w, step, w') && id in w'.queue.records
    ensures id !in w.queue.records ==> MadeBy(step, w'.queue.records[id]) && IsNew(w'.queue.records[id])
    ensures id in w.queue.records ==>
      var r, r' := w.queue.records[id], w'.queue.records[id];
      r' == r.(status := r'.status, fireAt := r'.fireAt, attempts := r'.attempts)
  {
    match step
    case Produce(_) =>
    case Work(op) => WorkKeepsRows(w.queue, op, id);
    case Tick(env, now, _, _, batch, made) =>
      MintedAreFresh(uuid, w.minted, w.queue, made);
      FreshRowsAreAdded(w.queue, made);
      if id !in w.queue.records {
        var k := NewRowWasAdded(w.queue.records, made, w'.queue.records, id);
        assert made[k] in made;
        DraftedCameFrom(env, batch, now, made[k]);
      }
  }

  // In every such run each queued row was made by some tick for one of its events: it goes
  // to the address and owner the subscription had then, which the guard allowed, and says
  // what the event said, whatever the engine has made of it since; and it began pending,
  // with no attempts, due at once.
  lemma {:induction false} RowsAreAddressed(uuid: nat -> Id, ws: seq<World>, steps: seq<Step>, k: nat, id: Id)
    requires Run(uuid, ws, steps) && k < |ws| && id in ws[k].queue.records
    ensures exists j :: 0 <= j < k && MadeBy(steps[j], ws[k].queue.records[id])
    ensures k > 0 && (id in ws[k - 1].queue.records || IsNew(ws[k].queue.records[id]))
  {
    assert k > 0;
    RunKeepsInv(uuid, ws, steps, k - 1);
    NewRowsAreMade(uuid, ws[k - 1], steps[k - 1], ws[k], id);
    if id in ws[k - 1].queue.records {
      RowsAreAddressed(uuid, ws, steps, k - 1, id);
      var j :| 0 <= j < k - 1 && MadeBy(steps[j], ws[k - 1].queue.records[id]);
      WorkKeepsOrigin(steps[j], ws[k - 1].queue.records[id], ws[k].queue.records[id]);
    }
  }
}
