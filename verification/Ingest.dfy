// From a claimed event to queued deliveries: look up the subscriptions, build a row for
// each allowed target, enqueue them, acknowledge.
module Ingest {
  import opened Delivery
  import opened EventStore
  import opened MemoryStore
  import opened Subscriptions

  datatype Check = Allowed | Blocked | Malformed

  // What one tick meets: the subscriptions each event's lookup finds, the verdict of the
  // target guard on an address and URL, and which calls raise.
  datatype Env = Env(
    rows: Id -> Rows,
    check: (string, string) -> Check,
    lookupFails: Id -> bool,
    enqueueFails: Id -> bool,
    reclaimFails: bool)

  ghost predicate Keyed(env: Env) {
    forall event, id :: id in env.rows(event) ==> env.rows(event)[id].id == id
  }

  function Found(env: Env, e: Event): set<Id> {
    Matching(env.rows(e.eventId), e.name, e.tenant)
  }

  function CheckOf(env: Env, e: Event, id: Id): Check
    requires id in env.rows(e.eventId)
  {
    env.check(env.rows(e.eventId)[id].resolvedIp, env.rows(e.eventId)[id].url)
  }

  // The matching, active subscriptions whose target is allowed.
  function Targets(env: Env, e: Event): set<Id> {
    set id | id in Found(env, e) && CheckOf(env, e, id).Allowed?
  }

  // With no subscription nothing can fail but the lookup; with one, a payload without
  // a JSON form or a URL that does not parse fails the whole event.
  predicate Fails(env: Env, e: Event) {
    || env.lookupFails(e.eventId)
    || CannotBuild(env, e)
    || (Targets(env, e) != {} && env.enqueueFails(e.eventId))
  }

  predicate CannotBuild(env: Env, e: Event) {
    (Found(env, e) != {} && e.payload.None?) || HasMalformed(env, e)
  }

  predicate HasMalformed(env: Env, e: Event) {
    exists id :: id in Found(env, e) && CheckOf(env, e, id).Malformed?
  }

  function Draft(sub: Subscription, e: Event, size: nat, id: Id, now: Time): Record {
    Record(id, sub.id, sub.owner, e.name, e.eventId, e.tenant, size, sub.url, sub.resolvedIp, 0, now, now,
      Status.Pending, "default", None)
  }

  // A row for this event and one of the subscriptions its lookup found.
  ghost predicate IsDraft(env: Env, e: Event, now: Time, r: Record) {
    && r.subscriptionId in Targets(env, e) && e.payload.Some?
    && r == Draft(env.rows(e.eventId)[r.subscriptionId], e, e.payload.value, r.deliveryId, now)
  }

  // ---- The same in plain terms --------------------------------------------------------

  // A subscription the event is meant for: active, listing it, and the tenant's if it has one.
  ghost predicate IsMeant(env: Env, e: Event, sub: Id) {
    && sub in env.rows(e.eventId)
    && var row := env.rows(e.eventId)[sub];
       row.status == Active && e.name in row.events && (e.tenant.Some? ==> row.owner == e.tenant.value)
  }

  ghost predicate GuardSays(env: Env, e: Event, sub: Id, check: Check)
    requires sub in env.rows(e.eventId)
  {
    env.check(env.rows(e.eventId)[sub].resolvedIp, env.rows(e.eventId)[sub].url) == check
  }

  // One whose target the guard allows gets a row.
  ghost predicate IsOwed(env: Env, e: Event, sub: Id) {
    IsMeant(env, e, sub) && GuardSays(env, e, sub, Allowed)
  }

  // An event fails if its lookup does, if there is someone it is meant for but its payload
  // has no JSON form, if one of their URLs does not parse, or if the enqueue of a row fails.
  ghost predicate MustFail(env: Env, e: Event) {
    || env.lookupFails(e.eventId)
    || (e.payload.None? && exists sub :: IsMeant(env, e, sub))
    || (exists sub :: IsMeant(env, e, sub) && GuardSays(env, e, sub, Malformed))
    || (env.enqueueFails(e.eventId) && exists sub :: IsOwed(env, e, sub))
  }

  // What a row is made of: the subscription it is for, the event, and the clock.
  ghost predicate IsAddressed(env: Env, e: Event, now: Time, r: Record) {
    && IsOwed(env, e, r.subscriptionId)
    && var sub := env.rows(e.eventId)[r.subscriptionId];
       && r.targetUrl == sub.url && r.resolvedIp == sub.resolvedIp && r.ownerId == sub.owner
       && r.eventName == e.name && r.eventId == e.eventId && r.tenantId == e.tenant && e.payload == Some(r.bodySize)
       && r.createdAt == now && r.profile == "default" && r.secretVersion == None
  }

  ghost predicate IsNew(r: Record) {
    r.status == Status.Pending && r.attempts == 0 && r.fireAt == r.createdAt
  }

  lemma TargetsAreOwed(env: Env, e: Event, sub: Id)
    ensures sub in Found(env, e) <==> IsMeant(env, e, sub)
    ensures sub in Targets(env, e) <==> IsOwed(env, e, sub)
  {
  }

  lemma FailsExactlyThen(env: Env, e: Event)
    ensures Fails(env, e) <==> MustFail(env, e)
  {
    forall sub ensures sub in Found(env, e) <==> IsMeant(env, e, sub) {
      TargetsAreOwed(env, e, sub);
    }
    forall sub ensures sub in Targets(env, e) <==> IsOwed(env, e, sub) {
      TargetsAreOwed(env, e, sub);
    }
    if HasMalformed(env, e) {
      var sub :| sub in Found(env, e) && CheckOf(env, e, sub).Malformed?;
      assert GuardSays(env, e, sub, Malformed);
    }
  }

  lemma DraftsAreAddressed(env: Env, e: Event, now: Time, r: Record)
    requires IsDraft(env, e, now, r)
    ensures IsAddressed(env, e, now, r) && IsNew(r)
  {
    TargetsAreOwed(env, e, r.subscriptionId);
  }

  ghost function SubIds(rs: seq<Record>): (ids: seq<Id>)
    ensures |ids| == |rs| && forall k :: 0 <= k < |rs| ==> ids[k] == rs[k].subscriptionId
  {
    seq(|rs|, k requires 0 <= k < |rs| => rs[k].subscriptionId)
  }

  ghost predicate IsFanOut(env: Env, e: Event, now: Time, rs: seq<Record>) {
    && Distinct(SubIds(rs)) && Elements(SubIds(rs)) == Targets(env, e)
    && forall r :: r in rs ==> IsDraft(env, e, now, r)
  }

  ghost function Pairs(rs: seq<Record>): (pairs: seq<(Id, Id)>)
    ensures |pairs| == |rs| && forall k :: 0 <= k < |rs| ==> pairs[k] == (rs[k].subscriptionId, rs[k].eventId)
  {
    seq(|rs|, k requires 0 <= k < |rs| => (rs[k].subscriptionId, rs[k].eventId))
  }

  ghost predicate Wanted(env: Env, batch: seq<Event>, pair: (Id, Id)) {
    exists k :: 0 <= k < |batch| && batch[k].eventId == pair.1 && pair.0 in Targets(env, batch[k])
  }

  ghost predicate Drafted(env: Env, batch: seq<Event>, now: Time, r: Record) {
    exists k :: 0 <= k < |batch| && IsDraft(env, batch[k], now, r)
  }

  // Exactly one row for each event and each allowed subscription matching it.
  ghost predicate IsIngest(env: Env, batch: seq<Event>, now: Time, rs: seq<Record>) {
    && Distinct(Pairs(rs))
    && (forall pair :: pair in Pairs(rs) <==> Wanted(env, batch, pair))
    && (forall r :: r in rs ==> Drafted(env, batch, now, r))
  }

  ghost predicate DistinctEvents(batch: seq<Event>) {
    forall i, j :: 0 <= i < j < |batch| ==> batch[i].eventId != batch[j].eventId
  }

  ghost function EventIds(batch: seq<Event>): set<Id> {
    set e | e in batch :: e.eventId
  }

  function Passing(env: Env, batch: seq<Event>): seq<Event> {
    if batch == [] then []
    else
      var last := batch[|batch| - 1];
      Passing(env, batch[..|batch| - 1]) + if Fails(env, last) then [] else [last]
  }

  function Failing(env: Env, batch: seq<Event>): seq<Event> {
    if batch == [] then []
    else
      var last := batch[|batch| - 1];
      Failing(env, batch[..|batch| - 1]) + if Fails(env, last) then [last] else []
  }

  lemma {:induction false} PassingAreListed(env: Env, batch: seq<Event>)
    ensures forall e :: e in Passing(env, batch) <==> e in batch && !Fails(env, e)
    ensures forall e :: e in Failing(env, batch) <==> e in batch && Fails(env, e)
    ensures |batch| == |Passing(env, batch)| + |Failing(env, batch)|
  {
    if batch != [] {
      var front, last := batch[..|batch| - 1], batch[|batch| - 1];
      PassingAreListed(env, front);
      assert forall e :: e in batch <==> e in front || e == last by {
        assert batch == front + [last];
      }
    }
  }

  lemma NothingMeansNoTarget(env: Env, e: Event, now: Time, rs: seq<Record>)
    requires IsFanOut(env, e, now, rs)
    ensures rs == [] <==> Targets(env, e) == {}
  {
    if rs != [] {
      assert rs[0].subscriptionId in Elements(SubIds(rs));
    }
  }

  // The rows of one more event join those of the events before it.
  lemma IngestOneMore(env: Env, batch: seq<Event>, now: Time, made: seq<Record>, e: Event, rs: seq<Record>)
    requires IsIngest(env, batch, now, made) && IsFanOut(env, e, now, rs)
    requires forall k :: 0 <= k < |batch| ==> batch[k].eventId != e.eventId
    ensures IsIngest(env, batch + [e], now, made + rs)
  {
    var more := batch + [e];
    assert Pairs(made + rs) == Pairs(made) + Pairs(rs);
    forall k | 0 <= k < |rs| ensures Pairs(rs)[k] == (SubIds(rs)[k], e.eventId) && Pairs(rs)[k] !in Pairs(made) {
      assert IsDraft(env, e, now, rs[k]);
      assert !Wanted(env, batch, Pairs(rs)[k]);
    }
    WantedOneMore(env, batch, e, rs);
    forall r | r in made + rs ensures Drafted(env, more, now, r) {
      if r in made {
        var k :| 0 <= k < |batch| && IsDraft(env, batch[k], now, r);
        assert IsDraft(env, more[k], now, r);
      } else {
        assert IsDraft(env, more[|batch|], now, r);
      }
    }
  }

  lemma WantedOneMore(env: Env, batch: seq<Event>, e: Event, rs: seq<Record>)
    requires Elements(SubIds(rs)) == Targets(env, e)
    requires forall k :: 0 <= k < |rs| ==> rs[k].eventId == e.eventId
    ensures forall pair :: Wanted(env, batch + [e], pair) <==> Wanted(env, batch, pair) || pair in Pairs(rs)
  {
    var more := batch + [e];
    forall pair ensures Wanted(env, more, pair) <==> Wanted(env, batch, pair) || pair in Pairs(rs) {
      if Wanted(env, more, pair) && !Wanted(env, batch, pair) {
        var k :| 0 <= k < |more| && more[k].eventId == pair.1 && pair.0 in Targets(env, more[k]);
        assert k == |batch| && pair.0 in Elements(SubIds(rs));
        var m :| 0 <= m < |rs| && SubIds(rs)[m] == pair.0;
        assert Pairs(rs)[m] == pair;
      }
      if Wanted(env, batch, pair) {
        var k :| 0 <= k < |batch| && batch[k].eventId == pair.1 && pair.0 in Targets(env, batch[k]);
        assert more[k] == batch[k];
      }
      if pair in Pairs(rs) {
        var k :| 0 <= k < |rs| && Pairs(rs)[k] == pair;
        assert SubIds(rs)[k] in Elements(SubIds(rs));
        assert more[|batch|] == e;
      }
    }
  }

  lemma {:induction false} EnqueuedMore(s: MemState, a: seq<Record>, b: seq<Record>)
    ensures Enqueued(Enqueued(s, a), b) == Enqueued(s, a + b)
  {
    if b == [] {
      assert a + b == a;
    } else {
      EnqueuedMore(s, a, b[..|b| - 1]);
      assert (a + b)[..|a + b| - 1] == a + b[..|b| - 1];
    }
  }

  lemma FailedOneMore(s: EventState, failed: seq<Event>, e: Event)
    ensures WithStatus(WithStatus(s, EventIds(failed), Failed, None), {e.eventId}, Failed, None) ==
      WithStatus(s, EventIds(failed + [e]), Failed, None)
  {
    assert EventIds(failed + [e]) == EventIds(failed) + {e.eventId};
  }

  // How far a batch has come after its first i events.
  ghost predicate Gathered(env: Env, batch: seq<Event>, i: nat, now: Time, acked: seq<Event>, failed: seq<Event>,
      made: seq<Record>)
    requires i <= |batch|
  {
    && acked == Passing(env, batch[..i]) && failed == Failing(env, batch[..i])
    && IsIngest(env, acked, now, made)
  }

  lemma FailOneMore(env: Env, batch: seq<Event>, i: nat, now: Time, acked: seq<Event>, failed: seq<Event>,
      made: seq<Record>)
    requires i < |batch| && Gathered(env, batch, i, now, acked, failed, made) && Fails(env, batch[i])
    ensures Gathered(env, batch, i + 1, now, acked, failed + [batch[i]], made)
  {
    assert batch[..i + 1][..i] == batch[..i];
  }

  lemma PassOneMore(env: Env, batch: seq<Event>, i: nat, now: Time, acked: seq<Event>, failed: seq<Event>,
      made: seq<Record>, rs: seq<Record>)
    requires i < |batch| && DistinctEvents(batch) && Gathered(env, batch, i, now, acked, failed, made)
    requires !Fails(env, batch[i]) && IsFanOut(env, batch[i], now, rs)
    ensures Gathered(env, batch, i + 1, now, acked + [batch[i]], failed, made + rs)
  {
    assert batch[..i + 1][..i] == batch[..i];
    PassingAreListed(env, batch[..i]);
    forall k | 0 <= k < |acked| ensures acked[k].eventId != batch[i].eventId {
      assert acked[k] in acked;
      assert acked[k] in batch[..i];
    }
    IngestOneMore(env, acked, now, made, batch[i], rs);
  }

  lemma NothingToAck(s: EventState)
    ensures WithStatus(s, EventIds([]), Done, None) == s
  {
  }

  lemma ClaimedAreDistinct(s: EventState, n: nat, batch: seq<Event>)
    requires EventStore.Valid(s) && Hands(s.rows, ClaimIds(s, n), batch)
    ensures DistinctEvents(batch) && EventIds(batch) == Elements(ClaimIds(s, n))
  {
    PendingAreListed(s.order, s.rows);
    var ids := ClaimIds(s, n);
    assert forall k :: 0 <= k < |ids| ==> batch[k].eventId == ids[k];
    assert forall k :: 0 <= k < |ids| ==> batch[k] in batch;
  }

  // What a whole tick does to the event store and to the delivery store.
  ghost predicate IsTick(env: Env, s: EventState, now: Time, ttl: nat, n: nat, batch: seq<Event>, made: seq<Record>,
      q: MemState, s': EventState, q': MemState)
  {
    var ready := if env.reclaimFails then s else EventStore.Reclaimed(s, now);
    && Hands(ready.rows, ClaimIds(ready, n), batch)
    && IsIngest(env, Passing(env, batch), now, made)
    && q' == Enqueued(q, made)
    && s' == WithStatus(WithStatus(ClaimedState(ready, now, ttl, n), EventIds(Failing(env, batch)), Failed, None),
      EventIds(Passing(env, batch)), Done, None)
  }

  // The rows drafted when `todo` of the found subscriptions are still to be looked at.
  ghost predicate DraftedSoFar(env: Env, e: Event, now: Time, todo: set<Id>, rs: seq<Record>) {
    && todo <= Found(env, e)
    && (forall id :: id in Found(env, e) && id !in todo ==> !CheckOf(env, e, id).Malformed?)
    && (forall id :: id in SubIds(rs) <==> id in Targets(env, e) && id !in todo)
    && Distinct(SubIds(rs)) && forall r :: r in rs ==> IsDraft(env, e, now, r)
  }

  lemma SkipOneMore(env: Env, e: Event, now: Time, todo: set<Id>, rs: seq<Record>, id: Id)
    requires DraftedSoFar(env, e, now, todo, rs) && id in todo && CheckOf(env, e, id).Blocked?
    ensures DraftedSoFar(env, e, now, todo - {id}, rs)
  {
  }

  // The row drafted for a subscription that is allowed.
  function DraftOf(env: Env, e: Event, now: Time, id: Id, deliveryId: Id): Record
    requires e.payload.Some? && id in env.rows(e.eventId)
  {
    Draft(env.rows(e.eventId)[id], e, e.payload.value, deliveryId, now)
  }

  lemma DraftOneMore(env: Env, e: Event, now: Time, todo: set<Id>, rs: seq<Record>, id: Id, deliveryId: Id)
    requires Keyed(env) && e.payload.Some? && id in env.rows(e.eventId)
    requires DraftedSoFar(env, e, now, todo, rs) && id in todo && CheckOf(env, e, id).Allowed?
    ensures DraftedSoFar(env, e, now, todo - {id}, rs + [DraftOf(env, e, now, id, deliveryId)])
  {
    var r := DraftOf(env, e, now, id, deliveryId);
    assert SubIds(rs + [r]) == SubIds(rs) + [id];
  }

  lemma DraftsAreDone(env: Env, e: Event, now: Time, rs: seq<Record>)
    requires DraftedSoFar(env, e, now, {}, rs)
    ensures IsFanOut(env, e, now, rs) && !HasMalformed(env, e)
  {
  }

  // One row for everyone who is owed one, each with the right contents.
  ghost predicate FansOut(env: Env, e: Event, now: Time, rs: seq<Record>) {
    && (forall i, j :: 0 <= i < j < |rs| ==> rs[i].subscriptionId != rs[j].subscriptionId)
    && (forall sub :: IsOwed(env, e, sub) <==> exists k :: 0 <= k < |rs| && rs[k].subscriptionId == sub)
    && (forall k :: 0 <= k < |rs| ==> IsAddressed(env, e, now, rs[k]) && IsNew(rs[k]))
  }

  lemma FanOutInPlainTerms(env: Env, e: Event, now: Time)
    ensures forall rs :: IsFanOut(env, e, now, rs) ==> FansOut(env, e, now, rs)
  {
    forall rs | IsFanOut(env, e, now, rs) ensures FansOut(env, e, now, rs) {
      FansOutPlainly(env, e, now, rs);
    }
  }

  lemma FansOutPlainly(env: Env, e: Event, now: Time, rs: seq<Record>)
    requires IsFanOut(env, e, now, rs)
    ensures FansOut(env, e, now, rs)
  {
    assert forall k :: 0 <= k < |rs| ==> SubIds(rs)[k] == rs[k].subscriptionId;
    forall k | 0 <= k < |rs| ensures IsAddressed(env, e, now, rs[k]) && IsNew(rs[k]) {
      assert rs[k] in rs;
      DraftsAreAddressed(env, e, now, rs[k]);
    }
    forall sub ensures IsOwed(env, e, sub) <==> exists k :: 0 <= k < |rs| && rs[k].subscriptionId == sub {
      TargetsAreOwed(env, e, sub);
      if IsOwed(env, e, sub) {
        assert sub in Elements(SubIds(rs));
        var k :| 0 <= k < |rs| && SubIds(rs)[k] == sub;
        assert rs[k].subscriptionId == sub;
      }
      if k :| 0 <= k < |rs| && rs[k].subscriptionId == sub {
        assert SubIds(rs)[k] in Elements(SubIds(rs));
      }
    }
  }

  // Delivery ids are minted one after the other.
  ghost predicate Minted(uuid: nat -> Id, rs: seq<Record>, start: nat) {
    forall k :: 0 <= k < |rs| ==> rs[k].deliveryId == uuid(start + k)
  }

  lemma MintedOneMore(uuid: nat -> Id, rs: seq<Record>, r: Record, start: nat)
    requires Minted(uuid, rs, start) && r.deliveryId == uuid(start + |rs|)
    ensures Minted(uuid, rs + [r], start)
  {
  }

  lemma MintedMore(uuid: nat -> Id, a: seq<Record>, b: seq<Record>, start: nat)
    requires Minted(uuid, a, start) && Minted(uuid, b, start + |a|)
    ensures Minted(uuid, a + b, start)
  {
  }

  datatype TickStats = TickStats(claimed: nat, fannedOut: nat, failed: nat)

  class EventIngestor {
    const events: MemoryEventStore
    const deliveries: MemoryWebhookDeliveryStore
    const uuid: nat -> Id
    var minted: nat

    constructor (events: MemoryEventStore, deliveries: MemoryWebhookDeliveryStore, uuid: nat -> Id)
      ensures this.events == events && this.deliveries == deliveries && this.uuid == uuid && minted == 0
    {
      this.events, this.deliveries, this.uuid, minted := events, deliveries, uuid, 0;
    }

    // The loop over the found subscriptions; an address the guard blocks is skipped.
    method Drafts(e: Event, env: Env, now: Time) returns (made: Option<seq<Record>>)
      requires Keyed(env)
      ensures made.None? <==> CannotBuild(env, e)
      ensures made.Some? ==> IsFanOut(env, e, now, made.value) && Minted(uuid, made.value, minted)
    {
      var todo := Found(env, e);
      if todo == {} {
        return Some([]);
      }
      if e.payload.None? {
        return None;
      }
      var rs: seq<Record> := [];
      while todo != {}
        invariant DraftedSoFar(env, e, now, todo, rs) && Minted(uuid, rs, minted)
        decreases |todo|
      {
        var id :| id in todo;
        match CheckOf(env, e, id) {
          case Malformed =>
            assert HasMalformed(env, e);
            return None;
          case Blocked => SkipOneMore(env, e, now, todo, rs, id);
          case Allowed =>
            var r := DraftOf(env, e, now, id, uuid(minted + |rs|));
            DraftOneMore(env, e, now, todo, rs, id, uuid(minted + |rs|));
            MintedOneMore(uuid, rs, r, minted);
            rs := rs + [r];
        }
        todo := todo - {id};
      }
      DraftsAreDone(env, e, now, rs);
      made := Some(rs);
    }

    method FanOut(e: Event, env: Env, now: Time) returns (made: Option<seq<Record>>)
      requires Keyed(env)
      modifies deliveries, `minted
      ensures made.None? <==> Fails(env, e)
      ensures made.None? ==> deliveries.State() == old(deliveries.State()) && minted == old(minted)
      ensures made.Some? ==>
        && IsFanOut(env, e, now, made.value) && Minted(uuid, made.value, old(minted))
        && minted == old(minted) + |made.value|
        && deliveries.State() == Enqueued(old(deliveries.State()), made.value)
      ensures made.None? <==> MustFail(env, e)
      ensures made.Some? ==> FansOut(env, e, now, made.value)
    {
      FailsExactlyThen(env, e);
      FanOutInPlainTerms(env, e, now);
      if env.lookupFails(e.eventId) {
        return None;
      }
      made := Drafts(e, env, now);
      if made.None? {
        return;
      }
      NothingMeansNoTarget(env, e, now, made.value);
      if made.value != [] {
        if env.enqueueFails(e.eventId) {
          return None;
        }
        deliveries.EnqueueMany(made.value);
      }
      minted := minted + |made.value|;
    }

    // One bad event must not block the batch: it is parked.
    method Handle(e: Event, env: Env, now: Time) returns (made: Option<seq<Record>>)
      requires Keyed(env)
      modifies deliveries, `minted, events`rows
      ensures made.None? <==> Fails(env, e)
      ensures made.None? ==>
        && deliveries.State() == old(deliveries.State()) && minted == old(minted)
        && events.State() == WithStatus(old(events.State()), {e.eventId}, Failed, None)
      ensures made.Some? ==>
        && IsFanOut(env, e, now, made.value) && Minted(uuid, made.value, old(minted))
        && minted == old(minted) + |made.value|
        && deliveries.State() == Enqueued(old(deliveries.State()), made.value) && events.State() == old(events.State())
    {
      made := FanOut(e, env, now);
      if made.None? {
        events.MarkFailed(e.eventId);
      }
    }

    // The loop over a claimed batch.
    method FanOutAll(batch: seq<Event>, env: Env, now: Time) returns (acked: seq<Event>, failed: seq<Event>,
        fannedOut: nat, ghost made: seq<Record>)
      requires Keyed(env) && DistinctEvents(batch)
      modifies deliveries, `minted, events`rows
      ensures acked == Passing(env, batch) && failed == Failing(env, batch) && fannedOut == |made|
      ensures IsIngest(env, acked, now, made) && Minted(uuid, made, old(minted)) && minted == old(minted) + |made|
      ensures deliveries.State() == Enqueued(old(deliveries.State()), made)
      ensures events.State() == WithStatus(old(events.State()), EventIds(failed), Failed, None)
    {
      ghost var queue, log, start := deliveries.State(), events.State(), minted;
      acked, failed, fannedOut, made := [], [], 0, [];
      for i := 0 to |batch|
        invariant Gathered(env, batch, i, now, acked, failed, made) && fannedOut == |made|
        invariant Minted(uuid, made, start) && minted == start + |made|
        invariant deliveries.State() == Enqueued(queue, made)
        invariant events.State() == WithStatus(log, EventIds(failed), Failed, None)
      {
        var rows := Handle(batch[i], env, now);
        if rows.Some? {
          EnqueuedMore(queue, made, rows.value);
          MintedMore(uuid, made, rows.value, start);
          PassOneMore(env, batch, i, now, acked, failed, made, rows.value);
          made, acked, fannedOut := made + rows.value, acked + [batch[i]], fannedOut + |rows.value|;
        } else {
          FailedOneMore(log, failed, batch[i]);
          FailOneMore(env, batch, i, now, acked, failed, made);
          failed := failed + [batch[i]];
        }
      }
      assert batch[..|batch|] == batch;
    }

    // One tick without a crash.
    method Tick(env: Env, now: Time, ttl: nat, n: nat) returns (stats: TickStats, ghost batch: seq<Event>,
        ghost made: seq<Record>)
      requires Keyed(env) && EventStore.Valid(events.State())
      modifies deliveries, `minted, events`rows
      ensures IsTick(env, old(events.State()), now, ttl, n, batch, made, old(deliveries.State()), events.State(),
        deliveries.State())
      ensures Minted(uuid, made, old(minted)) && minted == old(minted) + |made|
      ensures stats == TickStats(|batch|, |made|, |Failing(env, batch)|)
      ensures stats.claimed == |Passing(env, batch)| + stats.failed
    {
      if !env.reclaimFails {
        var _ := events.ReclaimStale(now);
      }
      ghost var ready := events.State();
      var claimed, ids := events.ClaimEvents(now, ttl, n);
      ClaimedAreDistinct(ready, n, claimed);
      batch := claimed;
      var acked, failed, fannedOut;
      acked, failed, fannedOut, made := FanOutAll(claimed, env, now);
      PassingAreListed(env, batch);
      if acked != [] {
        events.Ack(IdsOfEvents(acked));
      } else {
        NothingToAck(events.State());
      }
      stats := TickStats(|claimed|, fannedOut, |failed|);
    }
  }

  function IdsOfEvents(batch: seq<Event>): (ids: seq<Id>)
    ensures |ids| == |batch| && forall k :: 0 <= k < |batch| ==> ids[k] == batch[k].eventId
    ensures Elements(ids) == EventIds(batch)
  {
    seq(|batch|, k requires 0 <= k < |batch| => batch[k].eventId)
  }

  // ---- What a tick has delivered -----------------------------------------------------------

  // The rows of a batch with fresh ids, added to a table.
  ghost predicate AddsRows(was: map<Id, Record>, rs: seq<Record>, now: map<Id, Record>) {
    && (forall id :: id in was ==> id in now && now[id] == was[id])
    && (forall id :: id in now && id !in was ==> exists k :: 0 <= k < |rs| && rs[k].deliveryId == id)
    && (forall k :: 0 <= k < |rs| ==>
      rs[k].deliveryId !in was && rs[k].deliveryId in now && now[rs[k].deliveryId] == rs[k])
  }

  lemma AddsOneMore(was: map<Id, Record>, rs: seq<Record>, now: map<Id, Record>, r: Record)
    requires AddsRows(was, rs, now) && r.deliveryId !in was
    requires forall k :: 0 <= k < |rs| ==> rs[k].deliveryId != r.deliveryId
    ensures r.deliveryId !in now && AddsRows(was, rs + [r], now[r.deliveryId := r])
  {
    var more, now' := rs + [r], now[r.deliveryId := r];
    forall id | id in now' && id !in was ensures exists k :: 0 <= k < |more| && more[k].deliveryId == id {
      if id == r.deliveryId {
        assert more[|rs|].deliveryId == id;
      } else {
        var k :| 0 <= k < |rs| && rs[k].deliveryId == id;
        assert more[k].deliveryId == id;
      }
    }
  }

  ghost predicate FreshRows(q: MemState, rs: seq<Record>) {
    && (forall i, j :: 0 <= i < j < |rs| ==> rs[i].deliveryId != rs[j].deliveryId)
    && (forall k :: 0 <= k < |rs| ==> rs[k].deliveryId !in q.records)
  }

  lemma FrontIsFresh(q: MemState, rs: seq<Record>)
    requires FreshRows(q, rs) && rs != []
    ensures FreshRows(q, rs[..|rs| - 1]) && rs[|rs| - 1].deliveryId !in q.records
    ensures
      var front, last := rs[..|rs| - 1], rs[|rs| - 1];
      forall k :: 0 <= k < |front| ==> front[k].deliveryId != last.deliveryId
  {
  }

  lemma FreshRowIsAdded(q: MemState, rs: seq<Record>)
    requires FreshRows(q, rs) && rs != []
    requires AddsRows(q.records, rs[..|rs| - 1], Enqueued(q, rs[..|rs| - 1]).records)
    ensures AddsRows(q.records, rs, Enqueued(q, rs).records)
  {
    var front, last := rs[..|rs| - 1], rs[|rs| - 1];
    FrontIsFresh(q, rs);
    AddsOneMore(q.records, front, Enqueued(q, front).records, last);
    assert rs == front + [last];
  }

  lemma {:induction false} FreshRowsAreAdded(q: MemState, rs: seq<Record>)
    requires FreshRows(q, rs)
    ensures AddsRows(q.records, rs, Enqueued(q, rs).records)
  {
    if rs != [] {
      FrontIsFresh(q, rs);
      FreshRowsAreAdded(q, rs[..|rs| - 1]);
      FreshRowIsAdded(q, rs);
    }
  }

  ghost function NewRows(q: MemState, q': MemState): set<Id> {
    q'.records.Keys - q.records.Keys
  }

  ghost function RowsFor(q: MemState, q': MemState, sub: Id, event: Id): set<Id> {
    set id | id in NewRows(q, q') && q'.records[id].subscriptionId == sub && q'.records[id].eventId == event
  }

  ghost predicate FreshIds(uuid: nat -> Id, start: nat, q: MemState) {
    && (forall i, j :: uuid(i) == uuid(j) ==> i == j)
    && (forall k: nat :: k >= start ==> uuid(k) !in q.records)
  }

  lemma MintedAreFresh(uuid: nat -> Id, start: nat, q: MemState, made: seq<Record>)
    requires Minted(uuid, made, start) && FreshIds(uuid, start, q)
    ensures FreshRows(q, made)
  {
  }

  // A new row of the table is one of those added.
  lemma NewRowWasAdded(was: map<Id, Record>, rs: seq<Record>, now: map<Id, Record>, id: Id) returns (k: nat)
    requires AddsRows(was, rs, now) && id in now && id !in was
    ensures k < |rs| && now[id] == rs[k]
  {
    var m: nat :| 0 <= m < |rs| && rs[m].deliveryId == id;
    k := m;
  }

  // A new row of a pair stands where the pair does.
  lemma RowOfPair(q: MemState, q': MemState, made: seq<Record>, pair: (Id, Id), id: Id) returns (m: nat)
    requires AddsRows(q.records, made, q'.records) && id in RowsFor(q, q', pair.0, pair.1)
    ensures m < |made| && Pairs(made)[m] == pair && made[m].deliveryId == id
  {
    m := NewRowWasAdded(q.records, made, q'.records, id);
  }

  lemma OnlyRowOfPair(q: MemState, q': MemState, made: seq<Record>, pair: (Id, Id), k: nat)
    requires Distinct(Pairs(made)) && AddsRows(q.records, made, q'.records)
    requires k < |made| && Pairs(made)[k] == pair
    ensures RowsFor(q, q', pair.0, pair.1) == {made[k].deliveryId}
  {
    forall id | id in RowsFor(q, q', pair.0, pair.1) ensures id == made[k].deliveryId {
      var m := RowOfPair(q, q', made, pair, id);
    }
    assert made[k].deliveryId in RowsFor(q, q', pair.0, pair.1);
  }

  lemma RowsOfPair(q: MemState, q': MemState, made: seq<Record>, pair: (Id, Id))
    requires Distinct(Pairs(made)) && AddsRows(q.records, made, q'.records)
    ensures |RowsFor(q, q', pair.0, pair.1)| == if pair in Pairs(made) then 1 else 0
  {
    if pair in Pairs(made) {
      var k :| 0 <= k < |made| && Pairs(made)[k] == pair;
      OnlyRowOfPair(q, q', made, pair, k);
    } else {
      forall id | id in RowsFor(q, q', pair.0, pair.1) ensures false {
        var _ := RowOfPair(q, q', made, pair, id);
      }
      assert RowsFor(q, q', pair.0, pair.1) == {};
    }
  }

  // The rows of an ingested batch, one for each pair that was wanted.
  lemma OneRowPerPair(env: Env, batch: seq<Event>, now: Time, made: seq<Record>, q: MemState, q': MemState,
      pair: (Id, Id))
    requires IsIngest(env, batch, now, made) && AddsRows(q.records, made, q'.records)
    ensures |RowsFor(q, q', pair.0, pair.1)| == if Wanted(env, batch, pair) then 1 else 0
    ensures forall id :: id in NewRows(q, q') ==> Drafted(env, batch, now, q'.records[id])
  {
    RowsOfPair(q, q', made, pair);
    forall id | id in NewRows(q, q') ensures Drafted(env, batch, now, q'.records[id]) {
      var k := NewRowWasAdded(q.records, made, q'.records, id);
      assert made[k] in made;
    }
  }

  lemma WantedInBatch(env: Env, batch: seq<Event>, e: Event, sub: Id)
    requires DistinctEvents(batch) && e in batch
    ensures Wanted(env, Passing(env, batch), (sub, e.eventId)) <==> !Fails(env, e) && sub in Targets(env, e)
  {
    PassingAreListed(env, batch);
    var passing := Passing(env, batch);
    if !Fails(env, e) && sub in Targets(env, e) {
      var k :| 0 <= k < |passing| && passing[k] == e;
    }
    if Wanted(env, passing, (sub, e.eventId)) {
      var k :| 0 <= k < |passing| && passing[k].eventId == e.eventId && sub in Targets(env, passing[k]);
      assert passing[k] in passing;
      assert passing[k] == e;
    }
  }

  // The row was made in this tick for some event of the batch that did not fail.
  ghost predicate CameFrom(env: Env, batch: seq<Event>, now: Time, r: Record) {
    exists k :: 0 <= k < |batch| && !MustFail(env, batch[k]) && IsAddressed(env, batch[k], now, r)
  }

  lemma DraftedCameFrom(env: Env, batch: seq<Event>, now: Time, r: Record)
    requires Drafted(env, Passing(env, batch), now, r)
    ensures CameFrom(env, batch, now, r) && IsNew(r)
  {
    var passing := Passing(env, batch);
    var k :| 0 <= k < |passing| && IsDraft(env, passing[k], now, r);
    DraftsAreAddressed(env, passing[k], now, r);
    PassingAreListed(env, batch);
    assert passing[k] in passing;
    var m :| 0 <= m < |batch| && batch[m] == passing[k];
    FailsExactlyThen(env, batch[m]);
  }

  // In a tick without a crash, each claimed event ends DONE with exactly one new row for
  // everyone it is owed to, or FAILED with none; and every new row carries what its event
  // and its subscription say, the owner of a tenant's event included.
  lemma TickDeliversOnce(env: Env, s: EventState, now: Time, ttl: nat, n: nat, batch: seq<Event>, made: seq<Record>,
      q: MemState, s': EventState, q': MemState,
      uuid: nat -> Id, start: nat, e: Event, sub: Id)
    requires IsTick(env, s, now, ttl, n, batch, made, q, s', q') && EventStore.Valid(s)
    requires Minted(uuid, made, start) && FreshIds(uuid, start, q) && e in batch
    ensures e.eventId in s'.rows && s'.rows[e.eventId].status == if MustFail(env, e) then Failed else Done
    ensures |RowsFor(q, q', sub, e.eventId)| == if !MustFail(env, e) && IsOwed(env, e, sub) then 1 else 0
    ensures forall id :: id in NewRows(q, q') ==>
      CameFrom(env, batch, now, q'.records[id]) && IsNew(q'.records[id])
    ensures forall id :: id in NewRows(q, q') && q'.records[id].tenantId.Some? ==>
      q'.records[id].ownerId == q'.records[id].tenantId.value
  {
    var ready := if env.reclaimFails then s else EventStore.Reclaimed(s, now);
    ClaimedAreDistinct(ready, n, batch);
    BatchIsSettled(env, ready, now, ttl, n, batch, s', e);
    WantedInBatch(env, batch, e, sub);
    FailsExactlyThen(env, e);
    TargetsAreOwed(env, e, sub);
    MintedAreFresh(uuid, start, q, made);
    FreshRowsAreAdded(q, made);
    OneRowPerPair(env, Passing(env, batch), now, made, q, q', (sub, e.eventId));
    forall id | id in NewRows(q, q') ensures CameFrom(env, batch, now, q'.records[id]) && IsNew(q'.records[id]) {
      DraftedCameFrom(env, batch, now, q'.records[id]);
    }
  }

  // A tick begins by taking back every event whose lease ended before its clock: such an
  // event is handled again or waits, unless the reclaim failed; others are left alone.
  lemma TickTakesBack(env: Env, s: EventState, now: Time, ttl: nat, n: nat, batch: seq<Event>, made: seq<Record>,
      q: MemState, s': EventState, q': MemState, id: Id)
    requires IsTick(env, s, now, ttl, n, batch, made, q, s', q') && EventStore.Valid(s) && EventStore.LeasesAgree(s)
    requires id in s.rows && forall e :: e in batch ==> e.eventId != id
    ensures id in s'.rows && s'.rows[id].event == s.rows[id].event
    ensures s'.rows[id].status ==
      if !env.reclaimFails && s.rows[id].leaseUntil.Some? && s.rows[id].leaseUntil.value < now
      then EventStatus.Pending else s.rows[id].status
  {
    var ready := if env.reclaimFails then s else EventStore.Reclaimed(s, now);
    ClaimedAreDistinct(ready, n, batch);
    PassingAreListed(env, batch);
    assert id !in EventIds(batch);
    OthersAreLeft(ready, Elements(ClaimIds(ready, n)), EventIds(Failing(env, batch)), EventIds(Passing(env, batch)),
      Some(now + Span(ttl)), id);
  }

  lemma OthersAreLeft(s: EventState, claimed: set<Id>, failed: set<Id>, acked: set<Id>, until: Option<Time>, id: Id)
    requires id in s.rows && id !in claimed && id !in failed && id !in acked
    ensures
      var t := WithStatus(WithStatus(WithStatus(s, claimed, Claimed, until), failed, Failed, None), acked, Done, None);
      id in t.rows && t.rows[id] == s.rows[id]
  {
  }

  lemma BatchIsSettled(env: Env, ready: EventState, now: Time, ttl: nat, n: nat, batch: seq<Event>, s': EventState,
      e: Event)
    requires EventStore.Valid(ready) && Hands(ready.rows, ClaimIds(ready, n), batch) && DistinctEvents(batch)
    requires e in batch
    requires s' == WithStatus(WithStatus(ClaimedState(ready, now, ttl, n), EventIds(Failing(env, batch)), Failed,
      None), EventIds(Passing(env, batch)), Done, None)
    ensures e.eventId in s'.rows && s'.rows[e.eventId].status == if Fails(env, e) then Failed else Done
  {
    PassingAreListed(env, batch);
    PendingAreListed(ready.order, ready.rows);
    assert e.eventId in ready.rows;
    SettledTwice(ClaimedState(ready, now, ttl, n), EventIds(Failing(env, batch)),
      EventIds(Passing(env, batch)), e.eventId);
    if Fails(env, e) {
      assert e in Failing(env, batch);
      assert forall x :: x in Passing(env, batch) ==> x.eventId != e.eventId;
    } else {
      assert e in Passing(env, batch);
    }
  }

  lemma SettledTwice(s: EventState, failed: set<Id>, acked: set<Id>, id: Id)
    requires id in s.rows && id in failed + acked
    ensures var t := WithStatus(WithStatus(s, failed, Failed, None), acked, Done, None);
      id in t.rows && t.rows[id].status == if id in acked then Done else Failed
  {
  }
}
