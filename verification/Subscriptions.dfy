// Subscriptions and their secrets: the Postgres table, the Redis hashes with their
// index sets, and secret rotation in both.
module Subscriptions {
  import opened Delivery

  datatype SubscriptionStatus = Active | Paused

  datatype Subscription = Subscription(
    id: Id,
    owner: string,
    url: string,
    resolvedIp: string,
    secret: string,
    events: seq<string>,
    status: SubscriptionStatus,
    createdAt: Time,
    previous: Option<string>,
    previousUntil: Option<Time>)

  // What the fan-out gets to see.
  datatype Snapshot = Snapshot(id: Id, owner: string, url: string, resolvedIp: string)

  function SnapshotOf(sub: Subscription): Snapshot {
    Snapshot(sub.id, sub.owner, sub.url, sub.resolvedIp)
  }

  datatype SecretMaterial = SecretMaterial(current: string, previous: Option<string>, previousUntil: Option<Time>) {

    // The old secret while its grace window is open.
    function PreviousAt(now: Time): Option<string> {
      if previous.None? || previousUntil.None? || previousUntil.value <= now then None else previous
    }
  }

  datatype Answer<+T> = Ok(value: T) | NotFound | NegativeGrace | IdTaken

  function GraceUntil(now: Time, graceS: int): Option<Time> {
    if graceS < 0 then None else Some(now + Span(graceS))
  }

  // `secret or token_hex(32)`: an empty secret counts as none.
  function Chosen(given: Option<string>, random: string): string {
    if given.Some? && given.value != "" then given.value else random
  }

  datatype Cipher = Cipher(seal: string -> string, open: string -> string)

  ghost predicate Faithful(cipher: Cipher) {
    forall secret :: cipher.open(cipher.seal(secret)) == secret
  }

  type Rows = map<Id, Subscription>

  predicate Wants(sub: Subscription, event: string, tenant: Option<string>) {
    sub.status.Active? && event in sub.events && (tenant.None? || sub.owner == tenant.value)
  }

  // The plain filter over all rows.
  function Matching(rows: Rows, event: string, tenant: Option<string>): set<Id> {
    set id | id in rows && Wants(rows[id], event, tenant)
  }

  datatype Op =
    | Create(sub: Subscription)
    | Delete(id: Id)
    | SetStatus(id: Id, status: SubscriptionStatus)
    | Rotate(id: Id, secret: string, until: Time)

  function Rotated(sub: Subscription, secret: string, until: Time): Subscription {
    sub.(previous := Some(sub.secret), previousUntil := Some(until), secret := secret)
  }

  // ---- Postgres: one table ---------------------------------------------------------------

  function PgDo(rows: Rows, op: Op): Rows {
    match op
    case Create(sub) => if sub.id in rows then rows else rows[sub.id := sub]
    case Delete(id) => rows - {id}
    case SetStatus(id, status) => if id in rows then rows[id := rows[id].(status := status)] else rows
    case Rotate(id, secret, until) => if id in rows then rows[id := Rotated(rows[id], secret, until)] else rows
  }

  // Secrets are sealed on their way into the table.
  function Sealed(cipher: Cipher, op: Op): Op {
    match op
    case Create(sub) => Create(sub.(secret := cipher.seal(sub.secret)))
    case Rotate(id, secret, until) => Rotate(id, cipher.seal(secret), until)
    case _ => op
  }

  function Opened(cipher: Cipher, secret: Option<string>): Option<string> {
    if secret.None? then None else Some(cipher.open(secret.value))
  }

  function PgMaterial(cipher: Cipher, sub: Subscription): SecretMaterial {
    SecretMaterial(cipher.open(sub.secret), Opened(cipher, sub.previous), sub.previousUntil)
  }

  class PgSubscriptionStore {
    const cipher: Cipher
    var rows: Rows

    constructor (cipher: Cipher)
      ensures rows == map[] && this.cipher == cipher
    {
      this.cipher := cipher;
      rows := map[];
    }

    // The id is a fresh UUID; the insert raises on a key that is taken.
    method Create(id: Id, owner: string, url: string, ip: string, events: seq<string>, given: Option<string>,
        random: string, now: Time)
      returns (created: Answer<Subscription>)
      modifies this
      ensures var sub := Subscription(id, owner, url, ip, Chosen(given, random), events, Active, now, None, None);
              && rows == PgDo(old(rows), Sealed(cipher, Op.Create(sub)))
              && created == if id in old(rows) then IdTaken else Ok(sub)
    {
      if id in rows {
        return IdTaken;
      }
      var secret := Chosen(given, random);
      rows := rows[id := Subscription(id, owner, url, ip, cipher.seal(secret), events, Active, now, None, None)];
      created := Ok(Subscription(id, owner, url, ip, secret, events, Active, now, None, None));
    }

    method Delete(id: Id) returns (deleted: bool)
      modifies this
      ensures rows == PgDo(old(rows), Op.Delete(id)) && deleted == (id in old(rows))
    {
      deleted := id in rows;
      rows := rows - {id};
    }

    method ChangeStatus(id: Id, status: SubscriptionStatus) returns (existed: bool)
      modifies this
      ensures rows == PgDo(old(rows), Op.SetStatus(id, status)) && existed == (id in old(rows))
    {
      existed := id in rows;
      if existed {
        rows := rows[id := rows[id].(status := status)];
      }
    }

    // A single UPDATE .. RETURNING; a negative grace is refused before the table is read.
    method RotateSecret(id: Id, graceS: int, given: Option<string>, random: string,
        now: Time) returns (material: Answer<SecretMaterial>)
      requires Faithful(cipher)
      modifies this
      ensures GraceUntil(now, graceS).None? ==> material == NegativeGrace && rows == old(rows)
      ensures GraceUntil(now, graceS).Some? ==>
        && rows == PgDo(old(rows), Sealed(cipher, Op.Rotate(id, Chosen(given, random), now + Span(graceS))))
        && material == if id !in old(rows) then NotFound
                       else Ok(SecretMaterial(Chosen(given, random), Some(cipher.open(old(rows)[id].secret)),
                         GraceUntil(now, graceS)))
    {
      var until := GraceUntil(now, graceS);
      if until.None? {
        return NegativeGrace;
      }
      if id !in rows {
        return NotFound;
      }
      rows := rows[id := Rotated(rows[id], cipher.seal(Chosen(given, random)), until.value)];
      material := Ok(PgMaterial(cipher, rows[id]));
    }

    method GetSecret(id: Id) returns (material: Answer<SecretMaterial>)
      ensures material == PgSecret(cipher, rows, id)
    {
      material := if id in rows then Ok(PgMaterial(cipher, rows[id])) else NotFound;
    }

    method ForEvent(event: string, tenant: Option<string>) returns (found: set<Snapshot>)
      ensures found == set id | id in rows && Wants(rows[id], event, tenant) :: SnapshotOf(rows[id])
    {
      found := set id | id in rows && Wants(rows[id], event, tenant) :: SnapshotOf(rows[id]);
    }
  }

  function PgSecret(cipher: Cipher, rows: Rows, id: Id): Answer<SecretMaterial> {
    if id in rows then Ok(PgMaterial(cipher, rows[id])) else NotFound
  }

  // ---- Redis: a hash per subscription, a set per owner and per event ----------------------

  datatype RedisSubs = RedisSubs(subs: Rows, owners: map<string, set<Id>>, index: map<string, set<Id>>)

  const EMPTY := RedisSubs(map[], map[], map[])

  function Members(sets: map<string, set<Id>>, key: string): set<Id> {
    if key in sets then sets[key] else {}
  }

  function AddedTo(sets: map<string, set<Id>>, key: string, id: Id): map<string, set<Id>> {
    sets[key := Members(sets, key) + {id}]
  }

  function RemovedFrom(sets: map<string, set<Id>>, key: string, id: Id): map<string, set<Id>> {
    sets[key := Members(sets, key) - {id}]
  }

  function Added(sets: map<string, set<Id>>, keys: seq<string>, id: Id): map<string, set<Id>> {
    if keys == [] then sets else AddedTo(Added(sets, keys[..|keys| - 1], id), keys[|keys| - 1], id)
  }

  function Removed(sets: map<string, set<Id>>, keys: seq<string>, id: Id): map<string, set<Id>> {
    if keys == [] then sets else RemovedFrom(Removed(sets, keys[..|keys| - 1], id), keys[|keys| - 1], id)
  }

  // HSET writes the named fields only: a hash already there keeps its previous secret.
  function Written(subs: Rows, sub: Subscription): Subscription {
    if sub.id in subs then sub.(previous := subs[sub.id].previous, previousUntil := subs[sub.id].previousUntil) else sub
  }

  function RedisDo(s: RedisSubs, op: Op): RedisSubs {
    match op
    case Create(sub) =>
      RedisSubs(s.subs[sub.id := Written(s.subs, sub)], AddedTo(s.owners, sub.owner, sub.id),
        Added(s.index, sub.events, sub.id))
    case Delete(id) =>
      if id !in s.subs then s
      else RedisSubs(s.subs - {id}, RemovedFrom(s.owners, s.subs[id].owner, id),
        Removed(s.index, s.subs[id].events, id))
    case SetStatus(id, status) =>
      if id !in s.subs then s else s.(subs := s.subs[id := s.subs[id].(status := status)])
    case Rotate(id, secret, until) =>
      if id !in s.subs || s.subs[id].secret == "" then s
      else s.(subs := s.subs[id := Rotated(s.subs[id], secret, until)])
  }

  function NonEmpty(secret: Option<string>): Option<string> {
    if secret == Some("") then None else secret
  }

  function RedisSecret(subs: Rows, id: Id): Answer<SecretMaterial> {
    if id !in subs || subs[id].secret == "" then NotFound
    else Ok(SecretMaterial(subs[id].secret, NonEmpty(subs[id].previous), subs[id].previousUntil))
  }

  // What a lookup through the event set returns.
  function LookUp(s: RedisSubs, event: string, tenant: Option<string>): set<Id> {
    set id | id in Members(s.index, event) && id in s.subs && s.subs[id].status.Active?
             && (tenant.None? || s.subs[id].owner == tenant.value)
  }

  class RedisSubscriptionStore {
    var subs: Rows
    var owners: map<string, set<Id>>
    var index: map<string, set<Id>>

    constructor ()
      ensures State() == EMPTY
    {
      subs, owners, index := map[], map[], map[];
    }

    ghost function State(): RedisSubs
      reads this
    {
      RedisSubs(subs, owners, index)
    }

    method Create(id: Id, owner: string, url: string, ip: string, events: seq<string>, given: Option<string>,
        random: string, now: Time)
      returns (created: Subscription)
      modifies this
      ensures created == Subscription(id, owner, url, ip, Chosen(given, random), events, Active, now, None, None)
      ensures State() == RedisDo(old(State()), Op.Create(created))
    {
      created := Subscription(id, owner, url, ip, Chosen(given, random), events, Active, now, None, None);
      subs := subs[id := Written(subs, created)];
      owners := AddedTo(owners, owner, id);
      var k := 0;
      while k < |events|
        invariant 0 <= k <= |events|
        invariant index == Added(old(index), events[..k], id)
        modifies `index
      {
        assert events[..k + 1][..k] == events[..k];
        index := AddedTo(index, events[k], id);
        k := k + 1;
      }
      assert events[..k] == events;
    }

    method Delete(id: Id) returns (deleted: bool)
      modifies this
      ensures State() == RedisDo(old(State()), Op.Delete(id)) && deleted == (id in old(subs))
    {
      if id !in subs {
        return false;
      }
      var owner, events := subs[id].owner, subs[id].events;
      subs := subs - {id};
      owners := RemovedFrom(owners, owner, id);
      var k := 0;
      while k < |events|
        invariant 0 <= k <= |events|
        invariant index == Removed(old(index), events[..k], id)
        modifies `index
      {
        assert events[..k + 1][..k] == events[..k];
        index := RemovedFrom(index, events[k], id);
        k := k + 1;
      }
      assert events[..k] == events;
      deleted := true;
    }

    method ChangeStatus(id: Id, status: SubscriptionStatus) returns (existed: bool)
      modifies `subs
      ensures State() == RedisDo(old(State()), Op.SetStatus(id, status)) && existed == (id in old(subs))
    {
      existed := id in subs;
      if existed {
        subs := subs[id := subs[id].(status := status)];
      }
    }

    // The hash is read first, so a missing subscription is reported before a bad grace.
    method RotateSecret(id: Id, graceS: int, given: Option<string>, random: string,
        now: Time) returns (material: Answer<SecretMaterial>)
      modifies `subs
      ensures material.NegativeGrace? <==> RedisSecret(old(subs), id).Ok? && graceS < 0
      ensures material.NotFound? <==> RedisSecret(old(subs), id).NotFound?
      ensures material.Ok? ==>
        && material.value == SecretMaterial(Chosen(given, random), Some(old(subs)[id].secret), GraceUntil(now, graceS))
        && State() == RedisDo(old(State()), Op.Rotate(id, Chosen(given, random), now + Span(graceS)))
      ensures !material.Ok? ==> State() == old(State())
    {
      if id !in subs || subs[id].secret == "" {
        return NotFound;
      }
      var until := GraceUntil(now, graceS);
      if until.None? {
        return NegativeGrace;
      }
      var former := subs[id].secret;
      subs := subs[id := Rotated(subs[id], Chosen(given, random), until.value)];
      material := Ok(SecretMaterial(Chosen(given, random), Some(former), until));
    }

    method GetSecret(id: Id) returns (material: Answer<SecretMaterial>)
      ensures material == RedisSecret(subs, id)
    {
      if id !in subs || subs[id].secret == "" {
        return NotFound;
      }
      material := Ok(SecretMaterial(subs[id].secret, NonEmpty(subs[id].previous), subs[id].previousUntil));
    }

    // One snapshot per listed subscription, in the order the set was read.
    method ForEvent(event: string, tenant: Option<string>) returns (found: seq<Snapshot>, ids: seq<Id>)
      ensures Distinct(ids) && Elements(ids) == LookUp(State(), event, tenant)
      ensures |found| == |ids| && forall k :: 0 <= k < |ids| ==> ids[k] in subs && found[k] == SnapshotOf(subs[ids[k]])
    {
      var todo := Members(index, event);
      found, ids := [], [];
      while todo != {}
        invariant todo <= Members(index, event)
        invariant Distinct(ids) && forall id :: id in ids <==> id in LookUp(State(), event, tenant) && id !in todo
        invariant |found| == |ids| && forall k :: 0 <= k < |ids| ==>
          ids[k] in subs && found[k] == SnapshotOf(subs[ids[k]])
        decreases |todo|
      {
        var id :| id in todo;
        todo := todo - {id};
        if id in subs && subs[id].status.Active? && (tenant.None? || subs[id].owner == tenant.value) {
          found, ids := found + [SnapshotOf(subs[id])], ids + [id];
        }
      }
    }
  }

  // ---- What later reads find -----------------------------------------------------------------

  // An empty secret counts as none given; a grace is seconds from now, and never negative.
  lemma EmptyCountsAsNone(given: Option<string>, random: string)
    ensures given.Some? && given.value != "" ==> Chosen(given, random) == given.value
    ensures given == None || given == Some("") ==> Chosen(given, random) == random
  {
  }

  lemma GraceIsInSeconds(now: Time, graceS: int)
    ensures GraceUntil(now, graceS) == if graceS >= 0 then Some(now + graceS * 1_000_000) else None
  {
  }

  // Who gets an event: the active subscriptions that list it, of the tenant if one is named.
  ghost predicate IsFor(status: SubscriptionStatus, sub: Subscription, event: string, tenant: Option<string>) {
    status == Active && event in sub.events && (tenant == None || tenant == Some(sub.owner))
  }

  lemma FanOutSees(rows: Rows, event: string, tenant: Option<string>, id: Id)
    ensures id in Matching(rows, event, tenant) <==> id in rows && IsFor(rows[id].status, rows[id], event, tenant)
    ensures id in rows ==>
      var sub, seen := rows[id], SnapshotOf(rows[id]);
      seen.id == sub.id && seen.owner == sub.owner && seen.url == sub.url && seen.resolvedIp == sub.resolvedIp
  {
  }

  // After any operation the table's lookup finds a subscription exactly if it should.
  lemma MatchesAfter(cipher: Cipher, rows: Rows, op: Op, event: string, tenant: Option<string>, id: Id)
    ensures
      var before := id in Matching(rows, event, tenant);
      id in Matching(PgDo(rows, Sealed(cipher, op)), event, tenant) <==>
        match op
        case Create(sub) => if sub.id == id && id !in rows then IsFor(sub.status, sub, event, tenant) else before
        case Delete(x) => x != id && before
        case SetStatus(x, status) =>
          if x == id then id in rows && IsFor(status, rows[id], event, tenant) else before
        case Rotate(_, _, _) => before
  {
  }

  // ... and its secrets read as they were given, the one before a rotation as the previous.
  lemma SecretAfter(cipher: Cipher, rows: Rows, op: Op, id: Id)
    requires Faithful(cipher)
    ensures
      var before := PgSecret(cipher, rows, id);
      PgSecret(cipher, PgDo(rows, Sealed(cipher, op)), id) ==
        match op
        case Create(sub) =>
          if sub.id == id && id !in rows
          then Ok(SecretMaterial(sub.secret, Opened(cipher, sub.previous), sub.previousUntil)) else before
        case Delete(x) => if x == id then NotFound else before
        case SetStatus(_, _) => before
        case Rotate(x, secret, until) =>
          if x == id && before.Ok? then Ok(SecretMaterial(secret, Some(before.value.current), Some(until))) else before
  {
  }

  // Nothing but the status and the secrets of a subscription ever changes.
  lemma SubscriptionsKeepTheRest(cipher: Cipher, rows: Rows, op: Op, id: Id)
    requires id in rows && id in PgDo(rows, Sealed(cipher, op))
    ensures
      var was, now := rows[id], PgDo(rows, Sealed(cipher, op))[id];
      now == was.(status := now.status, secret := now.secret, previous := now.previous,
                  previousUntil := now.previousUntil)
  {
  }

  // On Redis a hash with an empty secret is as good as none: it reads as missing, and a
  // rotation leaves it alone.
  lemma EmptySecretIsMissing(s: RedisSubs, id: Id, secret: string, until: Time)
    ensures RedisSecret(s.subs, id) == NotFound <==> (id in s.subs ==> s.subs[id].secret == "")
    ensures RedisSecret(s.subs, id) == NotFound ==> RedisDo(s, Rotate(id, secret, until)) == s
  {
  }

  // On Redis a subscription written over a taken id keeps the previous secret it finds
  // there; an empty one, as a hash may hold, counts as none.
  lemma RewriteKeepsPrevious(s: RedisSubs, sub: Subscription)
    requires sub.id in s.subs && sub.secret != ""
    ensures
      var former := s.subs[sub.id];
      var previous := if former.previous == Some("") then None else former.previous;
      RedisSecret(RedisDo(s, Op.Create(sub)).subs, sub.id)
      == Ok(SecretMaterial(sub.secret, previous, former.previousUntil))
  {
  }

  // ---- The indexes are the hashes, turned around ------------------------------------------

  ghost predicate IndexHolds(s: RedisSubs) {
    && (forall event, id :: id in Members(s.index, event) <==> id in s.subs && event in s.subs[id].events)
    && (forall owner, id :: id in Members(s.owners, owner) <==> id in s.subs && s.subs[id].owner == owner)
  }

  lemma {:induction false} AddedMembers(sets: map<string, set<Id>>, keys: seq<string>, id: Id, key: string)
    ensures Members(Added(sets, keys, id), key) == Members(sets, key) + if key in keys then {id} else {}
  {
    if keys != [] {
      AddedMembers(sets, keys[..|keys| - 1], id, key);
      assert keys == keys[..|keys| - 1] + [keys[|keys| - 1]];
    }
  }

  lemma {:induction false} RemovedMembers(sets: map<string, set<Id>>, keys: seq<string>, id: Id, key: string)
    ensures Members(Removed(sets, keys, id), key) == Members(sets, key) - if key in keys then {id} else {}
  {
    if keys != [] {
      RemovedMembers(sets, keys[..|keys| - 1], id, key);
      assert keys == keys[..|keys| - 1] + [keys[|keys| - 1]];
    }
  }

  // Writing a subscription over a taken id strands it in the sets of its former life.
  ghost predicate Strands(s: RedisSubs, op: Op) {
    && op.Create? && op.sub.id in s.subs
    && (s.subs[op.sub.id].owner != op.sub.owner
      || exists event :: event in s.subs[op.sub.id].events && event !in op.sub.events)
  }

  lemma CreateIndexed(s: RedisSubs, sub: Subscription)
    requires IndexHolds(s)
    ensures IndexHolds(RedisDo(s, Create(sub))) <==> !Strands(s, Create(sub))
  {
    var s' := RedisDo(s, Create(sub));
    forall event ensures Members(s'.index, event) == Members(s.index, event) +
      if event in sub.events then {sub.id} else {} {
      AddedMembers(s.index, sub.events, sub.id, event);
    }
    forall owner ensures Members(s'.owners, owner) == Members(s.owners, owner) +
      if owner == sub.owner then {sub.id} else {} {
    }
    assert s'.subs[sub.id].events == sub.events && s'.subs[sub.id].owner == sub.owner;
    if Strands(s, Create(sub)) {
      StrandedIsSeen(s, sub, s');
    } else {
      forall owner, id ensures id in Members(s'.owners, owner) <==> id in s'.subs && s'.subs[id].owner == owner {
      }
    }
  }

  lemma StrandedIsSeen(s: RedisSubs, sub: Subscription, s': RedisSubs)
    requires IndexHolds(s) && Strands(s, Create(sub))
    requires forall event :: Members(s.index, event) <= Members(s'.index, event)
    requires forall owner :: Members(s.owners, owner) <= Members(s'.owners, owner)
    requires sub.id in s'.subs && s'.subs[sub.id].events == sub.events && s'.subs[sub.id].owner == sub.owner
    ensures !IndexHolds(s')
  {
    var former := s.subs[sub.id];
    if former.owner != sub.owner {
      assert sub.id in Members(s.owners, former.owner);
      assert sub.id in Members(s'.owners, former.owner);
    } else {
      var event :| event in former.events && event !in sub.events;
      assert sub.id in Members(s.index, event);
      assert sub.id in Members(s'.index, event);
    }
  }

  lemma DeleteIndexed(s: RedisSubs, id: Id)
    requires IndexHolds(s) && id in s.subs
    ensures IndexHolds(RedisDo(s, Delete(id)))
  {
    var s' := RedisDo(s, Delete(id));
    var gone := s.subs[id];
    forall event ensures Members(s'.index, event) == Members(s.index, event) -
      if event in gone.events then {id} else {} {
      RemovedMembers(s.index, gone.events, id, event);
    }
    forall owner, x ensures x in Members(s'.owners, owner) <==> x in s'.subs && s'.subs[x].owner == owner {
      assert Members(s'.owners, owner) == Members(s.owners, owner) - if owner == gone.owner then {id} else {};
    }
  }

  // Every operation keeps the indexes, but for a create over a taken id that drops an
  // event or changes the owner.
  lemma IndexIsKept(s: RedisSubs, op: Op)
    requires IndexHolds(s)
    ensures IndexHolds(RedisDo(s, op)) <==> !Strands(s, op)
  {
    match op
    case Create(sub) => CreateIndexed(s, sub);
    case Delete(id) => if id in s.subs { DeleteIndexed(s, id); }
    case SetStatus(id, status) =>
    case Rotate(id, secret, until) =>
  }

  // ---- Runs of both stores -----------------------------------------------------------------

  ghost predicate Fresh(rows: Rows, op: Op) {
    && (op.Create? ==> op.sub.id !in rows && op.sub.secret != "" && op.sub.previous.None? && op.sub.previousUntil.None?)
    && (op.Rotate? ==> op.secret != "")
  }

  function RedisAfter(ops: seq<Op>): RedisSubs {
    if ops == [] then EMPTY else RedisDo(RedisAfter(ops[..|ops| - 1]), ops[|ops| - 1])
  }

  function PgAfter(cipher: Cipher, ops: seq<Op>): Rows {
    if ops == [] then map[] else PgDo(PgAfter(cipher, ops[..|ops| - 1]), Sealed(cipher, ops[|ops| - 1]))
  }

  // A run mints a fresh id for each subscription and never an empty secret.
  ghost predicate FreshRun(ops: seq<Op>) {
    ops == [] || (FreshRun(ops[..|ops| - 1]) && Fresh(RedisAfter(ops[..|ops| - 1]).subs, ops[|ops| - 1]))
  }

  // After any run, a lookup through the event set is the full scan, and an owner's set
  // is that owner's subscriptions.
  lemma {:induction false} IndexEqualsScan(ops: seq<Op>, event: string, tenant: Option<string>)
    requires FreshRun(ops)
    ensures IndexHolds(RedisAfter(ops))
    ensures LookUp(RedisAfter(ops), event, tenant) == Matching(RedisAfter(ops).subs, event, tenant)
  {
    if ops != [] {
      IndexEqualsScan(ops[..|ops| - 1], event, tenant);
      IndexIsKept(RedisAfter(ops[..|ops| - 1]), ops[|ops| - 1]);
    }
  }

  function Unsealed(cipher: Cipher, sub: Subscription): Subscription {
    sub.(secret := cipher.open(sub.secret), previous := Opened(cipher, sub.previous))
  }

  ghost predicate SameRow(cipher: Cipher, row: Subscription, sub: Subscription) {
    Unsealed(cipher, row) == sub && sub.secret != "" && sub.previous != Some("")
  }

  ghost predicate SameRows(cipher: Cipher, rows: Rows, subs: Rows) {
    rows.Keys == subs.Keys && forall id :: id in rows ==> SameRow(cipher, rows[id], subs[id])
  }

  lemma StepKeepsSameRows(cipher: Cipher, rows: Rows, s: RedisSubs, op: Op)
    requires Faithful(cipher) && SameRows(cipher, rows, s.subs) && Fresh(s.subs, op)
    ensures SameRows(cipher, PgDo(rows, Sealed(cipher, op)), RedisDo(s, op).subs)
  {
    var rows', subs' := PgDo(rows, Sealed(cipher, op)), RedisDo(s, op).subs;
    forall id | id in rows' ensures id in subs' && SameRow(cipher, rows'[id], subs'[id]) {
      if id in rows {
        assert SameRow(cipher, rows[id], s.subs[id]);
      }
    }
  }

  // The two stores answer alike after the same run: the same subscriptions match every
  // event and tenant, and every secret reads the same, sealed in one and plain in the other.
  lemma {:induction false} StoresAgree(cipher: Cipher, ops: seq<Op>, event: string, tenant: Option<string>, id: Id)
    requires Faithful(cipher) && FreshRun(ops)
    ensures SameRows(cipher, PgAfter(cipher, ops), RedisAfter(ops).subs)
    ensures Matching(PgAfter(cipher, ops), event, tenant) == LookUp(RedisAfter(ops), event, tenant)
    ensures PgSecret(cipher, PgAfter(cipher, ops), id) == RedisSecret(RedisAfter(ops).subs, id)
  {
    IndexEqualsScan(ops, event, tenant);
    if ops != [] {
      var front := ops[..|ops| - 1];
      StoresAgree(cipher, front, event, tenant, id);
      StepKeepsSameRows(cipher, PgAfter(cipher, front), RedisAfter(front), ops[|ops| - 1]);
    }
    SameRowsMatch(cipher, PgAfter(cipher, ops), RedisAfter(ops).subs, event, tenant);
  }

  lemma SameRowsMatch(cipher: Cipher, rows: Rows, subs: Rows, event: string, tenant: Option<string>)
    requires SameRows(cipher, rows, subs)
    ensures Matching(rows, event, tenant) == Matching(subs, event, tenant)
  {
    forall id | id in rows ensures Wants(rows[id], event, tenant) == Wants(subs[id], event, tenant) {
      assert SameRow(cipher, rows[id], subs[id]);
    }
  }
}
