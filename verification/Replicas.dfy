// Any number of engine replicas over one Postgres table: claims, reclaims, marks,
// quarantines and crashes interleaved in any order under one clock.
module Replicas {
  import opened Delivery
  import opened RowTable

  // `maxAttempts` is per delivery profile, as the retry configuration is.
  datatype Limits = Limits(maxAttempts: string -> int, maxUnhandled: int)

  // One claimed row in some replica's hands.  `appended` marks a quarantine that has
  // logged its attempt and may still dead-letter; `revoked` that a reclaim has given
  // the row away since.
  datatype Holder = Holder(record: Record, expiry: Time, appended: bool, revoked: bool) {
    function Number(): int { record.attempts + 1 }
  }

  // `base` is what `attempts` was on insertion, `processed` counts claims whose
  // outcome landed, `unburied` quarantines at their limit whose mark_dead has not.
  datatype World = World(
    table: Table,
    now: Time,
    holders: map<nat, Holder>,
    next: nat,
    base: map<Id, int>,
    processed: map<Id, nat>,
    unburied: map<Id, nat>)

  datatype Outcome = Delivered | RetryAt(fireAt: Time) | Exhausted

  datatype Action =
    | Produce(record: Record)
    | Advance(to: Time)
    | Take(at: Time, ttl: nat, id: Id)
    | GiveBack(at: Time)
    | Land(h: nat, outcome: Outcome)
    | Quarantine(h: nat)
    | Bury(h: nat)
    | Drop(h: nat)

  function Count(m: map<Id, nat>, id: Id): nat {
    if id in m then m[id] else 0
  }

  predicate Acts(a: Action) {
    a.Land? || a.Quarantine? || a.Bury?
  }

  // What the code itself guarantees of a step; the clock was read no later than now.
  // A drop is a crash, a cancelled task, a mark that raised, or a quarantine's end.
  ghost predicate Possible(limits: Limits, w: World, a: Action) {
    match a
    case Produce(_) => true
    case Advance(to) => w.now <= to
    case Take(at, _, id) => at <= w.now && id in w.table && IsDue(w.table[id], at)
    case GiveBack(at) => at <= w.now
    case Land(h, outcome) =>
      && h in w.holders && !w.holders[h].appended
      && (outcome.RetryAt? ==> w.holders[h].Number() < limits.maxAttempts(w.holders[h].record.profile))
    case Quarantine(h) => h in w.holders && !w.holders[h].appended
    case Bury(h) => h in w.holders && w.holders[h].appended && w.holders[h].Number() >= limits.maxUnhandled
    case Drop(h) => h in w.holders
  }

  function LandOp(r: Record, outcome: Outcome): Op {
    match outcome
    case Delivered => SetSent(r.deliveryId, r.attempts + 1)
    case RetryAt(fireAt) => SetRetry(r.deliveryId, fireAt, r.attempts + 1)
    case Exhausted => SetDead(r.deliveryId, r.attempts + 1)
  }

  function Revoke(w: World, at: Time): map<nat, Holder> {
    map h | h in w.holders ::
      var id := w.holders[h].record.deliveryId;
      if id in w.table && IsStale(w.table[id], at) then w.holders[h].(revoked := true) else w.holders[h]
  }

  ghost function Next(limits: Limits, w: World, a: Action): World
    requires Possible(limits, w, a)
  {
    match a
    case Produce(r) =>
      if r.deliveryId in w.table then w
      else w.(table := Do(w.table, Insert(r.(status := Pending))), base := w.base[r.deliveryId := r.attempts])
    case Advance(to) => w.(now := to)
    case Take(at, ttl, id) =>
      var expiry := at + Span(ttl);
      w.(table := Do(w.table, Lease({id}, at, expiry)),
         holders := w.holders[w.next := Holder(w.table[id].record.(status := InFlight), expiry, false, false)],
         next := w.next + 1)
    case GiveBack(at) => w.(table := Do(w.table, Release(at)), holders := Revoke(w, at))
    case Land(h, outcome) =>
      var r := w.holders[h].record;
      w.(table := Do(w.table, LandOp(r, outcome)), holders := w.holders - {h},
         processed := w.processed[r.deliveryId := Count(w.processed, r.deliveryId) + 1])
    case Quarantine(h) =>
      var x := w.holders[h];
      var id := x.record.deliveryId;
      w.(table := Do(w.table, SetAttempts(id, x.Number())),
         holders := w.holders[h := x.(appended := true)],
         processed := w.processed[id := Count(w.processed, id) + 1],
         unburied := if x.Number() >= limits.maxUnhandled then w.unburied[id := Count(w.unburied, id) + 1]
           else w.unburied)
    case Bury(h) =>
      var x := w.holders[h];
      var id := x.record.deliveryId;
      var open := Count(w.unburied, id);
      w.(table := Do(w.table, SetDead(id, x.Number())), holders := w.holders - {h},
         unburied := w.unburied[id := if open > 0 then open - 1 else 0])
    case Drop(h) => w.(holders := w.holders - {h})
  }

  // ---- The invariant --------------------------------------------------------------

  function Bound(limits: Limits, profile: string): int {
    var m := if limits.maxAttempts(profile) < limits.maxUnhandled then limits.maxUnhandled
      else limits.maxAttempts(profile);
    if m < 1 then 1 else m
  }

  ghost predicate HoldsItsRow(t: Table, x: Holder) {
    var id := x.record.deliveryId;
    && id in t
    && t[id].record.status.InFlight? && t[id].lease == Some(x.expiry)
    && t[id].record.attempts == x.record.attempts + (if x.appended then 1 else 0)
    && t[id].record.profile == x.record.profile
  }

  ghost predicate BothOwn(x: Holder, y: Holder) {
    !x.revoked && !y.revoked && x.record.deliveryId == y.record.deliveryId
  }

  ghost predicate LeaseIsOwned(w: World) {
    && (forall h :: h in w.holders ==> h < w.next)
    && (forall h :: h in w.holders && !w.holders[h].revoked ==> HoldsItsRow(w.table, w.holders[h]))
    && (forall g, h :: g in w.holders && h in w.holders && BothOwn(w.holders[g], w.holders[h]) ==> g == h)
  }

  ghost predicate RowIsCounted(limits: Limits, w: World, id: Id)
    requires id in w.table
  {
    var r := w.table[id].record;
    && r.deliveryId == id && id in w.base
    && r.attempts == w.base[id] + Count(w.processed, id)
    && (w.base[id] < Bound(limits, r.profile) && !r.status.Terminal() ==>
      r.attempts < Bound(limits, r.profile) + Count(w.unburied, id))
  }

  ghost predicate Inv(limits: Limits, w: World) {
    && LeaseIsOwned(w)
    && (forall id :: id in w.table ==> RowIsCounted(limits, w, id))
    && (forall id :: id in w.processed ==> id in w.table)
  }

  // The one thing the safety results ask of a run: nobody acts on a row that has been
  // taken away from them.
  ghost predicate ByItsHolder(w: World, a: Action) {
    Acts(a) ==> a.h in w.holders && !w.holders[a.h].revoked
  }

  // What one step may do to a row that exists.
  ghost predicate RowIsSafe(w: World, w': World, id: Id)
    requires id in w.table
  {
    && id in w'.table
    && (w.table[id].record.status.Terminal() ==> w'.table[id] == w.table[id])
    && w'.table[id].record.attempts - w.table[id].record.attempts == Count(w'.processed, id) - Count(w.processed, id)
    && 0 <= Count(w'.processed, id) - Count(w.processed, id) <= 1
  }

  ghost predicate StepIsSafe(limits: Limits, w: World, a: Action)
    requires Possible(limits, w, a)
  {
    var w' := Next(limits, w, a);
    && Inv(limits, w')
    && (forall id :: id in w.table ==> RowIsSafe(w, w', id))
    && (Acts(a) ==>
         var id := w.holders[a.h].record.deliveryId;
         id in w.table && w.table[id].record.status.InFlight? && w.table[id].lease == Some(w.holders[a.h].expiry))
  }

  // A claim puts the row in flight and in one new pair of hands, both until the same time,
  // counted in seconds from the claim.
  lemma TakeLeases(limits: Limits, w: World, at: Time, ttl: nat, id: Id)
    requires Possible(limits, w, Take(at, ttl, id))
    ensures
      var w' := Next(limits, w, Take(at, ttl, id));
      && id in w'.table && w'.table[id].record.status == InFlight
      && w'.table[id].lease == Some(at + ttl * 1_000_000)
      && w.next in w'.holders
      && w'.holders[w.next] == Holder(w'.table[id].record, at + ttl * 1_000_000, false, false)
  {
  }

  // A landing rewrites its own row only: finished or due again, with the next number.
  lemma LandingWrites(t: Table, r: Record, outcome: Outcome)
    requires r.deliveryId in t
    ensures
      var t', id := Do(t, LandOp(r, outcome)), r.deliveryId;
      && t'.Keys == t.Keys
      && (forall other :: other in t && other != id ==> t'[other] == t[other])
      && t'[id].record.attempts == r.attempts + 1
      && t'[id].record.deliveryId == t[id].record.deliveryId && t'[id].record.profile == t[id].record.profile
      && t'[id].record.status == (match outcome
           case Delivered => Sent
           case RetryAt(_) => FailedRetry
           case Exhausted => DeadLettered)
      && t'[id].record.fireAt == (if outcome.RetryAt? then outcome.fireAt else t[id].record.fireAt)
  {
  }

  // A mark changes the row it names and no other.
  lemma MarkChangesOneRow(limits: Limits, w: World, a: Action, id: Id)
    requires Inv(limits, w) && Possible(limits, w, a) && ByItsHolder(w, a) && Acts(a)
    requires id in w.table && id != w.holders[a.h].record.deliveryId
    ensures id in Next(limits, w, a).table && Next(limits, w, a).table[id] == w.table[id]
    ensures Count(Next(limits, w, a).processed, id) == Count(w.processed, id)
    ensures Count(Next(limits, w, a).unburied, id) == Count(w.unburied, id)
  {
    if a.Land? {
      assert HoldsItsRow(w.table, w.holders[a.h]);
      LandingWrites(w.table, w.holders[a.h].record, a.outcome);
    }
  }

  lemma HolderIsKeptByMark(limits: Limits, w: World, a: Action, h: nat)
    requires Inv(limits, w) && Possible(limits, w, a) && ByItsHolder(w, a) && Acts(a)
    requires h in Next(limits, w, a).holders && !Next(limits, w, a).holders[h].revoked
    ensures HoldsItsRow(Next(limits, w, a).table, Next(limits, w, a).holders[h])
  {
    var x, y := w.holders[h], w.holders[a.h];
    assert HoldsItsRow(w.table, x) && HoldsItsRow(w.table, y);
    assert BothOwn(x, y) ==> h == a.h;
    if h != a.h {
      MarkChangesOneRow(limits, w, a, w.holders[h].record.deliveryId);
    }
  }

  // Whoever holds a row that was not taken away from them still does after the step.
  lemma HolderIsKept(limits: Limits, w: World, a: Action, h: nat)
    requires Inv(limits, w) && Possible(limits, w, a) && ByItsHolder(w, a)
    requires h in Next(limits, w, a).holders && !Next(limits, w, a).holders[h].revoked
    ensures HoldsItsRow(Next(limits, w, a).table, Next(limits, w, a).holders[h])
  {
    if Acts(a) {
      HolderIsKeptByMark(limits, w, a, h);
    } else if h in w.holders {
      assert HoldsItsRow(w.table, w.holders[h]);
      HolderIsKeptUnmarked(limits, w, a, h);
    }
  }

  lemma HolderIsKeptUnmarked(limits: Limits, w: World, a: Action, h: nat)
    requires Possible(limits, w, a) && !Acts(a) && h in w.holders && h < w.next && HoldsItsRow(w.table, w.holders[h])
    requires h in Next(limits, w, a).holders && !Next(limits, w, a).holders[h].revoked
    ensures HoldsItsRow(Next(limits, w, a).table, Next(limits, w, a).holders[h])
  {
  }

  lemma OwnersAreKept(limits: Limits, w: World, a: Action)
    requires Inv(limits, w) && Possible(limits, w, a) && ByItsHolder(w, a)
    ensures LeaseIsOwned(Next(limits, w, a))
  {
    var w' := Next(limits, w, a);
    forall h | h in w'.holders && !w'.holders[h].revoked ensures HoldsItsRow(w'.table, w'.holders[h]) {
      HolderIsKept(limits, w, a, h);
    }
    forall g, h | g in w'.holders && h in w'.holders && BothOwn(w'.holders[g], w'.holders[h]) ensures g == h {
      OwnersStaySingle(limits, w, a, g, h);
    }
  }

  lemma OwnersStaySingle(limits: Limits, w: World, a: Action, g: nat, h: nat)
    requires Inv(limits, w) && Possible(limits, w, a)
    requires var w' := Next(limits, w, a); g in w'.holders && h in w'.holders && BothOwn(w'.holders[g], w'.holders[h])
    ensures g == h
  {
    assert g in w.holders && !w.holders[g].revoked ==> HoldsItsRow(w.table, w.holders[g]);
    assert h in w.holders && !w.holders[h].revoked ==> HoldsItsRow(w.table, w.holders[h]);
    assert g in w.holders && h in w.holders ==> (BothOwn(w.holders[g], w.holders[h]) ==> g == h);
  }

  lemma RowIsKeptByItsMark(limits: Limits, w: World, a: Action)
    requires Inv(limits, w) && Possible(limits, w, a) && ByItsHolder(w, a) && Acts(a)
    ensures var id := w.holders[a.h].record.deliveryId;
      && id in w.table && id in Next(limits, w, a).table
      && RowIsCounted(limits, Next(limits, w, a), id) && RowIsSafe(w, Next(limits, w, a), id)
  {
    var x := w.holders[a.h];
    assert HoldsItsRow(w.table, x) && RowIsCounted(limits, w, x.record.deliveryId);
    if a.Land? {
      LandingWrites(w.table, x.record, a.outcome);
    }
  }

  // A row is only changed through its holder, and then counted once.
  lemma RowIsKept(limits: Limits, w: World, a: Action, id: Id)
    requires Inv(limits, w) && Possible(limits, w, a) && ByItsHolder(w, a) && id in w.table
    ensures id in Next(limits, w, a).table
    ensures RowIsCounted(limits, Next(limits, w, a), id) && RowIsSafe(w, Next(limits, w, a), id)
  {
    assert RowIsCounted(limits, w, id);
    if !Acts(a) {
      RowIsKeptUnmarked(limits, w, a, id);
    } else if id == w.holders[a.h].record.deliveryId {
      RowIsKeptByItsMark(limits, w, a);
    } else {
      MarkChangesOneRow(limits, w, a, id);
    }
  }

  lemma RowIsKeptUnmarked(limits: Limits, w: World, a: Action, id: Id)
    requires Possible(limits, w, a) && !Acts(a) && id in w.table && RowIsCounted(limits, w, id)
    ensures id in Next(limits, w, a).table
    ensures RowIsCounted(limits, Next(limits, w, a), id) && RowIsSafe(w, Next(limits, w, a), id)
  {
  }

  lemma EveryStepIsSafe(limits: Limits, w: World, a: Action)
    requires Inv(limits, w) && Possible(limits, w, a) && ByItsHolder(w, a)
    ensures StepIsSafe(limits, w, a)
  {
    var w' := Next(limits, w, a);
    OwnersAreKept(limits, w, a);
    forall id | id in w.table ensures id in w'.table && RowIsCounted(limits, w', id) && RowIsSafe(w, w', id) {
      RowIsKept(limits, w, a, id);
    }
    forall id | id in w'.table && id !in w.table ensures RowIsCounted(limits, w', id) {
      ProducedIsCounted(limits, w, a, id);
    }
    if Acts(a) {
      assert HoldsItsRow(w.table, w.holders[a.h]);
    }
  }

  lemma ProducedIsCounted(limits: Limits, w: World, a: Action, id: Id)
    requires Inv(limits, w) && Possible(limits, w, a) && id in Next(limits, w, a).table && id !in w.table
    ensures RowIsCounted(limits, Next(limits, w, a), id)
  {
    assert a.Produce? && id == a.record.deliveryId;
  }

  // ---- Whole runs -------------------------------------------------------------------

  ghost predicate Run(limits: Limits, ws: seq<World>, acts: seq<Action>) {
    && |ws| == |acts| + 1
    && ws[0].table == map[] && ws[0].holders == map[]
    && ws[0].base == map[] && ws[0].processed == map[] && ws[0].unburied == map[]
    && forall k :: 0 <= k < |acts| ==> Possible(limits, ws[k], acts[k]) && ws[k + 1] == Next(limits, ws[k], acts[k])
  }

  ghost predicate Disciplined(ws: seq<World>, acts: seq<Action>)
    requires |ws| == |acts| + 1
  {
    forall k :: 0 <= k < |acts| ==> ByItsHolder(ws[k], acts[k])
  }

  // An outcome is written at most `late` after the lease it was claimed under.
  ghost predicate ActsBy(w: World, a: Action, late: int) {
    Acts(a) ==> a.h in w.holders && w.now <= w.holders[a.h].expiry + late
  }

  ghost predicate LateBy(ws: seq<World>, acts: seq<Action>, late: int)
    requires |ws| == |acts| + 1
  {
    forall k :: 0 <= k < |acts| ==> ActsBy(ws[k], acts[k], late)
  }

  // Many replicas, each acting on a row no later than its lease's end.
  ghost predicate Timely(ws: seq<World>, acts: seq<Action>)
    requires |ws| == |acts| + 1
  {
    LateBy(ws, acts, 0)
  }

  // One replica: a tick reclaims only once the previous tick's gather has returned,
  // however far a send has overrun its lease by then.
  ghost predicate OneReplica(limits: Limits, ws: seq<World>, acts: seq<Action>)
    requires Run(limits, ws, acts)
  {
    forall k :: 0 <= k < |acts| && acts[k].GiveBack? ==> ws[k].holders == map[]
  }

  ghost predicate RevokedAreLate(w: World) {
    forall h :: h in w.holders && w.holders[h].revoked ==> w.holders[h].expiry < w.now
  }

  // As long as nobody acted on a row taken from them, a reclaim takes a row away only
  // after its holder's lease has run out.
  lemma ReclaimOnlyRevokesTheLate(limits: Limits, w: World, a: Action)
    requires Inv(limits, w) && RevokedAreLate(w) && Possible(limits, w, a)
    ensures RevokedAreLate(Next(limits, w, a))
  {
    if a.GiveBack? {
      forall h | h in w.holders && !w.holders[h].revoked && Next(limits, w, a).holders[h].revoked
        ensures w.holders[h].expiry < w.now
      {
        assert HoldsItsRow(w.table, w.holders[h]);
      }
    }
  }

  // Timely replicas never act on a row they have lost, and every state is sound.
  lemma {:induction false} TimelyReplicasAreDisciplined(limits: Limits, ws: seq<World>, acts: seq<Action>, k: nat)
    requires Run(limits, ws, acts) && Timely(ws, acts)
    requires k <= |acts|
    ensures Inv(limits, ws[k]) && RevokedAreLate(ws[k])
    ensures k < |acts| ==> ByItsHolder(ws[k], acts[k])
  {
    if k < |acts| {
      assert ActsBy(ws[k], acts[k], 0);
    }
    if k > 0 {
      TimelyReplicasAreDisciplined(limits, ws, acts, k - 1);
      EveryStepIsSafe(limits, ws[k - 1], acts[k - 1]);
      ReclaimOnlyRevokesTheLate(limits, ws[k - 1], acts[k - 1]);
    }
  }

  // A single replica never does either, even when its sends outlive their leases.
  lemma {:induction false} OneReplicaIsDisciplined(limits: Limits, ws: seq<World>, acts: seq<Action>, k: nat)
    requires Run(limits, ws, acts) && OneReplica(limits, ws, acts)
    requires k <= |acts|
    ensures forall h :: h in ws[k].holders ==> !ws[k].holders[h].revoked
    ensures k < |acts| ==> ByItsHolder(ws[k], acts[k])
  {
    if k > 0 {
      OneReplicaIsDisciplined(limits, ws, acts, k - 1);
    }
  }

  lemma {:induction false} DisciplinedRunsStaySound(limits: Limits, ws: seq<World>, acts: seq<Action>, k: nat)
    requires Run(limits, ws, acts) && Disciplined(ws, acts)
    requires k <= |acts|
    ensures Inv(limits, ws[k])
    ensures k < |acts| ==> StepIsSafe(limits, ws[k], acts[k])
  {
    if k > 0 {
      DisciplinedRunsStaySound(limits, ws, acts, k - 1);
    }
    if k < |acts| {
      EveryStepIsSafe(limits, ws[k], acts[k]);
    }
  }

  lemma SafeStepKeepsFinished(limits: Limits, w: World, a: Action, id: Id)
    requires Possible(limits, w, a) && StepIsSafe(limits, w, a)
    requires id in w.table && w.table[id].record.status.Terminal()
    ensures id in Next(limits, w, a).table && Next(limits, w, a).table[id] == w.table[id]
  {
    assert RowIsSafe(w, Next(limits, w, a), id);
  }

  // A finished row never changes again.
  lemma {:induction false} FinishedRowsNeverChange(limits: Limits, ws: seq<World>, acts: seq<Action>, i: nat, j: nat,
      id: Id)
    requires Run(limits, ws, acts) && Disciplined(ws, acts)
    requires i <= j <= |acts|
    requires id in ws[i].table && ws[i].table[id].record.status.Terminal()
    ensures id in ws[j].table && ws[j].table[id] == ws[i].table[id]
    decreases j
  {
    if i < j {
      FinishedRowsNeverChange(limits, ws, acts, i, j - 1, id);
      DisciplinedRunsStaySound(limits, ws, acts, j - 1);
      SafeStepKeepsFinished(limits, ws[j - 1], acts[j - 1], id);
    }
  }

  // Two workers never both own an in-flight row.
  lemma OneOwnerPerRow(limits: Limits, ws: seq<World>, acts: seq<Action>, k: nat, g: nat, h: nat)
    requires Run(limits, ws, acts) && Disciplined(ws, acts)
    requires k <= |acts| && g in ws[k].holders && h in ws[k].holders
    requires BothOwn(ws[k].holders[g], ws[k].holders[h])
    ensures g == h
  {
    DisciplinedRunsStaySound(limits, ws, acts, k);
  }

  // `attempts` is the number of claims of the row whose outcome landed, and a row
  // inserted with no attempts is finished once that number reaches the larger of the
  // two limits -- plus one for every quarantine whose dead-letter never landed.
  lemma LifeIsBounded(limits: Limits, ws: seq<World>, acts: seq<Action>, k: nat, id: Id)
    requires Run(limits, ws, acts) && Disciplined(ws, acts)
    requires k <= |acts| && id in ws[k].table
    ensures id in ws[k].base
    ensures ws[k].table[id].record.attempts == ws[k].base[id] + Count(ws[k].processed, id)
    ensures
      var row := ws[k].table[id].record;
      ws[k].base[id] == 0 && Count(ws[k].processed, id) >= Bound(limits, row.profile) + Count(ws[k].unburied, id)
      ==> row.status.Terminal()
  {
    DisciplinedRunsStaySound(limits, ws, acts, k);
    assert RowIsCounted(limits, ws[k], id);
  }
}
