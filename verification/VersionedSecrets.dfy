// Reading secrets through a cache: every row names the secret version that was current
// when it was enqueued, and a version the reader has not just seen drops the entry.
module VersionedSecrets {
  import opened Delivery

  // A subscription's secret has generations, one per rotation; a host names generation
  // n of subscription id by some label.
  type Labels = (Id, nat) -> string

  // Cached generations, the version last seen, and the log of invalidate() calls.
  datatype Reader = Reader(cache: map<Id, nat>, seen: map<Id, string>, dropped: seq<Id>)

  function SeenVersion(r: Reader, id: Id): Option<string> {
    if id in r.seen then Some(r.seen[id]) else None
  }

  function Got(r: Reader, truth: map<Id, nat>, id: Id): (Reader, Option<nat>) {
    if id in r.cache then (r, Some(r.cache[id]))
    else if id in truth then (r.(cache := r.cache[id := truth[id]]), Some(truth[id]))
    else (r, None)
  }

  function Noted(r: Reader, id: Id, version: Option<string>): Reader {
    if version.Some? && SeenVersion(r, id) != version then
      Reader(r.cache - {id}, r.seen[id := version.value], r.dropped + [id])
    else r
  }

  function GotVersioned(r: Reader, truth: map<Id, nat>, id: Id, version: Option<string>): (Reader, Option<nat>) {
    Got(Noted(r, id, version), truth, id)
  }

  class CachingReader {
    var cache: map<Id, nat>
    var seen: map<Id, string>
    ghost var dropped: seq<Id>

    constructor ()
      ensures State() == Reader(map[], map[], [])
    {
      cache, seen, dropped := map[], map[], [];
    }

    ghost function State(): Reader
      reads this
    {
      Reader(cache, seen, dropped)
    }

    method Invalidate(id: Id)
      modifies `cache, `dropped
      ensures cache == old(cache) - {id} && dropped == old(dropped) + [id]
    {
      cache := cache - {id};
      dropped := dropped + [id];
    }

    // `truth` is what the store holds now; a missing subscription raises.
    method Get(truth: map<Id, nat>, id: Id) returns (material: Option<nat>)
      modifies `cache
      ensures (State(), material) == Got(old(State()), truth, id)
    {
      if id in cache {
        return Some(cache[id]);
      }
      if id !in truth {
        return None;
      }
      cache := cache[id := truth[id]];
      material := Some(truth[id]);
    }

    method GetVersioned(truth: map<Id, nat>, id: Id, version: Option<string>) returns (material: Option<nat>)
      modifies this
      ensures (State(), material) == GotVersioned(old(State()), truth, id, version)
    {
      if version.Some? && (id !in seen || seen[id] != version.value) {
        Invalidate(id);
        seen := seen[id := version.value];
      }
      material := Get(truth, id);
    }
  }

  // ---- Runs -----------------------------------------------------------------------------

  datatype World = World(truth: map<Id, nat>, reader: Reader)

  // Deliver is the read for a row stamped at some generation, with that generation's
  // label or, for rows enqueued without one, none.  Entries may be evicted at any time.
  datatype Step =
    | Create(id: Id)
    | Rotate(id: Id)
    | Delete(id: Id)
    | Evict(id: Id)
    | Deliver(id: Id, version: Option<string>, stamped: nat)

  // A row is stamped with the label current at its enqueue, at most the current one now.
  predicate Possible(labels: Labels, w: World, step: Step) {
    match step
    case Create(id) => id !in w.truth && id !in w.reader.cache && id !in w.reader.seen
    case Deliver(id, version, stamped) =>
      (id in w.truth ==> stamped <= w.truth[id]) && (version.Some? ==> version.value == labels(id, stamped))
    case _ => true
  }

  function Next(w: World, step: Step): World {
    match step
    case Create(id) => w.(truth := w.truth[id := 0])
    case Rotate(id) => if id in w.truth then w.(truth := w.truth[id := w.truth[id] + 1]) else w
    case Delete(id) => w.(truth := w.truth - {id})
    case Evict(id) => w.(reader := w.reader.(cache := w.reader.cache - {id}))
    case Deliver(id, version, _) => w.(reader := GotVersioned(w.reader, w.truth, id, version).0)
  }

  function After(w: World, steps: seq<Step>): World {
    if steps == [] then w else Next(After(w, steps[..|steps| - 1]), steps[|steps| - 1])
  }

  ghost predicate Run(labels: Labels, w: World, steps: seq<Step>) {
    steps == [] || (Run(labels, w, steps[..|steps| - 1]) &&
      Possible(labels, After(w, steps[..|steps| - 1]), steps[|steps| - 1]))
  }

  const START := World(map[], Reader(map[], map[], []))

  // What a read returns after a run.
  function Material(w: World, step: Step): Option<nat>
    requires step.Deliver?
  {
    GotVersioned(w.reader, w.truth, step.id, step.version).1
  }

  ghost predicate Injective(labels: Labels) {
    forall id, m, n :: labels(id, m) == labels(id, n) ==> m == n
  }

  // The version last seen is some generation's label, and nothing older is cached.
  ghost predicate Backed(labels: Labels, w: World, id: Id, n: nat) {
    && id in w.reader.seen && w.reader.seen[id] == labels(id, n)
    && (id in w.truth ==> n <= w.truth[id])
    && (id in w.reader.cache ==> n <= w.reader.cache[id])
  }

  ghost predicate AllBacked(labels: Labels, w: World) {
    forall id :: id in w.reader.seen ==> exists n: nat :: Backed(labels, w, id, n)
  }

  lemma StepKeepsBacked(labels: Labels, w: World, step: Step)
    requires Injective(labels) && AllBacked(labels, w) && Possible(labels, w, step)
    ensures AllBacked(labels, Next(w, step))
  {
    var w' := Next(w, step);
    forall id | id in w'.reader.seen ensures exists n: nat :: Backed(labels, w', id, n) {
      if step.Deliver? && step.id == id && step.version.Some? && SeenVersion(w.reader, id) != step.version {
        assert Backed(labels, w', id, step.stamped);
      } else {
        var n: nat :| Backed(labels, w, id, n);
        assert Backed(labels, w', id, n);
      }
    }
  }

  lemma {:induction false} RunKeepsBacked(labels: Labels, steps: seq<Step>)
    requires Injective(labels) && Run(labels, START, steps)
    ensures AllBacked(labels, After(START, steps))
  {
    if steps != [] {
      RunKeepsBacked(labels, steps[..|steps| - 1]);
      StepKeepsBacked(labels, After(START, steps[..|steps| - 1]), steps[|steps| - 1]);
    }
  }

  ghost predicate NeverStale(labels: Labels) {
    forall steps, id, n: nat ::
      Run(labels, START, steps) && Possible(labels, After(START, steps), Versioned(labels, id, n)) ==>
        IsFresh(labels, steps, id, n)
  }

  function Versioned(labels: Labels, id: Id, n: nat): Step {
    Deliver(id, Some(labels(id, n)), n)
  }

  ghost predicate IsFresh(labels: Labels, steps: seq<Step>, id: Id, n: nat) {
    var got := Material(After(START, steps), Versioned(labels, id, n));
    got.Some? ==> got.value >= n
  }

  // No labelled row is ever signed with a secret older than the one current at its
  // enqueue, in any run, exactly when labels are never used again for one subscription.
  lemma FreshExactlyWhenLabelsAreNew(labels: Labels)
    ensures NeverStale(labels) <==> Injective(labels)
  {
    if Injective(labels) {
      forall steps, id, n: nat | Run(labels, START, steps) &&
        Possible(labels, After(START, steps), Versioned(labels, id, n))
        ensures IsFresh(labels, steps, id, n)
      {
        RunKeepsBacked(labels, steps);
        ReadIsFresh(labels, After(START, steps), id, n);
      }
    } else {
      var id, m, n :| labels(id, m) == labels(id, n) && m != n;
      if m < n { ReusedLabelGoesStale(labels, id, m, n); } else { ReusedLabelGoesStale(labels, id, n, m); }
    }
  }

  lemma ReadIsFresh(labels: Labels, w: World, id: Id, n: nat)
    requires Injective(labels) && AllBacked(labels, w) && Possible(labels, w, Versioned(labels, id, n))
    ensures var got := Material(w, Versioned(labels, id, n)); got.Some? ==> got.value >= n
  {
    if SeenVersion(w.reader, id) == Some(labels(id, n)) {
      var m: nat :| Backed(labels, w, id, m);
      assert m == n;
    }
  }

  function Rotations(id: Id, k: nat): seq<Step> {
    seq(k, _ => Rotate(id))
  }

  lemma OneMore(labels: Labels, steps: seq<Step>, step: Step)
    ensures After(START, steps + [step]) == Next(After(START, steps), step)
    ensures Run(labels, START, steps + [step]) <==>
      Run(labels, START, steps) && Possible(labels, After(START, steps), step)
  {
    assert (steps + [step])[..|steps|] == steps;
  }

  // The same world, but for `k` more rotations of one subscription.
  predicate Turned(w: World, w': World, id: Id, k: nat) {
    && id in w.truth && id in w'.truth
    && w'.truth[id] == w.truth[id] + k && w'.reader == w.reader
  }

  lemma {:induction false} RotationsRun(labels: Labels, steps: seq<Step>, id: Id, k: nat)
    requires Run(labels, START, steps) && id in After(START, steps).truth
    ensures Run(labels, START, steps + Rotations(id, k))
    ensures Turned(After(START, steps), After(START, steps + Rotations(id, k)), id, k)
  {
    if k == 0 {
      assert steps + Rotations(id, k) == steps;
    } else {
      var most := steps + Rotations(id, k - 1);
      RotationsRun(labels, steps, id, k - 1);
      OneMore(labels, most, Rotate(id));
      assert steps + Rotations(id, k) == most + [Rotate(id)];
    }
  }

  lemma FirstReadCaches(labels: Labels, w: World, id: Id, m: nat)
    requires id in w.truth && w.truth[id] == m && id !in w.reader.seen
    ensures var w' := Next(w, Versioned(labels, id, m));
      && w'.truth == w.truth
      && id in w'.reader.cache && w'.reader.cache[id] == m
      && SeenVersion(w'.reader, id) == Some(labels(id, m))
  {
  }

  // A run of one subscription: read at generation m, rotate on to n, and the label of n,
  // the same as that of m, keeps the stale entry alive.
  lemma ReusedLabelGoesStale(labels: Labels, id: Id, m: nat, n: nat)
    requires m < n && labels(id, m) == labels(id, n)
    ensures !NeverStale(labels)
  {
    var start, read := [Create(id)], Versioned(labels, id, m);
    OneMore(labels, [], Create(id));
    assert [] + start == start;
    RotationsRun(labels, start, id, m);
    var early := start + Rotations(id, m);
    FirstReadCaches(labels, After(START, early), id, m);
    OneMore(labels, early, read);
    RotationsRun(labels, early + [read], id, n - m);
    RepeatedLabelIsStale(labels, early + [read] + Rotations(id, n - m), id, m, n);
  }

  lemma RepeatedLabelIsStale(labels: Labels, steps: seq<Step>, id: Id, m: nat, n: nat)
    requires m < n && labels(id, m) == labels(id, n) && Run(labels, START, steps)
    requires var w := After(START, steps);
      && id in w.truth && w.truth[id] == n
      && id in w.reader.cache && w.reader.cache[id] == m
      && SeenVersion(w.reader, id) == Some(labels(id, m))
    ensures !NeverStale(labels)
  {
    assert !IsFresh(labels, steps, id, n);
  }

  // ---- What a read finds ---------------------------------------------------------------------

  // An entry that is cached is answered unread while its version is the one last seen; once
  // evicted, or named by a new version, the store answers, and a deleted subscription is
  // missing.
  lemma ReadFinds(w: World, id: Id, version: Option<string>, stamped: nat)
    ensures
      var read := Deliver(id, version, stamped);
      var stored := if id in w.truth then Some(w.truth[id]) else None;
      && Material(Next(w, Evict(id)), read) == stored
      && Material(Next(Next(w, Delete(id)), Evict(id)), read) == None
      && Material(w, read) ==
        if id in w.reader.cache && (version.None? || (id in w.reader.seen && version == Some(w.reader.seen[id])))
        then Some(w.reader.cache[id]) else stored
  {
  }

  // ---- Invalidation happens once per change -------------------------------------------------

  // The versions named by the deliveries of one subscription, rows without one left out.
  function VersionsOf(steps: seq<Step>, id: Id): seq<string> {
    if steps == [] then []
    else
      var last := steps[|steps| - 1];
      VersionsOf(steps[..|steps| - 1], id) + if Names(last, id) then [last.version.value] else []
  }

  // How often a sequence changes, its first element counted.
  function Changes(versions: seq<string>): nat {
    if versions == [] then 0
    else if |versions| == 1 then 1
    else Changes(versions[..|versions| - 1]) + if versions[|versions| - 1] != versions[|versions| - 2] then 1 else 0
  }

  function LastOf(versions: seq<string>): Option<string> {
    if versions == [] then None else Some(versions[|versions| - 1])
  }

  lemma ChangesOneMore(versions: seq<string>, version: string)
    ensures Changes(versions + [version]) == Changes(versions) + if LastOf(versions) != Some(version) then 1 else 0
    ensures LastOf(versions + [version]) == Some(version)
  {
    assert (versions + [version])[..|versions|] == versions;
  }

  predicate Names(step: Step, id: Id) {
    step.Deliver? && step.id == id && step.version.Some?
  }

  lemma StepDrops(w: World, step: Step, id: Id)
    ensures multiset(Next(w, step).reader.dropped)[id]
         == multiset(w.reader.dropped)[id] +
           if Names(step, id) && SeenVersion(w.reader, id) != step.version then 1 else 0
    ensures SeenVersion(Next(w, step).reader, id) == if Names(step, id) then step.version else SeenVersion(w.reader, id)
  {
  }

  // However deliveries, rotations and evictions interleave, each subscription's entry is
  // dropped exactly once per change in its own sequence of versions.
  lemma {:induction false} DropsAreChanges(steps: seq<Step>, id: Id)
    ensures multiset(After(START, steps).reader.dropped)[id] == Changes(VersionsOf(steps, id))
    ensures SeenVersion(After(START, steps).reader, id) == LastOf(VersionsOf(steps, id))
  {
    if steps != [] {
      var front, last := steps[..|steps| - 1], steps[|steps| - 1];
      DropsAreChanges(front, id);
      StepDrops(After(START, front), last, id);
      if Names(last, id) {
        ChangesOneMore(VersionsOf(front, id), last.version.value);
      } else {
        assert VersionsOf(steps, id) == VersionsOf(front, id);
      }
    }
  }
}
