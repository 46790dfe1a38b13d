// No due row waits forever: over ticks that settle everything they claim, the rows
// served before a waiting one only ever get fewer.
module Fairness {
  import opened Delivery
  import opened LeaseMachine
  import opened MemoryStore
  import opened Dispatcher
  import opened Engine
  import Policy

  // The due rows a claim would serve before `id`.
  ghost function Ahead(s: MemState, now: Time, id: Id): set<Id>
    requires Valid(s) && id in s.records
  {
    set x | x in s.records && IsReady(s.records[x], now) && Precedes(Position(s.order), s.records[x], s.records[id])
  }

  // A claim of `n` rows takes a due row exactly when fewer than `n` are ahead of it;
  // otherwise all `n` it takes are ahead.
  lemma RankDecides(s: MemState, now: Time, n: nat, id: Id)
    requires Valid(s) && id in s.records && IsReady(s.records[id], now)
    ensures id in BatchIds(s, now, n) <==> |Ahead(s, now, id)| < n
    ensures id !in BatchIds(s, now, n) ==> BatchIds(s, now, n) <= Ahead(s, now, id) && |BatchIds(s, now, n)| == n
  {
    LineIsTheDueRows(s, now);
    LineIds(s, now);
    var line := Line(s, now);
    assert s.records[id] in line;
    var k :| 0 <= k < |line| && line[k] == s.records[id];
    PrefixIsAhead(s, now, k);
    var m := Min(n, |line|);
    PrefixIds(line, m);
    PrefixRanks(Ids(line), k, m);
  }

  lemma PrefixRanks(ids: seq<Id>, k: nat, m: nat)
    requires Distinct(ids) && k < |ids| && m <= |ids|
    ensures |Elements(ids[..k])| == k && |Elements(ids[..m])| == m
    ensures ids[k] in Elements(ids[..m]) <==> k < m
    ensures m <= k ==> Elements(ids[..m]) <= Elements(ids[..k])
  {
    DistinctCount(ids[..k]);
    DistinctCount(ids[..m]);
    if k < m {
      assert ids[..m][k] == ids[k];
    } else {
      forall x | x in ids[..m] ensures x in ids[..k] {
        var j :| 0 <= j < m && ids[..m][j] == x;
        assert ids[..k][j] == x;
      }
      assert forall j :: 0 <= j < m ==> ids[..m][j] == ids[j];
    }
  }

  lemma PrefixIds(line: seq<Record>, m: nat)
    requires m <= |line|
    ensures IdsOf(line[..m]) == Elements(Ids(line)[..m])
  {
    forall id | id in IdsOf(line[..m]) ensures id in Ids(line)[..m] {
      var r :| r in line[..m] && r.deliveryId == id;
      var j :| 0 <= j < m && line[..m][j] == r;
      assert Ids(line)[..m][j] == id;
    }
    forall id | id in Ids(line)[..m] ensures id in IdsOf(line[..m]) {
      var j :| 0 <= j < m && Ids(line)[..m][j] == id;
      assert line[..m][j] in line[..m];
    }
  }

  lemma PrefixIsAhead(s: MemState, now: Time, k: nat)
    requires Valid(s) && k < |Line(s, now)|
    ensures Line(s, now)[k].deliveryId in s.records
    ensures Elements(Ids(Line(s, now))[..k]) == Ahead(s, now, Line(s, now)[k].deliveryId)
  {
    LineIsTheDueRows(s, now);
    var line, pos := Line(s, now), Position(s.order);
    var me := line[k];
    assert me in line;
    forall x ensures x in Ids(line)[..k] <==> x in Ahead(s, now, me.deliveryId) {
      if x in Ids(line)[..k] {
        var j :| 0 <= j < k && Ids(line)[..k][j] == x;
        assert line[j] in line;
      } else if x in Ahead(s, now, me.deliveryId) {
        assert s.records[x] in line;
        RankedBefore(pos, line, s.records[x], k);
      }
    }
  }

  lemma RankedBefore(pos: map<Id, nat>, line: seq<Record>, r: Record, k: nat)
    requires Ranked(pos, line) && r in line && k < |line|
    requires r.deliveryId in pos && Precedes(pos, r, line[k])
    ensures r.deliveryId in Ids(line)[..k]
  {
    var j :| 0 <= j < |line| && line[j] == r;
    forall i | k < i < |line| ensures !Precedes(pos, line[i], line[k]) {
      assert Precedes(pos, line[k], line[i]);
    }
    assert j < k;
    assert Ids(line)[..k][j] == r.deliveryId;
  }

  // ---- One tick -----------------------------------------------------------------------

  // A tick seen from outside: rows not claimed are untouched, claimed rows end up sent,
  // dead or due again later than the claim, and new rows fire no earlier than it.
  ghost predicate NormalTick(s: MemState, now: Time, batch: set<Id>, s': MemState) {
    && Valid(s') && s.order <= s'.order
    && (forall id :: id in s.records && id !in batch ==> SameRow(s, s', id))
    && (forall id :: id in batch ==> id in s'.records && SettledAfter(s'.records[id], now))
    && (forall id :: id in s'.records && id !in s.records ==> s'.records[id].fireAt >= now)
  }

  ghost predicate SettledAfter(r: Record, now: Time) {
    r.status.Terminal() || (r.status.FailedRetry? && r.fireAt > now)
  }

  lemma {:induction false} PositionsStay(order: seq<Id>, longer: seq<Id>)
    requires Distinct(longer) && order <= longer
    ensures Distinct(order)
    ensures forall id :: id in order ==> id in Position(longer) && Position(longer)[id] == Position(order)[id]
    ensures forall id :: id in longer && id !in order ==> Position(longer)[id] >= |order|
    ensures forall id :: id in order ==> Position(order)[id] < |order|
  {
    forall id | id in order
      ensures id in Position(longer) && Position(longer)[id] == Position(order)[id] && Position(order)[id] < |order| {
      var k :| 0 <= k < |order| && order[k] == id;
      assert longer[k] == id;
    }
    forall id | id in longer && id !in order ensures Position(longer)[id] >= |order| {
      var k :| 0 <= k < |longer| && longer[k] == id;
      assert forall i :: 0 <= i < |order| ==> longer[i] == order[i];
    }
  }

  // A waiting row keeps waiting, and only rows that were ahead of it and not claimed
  // are still ahead.
  lemma AheadShrinks(s: MemState, now: Time, batch: set<Id>, s': MemState, now': Time, id: Id)
    requires Valid(s) && NormalTick(s, now, batch, s') && now <= now'
    requires id in s.records && IsReady(s.records[id], now) && id !in batch
    ensures id in s'.records && IsReady(s'.records[id], now')
    ensures Ahead(s', now', id) <= Ahead(s, now, id) - batch
  {
    assert SameRow(s, s', id);
    PositionsStay(s.order, s'.order);
    forall x | x in Ahead(s', now', id) ensures x in Ahead(s, now, id) - batch {
      StillAhead(s, now, batch, s', Position(s.order), Position(s'.order), s.records[id], x);
    }
  }

  lemma StillAhead(s: MemState, now: Time, batch: set<Id>, s': MemState, pos: map<Id, nat>, pos': map<Id, nat>,
      waiting: Record, x: Id)
    requires NormalTick(s, now, batch, s')
    requires forall y :: y in s.records ==> y in pos && y in pos' && pos'[y] == pos[y]
    requires waiting.deliveryId in s.records && waiting.fireAt <= now
    requires x in s'.records && s'.records[x].deliveryId == x && x in pos' && s'.records[x].status.Claimable()
    requires x !in s.records ==> pos'[x] >= pos[waiting.deliveryId]
    requires Precedes(pos', s'.records[x], waiting)
    ensures x in s.records && x !in batch && s.records[x] == s'.records[x]
    ensures IsReady(s.records[x], now) && Precedes(pos, s.records[x], waiting)
  {
    if x in s.records && x !in batch {
      assert SameRow(s, s', x);
    }
  }

  // One tick that does not claim the row claims `n` of those before it.
  lemma TickShortens(s: MemState, now: Time, n: nat, s': MemState, now': Time, id: Id)
    requires Valid(s) && NormalTick(s, now, BatchIds(s, now, n), s') && now <= now'
    requires id in s.records && IsReady(s.records[id], now) && id !in BatchIds(s, now, n)
    ensures id in s'.records && IsReady(s'.records[id], now')
    ensures |Ahead(s', now', id)| + n <= |Ahead(s, now, id)|
  {
    RankDecides(s, now, n, id);
    AheadShrinks(s, now, BatchIds(s, now, n), s', now', id);
    Fewer(Ahead(s, now, id), BatchIds(s, now, n), Ahead(s', now', id));
  }

  lemma Fewer(ahead: set<Id>, batch: set<Id>, later: set<Id>)
    requires batch <= ahead && later <= ahead - batch
    ensures |later| + |batch| <= |ahead|
  {
    SubsetCount(later, ahead - batch);
    assert ahead == batch + (ahead - batch);
  }

  // ---- Many ticks -----------------------------------------------------------------------

  // A run of ticks without end: at(k) is the store when the k-th claim is made, at clock(k).
  ghost predicate TickRun(at: nat -> MemState, clock: nat -> Time, n: nat) {
    forall k: nat {:trigger TickAt(at, clock, n, k)} :: TickAt(at, clock, n, k)
  }

  ghost predicate TickAt(at: nat -> MemState, clock: nat -> Time, n: nat, k: nat) {
    && Valid(at(k)) && clock(k) <= clock(k + 1)
    && NormalTick(at(k), clock(k), BatchIds(at(k), clock(k), n), at(k + 1))
  }

  ghost predicate WaitsAt(at: nat -> MemState, clock: nat -> Time, id: Id, k: nat, ahead: nat) {
    && Valid(at(k)) && id in at(k).records && IsReady(at(k).records[id], clock(k))
    && ahead == |Ahead(at(k), clock(k), id)|
  }

  ghost predicate ClaimedAt(at: nat -> MemState, clock: nat -> Time, n: nat, id: Id, k: nat) {
    Valid(at(k)) && id in BatchIds(at(k), clock(k), n)
  }

  lemma NextTick(at: nat -> MemState, clock: nat -> Time, n: nat, id: Id, k: nat, ahead: nat) returns (later: nat)
    requires TickRun(at, clock, n) && WaitsAt(at, clock, id, k, ahead)
    ensures ahead < n ==> ClaimedAt(at, clock, n, id, k)
    ensures ahead >= n ==> WaitsAt(at, clock, id, k + 1, later) && later + n <= ahead
  {
    later := 0;
    assert TickAt(at, clock, n, k) && TickAt(at, clock, n, k + 1);
    RankDecides(at(k), clock(k), n, id);
    if ahead >= n {
      TickShortens(at(k), clock(k), n, at(k + 1), clock(k + 1), id);
      later := |Ahead(at(k + 1), clock(k + 1), id)|;
    }
  }

  // Rows that full batches serve from tick k to tick t.
  function Served(k: nat, t: nat, n: nat): nat {
    if t <= k then 0 else Served(k, t - 1, n) + n
  }

  lemma ServedOneMore(k: nat, t: nat, n: nat)
    requires k <= t
    ensures Served(k, t + 1, n) == Served(k, t, n) + n
  {
  }

  lemma {:induction false} ServedIsProduct(k: nat, t: nat, n: nat)
    requires k <= t
    ensures Served(k, t, n) == (t - k) * n
  {
    if k < t {
      ServedIsProduct(k, t - 1, n);
      assert (t - k) * n == (t - 1 - k) * n + n;
    }
  }

  lemma AtMostQuotient(ticks: nat, n: nat, ahead: nat)
    requires n >= 1 && ticks * n <= ahead
    ensures ticks <= ahead / n
  {
    BelowInProduct(ticks, ahead / n + 1, n);
  }

  lemma BelowInProduct(a: nat, b: nat, n: nat)
    requires n >= 1 && a * n < b * n
    ensures a < b
  {
  }

  lemma ServedIsQuotient(k: nat, t: nat, n: nat, ahead: nat)
    requires n >= 1 && k <= t && Served(k, t, n) <= ahead
    ensures t <= k + ahead / n
  {
    ServedIsProduct(k, t, n);
    AtMostQuotient(t - k, n, ahead);
  }

  // Some later tick claims the row, while at most the rows ahead of it could be served.
  lemma WaitingRowIsServed(at: nat -> MemState, clock: nat -> Time, n: nat, id: Id, k: nat, ahead: nat) returns (t: nat)
    requires n >= 1 && TickRun(at, clock, n) && WaitsAt(at, clock, id, k, ahead)
    ensures k <= t && Served(k, t, n) <= ahead
    ensures ClaimedAt(at, clock, n, id, t)
  {
    t := k;
    var left: nat := ahead;
    while left >= n
      invariant k <= t && WaitsAt(at, clock, id, t, left)
      invariant Served(k, t, n) + left <= ahead
      decreases left
    {
      left := NextTick(at, clock, n, id, t, left);
      ServedOneMore(k, t, n);
      t := t + 1;
    }
    var _ := NextTick(at, clock, n, id, t, left);
  }

  // A due row with `ahead` rows before it is claimed within floor(ahead / n) + 1 ticks,
  // whatever is retried or enqueued meanwhile.
  lemma NoStarvation(at: nat -> MemState, clock: nat -> Time, n: nat, id: Id, k: nat, ahead: nat) returns (t: nat)
    requires n >= 1 && TickRun(at, clock, n) && WaitsAt(at, clock, id, k, ahead)
    ensures k <= t <= k + ahead / n
    ensures ClaimedAt(at, clock, n, id, t)
  {
    t := WaitingRowIsServed(at, clock, n, id, k, ahead);
    ServedIsQuotient(k, t, n, ahead);
  }

  // ---- The engine's ticks are such ticks ------------------------------------------------

  ghost predicate NoneInFlight(s: MemState) {
    forall id :: id in s.records ==> !s.records[id].status.InFlight?
  }

  // Every send reads the clock after the claim did, and draws its jitter in range.
  ghost predicate SendsFollow(now: Time, batch: seq<Record>, envs: Id -> Env) {
    forall r :: r in batch ==> envs(r.deliveryId).now > now && -1.0 <= envs(r.deliveryId).draw <= 1.0
  }

  ghost predicate SensibleRetries(cfg: Config) {
    forall p :: p in cfg.profiles ==> Policy.Sensible(RetryConfigOf(cfg, cfg.profiles[p]))
  }

  // A send that came back settles its row for good, or for later than the claim.
  lemma SettledForLater(cfg: Config, now: Time, rec: Record, env: Env, verdict: Verdict, row: Record)
    requires SensibleRetries(cfg) && env.now > now && -1.0 <= env.draw <= 1.0
    requires Settled(cfg, rec, env, verdict, row) && !verdict.Failed?
    ensures SettledAfter(row, now)
  {
    if verdict.WasRetried? {
      RetriesAreNotInThePast(cfg, rec, env);
    }
  }

  lemma GatherIsNormal(ready: MemState, cfg: Config, now: Time, batch: seq<Record>,
      envs: Id -> Env, verdicts: seq<Verdict>, s: MemState)
    requires SensibleRetries(cfg) && SendsFollow(now, batch, envs)
    requires |verdicts| == |batch| && NoneFailed(verdicts)
    requires RowsProgress(ready, cfg, batch, envs, verdicts, |batch|, s)
    ensures NormalTick(ready, now, IdsOf(batch), s)
    ensures NoneInFlight(ready) ==> NoneInFlight(s)
  {
    forall id | id in IdsOf(batch) ensures id in s.records && SettledAfter(s.records[id], now) {
      var r :| r in batch && r.deliveryId == id;
      var j :| 0 <= j < |batch| && batch[j] == r;
      assert SettledAt(cfg, batch, envs, verdicts, s, j) && !verdicts[j].Failed?;
      SettledForLater(cfg, now, r, envs(id), verdicts[j], s.records[id]);
    }
    if NoneInFlight(ready) {
      forall id | id in s.records ensures !s.records[id].status.InFlight? {
        assert id in IdsOf(batch) || SameRow(ready, s, id);
      }
    }
  }

  // Producers enqueue pending rows that fire from their own clock reading on.
  ghost predicate ArriveLater(now: Time, rs: seq<Record>) {
    forall r :: r in rs ==> r.status.Pending? && r.fireAt >= now
  }

  lemma {:induction false} ArrivalsKeepNormal(ready: MemState, now: Time, batch: set<Id>, s: MemState, rs: seq<Record>)
    requires NormalTick(ready, now, batch, s) && ArriveLater(now, rs)
    ensures NormalTick(ready, now, batch, Enqueued(s, rs))
    ensures NoneInFlight(s) ==> NoneInFlight(Enqueued(s, rs))
  {
    if rs != [] {
      var front, last := rs[..|rs| - 1], rs[|rs| - 1];
      assert last in rs;
      ArrivalsKeepNormal(ready, now, batch, s, front);
      ArrivalKeepsNormal(ready, now, batch, Enqueued(s, front), last);
    }
  }

  lemma ArrivalKeepsNormal(ready: MemState, now: Time, batch: set<Id>, s: MemState, r: Record)
    requires NormalTick(ready, now, batch, s) && r.status.Pending? && r.fireAt >= now
    ensures NormalTick(ready, now, batch, EnqueueOne(s, r))
    ensures NoneInFlight(s) ==> NoneInFlight(EnqueueOne(s, r))
  {
    var t := EnqueueOne(s, r);
    KeepsValid(s, DoEnqueue(r));
    forall id | id in ready.records && id !in batch ensures SameRow(ready, t, id) {
      assert SameRow(ready, s, id);
    }
  }

  // With no lease outstanding, a tick of the engine in which every send came back, with
  // whatever was enqueued beside it, is a normal tick, and leaves no lease outstanding.
  lemma EngineTickIsNormal(cfg: Config, tick: TickConfig, s: MemState, round: Round, s': MemState, rs: seq<Record>)
    requires Valid(s) && NoneInFlight(s) && SensibleRetries(cfg)
    requires IsTick(cfg, tick, s, round, s') && !round.clocks.claimRaises && NoneFailed(round.verdicts)
    requires SendsFollow(round.clocks.claimNow, round.batch, round.envs) && ArriveLater(round.clocks.claimNow, rs)
    ensures NormalTick(s, round.clocks.claimNow, BatchIds(s, round.clocks.claimNow, tick.batchSize), Enqueued(s', rs))
    ensures NoneInFlight(Enqueued(s', rs))
  {
    NothingToReclaim(s, round.clocks.now);
    TickEffects(cfg, tick, s, round, s');
    GatherIsNormal(s, cfg, round.clocks.claimNow, round.batch, round.envs, round.verdicts, s');
    ArrivalsKeepNormal(s, round.clocks.claimNow, IdsOf(round.batch), s', rs);
  }

  lemma NothingToReclaim(s: MemState, now: Time)
    requires NoneInFlight(s)
    ensures Reclaimed(s, now) == s
  {
    assert StaleIds(s, now) == {};
    assert s.leases - {} == s.leases;
  }
}
