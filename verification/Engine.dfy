// The tick loop over the memory store: reclaim, claim a batch, send every record of
// it, count what came back.  The sends of a batch touch distinct rows, so they are
// taken here one after another.
module Engine {
  import opened Delivery
  import opened LeaseMachine
  import opened MemoryStore
  import opened Dispatcher

  datatype TickConfig = TickConfig(batchSize: nat, leaseTtl: nat, maxUnhandled: int)

  // The clock of the salvage of a failed send, the class of the exception, and whether
  // the two store calls raised.
  datatype Salvage = Salvage(now: Time, exception: string, appendRaises: bool, buryRaises: bool)

  datatype Stats = Stats(claimed: nat, sent: nat, retried: nat, dead: nat, errors: nat)

  // ---- One claimed record -----------------------------------------------------------

  function SalvageLine(rec: Record, salvage: Salvage): Attempt {
    Attempt(rec.attempts + 1, salvage.now, None, Some("engine_unhandled:" + salvage.exception))
  }

  ghost function Salvaged(s: MemState, rec: Record, tick: TickConfig, salvage: Salvage): MemState {
    var a := SalvageLine(rec, salvage);
    if salvage.appendRaises then s
    else if a.number < tick.maxUnhandled || salvage.buryRaises then AttemptAppended(s, rec.deliveryId, a)
    else MarkedDead(AttemptAppended(s, rec.deliveryId, a), rec.deliveryId, a)
  }

  // A quarantine that is let write leaves one log line under the next number, naming the
  // exception; from `maxUnhandled` attempts on it also buries the row, with a second line.
  lemma QuarantineLeaves(s: MemState, rec: Record, tick: TickConfig, salvage: Salvage)
    requires Valid(s) && rec.deliveryId in s.records
    ensures
      var id, s' := rec.deliveryId, Salvaged(s, rec, tick, salvage);
      var line := Attempt(rec.attempts + 1, salvage.now, None, Some("engine_unhandled:" + salvage.exception));
      var buries := rec.attempts + 1 >= tick.maxUnhandled && !salvage.buryRaises;
      if salvage.appendRaises then s' == s
      else
        && s'.log == s.log[id := s.log[id] + if buries then [line, line] else [line]]
        && s'.records == (if buries then s.records[id := s.records[id].(status := DeadLettered)] else s.records)
        && s'.leases == (if buries then s.leases - {id} else s.leases) && s'.order == s.order
  {
    var id := rec.deliveryId;
    var line := SalvageLine(rec, salvage);
    assert s.log[id] + [line] + [line] == s.log[id] + [line, line];
  }

  // What handling one record leaves behind, when it is claimed and known.
  ghost predicate Handled(s: MemState, cfg: Config, tick: TickConfig, rec: Record, env: Env, salvage: Salvage,
      verdict: Verdict, s': MemState)
  {
    if Lands(s, cfg, rec, env) then
      verdict == VerdictOf(Decide(cfg, rec, env)) &&
        s' == Written(s, rec, Decide(cfg, rec, env), AttemptOf(cfg, rec, env))
    else verdict == Failed && s' == Salvaged(s, rec, tick, salvage)
  }

  // A record in hand: its row is in flight and counts the attempts the record does.
  ghost predicate InHand(s: MemState, rec: Record) {
    && rec.deliveryId in s.records
    && s.records[rec.deliveryId].status.InFlight?
    && s.records[rec.deliveryId].attempts == rec.attempts
  }

  ghost function SentIds(s: MemState): set<Id> {
    set id | id in s.records && s.records[id].status.Sent?
  }

  ghost predicate SameRow(s: MemState, s': MemState, id: Id)
    requires id in s.records
  {
    id in s'.records && s'.records[id] == s.records[id]
  }

  // What the handled row looks like: sent, due again at the decided time, dead, or --
  // after a failure -- still in flight for a reclaim to find, unless it was buried.
  ghost predicate Settled(cfg: Config, rec: Record, env: Env, verdict: Verdict, row: Record) {
    match verdict
    case WasSent => row.status.Sent?
    case WasRetried(fireAt) =>
      row.status.FailedRetry? && row.fireAt == fireAt && row.attempts == rec.attempts + 1 &&
        Decide(cfg, rec, env) == RetryAt(fireAt)
    case WasKilled => row.status.DeadLettered?
    case Failed => row.status.InFlight? || row.status.DeadLettered?
  }

  ghost predicate OthersSame(s: MemState, id: Id, s': MemState) {
    forall other :: other in s.records && other != id ==> SameRow(s, s', other)
  }

  ghost predicate TouchesOnly(s: MemState, id: Id, s': MemState)
    requires Valid(s)
  {
    && Valid(s') && s'.order == s.order && s'.records.Keys == s.records.Keys
    && OthersSame(s, id, s') && forall other :: other in s.records && other != id ==> s'.log[other] == s.log[other]
  }

  lemma MarkTouchesOneRow(s: MemState, id: Id, r: Record, a: Attempt)
    requires Valid(s) && id in s.records && r.deliveryId == id
    ensures TouchesOnly(s, id, Marked(s, id, r, a))
  {
  }

  lemma SalvageTouchesOneRow(s: MemState, rec: Record, tick: TickConfig, salvage: Salvage)
    requires Valid(s) && InHand(s, rec)
    ensures TouchesOnly(s, rec.deliveryId, Salvaged(s, rec, tick, salvage))
    ensures var row := Salvaged(s, rec, tick, salvage).records[rec.deliveryId];
      row.status.InFlight? || row.status.DeadLettered?
  {
    var id, a := rec.deliveryId, SalvageLine(rec, salvage);
    var t := AttemptAppended(s, id, a);
    assert TouchesOnly(s, id, t);
    MarkTouchesOneRow(t, id, t.records[id].(status := DeadLettered), a);
  }

  // Handling a record leaves every other row and log alone and settles its own.
  lemma HandlingTouchesOneRow(s: MemState, cfg: Config, tick: TickConfig, rec: Record, env: Env, salvage: Salvage,
      verdict: Verdict, s': MemState)
    requires Valid(s) && InHand(s, rec)
    requires Handled(s, cfg, tick, rec, env, salvage, verdict, s')
    ensures TouchesOnly(s, rec.deliveryId, s')
    ensures Settled(cfg, rec, env, verdict, s'.records[rec.deliveryId])
  {
    if !Lands(s, cfg, rec, env) {
      SalvageTouchesOneRow(s, rec, tick, salvage);
    } else {
      WritingTouchesOneRow(s, cfg, rec, env, AttemptOf(cfg, rec, env));
    }
  }

  lemma WritingTouchesOneRow(s: MemState, cfg: Config, rec: Record, env: Env, a: Attempt)
    requires Valid(s) && InHand(s, rec) && !Decide(cfg, rec, env).Raise?
    ensures var s' := Written(s, rec, Decide(cfg, rec, env), a);
      && TouchesOnly(s, rec.deliveryId, s')
      && Settled(cfg, rec, env, VerdictOf(Decide(cfg, rec, env)), s'.records[rec.deliveryId])
  {
    var id := rec.deliveryId;
    var row := s.records[id];
    match Decide(cfg, rec, env)
    case Deliver => MarkTouchesOneRow(s, id, row.(status := Sent), a);
    case RetryAt(fireAt) =>
      MarkTouchesOneRow(s, id, row.(status := FailedRetry, fireAt := fireAt, attempts := row.attempts + 1), a);
    case Kill => MarkTouchesOneRow(s, id, row.(status := DeadLettered), a);
  }

  // So a handling adds the row to the sent ones exactly when the verdict says so.
  lemma HandlingCounts(s: MemState, rec: Record, verdict: Verdict, s': MemState)
    requires Valid(s) && InHand(s, rec) && TouchesOnly(s, rec.deliveryId, s')
    requires s'.records[rec.deliveryId].status.Sent? <==> verdict.WasSent?
    ensures |SentIds(s')| == |SentIds(s)| + if verdict.WasSent? then 1 else 0
  {
    SentOneMore(s, rec.deliveryId, s');
  }

  lemma SentOneMore(s: MemState, id: Id, s': MemState)
    requires id in s.records && !s.records[id].status.Sent? && s'.records.Keys == s.records.Keys
    requires OthersSame(s, id, s')
    ensures |SentIds(s')| == |SentIds(s)| + if s'.records[id].status.Sent? then 1 else 0
  {
    forall x ensures x in SentIds(s') <==> x in SentIds(s) || (x == id && s'.records[id].status.Sent?) {
      if x in s.records && x != id {
        assert SameRow(s, s', x);
      }
    }
    assert SentIds(s') == SentIds(s) + if s'.records[id].status.Sent? then {id} else {};
  }

  // ---- The attempt journal ------------------------------------------------------------

  // A row's log is numbered 1, 2, ..., n, where n is its attempts, plus the last one
  // when the row is finished: sends and burials do not count themselves.
  ghost predicate JournalHolds(s: MemState, id: Id) {
    id in s.records && id in s.log ==>
      var r := s.records[id];
      && |s.log[id]| == r.attempts + (if r.status.Terminal() then 1 else 0)
      && forall i :: 0 <= i < |s.log[id]| ==> s.log[id][i].number == i + 1
  }

  // Handling a record keeps its journal exactly when the send came back with an
  // outcome, or failed without leaving a trace; a quarantine entry reuses a number.
  lemma HandlingKeepsJournal(s: MemState, cfg: Config, tick: TickConfig, rec: Record, env: Env, salvage: Salvage,
      verdict: Verdict, s': MemState)
    requires Valid(s) && InHand(s, rec) && JournalHolds(s, rec.deliveryId)
    requires Handled(s, cfg, tick, rec, env, salvage, verdict, s')
    ensures JournalHolds(s', rec.deliveryId) <==> !verdict.Failed? || salvage.appendRaises
  {
    assert !s.records[rec.deliveryId].status.Terminal();
  }

  // ---- The tick -----------------------------------------------------------------------

  class WebhookEngine {
    const store: MemoryWebhookDeliveryStore
    const dispatcher: WebhookDispatcher
    const tick: TickConfig

    ghost predicate Ready()
      reads store
    {
      dispatcher.store == store && Valid(store.State())
    }

    constructor (dispatcher: WebhookDispatcher, tick: TickConfig)
      requires Valid(dispatcher.store.State())
      ensures Ready() && this.dispatcher == dispatcher && this.tick == tick
    {
      this.store, this.dispatcher, this.tick := dispatcher.store, dispatcher, tick;
    }

    method Quarantine(rec: Record, salvage: Salvage)
      requires Ready()
      modifies store
      ensures store.State() == Salvaged(old(store.State()), rec, tick, salvage)
      ensures rec.deliveryId in old(store.records) ==> Ready()
    {
      var attempt := Attempt(rec.attempts + 1, salvage.now, None, Some("engine_unhandled:" + salvage.exception));
      if salvage.appendRaises {
        return;
      }
      store.AppendAttempt(rec.deliveryId, attempt);
      if attempt.number >= tick.maxUnhandled && !salvage.buryRaises {
        var _ := store.MarkDead(rec.deliveryId, attempt);
      }
    }

    method DispatchOne(rec: Record, env: Env, salvage: Salvage) returns (verdict: Verdict)
      requires Ready() && rec.deliveryId in store.records
      modifies store
      ensures Ready() && old(store.records).Keys <= store.records.Keys
      ensures Handled(old(store.State()), dispatcher.cfg, tick, rec, env, salvage, verdict, store.State())
    {
      verdict := dispatcher.Send(rec, env);
      if verdict.Failed? {
        Quarantine(rec, salvage);
      }
    }

    // The whole tick, with the clock read once for the reclaim and once for the claim.
    method Tick(now: Time, claimNow: Time, reclaimRaises: bool, claimRaises: bool, envs: Id -> Env,
        salvages: Id -> Salvage)
      returns (stats: Stats, ghost round: Round)
      requires Ready()
      modifies store
      ensures Ready()
      ensures IsTick(dispatcher.cfg, tick, old(store.State()), round, store.State())
      ensures round.clocks == Clocks(now, claimNow, reclaimRaises, claimRaises) && round.envs == envs
      ensures round.salvages == salvages
      ensures stats == StatsOf(round)
      ensures claimRaises ==> stats == Stats(0, 0, 0, 0, 1)
      ensures !claimRaises ==> stats.claimed == |round.batch|
      ensures !claimRaises ==>
        CountsEach(round.verdicts, stats.(errors := stats.errors - if reclaimRaises then 1 else 0))
      ensures !claimRaises ==>
        stats.claimed + (if reclaimRaises then 1 else 0) == stats.sent + stats.retried + stats.dead + stats.errors
      ensures |SentIds(store.State())| == |SentIds(old(store.State()))| + stats.sent
    {
      ghost var before := store.State();
      var errors := 0;
      if reclaimRaises {
        errors := 1;
      } else {
        KeepsValid(before, DoReclaim(now));
        var _ := store.ReclaimStale(now);
      }
      ghost var ready := store.State();
      var clocks := Clocks(now, claimNow, reclaimRaises, claimRaises);
      if claimRaises {
        stats := Stats(0, 0, 0, 0, 1);
        round := Round(clocks, envs, salvages, [], [], [ready]);
      } else {
        ghost var batch, verdicts, trace;
        stats, batch, verdicts, trace := ClaimAndGather(claimNow, errors, envs, salvages);
        round := Round(clocks, envs, salvages, batch, verdicts, trace);
        TallyAddsUp(verdicts);
        EachIsCounted(verdicts);
      }
      TickCounts(dispatcher.cfg, tick, before, round, store.State());
    }

    method ClaimAndGather(claimNow: Time, errors: nat, envs: Id -> Env, salvages: Id -> Salvage)
      returns (stats: Stats, ghost batch: seq<Record>, ghost verdicts: seq<Verdict>, ghost trace: seq<MemState>)
      requires Ready()
      modifies store
      ensures Ready()
      ensures batch == Batch(old(store.order), old(store.records), claimNow, tick.batchSize)
      ensures IsGather(dispatcher.cfg, tick, batch, envs, salvages, verdicts, trace)
      ensures trace[0] == Claimed(old(store.State()), claimNow, tick.leaseTtl, tick.batchSize)
      ensures store.State() == trace[|batch|]
      ensures stats == StatsFor(verdicts, errors)
    {
      BatchIsStored(store.State(), claimNow, tick.batchSize);
      KeepsValid(store.State(), DoClaim(claimNow, tick.leaseTtl, tick.batchSize));
      var records := store.ClaimBatch(claimNow, tick.leaseTtl, tick.batchSize);
      batch := records;
      var outcomes;
      outcomes, trace := Gather(records, envs, salvages);
      verdicts := outcomes;
      stats := Counted(outcomes, errors);
    }

    // The dispatches of a claimed batch.
    method Gather(records: seq<Record>, envs: Id -> Env, salvages: Id -> Salvage)
      returns (outcomes: seq<Verdict>, ghost trace: seq<MemState>)
      requires Ready() && forall r :: r in records ==> r.deliveryId in store.records
      modifies store
      ensures Ready()
      ensures IsGather(dispatcher.cfg, tick, records, envs, salvages, outcomes, trace)
      ensures trace[0] == old(store.State()) && store.State() == trace[|records|]
    {
      outcomes, trace := [], [store.State()];
      for i := 0 to |records|
        invariant Ready() && forall r :: r in records ==> r.deliveryId in store.records
        invariant |trace| == |outcomes| + 1 == i + 1 && trace[0] == old(store.State()) && trace[i] == store.State()
        invariant forall k :: 0 <= k < i ==>
          HandledAt(dispatcher.cfg, tick, records, envs, salvages, outcomes, trace, k)
      {
        var id := records[i].deliveryId;
        assert records[i] in records;
        var outcome := DispatchOne(records[i], envs(id), salvages(id));
        TraceOneMore(dispatcher.cfg, tick, records, envs, salvages, outcomes, trace, outcome, store.State());
        outcomes, trace := outcomes + [outcome], trace + [store.State()];
      }
    }
  }

  method Counted(outcomes: seq<Verdict>, reclaimErrors: nat) returns (stats: Stats)
    ensures stats == StatsFor(outcomes, reclaimErrors)
    ensures stats.claimed == |outcomes| && CountsEach(outcomes, stats.(errors := stats.errors - reclaimErrors))
  {
    EachIsCounted(outcomes);
    var sent, retried, dead, errors := 0, 0, 0, reclaimErrors;
    for k := 0 to |outcomes|
      invariant errors >= reclaimErrors
      invariant Tally(sent, retried, dead, errors - reclaimErrors) == TallyOf(outcomes[..k])
    {
      assert outcomes[..k + 1][..k] == outcomes[..k];
      match outcomes[k] {
        case Failed => errors := errors + 1;
        case WasSent => sent := sent + 1;
        case WasRetried(_) => retried := retried + 1;
        case WasKilled => dead := dead + 1;
      }
    }
    assert outcomes[..|outcomes|] == outcomes;
    stats := Stats(|outcomes|, sent, retried, dead, errors);
  }

  // How many outcomes of each kind there are.
  datatype Tally = Tally(sent: nat, retried: nat, dead: nat, failed: nat)

  function TallyOf(verdicts: seq<Verdict>): Tally {
    if verdicts == [] then Tally(0, 0, 0, 0)
    else
      var t := TallyOf(verdicts[..|verdicts| - 1]);
      match verdicts[|verdicts| - 1]
      case WasSent => t.(sent := t.sent + 1)
      case WasRetried(_) => t.(retried := t.retried + 1)
      case WasKilled => t.(dead := t.dead + 1)
      case Failed => t.(failed := t.failed + 1)
  }

  function StatsFor(verdicts: seq<Verdict>, reclaimErrors: nat): Stats {
    var t := TallyOf(verdicts);
    Stats(|verdicts|, t.sent, t.retried, t.dead, reclaimErrors + t.failed)
  }

  // The places at which outcomes of some kind came.
  ghost function Places(verdicts: seq<Verdict>, kind: Verdict -> bool): set<nat> {
    set k: nat | k < |verdicts| && kind(verdicts[k])
  }

  // Each counter is the number of outcomes of its kind.
  ghost predicate CountsEach(verdicts: seq<Verdict>, stats: Stats) {
    && stats.sent == |Places(verdicts, (v: Verdict) => v.WasSent?)|
    && stats.retried == |Places(verdicts, (v: Verdict) => v.WasRetried?)|
    && stats.dead == |Places(verdicts, (v: Verdict) => v.WasKilled?)|
    && stats.errors == |Places(verdicts, (v: Verdict) => v.Failed?)|
  }

  lemma PlacesOneMore(verdicts: seq<Verdict>, verdict: Verdict, kind: Verdict -> bool)
    ensures |Places(verdicts + [verdict], kind)| == |Places(verdicts, kind)| + if kind(verdict) then 1 else 0
  {
    assert Places(verdicts + [verdict], kind) == Places(verdicts, kind) + if kind(verdict) then {|verdicts|} else {};
  }

  lemma {:induction false} EachIsCounted(verdicts: seq<Verdict>)
    ensures CountsEach(verdicts, StatsFor(verdicts, 0))
  {
    if verdicts != [] {
      var front, last := verdicts[..|verdicts| - 1], verdicts[|verdicts| - 1];
      EachIsCounted(front);
      assert verdicts == front + [last];
      PlacesOneMore(front, last, (v: Verdict) => v.WasSent?);
      PlacesOneMore(front, last, (v: Verdict) => v.WasRetried?);
      PlacesOneMore(front, last, (v: Verdict) => v.WasKilled?);
      PlacesOneMore(front, last, (v: Verdict) => v.Failed?);
    }
  }

  lemma {:induction false} TallyAddsUp(verdicts: seq<Verdict>)
    ensures var t := TallyOf(verdicts); t.sent + t.retried + t.dead + t.failed == |verdicts|
    ensures TallyOf(verdicts).failed == 0 <==> NoneFailed(verdicts)
  {
    if verdicts != [] {
      var front, last := verdicts[..|verdicts| - 1], verdicts[|verdicts| - 1];
      TallyAddsUp(front);
      assert verdicts == front + [last];
      if !NoneFailed(front) {
        var k :| 0 <= k < |front| && front[k].Failed?;
        assert verdicts[k].Failed?;
      }
    }
  }

  // ---- What a tick did, state by state ----------------------------------------------------

  // The two clock readings of a tick, and which of its two store calls raised.
  datatype Clocks = Clocks(now: Time, claimNow: Time, reclaimRaises: bool, claimRaises: bool)

  // A tick as it happened: `trace` is the store after the claim and after each dispatch.
  datatype Round = Round(
    clocks: Clocks,
    envs: Id -> Env,
    salvages: Id -> Salvage,
    batch: seq<Record>,
    verdicts: seq<Verdict>,
    trace: seq<MemState>)

  ghost predicate HandledAt(cfg: Config, tick: TickConfig, batch: seq<Record>, envs: Id -> Env, salvages: Id -> Salvage,
      verdicts: seq<Verdict>, trace: seq<MemState>, k: nat)
    requires k < |batch| && k < |verdicts| && k + 1 < |trace|
  {
    var id := batch[k].deliveryId;
    Handled(trace[k], cfg, tick, batch[k], envs(id), salvages(id), verdicts[k], trace[k + 1])
  }

  ghost predicate IsGather(cfg: Config, tick: TickConfig, batch: seq<Record>, envs: Id -> Env, salvages: Id -> Salvage,
      verdicts: seq<Verdict>, trace: seq<MemState>)
  {
    && |verdicts| == |batch| && |trace| == |batch| + 1
    && forall k :: 0 <= k < |batch| ==> HandledAt(cfg, tick, batch, envs, salvages, verdicts, trace, k)
  }

  lemma TraceOneMore(cfg: Config, tick: TickConfig, batch: seq<Record>, envs: Id -> Env, salvages: Id -> Salvage,
      verdicts: seq<Verdict>, trace: seq<MemState>, verdict: Verdict, s: MemState)
    requires |trace| == |verdicts| + 1 && |verdicts| < |batch|
    requires forall k :: 0 <= k < |verdicts| ==> HandledAt(cfg, tick, batch, envs, salvages, verdicts, trace, k)
    requires
      var rec := batch[|verdicts|];
      Handled(trace[|verdicts|], cfg, tick, rec, envs(rec.deliveryId), salvages(rec.deliveryId), verdict, s)
    ensures forall k :: 0 <= k <= |verdicts| ==>
      HandledAt(cfg, tick, batch, envs, salvages, verdicts + [verdict], trace + [s], k)
  {
    var verdicts', trace' := verdicts + [verdict], trace + [s];
    forall k | 0 <= k <= |verdicts| ensures HandledAt(cfg, tick, batch, envs, salvages, verdicts', trace', k) {
      if k < |verdicts| {
        assert HandledAt(cfg, tick, batch, envs, salvages, verdicts, trace, k);
      }
    }
  }

  ghost function ReadyAt(s: MemState, clocks: Clocks): MemState {
    if clocks.reclaimRaises then s else Reclaimed(s, clocks.now)
  }

  ghost predicate IsTick(cfg: Config, tick: TickConfig, s: MemState, round: Round, s': MemState) {
    var ready, claimNow := ReadyAt(s, round.clocks), round.clocks.claimNow;
    && Valid(ready)
    && if round.clocks.claimRaises then round.batch == [] && round.verdicts == [] && s' == ready
       else
         && round.batch == Batch(ready.order, ready.records, claimNow, tick.batchSize)
         && IsGather(cfg, tick, round.batch, round.envs, round.salvages, round.verdicts, round.trace)
         && round.trace[0] == Claimed(ready, claimNow, tick.leaseTtl, tick.batchSize)
         && s' == round.trace[|round.batch|]
  }

  // A failed claim reports itself alone, whatever the reclaim did.
  function StatsOf(round: Round): Stats {
    if round.clocks.claimRaises then Stats(0, 0, 0, 0, 1)
    else StatsFor(round.verdicts, if round.clocks.reclaimRaises then 1 else 0)
  }

  ghost predicate JournalsHold(s: MemState) {
    forall id :: id in s.records ==> JournalHolds(s, id)
  }

  ghost predicate SettledAt(cfg: Config, batch: seq<Record>, envs: Id -> Env, verdicts: seq<Verdict>, s: MemState,
      j: nat)
    requires j < |batch| && j < |verdicts|
  {
    var id := batch[j].deliveryId;
    id in s.records && Settled(cfg, batch[j], envs(id), verdicts[j], s.records[id])
  }

  // A batch worked off up to its n-th record: rows outside it are as they were, the rows
  // handled so far are settled and the others still in hand.
  ghost predicate RowsProgress(ready: MemState, cfg: Config, batch: seq<Record>, envs: Id -> Env,
      verdicts: seq<Verdict>, n: nat, s: MemState)
  {
    && Valid(s) && s.order == ready.order && s.records.Keys == ready.records.Keys
    && n <= |verdicts| == |batch| && Distinct(Ids(batch))
    && SameOutside(ready, IdsOf(batch), s)
    && SettledUpTo(cfg, batch, envs, verdicts, n, s)
    && InHandFrom(batch, n, s)
  }

  ghost predicate SameOutside(ready: MemState, ids: set<Id>, s: MemState) {
    forall id :: id in ready.records && id !in ids ==> SameRow(ready, s, id)
  }

  ghost predicate SettledUpTo(cfg: Config, batch: seq<Record>, envs: Id -> Env, verdicts: seq<Verdict>, n: nat,
      s: MemState)
    requires n <= |verdicts| == |batch|
  {
    forall j :: 0 <= j < n ==> SettledAt(cfg, batch, envs, verdicts, s, j)
  }

  ghost predicate InHandFrom(batch: seq<Record>, n: nat, s: MemState) {
    forall j :: n <= j < |batch| ==> InHand(s, batch[j])
  }

  ghost predicate NoneFailed(verdicts: seq<Verdict>) {
    forall j :: 0 <= j < |verdicts| ==> !verdicts[j].Failed?
  }

  lemma ReturningKeepsSent(s: MemState, ids: set<Id>)
    requires forall id :: id in ids ==> id in s.records && s.records[id].status.InFlight?
    ensures SentIds(Returned(s, ids)) == SentIds(s)
  {
  }

  lemma ReturningKeepsJournals(s: MemState, ids: set<Id>)
    requires JournalsHold(s) && forall id :: id in ids ==> id in s.records && s.records[id].status.InFlight?
    ensures JournalsHold(Returned(s, ids))
  {
    forall id | id in s.records ensures JournalHolds(Returned(s, ids), id) {
      assert JournalHolds(s, id);
    }
  }

  // Leasing a set of rows changes their status only.
  lemma LeasingChangesStatusOnly(ready: MemState, ids: set<Id>, expiry: Time)
    requires Valid(ready)
    requires forall id :: id in ids ==> id in ready.records && ready.records[id].status.Claimable()
    ensures var s := LeaseIds(ready, ids, expiry);
      && s.records.Keys == ready.records.Keys
      && (forall id :: id in ready.records && id !in ids ==> SameRow(ready, s, id))
      && (forall id :: id in ids ==> InHand(s, ready.records[id]))
      && SentIds(s) == SentIds(ready)
  {
  }

  lemma LeasingKeepsJournals(ready: MemState, ids: set<Id>, expiry: Time)
    requires forall id :: id in ids ==> id in ready.records && ready.records[id].status.Claimable()
    requires JournalsHold(ready)
    ensures JournalsHold(LeaseIds(ready, ids, expiry))
  {
    forall id | id in ready.records ensures JournalHolds(LeaseIds(ready, ids, expiry), id) {
      assert JournalHolds(ready, id);
    }
  }

  lemma LeasedBatchIsInHand(ready: MemState, cfg: Config, batch: seq<Record>, envs: Id -> Env, verdicts: seq<Verdict>,
      expiry: Time)
    requires Valid(ready) && Distinct(Ids(batch)) && |verdicts| == |batch|
    requires forall r :: r in batch ==>
      r.deliveryId in ready.records && ready.records[r.deliveryId] == r && r.status.Claimable()
    requires Valid(LeaseIds(ready, IdsOf(batch), expiry))
    ensures RowsProgress(ready, cfg, batch, envs, verdicts, 0, LeaseIds(ready, IdsOf(batch), expiry))
    ensures SentIds(LeaseIds(ready, IdsOf(batch), expiry)) == SentIds(ready)
    ensures JournalsHold(ready) ==> JournalsHold(LeaseIds(ready, IdsOf(batch), expiry))
  {
    var s := LeaseIds(ready, IdsOf(batch), expiry);
    LeasingChangesStatusOnly(ready, IdsOf(batch), expiry);
    forall j | 0 <= j < |batch| ensures InHand(s, batch[j]) {
      assert batch[j] in batch;
    }
    if JournalsHold(ready) {
      LeasingKeepsJournals(ready, IdsOf(batch), expiry);
    }
  }

  lemma ClaimPutsInHand(ready: MemState, cfg: Config, now: Time, ttl: nat, n: nat, envs: Id -> Env,
      verdicts: seq<Verdict>)
    requires Valid(ready) && |verdicts| == |Batch(ready.order, ready.records, now, n)|
    ensures RowsProgress(ready, cfg, Batch(ready.order, ready.records, now, n), envs, verdicts, 0,
      Claimed(ready, now, ttl, n))
    ensures SentIds(Claimed(ready, now, ttl, n)) == SentIds(ready)
    ensures JournalsHold(ready) ==> JournalsHold(Claimed(ready, now, ttl, n))
  {
    var batch, expiry := Batch(ready.order, ready.records, now, n), now + Span(ttl);
    assert Claimed(ready, now, ttl, n) == LeaseIds(ready, IdsOf(batch), expiry) == Do(ready, DoClaim(now, ttl, n));
    KeepsValid(ready, DoClaim(now, ttl, n));
    BatchMeetsClaim(ready, now, n);
    BatchIsStored(ready, now, n);
    LeasedBatchIsInHand(ready, cfg, batch, envs, verdicts, expiry);
  }

  lemma JournalsOneMore(s: MemState, id: Id, s': MemState)
    requires JournalsHold(s) && JournalHolds(s', id) && s'.records.Keys == s.records.Keys
    requires s.records.Keys <= s.log.Keys
    requires forall other :: other in s.records && other != id ==>
      SameRow(s, s', other) && other in s'.log && s'.log[other] == s.log[other]
    ensures JournalsHold(s')
  {
    forall other | other in s'.records ensures JournalHolds(s', other) {
      assert JournalHolds(s, other);
      if other != id {
        assert SameRow(s, s', other);
      }
    }
  }

  // The rows of the batch already settled stay so, and those still in hand stay in hand.
  lemma SettledStay(cfg: Config, batch: seq<Record>, envs: Id -> Env, verdicts: seq<Verdict>, i: nat, s: MemState,
      s': MemState)
    requires i < |batch| == |verdicts| && Distinct(Ids(batch))
    requires OthersSame(s, batch[i].deliveryId, s') && SettledUpTo(cfg, batch, envs, verdicts, i, s)
    requires SettledAt(cfg, batch, envs, verdicts, s', i)
    ensures SettledUpTo(cfg, batch, envs, verdicts, i + 1, s')
  {
    forall j | 0 <= j < i ensures SettledAt(cfg, batch, envs, verdicts, s', j) {
      assert SettledAt(cfg, batch, envs, verdicts, s, j);
      assert Ids(batch)[j] != Ids(batch)[i];
      assert SameRow(s, s', batch[j].deliveryId);
    }
  }

  lemma WaitingStayInHand(batch: seq<Record>, i: nat, s: MemState, s': MemState)
    requires i < |batch| && Distinct(Ids(batch))
    requires OthersSame(s, batch[i].deliveryId, s') && InHandFrom(batch, i, s)
    ensures InHandFrom(batch, i + 1, s')
  {
    forall j | i < j < |batch| ensures InHand(s', batch[j]) {
      assert InHand(s, batch[j]);
      assert Ids(batch)[j] != Ids(batch)[i];
      assert SameRow(s, s', batch[j].deliveryId);
    }
  }

  lemma OutsideStays(ready: MemState, ids: set<Id>, id: Id, s: MemState, s': MemState)
    requires id in ids && s.records.Keys == ready.records.Keys
    requires SameOutside(ready, ids, s) && OthersSame(s, id, s')
    ensures SameOutside(ready, ids, s')
  {
    forall other | other in ready.records && other !in ids ensures SameRow(ready, s', other) {
      assert SameRow(ready, s, other) && SameRow(s, s', other);
    }
  }

  lemma RowsProgressOneMore(ready: MemState, cfg: Config, batch: seq<Record>, envs: Id -> Env, verdicts: seq<Verdict>,
      i: nat, s: MemState, s': MemState)
    requires RowsProgress(ready, cfg, batch, envs, verdicts, i, s) && i < |batch|
    requires TouchesOnly(s, batch[i].deliveryId, s')
    requires SettledAt(cfg, batch, envs, verdicts, s', i)
    ensures RowsProgress(ready, cfg, batch, envs, verdicts, i + 1, s')
  {
    assert batch[i] in batch;
    SettledStay(cfg, batch, envs, verdicts, i, s, s');
    WaitingStayInHand(batch, i, s, s');
    OutsideStays(ready, IdsOf(batch), batch[i].deliveryId, s, s');
  }

  // What handling the next record of a batch adds up to.
  ghost predicate Advances(cfg: Config, rec: Record, env: Env, s: MemState, verdict: Verdict, s': MemState)
    requires Valid(s)
  {
    && TouchesOnly(s, rec.deliveryId, s') && rec.deliveryId in s'.records
    && Settled(cfg, rec, env, verdict, s'.records[rec.deliveryId])
    && |SentIds(s')| == |SentIds(s)| + (if verdict.WasSent? then 1 else 0)
    && (JournalsHold(s) && !verdict.Failed? ==> JournalsHold(s'))
  }

  lemma HandlingAdvances(s: MemState, cfg: Config, tick: TickConfig, rec: Record, env: Env, salvage: Salvage,
      verdict: Verdict, s': MemState)
    requires Valid(s) && InHand(s, rec)
    requires Handled(s, cfg, tick, rec, env, salvage, verdict, s')
    ensures Advances(cfg, rec, env, s, verdict, s')
  {
    HandlingTouchesOneRow(s, cfg, tick, rec, env, salvage, verdict, s');
    HandlingCounts(s, rec, verdict, s');
    if JournalsHold(s) && !verdict.Failed? {
      JournalsAfterHandling(s, cfg, tick, rec, env, salvage, verdict, s');
    }
  }

  lemma JournalsAfterHandling(s: MemState, cfg: Config, tick: TickConfig, rec: Record, env: Env, salvage: Salvage,
      verdict: Verdict, s': MemState)
    requires Valid(s) && InHand(s, rec) && JournalsHold(s) && !verdict.Failed?
    requires Handled(s, cfg, tick, rec, env, salvage, verdict, s') && TouchesOnly(s, rec.deliveryId, s')
    ensures JournalsHold(s')
  {
    assert JournalHolds(s, rec.deliveryId);
    HandlingKeepsJournal(s, cfg, tick, rec, env, salvage, verdict, s');
    JournalsOneMore(s, rec.deliveryId, s');
  }

  // ---- Whole ticks ----------------------------------------------------------------------

  lemma RowsHandled(ready: MemState, cfg: Config, tick: TickConfig, batch: seq<Record>, envs: Id -> Env,
      salvage: Salvage, verdicts: seq<Verdict>, i: nat, s: MemState, s': MemState)
    requires RowsProgress(ready, cfg, batch, envs, verdicts, i, s) && i < |batch|
    requires Handled(s, cfg, tick, batch[i], envs(batch[i].deliveryId), salvage, verdicts[i], s')
    ensures Advances(cfg, batch[i], envs(batch[i].deliveryId), s, verdicts[i], s')
    ensures RowsProgress(ready, cfg, batch, envs, verdicts, i + 1, s')
  {
    assert InHand(s, batch[i]);
    HandlingAdvances(s, cfg, tick, batch[i], envs(batch[i].deliveryId), salvage, verdicts[i], s');
    RowsProgressOneMore(ready, cfg, batch, envs, verdicts, i, s, s');
  }

  // The dispatches of a batch, one after the other: each finds its record in hand and
  // settles it.
  lemma {:induction false} GatherProgresses(ready: MemState, cfg: Config, tick: TickConfig, batch: seq<Record>,
      envs: Id -> Env, salvages: Id -> Salvage, verdicts: seq<Verdict>, trace: seq<MemState>, k: nat)
    requires IsGather(cfg, tick, batch, envs, salvages, verdicts, trace) && k <= |batch|
    requires RowsProgress(ready, cfg, batch, envs, verdicts, 0, trace[0])
    ensures RowsProgress(ready, cfg, batch, envs, verdicts, k, trace[k])
    ensures k > 0 ==> StepAdvances(cfg, batch, envs, verdicts, trace, k - 1)
  {
    if k > 0 {
      GatherProgresses(ready, cfg, tick, batch, envs, salvages, verdicts, trace, k - 1);
      assert HandledAt(cfg, tick, batch, envs, salvages, verdicts, trace, k - 1);
      RowsHandled(ready, cfg, tick, batch, envs, salvages(batch[k - 1].deliveryId), verdicts, k - 1,
        trace[k - 1], trace[k]);
    }
  }

  ghost predicate StepAdvances(cfg: Config, batch: seq<Record>, envs: Id -> Env, verdicts: seq<Verdict>,
      trace: seq<MemState>, k: nat)
    requires k < |batch| && k < |verdicts| && k + 1 < |trace|
  {
    Valid(trace[k]) && Advances(cfg, batch[k], envs(batch[k].deliveryId), trace[k], verdicts[k], trace[k + 1])
  }

  lemma {:induction false} CountsAdvance(cfg: Config, batch: seq<Record>, envs: Id -> Env, verdicts: seq<Verdict>,
      trace: seq<MemState>, k: nat)
    requires |verdicts| == |batch| && |trace| == |batch| + 1 && k <= |batch|
    requires forall j :: 0 <= j < |batch| ==> StepAdvances(cfg, batch, envs, verdicts, trace, j)
    ensures |SentIds(trace[k])| == |SentIds(trace[0])| + TallyOf(verdicts[..k]).sent
  {
    if k > 0 {
      CountsAdvance(cfg, batch, envs, verdicts, trace, k - 1);
      assert StepAdvances(cfg, batch, envs, verdicts, trace, k - 1);
      assert verdicts[..k][..k - 1] == verdicts[..k - 1];
    }
  }

  lemma {:induction false} JournalsAdvance(cfg: Config, batch: seq<Record>, envs: Id -> Env, verdicts: seq<Verdict>,
      trace: seq<MemState>, k: nat)
    requires |verdicts| == |batch| && |trace| == |batch| + 1 && k <= |batch|
    requires forall j :: 0 <= j < |batch| ==> StepAdvances(cfg, batch, envs, verdicts, trace, j)
    requires JournalsHold(trace[0]) && NoneFailed(verdicts)
    ensures JournalsHold(trace[k])
  {
    if k > 0 {
      JournalsAdvance(cfg, batch, envs, verdicts, trace, k - 1);
      assert StepAdvances(cfg, batch, envs, verdicts, trace, k - 1);
    }
  }

  lemma OneStepAdvances(ready: MemState, cfg: Config, tick: TickConfig, batch: seq<Record>, envs: Id -> Env,
      salvages: Id -> Salvage, verdicts: seq<Verdict>, trace: seq<MemState>, j: nat)
    requires IsGather(cfg, tick, batch, envs, salvages, verdicts, trace) && j < |batch|
    requires RowsProgress(ready, cfg, batch, envs, verdicts, 0, trace[0])
    ensures StepAdvances(cfg, batch, envs, verdicts, trace, j)
  {
    GatherProgresses(ready, cfg, tick, batch, envs, salvages, verdicts, trace, j + 1);
  }

  lemma AllStepsAdvance(ready: MemState, cfg: Config, tick: TickConfig, batch: seq<Record>, envs: Id -> Env,
      salvages: Id -> Salvage, verdicts: seq<Verdict>, trace: seq<MemState>)
    requires IsGather(cfg, tick, batch, envs, salvages, verdicts, trace)
    requires RowsProgress(ready, cfg, batch, envs, verdicts, 0, trace[0])
    ensures forall j :: 0 <= j < |batch| ==> StepAdvances(cfg, batch, envs, verdicts, trace, j)
  {
    forall j | 0 <= j < |batch| ensures StepAdvances(cfg, batch, envs, verdicts, trace, j) {
      OneStepAdvances(ready, cfg, tick, batch, envs, salvages, verdicts, trace, j);
    }
  }

  // Rows outside the batch are untouched, those of the batch settled as their outcomes
  // say, the sent ones are counted, and gapless journals stay so if nothing failed.
  lemma GatherEffects(ready: MemState, cfg: Config, tick: TickConfig, batch: seq<Record>, envs: Id -> Env,
      salvages: Id -> Salvage, verdicts: seq<Verdict>, trace: seq<MemState>)
    requires IsGather(cfg, tick, batch, envs, salvages, verdicts, trace)
    requires RowsProgress(ready, cfg, batch, envs, verdicts, 0, trace[0])
    ensures RowsProgress(ready, cfg, batch, envs, verdicts, |batch|, trace[|batch|])
    ensures |SentIds(trace[|batch|])| == |SentIds(trace[0])| + TallyOf(verdicts).sent
    ensures JournalsHold(trace[0]) && NoneFailed(verdicts) ==> JournalsHold(trace[|batch|])
  {
    assert verdicts[..|batch|] == verdicts;
    GatherProgresses(ready, cfg, tick, batch, envs, salvages, verdicts, trace, |batch|);
    AllStepsAdvance(ready, cfg, tick, batch, envs, salvages, verdicts, trace);
    CountsAdvance(cfg, batch, envs, verdicts, trace, |batch|);
    if JournalsHold(trace[0]) && NoneFailed(verdicts) {
      JournalsAdvance(cfg, batch, envs, verdicts, trace, |batch|);
    }
  }

  lemma TickEffects(cfg: Config, tick: TickConfig, s: MemState, round: Round, s': MemState)
    requires Valid(s) && IsTick(cfg, tick, s, round, s') && !round.clocks.claimRaises
    ensures RowsProgress(ReadyAt(s, round.clocks), cfg, round.batch, round.envs, round.verdicts, |round.batch|, s')
    ensures |SentIds(s')| == |SentIds(s)| + TallyOf(round.verdicts).sent
    ensures JournalsHold(s) && NoneFailed(round.verdicts) ==> JournalsHold(s')
  {
    var ready := ReadyAt(s, round.clocks);
    ReadyKeeps(s, round.clocks);
    ClaimPutsInHand(ready, cfg, round.clocks.claimNow, tick.leaseTtl, tick.batchSize, round.envs, round.verdicts);
    GatherEffects(ready, cfg, tick, round.batch, round.envs, round.salvages, round.verdicts, round.trace);
  }

  lemma ReadyKeeps(s: MemState, clocks: Clocks)
    requires Valid(s)
    ensures Valid(ReadyAt(s, clocks)) && SentIds(ReadyAt(s, clocks)) == SentIds(s)
    ensures JournalsHold(s) ==> JournalsHold(ReadyAt(s, clocks))
  {
    KeepsValid(s, DoReclaim(clocks.now));
    ReturningKeepsSent(s, StaleIds(s, clocks.now));
    if JournalsHold(s) {
      ReturningKeepsJournals(s, StaleIds(s, clocks.now));
    }
  }

  // A tick begins by taking back every row whose lease ended before its clock: such a row
  // is claimed again or waits, unless the reclaim raised; and what is claimed was due.
  lemma TickTakesBack(cfg: Config, tick: TickConfig, s: MemState, round: Round, s': MemState, id: Id)
    requires Valid(s) && LeasesAgree(s) && IsTick(cfg, tick, s, round, s') && id in s.records
    requires forall r :: r in round.batch ==> r.deliveryId != id
    ensures id in s'.records
    ensures s'.records[id] ==
      if !round.clocks.reclaimRaises && id in s.leases && s.leases[id] < round.clocks.now
      then s.records[id].(status := Pending) else s.records[id]
  {
    var ready := ReadyAt(s, round.clocks);
    assert id in s.leases <==> s.records[id].status.InFlight?;
    if !round.clocks.claimRaises {
      TickEffects(cfg, tick, s, round, s');
      assert id !in IdsOf(round.batch);
      assert SameRow(ready, s', id);
    }
  }

  // `sent` is the growth of the SENT rows.
  lemma TickCounts(cfg: Config, tick: TickConfig, s: MemState, round: Round, s': MemState)
    requires Valid(s) && IsTick(cfg, tick, s, round, s')
    ensures |SentIds(s')| == |SentIds(s)| + StatsOf(round).sent
  {
    ReadyKeeps(s, round.clocks);
    if !round.clocks.claimRaises {
      TickEffects(cfg, tick, s, round, s');
    }
  }

  // The rows of a batch, by what became of them.
  ghost function RowsThatAre(batch: seq<Record>, s: MemState, status: Status): set<nat> {
    set j: nat | j < |batch| && batch[j].deliveryId in s.records && s.records[batch[j].deliveryId].status == status
  }

  // Read off the store after a tick: `sent` and `retried` are the rows of the batch that
  // are SENT and FAILED_RETRY, and the rest are dead or, after an error, still in flight.
  lemma CountersMatchRows(cfg: Config, tick: TickConfig, s: MemState, round: Round, s': MemState)
    requires Valid(s) && IsTick(cfg, tick, s, round, s') && !round.clocks.claimRaises
    ensures StatsOf(round).sent == |RowsThatAre(round.batch, s', Sent)|
    ensures StatsOf(round).retried == |RowsThatAre(round.batch, s', FailedRetry)|
    ensures |RowsThatAre(round.batch, s', InFlight)| <= StatsOf(round).errors
    ensures NoneFailed(round.verdicts) ==> StatsOf(round).dead == |RowsThatAre(round.batch, s', DeadLettered)|
  {
    var batch, verdicts := round.batch, round.verdicts;
    TickEffects(cfg, tick, s, round, s');
    EachIsCounted(verdicts);
    forall j | 0 <= j < |batch| ensures SettledAt(cfg, batch, round.envs, verdicts, s', j) {
    }
    SettledRows(cfg, batch, round.envs, verdicts, s');
  }

  lemma SettledRows(cfg: Config, batch: seq<Record>, envs: Id -> Env, verdicts: seq<Verdict>, s: MemState)
    requires |verdicts| == |batch| && SettledUpTo(cfg, batch, envs, verdicts, |batch|, s)
    ensures RowsThatAre(batch, s, Sent) == Places(verdicts, (v: Verdict) => v.WasSent?)
    ensures RowsThatAre(batch, s, FailedRetry) == Places(verdicts, (v: Verdict) => v.WasRetried?)
    ensures |RowsThatAre(batch, s, InFlight)| <= |Places(verdicts, (v: Verdict) => v.Failed?)|
    ensures NoneFailed(verdicts) ==>
      RowsThatAre(batch, s, DeadLettered) == Places(verdicts, (v: Verdict) => v.WasKilled?)
  {
    forall j: nat | j < |batch| ensures Becomes(verdicts[j], batch[j].deliveryId, s) {
      assert SettledAt(cfg, batch, envs, verdicts, s, j);
    }
    SubsetCount(RowsThatAre(batch, s, InFlight), Places(verdicts, (v: Verdict) => v.Failed?));
  }

  ghost predicate Becomes(verdict: Verdict, id: Id, s: MemState) {
    && id in s.records
    && match verdict
       case WasSent => s.records[id].status == Sent
       case WasRetried(_) => s.records[id].status == FailedRetry
       case WasKilled => s.records[id].status == DeadLettered
       case Failed => s.records[id].status == InFlight || s.records[id].status == DeadLettered
  }

  lemma TickKeepsJournals(cfg: Config, tick: TickConfig, s: MemState, round: Round, s': MemState)
    requires Valid(s) && JournalsHold(s) && IsTick(cfg, tick, s, round, s') && NoneFailed(round.verdicts)
    ensures Valid(s') && JournalsHold(s')
  {
    ReadyKeeps(s, round.clocks);
    if !round.clocks.claimRaises {
      TickEffects(cfg, tick, s, round, s');
    }
  }

  // ---- Runs of arrivals and ticks -----------------------------------------------------------

  datatype Beat = Arrive(record: Record) | Ticked(round: Round)

  // A row that arrives with an empty log must count no attempts yet, the last one of a
  // finished row included.
  predicate ArrivesUnlogged(r: Record) {
    r.attempts + (if r.status.Terminal() then 1 else 0) == 0
  }

  lemma ArrivalKeepsJournals(s: MemState, r: Record)
    requires Valid(s) && JournalsHold(s)
    ensures JournalsHold(EnqueueOne(s, r)) <==> r.deliveryId in s.records || ArrivesUnlogged(r)
  {
    var t := EnqueueOne(s, r);
    if r.deliveryId !in s.records {
      assert JournalHolds(t, r.deliveryId) <==> ArrivesUnlogged(r);
      forall id | id in s.records ensures JournalHolds(t, id) {
        assert JournalHolds(s, id);
      }
      assert r.deliveryId in t.records;
    }
  }

  ghost predicate Beats(cfg: Config, tick: TickConfig, s: MemState, beat: Beat, s': MemState) {
    match beat
    case Arrive(r) => s' == EnqueueOne(s, r)
    case Ticked(round) => IsTick(cfg, tick, s, round, s')
  }

  // Nothing arrives half done, and no dispatch fails.
  predicate Orderly(beat: Beat) {
    match beat
    case Arrive(r) => ArrivesUnlogged(r)
    case Ticked(round) => forall k :: 0 <= k < |round.verdicts| ==> !round.verdicts[k].Failed?
  }

  ghost predicate EngineRun(cfg: Config, tick: TickConfig, ss: seq<MemState>, beats: seq<Beat>) {
    && |ss| == |beats| + 1 && ss[0] == MemState([], map[], map[], map[])
    && forall k :: 0 <= k < |beats| ==> Beats(cfg, tick, ss[k], beats[k], ss[k + 1])
  }

  lemma BeatKeepsJournals(cfg: Config, tick: TickConfig, s: MemState, beat: Beat, s': MemState)
    requires Valid(s) && JournalsHold(s) && Beats(cfg, tick, s, beat, s') && Orderly(beat)
    ensures Valid(s') && JournalsHold(s')
  {
    match beat
    case Arrive(r) =>
      KeepsValid(s, DoEnqueue(r));
      ArrivalKeepsJournals(s, r);
    case Ticked(round) => TickKeepsJournals(cfg, tick, s, round, s');
  }

  // In every run of one engine without a quarantine, each row's attempt log is numbered
  // 1, 2, ..., n, where n is its attempts, plus one when it is finished.
  lemma {:induction false} JournalsStayNumbered(cfg: Config, tick: TickConfig, ss: seq<MemState>, beats: seq<Beat>,
      k: nat)
    requires EngineRun(cfg, tick, ss, beats) && k < |ss|
    requires forall j :: 0 <= j < k ==> Orderly(beats[j])
    ensures Valid(ss[k]) && JournalsHold(ss[k])
  {
    if k > 0 {
      JournalsStayNumbered(cfg, tick, ss, beats, k - 1);
      BeatKeepsJournals(cfg, tick, ss[k - 1], beats[k - 1], ss[k]);
    }
  }
}
