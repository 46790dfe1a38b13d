// The sends of a batch run concurrently, each writing the store when its turn comes.
// However their writes interleave, the store ends up as if they had come one after another.
module Interleaving {
  import opened Delivery
  import opened MemoryStore
  import opened Dispatcher
  import opened Engine

  type Mark = op: Op | IsMark(op) witness DoAppend("", Attempt(0, 0, None, None))

  ghost predicate Known(s: MemState, ops: seq<Mark>) {
    forall k :: 0 <= k < |ops| ==> ops[k].id in s.records
  }

  ghost function DoAll(s: MemState, ops: seq<Mark>): (t: MemState)
    requires Valid(s)
    ensures Valid(t)
  {
    if ops == [] then s
    else
      var before := DoAll(s, ops[..|ops| - 1]);
      KeepsValid(before, ops[|ops| - 1]);
      Do(before, ops[|ops| - 1])
  }

  ghost predicate OwnedBy(ops: seq<Mark>, id: Id) {
    forall k :: 0 <= k < |ops| ==> ops[k].id == id
  }

  // The operations on one row, in their order.
  function Only(ops: seq<Mark>, id: Id): seq<Mark> {
    if ops == [] then []
    else Only(ops[..|ops| - 1], id) + if ops[|ops| - 1].id == id then [ops[|ops| - 1]] else []
  }

  // ---- The store, one row at a time ------------------------------------------------------

  datatype RowView = RowView(record: Record, log: seq<Attempt>, lease: Option<Time>)

  ghost function ViewAt(s: MemState, id: Id): RowView
    requires Valid(s) && id in s.records
  {
    RowView(s.records[id], s.log[id], if id in s.leases then Some(s.leases[id]) else None)
  }

  ghost function MarkedView(v: RowView, op: Mark): RowView {
    RowView(MarkedRecord(v.record, op), v.log + [op.attempt], if op.DoAppend? then v.lease else None)
  }

  ghost function ViewAfter(v: RowView, ops: seq<Mark>): RowView {
    if ops == [] then v else MarkedView(ViewAfter(v, ops[..|ops| - 1]), ops[|ops| - 1])
  }

  lemma ViewAfterOneMore(v: RowView, ops: seq<Mark>, op: Mark)
    ensures ViewAfter(v, ops + [op]) == MarkedView(ViewAfter(v, ops), op)
  {
    assert (ops + [op])[..|ops|] == ops;
  }

  // What marks of known rows leave alone.
  ghost predicate SameFrame(s: MemState, t: MemState) {
    && t.records.Keys == s.records.Keys && t.order == s.order && t.log.Keys == s.log.Keys
    && forall x :: x in s.log && x !in s.records ==> t.log[x] == s.log[x]
  }

  lemma MarkKeepsFrame(s: MemState, op: Mark)
    requires Valid(s) && op.id in s.records
    ensures SameFrame(s, Do(s, op))
  {
    MarkIsChange(s, op);
  }

  lemma MarkOnRow(s: MemState, op: Mark, id: Id)
    requires Valid(s) && op.id in s.records && id in s.records
    ensures Valid(Do(s, op)) && id in Do(s, op).records
    ensures ViewAt(Do(s, op), id) == if op.id == id then MarkedView(ViewAt(s, id), op) else ViewAt(s, id)
  {
    KeepsValid(s, op);
    MarkIsChange(s, op);
  }

  lemma {:induction false} MarksKeepFrame(s: MemState, ops: seq<Mark>)
    requires Valid(s) && Known(s, ops)
    ensures SameFrame(s, DoAll(s, ops))
  {
    if ops != [] {
      MarksKeepFrame(s, ops[..|ops| - 1]);
      MarkKeepsFrame(DoAll(s, ops[..|ops| - 1]), ops[|ops| - 1]);
    }
  }

  lemma ProjectionStep(v: RowView, t: MemState, op: Mark, seen: seq<Mark>, id: Id)
    requires Valid(t) && op.id in t.records && id in t.records && ViewAt(t, id) == ViewAfter(v, seen)
    ensures Valid(Do(t, op)) && id in Do(t, op).records
    ensures ViewAt(Do(t, op), id) == ViewAfter(v, seen + if op.id == id then [op] else [])
  {
    MarkOnRow(t, op, id);
    if op.id == id {
      ViewAfterOneMore(v, seen, op);
    } else {
      assert seen + [] == seen;
    }
  }

  lemma DoneKeepsKnown(s: MemState, ops: seq<Mark>, id: Id)
    requires Valid(s) && Known(s, ops) && id in s.records
    ensures id in DoAll(s, ops).records
  {
    MarksKeepFrame(s, ops);
  }

  // What happens to a row is decided by the operations on that row.
  lemma {:induction false} ProjectionDecides(s: MemState, ops: seq<Mark>, id: Id)
    requires Valid(s) && Known(s, ops) && id in s.records
    ensures id in DoAll(s, ops).records
    ensures ViewAt(DoAll(s, ops), id) == ViewAfter(ViewAt(s, id), Only(ops, id))
  {
    if ops != [] {
      var front, last := ops[..|ops| - 1], ops[|ops| - 1];
      ProjectionDecides(s, front, id);
      DoneKeepsKnown(s, front, last.id);
      ProjectionStep(ViewAt(s, id), DoAll(s, front), last, Only(front, id), id);
    }
  }

  lemma SameViews(t: MemState, u: MemState)
    requires Valid(t) && Valid(u) && SameFrame(t, u)
    requires forall id :: id in t.records ==> ViewAt(t, id) == ViewAt(u, id)
    ensures t == u
  {
    assert t.records == u.records by {
      forall id | id in t.records ensures t.records[id] == u.records[id] {
        assert ViewAt(t, id) == ViewAt(u, id);
      }
    }
    assert t.log == u.log by {
      forall id | id in t.log ensures t.log[id] == u.log[id] {
        assert id in t.records ==> ViewAt(t, id) == ViewAt(u, id);
      }
    }
    SameLeases(t, u);
  }

  lemma SameLeases(t: MemState, u: MemState)
    requires Valid(t) && Valid(u) && t.records.Keys == u.records.Keys
    requires forall id :: id in t.records ==> ViewAt(t, id) == ViewAt(u, id)
    ensures t.leases == u.leases
  {
    forall id ensures id in t.leases <==> id in u.leases {
      assert id in t.records ==> ViewAt(t, id) == ViewAt(u, id);
    }
    forall id | id in t.leases ensures t.leases[id] == u.leases[id] {
      assert ViewAt(t, id) == ViewAt(u, id);
    }
  }

  // Two interleavings of the same work, row by row, end in the same store.
  lemma InterleavingsAgree(s: MemState, xs: seq<Mark>, ys: seq<Mark>)
    requires Valid(s) && Known(s, xs) && Known(s, ys)
    requires forall id :: id in s.records ==> Only(xs, id) == Only(ys, id)
    ensures DoAll(s, xs) == DoAll(s, ys)
  {
    var t, u := DoAll(s, xs), DoAll(s, ys);
    MarksKeepFrame(s, xs);
    MarksKeepFrame(s, ys);
    forall id | id in s.records ensures ViewAt(t, id) == ViewAt(u, id) {
      ProjectionDecides(s, xs, id);
      ProjectionDecides(s, ys, id);
    }
    SameViews(t, u);
  }

  // ---- The gather of a tick ------------------------------------------------------------------

  function MarkOf(id: Id, d: Decision, a: Attempt): (ops: seq<Mark>)
    ensures OwnedBy(ops, id)
  {
    match d
    case Deliver => [DoSent(id, a)]
    case RetryAt(fireAt) => [DoRetry(id, fireAt, a)]
    case Kill => [DoDead(id, a)]
    case Raise => []
  }

  function SalvageOf(id: Id, tick: TickConfig, salvage: Salvage, a: Attempt): (ops: seq<Mark>)
    ensures OwnedBy(ops, id)
  {
    if salvage.appendRaises then []
    else if a.number < tick.maxUnhandled || salvage.buryRaises then [DoAppend(id, a)]
    else [DoAppend(id, a), DoDead(id, a)]
  }

  // The writes of one dispatch: its outcome, or those of its quarantine.
  function WritesOf(cfg: Config, tick: TickConfig, rec: Record, env: Env, salvage: Salvage): (ops: seq<Mark>)
    ensures OwnedBy(ops, rec.deliveryId)
  {
    var d := Decide(cfg, rec, env);
    if !d.Raise? && !env.markRaises then MarkOf(rec.deliveryId, d, AttemptOf(cfg, rec, env))
    else SalvageOf(rec.deliveryId, tick, salvage, SalvageLine(rec, salvage))
  }

  lemma DoesOne(s: MemState, x: Mark)
    requires Valid(s)
    ensures DoAll(s, [x]) == Do(s, x)
  {
    assert [x][..0] == [];
  }

  lemma {:induction false} DoesMore(s: MemState, xs: seq<Mark>, ys: seq<Mark>)
    requires Valid(s)
    ensures DoAll(s, xs + ys) == DoAll(DoAll(s, xs), ys)
  {
    if ys == [] {
      assert xs + ys == xs;
    } else {
      DoesMore(s, xs, ys[..|ys| - 1]);
      assert (xs + ys)[..|xs + ys| - 1] == xs + ys[..|ys| - 1];
    }
  }

  lemma WrittenIsMark(s: MemState, rec: Record, d: Decision, a: Attempt)
    requires Valid(s)
    ensures Written(s, rec, d, a) == DoAll(s, MarkOf(rec.deliveryId, d, a))
  {
    match d
    case Deliver => DoesOne(s, DoSent(rec.deliveryId, a));
    case RetryAt(fireAt) => DoesOne(s, DoRetry(rec.deliveryId, fireAt, a));
    case Kill => DoesOne(s, DoDead(rec.deliveryId, a));
    case Raise =>
  }

  lemma DoesTwo(s: MemState, x: Mark, y: Mark)
    requires Valid(s)
    ensures Valid(Do(s, x)) && DoAll(s, [x, y]) == Do(Do(s, x), y)
  {
    DoesOne(s, x);
    assert [x, y][..1] == [x];
  }

  lemma AppendIsMark(s: MemState, id: Id, a: Attempt)
    requires Valid(s)
    ensures DoAll(s, [DoAppend(id, a)]) == AttemptAppended(s, id, a)
  {
    DoesOne(s, DoAppend(id, a));
  }

  lemma BurialIsTwoMarks(s: MemState, id: Id, a: Attempt)
    requires Valid(s)
    ensures DoAll(s, [DoAppend(id, a), DoDead(id, a)]) == MarkedDead(AttemptAppended(s, id, a), id, a)
  {
    var append: Mark, bury: Mark := DoAppend(id, a), DoDead(id, a);
    DoesTwo(s, append, bury);
    AppendingMarks(s, id, a);
    BuryingMarks(Do(s, append), id, a);
  }

  lemma AppendingMarks(s: MemState, id: Id, a: Attempt)
    requires Valid(s)
    ensures Do(s, DoAppend(id, a)) == AttemptAppended(s, id, a)
  {
  }

  lemma BuryingMarks(t: MemState, id: Id, a: Attempt)
    requires Valid(t)
    ensures Do(t, DoDead(id, a)) == MarkedDead(t, id, a)
  {
  }

  lemma SalvagedIsMarks(s: MemState, rec: Record, tick: TickConfig, salvage: Salvage)
    requires Valid(s)
    ensures Salvaged(s, rec, tick, salvage) ==
      DoAll(s, SalvageOf(rec.deliveryId, tick, salvage, SalvageLine(rec, salvage)))
  {
    AppendIsMark(s, rec.deliveryId, SalvageLine(rec, salvage));
    BurialIsTwoMarks(s, rec.deliveryId, SalvageLine(rec, salvage));
  }

  lemma HandledIsWrites(s: MemState, cfg: Config, tick: TickConfig, rec: Record, env: Env, salvage: Salvage,
      verdict: Verdict, s': MemState)
    requires Valid(s) && rec.deliveryId in s.records
    requires Handled(s, cfg, tick, rec, env, salvage, verdict, s')
    ensures s' == DoAll(s, WritesOf(cfg, tick, rec, env, salvage))
  {
    if Lands(s, cfg, rec, env) {
      WrittenIsMark(s, rec, Decide(cfg, rec, env), AttemptOf(cfg, rec, env));
    } else {
      SalvagedIsMarks(s, rec, tick, salvage);
    }
  }

  // The writes of every dispatch of a round, and of its first n one after the other.
  function WritesAt(cfg: Config, tick: TickConfig, round: Round, k: nat): (ops: seq<Mark>)
    requires k < |round.batch|
    ensures OwnedBy(ops, round.batch[k].deliveryId)
  {
    var id := round.batch[k].deliveryId;
    WritesOf(cfg, tick, round.batch[k], round.envs(id), round.salvages(id))
  }

  function AllWrites(cfg: Config, tick: TickConfig, round: Round): (writes: seq<seq<Mark>>)
    ensures |writes| == |round.batch|
    ensures forall k :: 0 <= k < |writes| ==> writes[k] == WritesAt(cfg, tick, round, k)
  {
    seq(|round.batch|, k requires 0 <= k < |round.batch| => WritesAt(cfg, tick, round, k))
  }

  function InTurn(writes: seq<seq<Mark>>, n: nat): seq<Mark>
    requires n <= |writes|
  {
    if n == 0 then [] else InTurn(writes, n - 1) + writes[n - 1]
  }

  // The k-th list of writes is about the k-th row.
  ghost predicate OwnWrites(writes: seq<seq<Mark>>, ids: seq<Id>) {
    |writes| == |ids| && forall k :: 0 <= k < |writes| ==> OwnedBy(writes[k], ids[k])
  }

  lemma BatchOwnsWrites(cfg: Config, tick: TickConfig, round: Round)
    ensures OwnWrites(AllWrites(cfg, tick, round), Ids(round.batch))
  {
  }

  lemma {:induction false} InTurnAreKnown(s: MemState, writes: seq<seq<Mark>>, ids: seq<Id>, n: nat)
    requires OwnWrites(writes, ids) && n <= |ids| && forall k :: 0 <= k < |ids| ==> ids[k] in s.records
    ensures Known(s, InTurn(writes, n))
  {
    if n > 0 {
      InTurnAreKnown(s, writes, ids, n - 1);
    }
  }

  ghost predicate IsKnownBatch(s: MemState, batch: seq<Record>) {
    Distinct(Ids(batch)) && forall k :: 0 <= k < |batch| ==> Ids(batch)[k] in s.records
  }

  lemma StepIsWrites(cfg: Config, tick: TickConfig, round: Round, k: nat)
    requires IsGather(cfg, tick, round.batch, round.envs, round.salvages, round.verdicts, round.trace)
    requires k < |round.batch|
    requires Valid(round.trace[k]) && Ids(round.batch)[k] in round.trace[k].records
    ensures round.trace[k + 1] == DoAll(round.trace[k], AllWrites(cfg, tick, round)[k])
  {
    var rec := round.batch[k];
    assert HandledAt(cfg, tick, round.batch, round.envs, round.salvages, round.verdicts, round.trace, k);
    HandledIsWrites(round.trace[k], cfg, tick, rec, round.envs(rec.deliveryId), round.salvages(rec.deliveryId),
                    round.verdicts[k], round.trace[k + 1]);
  }

  lemma InTurnOneMore(s: MemState, writes: seq<seq<Mark>>, n: nat, t: MemState)
    requires Valid(s) && 0 < n <= |writes|
    requires Valid(DoAll(s, InTurn(writes, n - 1))) && t == DoAll(DoAll(s, InTurn(writes, n - 1)), writes[n - 1])
    ensures t == DoAll(s, InTurn(writes, n))
  {
    DoesMore(s, InTurn(writes, n - 1), writes[n - 1]);
  }

  ghost predicate WritesStep(trace: seq<MemState>, writes: seq<seq<Mark>>, ids: seq<Id>, k: nat)
    requires k < |writes| == |ids| && k + 1 < |trace|
  {
    Valid(trace[k]) && ids[k] in trace[k].records ==> trace[k + 1] == DoAll(trace[k], writes[k])
  }

  lemma TraceStepsInTurn(s: MemState, writes: seq<seq<Mark>>, ids: seq<Id>, n: nat, t: MemState, t': MemState)
    requires Valid(s) && OwnWrites(writes, ids) && n < |ids| && forall k :: 0 <= k < |ids| ==> ids[k] in s.records
    requires t == DoAll(s, InTurn(writes, n))
    requires Valid(t) && ids[n] in t.records ==> t' == DoAll(t, writes[n])
    ensures t' == DoAll(s, InTurn(writes, n + 1))
  {
    InTurnAreKnown(s, writes, ids, n);
    DoneKeepsKnown(s, InTurn(writes, n), ids[n]);
    InTurnOneMore(s, writes, n + 1, t');
  }

  lemma {:induction false} TraceIsInTurn(s: MemState, trace: seq<MemState>, writes: seq<seq<Mark>>, ids: seq<Id>,
      n: nat)
    requires Valid(s) && OwnWrites(writes, ids) && n <= |ids| && forall k :: 0 <= k < |ids| ==> ids[k] in s.records
    requires |trace| == |ids| + 1 && trace[0] == s && forall k :: 0 <= k < |ids| ==> WritesStep(trace, writes, ids, k)
    ensures trace[n] == DoAll(s, InTurn(writes, n))
  {
    if n > 0 {
      TraceIsInTurn(s, trace, writes, ids, n - 1);
      assert WritesStep(trace, writes, ids, n - 1);
      TraceStepsInTurn(s, writes, ids, n - 1, trace[n - 1], trace[n]);
    }
  }

  lemma GatherIsInTurn(s: MemState, cfg: Config, tick: TickConfig, round: Round)
    requires Valid(s) && IsKnownBatch(s, round.batch)
    requires IsGather(cfg, tick, round.batch, round.envs, round.salvages, round.verdicts, round.trace)
    requires round.trace[0] == s
    ensures round.trace[|round.batch|] == DoAll(s, InTurn(AllWrites(cfg, tick, round), |round.batch|))
  {
    var writes, ids := AllWrites(cfg, tick, round), Ids(round.batch);
    BatchOwnsWrites(cfg, tick, round);
    forall k | 0 <= k < |ids| ensures WritesStep(round.trace, writes, ids, k) {
      if Valid(round.trace[k]) && ids[k] in round.trace[k].records {
        StepIsWrites(cfg, tick, round, k);
      }
    }
    TraceIsInTurn(s, round.trace, writes, ids, |ids|);
  }

  // ---- Any other order -------------------------------------------------------------------------

  lemma {:induction false} OnlyOfSum(xs: seq<Mark>, ys: seq<Mark>, id: Id)
    ensures Only(xs + ys, id) == Only(xs, id) + Only(ys, id)
  {
    if ys == [] {
      assert xs + ys == xs;
    } else {
      OnlyOfSum(xs, ys[..|ys| - 1], id);
      assert (xs + ys)[..|xs + ys| - 1] == xs + ys[..|ys| - 1];
    }
  }

  lemma {:induction false} OnlyOfOne(ops: seq<Mark>, owner: Id, id: Id)
    requires OwnedBy(ops, owner)
    ensures Only(ops, id) == if id == owner then ops else []
  {
    if ops != [] {
      OnlyOfOne(ops[..|ops| - 1], owner, id);
      assert ops == ops[..|ops| - 1] + [ops[|ops| - 1]];
    }
  }

  lemma OnlyAfterOwn(front: seq<Mark>, own: seq<Mark>, id: Id)
    requires OwnedBy(own, id)
    ensures Only(front + own, id) == Only(front, id) + own
  {
    OnlyOfSum(front, own, id);
    OnlyOfOne(own, id, id);
  }

  lemma OnlyAfterOther(front: seq<Mark>, more: seq<Mark>, owner: Id, id: Id)
    requires owner != id && OwnedBy(more, owner)
    ensures Only(front + more, id) == Only(front, id)
  {
    OnlyOfSum(front, more, id);
    OnlyOfOne(more, owner, id);
    assert Only(front, id) + [] == Only(front, id);
  }

  lemma {:induction false} NoneInTurn(writes: seq<seq<Mark>>, ids: seq<Id>, n: nat, id: Id)
    requires OwnWrites(writes, ids) && n <= |ids| && id !in ids[..n]
    ensures Only(InTurn(writes, n), id) == []
  {
    if n > 0 {
      assert ids[..n] == ids[..n - 1] + [ids[n - 1]];
      NoneInTurn(writes, ids, n - 1, id);
      OnlyAfterOther(InTurn(writes, n - 1), writes[n - 1], ids[n - 1], id);
    }
  }

  lemma OwnTurn(writes: seq<seq<Mark>>, ids: seq<Id>, k: nat)
    requires OwnWrites(writes, ids) && Distinct(ids) && k < |ids|
    ensures Only(InTurn(writes, k + 1), ids[k]) == writes[k]
  {
    NoneInTurn(writes, ids, k, ids[k]);
    OnlyAfterOwn(InTurn(writes, k), writes[k], ids[k]);
    assert [] + writes[k] == writes[k];
  }

  // Taken in turn, each row sees the writes of its own dispatch and no others.
  lemma {:induction false} OnlyInTurn(writes: seq<seq<Mark>>, ids: seq<Id>, n: nat, k: nat)
    requires OwnWrites(writes, ids) && Distinct(ids) && k < n <= |ids|
    ensures Only(InTurn(writes, n), ids[k]) == writes[k]
  {
    if n == k + 1 {
      OwnTurn(writes, ids, k);
    } else {
      OnlyInTurn(writes, ids, n - 1, k);
      OnlyAfterOther(InTurn(writes, n - 1), writes[n - 1], ids[n - 1], ids[k]);
    }
  }

  lemma {:induction false} OnlyOfStranger(ops: seq<Mark>, id: Id)
    requires forall k :: 0 <= k < |ops| ==> ops[k].id != id
    ensures Only(ops, id) == []
  {
    if ops != [] {
      OnlyOfStranger(ops[..|ops| - 1], id);
    }
  }

  // An interleaving of lists of writes: each row sees its own list in order, and nothing
  // else is written.
  ghost predicate Interleaves(writes: seq<seq<Mark>>, ids: seq<Id>, ops: seq<Mark>)
    requires |writes| == |ids|
  {
    && (forall k :: 0 <= k < |ids| ==> Only(ops, ids[k]) == writes[k])
    && (forall j :: 0 <= j < |ops| ==> ops[j].id in ids)
  }

  lemma AnyOrderIsInTurn(s: MemState, writes: seq<seq<Mark>>, ids: seq<Id>, ops: seq<Mark>)
    requires Valid(s) && Distinct(ids) && forall k :: 0 <= k < |ids| ==> ids[k] in s.records
    requires OwnWrites(writes, ids) && Interleaves(writes, ids, ops)
    ensures DoAll(s, ops) == DoAll(s, InTurn(writes, |ids|))
  {
    InTurnAreKnown(s, writes, ids, |ids|);
    forall id | id in s.records ensures Only(ops, id) == Only(InTurn(writes, |ids|), id) {
      if id in ids {
        var k :| 0 <= k < |ids| && ids[k] == id;
        OnlyInTurn(writes, ids, |ids|, k);
      } else {
        OnlyOfStranger(ops, id);
        assert ids[..|ids|] == ids;
        NoneInTurn(writes, ids, |ids|, id);
      }
    }
    InterleavingsAgree(s, ops, InTurn(writes, |ids|));
  }

  // The tick's gather runs its sends concurrently; whatever the interleaving of their
  // writes, the store ends exactly where one send after the other would have left it.
  lemma EveryInterleavingIsTheGather(s: MemState, cfg: Config, tick: TickConfig, round: Round, ops: seq<Mark>)
    requires Valid(s) && IsKnownBatch(s, round.batch)
    requires IsGather(cfg, tick, round.batch, round.envs, round.salvages, round.verdicts, round.trace)
    requires round.trace[0] == s
    requires Interleaves(AllWrites(cfg, tick, round), Ids(round.batch), ops)
    ensures DoAll(s, ops) == round.trace[|round.batch|]
  {
    BatchOwnsWrites(cfg, tick, round);
    GatherIsInTurn(s, cfg, tick, round);
    AnyOrderIsInTurn(s, AllWrites(cfg, tick, round), Ids(round.batch), ops);
  }

  // So what a tick leaves behind does not depend on how its sends were scheduled.
  lemma TickIgnoresSchedule(cfg: Config, tick: TickConfig, s: MemState, round: Round, s': MemState, ops: seq<Mark>)
    requires Valid(s) && IsTick(cfg, tick, s, round, s') && !round.clocks.claimRaises
    requires Interleaves(AllWrites(cfg, tick, round), Ids(round.batch), ops)
    ensures
      var claimed := Claimed(ReadyAt(s, round.clocks), round.clocks.claimNow, tick.leaseTtl, tick.batchSize);
      Valid(claimed) && s' == DoAll(claimed, ops)
  {
    var ready := ReadyAt(s, round.clocks);
    ClaimPutsInHand(ready, cfg, round.clocks.claimNow, tick.leaseTtl, tick.batchSize, round.envs, round.verdicts);
    var claimed := Claimed(ready, round.clocks.claimNow, tick.leaseTtl, tick.batchSize);
    forall k | 0 <= k < |round.batch| ensures Ids(round.batch)[k] in claimed.records {
      assert InHand(claimed, round.batch[k]);
    }
    EveryInterleavingIsTheGather(claimed, cfg, tick, round, ops);
  }
}
