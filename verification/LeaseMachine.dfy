// The abstract lease queue that all four delivery stores implement: a delivery
// is ready from some time on, leased until some time, or done.  Every store is
// shown, in its own module, to take only the steps of this machine.
module LeaseMachine {
  import opened Delivery

  datatype View = Ready(fireAt: Time) | Leased(expiry: Time) | Done

  type Queue = map<Id, View>

  ghost function Due(q: Queue, now: Time): set<Id> {
    set id | id in q && q[id].Ready? && q[id].fireAt <= now
  }

  ghost function DueTimes(q: Queue, now: Time): map<Id, Time> {
    map id | id in Due(q, now) :: q[id].fireAt
  }

  // ---- What one atomic claim may take ----------------------------------------------

  // The first `n` ids by time, in that order, ties broken in any way at all.
  ghost predicate Earliest(times: map<Id, Time>, n: nat, ids: seq<Id>) {
    && Distinct(ids)
    && (forall i :: 0 <= i < |ids| ==> ids[i] in times)
    && |ids| == Min(n, |times|)
    && (forall i, j :: 0 <= i < j < |ids| ==> times[ids[i]] <= times[ids[j]])
    && (forall i, id :: 0 <= i < |ids| && id in times && id !in ids ==> times[ids[i]] <= times[id])
  }

  // Cutting any listing in time order off at `n` is such a choice.
  lemma SortedPrefixIsEarliest(times: map<Id, Time>, n: nat, line: seq<Id>)
    requires Distinct(line) && Elements(line) == times.Keys
    requires forall i :: 0 <= i < |line| ==> line[i] in times
    requires forall i, j :: 0 <= i < j < |line| ==> times[line[i]] <= times[line[j]]
    ensures Earliest(times, n, line[..Min(n, |line|)])
  {
    DistinctCount(line);
    var ids := line[..Min(n, |line|)];
    forall i, id | 0 <= i < |ids| && id in times && id !in ids
      ensures times[ids[i]] <= times[id]
    {
      assert id in Elements(line);
      var k :| 0 <= k < |line| && line[k] == id;
      LaterInLine(line, |ids|, k);
    }
  }

  lemma LaterInLine(line: seq<Id>, m: nat, k: nat)
    requires m <= |line| && k < |line| && line[k] !in line[..m]
    ensures m <= k
  {
    assert forall j :: 0 <= j < m ==> line[..m][j] == line[j];
  }

  // So is taking a minimum of what is left, over and over.
  lemma ExtractMinIsEarliest(times: map<Id, Time>, ids: seq<Id>, least: Id)
    requires Earliest(times, |ids|, ids)
    requires least in times && least !in ids
    requires forall id :: id in times && id !in ids ==> times[least] <= times[id]
    ensures Earliest(times, |ids| + 1, ids + [least])
  {
    DistinctCount(ids + [least]);
    SubsetCount(Elements(ids + [least]), times.Keys);
  }

  lemma ExhaustedIsEarliest(times: map<Id, Time>, ids: seq<Id>, n: nat)
    requires Earliest(times, |ids|, ids) && |ids| <= n
    requires forall id :: id in times ==> id in ids
    ensures Earliest(times, n, ids)
  {
    DistinctCount(ids);
    assert Elements(ids) == times.Keys;
  }

  lemma {:induction false} SomeTimeIsLeast(times: map<Id, Time>, ids: set<Id>) returns (least: Id)
    requires ids != {} && ids <= times.Keys
    ensures least in ids && forall id :: id in ids ==> times[least] <= times[id]
  {
    least :| least in ids;
    var rest := ids - {least};
    if rest != {} {
      var next := SomeTimeIsLeast(times, rest);
      if times[next] <= times[least] {
        least := next;
      }
    }
  }

  // Two stores that break ties differently still take the same firing times, in
  // the same order: sort-and-slice, extract-min and a score range cannot drift.
  lemma ClaimTimesAreUnique(times: map<Id, Time>, n: nat, a: seq<Id>, b: seq<Id>, i: nat)
    requires Earliest(times, n, a) && Earliest(times, n, b)
    requires i < |a|
    ensures |a| == |b| && times[a[i]] == times[b[i]]
  {
    if times[a[i]] < times[b[i]] {
      NoEarlierRank(times, n, a, b, i);
    } else if times[b[i]] < times[a[i]] {
      NoEarlierRank(times, n, b, a, i);
    }
  }

  // The i-th time of one choice is never below the i-th time of another: i + 1
  // ids are due by a[i]'s time, but b would leave room for only i of them.
  lemma NoEarlierRank(times: map<Id, Time>, n: nat, a: seq<Id>, b: seq<Id>, i: nat)
    requires Earliest(times, n, a) && Earliest(times, n, b)
    requires i < |a|
    ensures times[b[i]] <= times[a[i]]
  {
    if times[a[i]] < times[b[i]] {
      var early, room := a[..i + 1], b[..i];
      forall id | id in early ensures id in room {
        var k :| 0 <= k < |early| && early[k] == id;
        assert times[a[k]] <= times[a[i]];
        if id in b {
          var m :| 0 <= m < |b| && b[m] == id;
          assert m < i;
          assert room[m] == id;
        }
      }
      DistinctCount(early);
      DistinctCount(room);
      SubsetCount(Elements(early), Elements(room));
    }
  }

  // A query for the first `n` ids by time, as an ORDER BY ... LIMIT or a score
  // range answers it.
  method TakeEarliest(times: map<Id, Time>, n: nat) returns (ids: seq<Id>)
    ensures Earliest(times, n, ids)
  {
    ids := [];
    var left := times;
    while |ids| < n && left != map[]
      invariant Earliest(times, |ids|, ids) && |ids| <= n
      invariant forall id :: id in left <==> id in times && id !in ids
      invariant forall id :: id in left ==> left[id] == times[id]
      decreases n - |ids|
    {
      ghost var found := SomeTimeIsLeast(left, left.Keys);
      var least :| least in left && forall other :: other in left ==> left[least] <= left[other];
      ExtractMinIsEarliest(times, ids, least);
      ids := ids + [least];
      left := left - {least};
    }
    if |ids| < n {
      ExhaustedIsEarliest(times, ids, n);
    }
  }

  // ---- Runs -----------------------------------------------------------------

  // One atomic store step.  A claim may take any set of due rows, so rows another
  // transaction has locked may be skipped and a loop of one-row claims is a run.
  datatype Step =
    | Enqueue(id: Id, view: View)
    | Claim(batch: set<Id>, at: Time, expiry: Time)
    | Reclaim(at: Time, fires: map<Id, Time>)
    | Retry(id: Id, fireAt: Time)
    | Finish(id: Id)
    | Note

  // `inclusive` says whether a lease that ends exactly now already counts as stale.
  ghost predicate Stale(expiry: Time, at: Time, inclusive: bool) {
    expiry < at || (inclusive && expiry == at)
  }

  // Retry and Finish are guarded by nothing but the id: the stores check neither
  // the status nor the lease of the row they mark.
  ghost predicate Enabled(inclusive: bool, q: Queue, s: Step) {
    match s
    case Enqueue(id, _) => id !in q
    case Claim(batch, at, _) => batch <= Due(q, at)
    case Reclaim(at, fires) =>
      forall id :: id in fires ==> id in q && q[id].Leased? && Stale(q[id].expiry, at, inclusive)
    case Retry(id, _) => id in q
    case Finish(id) => id in q
    case Note => true
  }

  ghost function Apply(q: Queue, s: Step): Queue {
    match s
    case Enqueue(id, view) => q[id := view]
    case Claim(batch, _, expiry) => map id | id in q :: if id in batch then Leased(expiry) else q[id]
    case Reclaim(_, fires) => map id | id in q :: if id in fires then Ready(fires[id]) else q[id]
    case Retry(id, fireAt) => q[id := Ready(fireAt)]
    case Finish(id) => q[id := Done]
    case Note => q
  }

  ghost predicate Moves(inclusive: bool, q: Queue, s: Step, q': Queue) {
    Enabled(inclusive, q, s) && q' == Apply(q, s)
  }

  // A run: the queue before every step and after the last one.
  ghost predicate Run(inclusive: bool, qs: seq<Queue>, steps: seq<Step>) {
    && |qs| == |steps| + 1
    && forall k :: 0 <= k < |steps| ==> Moves(inclusive, qs[k], steps[k], qs[k + 1])
  }

  ghost predicate Takes(s: Step, id: Id) {
    s.Claim? && id in s.batch
  }

  // What makes a second claim of `id` legitimate after a claim that ran to `expiry`.
  ghost predicate Justifies(inclusive: bool, s: Step, id: Id, expiry: Time) {
    || (s.Retry? && s.id == id)
    || (s.Reclaim? && id in s.fires && Stale(expiry, s.at, inclusive))
  }

  ghost predicate Held(q: Queue, id: Id, expiry: Time) {
    id in q && (q[id] == Leased(expiry) || q[id] == Done)
  }

  lemma ClaimStartsHold(inclusive: bool, q: Queue, s: Step, q': Queue, id: Id)
    requires Moves(inclusive, q, s, q') && Takes(s, id)
    ensures Held(q', id, s.expiry)
  {
    assert id in Due(q, s.at);
  }

  lemma StepKeepsHold(inclusive: bool, q: Queue, s: Step, q': Queue, id: Id, expiry: Time)
    requires Moves(inclusive, q, s, q') && Held(q, id, expiry)
    requires !Justifies(inclusive, s, id, expiry)
    ensures Held(q', id, expiry)
  {
  }

  // Until something justifies it, a claimed row stays leased to that claim or is done.
  lemma {:induction false} HeldUntilJustified(inclusive: bool, qs: seq<Queue>, steps: seq<Step>, i: nat, m: nat, id: Id)
    requires Run(inclusive, qs, steps)
    requires i < m <= |steps| && Takes(steps[i], id)
    requires forall k :: i < k < m ==> !Justifies(inclusive, steps[k], id, steps[i].expiry)
    ensures Held(qs[m], id, steps[i].expiry)
    decreases m
  {
    if m == i + 1 {
      ClaimStartsHold(inclusive, qs[i], steps[i], qs[m], id);
    } else {
      HeldUntilJustified(inclusive, qs, steps, i, m - 1, id);
      StepKeepsHold(inclusive, qs[m - 1], steps[m - 1], qs[m], id, steps[i].expiry);
    }
  }

  // Between two claims of one delivery, in any run of any number of workers, there
  // is a scheduled retry of it or a reclaim of it after the first lease ran out.
  lemma SecondClaimIsJustified(inclusive: bool, qs: seq<Queue>, steps: seq<Step>, i: nat, j: nat, id: Id)
    requires Run(inclusive, qs, steps)
    requires i < j < |steps| && Takes(steps[i], id) && Takes(steps[j], id)
    ensures exists k :: i < k < j && Justifies(inclusive, steps[k], id, steps[i].expiry)
  {
    assert Moves(inclusive, qs[j], steps[j], qs[j + 1]);
    assert id in Due(qs[j], steps[j].at);
    if forall k :: i < k < j ==> !Justifies(inclusive, steps[k], id, steps[i].expiry) {
      HeldUntilJustified(inclusive, qs, steps, i, j, id);
    }
  }

  // Interleaved claims with no retry and no reclaim among them are disjoint.
  lemma ClaimLoopsAreDisjoint(inclusive: bool, qs: seq<Queue>, steps: seq<Step>, i: nat, j: nat)
    requires Run(inclusive, qs, steps)
    requires i < j < |steps| && steps[i].Claim? && steps[j].Claim?
    requires forall k :: i < k < j ==> !steps[k].Retry? && !steps[k].Reclaim?
    ensures steps[i].batch !! steps[j].batch
  {
    forall id | id in steps[i].batch && id in steps[j].batch ensures false {
      SecondClaimIsJustified(inclusive, qs, steps, i, j, id);
    }
  }

  // No step of any worker makes a delivery disappear.
  lemma {:induction false} NothingIsLost(inclusive: bool, qs: seq<Queue>, steps: seq<Step>, k: nat, m: nat)
    requires Run(inclusive, qs, steps)
    requires k <= m <= |steps|
    ensures qs[k].Keys <= qs[m].Keys
    decreases m
  {
    if k < m {
      NothingIsLost(inclusive, qs, steps, k, m - 1);
      assert Moves(inclusive, qs[m - 1], steps[m - 1], qs[m]);
    }
  }

  // ---- How long a lease protects its holder ------------------------------------------------

  // Since the i-th step no reclaim read a clock later than `now`, and nobody retried the row.
  ghost predicate Undisturbed(steps: seq<Step>, i: nat, j: nat, id: Id, now: Time)
    requires j <= |steps|
  {
    forall k :: i < k < j ==> (steps[k].Reclaim? ==> steps[k].at <= now) && !(steps[k].Retry? && steps[k].id == id)
  }

  // A worker that claimed the row in step i and acts at `now`, at most `late` after its
  // lease, before step j, still holds it.
  ghost predicate StillHolds(inclusive: bool, qs: seq<Queue>, steps: seq<Step>, i: nat, j: nat, id: Id,
      now: Time, late: int)
  {
    Run(inclusive, qs, steps) && i < j <= |steps| && Takes(steps[i], id)
    && now <= steps[i].expiry + late && Undisturbed(steps, i, j, id, now)
    ==> Held(qs[j], id, steps[i].expiry)
  }

  ghost predicate Protects(inclusive: bool, late: int) {
    forall qs, steps, i: nat, j: nat, id, now :: StillHolds(inclusive, qs, steps, i, j, id, now, late)
  }

  // Where a reclaim is strict, a lease protects its holder up to and including its last
  // instant; where it is inclusive, as on Redis, up to the instant before, and no longer.
  lemma LeaseProtectsExactly(inclusive: bool, late: int)
    ensures Protects(inclusive, late) <==> late <= if inclusive then -1 else 0
  {
    if late <= if inclusive then -1 else 0 {
      forall qs, steps, i: nat, j: nat, id, now ensures StillHolds(inclusive, qs, steps, i, j, id, now, late) {
        OnTimeMeansHeld(inclusive, qs, steps, i, j, id, now, late);
      }
    } else {
      LostJustAfter(inclusive, late);
    }
  }

  lemma OnTimeMeansHeld(inclusive: bool, qs: seq<Queue>, steps: seq<Step>, i: nat, j: nat, id: Id,
      now: Time, late: int)
    requires late <= if inclusive then -1 else 0
    ensures StillHolds(inclusive, qs, steps, i, j, id, now, late)
  {
    if && Run(inclusive, qs, steps) && i < j <= |steps| && Takes(steps[i], id)
       && now <= steps[i].expiry + late && Undisturbed(steps, i, j, id, now)
    {
      HeldUntilJustified(inclusive, qs, steps, i, j, id);
    }
  }

  lemma LostJustAfter(inclusive: bool, late: int)
    requires late > if inclusive then -1 else 0
    ensures !Protects(inclusive, late)
  {
    var now := if inclusive then 0 else 1;
    var id: Id := "d";
    var steps := [Claim({id}, 0, 0), Reclaim(now, map[id := 0])];
    var qs := [map[id := Ready(0)], map[id := Leased(0)], map[id := Ready(0)]];
    assert Due(qs[0], 0) == {id};
    assert qs[1] == Apply(qs[0], steps[0]) && qs[2] == Apply(qs[1], steps[1]);
    assert !StillHolds(inclusive, qs, steps, 0, 2, id, now, late);
  }
}
