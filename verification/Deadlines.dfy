// How late a replica may write an outcome: not at all.  The marks check neither status
// nor lease, so whether finished rows stay finished is decided by the clocks alone.
module Deadlines {
  import opened Delivery
  import opened RowTable
  import opened Replicas

  ghost predicate StaysFinished(ws: seq<World>, i: nat, j: nat, id: Id)
    requires i < |ws| && j < |ws|
  {
    id in ws[i].table && ws[i].table[id].record.status.Terminal() ==>
      id in ws[j].table && ws[j].table[id] == ws[i].table[id]
  }

  ghost predicate KeepsFinished(ws: seq<World>) {
    forall i, j, id :: 0 <= i <= j < |ws| ==> StaysFinished(ws, i, j, id)
  }

  ghost predicate StaysClosed(ws: seq<World>, i: nat, j: nat, id: Id)
    requires i < |ws| && j < |ws|
  {
    id in ws[i].table && ws[i].table[id].record.status.Terminal() ==>
      id in ws[j].table && ws[j].table[id].record.status.Terminal()
  }

  ghost predicate NeverReopens(ws: seq<World>) {
    forall i, j, id :: 0 <= i <= j < |ws| ==> StaysClosed(ws, i, j, id)
  }

  // In every run whose outcomes are at most `late` late, a finished row never changes ...
  ghost predicate AlwaysFinal(limits: Limits, late: int) {
    forall ws, acts :: Run(limits, ws, acts) && LateBy(ws, acts, late) ==> KeepsFinished(ws)
  }

  // ... or is at least never queued again.
  ghost predicate AlwaysClosed(limits: Limits, late: int) {
    forall ws, acts :: Run(limits, ws, acts) && LateBy(ws, acts, late) ==> NeverReopens(ws)
  }

  lemma OnTimeIsTimely(ws: seq<World>, acts: seq<Action>, late: int)
    requires |ws| == |acts| + 1 && late <= 0 && LateBy(ws, acts, late)
    ensures Timely(ws, acts)
  {
    forall k | 0 <= k < |acts| ensures ActsBy(ws[k], acts[k], 0) {
      assert ActsBy(ws[k], acts[k], late);
    }
  }

  lemma TimelyRunsAreFinal(limits: Limits, ws: seq<World>, acts: seq<Action>)
    requires Run(limits, ws, acts) && Timely(ws, acts)
    ensures KeepsFinished(ws)
  {
    forall k | 0 <= k < |acts| ensures ByItsHolder(ws[k], acts[k]) {
      TimelyReplicasAreDisciplined(limits, ws, acts, k);
    }
    forall i, j, id | 0 <= i <= j < |ws| ensures StaysFinished(ws, i, j, id) {
      if id in ws[i].table && ws[i].table[id].record.status.Terminal() {
        FinishedRowsNeverChange(limits, ws, acts, i, j, id);
      }
    }
  }

  // Finished rows stay as they are in all runs exactly when no outcome is written after
  // the end of its lease: one microsecond is too much, whatever the limits.
  lemma FinalExactlyWithinLeases(limits: Limits, late: int)
    ensures AlwaysFinal(limits, late) <==> late <= 0
  {
    if late <= 0 {
      forall ws, acts | Run(limits, ws, acts) && LateBy(ws, acts, late) ensures KeepsFinished(ws) {
        OnTimeIsTimely(ws, acts, late);
        TimelyRunsAreFinal(limits, ws, acts);
      }
    } else {
      var r := FreshRecord("default");
      var ws, acts := LateOutcome(limits, r, Exhausted);
      MoreIsAllowed(ws, acts, late);
      assert !StaysFinished(ws, |acts| - 1, |acts|, r.deliveryId);
    }
  }

  // With a profile that retries at all, the same deadline decides whether a delivery
  // that was sent or buried can ever be sent again.
  lemma ClosedExactlyWithinLeases(limits: Limits, profile: string, late: int)
    requires limits.maxAttempts(profile) >= 2
    ensures AlwaysClosed(limits, late) <==> late <= 0
  {
    if late <= 0 {
      forall ws, acts | Run(limits, ws, acts) && LateBy(ws, acts, late) ensures NeverReopens(ws) {
        OnTimeIsTimely(ws, acts, late);
        TimelyRunsAreFinal(limits, ws, acts);
        forall i, j, id | 0 <= i <= j < |ws| ensures StaysClosed(ws, i, j, id) {
          assert StaysFinished(ws, i, j, id);
        }
      }
    } else {
      var ws, acts := LateReplicaUndoesASend(limits, FreshRecord(profile));
      MoreIsAllowed(ws, acts, late);
      assert !StaysClosed(ws, |acts| - 1, |acts|, FreshRecord(profile).deliveryId);
    }
  }

  lemma MoreIsAllowed(ws: seq<World>, acts: seq<Action>, late: int)
    requires |ws| == |acts| + 1 && late >= 1 && LateBy(ws, acts, 1)
    ensures LateBy(ws, acts, late)
  {
    forall k | 0 <= k < |acts| ensures ActsBy(ws[k], acts[k], late) {
      assert ActsBy(ws[k], acts[k], 1);
    }
  }

  // ---- A run that is late by the least there is ----------------------------------------

  function FreshRecord(profile: string): Record {
    Record("d", "s", "o", "e", "v", None, 0, "", "", 0, 0, 0, Pending, profile, None)
  }

  ghost predicate BarelyLate(limits: Limits, ws: seq<World>, acts: seq<Action>) {
    Run(limits, ws, acts) && LateBy(ws, acts, 1)
  }

  lemma Extend(limits: Limits, ws: seq<World>, acts: seq<Action>, a: Action)
      returns (ws': seq<World>, acts': seq<Action>)
    requires BarelyLate(limits, ws, acts) && Possible(limits, ws[|acts|], a) && ActsBy(ws[|acts|], a, 1)
    ensures BarelyLate(limits, ws', acts') && |acts'| == |acts| + 1
    ensures ws'[|acts|] == ws[|acts|] && ws'[|acts'|] == Next(limits, ws[|acts|], a)
  {
    ws', acts' := ws + [Next(limits, ws[|acts|], a)], acts + [a];
  }

  lemma LeasedOnce(limits: Limits, r: Record) returns (ws: seq<World>, acts: seq<Action>)
    requires r.fireAt == 0
    ensures BarelyLate(limits, ws, acts)
    ensures
      var w := ws[|acts|];
      && w.now == 0 && w.next == 1
      && w.table == map[r.deliveryId := Row(r.(status := InFlight), Some(0))]
      && w.holders == map[0 := Holder(r.(status := InFlight), 0, false, false)]
  {
    ws, acts := [World(map[], 0, map[], 0, map[], map[], map[])], [];
    ws, acts := Extend(limits, ws, acts, Produce(r));
    ws, acts := Extend(limits, ws, acts, Take(0, 0, r.deliveryId));
  }

  // One worker leases the row and stalls to just past its lease; the row is reclaimed.
  lemma StalledReplica(limits: Limits, r: Record) returns (ws: seq<World>, acts: seq<Action>)
    requires r.fireAt == 0
    ensures BarelyLate(limits, ws, acts)
    ensures
      var w := ws[|acts|];
      && w.now == 1 && w.next == 1
      && w.table == map[r.deliveryId := Row(r.(status := Pending), None)]
      && w.holders == map[0 := Holder(r.(status := InFlight), 0, false, true)]
  {
    ws, acts := LeasedOnce(limits, r);
    ws, acts := Extend(limits, ws, acts, Advance(1));
    ws, acts := Extend(limits, ws, acts, GiveBack(1));
  }

  // A second worker claims the row and sends it.
  lemma SentMeanwhile(limits: Limits, r: Record) returns (ws: seq<World>, acts: seq<Action>)
    requires r.fireAt == 0
    ensures BarelyLate(limits, ws, acts)
    ensures
      var w := ws[|acts|];
      && w.now == 1 && w.holders == map[0 := Holder(r.(status := InFlight), 0, false, true)]
      && r.deliveryId in w.table && w.table[r.deliveryId].record.status.Sent?
  {
    ws, acts := StalledReplica(limits, r);
    ws, acts := Extend(limits, ws, acts, Take(1, 0, r.deliveryId));
    ws, acts := Extend(limits, ws, acts, Land(1, Delivered));
  }

  // Then the first one writes its own outcome over that.
  lemma LateOutcome(limits: Limits, r: Record, outcome: Outcome) returns (ws: seq<World>, acts: seq<Action>)
    requires r.fireAt == 0 && (outcome.RetryAt? ==> r.attempts + 1 < limits.maxAttempts(r.profile))
    ensures BarelyLate(limits, ws, acts) && |acts| >= 1
    ensures
      var before, after := ws[|acts| - 1].table, ws[|acts|].table;
      && r.deliveryId in before && before[r.deliveryId].record.status.Sent?
      && r.deliveryId in after && after == Do(before, LandOp(r, outcome))
  {
    ws, acts := SentMeanwhile(limits, r);
    ws, acts := Extend(limits, ws, acts, Land(0, outcome));
  }

  // Two replicas suffice to turn a row that was sent back into one to retry.
  lemma LateReplicaUndoesASend(limits: Limits, r: Record) returns (ws: seq<World>, acts: seq<Action>)
    requires r.fireAt == 0 && r.attempts + 1 < limits.maxAttempts(r.profile)
    ensures BarelyLate(limits, ws, acts) && |acts| >= 1
    ensures r.deliveryId in ws[|acts| - 1].table && ws[|acts| - 1].table[r.deliveryId].record.status.Sent?
    ensures r.deliveryId in ws[|acts|].table && ws[|acts|].table[r.deliveryId].record.status.FailedRetry?
  {
    ws, acts := LateOutcome(limits, r, RetryAt(9));
  }

  // ---- One replica: the engine's own loop ------------------------------------------------

  // Where the engine's loop is.  `running` are the dispatch tasks its gather waits for; a
  // task ends when its outcome landed, its quarantine is over, or it was cancelled.
  datatype Stage = Starting | Claiming | Sending

  datatype Loop = Loop(stage: Stage, running: set<nat>)

  // A tick reclaims (or fails to), then claims, then gathers; a tick without anything
  // claimed ends at once, and the next one starts when the gather has returned.
  predicate Allows(loop: Loop, a: Action) {
    match a
    case Produce(_) => true
    case Advance(_) => true
    case GiveBack(_) => loop.stage.Starting? || (loop.stage.Claiming? && loop.running == {})
    case Take(_, _, _) => !loop.stage.Sending?
    case Land(h, _) => h in loop.running
    case Quarantine(h) => h in loop.running
    case Bury(h) => h in loop.running
    case Drop(h) => h in loop.running
  }

  function Gathering(running: set<nat>): Loop {
    Loop(if running == {} then Starting else Sending, running)
  }

  function LoopNext(loop: Loop, w: World, a: Action): Loop {
    match a
    case Produce(_) => loop
    case Advance(_) => loop
    case GiveBack(_) => Loop(Claiming, loop.running)
    case Take(_, _, _) => Loop(Claiming, loop.running + {w.next})
    case Quarantine(_) => Gathering(loop.running)
    case Land(h, _) => Gathering(loop.running - {h})
    case Bury(h) => Gathering(loop.running - {h})
    case Drop(h) => Gathering(loop.running - {h})
  }

  ghost predicate LoopRun(ws: seq<World>, acts: seq<Action>, loops: seq<Loop>)
    requires |ws| == |acts| + 1
  {
    && |loops| == |ws| && loops[0] == Loop(Starting, {})
    && forall k :: 0 <= k < |acts| ==> Allows(loops[k], acts[k]) && loops[k + 1] == LoopNext(loops[k], ws[k], acts[k])
  }

  ghost predicate LoopAgrees(loop: Loop, w: World) {
    && loop.running == w.holders.Keys
    && (loop.stage.Starting? ==> loop.running == {})
    && (forall h :: h in w.holders ==> h < w.next)
  }

  lemma LoopStaysInStep(limits: Limits, loop: Loop, w: World, a: Action)
    requires LoopAgrees(loop, w) && Allows(loop, a) && Possible(limits, w, a)
    ensures LoopAgrees(LoopNext(loop, w, a), Next(limits, w, a))
  {
  }

  lemma {:induction false} LoopAgreesThroughout(limits: Limits, ws: seq<World>, acts: seq<Action>, loops: seq<Loop>,
      k: nat)
    requires Run(limits, ws, acts) && LoopRun(ws, acts, loops) && k <= |acts|
    ensures LoopAgrees(loops[k], ws[k])
  {
    if k > 0 {
      LoopAgreesThroughout(limits, ws, acts, loops, k - 1);
      LoopStaysInStep(limits, loops[k - 1], ws[k - 1], acts[k - 1]);
    }
  }

  // So a single engine reclaims with nothing in its hands, and keeps finished rows
  // finished however long its sends outlive their leases.
  lemma OneEngineKeepsFinished(limits: Limits, ws: seq<World>, acts: seq<Action>, loops: seq<Loop>)
    requires Run(limits, ws, acts) && LoopRun(ws, acts, loops)
    ensures OneReplica(limits, ws, acts) && Disciplined(ws, acts) && KeepsFinished(ws)
  {
    forall k | 0 <= k < |acts| && acts[k].GiveBack? ensures ws[k].holders == map[] {
      LoopAgreesThroughout(limits, ws, acts, loops, k);
      assert ws[k].holders.Keys == {};
    }
    forall k | 0 <= k < |acts| ensures ByItsHolder(ws[k], acts[k]) {
      OneReplicaIsDisciplined(limits, ws, acts, k);
    }
    forall i, j, id | 0 <= i <= j < |ws| ensures StaysFinished(ws, i, j, id) {
      if id in ws[i].table && ws[i].table[id].record.status.Terminal() {
        FinishedRowsNeverChange(limits, ws, acts, i, j, id);
      }
    }
  }

  // The engine's loop together with the run it drives.
  ghost predicate Driven(limits: Limits, ws: seq<World>, acts: seq<Action>, loops: seq<Loop>) {
    Run(limits, ws, acts) && LoopRun(ws, acts, loops)
  }

  lemma Drive(limits: Limits, ws: seq<World>, acts: seq<Action>, loops: seq<Loop>, a: Action)
      returns (ws': seq<World>, acts': seq<Action>, loops': seq<Loop>)
    requires Driven(limits, ws, acts, loops) && Possible(limits, ws[|acts|], a) && Allows(loops[|acts|], a)
    ensures Driven(limits, ws', acts', loops') && |acts'| == |acts| + 1
    ensures forall k :: 0 <= k < |acts| ==> acts'[k] == acts[k] && ws'[k] == ws[k]
    ensures acts'[|acts|] == a && ws'[|acts|] == ws[|acts|]
    ensures ws'[|acts'|] == Next(limits, ws[|acts|], a)
    ensures loops'[|acts'|] == LoopNext(loops[|acts|], ws[|acts|], a)
  {
    var w, loop := Next(limits, ws[|acts|], a), LoopNext(loops[|acts|], ws[|acts|], a);
    RunGoesOn(limits, ws, acts, a);
    LoopGoesOn(ws, acts, loops, a, w, loop);
    ws', acts', loops' := ws + [w], acts + [a], loops + [loop];
  }

  lemma RunGoesOn(limits: Limits, ws: seq<World>, acts: seq<Action>, a: Action)
    requires Run(limits, ws, acts) && Possible(limits, ws[|acts|], a)
    ensures Run(limits, ws + [Next(limits, ws[|acts|], a)], acts + [a])
  {
  }

  lemma LoopGoesOn(ws: seq<World>, acts: seq<Action>, loops: seq<Loop>, a: Action, w: World, loop: Loop)
    requires |ws| == |acts| + 1 && LoopRun(ws, acts, loops)
    requires Allows(loops[|acts|], a) && loop == LoopNext(loops[|acts|], ws[|acts|], a)
    ensures LoopRun(ws + [w], acts + [a], loops + [loop])
  {
  }

  lemma ReclaimedTick(limits: Limits, r: Record) returns (ws: seq<World>, acts: seq<Action>, loops: seq<Loop>)
    ensures Driven(limits, ws, acts, loops) && loops[|acts|] == Loop(Claiming, {})
    ensures
      var w := ws[|acts|];
      w.now == 0 && w.next == 0 && w.holders == map[] &&
        w.table == map[r.deliveryId := Row(r.(status := Pending), None)]
  {
    ws, acts, loops := [World(map[], 0, map[], 0, map[], map[], map[])], [], [Loop(Starting, {})];
    ws, acts, loops := Drive(limits, ws, acts, loops, Produce(r));
    ws, acts, loops := Drive(limits, ws, acts, loops, GiveBack(0));
  }

  // One tick up to its gather: reclaim, claim one row, and let its lease run out.
  lemma StalledTick(limits: Limits, r: Record, late: nat)
      returns (ws: seq<World>, acts: seq<Action>, loops: seq<Loop>)
    requires r.fireAt == 0
    ensures Driven(limits, ws, acts, loops) && loops[|acts|] == Loop(Claiming, {0})
    ensures
      var w := ws[|acts|];
      && w.now == late + 1 && w.holders == map[0 := Holder(r.(status := InFlight), 0, false, false)]
      && w.table == map[r.deliveryId := Row(r.(status := InFlight), Some(0))]
  {
    ws, acts, loops := ReclaimedTick(limits, r);
    ws, acts, loops := Drive(limits, ws, acts, loops, Take(0, 0, r.deliveryId));
    ws, acts, loops := Drive(limits, ws, acts, loops, Advance(late + 1));
  }

  // That result is not empty: for any bound one engine has a run that writes an outcome
  // later than that, and goes on to reclaim in its next tick.
  lemma OneEngineMayBeLate(limits: Limits, r: Record, late: nat)
      returns (ws: seq<World>, acts: seq<Action>, loops: seq<Loop>)
    requires r.fireAt == 0
    ensures Driven(limits, ws, acts, loops) && !LateBy(ws, acts, late)
    ensures r.deliveryId in ws[|acts|].table && ws[|acts|].table[r.deliveryId].record.status == Sent
    ensures loops[|acts|] == Loop(Claiming, {})
  {
    ws, acts, loops := StalledTick(limits, r, late);
    var n := |acts|;
    ws, acts, loops := Drive(limits, ws, acts, loops, Land(0, Delivered));
    assert !ActsBy(ws[n], acts[n], late);
    ws, acts, loops := Drive(limits, ws, acts, loops, GiveBack(late + 1));
    assert !ActsBy(ws[n], acts[n], late);
  }
}
