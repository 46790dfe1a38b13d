// All dispatch tasks of an engine at once: each passes the worker gate, then the
// bulkhead of its host, posts, leaves both and runs the outcome callback.  Steps of
// different tasks interleave freely, and a task may fail or be cancelled anywhere.
module Bulkhead {
  import opened HostSemaphores
  import Text

  datatype Phase =
    | Waiting             // for the gate
    | Gated               // in send(), before the first look at the pool
    | AskingGuard         // the first look found nothing
    | Guarded             // inside the guard
    | Queued(sem: nat)    // for its host's semaphore
    | Posting(sem: nat)
    | Posted              // outcome written, gate still held
    | Notifying           // in the callback
    | Finished

  datatype Task = Task(host: string, phase: Phase)

  datatype World = World(perHost: nat, workers: nat, gate: nat, pool: Pool, tasks: seq<Task>)

  function Start(workers: nat, perHost: nat): World {
    World(perHost, workers, workers, Pool(map[], [], false), [])
  }

  // Spawn adds a task; every other step is taken by task t.  Skip is a send() that ends
  // before the bulkhead, as a dead letter does; Abort is an exception or a cancellation.
  datatype Step =
    | Spawn(host: string)
    | EnterGate(t: nat)
    | Skip(t: nat)
    | Look(t: nat)
    | TakeGuard(t: nat)
    | GetOrCreate(t: nat)
    | Enter(t: nat)
    | Leave(t: nat)
    | LeaveGate(t: nat)
    | Notified(t: nat)
    | Abort(t: nat)

  predicate HoldsGate(phase: Phase) {
    !phase.Waiting? && !phase.Notifying? && !phase.Finished?
  }

  predicate Possible(w: World, step: Step) {
    step.Spawn? || (
      && step.t < |w.tasks|
      && var phase := w.tasks[step.t].phase;
         match step
         case EnterGate(_) => phase.Waiting? && w.gate > 0
         case Skip(_) => phase.Gated?
         case Look(_) => phase.Gated?
         case TakeGuard(_) => phase.AskingGuard? && !w.pool.guarded
         case GetOrCreate(_) => phase.Guarded?
         case Enter(_) => phase.Queued? && phase.sem < |w.pool.semaphores| && w.pool.semaphores[phase.sem].free > 0
         case Leave(_) => phase.Posting? && phase.sem < |w.pool.semaphores|
         case LeaveGate(_) => phase.Posted?
         case Notified(_) => phase.Notifying?
         case Abort(_) => !phase.Finished? && (phase.Posting? ==> phase.sem < |w.pool.semaphores|)
    )
  }

  function Moved(w: World, t: nat, phase: Phase): World
    requires t < |w.tasks|
  {
    w.(tasks := w.tasks[t := w.tasks[t].(phase := phase)])
  }

  function SemOf(p: Pool, host: string): nat {
    if Known(p, host) then p.byHost[Text.Lower(host)] else 0
  }

  // What the context managers give back when a task ends early.
  function Released(w: World, phase: Phase): World
    requires phase.Posting? ==> phase.sem < |w.pool.semaphores|
  {
    w.(gate := if HoldsGate(phase) then w.gate + 1 else w.gate,
       pool := if phase.Guarded? then w.pool.(guarded := false) else
         if phase.Posting? then Left(w.pool, phase.sem) else w.pool)
  }

  function Next(w: World, step: Step): World
    requires Possible(w, step)
  {
    match step
    case Spawn(host) => w.(tasks := w.tasks + [Task(host, Waiting)])
    case EnterGate(t) => Moved(w, t, Gated).(gate := w.gate - 1)
    case Skip(t) => Moved(w, t, Posted)
    case Look(t) =>
      Moved(w, t, if Known(w.pool, w.tasks[t].host) then Queued(SemOf(w.pool, w.tasks[t].host)) else AskingGuard)
    case TakeGuard(t) => Moved(w, t, Guarded).(pool := w.pool.(guarded := true))
    case GetOrCreate(t) =>
      var pool := Ensured(w.pool, w.perHost, w.tasks[t].host);
      Moved(w, t, Queued(SemOf(pool, w.tasks[t].host))).(pool := pool)
    case Enter(t) => Moved(w, t, Posting(w.tasks[t].phase.sem)).(pool := Entered(w.pool, w.tasks[t].phase.sem))
    case Leave(t) => Moved(w, t, Posted).(pool := Left(w.pool, w.tasks[t].phase.sem))
    case LeaveGate(t) => Moved(w, t, Notifying).(gate := w.gate + 1)
    case Notified(t) => Moved(w, t, Finished)
    case Abort(t) => Released(Moved(w, t, Finished), w.tasks[t].phase)
  }

  // ---- Counting permits ---------------------------------------------------------------

  datatype What = InGate | InGuard | InSemaphore(sem: nat) | AtHost(host: string) | Sending | StepsLeft

  function Each(what: What, task: Task): nat {
    match what
    case InGate => if HoldsGate(task.phase) then 1 else 0
    case InGuard => if task.phase.Guarded? then 1 else 0
    case InSemaphore(sem) => if task.phase == Posting(sem) then 1 else 0
    case AtHost(host) => if task.phase.Posting? && Text.Lower(task.host) == host then 1 else 0
    case Sending => if task.phase.Posting? then 1 else 0
    case StepsLeft =>
      match task.phase
      case Waiting => 8
      case Gated => 7
      case AskingGuard => 6
      case Guarded => 5
      case Queued(_) => 4
      case Posting(_) => 3
      case Posted => 2
      case Notifying => 1
      case Finished => 0
  }

  function Count(what: What, tasks: seq<Task>): nat {
    if tasks == [] then 0 else Count(what, tasks[..|tasks| - 1]) + Each(what, tasks[|tasks| - 1])
  }

  lemma {:induction false} CountAfterMove(what: What, tasks: seq<Task>, t: nat, task: Task)
    requires t < |tasks|
    ensures Count(what, tasks[t := task]) + Each(what, tasks[t]) == Count(what, tasks) + Each(what, task)
  {
    var front := tasks[..|tasks| - 1];
    if t < |tasks| - 1 {
      CountAfterMove(what, front, t, task);
      assert tasks[t := task][..|tasks| - 1] == front[t := task];
    } else {
      assert tasks[t := task][..|tasks| - 1] == front;
    }
  }

  lemma CountAfterSpawn(what: What, tasks: seq<Task>, task: Task)
    ensures Count(what, tasks + [task]) == Count(what, tasks) + Each(what, task)
  {
    assert (tasks + [task])[..|tasks|] == tasks;
  }

  lemma {:induction false} CountIsPositive(what: What, tasks: seq<Task>, t: nat)
    requires t < |tasks|
    ensures Count(what, tasks) >= Each(what, tasks[t])
  {
    if t < |tasks| - 1 {
      CountIsPositive(what, tasks[..|tasks| - 1], t);
    }
  }

  lemma {:induction false} SomeoneCounts(what: What, tasks: seq<Task>) returns (t: nat)
    requires Count(what, tasks) > 0
    ensures t < |tasks| && Each(what, tasks[t]) > 0
  {
    t := |tasks| - 1;
    if Each(what, tasks[t]) == 0 {
      t := SomeoneCounts(what, tasks[..t]);
    }
  }

  // ---- The invariant --------------------------------------------------------------------

  ghost predicate PermitsBalance(w: World) {
    && w.gate + Count(InGate, w.tasks) == w.workers
    && (if w.pool.guarded then 1 else 0) == Count(InGuard, w.tasks)
    && forall k :: 0 <= k < |w.pool.semaphores| ==>
      w.pool.semaphores[k].free + Count(InSemaphore(k), w.tasks) == w.perHost
  }

  // A task only ever holds the semaphore of its own host.
  ghost predicate AtOwnHost(w: World, task: Task) {
    task.phase.Queued? || task.phase.Posting? ==>
      task.phase.sem < |w.pool.semaphores| && w.pool.semaphores[task.phase.sem].host == Text.Lower(task.host)
  }

  ghost predicate Inv(w: World) {
    OnePerHost(w.pool) && PermitsBalance(w) && forall t :: 0 <= t < |w.tasks| ==> AtOwnHost(w, w.tasks[t])
  }

  // What a step makes of its own task.
  function Mover(w: World, step: Step): Task
    requires Possible(w, step) && !step.Spawn?
  {
    Next(w, step).tasks[step.t]
  }

  // A step moves its own task and touches no other.
  lemma OnlyItsOwn(w: World, step: Step, what: What)
    requires Possible(w, step) && !step.Spawn?
    ensures Next(w, step).tasks == w.tasks[step.t := Mover(w, step)] && Mover(w, step).host == w.tasks[step.t].host
    ensures Count(what, Next(w, step).tasks) + Each(what, w.tasks[step.t]) ==
      Count(what, w.tasks) + Each(what, Mover(w, step))
  {
    CountAfterMove(what, w.tasks, step.t, Mover(w, step));
  }

  // The first look asks for the guard only where the host has no semaphore yet; otherwise
  // it queues at the host's own.
  lemma LookFindsKnownHosts(w: World, step: Step, k: nat)
    requires Inv(w) && Possible(w, step) && step.Look? && k < |w.pool.semaphores|
    requires w.pool.semaphores[k].host == Text.Lower(w.tasks[step.t].host)
    ensures Mover(w, step).phase == Queued(k)
  {
  }

  lemma StepKeepsPool(w: World, step: Step)
    requires Inv(w) && Possible(w, step)
    ensures OnePerHost(Next(w, step).pool) && |w.pool.semaphores| <= |Next(w, step).pool.semaphores|
    ensures forall k :: 0 <= k < |w.pool.semaphores| ==>
      Next(w, step).pool.semaphores[k].host == w.pool.semaphores[k].host
  {
    match step
    case GetOrCreate(t) => EnsuredKeepsPool(w.pool, w.perHost, w.tasks[t].host);
    case _ =>
  }

  lemma EnsuredKeepsPool(p: Pool, perHost: nat, host: string)
    requires OnePerHost(p)
    ensures OnePerHost(Ensured(p, perHost, host)) && p.semaphores <= Ensured(p, perHost, host).semaphores
  {
  }

  lemma StepKeepsOwnHost(w: World, step: Step)
    requires Inv(w) && Possible(w, step)
    ensures forall t :: 0 <= t < |Next(w, step).tasks| ==> AtOwnHost(Next(w, step), Next(w, step).tasks[t])
  {
    StepKeepsPool(w, step);
  }

  lemma GateAndGuardBalance(w: World, step: Step)
    requires Inv(w) && Possible(w, step)
    ensures var w' := Next(w, step);
      && w'.gate + Count(InGate, w'.tasks) == w'.workers
      && (if w'.pool.guarded then 1 else 0) == Count(InGuard, w'.tasks)
  {
    if step.Spawn? {
      CountAfterSpawn(InGate, w.tasks, Task(step.host, Waiting));
      CountAfterSpawn(InGuard, w.tasks, Task(step.host, Waiting));
    } else {
      OnlyItsOwn(w, step, InGate);
      OnlyItsOwn(w, step, InGuard);
      CountIsPositive(InGuard, w.tasks, step.t);
    }
  }

  lemma SemaphoreBalances(w: World, step: Step, k: nat)
    requires Inv(w) && Possible(w, step) && k < |Next(w, step).pool.semaphores|
    requires |w.pool.semaphores| <= |Next(w, step).pool.semaphores|
    ensures var w' := Next(w, step); w'.pool.semaphores[k].free + Count(InSemaphore(k), w'.tasks) == w'.perHost
  {
    if step.Spawn? {
      CountAfterSpawn(InSemaphore(k), w.tasks, Task(step.host, Waiting));
    } else if k < |w.pool.semaphores| {
      OnlyItsOwn(w, step, InSemaphore(k));
      PermitsMove(w, step, k);
    } else {
      OnlyItsOwn(w, step, InSemaphore(k));
      NobodyInside(w, k);
    }
  }

  // A permit of an existing semaphore goes where the task goes.
  lemma PermitsMove(w: World, step: Step, k: nat)
    requires Possible(w, step) && !step.Spawn? && k < |w.pool.semaphores| <= |Next(w, step).pool.semaphores|
    ensures Next(w, step).pool.semaphores[k].free + Each(InSemaphore(k), Mover(w, step))
         == w.pool.semaphores[k].free + Each(InSemaphore(k), w.tasks[step.t])
  {
  }

  lemma NobodyInside(w: World, k: nat)
    requires Inv(w) && k >= |w.pool.semaphores|
    ensures Count(InSemaphore(k), w.tasks) == 0
  {
    if Count(InSemaphore(k), w.tasks) > 0 {
      var _ := SomeoneCounts(InSemaphore(k), w.tasks);
    }
  }

  lemma StepKeepsInv(w: World, step: Step)
    requires Inv(w) && Possible(w, step)
    ensures Inv(Next(w, step))
  {
    StepKeepsPool(w, step);
    StepKeepsOwnHost(w, step);
    GateAndGuardBalance(w, step);
    forall k | 0 <= k < |Next(w, step).pool.semaphores|
      ensures Next(w, step).pool.semaphores[k].free + Count(InSemaphore(k), Next(w, step).tasks) ==
        Next(w, step).perHost
    {
      SemaphoreBalances(w, step, k);
    }
  }

  // ---- Runs -----------------------------------------------------------------------------

  ghost predicate IsRun(w: World, steps: seq<Step>) {
    steps == [] || (IsRun(w, steps[..|steps| - 1]) && Possible(After(w, steps[..|steps| - 1]), steps[|steps| - 1]))
  }

  function After(w: World, steps: seq<Step>): World {
    if steps == [] then w
    else
      var before := After(w, steps[..|steps| - 1]);
      if Possible(before, steps[|steps| - 1]) then Next(before, steps[|steps| - 1]) else before
  }

  // In every interleaving, the pool has one semaphore per host and every permit is either
  // free or with exactly one task.
  lemma {:induction false} BulkheadHolds(workers: nat, perHost: nat, steps: seq<Step>)
    requires IsRun(Start(workers, perHost), steps)
    ensures Inv(After(Start(workers, perHost), steps))
    ensures After(Start(workers, perHost), steps).workers == workers
    ensures After(Start(workers, perHost), steps).perHost == perHost
  {
    if steps != [] {
      BulkheadHolds(workers, perHost, steps[..|steps| - 1]);
      StepKeepsInv(After(Start(workers, perHost), steps[..|steps| - 1]), steps[|steps| - 1]);
    }
  }

  // In every reachable state a host has one semaphore at most, however its name is spelled.
  lemma OneSemaphorePerHost(workers: nat, perHost: nat, steps: seq<Step>, i: nat, j: nat)
    requires IsRun(Start(workers, perHost), steps)
    requires
      var made := After(Start(workers, perHost), steps).pool.semaphores;
      i < |made| && j < |made| && Text.Lower(made[i].host) == Text.Lower(made[j].host)
    ensures i == j
  {
    BulkheadHolds(workers, perHost, steps);
    NamesAreLowered(workers, perHost, steps);
    HostHasOneSemaphore(After(Start(workers, perHost), steps).pool, i, j);
  }

  ghost predicate AllLowered(p: Pool) {
    forall k :: 0 <= k < |p.semaphores| ==> Text.Lower(p.semaphores[k].host) == p.semaphores[k].host
  }

  lemma LoweringTwice(s: string)
    ensures Text.Lower(Text.Lower(s)) == Text.Lower(s)
  {
  }

  lemma StepKeepsLowered(w: World, step: Step)
    requires AllLowered(w.pool) && Possible(w, step)
    ensures AllLowered(Next(w, step).pool)
  {
    if step.GetOrCreate? {
      LoweringTwice(w.tasks[step.t].host);
    }
  }

  lemma {:induction false} NamesAreLowered(workers: nat, perHost: nat, steps: seq<Step>)
    requires IsRun(Start(workers, perHost), steps)
    ensures AllLowered(After(Start(workers, perHost), steps).pool)
  {
    if steps != [] {
      NamesAreLowered(workers, perHost, steps[..|steps| - 1]);
      StepKeepsLowered(After(Start(workers, perHost), steps[..|steps| - 1]), steps[|steps| - 1]);
    }
  }

  lemma {:induction false} CountsCompare(a: What, b: What, tasks: seq<Task>)
    requires forall t :: 0 <= t < |tasks| ==> Each(a, tasks[t]) <= Each(b, tasks[t])
    ensures Count(a, tasks) <= Count(b, tasks)
  {
    if tasks != [] {
      CountsCompare(a, b, tasks[..|tasks| - 1]);
    }
  }

  // At most perHost tasks are ever inside one host's bulkhead, however they spell the
  // host, and at most `workers` are sending at all.
  lemma LimitsHold(workers: nat, perHost: nat, steps: seq<Step>, host: string)
    requires IsRun(Start(workers, perHost), steps)
    ensures var tasks := After(Start(workers, perHost), steps).tasks;
      Count(AtHost(Text.Lower(host)), tasks) <= perHost && Count(Sending, tasks) <= workers
  {
    BulkheadHolds(workers, perHost, steps);
    var w := After(Start(workers, perHost), steps);
    CountsCompare(Sending, InGate, w.tasks);
    HostLimitHolds(w, Text.Lower(host));
  }

  lemma HostLimitHolds(w: World, key: string)
    requires Inv(w)
    ensures Count(AtHost(key), w.tasks) <= w.perHost
  {
    if key in w.pool.byHost {
      var k := w.pool.byHost[key];
      forall t | 0 <= t < |w.tasks| ensures Each(AtHost(key), w.tasks[t]) <= Each(InSemaphore(k), w.tasks[t]) {
        assert AtOwnHost(w, w.tasks[t]);
      }
      CountsCompare(AtHost(key), InSemaphore(k), w.tasks);
    } else if Count(AtHost(key), w.tasks) > 0 {
      var _ := SomeoneCounts(AtHost(key), w.tasks);
    }
  }

  // ---- Progress ---------------------------------------------------------------------------

  // Steps that neither add a task nor give one up.
  ghost predicate CanStep(w: World) {
    exists step: Step :: !step.Spawn? && !step.Abort? && Possible(w, step)
  }

  ghost predicate Unfinished(w: World) {
    exists t :: 0 <= t < |w.tasks| && !w.tasks[t].phase.Finished?
  }

  // A task that holds anything but is not waiting for a semaphore can move.
  lemma InsiderCanStep(w: World, t: nat)
    requires Inv(w) && w.perHost > 0 && t < |w.tasks|
    requires !w.tasks[t].phase.Waiting? && !w.tasks[t].phase.Finished?
    ensures CanStep(w)
  {
    assert AtOwnHost(w, w.tasks[t]);
    match w.tasks[t].phase
    case Gated => assert Possible(w, Look(t));
    case AskingGuard =>
      if !w.pool.guarded {
        assert Possible(w, TakeGuard(t));
      } else {
        var other := SomeoneCounts(InGuard, w.tasks);
        assert Possible(w, GetOrCreate(other));
      }
    case Guarded => assert Possible(w, GetOrCreate(t));
    case Queued(sem) =>
      if w.pool.semaphores[sem].free > 0 {
        assert Possible(w, Enter(t));
      } else {
        var other := SomeoneCounts(InSemaphore(sem), w.tasks);
        assert Possible(w, Leave(other));
      }
    case Posting(_) => assert Possible(w, Leave(t));
    case Posted => assert Possible(w, LeaveGate(t));
    case Notifying => assert Possible(w, Notified(t));
  }

  // Gate first, host second, guard innermost: some unfinished task can always step.
  lemma NoDeadlock(w: World)
    requires Inv(w) && w.workers > 0 && w.perHost > 0 && Unfinished(w)
    ensures CanStep(w)
  {
    var t :| 0 <= t < |w.tasks| && !w.tasks[t].phase.Finished?;
    if !w.tasks[t].phase.Waiting? {
      InsiderCanStep(w, t);
    } else if w.gate > 0 {
      assert Possible(w, EnterGate(t));
    } else {
      var holder := SomeoneCounts(InGate, w.tasks);
      InsiderCanStep(w, holder);
    }
  }

  ghost predicate NeverStuck(workers: nat, perHost: nat) {
    forall steps :: IsRun(Start(workers, perHost), steps) && Unfinished(After(Start(workers, perHost), steps)) ==>
      CanStep(After(Start(workers, perHost), steps))
  }

  // The two limits deadlock no run exactly when neither is zero.
  lemma DeadlockFreeExactlyWithPermits(workers: nat, perHost: nat)
    ensures NeverStuck(workers, perHost) <==> workers > 0 && perHost > 0
  {
    var w := Start(workers, perHost);
    if workers > 0 && perHost > 0 {
      forall steps | IsRun(w, steps) && Unfinished(After(w, steps)) ensures CanStep(After(w, steps)) {
        BulkheadHolds(workers, perHost, steps);
        NoDeadlock(After(w, steps));
      }
    } else {
      var stuck := StuckRun(workers, perHost);
      assert !CanStep(After(w, stuck));
    }
  }

  lemma OneMore(w: World, steps: seq<Step>, step: Step)
    requires IsRun(w, steps) && Possible(After(w, steps), step)
    ensures IsRun(w, steps + [step]) && After(w, steps + [step]) == Next(After(w, steps), step)
  {
    assert (steps + [step])[..|steps|] == steps;
  }

  // With a limit of zero a single task waits for ever.
  lemma StuckRun(workers: nat, perHost: nat) returns (steps: seq<Step>)
    requires workers == 0 || perHost == 0
    ensures IsRun(Start(workers, perHost), steps)
    ensures Unfinished(After(Start(workers, perHost), steps)) && !CanStep(After(Start(workers, perHost), steps))
  {
    var w := Start(workers, perHost);
    OneMore(w, [], Spawn("h"));
    steps := [] + [Spawn("h")];
    assert After(w, steps).tasks == [Task("h", Waiting)];
    if workers > 0 {
      steps := QueuedRun(workers, steps);
    }
    assert Unfinished(After(w, steps)) by {
      assert !After(w, steps).tasks[0].phase.Finished?;
    }
  }

  lemma QueuedRun(workers: nat, spawned: seq<Step>) returns (steps: seq<Step>)
    requires workers > 0 && IsRun(Start(workers, 0), spawned)
    requires After(Start(workers, 0), spawned) == Start(workers, 0).(tasks := [Task("h", Waiting)])
    ensures IsRun(Start(workers, 0), steps)
    ensures After(Start(workers, 0), steps).tasks == [Task("h", Queued(0))]
    ensures After(Start(workers, 0), steps).pool.semaphores == [Semaphore(Text.Lower("h"), 0)]
  {
    var w := Start(workers, 0);
    OneMore(w, spawned, EnterGate(0));
    OneMore(w, spawned + [EnterGate(0)], Look(0));
    OneMore(w, spawned + [EnterGate(0)] + [Look(0)], TakeGuard(0));
    OneMore(w, spawned + [EnterGate(0)] + [Look(0)] + [TakeGuard(0)], GetOrCreate(0));
    steps := spawned + [EnterGate(0)] + [Look(0)] + [TakeGuard(0)] + [GetOrCreate(0)];
  }

  // And no run goes on for ever: a step that adds no task brings every one of its kind
  // closer to the end, so there are at most eight per task.
  lemma StepsRunOut(w: World, step: Step)
    requires Possible(w, step) && !step.Spawn?
    ensures Count(StepsLeft, Next(w, step).tasks) < Count(StepsLeft, w.tasks)
  {
    OnlyItsOwn(w, step, StepsLeft);
  }

  lemma {:induction false} RunsAreShort(w: World, steps: seq<Step>)
    requires IsRun(w, steps) && forall k :: 0 <= k < |steps| ==> !steps[k].Spawn?
    ensures |steps| + Count(StepsLeft, After(w, steps).tasks) <= Count(StepsLeft, w.tasks)
  {
    if steps != [] {
      RunsAreShort(w, steps[..|steps| - 1]);
      StepsRunOut(After(w, steps[..|steps| - 1]), steps[|steps| - 1]);
    }
  }

  lemma {:induction false} EightStepsATask(tasks: seq<Task>)
    ensures Count(StepsLeft, tasks) <= 8 * |tasks|
  {
    if tasks != [] {
      EightStepsATask(tasks[..|tasks| - 1]);
    }
  }

  // The callback runs with nothing held: whether it has returned makes no difference to
  // what any other task may do.
  lemma CallbackBlocksNobody(w: World, t: nat, step: Step)
    requires t < |w.tasks| && w.tasks[t].phase.Notifying? && (step.Spawn? || step.t != t)
    ensures Possible(w, step) <==> Possible(Next(w, Notified(t)), step)
    ensures Possible(w, step) ==>
      Next(Next(w, Notified(t)), step).gate == Next(w, step).gate &&
        Next(Next(w, Notified(t)), step).pool == Next(w, step).pool
  {
  }
}
