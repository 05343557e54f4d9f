/** When a task run records a failure although the version it was to build is stored. */
module LifecycleFailures {
  import opened Wrappers
  import opened Store
  import opened Lifecycle
  import opened LifecycleTheorems

  predicate IsStored(s: State, task: Task)
  {
    (task.config, task.target) in s.db.versions
  }

  /** The step is a worker's commit of an insert of this very version. */
  predicate CommitsInsert(s: State, step: Step, task: Task)
  {
    && step.Commit? && PhaseOf(s, step.w).Flushed?
    && PhaseOf(s, step.w).task.config == task.config && PhaseOf(s, step.w).task.target == task.target
  }

  lemma WorkerStores(world: World, s: State, step: Step, n: map<ConfigId, nat>, task: Task)
    requires Inv(s, n) && WorkerStep(world, s, step).Some?
    ensures IsStored(WorkerStep(world, s, step).value, task) <==> IsStored(s, task) || CommitsInsert(s, step, task)
  {
    if step.Commit? && PhaseOf(s, step.w).Flushed? {
      var p := PhaseOf(s, step.w);
      assert PhaseOk(s.db, n, s.published, p);
      assert Contiguous(s.db, p.task.config, n[p.task.config]);
    }
  }

  lemma OthersStore(s: State, step: Step, s': State, task: Task)
    requires RequestStep(s, step) == Some(s') || AdminStep(s, step) == Some(s')
    ensures IsStored(s', task) <==> IsStored(s, task)
  {
    OthersAreApi(s, step, s');
  }

  lemma StoredStep(world: World, states: seq<State>, steps: seq<Step>, k: nat, task: Task)
    requires IsRun(world, states, steps) && k < |steps|
    ensures IsStored(states[k + 1], task) <==> IsStored(states[k], task) || CommitsInsert(states[k], steps[k], task)
  {
    RunInvariant(world, states, steps, k);
    assert StepAt(world, states, steps, k);
    if IsWorkerStep(steps[k]) {
      WorkerStores(world, states[k], steps[k], CountsAt(states, steps, k), task);
    } else {
      OthersStore(states[k], steps[k], states[k + 1], task);
    }
  }

  ghost predicate CommitsAt(states: seq<State>, steps: seq<Step>, k: nat, task: Task)
    requires |states| == |steps| + 1
  {
    k < |steps| && CommitsInsert(states[k], steps[k], task)
  }

  ghost predicate StoredAt(states: seq<State>, k: nat, task: Task)
  {
    k < |states| && IsStored(states[k], task)
  }

  lemma {:induction false} GrowsIff(i: nat, j: nat, stored: nat -> bool, adds: nat -> bool)
    requires i <= j && forall k: nat :: i <= k < j ==> (stored(k + 1) <==> stored(k) || adds(k))
    ensures stored(j) <==> stored(i) || exists k: nat :: i <= k < j && adds(k)
    decreases j - i
  {
    if i < j {
      GrowsIff(i, j - 1, stored, adds);
      assert stored(j - 1 + 1) <==> stored(j - 1) || adds(j - 1);
    }
  }

  lemma StoredIff(world: World, states: seq<State>, steps: seq<Step>, i: nat, j: nat, task: Task)
    requires IsRun(world, states, steps) && i <= j <= |steps|
    ensures IsStored(states[j], task) <==> IsStored(states[i], task) || exists k: nat :: i <= k < j && CommitsAt(states, steps, k, task)
  {
    var stored := (k: nat) => StoredAt(states, k, task);
    var adds := (k: nat) => |states| == |steps| + 1 && CommitsAt(states, steps, k, task);
    forall k: nat | i <= k < j ensures stored(k + 1) <==> stored(k) || adds(k) {
      StoredStep(world, states, steps, k, task);
    }
    GrowsIff(i, j, stored, adds);
    assert stored(i) == IsStored(states[i], task) && stored(j) == IsStored(states[j], task);
    if k: nat :| i <= k < j && adds(k) {
      assert CommitsAt(states, steps, k, task);
    }
    if k: nat :| i <= k < j && CommitsAt(states, steps, k, task) {
      assert adds(k);
    }
  }

  /** No delivery to this worker from `i` up to `j`, so it stays with one task run. */
  ghost predicate OneRun(steps: seq<Step>, i: nat, j: nat, w: nat)
    requires j <= |steps|
  {
    forall k :: i <= k < j ==> !(steps[k].Deliver? && steps[k].w == w)
  }

  lemma BusyBefore(world: World, s: State, step: Step, s': State, w: nat)
    requires Next(world, s, step) == Some(s') && !(step.Deliver? && step.w == w) && !PhaseOf(s', w).Idle?
    ensures !PhaseOf(s, w).Idle? && PhaseOf(s, w).task == PhaseOf(s', w).task
    ensures step.Commit? && step.w == w ==> !step.acknowledged || CommittedBy(s.db, PhaseOf(s, w)).Raised?
  {
  }

  lemma {:induction false} SameTask(world: World, states: seq<State>, steps: seq<Step>, i: nat, j: nat, w: nat)
    requires IsRun(world, states, steps) && i <= j <= |steps| && OneRun(steps, i, j, w) && !PhaseOf(states[j], w).Idle?
    ensures !PhaseOf(states[i], w).Idle? && PhaseOf(states[i], w).task == PhaseOf(states[j], w).task
    decreases j - i
  {
    if i < j {
      SameTask(world, states, steps, i + 1, j, w);
      assert StepAt(world, states, steps, i);
      BusyBefore(world, states[i], steps[i], states[i + 1], w);
    }
  }

  /** A commit of the version by another worker, or by this one if it never learned that it succeeded. */
  ghost predicate CommittedUnknown(states: seq<State>, steps: seq<Step>, k: nat, w: nat, task: Task)
    requires |states| == |steps| + 1
  {
    CommitsAt(states, steps, k, task) && (steps[k].w != w || !steps[k].acknowledged)
  }

  lemma OwnCommitIsUnknown(world: World, states: seq<State>, steps: seq<Step>, k: nat, j: nat, w: nat, task: Task)
    requires IsRun(world, states, steps) && k < j <= |steps| && OneRun(steps, k, j, w) && !PhaseOf(states[j], w).Idle?
    requires CommitsAt(states, steps, k, task)
    ensures CommittedUnknown(states, steps, k, w, task)
  {
    RunInvariant(world, states, steps, k);
    SameTask(world, states, steps, k + 1, j, w);
    assert StepAt(world, states, steps, k);
    BusyBefore(world, states[k], steps[k], states[k + 1], w);
    var p, n := PhaseOf(states[k], steps[k].w), CountsAt(states, steps, k);
    assert PhaseOk(states[k].db, n, states[k].published, p);
    assert Contiguous(states[k].db, p.task.config, n[p.task.config]);
  }

  /** A task run that read the versions at step `i` and records a failure at step `j` leaves its config
      failed although the version it was to build is stored exactly when the version was there already at
      the read, or was committed between the two steps by another worker or by a commit of its own whose
      outcome it never learned. */
  lemma FailsOnStoredIff(world: World, states: seq<State>, steps: seq<Step>, i: nat, j: nat, w: nat)
    requires IsRun(world, states, steps) && i < j < |steps| && OneRun(steps, i, j, w)
    requires steps[i] == ReadVersion(w) && steps[j] == RecordFailure(w)
    ensures PhaseOf(states[i], w).Received? && PhaseOf(states[j], w).Aborted? && PhaseOf(states[j], w).task == PhaseOf(states[i], w).task
    ensures var task := PhaseOf(states[i], w).task;
            && task.config in states[j + 1].db.configs && states[j + 1].db.configs[task.config].status.Failed?
            && (IsStored(states[j + 1], task)
                <==> IsStored(states[i], task) || exists k: nat :: i < k < j && CommittedUnknown(states, steps, k, w, task))
  {
    assert StepAt(world, states, steps, i);
    assert StepAt(world, states, steps, j);
    SameTask(world, states, steps, i, j, w);
    var task := PhaseOf(states[i], w).task;
    RunInvariant(world, states, steps, j);
    assert PhaseOk(states[j].db, CountsAt(states, steps, j), states[j].published, PhaseOf(states[j], w));
    StoredIff(world, states, steps, i, j, task);
    StoredStep(world, states, steps, j, task);
    forall k: nat | i <= k < j && CommitsAt(states, steps, k, task) ensures i < k && CommittedUnknown(states, steps, k, w, task) {
      OwnCommitIsUnknown(world, states, steps, k, j, w, task);
    }
  }
}
