/** Building runs of the system: a worker's steps up to a finished build, and from there to its commit. */
module LifecycleRuns {
  import opened Wrappers
  import opened Store
  import opened Lifecycle
  import opened LifecycleSafety

  datatype Run = Run(states: seq<State>, steps: seq<Step>)

  ghost predicate IsRunOf(world: World, run: Run)
  {
    IsRun(world, run.states, run.steps)
  }

  function Last(run: Run): State
    requires run.states != []
  {
    run.states[|run.states| - 1]
  }

  const Start := State(EmptyTables, 0, {}, map[], map[])

  /** The run goes on after `before`, by these steps. */
  ghost predicate GoesOn(before: Run, run: Run, steps: seq<Step>)
  {
    before.states <= run.states && run.steps == before.steps + steps
  }

  lemma Take(world: World, run: Run, step: Step) returns (next: Run)
    requires IsRunOf(world, run) && Next(world, Last(run), step).Some?
    ensures IsRunOf(world, next) && Last(next) == Next(world, Last(run), step).value
    ensures GoesOn(run, next, [step])
  {
    next := Run(run.states + [Next(world, Last(run), step).value], run.steps + [step]);
    forall i | 0 <= i < |next.steps|
      ensures StepAt(world, next.states, next.steps, i)
    {
      assert i < |run.steps| ==> StepAt(world, run.states, run.steps, i);
    }
  }

  lemma GoesOnOn(a: Run, b: Run, c: Run, steps: seq<Step>, more: seq<Step>)
    requires GoesOn(a, b, steps) && GoesOn(b, c, more)
    ensures GoesOn(a, c, steps + more)
  {
    assert a.steps + steps + more == a.steps + (steps + more);
  }

  lemma ReadIs(world: World, s: State, w: nat, task: Task)
    requires PhaseOf(s, w) == Received(task) && task.config in s.db.configs
    ensures Next(world, s, ReadVersion(w))
            == Some(WithPhase(s, w, if (task.config, task.target) in s.db.versions then Found(task) else Building(task)))
  {
  }

  lemma ReceiveRun(world: World, before: Run, w: nat, task: Task) returns (run: Run)
    requires IsRunOf(world, before)
    requires task in Last(before).published && PhaseOf(Last(before), w).Idle?
    requires task.config in Last(before).db.configs
    ensures IsRunOf(world, run) && GoesOn(before, run, [Deliver(w, task), ReadVersion(w)])
    ensures Last(run) == WithPhase(Last(before), w, if (task.config, task.target) in Last(before).db.versions then Found(task) else Building(task))
  {
    var s := Last(before);
    var given := Take(world, before, Deliver(w, task));
    ReadIs(world, Last(given), w, task);
    run := Take(world, given, ReadVersion(w));
    GoesOnOn(before, given, run, [Deliver(w, task)], [ReadVersion(w)]);
    PhaseTwice(s, w, Received(task), Building(task));
    PhaseTwice(s, w, Received(task), Found(task));
  }

  function BuildSteps(w: nat, task: Task, row: VersionRow): seq<Step>
  {
    [Deliver(w, task), ReadVersion(w), Build(w, row)]
  }

  lemma BuildIs(world: World, s: State, w: nat, task: Task, row: VersionRow)
    requires PhaseOf(s, w) == Building(task) && task.config in s.db.configs
    requires world.builds(s.db.configs[task.config].spec, Predecessor(s.db, task.config, task.target), row)
    ensures Next(world, s, Build(w, row)) == Some(WithPhase(s, w, Built(task, row)))
  {
  }

  /** Worker `w` takes a published task whose version is missing up to the finished build. */
  lemma BuildRun(world: World, before: Run, w: nat, task: Task, row: VersionRow) returns (run: Run)
    requires IsRunOf(world, before)
    requires task in Last(before).published && PhaseOf(Last(before), w).Idle?
    requires task.config in Last(before).db.configs && (task.config, task.target) !in Last(before).db.versions
    requires world.builds(Last(before).db.configs[task.config].spec, Predecessor(Last(before).db, task.config, task.target), row)
    ensures IsRunOf(world, run) && GoesOn(before, run, BuildSteps(w, task, row))
    ensures Last(run) == WithPhase(Last(before), w, Built(task, row))
    ensures run.states[|run.steps| - 1].db == Last(before).db
  {
    var waiting := ReceiveRun(world, before, w, task);
    PhaseTwice(Last(before), w, Building(task), Built(task, row));
    BuildIs(world, Last(waiting), w, task, row);
    run := Take(world, waiting, Build(w, row));
    GoesOnOn(before, waiting, run, [Deliver(w, task), ReadVersion(w)], [Build(w, row)]);
  }

  lemma FlushIs(world: World, s: State, w: nat, task: Task, row: VersionRow)
    requires PhaseOf(s, w) == Built(task, row) && forall u :: u in s.workers ==> !s.workers[u].Flushed?
    requires (task.config, task.target) !in s.db.versions
    ensures Next(world, s, Flush(w)) == Some(WithPhase(s, w, Flushed(task, row)))
  {
  }

  lemma CommitFlushed(world: World, s: State, w: nat, task: Task, row: VersionRow)
    requires PhaseOf(s, w) == Flushed(task, row) && task.config in s.db.configs && (task.config, task.target) !in s.db.versions
    ensures Next(world, s, Commit(w, true)) == Some(WithPhase(s.(db := WithVersion(s.db, task.config, task.target, row)), w, Idle))
  {
    InsertCommits(s.db, task, row);
  }

  lemma CommitRun(world: World, before: Run, w: nat, task: Task, row: VersionRow) returns (run: Run)
    requires IsRunOf(world, before) && PhaseOf(Last(before), w) == Built(task, row)
    requires forall u :: u in Last(before).workers ==> !Last(before).workers[u].Flushed?
    requires task.config in Last(before).db.configs && (task.config, task.target) !in Last(before).db.versions
    ensures IsRunOf(world, run) && GoesOn(before, run, [Flush(w), Commit(w, true)])
    ensures Last(run) == WithPhase(Last(before).(db := WithVersion(Last(before).db, task.config, task.target, row)), w, Idle)
  {
    var s := Last(before);
    FlushIs(world, s, w, task, row);
    var open := Take(world, before, Flush(w));
    CommitFlushed(world, Last(open), w, task, row);
    run := Take(world, open, Commit(w, true));
    GoesOnOn(before, open, run, [Flush(w)], [Commit(w, true)]);
    PhaseTwice(s.(db := WithVersion(s.db, task.config, task.target, row)), w, Flushed(task, row), Idle);
  }
}
