/** A task run as the worker code executes it is one of the runs of the step system, so everything
    proved about all interleavings holds of it; and alone it has exactly one atomic effect. */
module TaskRuns {
  import opened Wrappers
  import opened Store
  import opened Settings
  import opened ConfigBuild
  import opened Lifecycle
  import opened LifecycleSafety
  import opened LifecycleTheorems
  import opened RegenerateChain
  import opened StepRuns
  import ConfigTask

  /** The world builds whatever the builder can build from this panel's settings. */
  ghost predicate BuildsWith(world: World, ctx: Context)
  {
    forall spec, previous, row :: Builds(ctx, spec, previous, row) ==> world.builds(spec, previous, row)
  }

  /** A worker is free and no other run of the same task is in the way. */
  ghost predicate CanRun(s: State, w: nat, task: Task)
  {
    && PhaseOf(s, w).Idle? && task in s.published
    && (task.config in s.db.configs ==> task.profile == s.db.configs[task.config].spec.profile)
    && !KeyHeld(s, w, task)
  }

  lemma BuiltRow(world: World, ctx: Context, db: Tables, task: Task, draws: Draws)
    requires BuildsWith(world, ctx) && draws.Valid() && task.config in db.configs
    requires task.profile == db.configs[task.config].spec.profile && (task.config, task.target) !in db.versions
    requires ConfigTask.BuildAndInsert(MarkProcessing(db, task.config).value, ctx, task, draws).Ok?
    ensures var inserted := ConfigTask.BuildAndInsert(MarkProcessing(db, task.config).value, ctx, task, draws).value.0;
            && (task.config, task.target) in inserted.versions
            && world.builds(db.configs[task.config].spec, Predecessor(db, task.config, task.target), inserted.versions[(task.config, task.target)])
            && InsertVersion(MarkProcessing(db, task.config).value, task.config, task.target, inserted.versions[(task.config, task.target)]) == Ok(inserted)
  {
    var marked := MarkProcessing(db, task.config).value;
    var spec := db.configs[task.config].spec;
    assert marked.configs[task.config].spec.(profile := task.profile) == spec;
    var previous := Predecessor(db, task.config, task.target);
    assert Predecessor(marked, task.config, task.target) == previous;
    var used := ListUsedPorts(marked, task.config);
    var stored := BuildVersion(ctx, spec, previous, used, draws).value;
    assert BuildVersion(ctx, spec, previous, used, draws) == Ok(Stored(stored.row, stored.files));
    assert Builds(ctx, spec, previous, stored.row);
  }

  lemma NobodyHolds(s: State, w: nat, task: Task, p: Phase)
    requires !KeyHeld(s, w, task)
    ensures !KeyHeld(WithPhase(s, w, p), w, task)
  {
    var s' := WithPhase(s, w, p);
    forall u | u in s'.workers && u != w && s'.workers[u].Flushed?
      ensures !(s'.workers[u].task.config == task.config && s'.workers[u].task.target == task.target)
    {
      assert u in s.workers && s.workers[u] == s'.workers[u];
    }
  }

  lemma Received(world: World, s: State, w: nat, task: Task, rest: seq<Step>)
    requires PhaseOf(s, w).Idle? && task in s.published
    ensures Taking(world, s, [Deliver(w, task)] + rest) == Taking(world, WithPhase(s, w, Lifecycle.Received(task)), rest)
  {
    TakeOne(world, s, Deliver(w, task), rest);
  }

  /** An already inserted version is marked active again. */
  lemma KnownRun(world: World, s: State, w: nat, task: Task)
    requires CanRun(s, w, task) && (task.config, task.target) in s.db.versions && task.config in s.db.configs
    ensures Taking(world, s, [Deliver(w, task)] + ([ReadVersion(w)] + ([Commit(w, true)] + [])))
            == Some(WithPhase(s.(db := MarkActive(s.db, task.config, task.target).value), w, Idle))
  {
    var a, b := WithPhase(s, w, Lifecycle.Received(task)), WithPhase(s, w, Found(task));
    Received(world, s, w, task, [ReadVersion(w)] + ([Commit(w, true)] + []));
    PhaseTwice(s, w, Lifecycle.Received(task), Found(task));
    TakeOne(world, a, ReadVersion(w), [Commit(w, true)] + []);
    TakeOne(world, b, Commit(w, true), []);
    PhaseTwice(s.(db := MarkActive(s.db, task.config, task.target).value), w, Found(task), Idle);
  }

  /** The version is missing, so the run goes on to build it. */
  lemma ReadMissing(world: World, s: State, w: nat, task: Task, rest: seq<Step>)
    requires CanRun(s, w, task) && (task.config, task.target) !in s.db.versions && task.config in s.db.configs
    ensures Taking(world, s, [Deliver(w, task)] + ([ReadVersion(w)] + rest)) == Taking(world, WithPhase(s, w, Building(task)), rest)
  {
    Received(world, s, w, task, [ReadVersion(w)] + rest);
    PhaseTwice(s, w, Lifecycle.Received(task), Building(task));
    TakeOne(world, WithPhase(s, w, Lifecycle.Received(task)), ReadVersion(w), rest);
  }

  lemma BuiltSoFar(world: World, s: State, w: nat, task: Task, row: VersionRow, rest: seq<Step>)
    requires CanRun(s, w, task) && (task.config, task.target) !in s.db.versions && task.config in s.db.configs
    requires world.builds(s.db.configs[task.config].spec, Predecessor(s.db, task.config, task.target), row)
    ensures Taking(world, s, [Deliver(w, task)] + ([ReadVersion(w)] + ([Build(w, row)] + rest)))
            == Taking(world, WithPhase(s, w, Lifecycle.Built(task, row)), rest)
  {
    ReadMissing(world, s, w, task, [Build(w, row)] + rest);
    PhaseTwice(s, w, Building(task), Lifecycle.Built(task, row));
    TakeOne(world, WithPhase(s, w, Building(task)), Build(w, row), rest);
  }

  lemma FlushedRun(world: World, s: State, w: nat, task: Task, row: VersionRow, rest: seq<Step>)
    requires CanRun(s, w, task) && (task.config, task.target) !in s.db.versions
    ensures Taking(world, WithPhase(s, w, Lifecycle.Built(task, row)), [Flush(w)] + rest)
            == Taking(world, WithPhase(s, w, Flushed(task, row)), rest)
  {
    NobodyHolds(s, w, task, Lifecycle.Built(task, row));
    PhaseTwice(s, w, Lifecycle.Built(task, row), Flushed(task, row));
    TakeOne(world, WithPhase(s, w, Lifecycle.Built(task, row)), Flush(w), rest);
  }

  lemma InsertedRun(world: World, s: State, w: nat, task: Task, row: VersionRow)
    requires CanRun(s, w, task) && (task.config, task.target) !in s.db.versions && task.config in s.db.configs
    ensures Taking(world, WithPhase(s, w, Lifecycle.Built(task, row)), [Flush(w)] + ([Commit(w, true)] + []))
            == Some(WithPhase(s.(db := WithVersion(s.db, task.config, task.target, row)), w, Idle))
  {
    FlushedRun(world, s, w, task, row, [Commit(w, true)] + []);
    InsertCommits(s.db, task, row);
    TakeOne(world, WithPhase(s, w, Flushed(task, row)), Commit(w, true), []);
    PhaseTwice(s.(db := WithVersion(s.db, task.config, task.target, row)), w, Flushed(task, row), Idle);
  }

  /** A build that succeeds is inserted and committed. */
  lemma BuiltRun(world: World, s: State, w: nat, task: Task, row: VersionRow)
    requires CanRun(s, w, task) && (task.config, task.target) !in s.db.versions && task.config in s.db.configs
    requires world.builds(s.db.configs[task.config].spec, Predecessor(s.db, task.config, task.target), row)
    ensures Taking(world, s, [Deliver(w, task)] + ([ReadVersion(w)] + ([Build(w, row)] + ([Flush(w)] + ([Commit(w, true)] + [])))))
            == Some(WithPhase(s.(db := WithVersion(s.db, task.config, task.target, row)), w, Idle))
  {
    BuiltSoFar(world, s, w, task, row, [Flush(w)] + ([Commit(w, true)] + []));
    InsertedRun(world, s, w, task, row);
  }

  lemma RecordedRun(world: World, s: State, w: nat, task: Task, message: string)
    requires task.config in s.db.configs
    ensures Taking(world, WithPhase(s, w, Aborted(task, message)), [RecordFailure(w)] + [])
            == Some(WithPhase(s.(db := MarkFailed(s.db, task.config, message).value), w, Idle))
  {
    TakeOne(world, WithPhase(s, w, Aborted(task, message)), RecordFailure(w), []);
    PhaseTwice(s.(db := MarkFailed(s.db, task.config, message).value), w, Aborted(task, message), Idle);
  }

  /** A build that fails is rolled back, and the failure is recorded on its own. */
  lemma FailedRun(world: World, s: State, w: nat, task: Task, message: string)
    requires CanRun(s, w, task) && (task.config, task.target) !in s.db.versions && task.config in s.db.configs
    ensures Taking(world, s, [Deliver(w, task)] + ([ReadVersion(w)] + ([Fail(w, message)] + ([RecordFailure(w)] + []))))
            == Some(WithPhase(s.(db := MarkFailed(s.db, task.config, message).value), w, Idle))
  {
    ReadMissing(world, s, w, task, [Fail(w, message)] + ([RecordFailure(w)] + []));
    PhaseTwice(s, w, Building(task), Aborted(task, message));
    TakeOne(world, WithPhase(s, w, Building(task)), Fail(w, message), [RecordFailure(w)] + []);
    RecordedRun(world, s, w, task, message);
  }

  lemma FreshCommit(world: World, ctx: Context, db: Tables, task: Task, draws: Draws) returns (row: VersionRow)
    requires BuildsWith(world, ctx) && draws.Valid() && task.config in db.configs
    requires task.profile == db.configs[task.config].spec.profile && (task.config, task.target) !in db.versions
    requires ConfigTask.TaskCommit(db, ctx, task, draws).Ok?
    ensures world.builds(db.configs[task.config].spec, Predecessor(db, task.config, task.target), row)
    ensures ConfigTask.TaskCommit(db, ctx, task, draws) == Ok(WithVersion(db, task.config, task.target, row))
  {
    BuiltRow(world, ctx, db, task, draws);
    row := ConfigTask.BuildAndInsert(MarkProcessing(db, task.config).value, ctx, task, draws).value.0.versions[(task.config, task.target)];
    InsertCommits(db, task, row);
  }

  /** A run that commits. */
  lemma CommittedSteps(world: World, ctx: Context, s: State, w: nat, task: Task, draws: Draws) returns (steps: seq<Step>)
    requires BuildsWith(world, ctx) && draws.Valid() && CanRun(s, w, task) && task.config in s.db.configs
    requires ConfigTask.TaskCommit(s.db, ctx, task, draws).Ok?
    ensures Leads(world, s, steps, WithPhase(s.(db := ConfigTask.TaskCommit(s.db, ctx, task, draws).value), w, Idle))
  {
    if (task.config, task.target) in s.db.versions {
      KnownRun(world, s, w, task);
      steps := [Deliver(w, task)] + ([ReadVersion(w)] + ([Commit(w, true)] + []));
    } else {
      var row := FreshCommit(world, ctx, s.db, task, draws);
      BuiltRun(world, s, w, task, row);
      steps := [Deliver(w, task)] + ([ReadVersion(w)] + ([Build(w, row)] + ([Flush(w)] + ([Commit(w, true)] + []))));
    }
  }

  lemma NeverRaisesOnKnown(ctx: Context, db: Tables, task: Task, draws: Draws)
    requires task.config in db.configs && ConfigTask.TaskCommit(db, ctx, task, draws).Raised?
    ensures (task.config, task.target) !in db.versions
  {
  }

  /** Whatever the build draws and however it ends, the committed rows after the worker's code has run
      a task of an existing config are those that some steps of the step system lead to. */
  lemma TaskRunIsSteps(world: World, ctx: Context, s: State, w: nat, task: Task, draws: Draws, message: string) returns (steps: seq<Step>)
    requires BuildsWith(world, ctx) && draws.Valid() && CanRun(s, w, task) && task.config in s.db.configs
    ensures Leads(world, s, steps, WithPhase(s.(db := ConfigTask.AfterTask(s.db, ctx, task, draws, message)), w, Idle))
  {
    if ConfigTask.TaskCommit(s.db, ctx, task, draws).Ok? {
      steps := CommittedSteps(world, ctx, s, w, task, draws);
    } else {
      NeverRaisesOnKnown(ctx, s.db, task, draws);
      FailedRun(world, s, w, task, message);
      steps := [Deliver(w, task)] + ([ReadVersion(w)] + ([Fail(w, message)] + ([RecordFailure(w)] + [])));
    }
  }

  /** What a commit of a missing version writes, in one piece. */
  lemma InsertShape(ctx: Context, db: Tables, task: Task, draws: Draws) returns (row: VersionRow)
    requires task.config in db.configs && (task.config, task.target) !in db.versions
    requires ConfigTask.TaskCommit(db, ctx, task, draws).Ok?
    ensures ConfigTask.TaskCommit(db, ctx, task, draws) == Ok(WithVersion(db, task.config, task.target, row))
  {
    var marked := MarkProcessing(db, task.config).value;
    var inserted := ConfigTask.BuildAndInsert(marked, ctx, task, draws).value.0;
    row := inserted.versions[(task.config, task.target)];
    assert InsertVersion(marked, task.config, task.target, row) == Ok(inserted);
    InsertCommits(db, task, row);
  }

  lemma InsertEffect(db: Tables, n: map<ConfigId, nat>, task: Task, row: VersionRow)
    requires RowsOk(db, n) && TaskOk(db, n, task) && (task.config, task.target) !in db.versions
    ensures AddsVersion(db, WithVersion(db, task.config, task.target, row), task, row)
  {
    assert Contiguous(db, task.config, n[task.config]);
    CountIsSize(db, n, task.config);
  }

  lemma FailureEffect(db: Tables, task: Task, message: string)
    requires task.config in db.configs
    ensures exists text :: RecordsFailure(db, MarkFailed(db, task.config, message).value, task, text)
  {
    var after := MarkFailed(db, task.config, message).value;
    assert RecordsFailure(db, after, task, after.configs[task.config].error.value);
  }

  /** Run on its own, a task has one of the three atomic effects and never leaves a config processing. */
  lemma TaskRunEffect(ctx: Context, db: Tables, n: map<ConfigId, nat>, task: Task, draws: Draws, message: string)
    requires RowsOk(db, n) && TaskOk(db, n, task)
    ensures TaskEffect(db, ConfigTask.AfterTask(db, ctx, task, draws, message), task)
    ensures !ConfigTask.AfterTask(db, ctx, task, draws, message).configs[task.config].status.Processing?
  {
    if (task.config, task.target) in db.versions {
      assert Remarks(db, MarkActive(db, task.config, task.target).value, task);
    } else if ConfigTask.TaskCommit(db, ctx, task, draws).Raised? {
      FailureEffect(db, task, message);
    } else {
      var row := InsertShape(ctx, db, task, draws);
      InsertEffect(db, n, task, row);
    }
  }

  predicate IsDone(db: Tables, task: Task)
  {
    && task.config in db.configs && (task.config, task.target) in db.versions
    && db.configs[task.config].status.Active? && db.configs[task.config].current == Some(task.target)
    && db.configs[task.config].error.None?
  }

  lemma CommittedIsDone(ctx: Context, db: Tables, task: Task, draws: Draws)
    requires ConfigTask.TaskCommit(db, ctx, task, draws).Ok? && task.config in db.configs
    ensures IsDone(ConfigTask.TaskCommit(db, ctx, task, draws).value, task)
  {
    if (task.config, task.target) !in db.versions {
      var row := InsertShape(ctx, db, task, draws);
    }
  }

  lemma DoneStays(ctx: Context, db: Tables, task: Task, draws: Draws, message: string)
    requires IsDone(db, task)
    ensures ConfigTask.AfterTask(db, ctx, task, draws, message) == db
  {
    assert db.configs[task.config := db.configs[task.config]] == db.configs;
    assert MarkActive(db, task.config, task.target) == Ok(db);
  }

  /** Running a task that has succeeded again changes no version and no current version. */
  lemma RunTwice(ctx: Context, db: Tables, task: Task, first: Draws, second: Draws, message: string)
    requires ConfigTask.TaskCommit(db, ctx, task, first).Ok? && task.config in db.configs
    ensures var once := ConfigTask.AfterTask(db, ctx, task, first, message);
            ConfigTask.AfterTask(once, ctx, task, second, message) == once
  {
    CommittedIsDone(ctx, db, task, first);
    DoneStays(ctx, ConfigTask.TaskCommit(db, ctx, task, first).value, task, second, message);
  }
}
