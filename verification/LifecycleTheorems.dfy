/** What holds over whole runs of the step system. */
module LifecycleTheorems {
  import opened Wrappers
  import opened Store
  import opened Lifecycle
  import opened LifecycleSafety

  // ---- Every reachable state ----

  lemma {:induction false} Induct(i: nat, j: nat, p: nat -> bool)
    requires i <= j && p(i) && forall k: nat :: i <= k < j && p(k) ==> p(k + 1)
    ensures p(j)
    decreases j - i
  {
    if i < j {
      Induct(i, j - 1, p);
      assert p(j - 1);
    }
  }

  ghost function CountsAt(states: seq<State>, steps: seq<Step>, i: nat): map<ConfigId, nat>
    requires |states| == |steps| + 1 && i <= |steps|
  {
    if i == 0 then map[] else CountsAfter(states[i - 1], steps[i - 1], CountsAt(states, steps, i - 1))
  }

  lemma {:induction false} RunInvariant(world: World, states: seq<State>, steps: seq<Step>, i: nat)
    requires IsRun(world, states, steps) && i <= |steps|
    ensures Inv(states[i], CountsAt(states, steps, i))
  {
    if i > 0 {
      RunInvariant(world, states, steps, i - 1);
      assert StepAt(world, states, steps, i - 1);
      NextKeeps(world, states[i - 1], steps[i - 1], CountsAt(states, steps, i - 1));
    }
  }

  lemma {:induction false} IntervalSize(s: set<int>, n: nat)
    requires forall v :: v in s <==> 1 <= v <= n
    ensures |s| == n
  {
    if n > 0 {
      IntervalSize(s - {n}, n - 1);
    } else {
      assert forall v :: v in s <==> v in {};
      assert s == {};
    }
  }

  lemma CountIsSize(db: Tables, n: map<ConfigId, nat>, c: ConfigId)
    requires RowsOk(db, n) && c in db.configs
    ensures |VersionsOf(db, c)| == n[c]
    ensures forall v :: v in VersionsOf(db, c) <==> 1 <= v <= n[c]
  {
    assert Contiguous(db, c, n[c]);
    forall v ensures v in VersionsOf(db, c) <==> 1 <= v <= n[c] {
      assert v in VersionsOf(db, c) <==> (c, v) in db.versions;
    }
    IntervalSize(VersionsOf(db, c), n[c]);
  }

  /** The version numbers of every config are exactly 1..n, the current version is one of them,
      an active config has one, `processing` is never committed, no published task asks for more
      than the next version, and a build beyond version 1 finds its predecessor. */
  ghost predicate Safe(s: State)
  {
    && (forall c :: c in s.db.configs ==> SafeConfig(s.db, c))
    && (forall task :: task in s.published ==>
         task.config in s.db.configs && 1 <= task.target <= |VersionsOf(s.db, task.config)| + 1)
    && (forall w :: w in s.workers && s.workers[w].Building? && s.workers[w].task.target > 1 ==>
         Predecessor(s.db, s.workers[w].task.config, s.workers[w].task.target).Some?)
    && (forall h :: h in s.db.tokens ==> TokenOk(s.db, s.db.tokens[h]))
  }

  ghost predicate SafeConfig(db: Tables, c: ConfigId)
    requires c in db.configs
  {
    var n := |VersionsOf(db, c)|;
    var row := db.configs[c];
    && (forall v :: v in VersionsOf(db, c) <==> 1 <= v <= n)
    && !row.status.Processing?
    && (row.status.Active? ==> row.current.Some?)
    && (row.current.Some? ==> row.current.value in VersionsOf(db, c))
    && (row.current.None? ==> n == 0)
  }

  lemma InvIsSafe(s: State, n: map<ConfigId, nat>)
    requires Inv(s, n)
    ensures Safe(s)
  {
    forall c | c in s.db.configs ensures SafeConfig(s.db, c) && |VersionsOf(s.db, c)| == n[c] {
      CountIsSize(s.db, n, c);
      assert RowOk(s.db.configs[c], n[c]);
    }
    forall w | w in s.workers && s.workers[w].Building? && s.workers[w].task.target > 1
      ensures Predecessor(s.db, s.workers[w].task.config, s.workers[w].task.target).Some?
    {
      var task := s.workers[w].task;
      assert PhaseOk(s.db, n, s.published, s.workers[w]);
      assert Contiguous(s.db, task.config, n[task.config]);
    }
    forall task | task in s.published
      ensures task.config in s.db.configs && 1 <= task.target <= |VersionsOf(s.db, task.config)| + 1
    {
      assert TaskOk(s.db, n, task);
    }
  }

  lemma Safety(world: World, states: seq<State>, steps: seq<Step>, i: nat)
    requires IsRun(world, states, steps) && i <= |steps|
    ensures Safe(states[i])
  {
    RunInvariant(world, states, steps, i);
    InvIsSafe(states[i], CountsAt(states, steps, i));
  }

  // ---- The atomic machine ----

  /** The three things one task can do to the committed rows, each in one indivisible step. */
  ghost predicate AddsVersion(pre: Tables, post: Tables, task: Task, row: VersionRow)
  {
    && task.config in pre.configs
    && task.target == |VersionsOf(pre, task.config)| + 1
    && (task.config, task.target) !in pre.versions
    && post == WithVersion(pre, task.config, task.target, row)
  }

  ghost predicate Remarks(pre: Tables, post: Tables, task: Task)
  {
    && task.config in pre.configs
    && (task.config, task.target) in pre.versions
    && post == WithConfig(pre, task.config, pre.configs[task.config].(status := Active, current := Some(task.target), error := None))
  }

  ghost predicate RecordsFailure(pre: Tables, post: Tables, task: Task, text: string)
  {
    && task.config in pre.configs
    && |text| <= MAX_ERROR_MESSAGE
    && post == WithConfig(pre, task.config, pre.configs[task.config].(status := Failed, error := Some(text)))
  }

  ghost predicate TaskEffect(pre: Tables, post: Tables, task: Task)
  {
    || (exists row :: AddsVersion(pre, post, task, row))
    || Remarks(pre, post, task)
    || (exists text :: RecordsFailure(pre, post, task, text))
  }

  /** What every step outside the task runs leaves alone: the set of versions and every
      config's current version; statuses only become pending. */
  ghost predicate ApiEffect(pre: Tables, post: Tables)
  {
    && post.versions.Keys == pre.versions.Keys
    && (forall c :: c in pre.configs ==> c in post.configs && KeepsProgress(pre.configs[c], post.configs[c]))
    && (forall c :: c in post.configs && c !in pre.configs ==> post.configs[c].status.Pending? && post.configs[c].current.None?)
  }

  predicate KeepsProgress(a: ConfigRow, b: ConfigRow)
  {
    b.current == a.current && (b.status == a.status || b.status.Pending?)
  }

  predicate IsTaskWrite(step: Step)
  {
    step.Commit? || step.RecordFailure?
  }

  lemma CommitIsAtomic(world: World, s: State, w: nat, acknowledged: bool, n: map<ConfigId, nat>)
    requires Inv(s, n) && WorkerStep(world, s, Commit(w, acknowledged)).Some?
    ensures TaskEffect(s.db, WorkerStep(world, s, Commit(w, acknowledged)).value.db, PhaseOf(s, w).task)
    ensures PhaseOf(s, w).task in s.published
  {
    var phase := PhaseOf(s, w);
    assert PhaseOk(s.db, n, s.published, phase);
    var db' := WorkerStep(world, s, Commit(w, acknowledged)).value.db;
    if phase.Found? {
      assert Remarks(s.db, db', phase.task);
    } else {
      CountIsSize(s.db, n, phase.task.config);
      AddKeeps(s, w, Idle, n);
      assert Contiguous(s.db, phase.task.config, n[phase.task.config]);
      assert AddsVersion(s.db, db', phase.task, phase.row);
    }
  }

  lemma WorkerIsAtomic(world: World, s: State, step: Step, n: map<ConfigId, nat>)
    requires Inv(s, n) && WorkerStep(world, s, step).Some?
    ensures var s' := WorkerStep(world, s, step).value;
            if IsTaskWrite(step)
            then PhaseOf(s, step.w).task in s.published && TaskEffect(s.db, s'.db, PhaseOf(s, step.w).task)
            else s'.db == s.db
  {
    match step
    case Commit(w, acknowledged) =>
      CommitIsAtomic(world, s, w, acknowledged, n);
    case RecordFailure(w) =>
      var p := PhaseOf(s, w);
      assert PhaseOk(s.db, n, s.published, p);
      var db' := WorkerStep(world, s, step).value.db;
      assert RecordsFailure(s.db, db', p.task, db'.configs[p.task.config].error.value);
    case _ =>
  }

  lemma RowIsApi(db: Tables, c: ConfigId, row: ConfigRow)
    requires if c in db.configs then KeepsProgress(db.configs[c], row) else row.status.Pending? && row.current.None?
    ensures ApiEffect(db, WithConfig(db, c, row))
  {
  }

  lemma RequestsAreApi(s: State, step: Step, s': State)
    requires RequestStep(s, step) == Some(s')
    ensures ApiEffect(s.db, s'.db)
  {
    match step
    case CreateConfig(r, c, spec) => RowIsApi(s.db, c, ConfigRow(spec, Pending, None, None, true, None));
    case RegenerateCommit(r) =>
      var c := s.requests[r].task.config;
      if c in s.db.configs {
        RowIsApi(s.db, c, s.db.configs[c].(status := Pending, error := None));
      }
    case RecordTask(r) =>
      var c := s.requests[r].config;
      if IsLive(s.db, c) {
        RowIsApi(s.db, c, s.db.configs[c].(lastTask := Some(s.requests[r].taskId)));
      }
    case _ =>
  }

  lemma AdminIsApi(s: State, step: Step, s': State)
    requires AdminStep(s, step) == Some(s')
    ensures ApiEffect(s.db, s'.db)
  {
  }

  lemma OthersAreApi(s: State, step: Step, s': State)
    requires RequestStep(s, step) == Some(s') || AdminStep(s, step) == Some(s')
    ensures ApiEffect(s.db, s'.db)
  {
    if RequestStep(s, step) == Some(s') {
      RequestsAreApi(s, step, s');
    } else {
      AdminIsApi(s, step, s');
    }
  }

  /** Interleaved task runs refine the atomic machine: whatever was read earlier, the commit or the
      failure record of a run changes the committed rows by one indivisible effect of its own
      published task, whose guard holds at that very moment; its other steps change nothing. */
  lemma Refinement(world: World, states: seq<State>, steps: seq<Step>, i: nat)
    requires IsRun(world, states, steps) && i < |steps|
    ensures var pre, step, post := states[i], steps[i], states[i + 1];
            if !IsWorkerStep(step) then ApiEffect(pre.db, post.db)
            else if IsTaskWrite(step) then
              !PhaseOf(pre, step.w).Idle? && PhaseOf(pre, step.w).task in pre.published && TaskEffect(pre.db, post.db, PhaseOf(pre, step.w).task)
            else post.db == pre.db
  {
    RunInvariant(world, states, steps, i);
    assert StepAt(world, states, steps, i);
    if IsWorkerStep(steps[i]) {
      WorkerIsAtomic(world, states[i], steps[i], CountsAt(states, steps, i));
    } else {
      OthersAreApi(states[i], steps[i], states[i + 1]);
    }
  }

  // ---- Which step changes a version row ----

  predicate Edits(s: State, step: Step, c: ConfigId, v: Version)
  {
    step.EditCommit? && step.r in s.requests && s.requests[step.r] == Editing(c, v)
  }

  /** A row after a step: kept whole, or changed in its document and port by an edit. */
  ghost predicate RowKept(pre: Tables, post: Tables, edited: bool, c: ConfigId, v: Version)
    requires (c, v) in pre.versions
  {
    && (c, v) in post.versions
    && (!edited ==> post.versions[(c, v)] == pre.versions[(c, v)])
    && post.versions[(c, v)] == pre.versions[(c, v)].(data := post.versions[(c, v)].data, port := post.versions[(c, v)].port)
  }

  ghost predicate SpecKept(pre: Tables, post: Tables, repolicied: bool, c: ConfigId)
    requires c in pre.configs
  {
    && c in post.configs
    && post.configs[c].spec == pre.configs[c].spec.(policy := post.configs[c].spec.policy)
    && (!repolicied ==> post.configs[c].spec == pre.configs[c].spec)
  }

  lemma TaskFrame(pre: Tables, post: Tables, task: Task, c: ConfigId)
    requires TaskEffect(pre, post, task)
    ensures forall key :: key in pre.versions ==> key in post.versions && post.versions[key] == pre.versions[key]
    ensures c in pre.configs ==> SpecKept(pre, post, false, c)
  {
  }

  lemma RequestFrame(s: State, step: Step, s': State, c: ConfigId)
    requires RequestStep(s, step) == Some(s')
    ensures forall v :: (c, v) in s.db.versions ==> RowKept(s.db, s'.db, Edits(s, step, c, v), c, v)
    ensures c in s.db.configs ==> SpecKept(s.db, s'.db, false, c)
  {
    RequestKeepsRows(s, step, s', c);
    RequestKeepsSpec(s, step, s', c);
  }

  lemma RequestKeepsRows(s: State, step: Step, s': State, c: ConfigId)
    requires RequestStep(s, step) == Some(s')
    ensures forall v :: (c, v) in s.db.versions ==> RowKept(s.db, s'.db, Edits(s, step, c, v), c, v)
  {
  }

  lemma RequestKeepsSpec(s: State, step: Step, s': State, c: ConfigId)
    requires RequestStep(s, step) == Some(s')
    ensures c in s.db.configs ==> SpecKept(s.db, s'.db, false, c)
  {
  }

  lemma AdminFrame(s: State, step: Step, s': State, c: ConfigId)
    requires AdminStep(s, step) == Some(s')
    ensures s'.db.versions == s.db.versions
    ensures c in s.db.configs ==> SpecKept(s.db, s'.db, step.ChangePolicy?, c)
  {
  }

  /** Rows never disappear; only an edit of that very version changes one, and then nothing
      but its document and its port. A config keeps its name, profile and host for ever. */
  lemma Frame(world: World, s: State, step: Step, n: map<ConfigId, nat>, c: ConfigId, v: Version)
    requires Inv(s, n) && Next(world, s, step).Some?
    ensures var s' := Next(world, s, step).value;
            && ((c, v) in s.db.versions ==> RowKept(s.db, s'.db, Edits(s, step, c, v), c, v))
            && (c in s.db.configs ==> SpecKept(s.db, s'.db, step.ChangePolicy?, c))
  {
    var s' := Next(world, s, step).value;
    if IsWorkerStep(step) {
      WorkerIsAtomic(world, s, step, n);
      if IsTaskWrite(step) {
        TaskFrame(s.db, s'.db, PhaseOf(s, step.w).task, c);
      }
    } else if IsRequestStep(step) {
      RequestFrame(s, step, s', c);
    } else {
      AdminFrame(s, step, s', c);
    }
  }

  ghost predicate NoEdit(states: seq<State>, steps: seq<Step>, i: nat, j: nat, c: ConfigId, v: Version)
    requires |states| == |steps| + 1 && j <= |steps|
  {
    forall k :: i <= k < j ==> !Edits(states[k], steps[k], c, v)
  }

  lemma SnapshotAt(world: World, states: seq<State>, steps: seq<Step>, k: nat, c: ConfigId, v: Version)
    requires IsRun(world, states, steps) && k < |steps|
    requires GetSnapshot(states[k].db, c, v).Some? && !Edits(states[k], steps[k], c, v)
    ensures GetSnapshot(states[k + 1].db, c, v) == GetSnapshot(states[k].db, c, v)
  {
    RunInvariant(world, states, steps, k);
    assert StepAt(world, states, steps, k);
    Frame(world, states[k], steps[k], CountsAt(states, steps, k), c, v);
  }

  /** What a pinned link reads stays the same through any run of regenerations, failures,
      redeliveries and deletes that edits neither of them. */
  lemma {:induction false} SnapshotStable(world: World, states: seq<State>, steps: seq<Step>, i: nat, j: nat, c: ConfigId, v: Version)
    requires IsRun(world, states, steps) && i <= j <= |steps|
    requires GetSnapshot(states[i].db, c, v).Some?
    requires NoEdit(states, steps, i, j, c, v)
    ensures GetSnapshot(states[j].db, c, v) == GetSnapshot(states[i].db, c, v)
    decreases j - i
  {
    if i < j {
      SnapshotStable(world, states, steps, i, j - 1, c, v);
      SnapshotAt(world, states, steps, j - 1, c, v);
    }
  }

  // ---- The current version ----

  predicate CommitsTask(s: State, step: Step, c: ConfigId)
  {
    && step.Commit?
    && (PhaseOf(s, step.w).Found? || PhaseOf(s, step.w).Flushed?)
    && PhaseOf(s, step.w).task.config == c
  }

  function Progress(db: Tables, c: ConfigId): int
  {
    if c in db.configs && db.configs[c].current.Some? then db.configs[c].current.value else 0
  }

  /** The current version of a config moves only when a task for it commits, and then to that task's target. */
  lemma ProgressStep(world: World, s: State, step: Step, n: map<ConfigId, nat>, c: ConfigId)
    requires Inv(s, n) && Next(world, s, step).Some? && c in s.db.configs
    ensures var s' := Next(world, s, step).value;
            Progress(s'.db, c) == if CommitsTask(s, step, c) then PhaseOf(s, step.w).task.target else Progress(s.db, c)
  {
    var s' := Next(world, s, step).value;
    if IsWorkerStep(step) {
      WorkerIsAtomic(world, s, step, n);
      if step.Commit? {
        CommitSetsCurrent(world, s, step.w, step.acknowledged, n);
      }
    } else {
      OthersAreApi(s, step, s');
      assert KeepsProgress(s.db.configs[c], s'.db.configs[c]);
    }
  }

  lemma CommitSetsCurrent(world: World, s: State, w: nat, acknowledged: bool, n: map<ConfigId, nat>)
    requires Inv(s, n) && WorkerStep(world, s, Commit(w, acknowledged)).Some?
    ensures var s' := WorkerStep(world, s, Commit(w, acknowledged)).value;
            var task := PhaseOf(s, w).task;
            && Progress(s'.db, task.config) == task.target
            && forall c :: c != task.config ==> Progress(s'.db, c) == Progress(s.db, c)
  {
    var phase := PhaseOf(s, w);
    assert PhaseOk(s.db, n, s.published, phase);
    if phase.Flushed? {
      AddKeeps(s, w, Idle, n);
    }
  }

  /** A late delivery: the task being committed is older than what the config already shows. */
  predicate Stale(s: State, step: Step, c: ConfigId)
  {
    CommitsTask(s, step, c) && PhaseOf(s, step.w).task.target < Progress(s.db, c)
  }

  /** In every reachable state the current version goes down in a step exactly when that step
      commits a task older than it. */
  lemma RegressesIffStale(world: World, states: seq<State>, steps: seq<Step>, i: nat, c: ConfigId)
    requires IsRun(world, states, steps) && i < |steps| && c in states[i].db.configs
    ensures Progress(states[i + 1].db, c) < Progress(states[i].db, c) <==> Stale(states[i], steps[i], c)
  {
    RunInvariant(world, states, steps, i);
    assert StepAt(world, states, steps, i);
    ProgressStep(world, states[i], steps[i], CountsAt(states, steps, i), c);
  }

  ghost predicate NeverStale(states: seq<State>, steps: seq<Step>, i: nat, j: nat, c: ConfigId)
    requires |states| == |steps| + 1 && j <= |steps|
  {
    forall k :: i <= k < j ==> !Stale(states[k], steps[k], c)
  }

  /** A commit that is not stale leaves the current version equal to the count of versions. */
  lemma SyncStep(world: World, s: State, step: Step, n: map<ConfigId, nat>, c: ConfigId)
    requires Inv(s, n) && Next(world, s, step).Some? && c in s.db.configs
    requires Progress(s.db, c) == n[c] && !Stale(s, step, c)
    ensures var s' := Next(world, s, step).value;
            && c in CountsAfter(s, step, n)
            && Progress(s'.db, c) == CountsAfter(s, step, n)[c]
            && Progress(s'.db, c) >= Progress(s.db, c)
  {
    ProgressStep(world, s, step, n, c);
    if CommitsTask(s, step, c) {
      var phase := PhaseOf(s, step.w);
      assert PhaseOk(s.db, n, s.published, phase);
      assert Contiguous(s.db, c, n[c]);
    }
  }

  /** A step from synced to synced, for a config that is there already or just appears. */
  lemma SyncedStep(world: World, s: State, step: Step, s': State, n: map<ConfigId, nat>, c: ConfigId)
    requires Inv(s, n) && Next(world, s, step) == Some(s') && c in s'.db.configs
    requires c in s.db.configs ==> Progress(s.db, c) == n[c] && !Stale(s, step, c)
    ensures c in CountsAfter(s, step, n) && Progress(s'.db, c) == CountsAfter(s, step, n)[c]
  {
    if c in s.db.configs {
      SyncStep(world, s, step, n, c);
    } else {
      Appears(world, s, step, n, c);
    }
  }

  lemma {:induction false} SyncedCounts(world: World, states: seq<State>, steps: seq<Step>, i: nat, c: ConfigId)
    requires IsRun(world, states, steps) && i <= |steps| && c in states[i].db.configs
    requires NeverStale(states, steps, 0, i, c)
    ensures c in CountsAt(states, steps, i) && Progress(states[i].db, c) == CountsAt(states, steps, i)[c]
  {
    if i > 0 {
      RunInvariant(world, states, steps, i - 1);
      assert StepAt(world, states, steps, i - 1);
      if c in states[i - 1].db.configs {
        SyncedCounts(world, states, steps, i - 1, c);
      }
      SyncedStep(world, states[i - 1], steps[i - 1], states[i], CountsAt(states, steps, i - 1), c);
    }
  }

  lemma Appears(world: World, s: State, step: Step, n: map<ConfigId, nat>, c: ConfigId)
    requires Inv(s, n) && Next(world, s, step).Some? && c !in s.db.configs && c in Next(world, s, step).value.db.configs
    ensures step.CreateConfig? && step.c == c
    ensures Progress(Next(world, s, step).value.db, c) == 0
  {
    if IsWorkerStep(step) {
      WorkerIsAtomic(world, s, step, n);
    } else {
      AddsByCreating(s, step, Next(world, s, step).value, c);
    }
  }

  lemma AddsByCreating(s: State, step: Step, s': State, c: ConfigId)
    requires RequestStep(s, step) == Some(s') || AdminStep(s, step) == Some(s')
    requires c !in s.db.configs && c in s'.db.configs
    ensures step.CreateConfig? && step.c == c && Progress(s'.db, c) == 0
  {
    OthersAreApi(s, step, s');
  }

  /** As long as no stale task commits, a config's current version is its number of versions. */
  lemma CurrentIsCount(world: World, states: seq<State>, steps: seq<Step>, i: nat, c: ConfigId)
    requires IsRun(world, states, steps) && i <= |steps| && c in states[i].db.configs
    requires NeverStale(states, steps, 0, i, c)
    ensures Progress(states[i].db, c) == |VersionsOf(states[i].db, c)|
  {
    SyncedCounts(world, states, steps, i, c);
    RunInvariant(world, states, steps, i);
    CountIsSize(states[i].db, CountsAt(states, steps, i), c);
  }

  lemma ConfigStays(world: World, states: seq<State>, steps: seq<Step>, k: nat, c: ConfigId)
    requires IsRun(world, states, steps) && k < |steps| && c in states[k].db.configs
    ensures c in states[k + 1].db.configs
  {
    RunInvariant(world, states, steps, k);
    assert StepAt(world, states, steps, k);
    Frame(world, states[k], steps[k], CountsAt(states, steps, k), c, 1);
  }

  /** ... and it never goes down. */
  lemma CurrentMonotone(world: World, states: seq<State>, steps: seq<Step>, i: nat, j: nat, c: ConfigId)
    requires IsRun(world, states, steps) && i <= j <= |steps| && c in states[i].db.configs
    requires NeverStale(states, steps, i, j, c)
    ensures c in states[j].db.configs && Progress(states[i].db, c) <= Progress(states[j].db, c)
  {
    var p := (k: nat) => k < |states| && c in states[k].db.configs && Progress(states[i].db, c) <= Progress(states[k].db, c);
    forall k: nat | i <= k < j && p(k) ensures p(k + 1) {
      ConfigStays(world, states, steps, k, c);
      RegressesIffStale(world, states, steps, k, c);
    }
    Induct(i, j, p);
  }

  /** Every commit for `c` in the stretch re-executes the task of the current version. */
  ghost predicate OnlyReplays(states: seq<State>, steps: seq<Step>, i: nat, j: nat, c: ConfigId)
    requires |states| == |steps| + 1 && i <= j <= |steps|
  {
    forall k :: i <= k < j && CommitsTask(states[k], steps[k], c) ==>
      PhaseOf(states[k], steps[k].w).task.target == Progress(states[i].db, c)
  }

  lemma ReplayStep(world: World, s: State, step: Step, n: map<ConfigId, nat>, c: ConfigId)
    requires Inv(s, n) && Next(world, s, step).Some? && c in s.db.configs && Progress(s.db, c) > 0
    requires CommitsTask(s, step, c) ==> PhaseOf(s, step.w).task.target == Progress(s.db, c)
    ensures c in Next(world, s, step).value.db.configs
    ensures Progress(Next(world, s, step).value.db, c) == Progress(s.db, c)
    ensures c in CountsAfter(s, step, n) && CountsAfter(s, step, n)[c] == n[c]
  {
    Frame(world, s, step, n, c, 1);
    ProgressStep(world, s, step, n, c);
    if CommitsTask(s, step, c) {
      assert PhaseOk(s.db, n, s.published, PhaseOf(s, step.w));
      assert RowOk(s.db.configs[c], n[c]);
    }
  }

  lemma SameVersions(a: Tables, b: Tables, c: ConfigId, n: nat)
    requires Contiguous(a, c, n) && Contiguous(b, c, n)
    ensures VersionsOf(a, c) == VersionsOf(b, c)
  {
    forall v ensures v in VersionsOf(a, c) <==> v in VersionsOf(b, c) {
      assert (c, v) in a.versions <==> (c, v) in b.versions;
    }
  }

  lemma ReplayAt(world: World, states: seq<State>, steps: seq<Step>, k: nat, c: ConfigId)
    requires IsRun(world, states, steps) && k < |steps| && c in states[k].db.configs && Progress(states[k].db, c) > 0
    requires CommitsTask(states[k], steps[k], c) ==> PhaseOf(states[k], steps[k].w).task.target == Progress(states[k].db, c)
    ensures c in states[k + 1].db.configs && Progress(states[k + 1].db, c) == Progress(states[k].db, c)
    ensures VersionsOf(states[k + 1].db, c) == VersionsOf(states[k].db, c)
  {
    var n := CountsAt(states, steps, k);
    RunInvariant(world, states, steps, k);
    assert StepAt(world, states, steps, k);
    ReplayStep(world, states[k], steps[k], n, c);
    NextKeeps(world, states[k], steps[k], n);
    assert Contiguous(states[k].db, c, n[c]);
    assert Contiguous(states[k + 1].db, c, CountsAfter(states[k], steps[k], n)[c]);
    SameVersions(states[k + 1].db, states[k].db, c, n[c]);
  }

  /** Running the latest task again, any number of times, leaves the versions and the current
      version as they were. */
  lemma ReplaysKeepVersions(world: World, states: seq<State>, steps: seq<Step>, i: nat, j: nat, c: ConfigId)
    requires IsRun(world, states, steps) && i <= j <= |steps|
    requires c in states[i].db.configs && Progress(states[i].db, c) > 0
    requires OnlyReplays(states, steps, i, j, c)
    ensures VersionsOf(states[j].db, c) == VersionsOf(states[i].db, c)
    ensures Progress(states[j].db, c) == Progress(states[i].db, c)
  {
    var p := (k: nat) => k < |states| && c in states[k].db.configs && Progress(states[k].db, c) == Progress(states[i].db, c)
                         && VersionsOf(states[k].db, c) == VersionsOf(states[i].db, c);
    forall k: nat | i <= k < j && p(k) ensures p(k + 1) {
      ReplayAt(world, states, steps, k, c);
    }
    Induct(i, j, p);
  }
}
