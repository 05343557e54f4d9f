/** Safety of the step system: the invariant over every run, the atomic machine that task
    runs refine, and what share links keep. */
module LifecycleSafety {
  import opened Wrappers
  import opened JsonTree
  import opened Store
  import opened ShareExpiry
  import opened Lifecycle

  // ---- The invariant is kept ----

  /** Rows only accumulate: no config or version disappears and no count goes down. */
  ghost predicate Grows(db: Tables, n: map<ConfigId, nat>, db': Tables, n': map<ConfigId, nat>)
  {
    && n.Keys == db.configs.Keys && n'.Keys == db'.configs.Keys
    && (forall c :: c in db.configs ==>
         && c in db'.configs
         && db'.configs[c].spec.profile == db.configs[c].spec.profile
         && db'.configs[c].spec.name == db.configs[c].spec.name
         && n[c] <= n'[c])
    && (forall key :: key in db.versions ==> key in db'.versions)
  }

  lemma GrowsKeeps(s: State, n: map<ConfigId, nat>, db': Tables, n': map<ConfigId, nat>)
    requires Inv(s, n) && Grows(s.db, n, db', n')
    ensures PublishedOk(db', n', s.published)
    ensures RequestsOk(db', n', s.requests)
    ensures db'.tokens == s.db.tokens ==> TokensOk(db')
    ensures n' == n ==> WorkersOk(db', n', s.published, s.workers)
  {
  }

  /** Rewriting one config row without touching what tasks were made from. */
  lemma RowRewritten(s: State, n: map<ConfigId, nat>, c: ConfigId, row: ConfigRow)
    requires Inv(s, n) && c in s.db.configs && RowOk(row, n[c])
    requires row.spec.profile == s.db.configs[c].spec.profile && row.spec.name == s.db.configs[c].spec.name
    ensures Inv(s.(db := WithConfig(s.db, c, row)), n)
  {
    var db' := WithConfig(s.db, c, row);
    assert forall d, v :: (d, v) in db'.versions <==> (d, v) in s.db.versions;
    assert RowsOk(db', n);
    GrowsKeeps(s, n, db', n);
  }

  lemma PhaseMoves(s: State, n: map<ConfigId, nat>, w: nat, p: Phase)
    requires Inv(s, n) && PhaseOk(s.db, n, s.published, p)
    requires p.Flushed? ==> forall u :: u in s.workers && u != w && s.workers[u].Flushed? ==> s.workers[u].task.config != p.task.config
    ensures Inv(WithPhase(s, w, p), n)
  {
  }

  lemma RequestMoves(s: State, n: map<ConfigId, nat>, r: nat, q: Request)
    requires Inv(s, n) && RequestOk(s.db, n, q)
    ensures Inv(WithRequest(s, r, q), n)
  {
  }

  lemma RequestEnds(s: State, n: map<ConfigId, nat>, r: nat)
    requires Inv(s, n)
    ensures Inv(Without(s, r), n)
  {
  }

  lemma FlushKeeps(world: World, s: State, w: nat, n: map<ConfigId, nat>)
    requires Inv(s, n) && WorkerStep(world, s, Flush(w)).Some?
    ensures Inv(WorkerStep(world, s, Flush(w)).value, n)
  {
    var p := PhaseOf(s, w);
    var task := p.task;
    if (task.config, task.target) in s.db.versions {
      PhaseMoves(s, n, w, Aborted(task, "duplicate key"));
    } else {
      assert Contiguous(s.db, task.config, n[task.config]);
      assert task.target == n[task.config] + 1;
      forall u | u in s.workers && u != w && s.workers[u].Flushed?
        ensures s.workers[u].task.config != task.config
      {
        assert PhaseOk(s.db, n, s.published, s.workers[u]);
      }
      PhaseMoves(s, n, w, Flushed(task, p.row));
    }
  }

  lemma RemarkKeeps(s: State, w: nat, n: map<ConfigId, nat>)
    requires Inv(s, n) && PhaseOf(s, w).Found?
    ensures CommittedBy(s.db, PhaseOf(s, w)).Ok?
    ensures Inv(s.(db := CommittedBy(s.db, PhaseOf(s, w)).value), n)
  {
    var task := PhaseOf(s, w).task;
    var c := task.config;
    assert PhaseOk(s.db, n, s.published, PhaseOf(s, w));
    assert Contiguous(s.db, c, n[c]);
    RowRewritten(s, n, c, s.db.configs[c].(status := Active, current := Some(task.target), error := None));
  }

  function WithVersion(db: Tables, c: ConfigId, target: Version, row: VersionRow): Tables
    requires c in db.configs
  {
    WithConfig(db.(versions := db.versions[(c, target) := row]), c,
               db.configs[c].(status := Active, current := Some(target), error := None))
  }

  lemma PhaseTwice(s: State, w: nat, p: Phase, q: Phase)
    ensures WithPhase(WithPhase(s, w, p), w, q) == WithPhase(s, w, q)
  {
    assert s.workers[w := p][w := q] == s.workers[w := q];
  }

  lemma InsertCommits(db: Tables, task: Task, row: VersionRow)
    requires task.config in db.configs && (task.config, task.target) !in db.versions
    ensures CommittedBy(db, Flushed(task, row)) == Ok(WithVersion(db, task.config, task.target, row))
  {
    var c := task.config;
    var marked := MarkProcessing(db, c).value;
    var inserted := InsertVersion(marked, c, task.target, row).value;
    var final := MarkActive(inserted, c, task.target).value;
    assert final.configs == db.configs[c := db.configs[c].(status := Active, current := Some(task.target), error := None)];
  }

  lemma InsertGrows(db: Tables, n: map<ConfigId, nat>, c: ConfigId, target: Version, row: VersionRow)
    requires n.Keys == db.configs.Keys && c in db.configs
    ensures Grows(db, n, WithVersion(db, c, target, row), n[c := n[c] + 1])
  {
  }

  /** The other open transactions concern other configs, so their numbers still fit. */
  lemma OthersUnaffected(s: State, n: map<ConfigId, nat>, w: nat, u: nat)
    requires Inv(s, n) && PhaseOf(s, w).Flushed? && u in s.workers && u != w
    ensures var phase := PhaseOf(s, w);
            var c := phase.task.config;
            c in s.db.configs &&
            PhaseOk(WithVersion(s.db, c, phase.task.target, phase.row), n[c := n[c] + 1], s.published, s.workers[u])
  {
    var phase := PhaseOf(s, w);
    assert PhaseOk(s.db, n, s.published, phase);
    assert PhaseOk(s.db, n, s.published, s.workers[u]);
    InsertGrows(s.db, n, phase.task.config, phase.task.target, phase.row);
  }

  lemma WorkersAfterAdd(s: State, n: map<ConfigId, nat>, w: nat, p: Phase)
    requires Inv(s, n) && PhaseOf(s, w).Flushed?
    requires p.Idle? || (p.Aborted? && p.task == PhaseOf(s, w).task)
    ensures var phase := PhaseOf(s, w);
            var c := phase.task.config;
            && c in s.db.configs
            && WorkersOk(WithVersion(s.db, c, phase.task.target, phase.row), n[c := n[c] + 1], s.published, s.workers[w := p])
  {
    var phase := PhaseOf(s, w);
    var c := phase.task.config;
    assert PhaseOk(s.db, n, s.published, phase);
    var db' := WithVersion(s.db, c, phase.task.target, phase.row);
    var workers' := s.workers[w := p];
    forall u | u in workers' ensures PhaseOk(db', n[c := n[c] + 1], s.published, workers'[u]) {
      if u != w {
        OthersUnaffected(s, n, w, u);
      }
    }
  }

  lemma AddKeeps(s: State, w: nat, p: Phase, n: map<ConfigId, nat>)
    requires Inv(s, n) && PhaseOf(s, w).Flushed?
    requires p.Idle? || (p.Aborted? && p.task == PhaseOf(s, w).task)
    ensures var phase := PhaseOf(s, w);
            var c := phase.task.config;
            && c in s.db.configs
            && CommittedBy(s.db, phase) == Ok(WithVersion(s.db, c, phase.task.target, phase.row))
            && Inv(WithPhase(s.(db := WithVersion(s.db, c, phase.task.target, phase.row)), w, p), n[c := n[c] + 1])
  {
    var phase := PhaseOf(s, w);
    FlushedIsNext(s, w, n);
    InsertCommits(s.db, phase.task, phase.row);
    RowsAfterAdd(s, w, n);
    WorkersAfterAdd(s, n, w, p);
  }

  lemma FlushedIsNext(s: State, w: nat, n: map<ConfigId, nat>)
    requires Inv(s, n) && PhaseOf(s, w).Flushed?
    ensures var task := PhaseOf(s, w).task;
            task.config in s.db.configs && task.target == n[task.config] + 1 && (task.config, task.target) !in s.db.versions
  {
    var task := PhaseOf(s, w).task;
    assert PhaseOk(s.db, n, s.published, PhaseOf(s, w));
    assert Contiguous(s.db, task.config, n[task.config]);
  }

  /** Everything but the workers. */
  lemma RowsAfterAdd(s: State, w: nat, n: map<ConfigId, nat>)
    requires Inv(s, n) && PhaseOf(s, w).Flushed?
    ensures var phase := PhaseOf(s, w);
            var c := phase.task.config;
            && c in s.db.configs
            && var db', n' := WithVersion(s.db, c, phase.task.target, phase.row), n[c := n[c] + 1];
               RowsOk(db', n') && PublishedOk(db', n', s.published) && RequestsOk(db', n', s.requests) && TokensOk(db')
  {
    var phase := PhaseOf(s, w);
    var c := phase.task.config;
    FlushedIsNext(s, w, n);
    InsertKeepsRows(s.db, n, c, phase.row);
    InsertGrows(s.db, n, c, phase.task.target, phase.row);
    GrowsKeeps(s, n, WithVersion(s.db, c, phase.task.target, phase.row), n[c := n[c] + 1]);
  }

  lemma InsertKeepsRows(db: Tables, n: map<ConfigId, nat>, c: ConfigId, row: VersionRow)
    requires RowsOk(db, n) && c in db.configs
    ensures (c, n[c] + 1) !in db.versions
    ensures RowsOk(WithVersion(db, c, n[c] + 1, row), n[c := n[c] + 1])
  {
    assert Contiguous(db, c, n[c]);
    var db' := WithVersion(db, c, n[c] + 1, row);
    var n' := n[c := n[c] + 1];
    forall d | d in n' ensures Contiguous(db', d, n'[d]) {
      assert Contiguous(db, d, n[d]);
    }
  }

  lemma RemarkCommits(world: World, s: State, w: nat, p: Phase, n: map<ConfigId, nat>)
    requires Inv(s, n) && PhaseOf(s, w).Found? && CommittedBy(s.db, PhaseOf(s, w)).Ok?
    requires p.Idle? || p == Aborted(PhaseOf(s, w).task, "connection lost")
    ensures Inv(WithPhase(s.(db := CommittedBy(s.db, PhaseOf(s, w)).value), w, p), n)
  {
    RemarkKeeps(s, w, n);
    assert PhaseOk(s.db, n, s.published, PhaseOf(s, w));
    PhaseMoves(s.(db := CommittedBy(s.db, PhaseOf(s, w)).value), n, w, p);
  }

  lemma CommitIs(world: World, s: State, w: nat, acknowledged: bool)
    requires PhaseOf(s, w).Found? || PhaseOf(s, w).Flushed?
    requires CommittedBy(s.db, PhaseOf(s, w)).Ok?
    ensures WorkerStep(world, s, Commit(w, acknowledged))
            == Some(WithPhase(s.(db := CommittedBy(s.db, PhaseOf(s, w)).value), w,
                              if acknowledged then Idle else Aborted(PhaseOf(s, w).task, "connection lost")))
  {
  }

  lemma FoundCommitKeeps(world: World, s: State, w: nat, acknowledged: bool, n: map<ConfigId, nat>)
    requires Inv(s, n) && PhaseOf(s, w).Found?
    ensures WorkerStep(world, s, Commit(w, acknowledged)).Some?
    ensures Inv(WorkerStep(world, s, Commit(w, acknowledged)).value, n)
  {
    RemarkKeeps(s, w, n);
    CommitIs(world, s, w, acknowledged);
    RemarkCommits(world, s, w, if acknowledged then Idle else Aborted(PhaseOf(s, w).task, "connection lost"), n);
  }

  lemma FlushedCommitKeeps(world: World, s: State, w: nat, acknowledged: bool, n: map<ConfigId, nat>)
    requires Inv(s, n) && PhaseOf(s, w).Flushed?
    ensures PhaseOf(s, w).task.config in n && WorkerStep(world, s, Commit(w, acknowledged)).Some?
    ensures Inv(WorkerStep(world, s, Commit(w, acknowledged)).value, n[PhaseOf(s, w).task.config := n[PhaseOf(s, w).task.config] + 1])
  {
    AddKeeps(s, w, if acknowledged then Idle else Aborted(PhaseOf(s, w).task, "connection lost"), n);
    CommitIs(world, s, w, acknowledged);
  }

  lemma CommitKeeps(world: World, s: State, w: nat, acknowledged: bool, n: map<ConfigId, nat>)
    requires Inv(s, n) && WorkerStep(world, s, Commit(w, acknowledged)).Some?
    ensures Inv(WorkerStep(world, s, Commit(w, acknowledged)).value, CountsAfter(s, Commit(w, acknowledged), n))
  {
    if PhaseOf(s, w).Found? {
      FoundCommitKeeps(world, s, w, acknowledged, n);
    } else {
      FlushedCommitKeeps(world, s, w, acknowledged, n);
    }
  }

  lemma FailureKeeps(world: World, s: State, w: nat, n: map<ConfigId, nat>)
    requires Inv(s, n) && WorkerStep(world, s, RecordFailure(w)).Some?
    ensures Inv(WorkerStep(world, s, RecordFailure(w)).value, n)
  {
    var p := PhaseOf(s, w);
    var c := p.task.config;
    assert PhaseOk(s.db, n, s.published, p);
    var failed := MarkFailed(s.db, c, p.message).value;
    RowRewritten(s, n, c, failed.configs[c]);
    PhaseMoves(s.(db := failed), n, w, Idle);
  }

  lemma WorkerKeeps(world: World, s: State, step: Step, n: map<ConfigId, nat>)
    requires Inv(s, n) && WorkerStep(world, s, step).Some?
    ensures Inv(WorkerStep(world, s, step).value, CountsAfter(s, step, n))
  {
    match step
    case Deliver(w, task) => PhaseMoves(s, n, w, Received(task));
    case ReadVersion(w) =>
      var task := PhaseOf(s, w).task;
      PhaseMoves(s, n, w, if (task.config, task.target) in s.db.versions then Found(task) else Building(task));
    case Build(w, row) => PhaseMoves(s, n, w, Built(PhaseOf(s, w).task, row));
    case Flush(w) => FlushKeeps(world, s, w, n);
    case Commit(w, acknowledged) => CommitKeeps(world, s, w, acknowledged, n);
    case Fail(w, message) => PhaseMoves(s, n, w, Aborted(PhaseOf(s, w).task, message));
    case RecordFailure(w) => FailureKeeps(world, s, w, n);
    case Crash(w) => PhaseMoves(s, n, w, Idle);
    case _ =>
  }

  lemma RegenerateCommitKeeps(s: State, r: nat, n: map<ConfigId, nat>)
    requires Inv(s, n) && RequestStep(s, RegenerateCommit(r)).Some?
    ensures Inv(RequestStep(s, RegenerateCommit(r)).value, n)
  {
    var task := s.requests[r].task;
    assert RequestOk(s.db, n, s.requests[r]);
    var row := s.db.configs[task.config].(status := Pending, error := None);
    RowRewritten(s, n, task.config, row);
    RequestMoves(s.(db := WithConfig(s.db, task.config, row)), n, r, ToPublish(task));
  }

  lemma RecordTaskKeeps(s: State, r: nat, n: map<ConfigId, nat>)
    requires Inv(s, n) && RequestStep(s, RecordTask(r)).Some?
    ensures Inv(RequestStep(s, RecordTask(r)).value, n)
  {
    var c := s.requests[r].config;
    assert RequestOk(s.db, n, s.requests[r]);
    var row := s.db.configs[c].(lastTask := Some(s.requests[r].taskId));
    RowRewritten(s, n, c, row);
    RequestEnds(s.(db := WithConfig(s.db, c, row)), n, r);
    RequestEnds(s, n, r);
  }

  lemma ContextKeeps(s: State, r: nat, n: map<ConfigId, nat>)
    requires Inv(s, n) && RequestStep(s, RegenerateContext(r)).Some?
    ensures Inv(RequestStep(s, RegenerateContext(r)).value, n)
  {
    var c := s.requests[r].config;
    if !IsLive(s.db, c) || s.db.configs[c].current.None? {
      RequestEnds(s, n, r);
    } else {
      assert RowOk(s.db.configs[c], n[c]);
      var spec := s.db.configs[c].spec;
      RequestMoves(s, n, r, Prepared(Task(c, spec.profile, spec.name, s.db.configs[c].current.value + 1)));
    }
  }

  lemma PublishKeeps(s: State, r: nat, taskId: nat, n: map<ConfigId, nat>)
    requires Inv(s, n) && RequestStep(s, Publish(r, taskId)).Some?
    ensures Inv(RequestStep(s, Publish(r, taskId)).value, n)
  {
    var task := s.requests[r].task;
    assert RequestOk(s.db, n, s.requests[r]);
    var more := s.published + {task};
    forall w | w in s.workers ensures PhaseOk(s.db, n, more, s.workers[w]) {
      assert PhaseOk(s.db, n, s.published, s.workers[w]);
    }
    RequestMoves(s.(published := more), n, r, Published(task.config, taskId));
  }

  lemma EditReadKeeps(s: State, r: nat, c: ConfigId, n: map<ConfigId, nat>)
    requires Inv(s, n) && RequestStep(s, EditRead(r, c)).Some?
    ensures Inv(RequestStep(s, EditRead(r, c)).value, n)
  {
    RequestMoves(s, n, r, Editing(c, s.db.configs[c].current.value));
  }

  lemma RequestKeeps(s: State, step: Step, n: map<ConfigId, nat>)
    requires Inv(s, n) && RequestStep(s, step).Some?
    ensures Inv(RequestStep(s, step).value, CountsAfter(s, step, n))
  {
    match step
    case CreateConfig(r, c, spec) => CreateKeeps(s, r, c, spec, n);
    case RegenerateGuard(r, c) => RequestMoves(s, n, r, Guarded(c));
    case RegenerateContext(r) => ContextKeeps(s, r, n);
    case RegenerateCommit(r) => RegenerateCommitKeeps(s, r, n);
    case Publish(r, taskId) => PublishKeeps(s, r, taskId, n);
    case RecordTask(r) => RecordTaskKeeps(s, r, n);
    case EditRead(r, c) => EditReadKeeps(s, r, c, n);
    case EditCommit(r, data, port) => EditKeeps(s, r, data, port, n);
    case DropRequest(r) => RequestEnds(s, n, r);
    case _ =>
  }

  lemma NewConfigRows(db: Tables, n: map<ConfigId, nat>, c: ConfigId, row: ConfigRow)
    requires RowsOk(db, n) && c !in db.configs && RowOk(row, 0)
    ensures RowsOk(WithConfig(db, c, row), n[c := 0])
    ensures Grows(db, n, WithConfig(db, c, row), n[c := 0])
  {
    var db', n' := WithConfig(db, c, row), n[c := 0];
    forall d | d in n' ensures Contiguous(db', d, n'[d]) {
      if d != c {
        assert Contiguous(db, d, n[d]);
      }
    }
  }

  lemma NewConfigKeeps(s: State, n: map<ConfigId, nat>, c: ConfigId, row: ConfigRow)
    requires Inv(s, n) && c !in s.db.configs && RowOk(row, 0)
    ensures Inv(s.(db := WithConfig(s.db, c, row)), n[c := 0])
  {
    NewConfigRows(s.db, n, c, row);
    GrowsKeeps(s, n, WithConfig(s.db, c, row), n[c := 0]);
    forall w | w in s.workers ensures PhaseOk(WithConfig(s.db, c, row), n[c := 0], s.published, s.workers[w]) {
      assert PhaseOk(s.db, n, s.published, s.workers[w]);
    }
  }

  lemma CreateKeeps(s: State, r: nat, c: ConfigId, spec: Spec, n: map<ConfigId, nat>)
    requires Inv(s, n) && RequestStep(s, CreateConfig(r, c, spec)).Some?
    ensures Inv(RequestStep(s, CreateConfig(r, c, spec)).value, n[c := 0])
  {
    var row := ConfigRow(spec, Pending, None, None, true, None);
    NewConfigKeeps(s, n, c, row);
    RequestMoves(s.(db := WithConfig(s.db, c, row)), n[c := 0], r, ToPublish(Task(c, spec.profile, spec.name, 1)));
  }

  lemma EditKeeps(s: State, r: nat, data: Json, port: int, n: map<ConfigId, nat>)
    requires Inv(s, n) && RequestStep(s, EditCommit(r, data, port)).Some?
    ensures Inv(RequestStep(s, EditCommit(r, data, port)).value, n)
  {
    var q := s.requests[r];
    var updated := UpdateVersionConfigData(s.db, q.config, q.version, data, port);
    if updated.Ok? {
      var db' := updated.value;
      assert forall key :: key in db'.versions <==> key in s.db.versions;
      forall d | d in n ensures Contiguous(db', d, n[d]) { assert Contiguous(s.db, d, n[d]); }
      assert RowsOk(db', n);
      GrowsKeeps(s, n, db', n);
      RequestEnds(s.(db := db'), n, r);
    } else {
      RequestEnds(s, n, r);
    }
  }

  lemma ShareReadKeeps(s: State, step: Step, n: map<ConfigId, nat>)
    requires Inv(s, n) && step.ShareRead? && AdminStep(s, step).Some?
    ensures Inv(AdminStep(s, step).value, n)
  {
    var expiry := ResolveShareExpiration(step.isPermanent, step.expiresAt, step.ttlSeconds, s.now).value;
    if step.pin.Some? {
      var c := step.pin.value;
      assert Contiguous(s.db, c, n[c]) && RowOk(s.db.configs[c], n[c]);
      RequestMoves(s, n, step.r, Sharing(Some((c, s.db.configs[c].current.value)), step.secure, expiry));
    } else {
      RequestMoves(s, n, step.r, Sharing(None, step.secure, expiry));
    }
  }

  lemma ShareCommitKeeps(s: State, r: nat, hash: string, n: map<ConfigId, nat>)
    requires Inv(s, n) && AdminStep(s, ShareCommit(r, hash)).Some?
    ensures Inv(AdminStep(s, ShareCommit(r, hash)).value, n)
  {
    assert RequestOk(s.db, n, s.requests[r]);
    var s' := AdminStep(s, ShareCommit(r, hash)).value;
    TokenKeeps(s, hash, s'.db.tokens[hash], n);
    RequestEnds(s.(db := s'.db), n, r);
  }

  lemma TokenWriteKeeps(s: State, step: Step, n: map<ConfigId, nat>)
    requires Inv(s, n) && (step.Revoke? || step.RecordAccess?) && AdminStep(s, step).Some?
    ensures Inv(AdminStep(s, step).value, n)
  {
    assert TokenOk(s.db, s.db.tokens[step.hash]);
    TokenKeeps(s, step.hash, AdminStep(s, step).value.db.tokens[step.hash], n);
  }

  lemma AdminKeeps(s: State, step: Step, n: map<ConfigId, nat>)
    requires Inv(s, n) && AdminStep(s, step).Some?
    ensures Inv(AdminStep(s, step).value, CountsAfter(s, step, n))
  {
    match step
    case DeleteConfig(c) => RowRewritten(s, n, c, s.db.configs[c].(isActive := false));
    case ChangePolicy(c, policy) => RowRewritten(s, n, c, s.db.configs[c].(spec := s.db.configs[c].spec.(policy := Some(policy))));
    case ShareRead(_, _, _, _, _, _) => ShareReadKeeps(s, step, n);
    case ShareCommit(r, hash) => ShareCommitKeeps(s, r, hash, n);
    case Revoke(_) => TokenWriteKeeps(s, step, n);
    case RecordAccess(_) => TokenWriteKeeps(s, step, n);
    case Tick(later) =>
    case _ =>
  }

  lemma TokenKeeps(s: State, hash: string, t: Token, n: map<ConfigId, nat>)
    requires Inv(s, n) && TokenOk(s.db, t)
    ensures Inv(s.(db := s.db.(tokens := s.db.tokens[hash := t])), n)
  {
    var db' := s.db.(tokens := s.db.tokens[hash := t]);
    forall d | d in n ensures Contiguous(db', d, n[d]) { assert Contiguous(s.db, d, n[d]); }
    assert RowsOk(db', n);
    GrowsKeeps(s, n, db', n);
  }

  /** Every step from a state that satisfies the invariant leads to one that does. */
  lemma NextKeeps(world: World, s: State, step: Step, n: map<ConfigId, nat>)
    requires Inv(s, n) && Next(world, s, step).Some?
    ensures Inv(Next(world, s, step).value, CountsAfter(s, step, n))
  {
    if IsWorkerStep(step) {
      WorkerKeeps(world, s, step, n);
    } else if IsRequestStep(step) {
      RequestKeeps(s, step, n);
    } else {
      AdminKeeps(s, step, n);
    }
  }
}
