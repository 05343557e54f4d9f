/** What versions and share links inherit over whole runs: every version is built from the one
    before it, and a link that stopped working never works again. */
module LifecycleLinks {
  import opened Wrappers
  import opened Store
  import opened ShareExpiry
  import opened Lifecycle
  import opened LifecycleSafety
  import opened LifecycleTheorems

  // ---- Version chains ----

  /** A condition on the policies that a config has had. */
  type Policies = Option<Policy> -> bool

  ghost predicate BuiltUnder(world: World, db: Tables, c: ConfigId, v: Version, row: VersionRow, policy: Option<Policy>)
    requires c in db.configs
  {
    world.builds(db.configs[c].spec.(policy := policy), Predecessor(db, c, v), row)
  }

  ghost predicate BuiltFromPredecessor(world: World, db: Tables, c: ConfigId, v: Version, row: VersionRow, ok: Policies)
    requires c in db.configs
  {
    exists policy :: ok(policy) && BuiltUnder(world, db, c, v, row, policy)
  }

  /** Each stored version, and each row a worker still holds, was built from its predecessor under a policy
      that the config had. */
  ghost predicate Chain(world: World, s: State, c: ConfigId, ok: Policies)
  {
    c in s.db.configs ==>
      && (forall v :: (c, v) in s.db.versions ==> BuiltFromPredecessor(world, s.db, c, v, s.db.versions[(c, v)], ok))
      && (forall w :: HoldsBuild(s, w, c) ==> BuiltFromPredecessor(world, s.db, c, s.workers[w].task.target, s.workers[w].row, ok))
  }

  predicate HoldsBuild(s: State, w: nat, c: ConfigId)
  {
    w in s.workers && (s.workers[w].Built? || s.workers[w].Flushed?) && s.workers[w].task.config == c
  }

  predicate EditsConfig(s: State, step: Step, c: ConfigId)
  {
    step.EditCommit? && step.r in s.requests && s.requests[step.r].Editing? && s.requests[step.r].config == c
  }

  predicate PolicyIs(s: State, c: ConfigId, ok: Policies)
  {
    c in s.db.configs ==> ok(s.db.configs[c].spec.policy)
  }

  lemma PredecessorKept(db: Tables, db': Tables, n: map<ConfigId, nat>, c: ConfigId, v: Version)
    requires RowsOk(db, n) && c in n && v <= n[c] + 1
    requires forall u :: (c, u) in db.versions ==> (c, u) in db'.versions && db'.versions[(c, u)] == db.versions[(c, u)]
    ensures Predecessor(db', c, v) == Predecessor(db, c, v)
  {
    assert Contiguous(db, c, n[c]);
  }

  lemma LinkKept(world: World, db: Tables, db': Tables, n: map<ConfigId, nat>, c: ConfigId, v: Version, row: VersionRow, ok: Policies)
    requires RowsOk(db, n) && c in db.configs && v <= n[c] + 1 && SpecKept(db, db', true, c)
    requires forall u :: (c, u) in db.versions ==> (c, u) in db'.versions && db'.versions[(c, u)] == db.versions[(c, u)]
    requires BuiltFromPredecessor(world, db, c, v, row, ok)
    ensures BuiltFromPredecessor(world, db', c, v, row, ok)
  {
    PredecessorKept(db, db', n, c, v);
    var policy :| ok(policy) && BuiltUnder(world, db, c, v, row, policy);
    assert db'.configs[c].spec.(policy := policy) == db.configs[c].spec.(policy := policy);
    assert BuiltUnder(world, db', c, v, row, policy);
  }

  /** A step that does not edit the config keeps what was built for it. */
  lemma OldLinksKept(world: World, s: State, s': State, n: map<ConfigId, nat>, c: ConfigId, ok: Policies)
    requires Inv(s, n) && Chain(world, s, c, ok) && c in s.db.configs && SpecKept(s.db, s'.db, true, c)
    requires forall u :: (c, u) in s.db.versions ==> (c, u) in s'.db.versions && s'.db.versions[(c, u)] == s.db.versions[(c, u)]
    ensures forall v :: (c, v) in s.db.versions ==> BuiltFromPredecessor(world, s'.db, c, v, s'.db.versions[(c, v)], ok)
    ensures forall w :: HoldsBuild(s, w, c) ==> BuiltFromPredecessor(world, s'.db, c, s.workers[w].task.target, s.workers[w].row, ok)
  {
    assert Contiguous(s.db, c, n[c]);
    forall v | (c, v) in s.db.versions ensures BuiltFromPredecessor(world, s'.db, c, v, s'.db.versions[(c, v)], ok) {
      LinkKept(world, s.db, s'.db, n, c, v, s.db.versions[(c, v)], ok);
    }
    forall w | HoldsBuild(s, w, c) ensures BuiltFromPredecessor(world, s'.db, c, s.workers[w].task.target, s.workers[w].row, ok) {
      assert PhaseOk(s.db, n, s.published, s.workers[w]);
      LinkKept(world, s.db, s'.db, n, c, s.workers[w].task.target, s.workers[w].row, ok);
    }
  }

  /** A build held after a step was held before it or was just made from the committed predecessor. */
  ghost predicate HeldOrBuilt(world: World, s: State, s': State, c: ConfigId, w: nat)
    requires w in s'.workers && c in s.db.configs
  {
    var p := s'.workers[w];
    (p.Built? || p.Flushed?) && p.task.config == c ==>
      || (HoldsBuild(s, w, c) && s.workers[w].task == p.task && s.workers[w].row == p.row)
      || (s'.db == s.db && BuiltUnder(world, s.db, c, p.task.target, p.row, s.db.configs[c].spec.policy))
  }

  lemma WorkerHolds(world: World, s: State, step: Step, s': State, c: ConfigId, w: nat)
    requires WorkerStep(world, s, step) == Some(s') && c in s.db.configs && w in s'.workers
    ensures HeldOrBuilt(world, s, s', c, w)
  {
    assert s.db.configs[c].spec.(policy := s.db.configs[c].spec.policy) == s.db.configs[c].spec;
  }

  lemma OthersHold(world: World, s: State, step: Step, s': State, c: ConfigId, w: nat)
    requires RequestStep(s, step) == Some(s') || AdminStep(s, step) == Some(s')
    requires w in s'.workers && c in s.db.configs
    ensures HeldOrBuilt(world, s, s', c, w)
  {
    assert s'.workers == s.workers;
  }

  lemma HeldRows(world: World, s: State, step: Step, c: ConfigId, w: nat)
    requires Next(world, s, step).Some? && c in s.db.configs
    requires w in Next(world, s, step).value.workers
    ensures HeldOrBuilt(world, s, Next(world, s, step).value, c, w)
  {
    if IsWorkerStep(step) {
      WorkerHolds(world, s, step, Next(world, s, step).value, c, w);
    } else {
      OthersHold(world, s, step, Next(world, s, step).value, c, w);
    }
  }

  lemma CommittedRows(world: World, s: State, step: Step, n: map<ConfigId, nat>, c: ConfigId, v: Version)
    requires Inv(s, n) && Next(world, s, step).Some? && c in s.db.configs
    requires (c, v) in Next(world, s, step).value.db.versions && (c, v) !in s.db.versions
    ensures step.Commit? && PhaseOf(s, step.w).Flushed?
    ensures PhaseOf(s, step.w).task.config == c && PhaseOf(s, step.w).task.target == v
    ensures Next(world, s, step).value.db.versions[(c, v)] == PhaseOf(s, step.w).row
  {
    if step.Commit? {
      if PhaseOf(s, step.w).Flushed? {
        AddKeeps(s, step.w, Idle, n);
      }
    } else if IsWorkerStep(step) {
      WorkerIsAtomic(world, s, step, n);
    } else {
      OthersAreApi(s, step, Next(world, s, step).value);
    }
  }

  lemma ChainStep(world: World, s: State, step: Step, n: map<ConfigId, nat>, c: ConfigId, ok: Policies)
    requires Inv(s, n) && Chain(world, s, c, ok) && Next(world, s, step).Some? && !EditsConfig(s, step, c) && PolicyIs(s, c, ok)
    ensures Chain(world, Next(world, s, step).value, c, ok)
  {
    var s' := Next(world, s, step).value;
    if c in s.db.configs {
      KnownConfigChain(world, s, step, s', n, c, ok);
    } else {
      NewConfigChain(world, s, step, n, c, ok);
    }
  }

  lemma KnownConfigChain(world: World, s: State, step: Step, s': State, n: map<ConfigId, nat>, c: ConfigId, ok: Policies)
    requires Inv(s, n) && Chain(world, s, c, ok) && Next(world, s, step) == Some(s') && !EditsConfig(s, step, c) && PolicyIs(s, c, ok)
    requires c in s.db.configs
    ensures Chain(world, s', c, ok)
  {
    forall v ensures (c, v) in s.db.versions ==> RowKept(s.db, s'.db, false, c, v) {
      Frame(world, s, step, n, c, v);
    }
    Frame(world, s, step, n, c, 1);
    OldLinksKept(world, s, s', n, c, ok);
    forall v | (c, v) in s'.db.versions ensures BuiltFromPredecessor(world, s'.db, c, v, s'.db.versions[(c, v)], ok) {
      if (c, v) !in s.db.versions {
        CommittedRows(world, s, step, n, c, v);
        assert HoldsBuild(s, step.w, c);
      }
    }
    forall w | HoldsBuild(s', w, c) ensures BuiltFromPredecessor(world, s'.db, c, s'.workers[w].task.target, s'.workers[w].row, ok) {
      HeldRows(world, s, step, c, w);
    }
  }

  lemma NewConfigChain(world: World, s: State, step: Step, n: map<ConfigId, nat>, c: ConfigId, ok: Policies)
    requires Inv(s, n) && Next(world, s, step).Some? && c !in s.db.configs
    ensures Chain(world, Next(world, s, step).value, c, ok)
  {
    var s' := Next(world, s, step).value;
    if c in s'.db.configs {
      Appears(world, s, step, n, c);
      forall w | w in s.workers && !s.workers[w].Idle? ensures s.workers[w].task.config != c {
        assert PhaseOk(s.db, n, s.published, s.workers[w]);
      }
      forall v ensures (c, v) !in s'.db.versions {
      }
    }
  }

  ghost predicate NeverEdited(states: seq<State>, steps: seq<Step>, i: nat, c: ConfigId)
    requires |states| == |steps| + 1 && i <= |steps|
  {
    forall k :: 0 <= k < i ==> !EditsConfig(states[k], steps[k], c)
  }

  /** Every policy that the config has had, from its creation on. */
  ghost predicate PoliciesWere(states: seq<State>, i: nat, c: ConfigId, ok: Policies)
    requires i < |states|
  {
    forall k :: 0 <= k <= i ==> PolicyIs(states[k], c, ok)
  }

  /** In every run that does not edit a config, each of its versions was built, under the config's own
      settings and one of the policies it has had, from the stored version just before it, although builds
      overlap, repeat and fail and the policy may change in between. */
  lemma {:induction false} VersionsFormAChain(world: World, states: seq<State>, steps: seq<Step>, i: nat, c: ConfigId, ok: Policies)
    requires IsRun(world, states, steps) && i <= |steps|
    requires NeverEdited(states, steps, i, c) && PoliciesWere(states, i, c, ok)
    ensures Chain(world, states[i], c, ok)
  {
    if i > 0 {
      VersionsFormAChain(world, states, steps, i - 1, c, ok);
      RunInvariant(world, states, steps, i - 1);
      assert StepAt(world, states, steps, i - 1);
      ChainStep(world, states[i - 1], steps[i - 1], CountsAt(states, steps, i - 1), c, ok);
    }
  }

  // ---- Share links ----

  /** What later steps can do to a link: record accesses, and revoke it for good. */
  ghost predicate TokenAges(a: Token, b: Token)
  {
    && b == a.(revokedAt := b.revokedAt, lastAccess := b.lastAccess, accessCount := b.accessCount)
    && (a.revokedAt.Some? ==> b.revokedAt == a.revokedAt)
    && a.accessCount <= b.accessCount
  }

  lemma RequestsKeepTokens(s: State, step: Step)
    requires RequestStep(s, step).Some?
    ensures RequestStep(s, step).value.db.tokens == s.db.tokens && RequestStep(s, step).value.now == s.now
  {
  }

  lemma TaskKeepsTokens(world: World, s: State, step: Step, n: map<ConfigId, nat>)
    requires Inv(s, n) && WorkerStep(world, s, step).Some?
    ensures WorkerStep(world, s, step).value.db.tokens == s.db.tokens && WorkerStep(world, s, step).value.now == s.now
  {
    WorkerIsAtomic(world, s, step, n);
  }

  lemma AdminAgesTokens(s: State, step: Step, hash: string)
    requires AdminStep(s, step).Some? && hash in s.db.tokens
    ensures var s' := AdminStep(s, step).value;
            s.now <= s'.now && hash in s'.db.tokens && TokenAges(s.db.tokens[hash], s'.db.tokens[hash])
  {
  }

  lemma TokenStep(world: World, s: State, step: Step, n: map<ConfigId, nat>, hash: string)
    requires Inv(s, n) && Next(world, s, step).Some? && hash in s.db.tokens
    ensures var s' := Next(world, s, step).value;
            s.now <= s'.now && hash in s'.db.tokens && TokenAges(s.db.tokens[hash], s'.db.tokens[hash])
  {
    if IsWorkerStep(step) {
      TaskKeepsTokens(world, s, step, n);
    } else if IsRequestStep(step) {
      RequestsKeepTokens(s, step);
    } else {
      AdminAgesTokens(s, step, hash);
    }
  }

  lemma TokenStepTo(world: World, s: State, step: Step, s': State, n: map<ConfigId, nat>, was: Token, hash: string)
    requires Inv(s, n) && Next(world, s, step) == Some(s') && hash in s.db.tokens && TokenAges(was, s.db.tokens[hash])
    ensures s.now <= s'.now && hash in s'.db.tokens && TokenAges(was, s'.db.tokens[hash])
  {
    TokenStep(world, s, step, n, hash);
  }

  lemma {:induction false} TokenRun(world: World, states: seq<State>, steps: seq<Step>, i: nat, j: nat, hash: string)
    requires IsRun(world, states, steps) && i <= j <= |steps| && hash in states[i].db.tokens
    ensures states[i].now <= states[j].now
    ensures hash in states[j].db.tokens && TokenAges(states[i].db.tokens[hash], states[j].db.tokens[hash])
    decreases j - i
  {
    if i < j {
      TokenRun(world, states, steps, i, j - 1, hash);
      RunInvariant(world, states, steps, j - 1);
      assert StepAt(world, states, steps, j - 1);
      TokenStepTo(world, states[j - 1], steps[j - 1], states[j], CountsAt(states, steps, j - 1), states[i].db.tokens[hash], hash);
    }
  }

  /** In every reachable state the admin list shows a link at an instant exactly when resolving
      accepts it then, and every listed pinned link finds its version row. */
  lemma ListedLinksResolve(world: World, states: seq<State>, steps: seq<Step>, i: nat, hash: string, now: int)
    requires IsRun(world, states, steps) && i <= |steps| && hash in states[i].db.tokens
    ensures var db := states[i].db;
            var t := db.tokens[hash];
            && (Listed(t, now) <==> Accepted(t, now))
            && (t.config.Some? ==> t.version.Some? && GetSnapshot(db, t.config.value, t.version.value).Some?)
  {
    RunInvariant(world, states, steps, i);
    var n := CountsAt(states, steps, i);
    assert TokenOk(states[i].db, states[i].db.tokens[hash]);
    ListedIffAccepted(states[i].db.tokens[hash]);
  }

  /** A link that was not listed is never listed later: revocation and expiry are final. */
  lemma DroppedLinksStayDropped(world: World, states: seq<State>, steps: seq<Step>, i: nat, j: nat, hash: string)
    requires IsRun(world, states, steps) && i <= j <= |steps| && hash in states[i].db.tokens
    requires !Listed(states[i].db.tokens[hash], states[i].now)
    ensures hash in states[j].db.tokens && !Listed(states[j].db.tokens[hash], states[j].now)
  {
    TokenRun(world, states, steps, i, j, hash);
  }
}
