/** API requests that nobody interrupts, as runs of the step system. */
module RequestRuns {
  import opened Wrappers
  import opened Store
  import opened Lifecycle
  import opened StepRuns
  import RegenerateAll

  lemma RequestTwice(s: State, r: nat, q: Request, p: Request)
    ensures WithRequest(WithRequest(s, r, q), r, p) == WithRequest(s, r, p)
  {
    assert s.requests[r := q][r := p] == s.requests[r := p];
  }

  lemma RequestGone(s: State, r: nat, q: Request)
    requires r !in s.requests
    ensures Without(WithRequest(s, r, q), r) == s
  {
    assert s.requests[r := q] - {r} == s.requests;
  }

  /** The second half: publish the task and record it. */
  lemma PublishedSteps(world: World, s: State, r: nat, task: Task, taskId: nat)
    requires r !in s.requests && IsLive(s.db, task.config)
    ensures Taking(world, WithRequest(s, r, ToPublish(task)), [Publish(r, taskId)] + ([RecordTask(r)] + []))
            == Some(s.(db := WithConfig(s.db, task.config, s.db.configs[task.config].(lastTask := Some(taskId))),
                       published := s.published + {task}))
  {
    var published := s.(published := s.published + {task});
    RequestTwice(published, r, ToPublish(task), Published(task.config, taskId));
    TakeOne(world, WithRequest(s, r, ToPublish(task)), Publish(r, taskId), [RecordTask(r)] + []);
    TakeOne(world, WithRequest(published, r, Published(task.config, taskId)), RecordTask(r), []);
    RequestGone(published.(db := WithConfig(s.db, task.config, s.db.configs[task.config].(lastTask := Some(taskId)))), r,
                Published(task.config, taskId));
  }

  lemma GuardStep(world: World, s: State, r: nat, c: ConfigId, rest: seq<Step>)
    requires r !in s.requests && RegenerateAll.Regenerable(s.db, c)
    ensures Taking(world, s, [RegenerateGuard(r, c)] + rest) == Taking(world, WithRequest(s, r, Guarded(c)), rest)
  {
    TakeOne(world, s, RegenerateGuard(r, c), rest);
  }

  lemma ContextStep(world: World, s: State, r: nat, c: ConfigId, task: Task, rest: seq<Step>)
    requires r !in s.requests && RegenerateAll.Regenerable(s.db, c)
    requires task == Task(c, s.db.configs[c].spec.profile, s.db.configs[c].spec.name, s.db.configs[c].current.value + 1)
    ensures Taking(world, WithRequest(s, r, Guarded(c)), [RegenerateContext(r)] + rest) == Taking(world, WithRequest(s, r, Prepared(task)), rest)
  {
    RequestTwice(s, r, Guarded(c), Prepared(task));
    TakeOne(world, WithRequest(s, r, Guarded(c)), RegenerateContext(r), rest);
  }

  lemma CommitStep(world: World, s: State, r: nat, task: Task, rest: seq<Step>)
    requires r !in s.requests && RegenerateAll.Regenerable(s.db, task.config)
    ensures Taking(world, WithRequest(s, r, Prepared(task)), [RegenerateCommit(r)] + rest)
            == Taking(world, WithRequest(s.(db := PrepareRegenerate(s.db, task.config).value), r, ToPublish(task)), rest)
  {
    RequestTwice(s.(db := PrepareRegenerate(s.db, task.config).value), r, Prepared(task), ToPublish(task));
    TakeOne(world, WithRequest(s, r, Prepared(task)), RegenerateCommit(r), rest);
  }

  /** A regenerate request that nobody interrupts is five steps of the system: guard, context, commit,
      publish, record. */
  lemma RegenerateIsSteps(world: World, s: State, r: nat, c: ConfigId, taskId: nat)
    requires r !in s.requests && RegenerateAll.Regenerable(s.db, c)
    ensures var after := RegenerateAll.RegenerateConfig(s.db, c, taskId).value;
            Leads(world, s, [RegenerateGuard(r, c)] + ([RegenerateContext(r)] + ([RegenerateCommit(r)] + ([Publish(r, taskId)] + ([RecordTask(r)] + [])))),
                  s.(db := after.0, published := s.published + {after.1}))
  {
    var task := RegenerateAll.RegenerateConfig(s.db, c, taskId).value.1;
    var last := [Publish(r, taskId)] + ([RecordTask(r)] + []);
    GuardStep(world, s, r, c, [RegenerateContext(r)] + ([RegenerateCommit(r)] + last));
    ContextStep(world, s, r, c, task, [RegenerateCommit(r)] + last);
    CommitStep(world, s, r, task, last);
    PublishedSteps(world, s.(db := PrepareRegenerate(s.db, c).value), r, task, taskId);
  }

  /** A create request that nobody interrupts: commit the pending row, publish version 1, record. */
  lemma CreateIsSteps(world: World, s: State, r: nat, c: ConfigId, spec: Spec, taskId: nat)
    requires r !in s.requests && c !in s.db.configs
    ensures Leads(world, s, [CreateConfig(r, c, spec)] + ([Publish(r, taskId)] + ([RecordTask(r)] + [])),
                  s.(db := WithConfig(s.db, c, ConfigRow(spec, Pending, None, None, true, Some(taskId))),
                     published := s.published + {Task(c, spec.profile, spec.name, 1)}))
  {
    var created := s.(db := WithConfig(s.db, c, ConfigRow(spec, Pending, None, None, true, None)));
    TakeOne(world, s, CreateConfig(r, c, spec), [Publish(r, taskId)] + ([RecordTask(r)] + []));
    PublishedSteps(world, created, r, Task(c, spec.profile, spec.name, 1), taskId);
    assert WithConfig(created.db, c, created.db.configs[c].(lastTask := Some(taskId)))
           == WithConfig(s.db, c, ConfigRow(spec, Pending, None, None, true, Some(taskId)));
  }
}
