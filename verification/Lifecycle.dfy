/** The panel as a step system: API requests, the task broker and any number of workers over
    one database (panel/application, panel/worker/services/config_task.py,
    repositories/vpn_config.py, repositories/share_token.py).

    A request or a task run is several steps, so every read may be stale when the write
    commits. The broker keeps every published task and may deliver it at any time, again,
    and to several workers at once; a request or a worker may stop between any two steps. */
module Lifecycle {
  import opened Wrappers
  import opened JsonTree
  import opened Store
  import opened ShareExpiry

  datatype Task = Task(config: ConfigId, profile: Profile, name: string, target: Version)

  /** Where an API request stands; a crash or an error drops it. */
  datatype Request =
    | Guarded(config: ConfigId)
    | Prepared(task: Task)
    | ToPublish(task: Task)
    | Published(config: ConfigId, taskId: nat)
    | Editing(config: ConfigId, version: Version)
    | Sharing(pin: Option<(ConfigId, Version)>, secure: bool, expiry: Expiration)

  /** Where a task run stands. `Found` and `Flushed` hold an open transaction, `Aborted` has
      rolled it back and still has to record the failure. */
  datatype Phase =
    | Idle
    | Received(task: Task)
    | Found(task: Task)
    | Building(task: Task)
    | Built(task: Task, row: VersionRow)
    | Flushed(task: Task, row: VersionRow)
    | Aborted(task: Task, message: string)

  datatype State = State(
    db: Tables,
    now: int,
    published: set<Task>,
    requests: map<nat, Request>,
    workers: map<nat, Phase>)

  /** Which version rows a build can produce from a config and its predecessor version. */
  datatype World = World(ghost builds: (Spec, Option<VersionRow>, VersionRow) -> bool)

  datatype Step =
    // API
    | CreateConfig(r: nat, c: ConfigId, spec: Spec)
    | RegenerateGuard(r: nat, c: ConfigId)
    | RegenerateContext(r: nat)
    | RegenerateCommit(r: nat)
    | Publish(r: nat, taskId: nat)
    | RecordTask(r: nat)
    | EditRead(r: nat, c: ConfigId)
    | EditCommit(r: nat, data: Json, port: int)
    | DeleteConfig(c: ConfigId)
    | ChangePolicy(c: ConfigId, policy: Policy)
    | ShareRead(r: nat, pin: Option<ConfigId>, secure: bool, isPermanent: bool, expiresAt: Option<int>, ttlSeconds: Option<int>)
    | ShareCommit(r: nat, hash: string)
    | Revoke(hash: string)
    | RecordAccess(hash: string)
    | DropRequest(r: nat)
    | Tick(later: int)
    // Worker
    | Deliver(w: nat, task: Task)
    | ReadVersion(w: nat)
    | Build(w: nat, row: VersionRow)
    | Flush(w: nat)
    | Commit(w: nat, acknowledged: bool)
    | Fail(w: nat, message: string)
    | RecordFailure(w: nat)
    | Crash(w: nat)

  ghost predicate Initial(s: State)
  {
    s.db == EmptyTables && s.published == {} && s.requests == map[] && s.workers == map[]
  }

  function PhaseOf(s: State, w: nat): Phase
  {
    if w in s.workers then s.workers[w] else Idle
  }

  function Predecessor(db: Tables, c: ConfigId, target: Version): Option<VersionRow>
  {
    if target > 1 && (c, target - 1) in db.versions then Some(db.versions[(c, target - 1)]) else None
  }

  /** Another open transaction holds the key, so the insert has to wait. */
  ghost predicate KeyHeld(s: State, w: nat, task: Task)
  {
    exists u :: u in s.workers && u != w && s.workers[u].Flushed?
                && s.workers[u].task.config == task.config && s.workers[u].task.target == task.target
  }

  function WithPhase(s: State, w: nat, p: Phase): State
  {
    s.(workers := s.workers[w := p])
  }

  function WithRequest(s: State, r: nat, q: Request): State
  {
    s.(requests := s.requests[r := q])
  }

  function Without(s: State, r: nat): State
  {
    s.(requests := s.requests - {r})
  }

  // ---- Task runs (config_task.py) ----

  /** What the commit of an open transaction makes of the committed rows. */
  function CommittedBy(db: Tables, p: Phase): Result<Tables>
    requires p.Found? || p.Flushed?
  {
    match p
    case Found(task) => MarkActive(db, task.config, task.target)
    case Flushed(task, row) =>
      var marked :- MarkProcessing(db, task.config);
      var inserted :- InsertVersion(marked, task.config, task.target, row);
      MarkActive(inserted, task.config, task.target)
  }

  ghost function WorkerStep(world: World, s: State, step: Step): Option<State>
  {
    match step
    case Deliver(w, task) =>
      if PhaseOf(s, w).Idle? && task in s.published then Some(WithPhase(s, w, Received(task))) else None
    case ReadVersion(w) =>
      var p := PhaseOf(s, w);
      if !p.Received? then None
      else if (p.task.config, p.task.target) in s.db.versions then Some(WithPhase(s, w, Found(p.task)))
      else if p.task.config !in s.db.configs then Some(WithPhase(s, w, Aborted(p.task, "Config not found")))
      else Some(WithPhase(s, w, Building(p.task)))
    case Build(w, row) =>
      var p := PhaseOf(s, w);
      if p.Building? && p.task.config in s.db.configs
         && world.builds(s.db.configs[p.task.config].spec, Predecessor(s.db, p.task.config, p.task.target), row)
      then Some(WithPhase(s, w, Built(p.task, row))) else None
    case Flush(w) =>
      var p := PhaseOf(s, w);
      if !p.Built? || KeyHeld(s, w, p.task) then None
      else if (p.task.config, p.task.target) in s.db.versions then
        Some(WithPhase(s, w, Aborted(p.task, "duplicate key")))
      else Some(WithPhase(s, w, Flushed(p.task, p.row)))
    case Commit(w, acknowledged) =>
      var p := PhaseOf(s, w);
      if !(p.Found? || p.Flushed?) then None
      else
        (match CommittedBy(s.db, p)
         case Raised => Some(WithPhase(s, w, Aborted(p.task, "Config not found")))
         case Ok(db) =>
           Some(WithPhase(s.(db := db), w, if acknowledged then Idle else Aborted(p.task, "connection lost"))))
    case Fail(w, message) =>
      var p := PhaseOf(s, w);
      if p.Idle? || p.Aborted? then None else Some(WithPhase(s, w, Aborted(p.task, message)))
    case RecordFailure(w) =>
      var p := PhaseOf(s, w);
      if !p.Aborted? then None
      else
        (match MarkFailed(s.db, p.task.config, p.message)
         case Raised => Some(WithPhase(s, w, Idle))
         case Ok(db) => Some(WithPhase(s.(db := db), w, Idle)))
    case Crash(w) => Some(WithPhase(s, w, Idle))
    case _ => None
  }

  // ---- API requests ----

  ghost function RequestStep(s: State, step: Step): Option<State>
  {
    match step
    case CreateConfig(r, c, spec) =>
      if c in s.db.configs || r in s.requests then None
      else
        var row := ConfigRow(spec, Pending, None, None, true, None);
        Some(WithRequest(s.(db := WithConfig(s.db, c, row)), r, ToPublish(Task(c, spec.profile, spec.name, 1))))
    case RegenerateGuard(r, c) =>
      if r in s.requests || PrepareRegenerate(s.db, c).Raised? then None
      else Some(WithRequest(s, r, Guarded(c)))
    case RegenerateContext(r) =>
      if r !in s.requests || !s.requests[r].Guarded? then None
      else
        var c := s.requests[r].config;
        if !IsLive(s.db, c) || s.db.configs[c].current.None? then Some(Without(s, r))
        else
          var spec := s.db.configs[c].spec;
          Some(WithRequest(s, r, Prepared(Task(c, spec.profile, spec.name, s.db.configs[c].current.value + 1))))
    case RegenerateCommit(r) =>
      if r !in s.requests || !s.requests[r].Prepared? then None
      else
        var task := s.requests[r].task;
        if task.config !in s.db.configs then Some(Without(s, r))
        else
          var row := s.db.configs[task.config].(status := Pending, error := None);
          Some(WithRequest(s.(db := WithConfig(s.db, task.config, row)), r, ToPublish(task)))
    case Publish(r, taskId) =>
      if r !in s.requests || !s.requests[r].ToPublish? then None
      else
        var task := s.requests[r].task;
        Some(WithRequest(s.(published := s.published + {task}), r, Published(task.config, taskId)))
    case RecordTask(r) =>
      if r !in s.requests || !s.requests[r].Published? then None
      else
        var c := s.requests[r].config;
        if !IsLive(s.db, c) then Some(Without(s, r))
        else Some(Without(s.(db := WithConfig(s.db, c, s.db.configs[c].(lastTask := Some(s.requests[r].taskId)))), r))
    case EditRead(r, c) =>
      if r in s.requests || !IsLive(s.db, c) || s.db.configs[c].current.None? || IsBusy(s.db.configs[c].status)
         || (c, s.db.configs[c].current.value) !in s.db.versions
      then None
      else Some(WithRequest(s, r, Editing(c, s.db.configs[c].current.value)))
    case EditCommit(r, data, port) =>
      if r !in s.requests || !s.requests[r].Editing? then None
      else
        (match UpdateVersionConfigData(s.db, s.requests[r].config, s.requests[r].version, data, port)
         case Raised => Some(Without(s, r))
         case Ok(db) => Some(Without(s.(db := db), r)))
    case DropRequest(r) => Some(Without(s, r))
    case _ => None
  }

  // ---- Administration, share links and time ----

  /** `list_current_version_snapshots` is not empty. */
  ghost predicate HasCurrentSnapshot(db: Tables)
  {
    exists c :: IsLive(db, c) && db.configs[c].status.Active? && db.configs[c].current.Some?
                && (c, db.configs[c].current.value) in db.versions
  }

  ghost function AdminStep(s: State, step: Step): Option<State>
  {
    match step
    case DeleteConfig(c) =>
      (match SoftDelete(s.db, c)
       case Raised => None
       case Ok(db) => Some(s.(db := db)))
    case ChangePolicy(c, policy) =>
      if !IsLive(s.db, c) then None
      else Some(s.(db := WithConfig(s.db, c, s.db.configs[c].(spec := s.db.configs[c].spec.(policy := Some(policy))))))
    case ShareRead(r, pin, secure, isPermanent, expiresAt, ttlSeconds) =>
      var expiry := ResolveShareExpiration(isPermanent, expiresAt, ttlSeconds, s.now);
      if r in s.requests || expiry.Raised? then None
      else if pin.None? then
        if HasCurrentSnapshot(s.db) then Some(WithRequest(s, r, Sharing(None, secure, expiry.value))) else None
      else
        var c := pin.value;
        if !IsLive(s.db, c) || s.db.configs[c].current.None? || !s.db.configs[c].status.Active? then None
        else Some(WithRequest(s, r, Sharing(Some((c, s.db.configs[c].current.value)), secure, expiry.value)))
    case ShareCommit(r, hash) =>
      if r !in s.requests || !s.requests[r].Sharing? || hash in s.db.tokens then None
      else
        var q := s.requests[r];
        var token := match q.pin
          case None => Token(None, None, q.secure, q.expiry.isPermanent, q.expiry.expiresAt, None, None, 0)
          case Some(pin) => Token(Some(pin.0), Some(pin.1), q.secure, q.expiry.isPermanent, q.expiry.expiresAt, None, None, 0);
        Some(Without(s.(db := s.db.(tokens := s.db.tokens[hash := token])), r))
    case Revoke(hash) =>
      if hash !in s.db.tokens || s.db.tokens[hash].revokedAt.Some? then None
      else Some(s.(db := s.db.(tokens := s.db.tokens[hash := s.db.tokens[hash].(revokedAt := Some(s.now))])))
    case RecordAccess(hash) =>
      if hash !in s.db.tokens then None
      else
        var t := s.db.tokens[hash];
        Some(s.(db := s.db.(tokens := s.db.tokens[hash := t.(lastAccess := Some(s.now), accessCount := t.accessCount + 1)])))
    case Tick(later) => if later < s.now then None else Some(s.(now := later))
    case _ => None
  }

  predicate IsWorkerStep(step: Step)
  {
    step.Deliver? || step.ReadVersion? || step.Build? || step.Flush? || step.Commit? || step.Fail?
    || step.RecordFailure? || step.Crash?
  }

  predicate IsRequestStep(step: Step)
  {
    step.CreateConfig? || step.RegenerateGuard? || step.RegenerateContext? || step.RegenerateCommit?
    || step.Publish? || step.RecordTask? || step.EditRead? || step.EditCommit? || step.DropRequest?
  }

  ghost function Next(world: World, s: State, step: Step): Option<State>
  {
    if IsWorkerStep(step) then WorkerStep(world, s, step)
    else if IsRequestStep(step) then RequestStep(s, step)
    else AdminStep(s, step)
  }

  ghost predicate StepAt(world: World, states: seq<State>, steps: seq<Step>, i: nat)
    requires |states| == |steps| + 1 && i < |steps|
  {
    Next(world, states[i], steps[i]) == Some(states[i + 1])
  }

  ghost predicate IsRun(world: World, states: seq<State>, steps: seq<Step>)
  {
    && |states| == |steps| + 1
    && Initial(states[0])
    && forall i :: 0 <= i < |steps| ==> StepAt(world, states, steps, i)
  }

  // ---- The invariant ----

  ghost predicate Contiguous(db: Tables, c: ConfigId, n: nat)
  {
    forall v :: (c, v) in db.versions <==> 1 <= v <= n
  }

  ghost predicate RowsOk(db: Tables, n: map<ConfigId, nat>)
  {
    && n.Keys == db.configs.Keys
    && (forall c :: c in n ==> Contiguous(db, c, n[c]))
    && (forall key :: key in db.versions ==> key.0 in db.configs)
    && (forall c :: c in db.configs ==> RowOk(db.configs[c], n[c]))
  }

  ghost predicate RowOk(row: ConfigRow, n: nat)
  {
    && !row.status.Processing?
    && (row.status.Active? ==> row.current.Some?)
    && (row.current.Some? ==> 1 <= row.current.value <= n)
    && (n > 0 ==> row.current.Some?)
  }

  ghost predicate TaskOk(db: Tables, n: map<ConfigId, nat>, task: Task)
    requires n.Keys == db.configs.Keys
  {
    && task.config in db.configs
    && task.profile == db.configs[task.config].spec.profile
    && task.name == db.configs[task.config].spec.name
    && 1 <= task.target <= n[task.config] + 1
  }

  ghost predicate RequestOk(db: Tables, n: map<ConfigId, nat>, q: Request)
    requires n.Keys == db.configs.Keys
  {
    match q
    case Guarded(c) => c in db.configs
    case Prepared(task) => TaskOk(db, n, task)
    case ToPublish(task) => TaskOk(db, n, task)
    case Published(c, _) => c in db.configs
    case Editing(c, v) => (c, v) in db.versions
    case Sharing(pin, _, expiry) =>
      && (pin.Some? ==> pin.value in db.versions)
      && (expiry.isPermanent <==> expiry.expiresAt.None?)
  }

  ghost predicate PhaseOk(db: Tables, n: map<ConfigId, nat>, published: set<Task>, p: Phase)
    requires n.Keys == db.configs.Keys
  {
    p.Idle? || (
      && p.task in published
      && TaskOk(db, n, p.task)
      && (p.Found? ==> (p.task.config, p.task.target) in db.versions)
      && (p.Flushed? ==> p.task.target == n[p.task.config] + 1))
  }

  ghost predicate OneInserter(workers: map<nat, Phase>)
  {
    forall u, w :: u in workers && w in workers && u != w && workers[u].Flushed? && workers[w].Flushed?
      ==> workers[u].task.config != workers[w].task.config
  }

  ghost predicate TokenOk(db: Tables, t: Token)
  {
    WellFormed(t) && (t.config.Some? ==> (t.config.value, t.version.value) in db.versions)
  }

  ghost predicate PublishedOk(db: Tables, n: map<ConfigId, nat>, published: set<Task>)
    requires n.Keys == db.configs.Keys
  {
    forall task :: task in published ==> TaskOk(db, n, task)
  }

  ghost predicate RequestsOk(db: Tables, n: map<ConfigId, nat>, requests: map<nat, Request>)
    requires n.Keys == db.configs.Keys
  {
    forall r :: r in requests ==> RequestOk(db, n, requests[r])
  }

  ghost predicate WorkersOk(db: Tables, n: map<ConfigId, nat>, published: set<Task>, workers: map<nat, Phase>)
    requires n.Keys == db.configs.Keys
  {
    && (forall w :: w in workers ==> PhaseOk(db, n, published, workers[w]))
    && OneInserter(workers)
  }

  ghost predicate TokensOk(db: Tables)
  {
    forall h :: h in db.tokens ==> TokenOk(db, db.tokens[h])
  }

  ghost predicate Inv(s: State, n: map<ConfigId, nat>)
  {
    && RowsOk(s.db, n)
    && PublishedOk(s.db, n, s.published)
    && RequestsOk(s.db, n, s.requests)
    && WorkersOk(s.db, n, s.published, s.workers)
    && TokensOk(s.db)
  }

  /** The version counts after a step: only the commit of an insert adds one. */
  function CountsAfter(s: State, step: Step, n: map<ConfigId, nat>): map<ConfigId, nat>
  {
    match step
    case CreateConfig(_, c, _) => n[c := 0]
    case Commit(w, _) =>
      var p := PhaseOf(s, w);
      if p.Flushed? && p.task.config in n then n[p.task.config := n[p.task.config] + 1] else n
    case _ => n
  }
}
