/** One worker task as the worker runs it: a session that commits or rolls back, and a second session
    that records the failure (panel/worker/services/config_task.py, config_build.py). */
module ConfigTask {
  import opened Wrappers
  import opened JsonTree
  import opened Store
  import opened Settings
  import opened ConfigBuilder
  import opened ConfigBuild
  import BuilderSteps
  import Lifecycle
  import opened Repository

  type Task = Lifecycle.Task

  // ---- build_and_persist_version ----

  /** What one build adds to the session, on the rows it works on. */
  function BuildAndInsert(db: Tables, ctx: Context, task: Task, draws: Draws): Result<(Tables, Written)>
  {
    if task.config !in db.configs then Raised
    else
      var spec := db.configs[task.config].spec.(profile := task.profile);
      var stored :- BuildVersion(ctx, spec, Lifecycle.Predecessor(db, task.config, task.target), ListUsedPorts(db, task.config), draws);
      var inserted :- InsertVersion(db, task.config, task.target, stored.row);
      Ok((inserted, stored.files))
  }

  lemma {:induction false} TagNotBefore(items: seq<Json>, tag: string, i: nat)
    requires i < |items| && FindTag(items, tag).Ok?
    requires forall j :: 0 <= j < i ==> GetOr(items[j], "tag", Null) != Ok(Str(tag))
    ensures GetOr(items[i], "tag", Null) == Ok(Str(tag)) <==> FindTag(items, tag) == Ok(i)
    ensures GetOr(items[i], "tag", Null).Ok?
  {
    if i > 0 {
      TagNotBefore(items[1..], tag, i - 1);
    }
  }

  lemma {:induction false} TagNowhere(items: seq<Json>, tag: string)
    requires forall j :: 0 <= j < |items| ==> GetOr(items[j], "tag", Null) != Ok(Str(tag))
    ensures FindTag(items, tag).Raised?
  {
    if items != [] {
      TagNowhere(items[1..], tag);
    }
  }

  /** The loop over the previous inbounds; it stops at the tagged one. */
  method PreferredNames(plain: Json, tag: string) returns (r: Result<(Json, Json)>)
    ensures r == PreferredGrpc(plain, tag)
  {
    var items :- Inbounds(plain);
    var i := 0;
    while i < |items|
      invariant 0 <= i <= |items|
      invariant forall j :: 0 <= j < i ==> GetOr(items[j], "tag", Null) != Ok(Str(tag))
    {
      if GetOr(items[i], "tag", Null) == Ok(Str(tag)) {
        break;
      }
      i := i + 1;
    }
    if i == |items| {
      TagNowhere(items, tag);
      return Ok((Null, Null));
    }
    match FindTag(items, tag) {
      case Raised => return Ok((Null, Null));
      case Ok(_) =>
        TagNotBefore(items, tag, i);
        r := GrpcNames(items[i]);
    }
  }

  /** The read-back of the predecessor: its secrets, its gRPC names and its port. */
  method ReadPredecessor(repo: VpnConfigRepository, ctx: Context, task: Task) returns (r: Result<(Option<Previous>, (Json, Json), Option<int>)>)
    requires task.config in repo.session.work.configs && task.profile in ctx.settings.profiles
    ensures var spec := repo.session.work.configs[task.config].spec.(profile := task.profile);
            var before := Lifecycle.Predecessor(repo.session.work, task.config, task.target);
            var back := ReadBack(ctx, spec, before);
            && (r.Ok? <==> back.Ok?)
            && (r.Ok? ==> (r.value.0, r.value.1) == back.value && r.value.2 == if before.Some? then Some(before.value.port) else None)
  {
    if task.target <= 1 { return Ok((None, (Null, Null), None)); }
    var snapshot := repo.GetVersionSnapshot(task.config, task.target - 1);
    if snapshot.None? { return Ok((None, (Null, Null), None)); }
    var row := snapshot.value.row;
    var secrets :- ReadPrevious(ctx.encryptor, task.profile, row);
    var preferred: (Json, Json) := (Null, Null);
    if task.profile.XrayGrpc? {
      var plain :- PlainConfig(ctx.encryptor, task.profile, row);
      preferred :- PreferredNames(plain, ctx.settings.profiles[task.profile].inboundTag);
    }
    return Ok((Some(secrets), preferred, Some(row.port)));
  }

  /** The read-back of the predecessor and the port rules, with the variables the source moves. */
  method BuildAndPersistVersion(repo: VpnConfigRepository, ctx: Context, task: Task, draws: Draws) returns (r: Result<Written>)
    requires task.config in repo.session.work.configs
    modifies repo.session
    ensures var result := BuildAndInsert(old(repo.session.work), ctx, task, draws);
            && (r.Ok? <==> result.Ok?)
            && (r.Raised? ==> repo.session.work == old(repo.session.work))
            && (r.Ok? ==> repo.session.work == result.value.0 && r.value == result.value.1)
  {
    var spec := repo.session.work.configs[task.config].spec.(profile := task.profile);
    if task.profile !in ctx.settings.profiles { return Raised; }
    var ps := ctx.settings.profiles[task.profile];
    var policy := ResolvedPolicy(ctx, spec);
    var read :- ReadPredecessor(repo, ctx, task);
    var (previous, preferred, previousPort) := read;
    var usedPorts := repo.ListUsedPorts(task.config);
    var preferredPort: Option<int> := None;
    if previousPort.Some? {
      if policy.rotatePort {
        usedPorts := usedPorts + {previousPort.value};
      } else {
        preferredPort := previousPort;
      }
    }
    var o := OrderFor(ctx, spec, previous, draws);
    var picked :- PickListeningPort(task.profile, o, usedPorts, preferredPort);
    var built :- BuilderSteps.BuildProfile(task.profile, o, picked, preferred.0, preferred.1);
    var port :- ListeningPort(task.profile, built.config, ps);
    var files :- WriteFiles(task.profile, ctx.settings, ps, built, draws);
    var row := Persist(ctx, task.profile, port, built, files, draws.nonce);
    var inserted := repo.InsertVersion(task.config, task.target, row);
    if inserted.Raised? { return Raised; }
    return Ok(files);
  }

  // ---- _run_config_task ----

  /** What the transaction of a task would commit; Raised when it is rolled back instead. */
  function TaskCommit(db: Tables, ctx: Context, task: Task, draws: Draws): Result<Tables>
  {
    if (task.config, task.target) in db.versions then MarkActive(db, task.config, task.target)
    else
      var marked :- MarkProcessing(db, task.config);
      var built :- BuildAndInsert(marked, ctx, task, draws);
      MarkActive(built.0, task.config, task.target)
  }

  /** The committed rows after a whole task run. */
  function AfterTask(db: Tables, ctx: Context, task: Task, draws: Draws, message: string): Tables
  {
    match TaskCommit(db, ctx, task, draws)
    case Ok(committed) => committed
    case Raised => MarkFailed(db, task.config, message).GetOr(db)
  }

  method RunConfigTask(db: Database, ctx: Context, task: Task, draws: Draws, message: string) returns (r: Result<()>)
    modifies db
    ensures r.Ok? <==> TaskCommit(old(db.rows), ctx, task, draws).Ok?
    ensures db.rows == AfterTask(old(db.rows), ctx, task, draws, message)
  {
    var session := new Session(db);
    var repo := new VpnConfigRepository(session);
    var done := RunInSession(repo, ctx, task, draws);
    if done.Ok? {
      session.Commit();
      return Ok(());
    }
    session.Rollback();
    var failSession := new Session(db);
    var failRepo := new VpnConfigRepository(failSession);
    var marked := failRepo.MarkFailed(task.config, message);
    if marked.Ok? {
      failSession.Commit();
    }
    return Raised;
  }

  /** The guarded part of the run: everything before the commit. */
  method RunInSession(repo: VpnConfigRepository, ctx: Context, task: Task, draws: Draws) returns (r: Result<()>)
    modifies repo.session
    ensures r.Ok? <==> TaskCommit(old(repo.session.work), ctx, task, draws).Ok?
    ensures r.Ok? ==> repo.session.work == TaskCommit(old(repo.session.work), ctx, task, draws).value
  {
    var known := repo.HasVersion(task.config, task.target);
    if known {
      r := repo.MarkActive(task.config, task.target);
      return;
    }
    r := repo.MarkProcessing(task.config);
    if r.Raised? { return; }
    var files := BuildAndPersistVersion(repo, ctx, task, draws);
    if files.Raised? { return Raised; }
    r := repo.MarkActive(task.config, task.target);
  }
}
