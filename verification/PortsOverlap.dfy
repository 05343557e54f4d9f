/** Two overlapping builds: each reads the used ports before the other commits, each has a free candidate,
    and both take the same one (panel/worker/services/config_task.py, config_build.py). */
module PortsOverlap {
  import opened Wrappers
  import opened Text
  import opened FieldCrypto
  import opened Store
  import opened Settings
  import opened ConfigBuild
  import opened RegenerateChain
  import opened Lifecycle
  import opened LifecycleRuns
  import opened Lineage
  import opened PortsDisjoint
  import opened SampleBuilds

  /** The first version that a build makes when these ports are in use. */
  ghost predicate FirstRow(ctx: Context, spec: Spec, used: set<int>, draws: Draws, row: VersionRow)
  {
    exists files :: BuildVersion(ctx, spec, None, used, draws) == Ok(Stored(row, files))
  }

  type Maker = (Spec, set<int>, Draws, VersionRow) -> bool

  /** Which first rows builds make, and when they have room to pick, given the ports in use. */
  ghost function FirstRows(ctx: Context): Maker
  {
    (spec: Spec, used: set<int>, draws: Draws, row: VersionRow) => FirstRow(ctx, spec, used, draws, row)
  }

  ghost function Rooms(ctx: Context): (Spec, set<int>) -> bool
  {
    (spec: Spec, used: set<int>) => spec.profile in ctx.settings.profiles && RoomToPick(ctx, spec, None, used)
  }

  /** The row is what a build makes of the ports that the database shows in use, and that build has a
      candidate nobody uses. */
  ghost predicate BuildsWithRoom(makes: Maker, room: (Spec, set<int>) -> bool, db: Tables, c: ConfigId, draws: Draws, row: VersionRow)
  {
    && c in db.configs && draws.Valid() && room(db.configs[c].spec, ListUsedPorts(db, c))
    && makes(db.configs[c].spec, ListUsedPorts(db, c), draws, row)
  }

  const OfficeTask0 := FirstTask(Office, 0)
  const OfficeTask1 := FirstTask(Office, 1)

  function Requests(): seq<Step>
  {
    [CreateConfig(0, 0, Office), CreateConfig(1, 1, Office), Publish(0, 7), Publish(1, 8)]
  }

  /** Both configs created and both tasks published. */
  lemma Requested(world: World) returns (run: Run)
    ensures IsRunOf(world, run) && run.steps == Requests()
    ensures Last(run).db == TwoConfigs(Office) && Last(run).published == {OfficeTask0, OfficeTask1} && Last(run).workers == map[]
  {
    run := Run([Start], []);
    run := Take(world, run, CreateConfig(0, 0, Office));
    run := Take(world, run, CreateConfig(1, 1, Office));
    assert Last(run).db == TwoConfigs(Office);
    run := Take(world, run, Publish(0, 7));
    run := Take(world, run, Publish(1, 8));
  }

  function BothBuilds(a: VersionRow, b: VersionRow): seq<Step>
  {
    BuildSteps(0, OfficeTask0, a) + BuildSteps(1, OfficeTask1, b)
  }

  /** Two workers, one build each, before anything is inserted. */
  lemma BothBuild(world: World, before: Run, a: VersionRow, b: VersionRow) returns (run: Run)
    requires IsRunOf(world, before) && Last(before).db == TwoConfigs(Office) && Last(before).workers == map[]
    requires Last(before).published == {OfficeTask0, OfficeTask1}
    requires world.builds(Office, None, a) && world.builds(Office, None, b)
    ensures IsRunOf(world, run) && GoesOn(before, run, BothBuilds(a, b))
    ensures Last(run).db == TwoConfigs(Office) && Last(run).workers == map[0 := Built(OfficeTask0, a), 1 := Built(OfficeTask1, b)]
    ensures var n := |before.steps|; run.states[n + 2].db == run.states[n + 5].db == TwoConfigs(Office)
  {
    var one := BuildRun(world, before, 0, OfficeTask0, a);
    run := BuildRun(world, one, 1, OfficeTask1, b);
    GoesOnOn(before, one, run, BuildSteps(0, OfficeTask0, a), BuildSteps(1, OfficeTask1, b));
  }

  function BothCommits(): seq<Step>
  {
    [Flush(0), Commit(0, true)] + [Flush(1), Commit(1, true)]
  }

  lemma BothCommit(world: World, before: Run, a: VersionRow, b: VersionRow) returns (run: Run)
    requires IsRunOf(world, before) && Last(before).db == TwoConfigs(Office)
    requires Last(before).workers == map[0 := Built(OfficeTask0, a), 1 := Built(OfficeTask1, b)]
    ensures IsRunOf(world, run) && GoesOn(before, run, BothCommits())
    ensures Last(run).db.versions == map[(0, 1) := a][(1, 1) := b]
  {
    var one := CommitRun(world, before, 0, OfficeTask0, a);
    run := CommitRun(world, one, 1, OfficeTask1, b);
    GoesOnOn(before, one, run, [Flush(0), Commit(0, true)], [Flush(1), Commit(1, true)]);
  }

  lemma Room(ctx: Context, plan: Plan, used: set<int>)
    requires ctx.settings == GrpcPanel(plan) && exists p :: p in plan.ports && p !in used
    ensures Rooms(ctx)(Office, used)
  {
    assert RoomToPick(ctx, Office, None, used);
  }

  lemma NothingUsed(c: ConfigId)
    ensures ListUsedPorts(TwoConfigs(Office), c) == {}
  {
  }

  /** A first build that finds no port in use picks the first candidate. */
  lemma FirstOfPool(ctx: Context, plan: Plan) returns (row: VersionRow)
    requires ctx.encryptor.Valid() && ctx.settings == GrpcPanel(plan) && plan.ports != [] && HasName(plan)
    ensures FirstRow(ctx, Office, {}, Drawing("id", 0), row) && Builds(ctx, Office, None, row) && row.port == plan.ports[0]
  {
    row := OfficeVersion(ctx, plan, None, {}, "id", 0);
    var stored := BuildVersion(ctx, Office, None, {}, Drawing("id", 0)).value;
    assert stored == Stored(row, stored.files);
  }

  lemma Makes(ctx: Context, draws: Draws, row: VersionRow)
    requires FirstRow(ctx, Office, {}, draws, row) && Builds(ctx, Office, None, row)
    ensures FirstRows(ctx)(Office, {}, draws, row) && BuildLink(ctx)(Office, None, row)
  {
  }

  lemma FirstIsMade(ctx: Context, plan: Plan) returns (row: VersionRow)
    requires ctx.encryptor.Valid() && ctx.settings == GrpcPanel(plan) && plan.ports != [] && HasName(plan)
    ensures FirstRows(ctx)(Office, {}, Drawing("id", 0), row) && BuildLink(ctx)(Office, None, row) && row.port == plan.ports[0]
  {
    row := FirstOfPool(ctx, plan);
    Makes(ctx, Drawing("id", 0), row);
  }

  lemma BuildHasRoom(makes: Maker, room: (Spec, set<int>) -> bool, c: ConfigId, draws: Draws, row: VersionRow)
    requires c in TwoConfigs(Office).configs && draws.Valid() && room(Office, {}) && makes(Office, {}, draws, row)
    ensures BuildsWithRoom(makes, room, TwoConfigs(Office), c, draws, row)
  {
    NothingUsed(c);
  }

  lemma OverlappingRun(world: World, a: VersionRow, b: VersionRow) returns (run: Run)
    requires world.builds(Office, None, a) && world.builds(Office, None, b)
    ensures IsRunOf(world, run) && run.steps == Requests() + BothBuilds(a, b) + BothCommits()
    ensures run.states[6].db == run.states[9].db == TwoConfigs(Office)
    ensures Last(run).db.versions == map[(0, 1) := a][(1, 1) := b]
  {
    var requested := Requested(world);
    var built := BothBuild(world, requested, a, b);
    run := BothCommit(world, built, a, b);
  }

  /** Two builds that overlap on one row: each as its own moment allows, and together a collision. */
  ghost predicate Collides(world: World, makes: Maker, room: (Spec, set<int>) -> bool, run: Run, draws: Draws, row: VersionRow)
  {
    && IsRunOf(world, run) && run.steps == Requests() + BothBuilds(row, row) + BothCommits()
    && BuildsWithRoom(makes, room, run.states[6].db, 0, draws, row)
    && BuildsWithRoom(makes, room, run.states[9].db, 1, draws, row)
    && !Disjoint(Last(run).db)
  }

  lemma OverlapCollides(world: World, makes: Maker, room: (Spec, set<int>) -> bool, draws: Draws, row: VersionRow) returns (run: Run)
    requires world.builds(Office, None, row) && draws.Valid() && room(Office, {}) && makes(Office, {}, draws, row)
    ensures Collides(world, makes, room, run, draws, row)
  {
    run := OverlappingRun(world, row, row);
    BuildHasRoom(makes, room, 0, draws, row);
    BuildHasRoom(makes, room, 1, draws, row);
    TwoOnOnePort(Last(run).db, row, row);
  }

  /** A pool of two ports and no port in use: both builds have room, both pick the first port, and the run
      ends with two configs on one port. Had the second build read the ports after the first commit, it
      would have had room too, and have moved apart (`PickApart`). */
  lemma OverlappingBuildsCollide(certs: CertRules, e: Encryptor, p: int, other: int)
    returns (ctx: Context, draws: Draws, run: Run, row: VersionRow)
    requires e.Valid() && p != other
    ensures ctx.settings.profiles.Keys == {XrayGrpc} && ctx.settings.profiles[XrayGrpc].portCandidates == [p, other]
    ensures Collides(PanelWorld(ctx), FirstRows(ctx), Rooms(ctx), run, draws, row)
    ensures Rooms(ctx)(Office, {row.port})
  {
    var plan := PoolOfTwo(p, other);
    ctx, draws := Context(GrpcPanel(plan), certs, e), Drawing("id", 0);
    row := FirstIsMade(ctx, plan);
    RoomInPool(ctx, plan, p, other);
    run := OverlapCollides(PanelWorld(ctx), FirstRows(ctx), Rooms(ctx), draws, row);
  }

  lemma RoomInPool(ctx: Context, plan: Plan, p: int, other: int)
    requires ctx.settings == GrpcPanel(plan) && plan.ports == [p, other] && p != other
    ensures Rooms(ctx)(Office, {}) && Rooms(ctx)(Office, {p})
  {
    assert p in plan.ports && other in plan.ports;
    Room(ctx, plan, {});
    Room(ctx, plan, {p});
  }

  lemma PoolOfTwo(p: int, other: int) returns (plan: Plan)
    ensures HasName(plan) && plan.ports == [p, other]
  {
    StripClean("a.com");
    plan := Plan(Some("a.com"), [p, other]);
  }
}
