/** Ports over runs of serial builds: the ports ever used by two configs stay apart as long as every
    fresh pick has a candidate nobody uses (panel/worker/services/config_build.py, port_picker.py). */
module PortsDisjoint {
  import opened Wrappers
  import opened PortPicker
  import opened Store
  import opened Settings
  import opened ConfigBuilder
  import opened ConfigBuild
  import opened Regenerate
  import opened Lifecycle
  import opened FieldCrypto
  import opened Text
  import opened SampleBuilds
  import ConfigTask

  /** No port was ever used by two different configs. */
  ghost predicate Disjoint(db: Tables)
  {
    forall a, b :: a in db.versions && b in db.versions && a.0 != b.0 ==> db.versions[a].port != db.versions[b].port
  }

  function PortsOf(db: Tables, c: ConfigId): set<int>
  {
    set key | key in db.versions && key.0 == c :: db.versions[key].port
  }

  /** The build may keep its predecessor's port, or it has a free candidate to pick; and Hysteria2 is not
      forced onto its advertised port. */
  ghost predicate RoomToPick(ctx: Context, spec: Spec, previous: Option<VersionRow>, used: set<int>)
    requires spec.profile in ctx.settings.profiles
  {
    var ps, policy := ctx.settings.profiles[spec.profile], ResolvedPolicy(ctx, spec);
    var kept := KeptPort(policy, previous);
    && PreferredPort(spec.profile, ps, kept) == kept
    && (UsesPreferred(ps.portCandidates, kept)
        || HasUnblocked(ps.portCandidates, BlockedPorts(spec.profile, ctx.settings, ExcludedPorts(used, policy, previous))))
  }

  /** A build with room to pick either keeps its predecessor's port or takes one no other config uses;
      in particular a rotating one moves away from the old port. */
  lemma PickApart(ctx: Context, spec: Spec, previous: Option<VersionRow>, used: set<int>, draws: Draws, stored: Stored)
    requires draws.Valid() && BuildVersion(ctx, spec, previous, used, draws) == Ok(stored)
    requires RoomToPick(ctx, spec, previous, used)
    ensures (previous.Some? && stored.row.port == previous.value.port) || stored.row.port !in used
    ensures previous.Some? && ResolvedPolicy(ctx, spec).rotatePort ==> stored.row.port != previous.value.port && stored.row.port !in used
  {
    var o, built := Parts(ctx, spec, previous, used, draws, stored);
    BuiltListens(ctx, spec, previous, used, draws, stored, o, built);
    PickPortMeaning(o.profile.portCandidates, BlockedPorts(spec.profile, o.settings, ExcludedPorts(used, o.policy, previous)), draws.free,
                    spec.profile.Hysteria2?, PreferredPort(spec.profile, o.profile, KeptPort(o.policy, previous)), draws.portDraw);
  }

  /** Inserting one version keeps the ports apart exactly when no other config ever used its port. Its own
      config's ports are such, so a kept port is always safe. */
  lemma InsertKeepsDisjointIff(db: Tables, db': Tables, c: ConfigId, v: Version, row: VersionRow)
    requires Disjoint(db) && (c, v) !in db.versions && db'.versions == db.versions[(c, v) := row]
    ensures Disjoint(db') <==> row.port !in ListUsedPorts(db, c)
    ensures row.port in PortsOf(db, c) ==> row.port !in ListUsedPorts(db, c)
  {
    if row.port in ListUsedPorts(db, c) {
      var key :| key in db.versions && key.0 != c && db.versions[key].port == row.port;
      assert key in db'.versions && db'.versions[key] == db.versions[key] && (c, v) in db'.versions;
      assert !Disjoint(db');
    } else {
      forall a, b | a in db'.versions && b in db'.versions && a.0 != b.0 ensures db'.versions[a].port != db'.versions[b].port {
        if a == (c, v) {
          assert db.versions[b].port in ListUsedPorts(db, c);
        } else if b == (c, v) {
          assert db.versions[a].port in ListUsedPorts(db, c);
        }
      }
    }
  }

  /** Everything that happens between two builds: rows of versions stay as they are. */
  datatype Move = Elsewhere(db: Tables) | RunTask(task: Task, draws: Draws, message: string)

  ghost predicate Allowed(ctx: Context, db: Tables, m: Move)
  {
    match m
    case Elsewhere(after) => after.versions == db.versions
    case RunTask(task, draws, _) =>
      draws.Valid() && (IsFresh(ctx, db, task) ==> RoomToPick(ctx, SpecOf(db, task), Predecessor(db, task.config, task.target), ListUsedPorts(db, task.config)))
  }

  /** The task would build a version rather than find it. */
  predicate IsFresh(ctx: Context, db: Tables, task: Task)
  {
    task.config in db.configs && (task.config, task.target) !in db.versions && task.profile in ctx.settings.profiles
  }

  function SpecOf(db: Tables, task: Task): Spec
    requires task.config in db.configs
  {
    db.configs[task.config].spec.(profile := task.profile)
  }

  function Moved(ctx: Context, db: Tables, m: Move): Tables
  {
    match m
    case Elsewhere(after) => after
    case RunTask(task, draws, message) => ConfigTask.AfterTask(db, ctx, task, draws, message)
  }

  lemma BuildKeepsDisjoint(ctx: Context, db: Tables, task: Task, draws: Draws, message: string)
    requires Disjoint(db) && Allowed(ctx, db, RunTask(task, draws, message))
    ensures Disjoint(ConfigTask.AfterTask(db, ctx, task, draws, message))
  {
    var after := ConfigTask.AfterTask(db, ctx, task, draws, message);
    if ConfigTask.TaskCommit(db, ctx, task, draws).Ok? && (task.config, task.target) !in db.versions {
      var marked := MarkProcessing(db, task.config).value;
      var previous, used := Predecessor(db, task.config, task.target), ListUsedPorts(db, task.config);
      assert Predecessor(marked, task.config, task.target) == previous && ListUsedPorts(marked, task.config) == used;
      assert marked.configs[task.config].spec == db.configs[task.config].spec;
      var stored := BuildVersion(ctx, SpecOf(db, task), previous, used, draws).value;
      PickApart(ctx, SpecOf(db, task), previous, used, draws, stored);
      if previous.Some? {
        assert (task.config, task.target - 1) in db.versions && previous.value.port in PortsOf(db, task.config);
      }
      InsertKeepsDisjointIff(db, after, task.config, task.target, stored.row);
    } else {
      assert after.versions == db.versions;
    }
  }

  type Mover = (Tables, Move) -> Tables

  function MoverOf(ctx: Context): Mover
  {
    (db: Tables, m: Move) => Moved(ctx, db, m)
  }

  ghost predicate MoveAt(move: Mover, dbs: seq<Tables>, moves: seq<Move>, k: nat)
    requires |dbs| == |moves| + 1 && k < |moves|
  {
    dbs[k + 1] == move(dbs[k], moves[k])
  }

  ghost predicate IsSerial(move: Mover, dbs: seq<Tables>, moves: seq<Move>)
  {
    |dbs| == |moves| + 1 && dbs[0] == EmptyTables && forall k :: 0 <= k < |moves| ==> MoveAt(move, dbs, moves, k)
  }

  lemma OneMoreMove(move: Mover, dbs: seq<Tables>, moves: seq<Move>, m: Move, db: Tables)
    requires IsSerial(move, dbs, moves) && db == move(dbs[|moves|], m)
    ensures IsSerial(move, dbs + [db], moves + [m])
  {
    var dbs', moves' := dbs + [db], moves + [m];
    forall k | 0 <= k < |moves'| ensures MoveAt(move, dbs', moves', k) {
      assert k < |moves| ==> MoveAt(move, dbs, moves, k);
    }
  }

  /** What every allowed move keeps holds all along a run of allowed moves. */
  lemma {:induction false} KeptAlong(move: Mover, allowed: (Tables, Move) -> bool, good: Tables -> bool,
                                     dbs: seq<Tables>, moves: seq<Move>, i: nat)
    requires IsSerial(move, dbs, moves) && i <= |moves| && good(EmptyTables)
    requires forall db, m :: good(db) && allowed(db, m) ==> good(move(db, m))
    requires forall k :: 0 <= k < |moves| ==> allowed(dbs[k], moves[k])
    ensures good(dbs[i])
  {
    if i > 0 {
      KeptAlong(move, allowed, good, dbs, moves, i - 1);
      assert MoveAt(move, dbs, moves, i - 1) && allowed(dbs[i - 1], moves[i - 1]);
    }
  }

  lemma MoveKeepsDisjoint(ctx: Context, db: Tables, m: Move)
    requires Disjoint(db) && Allowed(ctx, db, m)
    ensures Disjoint(Moved(ctx, db, m))
  {
    match m {
      case Elsewhere(after) =>
      case RunTask(task, draws, message) => BuildKeepsDisjoint(ctx, db, task, draws, message);
    }
  }

  /** Over any run of serial builds, each with room to pick, and of anything else that leaves the version
      rows alone, the ports ever used by two different configs stay disjoint. */
  lemma PortsStayDisjoint(ctx: Context, dbs: seq<Tables>, moves: seq<Move>, i: nat)
    requires IsSerial(MoverOf(ctx), dbs, moves) && i <= |moves|
    requires forall k :: 0 <= k < |moves| ==> Allowed(ctx, dbs[k], moves[k])
    ensures Disjoint(dbs[i])
  {
    var good := (db: Tables) => Disjoint(db);
    var allowed := (db: Tables, m: Move) => Allowed(ctx, db, m);
    forall db, m | good(db) && allowed(db, m) ensures good(MoverOf(ctx)(db, m)) {
      MoveKeepsDisjoint(ctx, db, m);
    }
    KeptAlong(MoverOf(ctx), allowed, good, dbs, moves, i);
  }

  // ---- Both conditions are needed ----

  /** With a single candidate that another config uses already, the pool falls back to it. */
  lemma FallbackPicks(profile: Profile, o: Order, exclude: set<int>, p: int)
    requires o.profile.portCandidates == [p] && p in exclude && o.draws.free(p, profile.Hysteria2?)
    requires profile.Hysteria2? ==> o.profile.sharePublicPort.None?
    ensures PickListeningPort(profile, o, exclude, None) == Ok(p)
  {
    var blocked := BlockedPorts(profile, o.settings, exclude);
    assert Unblocked([p], blocked) == [];
    assert Bindable([p], o.draws.free, profile.Hysteria2?) == [p];
  }

  /** A Hysteria2 build without a port to keep takes its advertised port, whoever uses it. */
  lemma ForcedPortPicks(o: Order, exclude: set<int>, p: int)
    requires o.profile.sharePublicPort == Some(p) && p in o.profile.portCandidates
    ensures PickListeningPort(Hysteria2, o, exclude, None) == Ok(p)
  {
    assert o.profile.portCandidates != [];
  }

  /** Two configs, created but not built. */
  function TwoConfigs(spec: Spec): Tables
  {
    var row := ConfigRow(spec, Pending, None, None, true, None);
    EmptyTables.(configs := map[0 := row, 1 := row])
  }

  function FirstTask(spec: Spec, c: ConfigId): Task
  {
    Task(c, spec.profile, spec.name, 1)
  }

  /** Both configs are created, then the first version of each is built, one after the other. */
  function BothBuilt(spec: Spec, draws: Draws): seq<Move>
  {
    [Elsewhere(TwoConfigs(spec)), RunTask(FirstTask(spec, 0), draws, ""), RunTask(FirstTask(spec, 1), draws, "")]
  }

  lemma FirstRun(ctx: Context, db: Tables, c: ConfigId, draws: Draws, stored: Stored)
    requires c in db.configs && (c, 1) !in db.versions
    requires BuildVersion(ctx, db.configs[c].spec, None, ListUsedPorts(db, c), draws) == Ok(stored)
    ensures var task := FirstTask(db.configs[c].spec, c);
            var after := ConfigTask.AfterTask(db, ctx, task, draws, "");
            && after.versions == db.versions[(c, 1) := stored.row]
            && after.configs.Keys == db.configs.Keys && forall d :: d in db.configs ==> after.configs[d].spec == db.configs[d].spec
  {
    var task := FirstTask(db.configs[c].spec, c);
    var marked := MarkProcessing(db, c).value;
    assert ListUsedPorts(marked, c) == ListUsedPorts(db, c);
    assert marked.configs[c].spec.(profile := task.profile) == db.configs[c].spec;
    assert Predecessor(marked, c, 1) == None;
  }

  /** The first of the two builds. */
  lemma FirstPicks(ctx: Context, spec: Spec, draws: Draws, p: int, a: Stored) returns (db2: Tables)
    requires a.row.port == p && BuildVersion(ctx, spec, None, {}, draws) == Ok(a)
    ensures db2 == Moved(ctx, TwoConfigs(spec), RunTask(FirstTask(spec, 0), draws, ""))
    ensures db2.versions == map[(0, 1) := a.row] && 1 in db2.configs && db2.configs[1].spec == spec
    ensures ListUsedPorts(db2, 1) == {p}
  {
    var db1 := TwoConfigs(spec);
    assert ListUsedPorts(db1, 0) == {};
    FirstRun(ctx, db1, 0, draws, a);
    db2 := Moved(ctx, db1, RunTask(FirstTask(spec, 0), draws, ""));
    assert db2.versions == map[(0, 1) := a.row];
    assert (0, 1) in db2.versions && db2.versions[(0, 1)].port in ListUsedPorts(db2, 1);
  }

  lemma TwoOnOnePort(db: Tables, a: VersionRow, b: VersionRow)
    requires db.versions == map[(0, 1) := a][(1, 1) := b] && a.port == b.port
    ensures !Disjoint(db)
  {
    assert (0, 1) in db.versions && (1, 1) in db.versions;
  }

  lemma SecondPicks(ctx: Context, spec: Spec, draws: Draws, db2: Tables, a: Stored, b: Stored) returns (db3: Tables)
    requires db2.versions == map[(0, 1) := a.row] && 1 in db2.configs && db2.configs[1].spec == spec && a.row.port == b.row.port
    requires BuildVersion(ctx, spec, None, ListUsedPorts(db2, 1), draws) == Ok(b)
    ensures db3 == Moved(ctx, db2, RunTask(FirstTask(spec, 1), draws, "")) && !Disjoint(db3)
  {
    FirstRun(ctx, db2, 1, draws, b);
    db3 := Moved(ctx, db2, RunTask(FirstTask(spec, 1), draws, ""));
    TwoOnOnePort(db3, a.row, b.row);
  }

  lemma ThreeMoves(move: Mover, m0: Move, m1: Move, m2: Move) returns (dbs: seq<Tables>)
    ensures |dbs| == 4 && IsSerial(move, dbs, [m0, m1, m2])
    ensures dbs[1] == move(EmptyTables, m0) && dbs[2] == move(dbs[1], m1) && dbs[3] == move(dbs[2], m2)
  {
    var db1 := move(EmptyTables, m0);
    var db2 := move(db1, m1);
    OneMoreMove(move, [EmptyTables], [], m0, db1);
    assert [EmptyTables] + [db1] == [EmptyTables, db1] && [] + [m0] == [m0];
    OneMoreMove(move, [EmptyTables, db1], [m0], m1, db2);
    assert [EmptyTables, db1] + [db2] == [EmptyTables, db1, db2] && [m0] + [m1] == [m0, m1];
    OneMoreMove(move, [EmptyTables, db1, db2], [m0, m1], m2, move(db2, m2));
    dbs := [EmptyTables, db1, db2] + [move(db2, m2)];
    assert [m0, m1] + [m2] == [m0, m1, m2];
  }

  /** When the first build of each config picks one and the same port, the second insert collides. */
  lemma SamePortTwice(ctx: Context, spec: Spec, draws: Draws, p: int, a: Stored, b: Stored) returns (dbs: seq<Tables>)
    requires a.row.port == p && b.row.port == p
    requires BuildVersion(ctx, spec, None, {}, draws) == Ok(a) && BuildVersion(ctx, spec, None, {p}, draws) == Ok(b)
    ensures IsSerial(MoverOf(ctx), dbs, BothBuilt(spec, draws)) && ListUsedPorts(dbs[2], 1) == {p} && !Disjoint(dbs[3])
  {
    var moves := BothBuilt(spec, draws);
    dbs := ThreeMoves(MoverOf(ctx), moves[0], moves[1], moves[2]);
    var db2 := FirstPicks(ctx, spec, draws, p, a);
    var db3 := SecondPicks(ctx, spec, draws, db2, a, b);
  }

  /** A pool with one port: no port is forced, but the second build has nothing else to pick, and the run
      ends with two configs on one port. */
  lemma FallbackCollides(certs: CertRules, e: Encryptor, p: int) returns (ctx: Context, draws: Draws, dbs: seq<Tables>)
    requires e.Valid()
    ensures draws.Valid() && IsSerial(MoverOf(ctx), dbs, BothBuilt(Office, draws)) && Office.profile in ctx.settings.profiles && !Disjoint(dbs[3])
    ensures PreferredPort(XrayGrpc, ctx.settings.profiles[Office.profile], None) == None
    ensures !HasUnblocked(ctx.settings.profiles[Office.profile].portCandidates, BlockedPorts(XrayGrpc, ctx.settings, ListUsedPorts(dbs[2], 1)))
  {
    StripClean("a.com");
    var plan := Plan(Some("a.com"), [p]);
    ctx, draws := Context(GrpcPanel(plan), certs, e), Drawing("id", 0);
    var a := OfficeVersion(ctx, plan, None, {}, "id", 0);
    var b := OfficeVersion(ctx, plan, None, {p}, "id", 0);
    dbs := SamePortTwice(ctx, Office, draws, p, BuildVersion(ctx, Office, None, {}, draws).value, BuildVersion(ctx, Office, None, {p}, draws).value);
  }

  /** Hysteria2 with an advertised port: another candidate is free, but both builds are forced onto the
      advertised one, and the run ends with two configs on one port. */
  lemma ForcedPortCollides(certs: CertRules, e: Encryptor, p: int, other: int) returns (ctx: Context, draws: Draws, dbs: seq<Tables>)
    requires other != p && other != 8080
    ensures draws.Valid() && IsSerial(MoverOf(ctx), dbs, BothBuilt(Hall, draws)) && Hall.profile in ctx.settings.profiles && !Disjoint(dbs[3])
    ensures HasUnblocked(ctx.settings.profiles[Hall.profile].portCandidates, BlockedPorts(Hysteria2, ctx.settings, ListUsedPorts(dbs[2], 1)))
  {
    ctx, draws := Context(HallPanel(p, other), certs, e), Drawing("id", 0);
    var a := HallVersion(ctx, p, other, {}, 0);
    var b := HallVersion(ctx, p, other, {p}, 0);
    dbs := SamePortTwice(ctx, Hall, draws, p, BuildVersion(ctx, Hall, None, {}, draws).value, BuildVersion(ctx, Hall, None, {p}, draws).value);
    assert other in ctx.settings.profiles[Hall.profile].portCandidates;
  }
}
