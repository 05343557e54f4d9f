/** The API requests that change rows, as the panel executes them (panel/application/create_config.py,
    regenerate_config.py, update_config_data.py, create_share_link.py). */
module UseCases {
  import opened Wrappers
  import opened JsonTree
  import opened FieldCrypto
  import opened Store
  import opened Settings
  import opened ShareExpiry
  import opened ConfigBuilder
  import opened ConfigBuild
  import Lifecycle
  import RegenerateAll
  import opened Repository

  type Task = Lifecycle.Task

  /** The task broker. A task may only be published once the rows it needs are committed: its config, and
      for a later version a current version just before it. */
  class Broker {
    const db: Database
    var published: set<Task>
    var count: nat

    constructor (db: Database)
      ensures this.db == db && published == {} && count == 0
    {
      this.db := db;
      published, count := {}, 0;
    }

    method PublishTask(task: Task) returns (taskId: nat)
      requires task.config in db.rows.configs && db.rows.configs[task.config].status.Pending?
      requires task.target == 1 + (if db.rows.configs[task.config].current.Some? then db.rows.configs[task.config].current.value else 0)
      modifies this
      ensures published == old(published) + {task} && taskId == old(count) && count == old(count) + 1
    {
      taskId := count;
      published := published + {task};
      count := count + 1;
    }
  }

  class ConfigApi {
    const ctx: Context
    const session: Session
    const configs: VpnConfigRepository
    const shares: ShareTokenRepository
    const broker: Broker

    ghost predicate Valid()
      reads this, session, session.db
    {
      && configs.session == session && shares.session == session && broker.db == session.db
      && session.work == session.db.rows
    }

    constructor (ctx: Context, session: Session, configs: VpnConfigRepository, shares: ShareTokenRepository, broker: Broker)
      requires configs.session == session && shares.session == session && broker.db == session.db && session.work == session.db.rows
      ensures Valid() && this.ctx == ctx && this.session == session && this.broker == broker
    {
      this.ctx, this.session, this.configs, this.shares, this.broker := ctx, session, configs, shares, broker;
    }

    /** The settings of a new config: its policy is the requested one, else the profile's. */
    function NewSpec(name: string, profile: Profile, host: Option<string>, policy: Option<Policy>): Spec
      requires profile in ctx.settings.profiles
    {
      Spec(name, profile, Stripped(host), Some(policy.GetOr(DefaultPolicy(profile, ctx.settings.profiles[profile]))))
    }

    /** The pending row is committed before the task for version 1 is published. */
    method CreateConfig(c: ConfigId, name: string, profile: Profile, host: Option<string>, policy: Option<Policy>) returns (r: Result<nat>)
      requires Valid() && c !in session.work.configs
      modifies session, session.db, broker
      ensures Valid()
      ensures r.Ok? <==> profile in ctx.settings.profiles
      ensures r.Raised? ==> session.db.rows == old(session.db.rows) && broker.published == old(broker.published)
      ensures r.Ok? ==>
                && broker.published == old(broker.published) + {Lifecycle.Task(c, profile, name, 1)}
                && session.db.rows == WithConfig(old(session.db.rows), c,
                                                 ConfigRow(NewSpec(name, profile, host, policy), Pending, None, None, true, Some(r.value)))
    {
      if profile !in ctx.settings.profiles { return Raised; }
      var row := configs.CreatePending(c, NewSpec(name, profile, host, policy));
      session.Commit();
      var taskId := broker.PublishTask(Lifecycle.Task(c, profile, name, 1));
      var recorded := configs.SetLastTaskId(c, taskId);
      session.Commit();
      assert session.db.rows.configs == old(session.db.rows).configs[c := row.(lastTask := Some(taskId))];
      return Ok(taskId);
    }

    /** The guard, the commit of the pending status, the publication of the next version's task, and a
        second commit that records the task. */
    method RegenerateConfig(c: ConfigId) returns (r: Result<nat>)
      requires Valid()
      modifies session, session.db, broker
      ensures Valid()
      ensures r.Ok? <==> RegenerateAll.Regenerable(old(session.db.rows), c)
      ensures r.Raised? ==> session.db.rows == old(session.db.rows) && broker.published == old(broker.published)
      ensures r.Ok? ==> var after := RegenerateAll.RegenerateConfig(old(session.db.rows), c, r.value).value;
                        session.db.rows == after.0 && broker.published == old(broker.published) + {after.1}
    {
      var config := configs.GetModel(c, true);
      if config.None? || config.value.current.None? || IsBusy(config.value.status) { return Raised; }
      var prepared := configs.PrepareRegenerate(c);
      if prepared.Raised? { return Raised; }
      var context := configs.GetRegenerateContext(c);
      assert context.Ok?;
      session.Commit();
      var (profile, name, target) := context.value;
      var taskId := broker.PublishTask(Lifecycle.Task(c, profile, name, target));
      var recorded := configs.SetLastTaskId(c, taskId);
      session.Commit();
      return Ok(taskId);
    }

    /** The only request that rewrites a version row: the current one, while the config is not busy. The
        stored document decrypts to exactly the given one, and the port is the one it listens on, or the
        old port when it names none. Key, certificate and fingerprint stay. */
    method UpdateConfigData(c: ConfigId, parsed: Json, nonce: nat, filesWritten: bool) returns (r: Result<Version>)
      requires Valid() && ctx.encryptor.Valid()
      modifies session, session.db
      ensures Valid()
      ensures r.Raised? ==> session.db.rows == old(session.db.rows)
      ensures r.Ok? ==>
                && IsLive(old(session.db.rows), c) && !IsBusy(old(session.db.rows).configs[c].status)
                && old(session.db.rows).configs[c].current == Some(r.value) && (c, r.value) in old(session.db.rows).versions
                && (c, r.value) in session.db.rows.versions
                && var profile := old(session.db.rows).configs[c].spec.profile;
                   var before, row := old(session.db.rows).versions[(c, r.value)], session.db.rows.versions[(c, r.value)];
                   && profile in ctx.settings.profiles
                   && session.db.rows == old(session.db.rows).(versions := old(session.db.rows).versions[(c, r.value) := row])
                   && PlainConfig(ctx.encryptor, profile, row) == Ok(parsed)
                   && row == before.(data := row.data, port := row.port)
                   && row.port == ListeningPort(profile, parsed, ctx.settings.profiles[profile]).GetOr(before.port)
    {
      var config := configs.GetModel(c, true);
      if config.None? || config.value.current.None? || IsBusy(config.value.status) { return Raised; }
      var version := config.value.current.value;
      var snapshot := configs.GetVersionSnapshot(c, version);
      if snapshot.None? || snapshot.value.profile !in ctx.settings.profiles { return Raised; }
      if !Truthy(parsed) || !parsed.Obj? { return Raised; }
      var profile := snapshot.value.profile;
      var port := snapshot.value.row.port;
      var listening := ListeningPort(profile, parsed, ctx.settings.profiles[profile]);
      if listening.Ok? {
        port := listening.value;
      }
      var stored := EncryptConfigDataFields(parsed, SensitiveFields(profile), ctx.encryptor, nonce);
      RoundTrip(parsed, SensitiveFields(profile), ctx.encryptor, nonce);
      var updated := configs.UpdateVersionConfigData(c, version, stored, port);
      if updated.Raised? || !filesWritten {
        session.Rollback();
        return Raised;
      }
      session.Commit();
      return Ok(version);
    }

    /** A link to one config pins the version that is current while the config is active. */
    method CreateShareLink(hash: string, c: ConfigId, secure: bool, isPermanent: bool, expiresAt: Option<int>, ttlSeconds: Option<int>, now: int)
      returns (r: Result<Version>)
      requires Valid()
      modifies session, session.db
      ensures Valid()
      ensures r.Raised? ==> session.db.rows == old(session.db.rows)
      ensures var expiry := ResolveShareExpiration(isPermanent, expiresAt, ttlSeconds, now);
              && (r.Ok? <==> expiry.Ok? && IsLive(old(session.db.rows), c) && old(session.db.rows).configs[c].current.Some?
                             && old(session.db.rows).configs[c].status.Active? && hash !in old(session.db.rows).tokens)
              && (r.Ok? ==>
                    && old(session.db.rows).configs[c].current == Some(r.value)
                    && session.db.rows == old(session.db.rows).(tokens :=
                         old(session.db.rows).tokens[hash := NewToken(Some((c, r.value)), secure, expiry.value)]))
      ensures r.Ok? ==> ShareExpiry.WellFormed(session.db.rows.tokens[hash]) && Accepted(session.db.rows.tokens[hash], now)
    {
      var expiration :- ResolveShareExpiration(isPermanent, expiresAt, ttlSeconds, now);
      ExpirationWellFormed(isPermanent, expiresAt, ttlSeconds, now);
      var config := configs.GetModel(c, true);
      if config.None? || config.value.current.None? || !config.value.status.Active? { return Raised; }
      var version := config.value.current.value;
      var created := shares.Create(hash, Some((c, version)), secure, expiration);
      if created.Raised? { return Raised; }
      session.Commit();
      return Ok(version);
    }
  }
}
