/** Database sessions and the repositories that change rows through them
    (panel/infrastructure/persistence/repositories/vpn_config.py, share_token.py). */
module Repository {
  import opened Wrappers
  import opened JsonTree
  import opened Store
  import opened ShareExpiry

  class Database {
    var rows: Tables

    constructor ()
      ensures rows == EmptyTables
    {
      rows := EmptyTables;
    }
  }

  /** One transaction: it works on its own copy until it commits. */
  class Session {
    const db: Database
    var work: Tables

    constructor (db: Database)
      ensures this.db == db && work == db.rows
    {
      this.db := db;
      work := db.rows;
    }

    method Commit()
      modifies db
      ensures db.rows == work
    {
      db.rows := work;
    }

    method Rollback()
      modifies this
      ensures work == db.rows
    {
      work := db.rows;
    }
  }

  class VpnConfigRepository {
    const session: Session

    constructor (session: Session)
      ensures this.session == session
    {
      this.session := session;
    }

    method GetModel(c: ConfigId, activeOnly: bool) returns (model: Option<ConfigRow>)
      ensures model.Some? <==> c in session.work.configs && (activeOnly ==> session.work.configs[c].isActive)
      ensures model.Some? ==> model.value == session.work.configs[c]
    {
      if c in session.work.configs && (!activeOnly || session.work.configs[c].isActive) {
        return Some(session.work.configs[c]);
      }
      return None;
    }

    method Save(c: ConfigId, model: ConfigRow)
      modifies session
      ensures session.work == WithConfig(old(session.work), c, model)
    {
      session.work := session.work.(configs := session.work.configs[c := model]);
    }

    method SoftDelete(c: ConfigId) returns (found: bool)
      modifies session
      ensures found == Store.SoftDelete(old(session.work), c).Ok?
      ensures session.work == Store.SoftDelete(old(session.work), c).GetOr(old(session.work))
    {
      var model := GetModel(c, true);
      if model.None? { return false; }
      Save(c, model.value.(isActive := false));
      return true;
    }

    method CreatePending(c: ConfigId, spec: Spec) returns (row: ConfigRow)
      requires c !in session.work.configs
      modifies session
      ensures row == ConfigRow(spec, Pending, None, None, true, None)
      ensures session.work == WithConfig(old(session.work), c, row)
    {
      row := ConfigRow(spec, Pending, None, None, true, None);
      Save(c, row);
    }

    method SetLastTaskId(c: ConfigId, taskId: nat) returns (r: Result<()>)
      modifies session
      ensures r.Ok? <==> IsLive(old(session.work), c)
      ensures session.work == if r.Ok? then WithConfig(old(session.work), c, old(session.work).configs[c].(lastTask := Some(taskId)))
                              else old(session.work)
    {
      var model := GetModel(c, true);
      if model.None? { return Raised; }
      Save(c, model.value.(lastTask := Some(taskId)));
      return Ok(());
    }

    method MarkProcessing(c: ConfigId) returns (r: Result<()>)
      modifies session
      ensures r.Ok? == Store.MarkProcessing(old(session.work), c).Ok?
      ensures session.work == Store.MarkProcessing(old(session.work), c).GetOr(old(session.work))
    {
      var model := GetModel(c, false);
      if model.None? { return Raised; }
      Save(c, model.value.(status := Processing, error := None));
      return Ok(());
    }

    method MarkActive(c: ConfigId, version: Version) returns (r: Result<()>)
      modifies session
      ensures r.Ok? == Store.MarkActive(old(session.work), c, version).Ok?
      ensures session.work == Store.MarkActive(old(session.work), c, version).GetOr(old(session.work))
    {
      var model := GetModel(c, false);
      if model.None? { return Raised; }
      Save(c, model.value.(status := Active, current := Some(version), error := None));
      return Ok(());
    }

    method MarkFailed(c: ConfigId, message: string) returns (r: Result<()>)
      modifies session
      ensures r.Ok? == Store.MarkFailed(old(session.work), c, message).Ok?
      ensures session.work == Store.MarkFailed(old(session.work), c, message).GetOr(old(session.work))
    {
      var model := GetModel(c, false);
      if model.None? { return Raised; }
      var text := if |message| <= MAX_ERROR_MESSAGE then message else message[..MAX_ERROR_MESSAGE];
      Save(c, model.value.(status := Failed, error := Some(text)));
      return Ok(());
    }

    method HasVersion(c: ConfigId, version: Version) returns (found: bool)
      ensures found <==> (c, version) in session.work.versions
    {
      return (c, version) in session.work.versions;
    }

    method InsertVersion(c: ConfigId, version: Version, row: VersionRow) returns (r: Result<()>)
      modifies session
      ensures r.Ok? == Store.InsertVersion(old(session.work), c, version, row).Ok?
      ensures session.work == Store.InsertVersion(old(session.work), c, version, row).GetOr(old(session.work))
    {
      if (c, version) in session.work.versions { return Raised; }
      session.work := session.work.(versions := session.work.versions[(c, version) := row]);
      return Ok(());
    }

    /** Only the document and the port of a version row can ever change. */
    method UpdateVersionConfigData(c: ConfigId, version: Version, data: Json, port: int) returns (r: Result<()>)
      modifies session
      ensures r.Ok? == Store.UpdateVersionConfigData(old(session.work), c, version, data, port).Ok?
      ensures session.work == Store.UpdateVersionConfigData(old(session.work), c, version, data, port).GetOr(old(session.work))
    {
      var model := GetModel(c, true);
      if model.None? { return Raised; }
      if (c, version) !in session.work.versions { return Raised; }
      var row := session.work.versions[(c, version)];
      row := row.(data := data);
      row := row.(port := port);
      session.work := session.work.(versions := session.work.versions[(c, version) := row]);
      return Ok(());
    }

    method PrepareRegenerate(c: ConfigId) returns (r: Result<()>)
      modifies session
      ensures r.Ok? == Store.PrepareRegenerate(old(session.work), c).Ok?
      ensures session.work == Store.PrepareRegenerate(old(session.work), c).GetOr(old(session.work))
    {
      var model := GetModel(c, true);
      if model.None? || model.value.current.None? || IsBusy(model.value.status) { return Raised; }
      Save(c, model.value.(status := Pending, error := None));
      return Ok(());
    }

    /** Profile, name and the version after the current one. */
    method GetRegenerateContext(c: ConfigId) returns (r: Result<(Profile, string, Version)>)
      ensures r.Ok? <==> IsLive(session.work, c) && session.work.configs[c].current.Some?
      ensures r.Ok? ==> var row := session.work.configs[c]; r.value == (row.spec.profile, row.spec.name, row.current.value + 1)
    {
      var model := GetModel(c, true);
      if model.None? || model.value.current.None? { return Raised; }
      return Ok((model.value.spec.profile, model.value.spec.name, model.value.current.value + 1));
    }

    method GetVersionSnapshot(c: ConfigId, version: Version) returns (s: Option<Snapshot>)
      ensures s == GetSnapshot(session.work, c, version)
    {
      var model := GetModel(c, false);
      if model.None? || (c, version) !in session.work.versions { return None; }
      var spec := model.value.spec;
      return Some(Snapshot(spec.profile, spec.name, spec.publicHost, version, session.work.versions[(c, version)]));
    }

    method ListUsedPorts(exclude: ConfigId) returns (ports: set<int>)
      ensures ports == Store.ListUsedPorts(session.work, exclude)
    {
      return set key | key in session.work.versions && key.0 != exclude :: session.work.versions[key].port;
    }
  }

  /** The token after one more successful use, and after its revocation. */
  function Accessed(t: Token, now: int): Token
  {
    t.(lastAccess := Some(now), accessCount := t.accessCount + 1)
  }

  class ShareTokenRepository {
    const session: Session

    constructor (session: Session)
      ensures this.session == session
    {
      this.session := session;
    }

    method Save(hash: string, token: Token)
      modifies session
      ensures session.work == old(session.work).(tokens := old(session.work).tokens[hash := token])
    {
      session.work := session.work.(tokens := session.work.tokens[hash := token]);
    }

    /** The hash is unique, so a second insert raises. */
    method Create(hash: string, pin: Option<(ConfigId, Version)>, secure: bool, expiry: Expiration) returns (r: Result<()>)
      modifies session
      ensures r.Ok? <==> hash !in old(session.work).tokens
      ensures r.Raised? ==> session.work == old(session.work)
      ensures r.Ok? ==> session.work == old(session.work).(tokens := old(session.work).tokens[hash := NewToken(pin, secure, expiry)])
    {
      if hash in session.work.tokens { return Raised; }
      Save(hash, NewToken(pin, secure, expiry));
      return Ok(());
    }

    /** Revoking happens once; a second attempt finds nothing to do. */
    method RevokeByTokenHash(hash: string, now: int) returns (done: bool)
      modifies session
      ensures done <==> hash in old(session.work).tokens && old(session.work).tokens[hash].revokedAt.None?
      ensures !done ==> session.work == old(session.work)
      ensures done ==> var t := old(session.work).tokens[hash].(revokedAt := Some(now));
                       session.work == old(session.work).(tokens := old(session.work).tokens[hash := t])
    {
      if hash !in session.work.tokens || session.work.tokens[hash].revokedAt.Some? { return false; }
      Save(hash, session.work.tokens[hash].(revokedAt := Some(now)));
      return true;
    }

    method RecordAccess(hash: string, now: int)
      modifies session
      ensures hash !in old(session.work).tokens ==> session.work == old(session.work)
      ensures hash in old(session.work).tokens ==>
                session.work == old(session.work).(tokens := old(session.work).tokens[hash := Accessed(old(session.work).tokens[hash], now)])
    {
      if hash !in session.work.tokens { return; }
      var t := session.work.tokens[hash];
      t := t.(lastAccess := Some(now));
      t := t.(accessCount := t.accessCount + 1);
      Save(hash, t);
    }
  }

  function NewToken(pin: Option<(ConfigId, Version)>, secure: bool, expiry: Expiration): Token
  {
    Token(if pin.Some? then Some(pin.value.0) else None, if pin.Some? then Some(pin.value.1) else None, secure,
          expiry.isPermanent, expiry.expiresAt, None, None, 0)
  }
}
