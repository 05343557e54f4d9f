/** The rows of the database and what the repositories do to them
    (panel/infrastructure/persistence/models.py and repositories/vpn_config.py). */
module Store {
  import opened Wrappers
  import opened JsonTree

  type ConfigId = nat
  type Version = int

  datatype Profile = XrayReality | XrayGrpc | XrayXhttp | Hysteria2

  datatype Status = Pending | Processing | Active | Failed

  datatype Policy = Policy(
    rotatePort: bool,
    rotateClientId: bool,
    rotateRealityKeys: bool,
    rotateShortIds: bool,
    rotateDest: bool,
    rotatePath: bool,
    rotateServiceName: bool,
    rotateTls: bool,
    rotateAuth: bool,
    rotateObfs: bool)

  /** The part of a config row that a build and a share link read. */
  datatype Spec = Spec(name: string, profile: Profile, publicHost: Option<string>, policy: Option<Policy>)

  datatype ConfigRow = ConfigRow(
    spec: Spec,
    status: Status,
    current: Option<Version>,
    error: Option<string>,
    isActive: bool,
    lastTask: Option<nat>)

  datatype VersionRow = VersionRow(
    port: int,
    privateKey: string,
    publicKey: string,
    fingerprint: string,
    data: Json)

  /** A share link. Pinned links carry a config and a version, all-configs links neither. */
  datatype Token = Token(
    config: Option<ConfigId>,
    version: Option<Version>,
    secure: bool,
    isPermanent: bool,
    expiresAt: Option<int>,
    revokedAt: Option<int>,
    lastAccess: Option<int>,
    accessCount: nat)

  /** The committed rows; `versions` is keyed by the unique pair (config_id, version). */
  datatype Tables = Tables(
    configs: map<ConfigId, ConfigRow>,
    versions: map<(ConfigId, Version), VersionRow>,
    tokens: map<string, Token>)

  const EmptyTables := Tables(map[], map[], map[])

  function WithConfig(db: Tables, c: ConfigId, row: ConfigRow): Tables
  {
    db.(configs := db.configs[c := row])
  }

  function MarkProcessing(db: Tables, c: ConfigId): Result<Tables>
  {
    if c !in db.configs then Raised
    else Ok(WithConfig(db, c, db.configs[c].(status := Processing, error := None)))
  }

  function MarkActive(db: Tables, c: ConfigId, version: Version): Result<Tables>
  {
    if c !in db.configs then Raised
    else Ok(WithConfig(db, c, db.configs[c].(status := Active, current := Some(version), error := None)))
  }

  const MAX_ERROR_MESSAGE := 2000

  function MarkFailed(db: Tables, c: ConfigId, message: string): Result<Tables>
  {
    if c !in db.configs then Raised
    else
      var text := if |message| <= MAX_ERROR_MESSAGE then message else message[..MAX_ERROR_MESSAGE];
      Ok(WithConfig(db, c, db.configs[c].(status := Failed, error := Some(text))))
  }

  /** The unique key makes a second insert of a version raise. */
  function InsertVersion(db: Tables, c: ConfigId, version: Version, row: VersionRow): Result<Tables>
  {
    if (c, version) in db.versions then Raised
    else Ok(db.(versions := db.versions[(c, version) := row]))
  }

  function IsLive(db: Tables, c: ConfigId): bool
  {
    c in db.configs && db.configs[c].isActive
  }

  function UpdateVersionConfigData(db: Tables, c: ConfigId, version: Version, data: Json, port: int): Result<Tables>
  {
    if !IsLive(db, c) || (c, version) !in db.versions then Raised
    else Ok(db.(versions := db.versions[(c, version) := db.versions[(c, version)].(data := data, port := port)]))
  }

  predicate IsBusy(status: Status)
  {
    status.Pending? || status.Processing?
  }

  function PrepareRegenerate(db: Tables, c: ConfigId): Result<Tables>
  {
    if !IsLive(db, c) || db.configs[c].current.None? || IsBusy(db.configs[c].status) then Raised
    else Ok(WithConfig(db, c, db.configs[c].(status := Pending, error := None)))
  }

  function SoftDelete(db: Tables, c: ConfigId): Result<Tables>
  {
    if !IsLive(db, c) then Raised else Ok(WithConfig(db, c, db.configs[c].(isActive := false)))
  }

  /** A version row with the config columns a reader needs; soft-deleted configs are still found. */
  datatype Snapshot = Snapshot(profile: Profile, name: string, publicHost: Option<string>, version: Version, row: VersionRow)

  function GetSnapshot(db: Tables, c: ConfigId, version: Version): Option<Snapshot>
  {
    if c in db.configs && (c, version) in db.versions then
      var spec := db.configs[c].spec;
      Some(Snapshot(spec.profile, spec.name, spec.publicHost, version, db.versions[(c, version)]))
    else None
  }

  function VersionsOf(db: Tables, c: ConfigId): set<Version>
  {
    set key | key in db.versions && key.0 == c :: key.1
  }

  /** Ports of every version of every other config, deleted ones included. */
  function ListUsedPorts(db: Tables, exclude: ConfigId): set<int>
  {
    set key | key in db.versions && key.0 != exclude :: db.versions[key].port
  }
}
