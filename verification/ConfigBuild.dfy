/** One version from its predecessor to its stored row
    (panel/worker/services/config_build.py). */
module ConfigBuild {
  import opened Wrappers
  import opened JsonTree
  import opened FieldCrypto
  import opened Store
  import opened Settings
  import opened ConfigBuilder

  /** `RegeneratePolicy.for_profile` (domain/value_objects/regenerate_policy.py). */
  function DefaultPolicy(profile: Profile, ps: ProfileSettings): Policy
  {
    var forced := profile.Hysteria2? && ps.sharePublicPort.Some? && ps.sharePublicPort.value in ps.portCandidates;
    Policy(
      rotatePort := !forced,
      rotateClientId := !profile.Hysteria2?,
      rotateRealityKeys := profile.XrayReality?,
      rotateShortIds := profile.XrayReality?,
      rotateDest := profile.XrayReality?,
      rotatePath := profile.XrayReality? || profile.XrayXhttp?,
      rotateServiceName := false,
      rotateTls := profile.XrayReality? || !ps.externalTls,
      rotateAuth := false,
      rotateObfs := false)
  }

  /** What a build is given besides the stored rows. */
  datatype Context = Context(settings: PanelSettings, certs: CertRules, encryptor: Encryptor)

  function ResolvedPolicy(ctx: Context, spec: Spec): Policy
    requires spec.profile in ctx.settings.profiles
  {
    spec.policy.GetOr(DefaultPolicy(spec.profile, ctx.settings.profiles[spec.profile]))
  }

  /** The stored document with its sensitive leaves decrypted. */
  function PlainConfig(e: Encryptor, profile: Profile, row: VersionRow): Result<Json>
  {
    DecryptFields(row.data, SensitiveFields(profile), e)
  }

  function PlainKey(e: Encryptor, row: VersionRow): Result<string>
  {
    if row.privateKey == "" then Ok("") else e.decrypt(row.privateKey)
  }

  function ReadPrevious(e: Encryptor, profile: Profile, row: VersionRow): Result<Previous>
  {
    var key :- PlainKey(e, row);
    var plain :- PlainConfig(e, profile, row);
    PreviousForRegenerate(profile, plain, key, row.publicKey, row.fingerprint)
  }

  /** The SNI and service name of the tagged inbound of the previous version. */
  function PreferredGrpc(plain: Json, tag: string): Result<(Json, Json)>
  {
    var items :- Inbounds(plain);
    match FindTag(items, tag)
    case Raised => Ok((Null, Null))
    case Ok(k) => GrpcNames(items[k])
  }

  function GrpcNames(inbound: Json): Result<(Json, Json)>
  {
    var stream :- GetOr(inbound, "streamSettings", Obj(map[]));
    var tls :- GetOr(stream, "tlsSettings", Obj(map[]));
    var sni :- GetOr(tls, "serverName", Null);
    var grpc :- GetOr(stream, "grpcSettings", Obj(map[]));
    var service :- GetOr(grpc, "serviceName", Null);
    Ok((sni, service))
  }

  function ReadGrpc(e: Encryptor, profile: Profile, row: VersionRow, tag: string): Result<(Json, Json)>
  {
    if !profile.XrayGrpc? then Ok((Null, Null))
    else
      var plain :- PlainConfig(e, profile, row);
      PreferredGrpc(plain, tag)
  }

  datatype Stored = Stored(row: VersionRow, files: Written)

  function OrderFor(ctx: Context, spec: Spec, previous: Option<Previous>, draws: Draws): Order
    requires spec.profile in ctx.settings.profiles
  {
    Order(ctx.settings, ctx.settings.profiles[spec.profile], Stripped(spec.publicHost), previous,
          ResolvedPolicy(ctx, spec), draws, ctx.certs)
  }

  /** Ports the new version must avoid, and the one it would keep. */
  function ExcludedPorts(used: set<int>, policy: Policy, previous: Option<VersionRow>): set<int>
  {
    if previous.Some? && policy.rotatePort then used + {previous.value.port} else used
  }

  function KeptPort(policy: Policy, previous: Option<VersionRow>): Option<int>
  {
    if previous.Some? && !policy.rotatePort then Some(previous.value.port) else None
  }

  /** The two reads of the predecessor; a first version has none. */
  function ReadBack(ctx: Context, spec: Spec, previous: Option<VersionRow>): Result<(Option<Previous>, (Json, Json))>
    requires spec.profile in ctx.settings.profiles
  {
    if previous.None? then Ok((None, (Null, Null)))
    else
      var secrets :- ReadPrevious(ctx.encryptor, spec.profile, previous.value);
      var grpc :- ReadGrpc(ctx.encryptor, spec.profile, previous.value, ctx.settings.profiles[spec.profile].inboundTag);
      Ok((Some(secrets), grpc))
  }

  function Persist(ctx: Context, profile: Profile, port: int, built: Built, files: Written, nonce: nat): VersionRow
  {
    VersionRow(
      port,
      if built.privateKey == "" then "" else ctx.encryptor.encrypt(built.privateKey, nonce),
      built.publicKey,
      if built.fingerprint != "" then built.fingerprint else ctx.certs.digest(built.publicKey),
      EncryptFields(files.config, SensitiveFields(profile), ctx.encryptor, nonce + 1))
  }

  function BuildVersion(ctx: Context, spec: Spec, previous: Option<VersionRow>, used: set<int>, draws: Draws): Result<Stored>
  {
    if spec.profile !in ctx.settings.profiles then Raised
    else
      var ps := ctx.settings.profiles[spec.profile];
      var policy := ResolvedPolicy(ctx, spec);
      var back :- ReadBack(ctx, spec, previous);
      var o := OrderFor(ctx, spec, back.0, draws);
      var picked :- PickListeningPort(spec.profile, o, ExcludedPorts(used, policy, previous), KeptPort(policy, previous));
      var built :- Build(spec.profile, o, picked, back.1.0, back.1.1);
      var port :- ListeningPort(spec.profile, built.config, ps);
      var files :- WriteFiles(spec.profile, ctx.settings, ps, built, draws);
      Ok(Stored(Persist(ctx, spec.profile, port, built, files, draws.nonce), files))
  }
}
