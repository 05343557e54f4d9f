/** What a regeneration keeps besides the fields of the tagged inbound: keys, certificates, the
    port, Hysteria2 passwords and the gRPC names. */
module RegenerateKept {
  import opened Wrappers
  import opened Text
  import opened JsonTree
  import opened FieldCrypto
  import opened PortPicker
  import opened Store
  import opened Settings
  import opened ConfigBuilder
  import opened ConfigBuild
  import opened BuilderViews
  import opened Regenerate
  import opened RegenerateChain

  /** The pieces of a build behind a row. */
  lemma Unfold(ctx: Context, spec: Spec, previous: Option<VersionRow>, row: VersionRow)
    returns (used: set<int>, draws: Draws, stored: Stored, o: Order, built: Built)
    requires Builds(ctx, spec, previous, row)
    ensures draws.Valid() && stored.row == row
    ensures BuildParts(ctx, spec, previous, used, draws, stored, o, built)
  {
    var used': set<int>, draws': Draws, files: Written :|
      draws'.Valid() && BuildVersion(ctx, spec, previous, used', draws') == Ok(Stored(row, files));
    used, draws, stored := used', draws', Stored(row, files);
    o, built := Parts(ctx, spec, previous, used, draws, stored);
  }

  predicate Known(ctx: Context, spec: Spec)
  {
    spec.profile in ctx.settings.profiles
  }

  ghost function HostOf(ctx: Context, spec: Spec): string
  {
    if Known(ctx, spec) then ShareHost(ctx.settings, ctx.settings.profiles[spec.profile], Stripped(spec.publicHost)) else ""
  }

  /** A pinned host wins over the list of hosts. */
  predicate Pinned(ctx: Context, spec: Spec)
    requires Known(ctx, spec)
  {
    Strip(FirstTruthy(Stripped(spec.publicHost), ctx.settings.profiles[spec.profile].sharePublicHost)) != ""
  }

  // ---- The port ----

  lemma PortIsCandidate(ctx: Context, spec: Spec, previous: Option<VersionRow>, row: VersionRow)
    requires Builds(ctx, spec, previous, row)
    ensures spec.profile in ctx.settings.profiles && row.port in ctx.settings.profiles[spec.profile].portCandidates
  {
    var used, draws, stored, o, built := Unfold(ctx, spec, previous, row);
    PickedIsCandidate(ctx, spec, previous, used, draws, stored, o, built);
  }

  /** With the port flag off, a port that is still a candidate is kept, even if it is taken. */
  lemma PortKept(ctx: Context, spec: Spec, rowA: VersionRow, rowB: VersionRow)
    requires Builds(ctx, spec, Some(rowA), rowB)
    requires spec.profile in ctx.settings.profiles && !ResolvedPolicy(ctx, spec).rotatePort
    requires rowA.port in ctx.settings.profiles[spec.profile].portCandidates
    ensures rowB.port == rowA.port
  {
    var used, draws, stored, o, built := Unfold(ctx, spec, Some(rowA), rowB);
    BuiltListens(ctx, spec, Some(rowA), used, draws, stored, o, built);
    PickPortMeaning(o.profile.portCandidates, BlockedPorts(spec.profile, o.settings, ExcludedPorts(used, o.policy, Some(rowA))), draws.free,
                    spec.profile.Hysteria2?, PreferredPort(spec.profile, o.profile, KeptPort(o.policy, Some(rowA))), draws.portDraw);
  }

  /** With the port flag on, the port changes whenever some candidate is neither blocked nor the old
      port, unless Hysteria2 is forced onto its advertised port. */
  lemma PortRotates(ctx: Context, spec: Spec, rowA: VersionRow, used: set<int>, draws: Draws, stored: Stored)
    requires draws.Valid() && BuildVersion(ctx, spec, Some(rowA), used, draws) == Ok(stored)
    requires spec.profile in ctx.settings.profiles && ResolvedPolicy(ctx, spec).rotatePort
    ensures var ps := ctx.settings.profiles[spec.profile];
            var blocked := BlockedPorts(spec.profile, ctx.settings, used + {rowA.port});
            && (UsesPreferred(ps.portCandidates, PreferredPort(spec.profile, ps, None)) ==> stored.row.port == ps.sharePublicPort.value)
            && (!UsesPreferred(ps.portCandidates, PreferredPort(spec.profile, ps, None)) && HasUnblocked(ps.portCandidates, blocked) ==>
                 stored.row.port !in blocked && stored.row.port != rowA.port)
  {
    var o, built := Parts(ctx, spec, Some(rowA), used, draws, stored);
    BuiltListens(ctx, spec, Some(rowA), used, draws, stored, o, built);
    PickPortMeaning(o.profile.portCandidates, BlockedPorts(spec.profile, o.settings, used + {rowA.port}), draws.free,
                    spec.profile.Hysteria2?, PreferredPort(spec.profile, o.profile, None), draws.portDraw);
  }

  // ---- Reality keys ----

  ghost predicate HasKeys(ctx: Context, row: VersionRow)
  {
    PlainKey(ctx.encryptor, row).Ok? && PlainKey(ctx.encryptor, row).value != "" && row.publicKey != ""
  }

  /** What a build sees of the row before it. */
  lemma SeenKeys(ctx: Context, spec: Spec, row: VersionRow)
    requires spec.profile in ctx.settings.profiles && ReadBack(ctx, spec, Some(row)).Ok?
    ensures var p := ReadBack(ctx, spec, Some(row)).value.0;
            && p.Some? && PlainKey(ctx.encryptor, row).Ok?
            && p.value.privateKey == NonEmpty(PlainKey(ctx.encryptor, row).value)
            && p.value.publicKey == NonEmpty(row.publicKey)
            && (!spec.profile.XrayReality? ==> p.value.fingerprint == NonEmpty(row.fingerprint))
  {
  }

  lemma RealityBuildKeys(o: Order, port: int, sni: Json, service: Json)
    requires Build(XrayReality, o, port, sni, service).Ok?
    ensures var b := Build(XrayReality, o, port, sni, service).value;
            (b.privateKey, b.publicKey) == RealityKeys(o)
  {
  }

  /** The key columns of a Reality row, with the order it was built to. */
  lemma RealityRow(ctx: Context, spec: Spec, previous: Option<VersionRow>, row: VersionRow) returns (o: Order)
    requires ctx.encryptor.Valid() && spec.profile.XrayReality? && Builds(ctx, spec, previous, row)
    ensures spec.profile in ctx.settings.profiles && o.policy == ResolvedPolicy(ctx, spec) && o.draws.Valid()
    ensures PlainKey(ctx.encryptor, row) == Ok(RealityKeys(o).0) && row.publicKey == RealityKeys(o).1
    ensures previous.None? ==> o.previous.None?
    ensures previous.Some? ==>
              && o.previous.Some? && PlainKey(ctx.encryptor, previous.value).Ok?
              && o.previous.value.privateKey == NonEmpty(PlainKey(ctx.encryptor, previous.value).value)
              && o.previous.value.publicKey == NonEmpty(previous.value.publicKey)
  {
    var used, draws, stored, built;
    used, draws, stored, o, built := Unfold(ctx, spec, previous, row);
    var back := ReadBack(ctx, spec, previous).value;
    var picked := PickListeningPort(spec.profile, o, ExcludedPorts(used, o.policy, previous), KeptPort(o.policy, previous)).value;
    RealityBuildKeys(o, picked, back.1.0, back.1.1);
    KeyReadsBack(ctx, spec, previous, used, draws, stored, o, built);
    if previous.Some? {
      SeenKeys(ctx, spec, previous.value);
    }
  }

  lemma RealityHasKeys(ctx: Context, spec: Spec, previous: Option<VersionRow>, row: VersionRow)
    requires ctx.encryptor.Valid() && spec.profile.XrayReality? && Builds(ctx, spec, previous, row)
    ensures HasKeys(ctx, row)
  {
    var o := RealityRow(ctx, spec, previous, row);
  }

  /** With the key flag off the next Reality version has the same key pair. */
  lemma RealityKeysKept(ctx: Context, spec: Spec, rowA: VersionRow, rowB: VersionRow)
    requires ctx.encryptor.Valid() && spec.profile.XrayReality? && Builds(ctx, spec, Some(rowA), rowB)
    requires spec.profile in ctx.settings.profiles && !ResolvedPolicy(ctx, spec).rotateRealityKeys && HasKeys(ctx, rowA)
    ensures PlainKey(ctx.encryptor, rowB) == PlainKey(ctx.encryptor, rowA) && rowB.publicKey == rowA.publicKey
  {
    var o := RealityRow(ctx, spec, Some(rowA), rowB);
  }

  // ---- gRPC names ----

  ghost function StoredNames(ctx: Context, spec: Spec, row: VersionRow): Result<(Json, Json)>
  {
    if spec.profile !in ctx.settings.profiles then Raised
    else ReadGrpc(ctx.encryptor, XrayGrpc, row, ctx.settings.profiles[spec.profile].inboundTag)
  }

  lemma SeenNames(ctx: Context, spec: Spec, row: VersionRow)
    requires spec.profile.XrayGrpc? && spec.profile in ctx.settings.profiles && ReadBack(ctx, spec, Some(row)).Ok?
    ensures StoredNames(ctx, spec, row) == Ok(ReadBack(ctx, spec, Some(row)).value.1)
    ensures ReadBack(ctx, spec, Some(row)).value.0.Some?
  {
  }

  lemma AroundNames(o: Order, port: int, sni: Option<string>, service: Option<string>, doc: Json)
    requires BuiltAround(XrayGrpc, o, port, sni, service, doc)
    ensures FindInbound(o.profile.template, o.profile.inboundTag).Ok?
    ensures var original := GrpcNames(FindInbound(o.profile.template, o.profile.inboundTag).value);
            && original.Ok?
            && PreferredGrpc(doc, o.profile.inboundTag) ==
                 Ok((if sni.Some? then Str(sni.value) else original.value.0, if service.Some? then Str(service.value) else original.value.1))
  {
    AroundIsFound(XrayGrpc, o, port, sni, service, doc);
  }

  /** The names in a row's tagged inbound, for the order it was built to. */
  lemma NamesOfParts(ctx: Context, spec: Spec, previous: Option<VersionRow>, used: set<int>, draws: Draws, stored: Stored, o: Order, built: Built)
    requires ctx.encryptor.Valid() && spec.profile.XrayGrpc? && draws.Valid()
    requires BuildParts(ctx, spec, previous, used, draws, stored, o, built)
    ensures FindInbound(o.profile.template, o.profile.inboundTag).Ok?
    ensures var original := GrpcNames(FindInbound(o.profile.template, o.profile.inboundTag).value);
            var preferred := ReadBack(ctx, spec, previous).value.1;
            && original.Ok?
            && StoredNames(ctx, spec, stored.row) ==
                 Ok((if GrpcSni(o, preferred.0).0.Some? then Str(GrpcSni(o, preferred.0).0.value) else original.value.0,
                     if GrpcService(o, preferred.1).Some? then Str(GrpcService(o, preferred.1).value) else original.value.1))
  {
    var preferred := ReadBack(ctx, spec, previous).value.1;
    StoredAround(ctx, spec, previous, used, draws, stored, o, built);
    RowReadsBack(ctx, spec.profile, stored.row.port, built, stored.files, draws.nonce);
    AroundNames(o, stored.row.port, GrpcSni(o, preferred.0).0, GrpcService(o, preferred.1), stored.files.config);
  }

  lemma GrpcRow(ctx: Context, spec: Spec, previous: Option<VersionRow>, row: VersionRow) returns (o: Order, preferred: (Json, Json), original: (Json, Json))
    requires ctx.encryptor.Valid() && spec.profile.XrayGrpc? && Builds(ctx, spec, previous, row)
    ensures spec.profile in ctx.settings.profiles && o == OrderFor(ctx, spec, o.previous, o.draws)
    ensures FindInbound(o.profile.template, o.profile.inboundTag).Ok?
    ensures GrpcNames(FindInbound(o.profile.template, o.profile.inboundTag).value) == Ok(original)
    ensures StoredNames(ctx, spec, row) ==
              Ok((if GrpcSni(o, preferred.0).0.Some? then Str(GrpcSni(o, preferred.0).0.value) else original.0,
                  if GrpcService(o, preferred.1).Some? then Str(GrpcService(o, preferred.1).value) else original.1))
    ensures previous.Some? ==> o.previous.Some? && StoredNames(ctx, spec, previous.value) == Ok(preferred)
  {
    var used, draws, stored, built;
    used, draws, stored, o, built := Unfold(ctx, spec, previous, row);
    preferred := ReadBack(ctx, spec, previous).value.1;
    NamesOfParts(ctx, spec, previous, used, draws, stored, o, built);
    original := GrpcNames(FindInbound(o.profile.template, o.profile.inboundTag).value).value;
    if previous.Some? {
      SeenNames(ctx, spec, previous.value);
    }
  }

  // ---- Certificates ----

  /** The name a build certifies. */
  ghost function CertifiedName(profile: Profile, o: Order, preferredSni: Json): string
  {
    if profile.XrayGrpc? then GrpcSni(o, preferredSni).1 else ShareHost(o.settings, o.profile, o.configHost)
  }

  /** The stored pair covers exactly this name. */
  ghost predicate MintedFor(ctx: Context, row: VersionRow, name: string)
  {
    && HasKeys(ctx, row) && row.fingerprint != ""
    && (forall other :: ctx.certs.hasSan(row.publicKey, other) <==> other == name)
    && ctx.certs.matches(row.publicKey, PlainKey(ctx.encryptor, row).value)
  }

  lemma TlsBuildKeys(profile: Profile, o: Order, port: int, sni: Json, service: Json)
    requires !profile.XrayReality? && Build(profile, o, port, sni, service).Ok?
    ensures CarriesPair(Build(profile, o, port, sni, service).value, o, CertifiedName(profile, o, sni))
  {
  }

  /** The certificate columns of a row, with the order it was built to and the name it certifies. */
  lemma TlsRow(ctx: Context, spec: Spec, previous: Option<VersionRow>, row: VersionRow)
    returns (o: Order, name: string, preferred: Json)
    requires ctx.encryptor.Valid() && !spec.profile.XrayReality? && Builds(ctx, spec, previous, row)
    ensures spec.profile in ctx.settings.profiles && o == OrderFor(ctx, spec, o.previous, o.draws)
    ensures name == CertifiedName(spec.profile, o, preferred)
    ensures previous.Some? && spec.profile.XrayGrpc? ==>
              StoredNames(ctx, spec, previous.value).Ok? && StoredNames(ctx, spec, previous.value).value.0 == preferred
    ensures spec.profile.XrayGrpc? && GrpcSni(o, preferred).0.Some? ==>
              StoredNames(ctx, spec, row).Ok? && StoredNames(ctx, spec, row).value.0 == Str(GrpcSni(o, preferred).0.value)
    ensures ResolveTls(o, name).Ok?
    ensures PlainKey(ctx.encryptor, row) == Ok(ResolveTls(o, name).value.0.privateKey) && row.publicKey == ResolveTls(o, name).value.0.cert
    ensures ResolveTls(o, name).value.0.fingerprint != "" ==> row.fingerprint == ResolveTls(o, name).value.0.fingerprint
    ensures !spec.profile.XrayGrpc? ==> name == ShareHost(ctx.settings, o.profile, Stripped(spec.publicHost))
    ensures previous.None? ==> o.previous.None?
    ensures previous.Some? ==>
              && o.previous.Some? && PlainKey(ctx.encryptor, previous.value).Ok?
              && o.previous.value.privateKey == NonEmpty(PlainKey(ctx.encryptor, previous.value).value)
              && o.previous.value.publicKey == NonEmpty(previous.value.publicKey)
              && o.previous.value.fingerprint == NonEmpty(previous.value.fingerprint)
  {
    var used, draws, stored, built;
    used, draws, stored, o, built := Unfold(ctx, spec, previous, row);
    var back := ReadBack(ctx, spec, previous).value;
    var picked := PickListeningPort(spec.profile, o, ExcludedPorts(used, o.policy, previous), KeptPort(o.policy, previous)).value;
    TlsBuildKeys(spec.profile, o, picked, back.1.0, back.1.1);
    preferred := back.1.0;
    name := CertifiedName(spec.profile, o, preferred);
    KeyReadsBack(ctx, spec, previous, used, draws, stored, o, built);
    if spec.profile.XrayGrpc? {
      NamesOfParts(ctx, spec, previous, used, draws, stored, o, built);
    }
    if previous.Some? {
      SeenKeys(ctx, spec, previous.value);
      if spec.profile.XrayGrpc? {
        SeenNames(ctx, spec, previous.value);
      }
    }
  }

  ghost predicate NoExternalPair(ctx: Context, spec: Spec)
  {
    spec.profile in ctx.settings.profiles && !ctx.settings.profiles[spec.profile].externalTls
  }

  /** A pair as the panel mints it: it covers one name, and that name is stripped. */
  ghost predicate PanelPair(ctx: Context, row: VersionRow)
  {
    exists name :: MintedFor(ctx, row, name) && Strip(name) == name && name != ""
  }

  /** The name is the advertised host, or one of a list of gRPC hosts: the one of the version before if
      that is a non-empty one of the list. */
  ghost predicate Certifies(ctx: Context, spec: Spec, previous: Option<VersionRow>, row: VersionRow, name: string)
    requires Known(ctx, spec)
  {
    var hosts := ctx.settings.profiles[spec.profile].grpcSniHosts;
    if !spec.profile.XrayGrpc? || Pinned(ctx, spec) || hosts == [] then name == HostOf(ctx, spec)
    else
      && name in hosts
      && StoredNames(ctx, spec, row).Ok? && StoredNames(ctx, spec, row).value.0 == Str(name)
      && (previous.Some? ==>
           && StoredNames(ctx, spec, previous.value).Ok?
           && var was := StoredNames(ctx, spec, previous.value).value.0;
              InList(was, hosts) && was.s != "" ==> name == was.s)
  }

  lemma CertifiedIs(ctx: Context, spec: Spec, o: Order, preferred: Json)
    requires Known(ctx, spec) && spec.profile.XrayGrpc? && o == OrderFor(ctx, spec, o.previous, o.draws)
    ensures var hosts, sni := ctx.settings.profiles[spec.profile].grpcSniHosts, GrpcSni(o, preferred);
            if Pinned(ctx, spec) || hosts == [] then sni.1 == HostOf(ctx, spec)
            else sni.0 == Some(sni.1) && sni.1 in hosts && (InList(preferred, hosts) && preferred.s != "" ==> sni.1 == preferred.s)
  {
    if o.profile.grpcSniHosts != [] {
      assert Choose(o.profile.grpcSniHosts, o.draws.sniDraw) in o.profile.grpcSniHosts;
    }
  }

  /** Without an external pair every build ends with a pair that covers exactly the stripped form of the
      name it certifies, reused or minted. */
  lemma BuiltPair(ctx: Context, spec: Spec, previous: Option<VersionRow>, row: VersionRow) returns (name: string)
    requires ctx.encryptor.Valid() && ctx.certs.Valid() && !spec.profile.XrayReality? && Builds(ctx, spec, previous, row)
    requires NoExternalPair(ctx, spec) && (previous.Some? ==> PanelPair(ctx, previous.value))
    ensures Known(ctx, spec) && Certifies(ctx, spec, previous, row, name)
    ensures MintedFor(ctx, row, Strip(name)) && Strip(name) != "" && PanelPair(ctx, row)
  {
    var o, preferred;
    o, name, preferred := TlsRow(ctx, spec, previous, row);
    if spec.profile.XrayGrpc? {
      CertifiedIs(ctx, spec, o, preferred);
    }
    StripIdempotent(name);
    assert ctx.certs.MintsFor(Strip(name), o.draws.tlsSeed);
    assert MintedFor(ctx, row, Strip(name));
  }

  /** With the TLS flag off and no external pair, a build reuses the stored pair exactly when the name
      it certifies is the name that pair covers; otherwise it mints a pair for that name, stripped. */
  lemma PairReusedIff(ctx: Context, spec: Spec, rowA: VersionRow, rowB: VersionRow, name: string)
    returns (certified: string, seed: nat)
    requires ctx.encryptor.Valid() && !spec.profile.XrayReality? && Builds(ctx, spec, Some(rowA), rowB)
    requires NoExternalPair(ctx, spec) && !ResolvedPolicy(ctx, spec).rotateTls && MintedFor(ctx, rowA, name)
    ensures Known(ctx, spec) && Certifies(ctx, spec, Some(rowA), rowB, certified)
    ensures certified == name ==>
              PlainKey(ctx.encryptor, rowB) == PlainKey(ctx.encryptor, rowA) && rowB.publicKey == rowA.publicKey && rowB.fingerprint == rowA.fingerprint
    ensures certified != name ==>
              var pair := ctx.certs.mint(Strip(certified), seed);
              PlainKey(ctx.encryptor, rowB) == Ok(pair.privateKey) && rowB.publicKey == pair.cert
  {
    var o, preferred;
    o, certified, preferred := TlsRow(ctx, spec, Some(rowA), rowB);
    seed := o.draws.tlsSeed;
    if spec.profile.XrayGrpc? {
      CertifiedIs(ctx, spec, o, preferred);
    }
    assert ReusableTls(o.previous, certified, ctx.certs) <==> certified == name;
  }

  // ---- Hysteria2 passwords ----

  ghost function StoredPasswords(ctx: Context, row: VersionRow): Result<(Option<string>, Option<string>)>
  {
    var plain :- PlainConfig(ctx.encryptor, Hysteria2, row);
    HysteriaPasswords(plain)
  }

  lemma SeenPasswords(ctx: Context, spec: Spec, row: VersionRow)
    requires spec.profile.Hysteria2? && spec.profile in ctx.settings.profiles && ReadBack(ctx, spec, Some(row)).Ok?
    ensures var p := ReadBack(ctx, spec, Some(row)).value.0;
            p.Some? && StoredPasswords(ctx, row) == Ok((p.value.password, p.value.obfsPassword))
  {
    var key, plain := PlainKey(ctx.encryptor, row), PlainConfig(ctx.encryptor, Hysteria2, row);
    assert key.Ok? && plain.Ok?;
    PreviousPasswords(plain.value, key.value, row.publicKey, row.fingerprint);
  }

  lemma PreviousPasswords(plain: Json, key: string, publicKey: string, fingerprint: string)
    requires PreviousForRegenerate(Hysteria2, plain, key, publicKey, fingerprint).Ok?
    ensures HysteriaPasswords(plain)
            == Ok((PreviousForRegenerate(Hysteria2, plain, key, publicKey, fingerprint).value.password,
                   PreviousForRegenerate(Hysteria2, plain, key, publicKey, fingerprint).value.obfsPassword))
  {
  }

  lemma FilesKeepPasswords(settings: PanelSettings, ps: ProfileSettings, built: Built, draws: Draws)
    requires WriteFiles(Hysteria2, settings, ps, built, draws).Ok?
    ensures HysteriaPasswords(WriteFiles(Hysteria2, settings, ps, built, draws).value.config) == HysteriaPasswords(built.config)
  {
    if built.writesCert {
      CertPathsKeepHysteria(built.config, draws.writtenCert, draws.writtenKey);
    }
  }

  /** The passwords of a row, with the order it was built to. */
  lemma HysteriaRow(ctx: Context, spec: Spec, previous: Option<VersionRow>, row: VersionRow) returns (o: Order)
    requires ctx.encryptor.Valid() && spec.profile.Hysteria2? && Builds(ctx, spec, previous, row)
    ensures spec.profile in ctx.settings.profiles && o.policy == ResolvedPolicy(ctx, spec)
    ensures StoredPasswords(ctx, row) == Ok((Some(Passwords(o).0), Some(Passwords(o).1)))
    ensures previous.Some? ==>
              && o.previous.Some?
              && StoredPasswords(ctx, previous.value) == Ok((o.previous.value.password, o.previous.value.obfsPassword))
  {
    var used, draws, stored, built;
    used, draws, stored, o, built := Unfold(ctx, spec, previous, row);
    var picked := PickListeningPort(spec.profile, o, ExcludedPorts(used, o.policy, previous), KeptPort(o.policy, previous)).value;
    ReadBackIsOk(ctx, spec, previous, draws);
    HysteriaShows(built.config, o.profile.template, picked, Passwords(o), o.profile);
    FilesKeepPasswords(ctx.settings, o.profile, built, draws);
    RowReadsBack(ctx, spec.profile, row.port, built, stored.files, draws.nonce);
    if previous.Some? {
      SeenPasswords(ctx, spec, previous.value);
    }
  }
}
