/** One regeneration: what the new version takes over from the stored one. */
module Regenerate {
  import opened Wrappers
  import opened Text
  import opened JsonTree
  import opened FieldCrypto
  import opened PortPicker
  import opened Store
  import opened Settings
  import opened ConfigBuilder
  import opened ConfigBuild
  import opened BuilderViews

  // ---- What a build puts into the tagged inbound ----

  ghost predicate Shows(profile: Profile, o: Order, original: Json, r: Json, port: int, sni: Option<string>, service: Option<string>)
  {
    && GetOr(r, "tag", Null) == GetOr(original, "tag", Null)
    && Index(r, "port") == Ok(Num(port))
    && (Glean(r).Ok? ==> ShowsSecrets(profile, o, original, Glean(r).value))
    && (profile.XrayGrpc? ==>
         && GrpcNames(r).Ok? && GrpcNames(original).Ok?
         && GrpcNames(r).value.0 == (if sni.Some? then Str(sni.value) else GrpcNames(original).value.0)
         && GrpcNames(r).value.1 == (if service.Some? then Str(service.value) else GrpcNames(original).value.1))
  }

  ghost predicate ShowsSecrets(profile: Profile, o: Order, original: Json, g: Gleaned)
  {
    && g.clientId == (if HasClients(original) then Some(ClientId(o)) else None)
    && (profile.XrayReality? ==>
         && g.shortIds == Some(ShortIds(o))
         && (KeepsDest(o) ==> g.dest == o.previous.value.gleaned.dest)
         && (KeepsDest(o) && o.previous.value.gleaned.serverNames.Some? ==> g.serverNames == o.previous.value.gleaned.serverNames))
    && (profile.XrayXhttp? && XhttpPath(o).Some? && XhttpPath(o).value != "" ==> g.path == XhttpPath(o))
  }

  lemma GrpcShows(o: Order, inbound: Json, port: int, sni: Option<string>, service: Option<string>, certFile: string, keyFile: string)
    requires OrderOk(o) && GrpcInbound(inbound, o, port, sni, service, certFile, keyFile).Ok?
    ensures Shows(XrayGrpc, o, inbound, GrpcInbound(inbound, o, port, sni, service, certFile, keyFile).value, port, sni, service)
  {
    GrpcShape(inbound, o, port, sni, service, certFile, keyFile);
    GrpcView(inbound, o, port, sni, service, certFile, keyFile);
    var r := GrpcInbound(inbound, o, port, sni, service, certFile, keyFile).value;
    if Glean(r).Ok? {
      GleanReality(r);
    }
  }

  lemma XhttpShows(o: Order, inbound: Json, port: int, host: string, certFile: string, keyFile: string, sni: Option<string>, service: Option<string>)
    requires OrderOk(o) && XhttpInbound(inbound, o, port, host, certFile, keyFile).Ok?
    ensures Shows(XrayXhttp, o, inbound, XhttpInbound(inbound, o, port, host, certFile, keyFile).value, port, sni, service)
  {
    XhttpView(inbound, o, port, host, certFile, keyFile);
    var r := XhttpInbound(inbound, o, port, host, certFile, keyFile).value;
    if Glean(r).Ok? {
      GleanReality(r);
    }
  }

  /** An Xray document made from the template: every inbound but the tagged one reads as in the
      template, and the tagged one shows what the order says. */
  ghost predicate BuiltAround(profile: Profile, o: Order, port: int, sni: Option<string>, service: Option<string>, config: Json)
  {
    var template := Inbounds(o.profile.template);
    && template.Ok? && FindTag(template.value, o.profile.inboundTag).Ok?
    && Inbounds(config).Ok? && |Inbounds(config).value| == |template.value|
    && (forall j :: 0 <= j < |template.value| && j != FindTag(template.value, o.profile.inboundTag).value ==>
         SameView(template.value[j], Inbounds(config).value[j]))
    && Shows(profile, o, template.value[FindTag(template.value, o.profile.inboundTag).value],
             Inbounds(config).value[FindTag(template.value, o.profile.inboundTag).value], port, sni, service)
  }

  lemma AroundIsFound(profile: Profile, o: Order, port: int, sni: Option<string>, service: Option<string>, config: Json)
    requires BuiltAround(profile, o, port, sni, service, config)
    ensures FindTag(Inbounds(config).value, o.profile.inboundTag) == FindTag(Inbounds(o.profile.template).value, o.profile.inboundTag)
  {
    var template := Inbounds(o.profile.template).value;
    var items := Inbounds(config).value;
    forall j | 0 <= j < |template| ensures GetOr(template[j], "tag", Null) == GetOr(items[j], "tag", Null) {
      if j != FindTag(template, o.profile.inboundTag).value {
        assert SameView(template[j], items[j]);
      }
    }
    SameTagsFound(template, items, o.profile.inboundTag);
  }

  lemma AroundSurvives(profile: Profile, o: Order, port: int, sni: Option<string>, service: Option<string>, a: Json, b: Json)
    requires BuiltAround(profile, o, port, sni, service, a) && SameInbounds(a, b)
    ensures BuiltAround(profile, o, port, sni, service, b)
  {
    var template := Inbounds(o.profile.template).value;
    var k := FindTag(template, o.profile.inboundTag).value;
    assert SameView(Inbounds(a).value[k], Inbounds(b).value[k]);
    forall j | 0 <= j < |template| && j != k ensures SameView(template[j], Inbounds(b).value[j]) {
      assert SameView(template[j], Inbounds(a).value[j]) && SameView(Inbounds(a).value[j], Inbounds(b).value[j]);
    }
  }

  /** Putting one inbound that shows the order back into the template. */
  lemma ReplacedAround(profile: Profile, o: Order, port: int, sni: Option<string>, service: Option<string>, inbound: Json, config: Json)
    requires Inbounds(o.profile.template).Ok?
    requires var items := Inbounds(o.profile.template).value;
             && FindTag(items, o.profile.inboundTag).Ok?
             && Shows(profile, o, items[FindTag(items, o.profile.inboundTag).value], inbound, port, sni, service)
             && ReplaceInbound(o.profile.template, items, FindTag(items, o.profile.inboundTag).value, inbound) == Ok(config)
    ensures BuiltAround(profile, o, port, sni, service, config)
  {
    var items := Inbounds(o.profile.template).value;
    var k := FindTag(items, o.profile.inboundTag).value;
    assert Inbounds(config) == Ok(items[k := inbound]);
  }

  lemma RealityBuild(o: Order, port: int, sni: Json, service: Json)
    requires OrderOk(o) && Build(XrayReality, o, port, sni, service).Ok?
    ensures BuiltAround(XrayReality, o, port, GrpcSni(o, sni).0, GrpcService(o, service), Build(XrayReality, o, port, sni, service).value.config)
  {
    var items := Inbounds(o.profile.template).value;
    var k := FindTag(items, o.profile.inboundTag).value;
    RealityView(items[k], o, port);
    ReplacedAround(XrayReality, o, port, GrpcSni(o, sni).0, GrpcService(o, service), RealityInbound(items[k], o, port).value,
                   Build(XrayReality, o, port, sni, service).value.config);
  }

  lemma GrpcBuild(o: Order, port: int, sni: Json, service: Json)
    requires OrderOk(o) && Build(XrayGrpc, o, port, sni, service).Ok?
    ensures BuiltAround(XrayGrpc, o, port, GrpcSni(o, sni).0, GrpcService(o, service), Build(XrayGrpc, o, port, sni, service).value.config)
  {
    var items := Inbounds(o.profile.template).value;
    var k := FindTag(items, o.profile.inboundTag).value;
    var name := GrpcSni(o, sni);
    var tls := ResolveTls(o, name.1).value;
    GrpcShows(o, items[k], port, name.0, GrpcService(o, service), tls.1, tls.2);
    ReplacedAround(XrayGrpc, o, port, name.0, GrpcService(o, service),
                   GrpcInbound(items[k], o, port, name.0, GrpcService(o, service), tls.1, tls.2).value,
                   Build(XrayGrpc, o, port, sni, service).value.config);
  }

  lemma XhttpBuild(o: Order, port: int, sni: Json, service: Json)
    requires OrderOk(o) && Build(XrayXhttp, o, port, sni, service).Ok?
    ensures BuiltAround(XrayXhttp, o, port, GrpcSni(o, sni).0, GrpcService(o, service), Build(XrayXhttp, o, port, sni, service).value.config)
  {
    var items := Inbounds(o.profile.template).value;
    var k := FindTag(items, o.profile.inboundTag).value;
    var host := ShareHost(o.settings, o.profile, o.configHost);
    var tls := ResolveTls(o, host).value;
    XhttpShows(o, items[k], port, host, tls.1, tls.2, GrpcSni(o, sni).0, GrpcService(o, service));
    ReplacedAround(XrayXhttp, o, port, GrpcSni(o, sni).0, GrpcService(o, service),
                   XhttpInbound(items[k], o, port, host, tls.1, tls.2).value,
                   Build(XrayXhttp, o, port, sni, service).value.config);
  }

  lemma BuildShows(profile: Profile, o: Order, port: int, sni: Json, service: Json)
    requires !profile.Hysteria2? && OrderOk(o) && Build(profile, o, port, sni, service).Ok?
    ensures BuiltAround(profile, o, port, GrpcSni(o, sni).0, GrpcService(o, service), Build(profile, o, port, sni, service).value.config)
  {
    match profile
    case XrayReality => RealityBuild(o, port, sni, service);
    case XrayGrpc => GrpcBuild(o, port, sni, service);
    case XrayXhttp => XhttpBuild(o, port, sni, service);
  }

  lemma AroundPort(profile: Profile, o: Order, port: int, sni: Option<string>, service: Option<string>, config: Json)
    requires !profile.Hysteria2? && BuiltAround(profile, o, port, sni, service, config)
    ensures ListeningPort(profile, config, o.profile) == Ok(port)
  {
    AroundIsFound(profile, o, port, sni, service, config);
  }

  // ---- Hysteria2 ----

  lemma ParseText(n: int)
    ensures ParseInt(Text.Text(n)) == Some(n)
  {
    if n < 0 {
      var digits := Decimal(-n);
      var s := "-" + digits;
      assert digits[|digits| - 1] in digits;
      assert NoSpaces(s) by {
        forall c | c in s ensures !IsSpace(c) { if c != '-' { assert c in digits; } }
      }
      StripClean(s);
      NoSeparators(digits);
      DecimalValue(-n);
    } else {
      ParseDecimal(n);
    }
  }

  lemma TextNoColon(n: int)
    ensures DropColons(":" + Text.Text(n)) == Text.Text(n)
  {
    var s := Text.Text(n);
    assert (":" + s)[1..] == s;
    if n >= 0 {
      assert s[0] in Decimal(n);
    }
  }

  lemma PasswordsRead(config: Json, password: string, obfsPassword: string)
    requires config.Obj? && password != "" && obfsPassword != ""
    requires Index(config, "auth").Ok? && Index(Index(config, "auth").value, "password") == Ok(Str(password))
    requires Index(config, "obfs") == Ok(SalamanderObfs(obfsPassword))
    ensures HysteriaPasswords(config) == Ok((Some(password), Some(obfsPassword)))
  {
    var auth := Index(config, "auth").value;
    assert Section(config, "auth") == Ok(auth) && TextField(auth, "password") == Ok(Some(password));
    var salamander := Obj(map["password" := Str(obfsPassword)]);
    assert "password" in salamander.fields && "salamander" in SalamanderObfs(obfsPassword).fields;
    assert Section(config, "obfs") == Ok(SalamanderObfs(obfsPassword));
    assert Section(SalamanderObfs(obfsPassword), "salamander") == Ok(salamander);
    assert TextField(salamander, "password") == Ok(Some(obfsPassword));
  }

  lemma HysteriaShows(config: Json, template: Json, port: int, passwords: (string, string), ps: ProfileSettings)
    requires HysteriaDoc(config, template, port, passwords) && passwords.0 != "" && passwords.1 != ""
    ensures ListeningPort(Hysteria2, config, ps) == Ok(port)
    ensures HysteriaPasswords(config) == Ok((Some(passwords.0), Some(passwords.1)))
  {
    ParseText(port);
    TextNoColon(port);
    PasswordsRead(config, passwords.0, passwords.1);
  }

  // ---- The stored row ----

  lemma PreviousIsOk(profile: Profile, config: Json, privateKey: string, publicKey: string, fingerprint: string)
    requires PreviousForRegenerate(profile, config, privateKey, publicKey, fingerprint).Ok?
    ensures var p := PreviousForRegenerate(profile, config, privateKey, publicKey, fingerprint).value;
            && GleanedOk(p.gleaned)
            && (p.password.Some? ==> p.password.value != "")
            && (p.obfsPassword.Some? ==> p.obfsPassword.value != "")
  {
    GleanAllOk(Inbounds(config).value);
  }

  lemma ReadBackIsOk(ctx: Context, spec: Spec, previous: Option<VersionRow>, draws: Draws)
    requires spec.profile in ctx.settings.profiles && ReadBack(ctx, spec, previous).Ok? && draws.Valid()
    ensures var o := OrderFor(ctx, spec, ReadBack(ctx, spec, previous).value.0, draws);
            OrderOk(o) && Passwords(o).0 != "" && Passwords(o).1 != ""
  {
    if previous.Some? {
      var row := previous.value;
      var plain := PlainConfig(ctx.encryptor, spec.profile, row).value;
      PreviousIsOk(spec.profile, plain, PlainKey(ctx.encryptor, row).value, row.publicKey, row.fingerprint);
    }
  }

  /** The pieces of a successful build. */
  ghost predicate BuildParts(ctx: Context, spec: Spec, previous: Option<VersionRow>, used: set<int>, draws: Draws,
                             stored: Stored, o: Order, built: Built)
  {
    && spec.profile in ctx.settings.profiles
    && ReadBack(ctx, spec, previous).Ok?
    && o == OrderFor(ctx, spec, ReadBack(ctx, spec, previous).value.0, draws)
    && PickListeningPort(spec.profile, o, ExcludedPorts(used, o.policy, previous), KeptPort(o.policy, previous)).Ok?
    && Build(spec.profile, o, PickListeningPort(spec.profile, o, ExcludedPorts(used, o.policy, previous), KeptPort(o.policy, previous)).value,
             ReadBack(ctx, spec, previous).value.1.0, ReadBack(ctx, spec, previous).value.1.1) == Ok(built)
    && ListeningPort(spec.profile, built.config, o.profile) == Ok(stored.row.port)
    && WriteFiles(spec.profile, ctx.settings, o.profile, built, draws) == Ok(stored.files)
    && stored.row == Persist(ctx, spec.profile, stored.row.port, built, stored.files, draws.nonce)
  }

  lemma Parts(ctx: Context, spec: Spec, previous: Option<VersionRow>, used: set<int>, draws: Draws, stored: Stored) returns (o: Order, built: Built)
    requires BuildVersion(ctx, spec, previous, used, draws) == Ok(stored)
    ensures BuildParts(ctx, spec, previous, used, draws, stored, o, built)
  {
    var back := ReadBack(ctx, spec, previous).value;
    o := OrderFor(ctx, spec, back.0, draws);
    var picked := PickListeningPort(spec.profile, o, ExcludedPorts(used, o.policy, previous), KeptPort(o.policy, previous)).value;
    built := Build(spec.profile, o, picked, back.1.0, back.1.1).value;
  }

  /** A freshly built document listens on the port that was picked. */
  lemma BuiltListens(ctx: Context, spec: Spec, previous: Option<VersionRow>, used: set<int>, draws: Draws, stored: Stored, o: Order, built: Built)
    requires draws.Valid() && BuildParts(ctx, spec, previous, used, draws, stored, o, built)
    ensures PickListeningPort(spec.profile, o, ExcludedPorts(used, o.policy, previous), KeptPort(o.policy, previous)) == Ok(stored.row.port)
  {
    var back := ReadBack(ctx, spec, previous).value;
    var picked := PickListeningPort(spec.profile, o, ExcludedPorts(used, o.policy, previous), KeptPort(o.policy, previous)).value;
    ReadBackIsOk(ctx, spec, previous, draws);
    if spec.profile.Hysteria2? {
      HysteriaShows(built.config, o.profile.template, picked, Passwords(o), o.profile);
    } else {
      BuildShows(spec.profile, o, picked, back.1.0, back.1.1);
      AroundPort(spec.profile, o, picked, GrpcSni(o, back.1.0).0, GrpcService(o, back.1.1), built.config);
    }
  }

  lemma FilesListen(profile: Profile, settings: PanelSettings, ps: ProfileSettings, built: Built, draws: Draws)
    requires WriteFiles(profile, settings, ps, built, draws).Ok? && ListeningPort(profile, built.config, ps).Ok?
    ensures ListeningPort(profile, WriteFiles(profile, settings, ps, built, draws).value.config, ps) == ListeningPort(profile, built.config, ps)
  {
    if built.writesCert {
      CertPathsKeepPort(profile, built.config, ps, draws.writtenCert, draws.writtenKey);
    }
  }

  lemma RowReadsBack(ctx: Context, profile: Profile, port: int, built: Built, files: Written, nonce: nat)
    requires ctx.encryptor.Valid()
    ensures PlainConfig(ctx.encryptor, profile, Persist(ctx, profile, port, built, files, nonce)) == Ok(files.config)
    ensures PlainKey(ctx.encryptor, Persist(ctx, profile, port, built, files, nonce)) == Ok(built.privateKey)
  {
    RoundTrip(files.config, SensitiveFields(profile), ctx.encryptor, nonce + 1);
  }

  lemma PickedIsCandidate(ctx: Context, spec: Spec, previous: Option<VersionRow>, used: set<int>, draws: Draws, stored: Stored, o: Order, built: Built)
    requires draws.Valid() && BuildParts(ctx, spec, previous, used, draws, stored, o, built)
    ensures stored.row.port in o.profile.portCandidates
  {
    BuiltListens(ctx, spec, previous, used, draws, stored, o, built);
    PickPortMeaning(o.profile.portCandidates, BlockedPorts(spec.profile, o.settings, ExcludedPorts(used, o.policy, previous)), draws.free,
                    spec.profile.Hysteria2?, PreferredPort(spec.profile, o.profile, KeptPort(o.policy, previous)), draws.portDraw);
  }

  /** The stored row decrypts to exactly the document in the archive and, if there is one, the live
      file, rewritten certificate paths included, and its port is the document's listening port, a
      candidate of the profile. */
  lemma StoredMatchesFiles(ctx: Context, spec: Spec, previous: Option<VersionRow>, used: set<int>, draws: Draws, stored: Stored)
    requires ctx.encryptor.Valid() && draws.Valid()
    requires BuildVersion(ctx, spec, previous, used, draws) == Ok(stored)
    ensures PlainConfig(ctx.encryptor, spec.profile, stored.row) == Ok(stored.files.archive)
    ensures stored.files.live.Some? ==> stored.files.live == Some(stored.files.archive)
    ensures spec.profile in ctx.settings.profiles
    ensures ListeningPort(spec.profile, stored.files.archive, ctx.settings.profiles[spec.profile]) == Ok(stored.row.port)
    ensures stored.row.port in ctx.settings.profiles[spec.profile].portCandidates
  {
    var o, built := Parts(ctx, spec, previous, used, draws, stored);
    RowReadsBack(ctx, spec.profile, stored.row.port, built, stored.files, draws.nonce);
    FilesListen(spec.profile, ctx.settings, o.profile, built, draws);
    PickedIsCandidate(ctx, spec, previous, used, draws, stored, o, built);
  }

  lemma KeyReadsBack(ctx: Context, spec: Spec, previous: Option<VersionRow>, used: set<int>, draws: Draws, stored: Stored, o: Order, built: Built)
    requires ctx.encryptor.Valid() && BuildParts(ctx, spec, previous, used, draws, stored, o, built)
    ensures PlainKey(ctx.encryptor, stored.row) == Ok(built.privateKey)
    ensures stored.row.publicKey == built.publicKey
  {
  }

  /** What the stored document of an Xray version shows. */
  lemma StoredAround(ctx: Context, spec: Spec, previous: Option<VersionRow>, used: set<int>, draws: Draws, stored: Stored, o: Order, built: Built)
    requires draws.Valid() && !spec.profile.Hysteria2? && BuildParts(ctx, spec, previous, used, draws, stored, o, built)
    ensures var back := ReadBack(ctx, spec, previous).value;
            BuiltAround(spec.profile, o, stored.row.port, GrpcSni(o, back.1.0).0, GrpcService(o, back.1.1), stored.files.config)
  {
    var back := ReadBack(ctx, spec, previous).value;
    var sni, service := GrpcSni(o, back.1.0).0, GrpcService(o, back.1.1);
    ReadBackIsOk(ctx, spec, previous, draws);
    BuiltListens(ctx, spec, previous, used, draws, stored, o, built);
    BuildShows(spec.profile, o, stored.row.port, back.1.0, back.1.1);
    if built.writesCert {
      CertPathsKeepInbounds(spec.profile, built.config, draws.writtenCert, draws.writtenKey);
      AroundSurvives(spec.profile, o, stored.row.port, sni, service, built.config, stored.files.config);
    }
  }
}
