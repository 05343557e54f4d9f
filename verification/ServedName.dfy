/** The certificate a version stores fits its key and covers the name that the version's document, and so
    every share link made from it, tells clients to expect
    (panel/infrastructure/vpn/config_builder.py). */
module ServedName {
  import opened Wrappers
  import opened Text
  import opened JsonTree
  import opened FieldCrypto
  import opened Store
  import opened Settings
  import opened ConfigBuilder
  import opened ConfigBuild
  import opened BuilderViews
  import opened Regenerate
  import opened RegenerateChain
  import opened RegenerateKept
  import opened RegenerateForever
  import opened GrpcCertificate
  import ShareUri

  /** What a tagged inbound says its server name is. */
  function ServerName(inbound: Json): Option<Json>
  {
    match GetOr(inbound, "streamSettings", Obj(map[]))
    case Raised => None
    case Ok(stream) =>
      match GetOr(stream, "tlsSettings", Obj(map[]))
      case Raised => None
      case Ok(tls) => ToOption(GetOr(tls, "serverName", Null))
  }

  /** The name in a document: the TLS section's for Hysteria2, the tagged inbound's otherwise. */
  function NameIn(profile: Profile, config: Json, tag: string): Option<Json>
  {
    if profile.Hysteria2? then
      match Index(config, "tls")
      case Raised => None
      case Ok(tls) => ToOption(Index(tls, "sni"))
    else
      match FindInbound(config, tag)
      case Raised => None
      case Ok(inbound) => ServerName(inbound)
  }

  ghost function StoredName(ctx: Context, spec: Spec, row: VersionRow): Option<Json>
    requires spec.profile in ctx.settings.profiles
  {
    match PlainConfig(ctx.encryptor, spec.profile, row)
    case Raised => None
    case Ok(plain) => NameIn(spec.profile, plain, ctx.settings.profiles[spec.profile].inboundTag)
  }

  // ---- The document ----

  /** The host goes into the SNI, the certificate paths into the first certificate. */
  lemma XhttpStreamTls(stream: Json, path: Option<string>, host: string, certFile: string, keyFile: string)
    requires XhttpStream(stream, path, host, certFile, keyFile).Ok?
    ensures var r := XhttpStream(stream, path, host, certFile, keyFile).value;
            && Index(r, "tlsSettings").Ok?
            && Index(Index(r, "tlsSettings").value, "serverName") == Ok(Str(host))
            && Index(Index(r, "tlsSettings").value, "certificates") == Ok(Certificates(certFile, keyFile))
  {
  }

  lemma NamesShowServerName(inbound: Json)
    requires GrpcNames(inbound).Ok?
    ensures ServerName(inbound) == Some(GrpcNames(inbound).value.0)
  {
  }

  lemma XhttpServerName(inbound: Json, o: Order, port: int, host: string, certFile: string, keyFile: string)
    requires OrderOk(o) && XhttpInbound(inbound, o, port, host, certFile, keyFile).Ok?
    ensures ServerName(XhttpInbound(inbound, o, port, host, certFile, keyFile).value) == Some(Str(host))
  {
    IdentifiedView(inbound, o, port);
    var identified := Identified(inbound, o, port).value;
    var stream := Index(identified, "streamSettings").value;
    XhttpStreamTls(stream, XhttpPath(o), host, certFile, keyFile);
    StreamReplaced(identified, XhttpStream(stream, XhttpPath(o), host, certFile, keyFile).value);
  }

  lemma XhttpTag(inbound: Json, o: Order, port: int, host: string, certFile: string, keyFile: string)
    requires OrderOk(o) && XhttpInbound(inbound, o, port, host, certFile, keyFile).Ok?
    ensures GetOr(XhttpInbound(inbound, o, port, host, certFile, keyFile).value, "tag", Null) == GetOr(inbound, "tag", Null)
  {
    XhttpView(inbound, o, port, host, certFile, keyFile);
  }

  lemma XhttpDocument(o: Order, port: int)
    requires OrderOk(o) && BuildXhttp(o, port).Ok?
    ensures FindInbound(BuildXhttp(o, port).value.config, o.profile.inboundTag).Ok?
    ensures ServerName(FindInbound(BuildXhttp(o, port).value.config, o.profile.inboundTag).value)
            == Some(Str(ShareHost(o.settings, o.profile, o.configHost)))
  {
    var items := Inbounds(o.profile.template).value;
    var k := FindTag(items, o.profile.inboundTag).value;
    var host := ShareHost(o.settings, o.profile, o.configHost);
    var tls := ResolveTls(o, host).value;
    var inbound := XhttpInbound(items[k], o, port, host, tls.1, tls.2).value;
    XhttpServerName(items[k], o, port, host, tls.1, tls.2);
    XhttpTag(items[k], o, port, host, tls.1, tls.2);
    ReplacedStillFound(items, o.profile.inboundTag, inbound);
    assert Inbounds(BuildXhttp(o, port).value.config) == Ok(items[k := inbound]);
  }

  // ---- The files ----

  lemma RewriteKeepsServerName(inbound: Json, certFile: string, keyFile: string)
    requires RewriteInbound(inbound, certFile, keyFile).Ok? && RewriteInbound(inbound, certFile, keyFile).value.Some?
    ensures ServerName(RewriteInbound(inbound, certFile, keyFile).value.value) == ServerName(inbound)
  {
    RewriteSections(inbound, certFile, keyFile);
  }

  lemma {:induction false} RewriteListKeepsNames(items: seq<Json>, certFile: string, keyFile: string, i: nat)
    requires RewriteFirst(items, certFile, keyFile).Ok? && i < |items|
    ensures ServerName(RewriteFirst(items, certFile, keyFile).value[i]) == ServerName(items[i])
  {
    var rewritten := RewriteInbound(items[0], certFile, keyFile).value;
    if rewritten.Some? {
      RewriteKeepsServerName(items[0], certFile, keyFile);
    } else if i > 0 {
      RewriteListKeepsNames(items[1..], certFile, keyFile, i - 1);
    }
  }

  lemma CertPathsKeepServerName(config: Json, tag: string, certFile: string, keyFile: string)
    requires FindInbound(config, tag).Ok? && ApplyCertPaths(XrayXhttp, config, certFile, keyFile).Ok?
    ensures FindInbound(ApplyCertPaths(XrayXhttp, config, certFile, keyFile).value, tag).Ok?
    ensures ServerName(FindInbound(ApplyCertPaths(XrayXhttp, config, certFile, keyFile).value, tag).value)
            == ServerName(FindInbound(config, tag).value)
  {
    var items := Inbounds(config).value;
    var k := FindTag(items, tag).value;
    var config' := ApplyCertPaths(XrayXhttp, config, certFile, keyFile).value;
    CertPathsKeepInbounds(XrayXhttp, config, certFile, keyFile);
    SameTagsFound(items, Inbounds(config').value, tag);
    RewriteListKeepsNames(items, certFile, keyFile, k);
    assert Inbounds(config').value == RewriteFirst(items, certFile, keyFile).value;
  }

  lemma CertPathsKeepSni(config: Json, certFile: string, keyFile: string)
    requires ApplyCertPaths(Hysteria2, config, certFile, keyFile).Ok? && Index(config, "tls").Ok?
    ensures var config' := ApplyCertPaths(Hysteria2, config, certFile, keyFile).value;
            Index(config', "tls").Ok? && Index(Index(config', "tls").value, "sni") == Index(Index(config, "tls").value, "sni")
  {
  }

  // ---- The certificate files ----

  /** The paths in the first certificate entry of an inbound. */
  function CertificatePaths(inbound: Json): Option<(Json, Json)>
  {
    match GetOr(inbound, "streamSettings", Obj(map[]))
    case Raised => None
    case Ok(stream) =>
      match GetOr(stream, "tlsSettings", Obj(map[]))
      case Raised => None
      case Ok(tls) =>
        match Index(tls, "certificates")
        case Ok(Arr(entries)) =>
          if entries != [] && Index(entries[0], "certificateFile").Ok? && Index(entries[0], "keyFile").Ok?
          then Some((Index(entries[0], "certificateFile").value, Index(entries[0], "keyFile").value)) else None
        case _ => None
  }

  lemma RewrittenPaths(inbound: Json, certFile: string, keyFile: string)
    requires RewriteInbound(inbound, certFile, keyFile).Ok? && RewriteInbound(inbound, certFile, keyFile).value.Some?
    ensures CertificatePaths(RewriteInbound(inbound, certFile, keyFile).value.value) == Some((Str(certFile), Str(keyFile)))
  {
    RewriteSections(inbound, certFile, keyFile);
  }

  lemma {:induction false} RewrittenAt(items: seq<Json>, certFile: string, keyFile: string, k: nat)
    requires k < |items| && RewriteFirst(items, certFile, keyFile).Ok?
    ensures (forall j :: 0 <= j < k ==> RewriteInbound(items[j], certFile, keyFile) == Ok(None)) ==>
              && RewriteInbound(items[k], certFile, keyFile).Ok?
              && (RewriteInbound(items[k], certFile, keyFile).value.Some? ==>
                    RewriteFirst(items, certFile, keyFile).value[k] == RewriteInbound(items[k], certFile, keyFile).value.value)
    ensures !(forall j :: 0 <= j < k ==> RewriteInbound(items[j], certFile, keyFile) == Ok(None)) ==>
              RewriteFirst(items, certFile, keyFile).value[k] == items[k]
  {
    if k > 0 && RewriteInbound(items[0], certFile, keyFile) == Ok(None) {
      RewrittenAt(items[1..], certFile, keyFile, k - 1);
      forall j | 0 <= j < k - 1 ensures items[1..][j] == items[j + 1] {}
    }
  }

  /** The written certificate files reach an inbound that has certificates exactly when no inbound before
      it has any; otherwise that inbound keeps the paths it was built with. */
  lemma WrittenPathsReachIff(items: seq<Json>, certFile: string, keyFile: string, k: nat)
    requires k < |items| && RewriteFirst(items, certFile, keyFile).Ok?
    requires RewriteInbound(items[k], certFile, keyFile).Ok? && RewriteInbound(items[k], certFile, keyFile).value.Some?
    requires CertificatePaths(items[k]) != Some((Str(certFile), Str(keyFile)))
    ensures CertificatePaths(RewriteFirst(items, certFile, keyFile).value[k]) == Some((Str(certFile), Str(keyFile)))
            <==> forall j :: 0 <= j < k ==> RewriteInbound(items[j], certFile, keyFile) == Ok(None)
  {
    RewrittenAt(items, certFile, keyFile, k);
    RewrittenPaths(items[k], certFile, keyFile);
  }

  /** An inbound with a certificate at these paths. */
  function WithCertificate(tag: string, certFile: string, keyFile: string): Json
  {
    Obj(map["tag" := Str(tag), "streamSettings" := Obj(map["tlsSettings" := Obj(map["certificates" := Certificates(certFile, keyFile)])])])
  }

  lemma CertificateIsRewritten(tag: string, certFile: string, keyFile: string)
    ensures CertificatePaths(WithCertificate(tag, "/etc/cert", "/etc/key")) == Some((Str("/etc/cert"), Str("/etc/key")))
    ensures var r := RewriteInbound(WithCertificate(tag, "/etc/cert", "/etc/key"), certFile, keyFile); r.Ok? && r.value.Some?
  {
    var tls := Obj(map["certificates" := Certificates("/etc/cert", "/etc/key")]);
    var entry := Obj(map["certificateFile" := Str("/etc/cert"), "keyFile" := Str("/etc/key")]);
    assert Index(tls, "certificates") == Ok(Arr([entry]));
  }

  /** Of two inbounds with certificates only the first gets the written paths, even if the second is the
      tagged one. */
  lemma SecondKeepsOldPaths()
    ensures var items := [WithCertificate("guest", "/etc/cert", "/etc/key"), WithCertificate("main", "/etc/cert", "/etc/key")];
            var written := RewriteFirst(items, "/live/cert", "/live/key");
            && written.Ok? && CertificatePaths(written.value[0]) == Some((Str("/live/cert"), Str("/live/key")))
            && CertificatePaths(written.value[1]) != Some((Str("/live/cert"), Str("/live/key")))
  {
    var items := [WithCertificate("guest", "/etc/cert", "/etc/key"), WithCertificate("main", "/etc/cert", "/etc/key")];
    CertificateIsRewritten("guest", "/live/cert", "/live/key");
    CertificateIsRewritten("main", "/live/cert", "/live/key");
    assert "/etc/cert"[1] == 'e' && "/live/cert"[1] == 'l';
    WrittenPathsReachIff(items, "/live/cert", "/live/key", 0);
    WrittenPathsReachIff(items, "/live/cert", "/live/key", 1);
  }

  // ---- The certificate ----

  /** Whatever pair is settled on for a stripped name, stored or new, fits its key and covers the name. */
  lemma ResolvedCovers(o: Order, name: string)
    requires o.certs.Valid() && !o.profile.externalTls && ResolveTls(o, name).Ok? && Strip(name) == name
    ensures var pair := ResolveTls(o, name).value.0;
            o.certs.hasSan(pair.cert, name) && o.certs.matches(pair.cert, pair.privateKey)
  {
    assert o.certs.MintsFor(Strip(name), o.draws.tlsSeed);
  }

  /** The stored certificate fits the stored key and covers the name in the stored document. */
  ghost predicate Covered(ctx: Context, spec: Spec, row: VersionRow)
    requires spec.profile in ctx.settings.profiles
  {
    && PlainKey(ctx.encryptor, row).Ok? && StoredName(ctx, spec, row).Some? && StoredName(ctx, spec, row).value.Str?
    && ctx.certs.hasSan(row.publicKey, StoredName(ctx, spec, row).value.s)
    && ctx.certs.matches(row.publicKey, PlainKey(ctx.encryptor, row).value)
  }

  lemma XhttpCovered(ctx: Context, spec: Spec, previous: Option<VersionRow>, row: VersionRow)
    requires ctx.encryptor.Valid() && ctx.certs.Valid() && spec.profile.XrayXhttp?
    requires Builds(ctx, spec, previous, row) && NoExternalPair(ctx, spec)
    ensures Covered(ctx, spec, row)
  {
    var o, name, preferred := TlsRow(ctx, spec, previous, row);
    ResolvedCovers(o, name);
    XhttpStoredName(ctx, spec, previous, row);
  }

  lemma XhttpStoredName(ctx: Context, spec: Spec, previous: Option<VersionRow>, row: VersionRow)
    requires ctx.encryptor.Valid() && spec.profile.XrayXhttp? && Builds(ctx, spec, previous, row)
    ensures spec.profile in ctx.settings.profiles
    ensures StoredName(ctx, spec, row) == Some(Str(ShareHost(ctx.settings, ctx.settings.profiles[spec.profile], Stripped(spec.publicHost))))
  {
    var used, draws, stored, o, built := Unfold(ctx, spec, previous, row);
    ReadBackIsOk(ctx, spec, previous, draws);
    var back := ReadBack(ctx, spec, previous).value;
    var picked := PickListeningPort(spec.profile, o, ExcludedPorts(used, o.policy, previous), KeptPort(o.policy, previous)).value;
    XhttpDocument(o, picked);
    if built.writesCert {
      CertPathsKeepServerName(built.config, o.profile.inboundTag, draws.writtenCert, draws.writtenKey);
    }
    RowReadsBack(ctx, spec.profile, row.port, built, stored.files, draws.nonce);
  }

  lemma HysteriaCovered(ctx: Context, spec: Spec, previous: Option<VersionRow>, row: VersionRow)
    requires ctx.encryptor.Valid() && ctx.certs.Valid() && spec.profile.Hysteria2?
    requires Builds(ctx, spec, previous, row) && NoExternalPair(ctx, spec)
    ensures Covered(ctx, spec, row)
  {
    var o, name, preferred := TlsRow(ctx, spec, previous, row);
    ResolvedCovers(o, name);
    HysteriaStoredName(ctx, spec, previous, row);
  }

  lemma HysteriaStoredName(ctx: Context, spec: Spec, previous: Option<VersionRow>, row: VersionRow)
    requires ctx.encryptor.Valid() && spec.profile.Hysteria2? && Builds(ctx, spec, previous, row)
    ensures spec.profile in ctx.settings.profiles
    ensures StoredName(ctx, spec, row) == Some(Str(ShareHost(ctx.settings, ctx.settings.profiles[spec.profile], Stripped(spec.publicHost))))
  {
    var used, draws, stored, o, built := Unfold(ctx, spec, previous, row);
    var picked := PickListeningPort(spec.profile, o, ExcludedPorts(used, o.policy, previous), KeptPort(o.policy, previous)).value;
    HysteriaBuilt(o, picked);
    if built.writesCert {
      CertPathsKeepSni(built.config, draws.writtenCert, draws.writtenKey);
    }
    RowReadsBack(ctx, spec.profile, row.port, built, stored.files, draws.nonce);
  }

  lemma HysteriaBuilt(o: Order, port: int)
    requires BuildHysteria(o, port).Ok?
    ensures var host := ShareHost(o.settings, o.profile, o.configHost);
            ResolveTls(o, host).Ok? && HysteriaTls(BuildHysteria(o, port).value.config, ResolveTls(o, host).value.1, ResolveTls(o, host).value.2, host)
  {
  }

  lemma NameStored(ctx: Context, spec: Spec, row: VersionRow)
    requires spec.profile.XrayGrpc? && spec.profile in ctx.settings.profiles
    requires StoredNames(ctx, spec, row).Ok? && StoredNames(ctx, spec, row).value.0 != Null
    ensures StoredName(ctx, spec, row) == Some(StoredNames(ctx, spec, row).value.0)
  {
    var plain := PlainConfig(ctx.encryptor, spec.profile, row).value;
    NamesShowServerName(FindInbound(plain, ctx.settings.profiles[spec.profile].inboundTag).value);
  }

  lemma NullStored(ctx: Context, spec: Spec, row: VersionRow)
    requires spec.profile.XrayGrpc? && spec.profile in ctx.settings.profiles
    requires StoredNames(ctx, spec, row).Ok? && StoredNames(ctx, spec, row).value.0 == Null
    ensures StoredName(ctx, spec, row).None? || StoredName(ctx, spec, row) == Some(Null)
  {
  }

  /** What the name of a gRPC version has to be for its certificate to cover it: without a pinned host, a
      chosen host has no white space around it, and where no hosts are configured the template names the
      advertised host. */
  ghost predicate NameIsServed(ctx: Context, spec: Spec, row: VersionRow)
    requires Known(ctx, spec)
  {
    spec.profile.XrayGrpc? && !Pinned(ctx, spec) ==>
      if ctx.settings.profiles[spec.profile].grpcSniHosts == [] then TemplateNames(ctx, spec).0 == Str(HostOf(ctx, spec))
      else CleanName(ctx, spec, row)
  }

  lemma GrpcCoveredIff(ctx: Context, spec: Spec, previous: Option<VersionRow>, row: VersionRow)
    requires ctx.encryptor.Valid() && ctx.certs.Valid() && spec.profile.XrayGrpc? && Builds(ctx, spec, previous, row)
    requires NoExternalPair(ctx, spec) && (previous.Some? ==> PanelPair(ctx, previous.value))
    ensures Known(ctx, spec) && (Covered(ctx, spec, row) <==> NameIsServed(ctx, spec, row))
  {
    var name := BuiltPair(ctx, spec, previous, row);
    var o, preferred := NamesOfRow(ctx, spec, previous, row);
    SniChoice(o, preferred.0);
    var stored := StoredNames(ctx, spec, row).value.0;
    if stored == Null {
      NullStored(ctx, spec, row);
    } else {
      NameStored(ctx, spec, row);
    }
    assert Covered(ctx, spec, row) <==> stored == Str(Strip(name));
  }

  /** A version of a TLS profile stores a certificate that fits its key and covers the name in its document,
      whether the pair was reused or minted: always for xHTTP and Hysteria2, whatever was built before; for
      gRPC exactly when its name is one that certificates are issued for as it stands. */
  lemma BuiltIsCovered(ctx: Context, spec: Spec, previous: Option<VersionRow>, row: VersionRow)
    requires ctx.encryptor.Valid() && ctx.certs.Valid() && !spec.profile.XrayReality?
    requires Builds(ctx, spec, previous, row) && NoExternalPair(ctx, spec)
    requires spec.profile.XrayGrpc? && previous.Some? ==> PanelPair(ctx, previous.value)
    ensures Known(ctx, spec) && (Covered(ctx, spec, row) <==> NameIsServed(ctx, spec, row))
  {
    match spec.profile {
      case XrayXhttp => XhttpCovered(ctx, spec, previous, row);
      case XrayGrpc => GrpcCoveredIff(ctx, spec, previous, row);
      case Hysteria2 => HysteriaCovered(ctx, spec, previous, row);
    }
  }

  // ---- The share link ----

  /** The SNI that a link of this document sends is the document's name. */
  lemma LinkSendsName(profile: Profile, config: Json, ps: ProfileSettings, host: string, name: string)
    requires NameIn(profile, config, ps.inboundTag) == Some(Str(name)) && name != ""
    ensures profile.XrayXhttp? && ShareUri.ReadXhttp(FindInbound(config, ps.inboundTag).value, host).Ok? ==>
              ShareUri.ReadXhttp(FindInbound(config, ps.inboundTag).value, host).value.sni == name
    ensures profile.XrayGrpc? && ShareUri.ReadGrpcLink(FindInbound(config, ps.inboundTag).value, host).Ok? ==>
              ShareUri.ReadGrpcLink(FindInbound(config, ps.inboundTag).value, host).value.sni == name
    ensures profile.Hysteria2? && ShareUri.HysteriaSni(config, host).Ok? && GetOr(config, "sni", Null) == Ok(Null) ==>
              ShareUri.HysteriaSni(config, host).value == name
  {
  }
}
