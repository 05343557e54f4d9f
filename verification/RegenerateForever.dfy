/** Any number of regenerations with a flag off: the port, the keys, the certificate, the passwords
    and the gRPC names of version 1 are those of every version. */
module RegenerateForever {
  import opened Wrappers
  import opened Text
  import opened JsonTree
  import opened FieldCrypto
  import opened PortPicker
  import opened Store
  import opened Settings
  import opened ConfigBuilder
  import opened ConfigBuild
  import opened ChainLaw
  import opened RegenerateChain
  import opened RegenerateKept

  // ---- The port ----

  ghost function PortWatcher(ctx: Context): Watcher<int>
  {
    Watcher(
      BuildLink(ctx),
      (spec: Spec) => Known(ctx, spec) && !ResolvedPolicy(ctx, spec).rotatePort,
      (spec: Spec, row: VersionRow) => Known(ctx, spec) && row.port in ctx.settings.profiles[spec.profile].portCandidates,
      (spec: Spec, row: VersionRow) => row.port)
  }

  lemma PortSteady(ctx: Context)
    ensures Steady(PortWatcher(ctx))
  {
    var w := PortWatcher(ctx);
    forall a, rowA, b, rowB | Relays(w, a, rowA, b, rowB) ensures w.holds(b, rowB) && w.sees(b, rowB) == w.sees(a, rowA) {
      PortKept(ctx, b, rowA, rowB);
    }
  }

  /** With the port flag off every version listens where version 1 did. */
  lemma PortForever(ctx: Context, specs: seq<Spec>, rows: seq<VersionRow>, i: nat)
    requires IsWatchedChain(PortWatcher(ctx), specs, rows) && i < |rows|
    ensures rows[i].port == rows[0].port
  {
    PortSteady(ctx);
    assert WatchedAt(PortWatcher(ctx), specs, rows, 0);
    PortIsCandidate(ctx, specs[0], None, rows[0]);
    SteadyChain(PortWatcher(ctx), specs, rows, i);
  }

  // ---- Reality keys ----

  ghost function KeysWatcher(ctx: Context): Watcher<(Result<string>, string)>
  {
    Watcher(
      BuildLink(ctx),
      (spec: Spec) => spec.profile.XrayReality? && Known(ctx, spec) && !ResolvedPolicy(ctx, spec).rotateRealityKeys,
      (spec: Spec, row: VersionRow) => HasKeys(ctx, row),
      (spec: Spec, row: VersionRow) => (PlainKey(ctx.encryptor, row), row.publicKey))
  }

  lemma KeysSteady(ctx: Context)
    requires ctx.encryptor.Valid()
    ensures Steady(KeysWatcher(ctx))
  {
    var w := KeysWatcher(ctx);
    forall a, rowA, b, rowB | Relays(w, a, rowA, b, rowB) ensures w.holds(b, rowB) && w.sees(b, rowB) == w.sees(a, rowA) {
      RealityKeysKept(ctx, b, rowA, rowB);
    }
  }

  /** With the key flag off every version has the Reality key pair of version 1, as decrypted. */
  lemma RealityKeysForever(ctx: Context, specs: seq<Spec>, rows: seq<VersionRow>, i: nat)
    requires ctx.encryptor.Valid() && IsWatchedChain(KeysWatcher(ctx), specs, rows) && i < |rows|
    requires specs[0].profile.XrayReality?
    ensures PlainKey(ctx.encryptor, rows[i]) == PlainKey(ctx.encryptor, rows[0]) && rows[i].publicKey == rows[0].publicKey
  {
    KeysSteady(ctx);
    assert WatchedAt(KeysWatcher(ctx), specs, rows, 0);
    RealityHasKeys(ctx, specs[0], None, rows[0]);
    SteadyChain(KeysWatcher(ctx), specs, rows, i);
  }

  // ---- Certificates of xHTTP and Hysteria2 ----

  ghost function CertWatcher(ctx: Context): Watcher<(Result<string>, string, string)>
  {
    Watcher(
      BuildLink(ctx),
      (spec: Spec) => NoExternalPair(ctx, spec) && !spec.profile.XrayReality? && !spec.profile.XrayGrpc? && !ResolvedPolicy(ctx, spec).rotateTls,
      (spec: Spec, row: VersionRow) => MintedFor(ctx, row, HostOf(ctx, spec)),
      (spec: Spec, row: VersionRow) => (PlainKey(ctx.encryptor, row), row.publicKey, row.fingerprint))
  }

  lemma CertStep(ctx: Context, a: Spec, rowA: VersionRow, b: Spec, rowB: VersionRow)
    requires ctx.encryptor.Valid() && Builds(ctx, b, Some(rowA), rowB) && a.profile == b.profile && a.publicHost == b.publicHost
    requires NoExternalPair(ctx, b) && !b.profile.XrayReality? && !b.profile.XrayGrpc? && !ResolvedPolicy(ctx, b).rotateTls
    requires MintedFor(ctx, rowA, HostOf(ctx, a))
    ensures MintedFor(ctx, rowB, HostOf(ctx, b))
    ensures PlainKey(ctx.encryptor, rowB) == PlainKey(ctx.encryptor, rowA)
    ensures rowB.publicKey == rowA.publicKey && rowB.fingerprint == rowA.fingerprint
  {
    var certified, seed := PairReusedIff(ctx, b, rowA, rowB, HostOf(ctx, a));
  }

  lemma CertStart(ctx: Context, spec: Spec, row: VersionRow)
    requires ctx.encryptor.Valid() && ctx.certs.Valid() && Builds(ctx, spec, None, row)
    requires NoExternalPair(ctx, spec) && !spec.profile.XrayReality? && !spec.profile.XrayGrpc?
    ensures MintedFor(ctx, row, HostOf(ctx, spec))
  {
    var name := BuiltPair(ctx, spec, None, row);
  }

  lemma CertSteady(ctx: Context)
    requires ctx.encryptor.Valid()
    ensures Steady(CertWatcher(ctx))
  {
    var w := CertWatcher(ctx);
    forall a, rowA, b, rowB | Relays(w, a, rowA, b, rowB) ensures w.holds(b, rowB) && w.sees(b, rowB) == w.sees(a, rowA) {
      CertStep(ctx, a, rowA, b, rowB);
    }
  }

  lemma AuthSteady(ctx: Context)
    requires ctx.encryptor.Valid()
    ensures Steady(AuthWatcher(ctx))
  {
    var w := AuthWatcher(ctx);
    forall a, rowA, b, rowB | Relays(w, a, rowA, b, rowB) ensures w.holds(b, rowB) && w.sees(b, rowB) == w.sees(a, rowA) {
      var o := HysteriaRow(ctx, b, Some(rowA), rowB);
    }
  }

  lemma ObfsSteady(ctx: Context)
    requires ctx.encryptor.Valid()
    ensures Steady(ObfsWatcher(ctx))
  {
    var w := ObfsWatcher(ctx);
    forall a, rowA, b, rowB | Relays(w, a, rowA, b, rowB) ensures w.holds(b, rowB) && w.sees(b, rowB) == w.sees(a, rowA) {
      var o := HysteriaRow(ctx, b, Some(rowA), rowB);
    }
  }

  /** With the TLS flag off and no external pair every version serves the certificate of version 1. */
  lemma CertificateForever(ctx: Context, specs: seq<Spec>, rows: seq<VersionRow>, i: nat)
    requires ctx.encryptor.Valid() && ctx.certs.Valid() && IsWatchedChain(CertWatcher(ctx), specs, rows) && i < |rows|
    requires NoExternalPair(ctx, specs[0]) && !specs[0].profile.XrayReality? && !specs[0].profile.XrayGrpc?
    ensures PlainKey(ctx.encryptor, rows[i]) == PlainKey(ctx.encryptor, rows[0])
    ensures rows[i].publicKey == rows[0].publicKey && rows[i].fingerprint == rows[0].fingerprint
  {
    CertSteady(ctx);
    assert WatchedAt(CertWatcher(ctx), specs, rows, 0);
    CertStart(ctx, specs[0], rows[0]);
    SteadyChain(CertWatcher(ctx), specs, rows, i);
  }

  // ---- Hysteria2 passwords ----

  ghost function AuthOf(ctx: Context, row: VersionRow): Option<string>
  {
    match StoredPasswords(ctx, row) case Ok(p) => p.0 case Raised => None
  }

  ghost function ObfsOf(ctx: Context, row: VersionRow): Option<string>
  {
    match StoredPasswords(ctx, row) case Ok(p) => p.1 case Raised => None
  }

  ghost function AuthWatcher(ctx: Context): Watcher<Option<string>>
  {
    Watcher(
      BuildLink(ctx),
      (spec: Spec) => spec.profile.Hysteria2? && Known(ctx, spec) && !ResolvedPolicy(ctx, spec).rotateAuth,
      (spec: Spec, row: VersionRow) => AuthOf(ctx, row).Some?,
      (spec: Spec, row: VersionRow) => AuthOf(ctx, row))
  }

  ghost function ObfsWatcher(ctx: Context): Watcher<Option<string>>
  {
    Watcher(
      BuildLink(ctx),
      (spec: Spec) => spec.profile.Hysteria2? && Known(ctx, spec) && !ResolvedPolicy(ctx, spec).rotateObfs,
      (spec: Spec, row: VersionRow) => ObfsOf(ctx, row).Some?,
      (spec: Spec, row: VersionRow) => ObfsOf(ctx, row))
  }

  lemma AuthForever(ctx: Context, specs: seq<Spec>, rows: seq<VersionRow>, i: nat)
    requires ctx.encryptor.Valid() && IsWatchedChain(AuthWatcher(ctx), specs, rows) && i < |rows| && specs[0].profile.Hysteria2?
    ensures AuthOf(ctx, rows[i]).Some? && AuthOf(ctx, rows[i]) == AuthOf(ctx, rows[0])
  {
    AuthSteady(ctx);
    assert WatchedAt(AuthWatcher(ctx), specs, rows, 0);
    var o := HysteriaRow(ctx, specs[0], None, rows[0]);
    SteadyChain(AuthWatcher(ctx), specs, rows, i);
  }

  lemma ObfsForever(ctx: Context, specs: seq<Spec>, rows: seq<VersionRow>, i: nat)
    requires ctx.encryptor.Valid() && IsWatchedChain(ObfsWatcher(ctx), specs, rows) && i < |rows| && specs[0].profile.Hysteria2?
    ensures ObfsOf(ctx, rows[i]).Some? && ObfsOf(ctx, rows[i]) == ObfsOf(ctx, rows[0])
  {
    ObfsSteady(ctx);
    assert WatchedAt(ObfsWatcher(ctx), specs, rows, 0);
    var o := HysteriaRow(ctx, specs[0], None, rows[0]);
    SteadyChain(ObfsWatcher(ctx), specs, rows, i);
  }

  // ---- gRPC names ----

  /** The name chosen from a configured list, or the template's when there is no list. */
  ghost predicate FromList(name: Json, choices: seq<string>, original: Json)
  {
    if choices == [] then name == original else InList(name, choices)
  }

  ghost function TemplateNames(ctx: Context, spec: Spec): (Json, Json)
    requires Known(ctx, spec)
  {
    var ps := ctx.settings.profiles[spec.profile];
    match FindInbound(ps.template, ps.inboundTag)
    case Raised => (Null, Null)
    case Ok(inbound) => (match GrpcNames(inbound) case Raised => (Null, Null) case Ok(names) => names)
  }

  ghost predicate ServiceHolds(ctx: Context, spec: Spec, row: VersionRow)
  {
    && Known(ctx, spec) && StoredNames(ctx, spec, row).Ok?
    && FromList(StoredNames(ctx, spec, row).value.1, ctx.settings.profiles[spec.profile].grpcServiceNames, TemplateNames(ctx, spec).1)
  }

  ghost predicate SniHolds(ctx: Context, spec: Spec, row: VersionRow)
  {
    && Known(ctx, spec) && StoredNames(ctx, spec, row).Ok?
    && if Pinned(ctx, spec) then StoredNames(ctx, spec, row).value.0 == Str(HostOf(ctx, spec))
       else FromList(StoredNames(ctx, spec, row).value.0, ctx.settings.profiles[spec.profile].grpcSniHosts, TemplateNames(ctx, spec).0)
  }

  ghost function ServiceOf(ctx: Context, spec: Spec, row: VersionRow): Json
  {
    match StoredNames(ctx, spec, row) case Ok(names) => names.1 case Raised => Null
  }

  ghost function SniOf(ctx: Context, spec: Spec, row: VersionRow): Json
  {
    match StoredNames(ctx, spec, row) case Ok(names) => names.0 case Raised => Null
  }

  /** The next build takes the name over: it is the template's, pinned, or a non-empty one of a list. An
      empty name counts as none. */
  ghost predicate ServiceStays(ctx: Context, spec: Spec, row: VersionRow)
  {
    ServiceHolds(ctx, spec, row) && (ctx.settings.profiles[spec.profile].grpcServiceNames == [] || ServiceOf(ctx, spec, row) != Str(""))
  }

  ghost predicate SniStays(ctx: Context, spec: Spec, row: VersionRow)
  {
    && SniHolds(ctx, spec, row)
    && (Pinned(ctx, spec) || ctx.settings.profiles[spec.profile].grpcSniHosts == [] || SniOf(ctx, spec, row) != Str(""))
  }

  ghost function ServiceWatcher(ctx: Context): Watcher<Json>
  {
    Watcher(
      BuildLink(ctx),
      (spec: Spec) => spec.profile.XrayGrpc? && Known(ctx, spec) && !ResolvedPolicy(ctx, spec).rotateServiceName,
      (spec: Spec, row: VersionRow) => ServiceStays(ctx, spec, row),
      (spec: Spec, row: VersionRow) => ServiceOf(ctx, spec, row))
  }

  ghost function SniWatcher(ctx: Context): Watcher<Json>
  {
    Watcher(
      BuildLink(ctx),
      (spec: Spec) => spec.profile.XrayGrpc? && Known(ctx, spec),
      (spec: Spec, row: VersionRow) => SniStays(ctx, spec, row),
      (spec: Spec, row: VersionRow) => SniOf(ctx, spec, row))
  }

  /** The builder's two choices, given the names of the version before. */
  lemma ServiceChoice(o: Order, preferred: Json)
    ensures o.profile.grpcServiceNames == [] ==> GrpcService(o, preferred).None?
    ensures o.profile.grpcServiceNames != [] ==> GrpcService(o, preferred).Some? && GrpcService(o, preferred).value in o.profile.grpcServiceNames
    ensures !o.policy.rotateServiceName && InList(preferred, o.profile.grpcServiceNames) && preferred.s != "" ==>
              GrpcService(o, preferred) == Some(preferred.s)
  {
    if o.profile.grpcServiceNames != [] {
      assert Choose(o.profile.grpcServiceNames, o.draws.serviceDraw) in o.profile.grpcServiceNames;
    }
  }

  lemma SniChoice(o: Order, preferred: Json)
    ensures var pinned := Strip(FirstTruthy(o.configHost, o.profile.sharePublicHost)) != "";
            && (pinned ==> GrpcSni(o, preferred).0 == Some(ShareHost(o.settings, o.profile, o.configHost)))
            && (!pinned && o.profile.grpcSniHosts == [] ==> GrpcSni(o, preferred).0.None?)
            && (!pinned && o.profile.grpcSniHosts != [] ==>
                 GrpcSni(o, preferred).0.Some? && GrpcSni(o, preferred).0.value in o.profile.grpcSniHosts)
            && (!pinned && InList(preferred, o.profile.grpcSniHosts) && preferred.s != "" ==>
                 GrpcSni(o, preferred).0 == Some(preferred.s))
  {
    if o.profile.grpcSniHosts != [] {
      assert Choose(o.profile.grpcSniHosts, o.draws.sniDraw) in o.profile.grpcSniHosts;
    }
  }

  /** A gRPC row reduced to its two names. */
  lemma NamesOfRow(ctx: Context, spec: Spec, previous: Option<VersionRow>, row: VersionRow) returns (o: Order, preferred: (Json, Json))
    requires ctx.encryptor.Valid() && spec.profile.XrayGrpc? && Builds(ctx, spec, previous, row)
    ensures Known(ctx, spec) && o == OrderFor(ctx, spec, o.previous, o.draws)
    ensures StoredNames(ctx, spec, row).Ok?
    ensures SniOf(ctx, spec, row) == if GrpcSni(o, preferred.0).0.Some? then Str(GrpcSni(o, preferred.0).0.value) else TemplateNames(ctx, spec).0
    ensures ServiceOf(ctx, spec, row) == if GrpcService(o, preferred.1).Some? then Str(GrpcService(o, preferred.1).value) else TemplateNames(ctx, spec).1
    ensures previous.Some? ==> StoredNames(ctx, spec, previous.value) == Ok(preferred)
  {
    var original;
    o, preferred, original := GrpcRow(ctx, spec, previous, row);
  }

  lemma ServiceStep(ctx: Context, a: Spec, rowA: VersionRow, b: Spec, rowB: VersionRow)
    requires ctx.encryptor.Valid() && a.profile == b.profile && b.profile.XrayGrpc? && Builds(ctx, b, Some(rowA), rowB)
    requires Known(ctx, b) && !ResolvedPolicy(ctx, b).rotateServiceName && ServiceStays(ctx, a, rowA)
    ensures ServiceStays(ctx, b, rowB) && ServiceOf(ctx, b, rowB) == ServiceOf(ctx, a, rowA)
  {
    var o, preferred := NamesOfRow(ctx, b, Some(rowA), rowB);
    SameNames(ctx, a, b, rowA);
    ServiceChoice(o, preferred.1);
  }

  lemma SameNames(ctx: Context, a: Spec, b: Spec, row: VersionRow)
    requires a.profile == b.profile
    ensures StoredNames(ctx, a, row) == StoredNames(ctx, b, row)
    ensures ServiceHolds(ctx, a, row) ==> ServiceHolds(ctx, b, row)
    ensures a.publicHost == b.publicHost && SniHolds(ctx, a, row) ==> SniHolds(ctx, b, row)
    ensures ServiceStays(ctx, a, row) ==> ServiceStays(ctx, b, row)
    ensures a.publicHost == b.publicHost && SniStays(ctx, a, row) ==> SniStays(ctx, b, row)
  {
  }

  lemma SniStep(ctx: Context, a: Spec, rowA: VersionRow, b: Spec, rowB: VersionRow)
    requires ctx.encryptor.Valid() && a.profile == b.profile && a.publicHost == b.publicHost
    requires b.profile.XrayGrpc? && Builds(ctx, b, Some(rowA), rowB)
    requires Known(ctx, b) && SniStays(ctx, a, rowA)
    ensures SniStays(ctx, b, rowB) && SniOf(ctx, b, rowB) == SniOf(ctx, a, rowA)
  {
    var o, preferred := NamesOfRow(ctx, b, Some(rowA), rowB);
    SameNames(ctx, a, b, rowA);
    SniChoice(o, preferred.0);
  }

  lemma FirstNames(ctx: Context, spec: Spec, row: VersionRow)
    requires ctx.encryptor.Valid() && spec.profile.XrayGrpc? && Builds(ctx, spec, None, row)
    ensures ServiceHolds(ctx, spec, row) && SniHolds(ctx, spec, row)
  {
    var o, preferred := NamesOfRow(ctx, spec, None, row);
    SniChoice(o, preferred.0);
    ServiceChoice(o, preferred.1);
  }

  lemma ServiceSteady(ctx: Context)
    requires ctx.encryptor.Valid()
    ensures Steady(ServiceWatcher(ctx))
  {
    var w := ServiceWatcher(ctx);
    forall a, rowA, b, rowB | Relays(w, a, rowA, b, rowB) ensures w.holds(b, rowB) && w.sees(b, rowB) == w.sees(a, rowA) {
      ServiceStep(ctx, a, rowA, b, rowB);
    }
  }

  /** With the service flag off the service name never changes, unless version 1 drew an empty one. */
  lemma ServiceForever(ctx: Context, specs: seq<Spec>, rows: seq<VersionRow>, i: nat)
    requires ctx.encryptor.Valid() && IsWatchedChain(ServiceWatcher(ctx), specs, rows) && i < |rows| && specs[0].profile.XrayGrpc?
    requires Known(ctx, specs[0]) && (ctx.settings.profiles[specs[0].profile].grpcServiceNames == [] || ServiceOf(ctx, specs[0], rows[0]) != Str(""))
    ensures ServiceOf(ctx, specs[i], rows[i]) == ServiceOf(ctx, specs[0], rows[0])
  {
    ServiceSteady(ctx);
    assert WatchedAt(ServiceWatcher(ctx), specs, rows, 0);
    FirstNames(ctx, specs[0], rows[0]);
    SteadyChain(ServiceWatcher(ctx), specs, rows, i);
  }

  function DrawingService(o: Order, draw: nat): Order
  {
    o.(draws := o.draws.(serviceDraw := draw))
  }

  function DrawingSni(o: Order, draw: nat): Order
  {
    o.(draws := o.draws.(sniDraw := draw))
  }

  lemma ServiceDrawn(o: Order, name: string, draw: nat)
    requires name in o.profile.grpcServiceNames && !o.policy.rotateServiceName
    ensures var r := GrpcService(DrawingService(o, draw), Str(name));
            && r.Some? && r.value in o.profile.grpcServiceNames
            && (name != "" ==> r.value == name)
            && (name == "" && r.value == "" ==> Choose(o.profile.grpcServiceNames, draw) == "")
  {
    assert Choose(o.profile.grpcServiceNames, draw) in o.profile.grpcServiceNames;
  }

  predicate ServiceKeptBy(o: Order, name: string, draw: nat)
  {
    GrpcService(DrawingService(o, draw), Str(name)) == Some(name)
  }

  predicate AllEmpty(names: seq<string>)
  {
    forall other :: other in names ==> other == ""
  }

  /** What the two choices have in common, draw by draw. */
  predicate KeptOrDrawn(names: seq<string>, name: string, kept: nat -> bool, draw: nat)
    requires names != []
  {
    && (name != "" ==> kept(draw))
    && (name == "" && kept(draw) ==> Choose(names, draw) == "")
    && (name == "" && AllEmpty(names) ==> kept(draw))
  }

  lemma AlwaysKeptIff(names: seq<string>, name: string, kept: nat -> bool)
    requires name in names && forall draw: nat :: KeptOrDrawn(names, name, kept, draw)
    ensures (forall draw: nat :: kept(draw)) <==> name != "" || AllEmpty(names)
  {
    if name != "" || AllEmpty(names) {
      forall draw: nat ensures kept(draw) {
        assert KeptOrDrawn(names, name, kept, draw);
      }
    } else {
      var k := SomeDraw(names);
      assert KeptOrDrawn(names, name, kept, k) && !kept(k);
    }
  }

  lemma SomeDraw(names: seq<string>) returns (k: nat)
    requires !AllEmpty(names)
    ensures names != [] && Choose(names, k) != ""
  {
    var other :| other in names && other != "";
    k :| 0 <= k < |names| && names[k] == other;
    SmallMod(k, |names|);
  }

  /** A listed service name survives the next build, whatever it draws, exactly when it is not empty or
      there is nothing else to draw. */
  lemma ServiceKeptIff(o: Order, name: string)
    requires name in o.profile.grpcServiceNames && !o.policy.rotateServiceName
    ensures (forall draw: nat :: ServiceKeptBy(o, name, draw)) <==> name != "" || AllEmpty(o.profile.grpcServiceNames)
  {
    var kept := (draw: nat) => ServiceKeptBy(o, name, draw);
    forall draw: nat ensures KeptOrDrawn(o.profile.grpcServiceNames, name, kept, draw) && kept(draw) == ServiceKeptBy(o, name, draw) {
      ServiceDrawn(o, name, draw);
    }
    AlwaysKeptIff(o.profile.grpcServiceNames, name, kept);
  }

  lemma SniDrawn(o: Order, name: string, draw: nat)
    requires name in o.profile.grpcSniHosts && Strip(FirstTruthy(o.configHost, o.profile.sharePublicHost)) == ""
    ensures var r := GrpcSni(DrawingSni(o, draw), Str(name));
            && r.0 == Some(r.1) && r.1 in o.profile.grpcSniHosts
            && (name != "" ==> r.1 == name)
            && (name == "" && r.1 == "" ==> Choose(o.profile.grpcSniHosts, draw) == "")
  {
    assert Choose(o.profile.grpcSniHosts, draw) in o.profile.grpcSniHosts;
  }

  /** The same for the SNI, which has no flag, when no host is pinned. */
  lemma SniKeptIff(o: Order, name: string)
    requires name in o.profile.grpcSniHosts && Strip(FirstTruthy(o.configHost, o.profile.sharePublicHost)) == ""
    ensures (forall draw: nat :: SniKeptBy(o, name, draw)) <==> name != "" || AllEmpty(o.profile.grpcSniHosts)
  {
    var kept := (draw: nat) => SniKeptBy(o, name, draw);
    forall draw: nat ensures KeptOrDrawn(o.profile.grpcSniHosts, name, kept, draw) && kept(draw) == SniKeptBy(o, name, draw) {
      SniDrawn(o, name, draw);
    }
    AlwaysKeptIff(o.profile.grpcSniHosts, name, kept);
  }

  /** Two choices, one of them empty: the empty one is drawn again, and the other may come. */
  lemma EmptyNamesAreRedrawn(o: Order)
    requires o.profile.grpcServiceNames == ["", "a"] && !o.policy.rotateServiceName
    requires o.profile.grpcSniHosts == ["", "a"] && Strip(FirstTruthy(o.configHost, o.profile.sharePublicHost)) == ""
    ensures !(forall draw: nat :: ServiceKeptBy(o, "", draw)) && GrpcService(DrawingService(o, 1), Str("")) == Some("a")
    ensures !(forall draw: nat :: SniKeptBy(o, "", draw)) && GrpcSni(DrawingSni(o, 1), Str("")) == (Some("a"), "a")
  {
    assert ["", "a"][0] == "" && ["", "a"][1] == "a" && Choose(["", "a"], 1) == "a";
    ServiceKeptIff(o, "");
    SniKeptIff(o, "");
    ServiceDrawn(o, "", 1);
    SniDrawn(o, "", 1);
  }

  predicate SniKeptBy(o: Order, name: string, draw: nat)
  {
    GrpcSni(DrawingSni(o, draw), Str(name)) == (Some(name), name)
  }

  lemma SniSteady(ctx: Context)
    requires ctx.encryptor.Valid()
    ensures Steady(SniWatcher(ctx))
  {
    var w := SniWatcher(ctx);
    forall a, rowA, b, rowB | Relays(w, a, rowA, b, rowB) ensures w.holds(b, rowB) && w.sees(b, rowB) == w.sees(a, rowA) {
      SniStep(ctx, a, rowA, b, rowB);
    }
  }

  /** The gRPC SNI never changes, whatever the flags, unless version 1 drew an empty one. */
  lemma SniForever(ctx: Context, specs: seq<Spec>, rows: seq<VersionRow>, i: nat)
    requires ctx.encryptor.Valid() && IsWatchedChain(SniWatcher(ctx), specs, rows) && i < |rows| && specs[0].profile.XrayGrpc?
    requires Known(ctx, specs[0])
    requires Pinned(ctx, specs[0]) || ctx.settings.profiles[specs[0].profile].grpcSniHosts == [] || SniOf(ctx, specs[0], rows[0]) != Str("")
    ensures SniOf(ctx, specs[i], rows[i]) == SniOf(ctx, specs[0], rows[0])
  {
    SniSteady(ctx);
    assert WatchedAt(SniWatcher(ctx), specs, rows, 0);
    FirstNames(ctx, specs[0], rows[0]);
    SteadyChain(SniWatcher(ctx), specs, rows, i);
  }
}
