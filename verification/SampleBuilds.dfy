/** Small panels in which builds succeed, whatever the certificates and the encryptor are: the inputs on
    which the conditions of the other theorems fail. */
module SampleBuilds {
  import opened Wrappers
  import opened Text
  import opened JsonTree
  import opened FieldCrypto
  import opened PortPicker
  import opened Store
  import opened Settings
  import opened ConfigBuilder
  import opened ConfigBuild
  import opened BuilderViews
  import opened VersionChain
  import opened Regenerate
  import opened RegenerateChain
  import opened RegenerateKept

  const KeepAll := Policy(false, false, false, false, false, false, false, false, false, false)

  function Drawing(id: string, seed: nat): Draws
  {
    Draws(id, "private", "public", ["ab"], "password", "obfs", 0, 0, 0, 0, 0, seed, 0, (p: int, udp: bool) => true, Ok(None), "/live/cert", "/live/key", true)
  }

  function Profile1(template: Json, tag: string, ports: seq<int>, hosts: seq<string>, sharePort: Option<int>): ProfileSettings
  {
    ProfileSettings(template, tag, ports, [], hosts, [], [], [], sharePort, None, None, None, false, false, "/etc/cert", "/etc/key")
  }

  function Panel1(profile: Profile, ps: ProfileSettings): PanelSettings
  {
    PanelSettings("", [], 8080, false, map[profile := ps])
  }

  // ---- gRPC: a guest inbound before the tagged one ----

  function Clients(client: Json): Json
  {
    Obj(map["clients" := Arr([client])])
  }

  const TemplateName := "t.com"
  const Guest := Obj(map["tag" := Str("guest"), "settings" := Clients(Obj(map["id" := Str("guest")]))])
  const Named := Obj(map["serverName" := Str(TemplateName)])
  const Stream := Obj(map["tlsSettings" := Named, "grpcSettings" := Obj(map[])])
  const Main := Obj(map["tag" := Str("main"), "settings" := Clients(Obj(map[])), "streamSettings" := Stream])
  const Template := Obj(map["inbounds" := Arr([Guest, Main])])

  /** What varies in the panel: the configured gRPC host, if any, and the port candidates. */
  datatype Plan = Plan(host: Option<string>, ports: seq<int>)

  function Hosts(plan: Plan): seq<string>
  {
    if plan.host.Some? then [plan.host.value] else []
  }

  function GrpcProfile(plan: Plan): ProfileSettings
  {
    Profile1(Template, "main", plan.ports, Hosts(plan), None)
  }

  function GrpcPanel(plan: Plan): PanelSettings
  {
    Panel1(XrayGrpc, GrpcProfile(plan))
  }

  /** The name in the document, and the name that the certificate is issued for. */
  function ShownName(plan: Plan): string
  {
    plan.host.GetOr(TemplateName)
  }

  function PairName(plan: Plan): string
  {
    plan.host.GetOr("localhost")
  }

  predicate HasName(plan: Plan)
  {
    plan.host.Some? ==> Strip(plan.host.value) != ""
  }

  /** The first candidate is the pick: it is the only one, or nobody uses it. */
  predicate PicksFirst(plan: Plan, used: set<int>)
  {
    plan.ports != [] && (|plan.ports| == 1 || plan.ports[0] !in used)
  }

  const Office := Spec("office", XrayGrpc, None, Some(KeepAll))

  function MainSecured(name: string): Json
  {
    Obj(map["alpn" := Arr([Str("h2")]), "serverName" := Str(name), "certificates" := Certificates("/etc/cert", "/etc/key")])
  }

  function Served(port: int, id: Json, name: string): Json
  {
    Listener(port, id, Obj(map["tlsSettings" := MainSecured(name), "grpcSettings" := Obj(map[])]))
  }

  lemma OneClient(id: Json)
    ensures WithId([Obj(map[])], id) == Ok([Obj(map["id" := id])])
  {
    var none: map<string, Json> := map[];
    var clients := [Obj(none)];
    assert none["id" := id] == map["id" := id];
    assert WithId(clients[1..], id) == Ok([]);
    assert [Obj(map["id" := id])] + [] == [Obj(map["id" := id])];
  }

  function Listener(port: int, id: Json, stream: Json): Json
  {
    Obj(map["tag" := Str("main"), "settings" := Clients(Obj(map["id" := id])), "port" := Num(port), "streamSettings" := stream])
  }

  lemma MainIdentified(o: Order, port: int)
    requires o.profile.listenAddress.None?
    ensures Identified(Main, o, port) == Ok(Listener(port, ClientId(o), Stream))
  {
    assert Listening(Main, port, o.profile) == Ok(Obj(Main.fields["port" := Num(port)]));
    MainNamed(port, ClientId(o));
  }

  lemma MainNamed(port: int, id: Json)
    ensures SetClientId(Obj(Main.fields["port" := Num(port)]), id) == Ok(Listener(port, id, Stream))
  {
    OneClient(id);
    var listening := Obj(Main.fields["port" := Num(port)]);
    var clients := Clients(Obj(map[]));
    assert GetOr(listening, "settings", Obj(map[])) == Ok(clients);
    assert GetOr(clients, "clients", Arr([])) == Ok(Arr([Obj(map[])]));
    var changed := Clients(Obj(map["id" := id]));
    assert clients.fields["clients" := Arr([Obj(map["id" := id])])] == changed.fields;
    assert listening.fields["settings" := changed] == Listener(port, id, Stream).fields;
    assert SetClientId(listening, id) == Put(listening, "settings", changed);
  }

  lemma MainTls(plan: Plan)
    ensures GrpcTls(Named, plan.host, "/etc/cert", "/etc/key") == Ok(MainSecured(ShownName(plan)))
  {
    var alpn := Named.fields["alpn" := Arr([Str("h2")])] - {"fingerprint"};
    var named := if plan.host.Some? then alpn["serverName" := Str(plan.host.value)] else alpn;
    assert named["certificates" := Certificates("/etc/cert", "/etc/key")] == MainSecured(ShownName(plan)).fields;
  }

  lemma MainStream(plan: Plan)
    ensures GrpcStream(Stream, plan.host, None, "/etc/cert", "/etc/key")
            == Ok(Obj(map["tlsSettings" := MainSecured(ShownName(plan)), "grpcSettings" := Obj(map[])]))
  {
    MainTls(plan);
    var secured := MainSecured(ShownName(plan));
    assert Stream.fields["grpcSettings" := Obj(map[])]["tlsSettings" := secured]
           == map["tlsSettings" := secured, "grpcSettings" := Obj(map[])];
  }

  lemma MainIsServed(o: Order, port: int, plan: Plan)
    requires o.profile.listenAddress.None?
    ensures GrpcInbound(Main, o, port, plan.host, None, "/etc/cert", "/etc/key") == Ok(Served(port, ClientId(o), ShownName(plan)))
  {
    MainIdentified(o, port);
    MainStream(plan);
    var identified := Identified(Main, o, port).value.fields;
    var stream := Obj(map["tlsSettings" := MainSecured(ShownName(plan)), "grpcSettings" := Obj(map[])]);
    assert identified["streamSettings" := stream] == Served(port, ClientId(o), ShownName(plan)).fields;
  }

  function Doc(port: int, id: Json, name: string): Json
  {
    Obj(map["inbounds" := Arr([Guest, Served(port, id, name)])])
  }

  lemma MainIsFound(main: Json)
    requires GetOr(main, "tag", Null) == Ok(Str("main"))
    ensures FindTag([Guest, main], "main") == Ok(1)
  {
    var items := [Guest, main];
    assert GetOr(items[0], "tag", Null) == Ok(Str("guest"));
    assert "guest" != "main" by { assert "guest"[0] == 'g'; }
    assert items[1..] == [main] && FindTag(items[1..], "main") == Ok(0);
  }

  predicate IsOffice(o: Order, plan: Plan)
  {
    && o.profile == GrpcProfile(plan) && o.settings.publicHost == "" && o.configHost.None? && o.policy == KeepAll
    && HasName(plan)
  }

  lemma OfficeSni(o: Order, plan: Plan, sni: Json)
    requires IsOffice(o, plan)
    ensures GrpcSni(o, sni) == (plan.host, PairName(plan))
  {
    assert Strip("") == "";
    if plan.host.Some? {
      assert Choose(Hosts(plan), o.draws.sniDraw) in Hosts(plan);
    }
  }

  /** The gRPC builder on this template. */
  lemma OfficeBuilds(o: Order, port: int, plan: Plan, sni: Json, service: Json)
    requires IsOffice(o, plan)
    ensures ResolveTls(o, PairName(plan)).Ok?
    ensures var pair := ResolveTls(o, PairName(plan)).value.0;
            BuildGrpc(o, port, sni, service)
            == Ok(Built(Doc(port, ClientId(o), ShownName(plan)), pair.privateKey, pair.cert, pair.fingerprint, true))
  {
    OfficeSni(o, plan, sni);
    OfficePair(o, plan);
    MainIsFound(Main);
    MainIsServed(o, port, plan);
    MainReplaced(port, ClientId(o), ShownName(plan));
  }

  lemma OfficePair(o: Order, plan: Plan)
    requires IsOffice(o, plan)
    ensures ResolveTls(o, PairName(plan)).Ok? && GrpcService(o, Null) == None
    ensures var tls := ResolveTls(o, PairName(plan)).value; tls.1 == "/etc/cert" && tls.2 == "/etc/key" && tls.3
  {
    LocalIsClean();
  }

  lemma LocalIsClean()
    ensures Strip("localhost") == "localhost"
  {
    StripClean("localhost");
  }

  lemma MainReplaced(port: int, id: Json, name: string)
    ensures Inbounds(Template) == Ok([Guest, Main])
    ensures ReplaceInbound(Template, [Guest, Main], 1, Served(port, id, name)) == Ok(Doc(port, id, name))
  {
    assert [Guest, Main][1 := Served(port, id, name)] == [Guest, Served(port, id, name)];
    assert Template.fields["inbounds" := Arr([Guest, Served(port, id, name)])] == Doc(port, id, name).fields;
  }

  lemma OfficeFiles(port: int, id: Json, name: string)
    ensures ApplyCertPaths(XrayGrpc, Doc(port, id, name), "/live/cert", "/live/key").Ok?
    ensures Inbounds(Doc(port, id, name)) == Ok([Guest, Served(port, id, name)])
  {
    var items := [Guest, Served(port, id, name)];
    assert RewriteInbound(items[0], "/live/cert", "/live/key") == Ok(None);
    var entry := Obj(map["certificateFile" := Str("/etc/cert"), "keyFile" := Str("/etc/key")]);
    assert GetOr(MainSecured(name), "certificates", Null) == Ok(Arr([entry]));
    assert RewriteInbound(items[1], "/live/cert", "/live/key").Ok?;
    assert items[1..] == [Served(port, id, name)];
    assert RewriteFirst(items[1..], "/live/cert", "/live/key").Ok?;
  }

  /** What a reader finds in it. */
  lemma OfficeReads(port: int, id: Json, name: string)
    requires Truthy(id) && name != ""
    ensures Glean(Guest) == Ok(Nothing.(clientId := Some(Str("guest"))))
    ensures Glean(Served(port, id, name)) == Ok(Nothing.(clientId := Some(id), sni := Some(name)))
    ensures GrpcNames(Served(port, id, name)) == Ok((Str(name), Null))
  {
    assert FirstClientId(Guest) == Ok(Some(Str("guest")));
    ServedReads(port, id, name);
  }

  lemma ServedReads(port: int, id: Json, name: string)
    requires Truthy(id) && name != ""
    ensures Glean(Served(port, id, name)) == Ok(Nothing.(clientId := Some(id), sni := Some(name)))
    ensures GrpcNames(Served(port, id, name)) == Ok((Str(name), Null))
  {
    assert FirstClientId(Served(port, id, name)) == Ok(Some(id));
    var stream := Obj(map["tlsSettings" := MainSecured(name), "grpcSettings" := Obj(map[])]);
    assert Section(Served(port, id, name), "streamSettings") == Ok(stream);
    assert Section(stream, "tlsSettings") == Ok(MainSecured(name));
    assert TextField(MainSecured(name), "serverName") == Ok(Some(name));
  }

  lemma FirstPort(ports: seq<int>, blocked: set<int>, free: BindCheck, preferred: Option<int>)
    requires ports != [] && free(ports[0], false) && (preferred.Some? ==> preferred.value == ports[0])
    requires |ports| == 1 || preferred.Some? || ports[0] !in blocked
    ensures PickPort(ports, blocked, free, false, preferred, 0) == Ok(ports[0])
  {
    if preferred.None? {
      var pool := Pool(ports, blocked);
      assert ports[0] in ports;
      assert pool != [] && pool[0] == ports[0];
      assert Bindable(pool, free, false)[0] == ports[0];
    }
  }

  lemma TwoRead(items: seq<Json>, id: Json, name: string)
    requires |items| == 2 && Glean(items[0]) == Ok(Nothing.(clientId := Some(Str("guest"))))
    requires Glean(items[1]) == Ok(Nothing.(clientId := Some(id), sni := Some(name)))
    ensures GleanAll(items) == Ok(Nothing.(clientId := Some(Str("guest")), sni := Some(name)))
  {
    assert items[..1] == [items[0]] && items[..1][..0] == [];
    assert GleanAll(items[..1]) == Ok(Nothing.(clientId := Some(Str("guest"))));
  }

  lemma SecondIsFound(items: seq<Json>)
    requires |items| == 2 && GetOr(items[0], "tag", Null) == Ok(Str("guest")) && GetOr(items[1], "tag", Null) == Ok(Str("main"))
    ensures FindTag(items, "main") == Ok(1)
  {
    assert items[1..] == [items[1]] && FindTag(items[1..], "main") == Ok(0);
    assert "guest" != "main" by { assert "guest"[0] == 'g'; }
  }

  /** What is stored reads as the document that was built. */
  lemma StoredReads(ctx: Context, port: int, id: Json, plan: Plan, row: VersionRow, doc: Json)
    requires ctx.settings == GrpcPanel(plan) && Truthy(id) && ShownName(plan) != ""
    requires PlainConfig(ctx.encryptor, XrayGrpc, row) == Ok(doc) && SameInbounds(Doc(port, id, ShownName(plan)), doc)
    requires Inbounds(Doc(port, id, ShownName(plan))) == Ok([Guest, Served(port, id, ShownName(plan))])
    ensures Taken(ctx, Office, row) == Ok(Nothing.(clientId := Some(Str("guest")), sni := Some(ShownName(plan))))
    ensures TaggedField(ctx, Office, row, ClientIdField) == Some(id)
    ensures StoredNames(ctx, Office, row) == Ok((Str(ShownName(plan)), Null))
  {
    var items, name := Inbounds(doc).value, ShownName(plan);
    OfficeReads(port, id, name);
    assert SameView(Guest, items[0]) && SameView(Served(port, id, name), items[1]);
    TwoRead(items, id, name);
    SecondIsFound(items);
  }

  /** The order of a build on this panel. */
  function OfficeOrder(ctx: Context, plan: Plan, previous: Option<VersionRow>, id: string, seed: nat): (o: Order)
    requires ctx.settings == GrpcPanel(plan) && ReadBack(ctx, Office, previous).Ok?
    ensures o.profile == GrpcProfile(plan) && o.configHost.None? && o.policy == KeepAll
  {
    OrderFor(ctx, Office, ReadBack(ctx, Office, previous).value.0, Drawing(id, seed))
  }

  lemma OfficeListens(port: int, id: Json, name: string, ps: ProfileSettings)
    requires ps.inboundTag == "main" && Inbounds(Doc(port, id, name)) == Ok([Guest, Served(port, id, name)])
    ensures ListeningPort(XrayGrpc, Doc(port, id, name), ps) == Ok(port)
  {
    MainIsFound(Served(port, id, name));
  }

  lemma OfficeStored(ctx: Context, plan: Plan, previous: Option<VersionRow>, used: set<int>, id: string, seed: nat) returns (stored: Stored)
    requires ctx.settings == GrpcPanel(plan) && ReadBack(ctx, Office, previous).Ok? && HasName(plan) && PicksFirst(plan, used)
    requires previous.Some? ==> previous.value.port == plan.ports[0]
    ensures BuildVersion(ctx, Office, previous, used, Drawing(id, seed)) == Ok(stored)
    ensures var o := OfficeOrder(ctx, plan, previous, id, seed);
            && ResolveTls(o, PairName(plan)).Ok? && stored.row.port == plan.ports[0] && stored.row.publicKey == ResolveTls(o, PairName(plan)).value.0.cert
            && SameInbounds(Doc(plan.ports[0], ClientId(o), ShownName(plan)), stored.files.config)
            && exists built :: stored.row == Persist(ctx, XrayGrpc, plan.ports[0], built, stored.files, 0)
  {
    var o, port := OfficeOrder(ctx, plan, previous, id, seed), plan.ports[0];
    var back := ReadBack(ctx, Office, previous).value;
    FirstPort(plan.ports, BlockedPorts(XrayGrpc, ctx.settings, ExcludedPorts(used, o.policy, previous)), o.draws.free, KeptPort(o.policy, previous));
    OfficeBuilds(o, port, plan, back.1.0, back.1.1);
    OfficeFiles(port, ClientId(o), ShownName(plan));
    OfficeListens(port, ClientId(o), ShownName(plan), o.profile);
    CertPathsKeepInbounds(XrayGrpc, Doc(port, ClientId(o), ShownName(plan)), "/live/cert", "/live/key");
    stored := BuildVersion(ctx, Office, previous, used, Drawing(id, seed)).value;
  }

  /** A version of the sample panel: it builds, it can be read again, and it shows the order's client id and
      the certificate that the order settles on. */
  lemma OfficeVersion(ctx: Context, plan: Plan, previous: Option<VersionRow>, used: set<int>, id: string, seed: nat)
    returns (row: VersionRow)
    requires ctx.encryptor.Valid() && ctx.settings == GrpcPanel(plan) && ReadBack(ctx, Office, previous).Ok? && HasName(plan) && id != ""
    requires PicksFirst(plan, used) && (previous.Some? ==> previous.value.port == plan.ports[0])
    ensures BuildVersion(ctx, Office, previous, used, Drawing(id, seed)).Ok?
    ensures row == BuildVersion(ctx, Office, previous, used, Drawing(id, seed)).value.row
    ensures Builds(ctx, Office, previous, row) && row.port == plan.ports[0]
    ensures ReadBack(ctx, Office, Some(row)).Ok?
    ensures var o := OfficeOrder(ctx, plan, previous, id, seed);
            && ResolveTls(o, PairName(plan)).Ok? && row.publicKey == ResolveTls(o, PairName(plan)).value.0.cert
            && TaggedField(ctx, Office, row, ClientIdField) == Some(ClientId(o))
    ensures Taken(ctx, Office, row) == Ok(Nothing.(clientId := Some(Str("guest")), sni := Some(ShownName(plan))))
    ensures StoredNames(ctx, Office, row) == Ok((Str(ShownName(plan)), Null))
  {
    var o, port := OfficeOrder(ctx, plan, previous, id, seed), plan.ports[0];
    ReadBackIsOk(ctx, Office, previous, Drawing(id, seed));
    var stored := OfficeStored(ctx, plan, previous, used, id, seed);
    row := stored.row;
    var built :| row == Persist(ctx, XrayGrpc, port, built, stored.files, 0);
    RowReadsBack(ctx, XrayGrpc, port, built, stored.files, 0);
    OfficeFiles(port, ClientId(o), ShownName(plan));
    assert ShownName(plan) != "" by { assert Strip("") == ""; }
    StoredReads(ctx, port, ClientId(o), plan, row, stored.files.config);
  }

  // ---- Hysteria2 with an advertised port ----

  const HallTemplate := Obj(map["auth" := Obj(map[]), "tls" := Obj(map[])])
  const Hall := Spec("hall", Hysteria2, None, Some(KeepAll))

  function HallPanel(advertised: int, other: int): PanelSettings
  {
    Panel1(Hysteria2, Profile1(HallTemplate, "", [advertised, other], [], Some(advertised)))
  }

  lemma HallBuilds(o: Order, port: int)
    requires o.profile.template == HallTemplate && !o.profile.externalTls && o.policy == KeepAll && o.previous.None?
    ensures BuildHysteria(o, port).Ok? && BuildHysteria(o, port).value.writesCert
    ensures ApplyCertPaths(Hysteria2, BuildHysteria(o, port).value.config, "/live/cert", "/live/key").Ok?
  {
    var host := ShareHost(o.settings, o.profile, o.configHost);
    assert ResolveTls(o, host).Ok?;
    var listening := Put(HallTemplate, "listen", Str(":" + Text.Text(port)));
    assert Index(listening.value, "auth") == Ok(Obj(map[])) && Index(listening.value, "tls") == Ok(Obj(map[]));
  }

  /** Its first version listens on the advertised port, whoever else does. */
  lemma HallVersion(ctx: Context, advertised: int, other: int, used: set<int>, seed: nat) returns (row: VersionRow)
    requires ctx.settings == HallPanel(advertised, other)
    ensures BuildVersion(ctx, Hall, None, used, Drawing("id", seed)).Ok?
    ensures row == BuildVersion(ctx, Hall, None, used, Drawing("id", seed)).value.row && row.port == advertised
  {
    var o := OrderFor(ctx, Hall, None, Drawing("id", seed));
    assert PickListeningPort(Hysteria2, o, used, None) == Ok(advertised);
    HallBuilds(o, advertised);
    HysteriaShows(BuildHysteria(o, advertised).value.config, HallTemplate, advertised, Passwords(o), o.profile);
    row := BuildVersion(ctx, Hall, None, used, Drawing("id", seed)).value.row;
  }
}
