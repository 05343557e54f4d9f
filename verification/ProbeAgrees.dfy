/** The share link a user decodes and the client the probe runs describe the same endpoint. */
module ProbeAgrees {
  import opened Wrappers
  import opened Text
  import opened JsonTree
  import opened FieldCrypto
  import opened PortPicker
  import opened Store
  import opened Settings
  import opened ConfigBuilder
  import opened ConfigBuild
  import opened UriReader
  import opened ShareUri
  import opened XrayLinks
  import opened Probe
  import opened RealityStored

  /** The value of a query parameter; empty when it is missing. */
  function Get(params: seq<Param>, key: string): string
  {
    if params == [] then "" else if params[0].0 == key then params[0].1 else Get(params[1..], key)
  }

  /** What a client takes from a decoded link. */
  function FromUri(profile: Profile, u: Uri): Endpoint
  {
    Endpoint(u.host, u.port, u.user, Get(u.params, "sni"), Get(u.params, if profile.Hysteria2? then "pinSHA256" else "pcs"),
             if Get(u.params, "obfs") == "salamander" then Some(Get(u.params, "obfs-password")) else None,
             Get(u.params, "flow"), Get(u.params, "pbk"), Get(u.params, "sid"),
             Get(u.params, "host"), Get(u.params, "path"), Get(u.params, "mode"), Get(u.params, "serviceName"))
  }

  lemma GetHead(p: Param, rest: seq<Param>, key: string)
    ensures Get([p] + rest, key) == if p.0 == key then p.1 else Get(rest, key)
  {
    assert ([p] + rest)[0] == p && ([p] + rest)[1..] == rest;
  }

  // ---- Hysteria2 ----

  lemma HysteriaGets(f: HysteriaFields, fingerprint: string, key: string)
    ensures Get(HysteriaMeant(f, fingerprint, true), key)
            == if key == "sni" then f.sni
               else if f.obfs.Some? && key == "obfs" then "salamander"
               else if f.obfs.Some? && key == "obfs-password" then f.obfs.value
               else if key == "pinSHA256" then PinHex(fingerprint)
               else if key == "insecure" then "0" else ""
  {
    var sni := ("sni", f.sni);
    var obfs := if f.obfs.Some? then [("obfs", "salamander"), ("obfs-password", f.obfs.value)] else [];
    var trust := HysteriaTrust(fingerprint, true);
    assert HysteriaMeant(f, fingerprint, true) == [sni] + (obfs + trust);
    GetHead(sni, obfs + trust, key);
    if f.obfs.Some? {
      assert obfs + trust == [("obfs", "salamander")] + ([("obfs-password", f.obfs.value)] + trust);
      GetHead(("obfs", "salamander"), [("obfs-password", f.obfs.value)] + trust, key);
      GetHead(("obfs-password", f.obfs.value), trust, key);
    } else {
      assert obfs + trust == trust;
    }
    TrustGets(fingerprint, key);
  }

  lemma TrustGets(fingerprint: string, key: string)
    ensures Get(HysteriaTrust(fingerprint, true), key)
            == if key == "pinSHA256" then PinHex(fingerprint) else if key == "insecure" then "0" else ""
    ensures Get(Trust(fingerprint, true), key) == if key == "pcs" then PinHex(fingerprint) else ""
  {
    var pin := PinHex(fingerprint);
    GetHead(("insecure", "0"), [], key);
    assert [("insecure", "0")] + [] == [("insecure", "0")];
    GetHead(("pinSHA256", pin), [("insecure", "0")], key);
    GetHead(("pcs", pin), [], key);
    assert [("pcs", pin)] + [] == [("pcs", pin)];
  }

  /** The parameters that another profile uses are absent. */
  lemma HysteriaEndpoint(u: Uri, f: HysteriaFields, fingerprint: string)
    requires u.params == HysteriaMeant(f, fingerprint, true)
    ensures FromUri(Hysteria2, u) == Dialled(u.host, u.port, u.user, f.sni).(pin := PinHex(fingerprint), obfs := f.obfs)
  {
    assert Get(u.params, "sni") == f.sni by { HysteriaGets(f, fingerprint, "sni"); }
    assert Get(u.params, "pinSHA256") == PinHex(fingerprint) by { HysteriaGets(f, fingerprint, "pinSHA256"); }
    assert Get(u.params, "obfs") == (if f.obfs.Some? then "salamander" else "") by { HysteriaGets(f, fingerprint, "obfs"); }
    assert Get(u.params, "flow") == "" by { HysteriaGets(f, fingerprint, "flow"); }
    assert Get(u.params, "pbk") == "" by { HysteriaGets(f, fingerprint, "pbk"); }
    assert Get(u.params, "sid") == "" by { HysteriaGets(f, fingerprint, "sid"); }
    assert Get(u.params, "host") == "" by { HysteriaGets(f, fingerprint, "host"); }
    assert Get(u.params, "path") == "" by { HysteriaGets(f, fingerprint, "path"); }
    assert Get(u.params, "mode") == "" by { HysteriaGets(f, fingerprint, "mode"); }
    assert Get(u.params, "serviceName") == "" by { HysteriaGets(f, fingerprint, "serviceName"); }
    assert f.obfs.Some? ==> Get(u.params, "obfs-password") == f.obfs.value by { HysteriaGets(f, fingerprint, "obfs-password"); }
  }

  // ---- Reality, xHTTP and gRPC ----

  lemma RealityEndpoint(u: Uri, f: RealityFields, publicKey: string)
    requires u.params == RealityMeant(f, publicKey)
    ensures FromUri(XrayReality, u) == Dialled(u.host, u.port, u.user, f.sni).(flow := f.flow, publicKey := publicKey, shortId := f.shortId)
  {
    assert Get(u.params, "sni") == f.sni by { RealityGets(f, publicKey, "sni"); }
    assert Get(u.params, "pcs") == "" by { RealityGets(f, publicKey, "pcs"); }
    assert Get(u.params, "obfs") == "" by { RealityGets(f, publicKey, "obfs"); }
    assert Get(u.params, "flow") == f.flow by { RealityGets(f, publicKey, "flow"); }
    assert Get(u.params, "pbk") == publicKey by { RealityGets(f, publicKey, "pbk"); }
    assert Get(u.params, "sid") == f.shortId by { RealityGets(f, publicKey, "sid"); }
    assert Get(u.params, "host") == "" by { RealityGets(f, publicKey, "host"); }
    assert Get(u.params, "path") == "" by { RealityGets(f, publicKey, "path"); }
    assert Get(u.params, "mode") == "" by { RealityGets(f, publicKey, "mode"); }
    assert Get(u.params, "serviceName") == "" by { RealityGets(f, publicKey, "serviceName"); }
  }

  lemma RealityGets(f: RealityFields, publicKey: string, key: string)
    ensures Get(RealityMeant(f, publicKey), key)
            == if key == "type" then "tcp" else if key == "security" then "reality" else if key == "flow" then f.flow
               else if key == "fp" then "chrome" else if key == "pbk" then publicKey else if key == "sid" then f.shortId
               else if key == "sni" then f.sni else ""
  {
    var tail: seq<Param> := if f.sni != "" then [("sni", f.sni)] else [];
    var six := [("sid", f.shortId)] + tail;
    var five := [("pbk", publicKey)] + six;
    var four := [("fp", "chrome")] + five;
    var three := [("flow", f.flow)] + four;
    var two := [("security", "reality")] + three;
    assert RealityMeant(f, publicKey) == [("type", "tcp")] + two;
    GetHead(("type", "tcp"), two, key);
    GetHead(("security", "reality"), three, key);
    GetHead(("flow", f.flow), four, key);
    GetHead(("fp", "chrome"), five, key);
    GetHead(("pbk", publicKey), six, key);
    GetHead(("sid", f.shortId), tail, key);
    GetHead(("sni", f.sni), [], key);
    assert [("sni", f.sni)] + [] == [("sni", f.sni)];
  }

  lemma XhttpGets(f: XhttpFields, fingerprint: string, key: string)
    ensures Get(XhttpMeant(f, fingerprint, true), key)
            == if key == "type" then "xhttp" else if key == "security" then "tls" else if key == "host" then f.mask
               else if key == "path" then f.path else if key == "mode" then f.mode else if key == "fp" then "chrome"
               else if key == "sni" then f.sni else if key == "pcs" then PinHex(fingerprint) else ""
  {
    var trust := Trust(fingerprint, true);
    var six := [("sni", f.sni)] + trust;
    var five := [("fp", "chrome")] + six;
    var four := [("mode", f.mode)] + five;
    var three := [("path", f.path)] + four;
    var two := [("host", f.mask)] + three;
    var one := [("security", "tls")] + two;
    assert XhttpMeant(f, fingerprint, true) == [("type", "xhttp")] + one;
    GetHead(("type", "xhttp"), one, key);
    GetHead(("security", "tls"), two, key);
    GetHead(("host", f.mask), three, key);
    GetHead(("path", f.path), four, key);
    GetHead(("mode", f.mode), five, key);
    GetHead(("fp", "chrome"), six, key);
    GetHead(("sni", f.sni), trust, key);
    TrustGets(fingerprint, key);
  }

  lemma XhttpEndpoint(u: Uri, f: XhttpFields, fingerprint: string)
    requires u.params == XhttpMeant(f, fingerprint, true)
    ensures FromUri(XrayXhttp, u)
            == Dialled(u.host, u.port, u.user, f.sni).(pin := PinHex(fingerprint), mask := f.mask, path := f.path, mode := f.mode)
  {
    assert Get(u.params, "sni") == f.sni by { XhttpGets(f, fingerprint, "sni"); }
    assert Get(u.params, "pcs") == PinHex(fingerprint) by { XhttpGets(f, fingerprint, "pcs"); }
    assert Get(u.params, "obfs") == "" by { XhttpGets(f, fingerprint, "obfs"); }
    assert Get(u.params, "flow") == "" by { XhttpGets(f, fingerprint, "flow"); }
    assert Get(u.params, "pbk") == "" by { XhttpGets(f, fingerprint, "pbk"); }
    assert Get(u.params, "sid") == "" by { XhttpGets(f, fingerprint, "sid"); }
    assert Get(u.params, "host") == f.mask by { XhttpGets(f, fingerprint, "host"); }
    assert Get(u.params, "path") == f.path by { XhttpGets(f, fingerprint, "path"); }
    assert Get(u.params, "mode") == f.mode by { XhttpGets(f, fingerprint, "mode"); }
    assert Get(u.params, "serviceName") == "" by { XhttpGets(f, fingerprint, "serviceName"); }
  }

  lemma GrpcGets(f: GrpcFields, fingerprint: string, key: string)
    ensures Get(GrpcMeant(f, fingerprint, true), key)
            == if key == "type" then "grpc" else if key == "security" then "tls" else if key == "serviceName" then f.service
               else if key == "fp" then "chrome" else if key == "sni" then f.sni else if key == "pcs" then PinHex(fingerprint) else ""
  {
    var trust := Trust(fingerprint, true);
    var four := [("sni", f.sni)] + trust;
    var three := [("fp", "chrome")] + four;
    var two := [("serviceName", f.service)] + three;
    var one := [("security", "tls")] + two;
    assert GrpcMeant(f, fingerprint, true) == [("type", "grpc")] + one;
    GetHead(("type", "grpc"), one, key);
    GetHead(("security", "tls"), two, key);
    GetHead(("serviceName", f.service), three, key);
    GetHead(("fp", "chrome"), four, key);
    GetHead(("sni", f.sni), trust, key);
    TrustGets(fingerprint, key);
  }

  lemma GrpcEndpoint(u: Uri, f: GrpcFields, fingerprint: string)
    requires u.params == GrpcMeant(f, fingerprint, true)
    ensures FromUri(XrayGrpc, u) == Dialled(u.host, u.port, u.user, f.sni).(pin := PinHex(fingerprint), service := f.service)
  {
    assert Get(u.params, "sni") == f.sni by { GrpcGets(f, fingerprint, "sni"); }
    assert Get(u.params, "pcs") == PinHex(fingerprint) by { GrpcGets(f, fingerprint, "pcs"); }
    assert Get(u.params, "obfs") == "" by { GrpcGets(f, fingerprint, "obfs"); }
    assert Get(u.params, "flow") == "" by { GrpcGets(f, fingerprint, "flow"); }
    assert Get(u.params, "pbk") == "" by { GrpcGets(f, fingerprint, "pbk"); }
    assert Get(u.params, "sid") == "" by { GrpcGets(f, fingerprint, "sid"); }
    assert Get(u.params, "host") == "" by { GrpcGets(f, fingerprint, "host"); }
    assert Get(u.params, "path") == "" by { GrpcGets(f, fingerprint, "path"); }
    assert Get(u.params, "mode") == "" by { GrpcGets(f, fingerprint, "mode"); }
    assert Get(u.params, "serviceName") == f.service by { GrpcGets(f, fingerprint, "serviceName"); }
  }

  // ---- The two readings of one stored version ----

  /** Everything but the SNI agrees exactly. */
  predicate SameButName(a: Endpoint, b: Endpoint)
  {
    a.(sni := "") == b.(sni := "")
  }

  /** The stored server name is there, but only white space. */
  predicate BlankName(tls: Json)
  {
    GetOr(tls, "serverName", Null).Ok? && GetOr(tls, "serverName", Null).value.Str?
    && GetOr(tls, "serverName", Null).value.s != "" && Strip(GetOr(tls, "serverName", Null).value.s) == ""
  }

  lemma NamesAgree(tls: Json, host: string)
    requires NameOr(tls, host).Ok? && ProbeName(tls, host).Ok? && Trimmed(host)
    ensures Strip(NameOr(tls, host).value) == Strip(ProbeName(tls, host).value) <==> !BlankName(tls)
  {
    var name := GetOr(tls, "serverName", Null).value;
    StripTrimmed(host);
    if Truthy(name) {
      StripIdempotent(PyText(name).value);
      match name {
        case Num(n) => NumberText(n);
        case Bool(b) => StripTrimmed("True");
        case _ =>
      }
    }
  }

  lemma NumberText(n: int)
    ensures Strip(Text.Text(n)) != ""
  {
    var s := Text.Text(n);
    if n >= 0 {
      assert s[0] in Decimal(n) && s[|s| - 1] in Decimal(n);
    } else {
      var d := Decimal(-n);
      assert d[|d| - 1] in d;
    }
    StripTrimmed(s);
  }

  // ---- Reality's random name ----

  function RealityCandidates(reality: Json): Result<seq<string>>
  {
    var names :- GetOr(reality, "serverNames", Null);
    var items :- Listed(names);
    NameCandidates(items)
  }

  /** Nothing is left to chance: the destination has a host, or no two candidate names differ. */
  predicate Steady(reality: Json)
  {
    && DestHost(reality).Ok?
    && (DestHost(reality).value != "" ||
          (RealityCandidates(reality).Ok? &&
             forall i, j :: 0 <= i < j < |RealityCandidates(reality).value| ==> RealityCandidates(reality).value[i] == RealityCandidates(reality).value[j]))
  }

  lemma DrawChooses(xs: seq<string>, i: nat)
    requires i < |xs|
    ensures Choose(xs, i) == xs[i]
  {
    SmallMod(i, |xs|);
  }

  /** Every draw gives the same Reality name exactly when nothing is left to chance. */
  lemma RealityNameSteadyIff(reality: Json)
    requires RealityShareSni(reality, 0).Ok?
    ensures (forall a: nat, b: nat :: RealityShareSni(reality, a) == RealityShareSni(reality, b)) <==> Steady(reality)
  {
    if DestHost(reality).value == "" {
      var names := RealityCandidates(reality).value;
      if forall a: nat, b: nat :: RealityShareSni(reality, a) == RealityShareSni(reality, b) {
        forall i, j | 0 <= i < j < |names| ensures names[i] == names[j] {
          DrawChooses(names, i);
          DrawChooses(names, j);
          assert RealityShareSni(reality, i) == RealityShareSni(reality, j);
        }
      }
      if Steady(reality) {
        forall a: nat, b: nat ensures RealityShareSni(reality, a) == RealityShareSni(reality, b) {
          if names != [] {
            var i, j := a % |names|, b % |names|;
            assert names[i] == names[j];
          }
        }
      }
    }
  }

  // ---- Agreement ----

  /** The version is what the panel stored, and the probe has a public host to dial. */
  ghost predicate Comparable(settings: PanelSettings, e: Encryptor, profile: Profile, row: VersionRow, plain: Json, shareHost: Option<string>)
  {
    && profile in settings.profiles && settings.profiles[profile].sharePublicPort != Some(0)
    && PlainConfig(e, profile, row) == Ok(plain)
    && ListeningPort(profile, plain, settings.profiles[profile]) == Ok(row.port)
    && PreferHost(settings, profile, shareHost).Some?
    && !IsLoopback(PreferHost(settings, profile, shareHost).value)
    && ValidHost(PreferHost(settings, profile, shareHost).value)
    && DialPort(settings, profile, PreferHost(settings, profile, shareHost).value, row.port) >= 0
  }

  /** What the secure share link of the version is made from. */
  function LinkTerms(settings: PanelSettings, profile: Profile, row: VersionRow, shareHost: Option<string>, draw: nat): Terms
    requires profile in settings.profiles
  {
    Terms(ShareHost(settings, settings.profiles[profile], shareHost), row.publicKey, row.fingerprint, true, draw)
  }

  lemma SameTarget(settings: PanelSettings, e: Encryptor, profile: Profile, row: VersionRow, plain: Json, shareHost: Option<string>, draw: nat)
    requires Comparable(settings, e, profile, row, plain, shareHost)
    ensures var host := PreferHost(settings, profile, shareHost).value;
            && LinkTerms(settings, profile, row, shareHost, draw).host == host && Trimmed(host)
            && SharePort(profile, plain, settings.profiles[profile]) == Ok(DialPort(settings, profile, host, row.port))
  {
    FirstHostIsShareHost(settings, profile, shareHost);
    PreferIsStripped(settings, profile, shareHost);
  }

  /** Hysteria2: address, port, password, SNI, pin and obfuscation all agree. */
  lemma HysteriaAgrees(settings: PanelSettings, e: Encryptor, row: VersionRow, plain: Json, shareHost: Option<string>, draw: nat)
    requires Comparable(settings, e, Hysteria2, row, plain, shareHost) && PlainValue(PinHex(row.fingerprint))
    requires HysteriaLink(plain, settings.profiles[Hysteria2], LinkTerms(settings, Hysteria2, row, shareHost, draw)).Ok?
    requires ProbeClient(settings, e, Hysteria2, row, PreferHost(settings, Hysteria2, shareHost).value, draw).Ok?
    ensures var link := HysteriaLink(plain, settings.profiles[Hysteria2], LinkTerms(settings, Hysteria2, row, shareHost, draw)).value;
            && ReadUri(Print(link)).Some?
            && Ok(FromUri(Hysteria2, ReadUri(Print(link)).value))
               == ProbeClient(settings, e, Hysteria2, row, PreferHost(settings, Hysteria2, shareHost).value, draw)
  {
    var ps, t := settings.profiles[Hysteria2], LinkTerms(settings, Hysteria2, row, shareHost, draw);
    SameTarget(settings, e, Hysteria2, row, plain, shareHost, draw);
    HysteriaLinkReadsBack(plain, ps, t);
    HysteriaClientReads(settings, row, plain, t.host);
    var f := ReadHysteria(plain, t.host).value;
    HysteriaEndpoint(Uri("hysteria2", f.password, t.host, SharePort(Hysteria2, plain, ps).value, HysteriaMeant(f, row.fingerprint, true),
                         ShareLabel(Hysteria2)), f, row.fingerprint);
  }

  lemma HysteriaClientReads(settings: PanelSettings, row: VersionRow, plain: Json, host: string)
    requires ReadHysteria(plain, host).Ok? && HysteriaClientOf(settings, row, plain, host).Ok?
    ensures var f := ReadHysteria(plain, host).value;
            HysteriaClientOf(settings, row, plain, host).value
            == Dialled(host, DialPort(settings, Hysteria2, host, row.port), f.password, f.sni).(pin := PinHex(row.fingerprint), obfs := f.obfs)
  {
    assert HysteriaSni(plain, host).Ok? && HysteriaObfs(plain).Ok?;
  }

  /** Reality: address, port, client id, public key, short id, flow and SNI all agree, as long as nothing
      is left to chance. */
  lemma RealityAgrees(settings: PanelSettings, e: Encryptor, row: VersionRow, plain: Json, shareHost: Option<string>, linkDraw: nat, probeDraw: nat)
    requires Comparable(settings, e, XrayReality, row, plain, shareHost)
    requires var ps, t := settings.profiles[XrayReality], LinkTerms(settings, XrayReality, row, shareHost, linkDraw);
             && XrayLink(XrayReality, plain, ps, t).Ok?
             && RawPartsPlain(XrayReality, FindInbound(plain, ps.inboundTag).value, t)
             && Steady(IndexedReality(FindInbound(plain, ps.inboundTag).value))
    requires ProbeClient(settings, e, XrayReality, row, PreferHost(settings, XrayReality, shareHost).value, probeDraw).Ok?
    ensures var link := XrayLink(XrayReality, plain, settings.profiles[XrayReality], LinkTerms(settings, XrayReality, row, shareHost, linkDraw)).value;
            && ReadUri(Print(link)).Some?
            && Ok(FromUri(XrayReality, ReadUri(Print(link)).value))
               == ProbeClient(settings, e, XrayReality, row, PreferHost(settings, XrayReality, shareHost).value, probeDraw)
  {
    var ps, t := settings.profiles[XrayReality], LinkTerms(settings, XrayReality, row, shareHost, linkDraw);
    var inbound := FindInbound(plain, ps.inboundTag).value;
    SameTarget(settings, e, XrayReality, row, plain, shareHost, linkDraw);
    XrayLinkReadsBack(XrayReality, plain, ps, t);
    SameReality(row.data, plain, e, ps.inboundTag, probeDraw);
    SteadyReading(inbound, linkDraw, probeDraw);
    var f := ReadReality(inbound, linkDraw).value;
    var u := Uri("vless", FirstId(inbound).value, t.host, SharePort(XrayReality, plain, ps).value, RealityMeant(f, row.publicKey), ShareLabel(XrayReality));
    RealityEndpoint(u, f, row.publicKey);
    RealityClient(settings, row, PreferHost(settings, XrayReality, shareHost).value, probeDraw);
  }

  /** `inbound["streamSettings"]["realitySettings"]`, or null where that raises. */
  function IndexedReality(inbound: Json): Json
  {
    match Index(inbound, "streamSettings")
    case Raised => Null
    case Ok(stream) => Index(stream, "realitySettings").GetOr(Null)
  }

  lemma SteadyReading(inbound: Json, a: nat, b: nat)
    requires ReadReality(inbound, a).Ok? && Steady(IndexedReality(inbound))
    ensures ReadReality(inbound, b) == ReadReality(inbound, a)
  {
    var reality := IndexedReality(inbound);
    RealityNameSteadyIff(reality);
    assert RealityShareSni(reality, a) == RealityShareSni(reality, b);
  }

  lemma RealityClient(settings: PanelSettings, row: VersionRow, host: string, draw: nat)
    requires XrayReality in settings.profiles && XrayClient(settings, XrayReality, row, host, draw).Ok?
    ensures var inbound := FindInbound(row.data, settings.profiles[XrayReality].inboundTag);
            && inbound.Ok? && FirstId(inbound.value).Ok? && ReadReality(inbound.value, draw).Ok?
            && XrayClient(settings, XrayReality, row, host, draw).value
               == Dialled(host, DialPort(settings, XrayReality, host, row.port), FirstId(inbound.value).value, ReadReality(inbound.value, draw).value.sni)
                  .(flow := ReadReality(inbound.value, draw).value.flow, publicKey := row.publicKey, shortId := ReadReality(inbound.value, draw).value.shortId)
  {
  }

  function TlsOf(profile: Profile, inbound: Json): Json
  {
    match Index(inbound, "streamSettings")
    case Raised => Null
    case Ok(stream) => if profile.XrayGrpc? then Index(stream, "tlsSettings").GetOr(Null) else Section(stream, "tlsSettings").GetOr(Null)
  }

  lemma GrpcReads(inbound: Json, host: string, base: Endpoint, fingerprint: string)
    requires Index(inbound, "streamSettings").Ok? && ReadGrpcLink(inbound, host).Ok? && base.address == host
    requires ProbeGrpc(Index(inbound, "streamSettings").value, base, fingerprint).Ok?
    ensures var f, tls := ReadGrpcLink(inbound, host).value, TlsOf(XrayGrpc, inbound);
            && NameOr(tls, host) == Ok(f.sni) && ProbeName(tls, host).Ok?
            && ProbeGrpc(Index(inbound, "streamSettings").value, base, fingerprint).value
               == base.(sni := ProbeName(tls, host).value, pin := PinHex(fingerprint), service := f.service)
  {
  }

  lemma GrpcClient(settings: PanelSettings, row: VersionRow, host: string)
    requires XrayGrpc in settings.profiles && XrayClient(settings, XrayGrpc, row, host, 0).Ok?
    requires ReadGrpcLink(FindInbound(row.data, settings.profiles[XrayGrpc].inboundTag).value, host).Ok? && Trimmed(host)
    ensures var inbound := FindInbound(row.data, settings.profiles[XrayGrpc].inboundTag).value;
            var client := XrayClient(settings, XrayGrpc, row, host, 0).value;
            var f := ReadGrpcLink(inbound, host).value;
            && FirstId(inbound).Ok?
            && SameButName(client, Dialled(host, DialPort(settings, XrayGrpc, host, row.port), FirstId(inbound).value, "")
                                   .(pin := PinHex(row.fingerprint), service := f.service))
            && (Strip(f.sni) == Strip(client.sni) <==> !BlankName(TlsOf(XrayGrpc, inbound)))
  {
    var inbound := FindInbound(row.data, settings.profiles[XrayGrpc].inboundTag).value;
    GrpcReads(inbound, host, Dialled(host, DialPort(settings, XrayGrpc, host, row.port), FirstId(inbound).value, ""), row.fingerprint);
    NamesAgree(TlsOf(XrayGrpc, inbound), host);
  }

  /** Link and probe read the same keys of an xHTTP inbound; only the SNI goes through two functions. */
  lemma XhttpReads(inbound: Json, host: string, base: Endpoint, fingerprint: string)
    requires Index(inbound, "streamSettings").Ok? && ReadXhttp(inbound, host).Ok? && base.address == host
    requires ProbeXhttp(Index(inbound, "streamSettings").value, base, fingerprint).Ok?
    ensures var f, tls := ReadXhttp(inbound, host).value, TlsOf(XrayXhttp, inbound);
            && NameOr(tls, host) == Ok(f.sni) && ProbeName(tls, host).Ok?
            && ProbeXhttp(Index(inbound, "streamSettings").value, base, fingerprint).value
               == base.(sni := ProbeName(tls, host).value, pin := PinHex(fingerprint), mask := f.mask, path := f.path, mode := f.mode)
  {
  }

  lemma XhttpClient(settings: PanelSettings, row: VersionRow, host: string)
    requires XrayXhttp in settings.profiles && XrayClient(settings, XrayXhttp, row, host, 0).Ok?
    requires ReadXhttp(FindInbound(row.data, settings.profiles[XrayXhttp].inboundTag).value, host).Ok? && Trimmed(host)
    ensures var inbound := FindInbound(row.data, settings.profiles[XrayXhttp].inboundTag).value;
            var client := XrayClient(settings, XrayXhttp, row, host, 0).value;
            var f := ReadXhttp(inbound, host).value;
            && FirstId(inbound).Ok?
            && SameButName(client, Dialled(host, DialPort(settings, XrayXhttp, host, row.port), FirstId(inbound).value, "")
                                   .(pin := PinHex(row.fingerprint), mask := f.mask, path := f.path, mode := f.mode))
            && (Strip(f.sni) == Strip(client.sni) <==> !BlankName(TlsOf(XrayXhttp, inbound)))
  {
    var inbound := FindInbound(row.data, settings.profiles[XrayXhttp].inboundTag).value;
    XhttpReads(inbound, host, Dialled(host, DialPort(settings, XrayXhttp, host, row.port), FirstId(inbound).value, ""), row.fingerprint);
    NamesAgree(TlsOf(XrayXhttp, inbound), host);
  }

  /** The link and the client name one endpoint, up to white space around the SNI. */
  predicate AgreeUnless(link: Endpoint, client: Endpoint, blank: bool)
  {
    SameButName(link, client) && (Strip(link.sni) == Strip(client.sni) <==> !blank)
  }

  /** gRPC: everything but the SNI agrees exactly, and the SNI agrees up to white space around it,
      unless the stored server name is nothing but white space. */
  lemma GrpcAgrees(settings: PanelSettings, e: Encryptor, row: VersionRow, plain: Json, shareHost: Option<string>)
    requires Comparable(settings, e, XrayGrpc, row, plain, shareHost)
    requires var ps, t := settings.profiles[XrayGrpc], LinkTerms(settings, XrayGrpc, row, shareHost, 0);
             XrayLink(XrayGrpc, plain, ps, t).Ok? && RawPartsPlain(XrayGrpc, FindInbound(plain, ps.inboundTag).value, t)
    requires ProbeClient(settings, e, XrayGrpc, row, PreferHost(settings, XrayGrpc, shareHost).value, 0).Ok?
    ensures var link := XrayLink(XrayGrpc, plain, settings.profiles[XrayGrpc], LinkTerms(settings, XrayGrpc, row, shareHost, 0)).value;
            && ReadUri(Print(link)).Some?
            && AgreeUnless(FromUri(XrayGrpc, ReadUri(Print(link)).value),
                           ProbeClient(settings, e, XrayGrpc, row, PreferHost(settings, XrayGrpc, shareHost).value, 0).value,
                           BlankName(TlsOf(XrayGrpc, FindInbound(plain, settings.profiles[XrayGrpc].inboundTag).value)))
  {
    var ps, t := settings.profiles[XrayGrpc], LinkTerms(settings, XrayGrpc, row, shareHost, 0);
    assert plain == row.data by { assert SensitiveFields(XrayGrpc) == []; }
    SameTarget(settings, e, XrayGrpc, row, plain, shareHost, 0);
    GrpcLinkSays(plain, ps, t);
    GrpcClient(settings, row, t.host);
  }

  /** The endpoint that the link of a gRPC version reads back to. */
  lemma GrpcLinkSays(plain: Json, ps: ProfileSettings, t: Terms)
    requires XrayLink(XrayGrpc, plain, ps, t).Ok? && RawPartsPlain(XrayGrpc, FindInbound(plain, ps.inboundTag).value, t)
    requires SharePort(XrayGrpc, plain, ps).value >= 0 && ValidHost(t.host) && t.secure
    ensures var inbound := FindInbound(plain, ps.inboundTag).value;
            && ReadGrpcLink(inbound, t.host).Ok? && FirstId(inbound).Ok?
            && var f, read := ReadGrpcLink(inbound, t.host).value, ReadUri(Print(XrayLink(XrayGrpc, plain, ps, t).value));
               && read.Some?
               && FromUri(XrayGrpc, read.value) == Dialled(t.host, SharePort(XrayGrpc, plain, ps).value, FirstId(inbound).value, f.sni)
                                                   .(pin := PinHex(t.fingerprint), service := f.service)
  {
    XrayLinkReadsBack(XrayGrpc, plain, ps, t);
    var inbound := FindInbound(plain, ps.inboundTag).value;
    var f := ReadGrpcLink(inbound, t.host).value;
    GrpcEndpoint(Uri("vless", FirstId(inbound).value, t.host, SharePort(XrayGrpc, plain, ps).value, GrpcMeant(f, t.fingerprint, true),
                     ShareLabel(XrayGrpc)), f, t.fingerprint);
  }

  lemma XhttpLinkSays(plain: Json, ps: ProfileSettings, t: Terms)
    requires XrayLink(XrayXhttp, plain, ps, t).Ok? && RawPartsPlain(XrayXhttp, FindInbound(plain, ps.inboundTag).value, t)
    requires SharePort(XrayXhttp, plain, ps).value >= 0 && ValidHost(t.host) && t.secure
    ensures var inbound := FindInbound(plain, ps.inboundTag).value;
            && ReadXhttp(inbound, t.host).Ok? && FirstId(inbound).Ok?
            && var f, read := ReadXhttp(inbound, t.host).value, ReadUri(Print(XrayLink(XrayXhttp, plain, ps, t).value));
               && read.Some?
               && FromUri(XrayXhttp, read.value) == Dialled(t.host, SharePort(XrayXhttp, plain, ps).value, FirstId(inbound).value, f.sni)
                                                    .(pin := PinHex(t.fingerprint), mask := f.mask, path := f.path, mode := f.mode)
  {
    XrayLinkReadsBack(XrayXhttp, plain, ps, t);
    var inbound := FindInbound(plain, ps.inboundTag).value;
    var f := ReadXhttp(inbound, t.host).value;
    XhttpEndpoint(Uri("vless", FirstId(inbound).value, t.host, SharePort(XrayXhttp, plain, ps).value, XhttpMeant(f, t.fingerprint, true),
                      ShareLabel(XrayXhttp)), f, t.fingerprint);
  }

  /** xHTTP: likewise. */
  lemma XhttpAgrees(settings: PanelSettings, e: Encryptor, row: VersionRow, plain: Json, shareHost: Option<string>)
    requires Comparable(settings, e, XrayXhttp, row, plain, shareHost)
    requires var ps, t := settings.profiles[XrayXhttp], LinkTerms(settings, XrayXhttp, row, shareHost, 0);
             XrayLink(XrayXhttp, plain, ps, t).Ok? && RawPartsPlain(XrayXhttp, FindInbound(plain, ps.inboundTag).value, t)
    requires ProbeClient(settings, e, XrayXhttp, row, PreferHost(settings, XrayXhttp, shareHost).value, 0).Ok?
    ensures var link := XrayLink(XrayXhttp, plain, settings.profiles[XrayXhttp], LinkTerms(settings, XrayXhttp, row, shareHost, 0)).value;
            && ReadUri(Print(link)).Some?
            && AgreeUnless(FromUri(XrayXhttp, ReadUri(Print(link)).value),
                           ProbeClient(settings, e, XrayXhttp, row, PreferHost(settings, XrayXhttp, shareHost).value, 0).value,
                           BlankName(TlsOf(XrayXhttp, FindInbound(plain, settings.profiles[XrayXhttp].inboundTag).value)))
  {
    var ps, t := settings.profiles[XrayXhttp], LinkTerms(settings, XrayXhttp, row, shareHost, 0);
    assert plain == row.data by { assert SensitiveFields(XrayXhttp) == []; }
    SameTarget(settings, e, XrayXhttp, row, plain, shareHost, 0);
    XhttpLinkSays(plain, ps, t);
    XhttpClient(settings, row, t.host);
  }
}
