/** Building one version of a config from its template and reading the previous one back
    (panel/infrastructure/vpn/config_builder.py, template_loader.py). */
module ConfigBuilder {
  import opened Wrappers
  import opened Text
  import opened JsonTree
  import opened PortPicker
  import opened Store
  import opened Settings

  // ---- template_loader.py ----

  /** `config.get("inbounds", [])` as a list of mappings. */
  function Inbounds(config: Json): Result<seq<Json>>
  {
    var v :- GetOr(config, "inbounds", Arr([]));
    AsList(v)
  }

  /** Position of the first inbound with the tag. */
  function FindTag(items: seq<Json>, tag: string): (r: Result<nat>)
    ensures r.Ok? ==> r.value < |items|
  {
    if items == [] then Raised
    else
      var t :- GetOr(items[0], "tag", Null);
      if t == Str(tag) then Ok(0)
      else
        var rest :- FindTag(items[1..], tag);
        Ok(rest + 1)
  }

  function FindInbound(config: Json, tag: string): Result<Json>
  {
    var items :- Inbounds(config);
    var k :- FindTag(items, tag);
    Ok(items[k])
  }

  function WithId(clients: seq<Json>, id: Json): (r: Result<seq<Json>>)
    ensures r.Ok? ==> |r.value| == |clients|
  {
    if clients == [] then Ok([])
    else
      var first :- Put(clients[0], "id", id);
      var rest :- WithId(clients[1..], id);
      Ok([first] + rest)
  }

  /** `set_client_id` on the tagged inbound. */
  function SetClientId(inbound: Json, id: Json): Result<Json>
  {
    var settings :- GetOr(inbound, "settings", Obj(map[]));
    var value :- GetOr(settings, "clients", Arr([]));
    var clients :- AsList(value);
    if clients == [] then Ok(inbound)
    else
      var changed :- WithId(clients, id);
      var settings' :- Put(settings, "clients", Arr(changed));
      Put(inbound, "settings", settings')
  }

  // ---- Reading a version back (`previous_for_regenerate`) ----

  /** What one inbound contributes to the previous secrets. */
  datatype Gleaned = Gleaned(
    clientId: Option<Json>,
    shortIds: Option<seq<Json>>,
    dest: Option<string>,
    serverNames: Option<seq<Json>>,
    path: Option<string>,
    service: Option<string>,
    sni: Option<string>)

  const Nothing := Gleaned(None, None, None, None, None, None, None)

  function FirstClientId(inbound: Json): Result<Option<Json>>
  {
    var settings :- GetOr(inbound, "settings", Obj(map[]));
    var clients :- GetOr(settings, "clients", Arr([]));
    if !Truthy(clients) then Ok(None)
    else if !clients.Arr? then Raised
    else
      var id :- GetOr(clients.items[0], "id", Null);
      Ok(if Truthy(id) then Some(id) else None)
  }

  /** A non-empty list under a key, if there is one. */
  function ListField(section: Json, key: string): Result<Option<seq<Json>>>
  {
    var v :- GetOr(section, key, Null);
    if !Truthy(v) then Ok(None) else if v.Arr? then Ok(Some(v.items)) else Raised
  }

  function TextField(section: Json, key: string): Result<Option<string>>
  {
    var v :- GetOr(section, key, Null);
    if !Truthy(v) then Ok(None) else if v.Str? then Ok(Some(v.s)) else Raised
  }

  function Glean(inbound: Json): Result<Gleaned>
  {
    var clientId :- FirstClientId(inbound);
    var stream :- Section(inbound, "streamSettings");
    var reality :- Section(stream, "realitySettings");
    var shortIds :- ListField(reality, "shortIds");
    var dest :- TextField(reality, "dest");
    var serverNames :- ListField(reality, "serverNames");
    var xhttp :- Section(stream, "xhttpSettings");
    var path :- TextField(xhttp, "path");
    var grpc :- Section(stream, "grpcSettings");
    var service :- TextField(grpc, "serviceName");
    var tls :- Section(stream, "tlsSettings");
    var sni :- TextField(tls, "serverName");
    Ok(Gleaned(clientId, shortIds, dest, serverNames, path, service, sni))
  }

  /** The first client id wins; every other field is overwritten by later inbounds that have it. */
  function Merge(acc: Gleaned, g: Gleaned): Gleaned
  {
    Gleaned(acc.clientId.Or(g.clientId), g.shortIds.Or(acc.shortIds), g.dest.Or(acc.dest),
            g.serverNames.Or(acc.serverNames), g.path.Or(acc.path), g.service.Or(acc.service), g.sni.Or(acc.sni))
  }

  function GleanAll(items: seq<Json>): Result<Gleaned>
  {
    if items == [] then Ok(Nothing)
    else
      var before :- GleanAll(items[..|items| - 1]);
      var last :- Glean(items[|items| - 1]);
      Ok(Merge(before, last))
  }

  datatype Previous = Previous(
    gleaned: Gleaned,
    privateKey: Option<string>,
    publicKey: Option<string>,
    fingerprint: Option<string>,
    password: Option<string>,
    obfsPassword: Option<string>)

  /** `((config.get(a) or {}).get(b) or {})...` then a non-empty string. */
  function HysteriaPasswords(config: Json): Result<(Option<string>, Option<string>)>
  {
    var auth :- Section(config, "auth");
    var password :- TextField(auth, "password");
    var obfs :- Section(config, "obfs");
    var salamander :- Section(obfs, "salamander");
    var obfsPassword :- TextField(salamander, "password");
    Ok((password, obfsPassword))
  }

  function PreviousForRegenerate(profile: Profile, config: Json, privateKey: string, publicKey: string, fingerprint: string): Result<Previous>
  {
    var items :- Inbounds(config);
    var gleaned :- GleanAll(items);
    var passwords :- if profile.Hysteria2? then HysteriaPasswords(config) else Ok((None, None));
    Ok(Previous(gleaned, NonEmpty(privateKey), NonEmpty(publicKey),
                if profile.XrayReality? then None else NonEmpty(fingerprint),
                passwords.0, passwords.1))
  }

  /** The loop over the inbounds with its seven moving variables. */
  method GleanInbounds(items: seq<Json>) returns (r: Result<Gleaned>)
    ensures r == GleanAll(items)
  {
    var found := Nothing;
    for i := 0 to |items|
      invariant GleanAll(items[..i]) == Ok(found)
    {
      assert items[..i + 1][..i] == items[..i] && items[..i + 1][i] == items[i];
      var g := Glean(items[i]);
      if g.Raised? {
        GleanRaises(items, i);
        return Raised;
      }
      found := Merge(found, g.value);
    }
    assert items[..|items|] == items;
    return Ok(found);
  }

  lemma {:induction false} GleanRaises(items: seq<Json>, i: nat)
    requires i < |items| && Glean(items[i]).Raised?
    ensures GleanAll(items).Raised?
  {
    if i < |items| - 1 {
      GleanRaises(items[..|items| - 1], i);
    }
  }

  // ---- The shared parts of the builders ----

  datatype Built = Built(config: Json, privateKey: string, publicKey: string, fingerprint: string, writesCert: bool)

  /** The request to a builder: what is kept, and everything it may draw. */
  datatype Order = Order(
    settings: PanelSettings,
    profile: ProfileSettings,
    configHost: Option<string>,
    previous: Option<Previous>,
    policy: Policy,
    draws: Draws,
    certs: CertRules)

  function Listening(inbound: Json, port: int, profile: ProfileSettings): Result<Json>
  {
    var ported :- Put(inbound, "port", Num(port));
    if profile.listenAddress.Some? && profile.listenAddress.value != ""
    then Put(ported, "listen", Str(profile.listenAddress.value)) else Ok(ported)
  }

  function ClientId(o: Order): Json
  {
    if o.previous.Some? && o.previous.value.gleaned.clientId.Some? && !o.policy.rotateClientId
    then o.previous.value.gleaned.clientId.value else Str(o.draws.clientId)
  }

  function HasPair(p: Option<Previous>): bool
  {
    p.Some? && p.value.privateKey.Some? && p.value.publicKey.Some?
  }

  /** The name certificates are issued for. */
  function ResolveTls(o: Order, name: string): Result<(TlsPair, string, string, bool)>
  {
    var external :- if o.policy.rotateTls || !o.profile.externalTls then Ok(None) else o.draws.external;
    if external.Some? then Ok((external.value.pair, external.value.certPath, external.value.keyPath, false))
    else if !o.policy.rotateTls && ReusableTls(o.previous, name, o.certs) then
      var p := o.previous.value;
      Ok((TlsPair(p.privateKey.value, p.publicKey.value, p.fingerprint.value), o.profile.certFile, o.profile.keyFile, true))
    else if Strip(name) == "" then Raised
    else Ok((o.certs.mint(Strip(name), o.draws.tlsSeed), o.profile.certFile, o.profile.keyFile, true))
  }

  predicate ReusableTls(p: Option<Previous>, name: string, certs: CertRules)
  {
    && HasPair(p) && p.value.fingerprint.Some?
    && certs.hasSan(p.value.publicKey.value, name)
    && certs.matches(p.value.publicKey.value, p.value.privateKey.value)
  }

  function Certificates(certFile: string, keyFile: string): Json
  {
    Arr([Obj(map["certificateFile" := Str(certFile), "keyFile" := Str(keyFile)])])
  }

  // ---- Reality ----

  function RealityKeys(o: Order): (string, string)
  {
    if HasPair(o.previous) && !o.policy.rotateRealityKeys
    then (o.previous.value.privateKey.value, o.previous.value.publicKey.value)
    else (o.draws.realityPrivate, o.draws.realityPublic)
  }

  function ShortIds(o: Order): seq<Json>
  {
    if o.previous.Some? && o.previous.value.gleaned.shortIds.Some? && !o.policy.rotateShortIds
    then o.previous.value.gleaned.shortIds.value else Strings(o.draws.shortIds)
  }

  /** `reality["serverNames"] = [dest_host]` unless the dest has no host. */
  function NameAfterDest(reality: Json): Result<Json>
  {
    var dest :- TextField(reality, "dest");
    var host := DestHostname(dest.GetOr(""));
    if host == "" then Ok(reality) else Put(reality, "serverNames", Arr([Str(host)]))
  }

  function Destination(reality: Json, o: Order): Result<Json>
  {
    if o.previous.Some? && o.previous.value.gleaned.dest.Some? && !o.policy.rotateDest then
      var kept :- Put(reality, "dest", Str(o.previous.value.gleaned.dest.value));
      var names := o.previous.value.gleaned.serverNames;
      if names.Some? then Put(kept, "serverNames", Arr(names.value)) else NameAfterDest(kept)
    else if o.profile.realityDestHosts != [] then
      var chosen :- Put(reality, "dest", Str(Choose(o.profile.realityDestHosts, o.draws.destDraw)));
      NameAfterDest(chosen)
    else NameAfterDest(reality)
  }

  function RealitySettings(reality: Json, o: Order): Result<Json>
  {
    var ids :- Put(reality, "shortIds", Arr(ShortIds(o)));
    var keyed :- Put(ids, "privateKey", Str(RealityKeys(o).0));
    Destination(keyed, o)
  }

  function RealityInbound(inbound: Json, o: Order, port: int): Result<Json>
  {
    var listening :- Listening(inbound, port, o.profile);
    var stream :- Index(listening, "streamSettings");
    var reality :- Index(stream, "realitySettings");
    var reality' :- RealitySettings(reality, o);
    var stream' :- Put(stream, "realitySettings", reality');
    var streamed :- Put(listening, "streamSettings", stream');
    SetClientId(streamed, ClientId(o))
  }

  // ---- gRPC ----

  function InList(j: Json, xs: seq<string>): bool
  {
    j.Str? && j.s in xs
  }

  function OptionText(t: Option<string>): Json
  {
    if t.Some? then Str(t.value) else Null
  }

  /** `preferred or (previous.field if previous else None)`. */
  function Keep(preferred: Json, previous: Option<string>): Json
  {
    if Truthy(preferred) then preferred else OptionText(previous)
  }

  /** The SNI written to the inbound, if any, and the name to certify. */
  function GrpcSni(o: Order, preferred: Json): (Option<string>, string)
  {
    var pinned := Strip(FirstTruthy(o.configHost, o.profile.sharePublicHost));
    var host := ShareHost(o.settings, o.profile, o.configHost);
    if pinned != "" then (Some(host), host)
    else if o.profile.grpcSniHosts != [] then
      var keep := Keep(preferred, if o.previous.Some? then o.previous.value.gleaned.sni else None);
      var name := if Truthy(keep) && InList(keep, o.profile.grpcSniHosts) then keep.s
                  else Choose(o.profile.grpcSniHosts, o.draws.sniDraw);
      (Some(name), name)
    else (None, host)
  }

  /** `a or b or ""`. */
  function FirstTruthy(a: Option<string>, b: Option<string>): string
  {
    if a.Some? && a.value != "" then a.value else b.GetOr("")
  }

  function GrpcService(o: Order, preferred: Json): Option<string>
  {
    if o.profile.grpcServiceNames == [] then None
    else
      var keep := Keep(preferred, if o.previous.Some? then o.previous.value.gleaned.service else None);
      if !o.policy.rotateServiceName && Truthy(keep) && InList(keep, o.profile.grpcServiceNames) then Some(keep.s)
      else Some(Choose(o.profile.grpcServiceNames, o.draws.serviceDraw))
  }

  function PutIf(j: Json, key: string, v: Option<string>): Result<Json>
  {
    if v.Some? then Put(j, key, Str(v.value)) else if j.Obj? then Ok(j) else Raised
  }

  function GrpcTls(tls: Json, sni: Option<string>, certFile: string, keyFile: string): Result<Json>
  {
    var alpn :- Put(tls, "alpn", Arr([Str("h2")]));
    var named :- PutIf(Obj(alpn.fields - {"fingerprint"}), "serverName", sni);
    Put(named, "certificates", Certificates(certFile, keyFile))
  }

  function GrpcStream(stream: Json, sni: Option<string>, service: Option<string>, certFile: string, keyFile: string): Result<Json>
  {
    var tls :- Index(stream, "tlsSettings");
    var grpc :- Index(stream, "grpcSettings");
    var grpc' :- PutIf(grpc, "serviceName", service);
    var tls' :- GrpcTls(tls, sni, certFile, keyFile);
    var stream' :- Put(stream, "grpcSettings", grpc');
    Put(stream', "tlsSettings", tls')
  }

  /** The listening inbound with its client id set. */
  function Identified(inbound: Json, o: Order, port: int): Result<Json>
  {
    var listening :- Listening(inbound, port, o.profile);
    SetClientId(listening, ClientId(o))
  }

  function GrpcInbound(inbound: Json, o: Order, port: int, sni: Option<string>, service: Option<string>, certFile: string, keyFile: string): Result<Json>
  {
    var identified :- Identified(inbound, o, port);
    var stream :- Index(identified, "streamSettings");
    var stream' :- GrpcStream(stream, sni, service, certFile, keyFile);
    Put(identified, "streamSettings", stream')
  }

  // ---- xHTTP ----

  function XhttpPath(o: Order): Option<string>
  {
    if o.previous.Some? && o.previous.value.gleaned.path.Some? && !o.policy.rotatePath then o.previous.value.gleaned.path
    else if o.profile.xhttpPaths != [] then Some(Choose(o.profile.xhttpPaths, o.draws.pathDraw))
    else None
  }

  function XhttpStream(stream: Json, path: Option<string>, host: string, certFile: string, keyFile: string): Result<Json>
  {
    var secured :- Put(stream, "security", Str("tls"));
    var xhttp :- Index(stream, "xhttpSettings");
    var hosted :- Put(xhttp, "host", Str(host));
    var moded :- Put(hosted, "mode", Str("stream-up"));
    var pathed :- PutIf(moded, "path", path);
    var stream' :- Put(secured, "xhttpSettings", pathed);
    Put(stream', "tlsSettings", Obj(map["serverName" := Str(host), "alpn" := Arr([Str("h2"), Str("http/1.1")]),
                                        "certificates" := Certificates(certFile, keyFile)]))
  }

  function XhttpInbound(inbound: Json, o: Order, port: int, host: string, certFile: string, keyFile: string): Result<Json>
  {
    var identified :- Identified(inbound, o, port);
    var stream :- Index(identified, "streamSettings");
    var stream' :- XhttpStream(stream, XhttpPath(o), host, certFile, keyFile);
    Put(identified, "streamSettings", stream')
  }

  // ---- Hysteria2 ----

  function Passwords(o: Order): (string, string)
  {
    (if o.previous.Some? && o.previous.value.password.Some? && !o.policy.rotateAuth
     then o.previous.value.password.value else o.draws.password,
     if o.previous.Some? && o.previous.value.obfsPassword.Some? && !o.policy.rotateObfs
     then o.previous.value.obfsPassword.value else o.draws.obfsPassword)
  }

  function SalamanderObfs(password: string): Json
  {
    Obj(map["type" := Str("salamander"), "salamander" := Obj(map["password" := Str(password)])])
  }

  /** What a Hysteria2 document says to its readers. */
  predicate HysteriaDoc(config: Json, template: Json, port: int, passwords: (string, string))
  {
    && Index(config, "listen") == Ok(Str(":" + Text.Text(port)))
    && Index(config, "auth").Ok? && Index(Index(config, "auth").value, "password") == Ok(Str(passwords.0))
    && Index(config, "obfs") == Ok(SalamanderObfs(passwords.1))
    && Inbounds(config) == Inbounds(template)
  }

  /** The TLS section names the certificate, its key and the host, in this order. */
  predicate HysteriaTls(config: Json, certFile: string, keyFile: string, host: string)
  {
    && Index(config, "tls").Ok?
    && Index(Index(config, "tls").value, "cert") == Ok(Str(certFile))
    && Index(Index(config, "tls").value, "key") == Ok(Str(keyFile))
    && Index(Index(config, "tls").value, "sni") == Ok(Str(host))
  }

  function HysteriaConfig(config: Json, o: Order, port: int, host: string, certFile: string, keyFile: string): (r: Result<Json>)
    ensures r.Ok? ==> HysteriaDoc(r.value, config, port, Passwords(o)) && HysteriaTls(r.value, certFile, keyFile, host)
  {
    var listening :- Put(config, "listen", Str(":" + Text.Text(port)));
    var auth :- Index(listening, "auth");
    var auth' :- Put(auth, "password", Str(Passwords(o).0));
    var tls :- Index(listening, "tls");
    var tls1 :- Put(tls, "cert", Str(certFile));
    var tls2 :- Put(tls1, "key", Str(keyFile));
    var tls3 :- Put(tls2, "sni", Str(host));
    var c1 :- Put(listening, "auth", auth');
    var c2 :- Put(c1, "tls", tls3);
    Put(c2, "obfs", SalamanderObfs(Passwords(o).1))
  }

  // ---- build ----

  /** Hysteria without a preferred port falls back to the advertised one when it is a candidate. */
  function PreferredPort(profile: Profile, ps: ProfileSettings, preferred: Option<int>): Option<int>
  {
    if profile.Hysteria2? && preferred.None? && ps.sharePublicPort.Some? && ps.sharePublicPort.value in ps.portCandidates
    then ps.sharePublicPort else preferred
  }

  function BlockedPorts(profile: Profile, settings: PanelSettings, exclude: set<int>): set<int>
  {
    if profile.Hysteria2? then exclude + {settings.serverPort} else exclude
  }

  function PickListeningPort(profile: Profile, o: Order, exclude: set<int>, preferred: Option<int>): Result<int>
  {
    PickPort(o.profile.portCandidates, BlockedPorts(profile, o.settings, exclude), o.draws.free, profile.Hysteria2?,
             PreferredPort(profile, o.profile, preferred), o.draws.portDraw)
  }

  function ReplaceInbound(config: Json, items: seq<Json>, k: nat, inbound: Json): Result<Json>
    requires k < |items|
  {
    Put(config, "inbounds", Arr(items[k := inbound]))
  }

  /** The key columns of a built version are the pair that `ResolveTls` settled on for the name. */
  predicate CarriesPair(b: Built, o: Order, name: string)
  {
    ResolveTls(o, name).Ok? && ResolveTls(o, name).value.0 == TlsPair(b.privateKey, b.publicKey, b.fingerprint)
  }

  function BuildReality(o: Order, port: int): Result<Built>
  {
    var items :- Inbounds(o.profile.template);
    var k :- FindTag(items, o.profile.inboundTag);
    var inbound :- RealityInbound(items[k], o, port);
    var config :- ReplaceInbound(o.profile.template, items, k, inbound);
    Ok(Built(config, RealityKeys(o).0, RealityKeys(o).1, "", false))
  }

  function BuildGrpc(o: Order, port: int, preferredSni: Json, preferredService: Json): (r: Result<Built>)
    ensures r.Ok? ==> CarriesPair(r.value, o, GrpcSni(o, preferredSni).1)
  {
    var items :- Inbounds(o.profile.template);
    var k :- FindTag(items, o.profile.inboundTag);
    var sni := GrpcSni(o, preferredSni);
    var tls :- ResolveTls(o, sni.1);
    var inbound :- GrpcInbound(items[k], o, port, sni.0, GrpcService(o, preferredService), tls.1, tls.2);
    var config :- ReplaceInbound(o.profile.template, items, k, inbound);
    Ok(Built(config, tls.0.privateKey, tls.0.cert, tls.0.fingerprint, tls.3))
  }

  function BuildXhttp(o: Order, port: int): (r: Result<Built>)
    ensures r.Ok? ==> CarriesPair(r.value, o, ShareHost(o.settings, o.profile, o.configHost))
  {
    var items :- Inbounds(o.profile.template);
    var k :- FindTag(items, o.profile.inboundTag);
    var host := ShareHost(o.settings, o.profile, o.configHost);
    var tls :- ResolveTls(o, host);
    var inbound :- XhttpInbound(items[k], o, port, host, tls.1, tls.2);
    var config :- ReplaceInbound(o.profile.template, items, k, inbound);
    Ok(Built(config, tls.0.privateKey, tls.0.cert, tls.0.fingerprint, tls.3))
  }

  function BuildHysteria(o: Order, port: int): (r: Result<Built>)
    ensures r.Ok? ==> CarriesPair(r.value, o, ShareHost(o.settings, o.profile, o.configHost))
    ensures r.Ok? ==> HysteriaDoc(r.value.config, o.profile.template, port, Passwords(o))
  {
    var host := ShareHost(o.settings, o.profile, o.configHost);
    var tls :- ResolveTls(o, host);
    var config :- HysteriaConfig(o.profile.template, o, port, host, tls.1, tls.2);
    Ok(Built(config, tls.0.privateKey, tls.0.cert, tls.0.fingerprint, tls.3))
  }

  function Build(profile: Profile, o: Order, port: int, preferredSni: Json, preferredService: Json): Result<Built>
  {
    match profile
    case XrayReality => BuildReality(o, port)
    case XrayGrpc => BuildGrpc(o, port, preferredSni, preferredService)
    case XrayXhttp => BuildXhttp(o, port)
    case Hysteria2 => BuildHysteria(o, port)
  }

  /** `int(inbound["port"])` or the number after the colons of `listen`. */
  function ListeningPort(profile: Profile, config: Json, ps: ProfileSettings): Result<int>
  {
    if profile.Hysteria2? then
      var listen :- Index(config, "listen");
      var text := match listen case Str(s) => DropColons(s) case Num(n) => Text.Text(n) case _ => "";
      match ParseInt(text)
      case Some(n) => Ok(n)
      case None => Raised
    else
      var inbound :- FindInbound(config, ps.inboundTag);
      var port :- Index(inbound, "port");
      match port
      case Num(n) => Ok(n)
      case Str(s) => (match ParseInt(s) case Some(n) => Ok(n) case None => Raised)
      case _ => Raised
  }

  function DropColons(s: string): string
  {
    if s != "" && s[0] == ':' then DropColons(s[1..]) else s
  }

  // ---- write_files ----

  function RewriteInbound(inbound: Json, certFile: string, keyFile: string): Result<Option<Json>>
  {
    var stream :- GetOr(inbound, "streamSettings", Obj(map[]));
    var tls :- GetOr(stream, "tlsSettings", Obj(map[]));
    var certificates :- GetOr(tls, "certificates", Null);
    if !Truthy(certificates) then Ok(None)
    else if !certificates.Arr? then Raised
    else
      var first :- Put(certificates.items[0], "certificateFile", Str(certFile));
      var first' :- Put(first, "keyFile", Str(keyFile));
      var tls' :- Put(tls, "certificates", Arr(certificates.items[0 := first']));
      var stream' :- Put(stream, "tlsSettings", tls');
      var inbound' :- Put(inbound, "streamSettings", stream');
      Ok(Some(inbound'))
  }

  /** The first inbound with certificates gets the written paths, and the loop stops there. */
  function RewriteFirst(items: seq<Json>, certFile: string, keyFile: string): (r: Result<seq<Json>>)
    ensures r.Ok? ==> |r.value| == |items|
  {
    if items == [] then Ok([])
    else
      var rewritten :- RewriteInbound(items[0], certFile, keyFile);
      if rewritten.Some? then Ok([rewritten.value] + items[1..])
      else
        var rest :- RewriteFirst(items[1..], certFile, keyFile);
        Ok([items[0]] + rest)
  }

  function ApplyCertPaths(profile: Profile, config: Json, certFile: string, keyFile: string): Result<Json>
  {
    match profile
    case XrayReality => Ok(config)
    case Hysteria2 =>
      var tls :- GetOr(config, "tls", Obj(map[]));
      var tls1 :- Put(tls, "cert", Str(certFile));
      var tls2 :- Put(tls1, "key", Str(keyFile));
      Put(config, "tls", tls2)
    case _ =>
      var items :- Inbounds(config);
      var rewritten :- RewriteFirst(items, certFile, keyFile);
      if rewritten == [] then Ok(config) else Put(config, "inbounds", Arr(rewritten))
  }

  /** The config documents on disk after `write_files`: the archive copy and, when the panel runs
      one, the live copy. Both are written from the same body. */
  datatype Written = Written(config: Json, archive: Json, live: Option<Json>)

  function WriteFiles(profile: Profile, settings: PanelSettings, ps: ProfileSettings, built: Built, draws: Draws): Result<Written>
  {
    var config :- if built.writesCert then ApplyCertPaths(profile, built.config, draws.writtenCert, draws.writtenKey) else Ok(built.config);
    if !draws.serviceReady then Raised
    else Ok(Written(config, config, if settings.perConfig || ps.activeConfig then Some(config) else None))
  }

  const REALITY_KEY_PARTS := ["inbounds", "0", "streamSettings", "realitySettings", "privateKey"]

  function SensitiveFields(profile: Profile): seq<string>
  {
    match profile
    case Hysteria2 => ["auth.password", "obfs.salamander.password"]
    case XrayReality => [Join(REALITY_KEY_PARTS, '.')]
    case _ => []
  }
}
