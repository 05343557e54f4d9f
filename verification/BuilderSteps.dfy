/** The builders as they change a document key by key, and the loops over inbounds and clients
    (panel/infrastructure/vpn/config_builder.py, template_loader.py). Each is proved against the
    function of its inputs that the other modules reason about. */
module BuilderSteps {
  import opened Wrappers
  import opened Text
  import opened JsonTree
  import opened PortPicker
  import opened Store
  import opened Settings
  import opened ConfigBuilder

  // ---- set_client_id ----

  lemma WithIdRaises(clients: seq<Json>, id: Json, i: nat)
    requires i < |clients| && Put(clients[i], "id", id).Raised?
    ensures WithId(clients, id).Raised?
    decreases i
  {
    if i > 0 {
      WithIdRaises(clients[1..], id, i - 1);
    }
  }

  lemma {:induction false} WithIdAt(clients: seq<Json>, id: Json, done: seq<Json>)
    requires |done| == |clients| && forall i :: 0 <= i < |clients| ==> Put(clients[i], "id", id) == Ok(done[i])
    ensures WithId(clients, id) == Ok(done)
  {
    if clients != [] {
      WithIdAt(clients[1..], id, done[1..]);
      assert [done[0]] + done[1..] == done;
    }
  }

  /** Every client of the tagged inbound gets the id. */
  method SetClientIds(clients: seq<Json>, id: Json) returns (r: Result<seq<Json>>)
    ensures r == WithId(clients, id)
  {
    var done: seq<Json> := [];
    for i := 0 to |clients|
      invariant |done| == i && forall k :: 0 <= k < i ==> Put(clients[k], "id", id) == Ok(done[k])
    {
      var client := Put(clients[i], "id", id);
      if client.Raised? {
        WithIdRaises(clients, id, i);
        return Raised;
      }
      done := done + [client.value];
    }
    WithIdAt(clients, id, done);
    return Ok(done);
  }

  // ---- _apply_tls_cert_paths ----

  lemma {:induction false} RewriteAt(items: seq<Json>, i: nat, certFile: string, keyFile: string)
    requires i < |items|
    requires forall k :: 0 <= k < i ==> RewriteInbound(items[k], certFile, keyFile) == Ok(None)
    ensures RewriteInbound(items[i], certFile, keyFile).Raised? ==> RewriteFirst(items, certFile, keyFile).Raised?
    ensures RewriteInbound(items[i], certFile, keyFile).Ok? && RewriteInbound(items[i], certFile, keyFile).value.Some? ==>
              RewriteFirst(items, certFile, keyFile) == Ok(items[i := RewriteInbound(items[i], certFile, keyFile).value.value])
  {
    if i > 0 {
      assert items[1..][i - 1] == items[i];
      RewriteAt(items[1..], i - 1, certFile, keyFile);
      var rewritten := RewriteInbound(items[i], certFile, keyFile);
      if rewritten.Ok? && rewritten.value.Some? {
        assert [items[0]] + items[1..][i - 1 := rewritten.value.value] == items[i := rewritten.value.value];
      }
    } else if RewriteInbound(items[0], certFile, keyFile).Ok? && RewriteInbound(items[0], certFile, keyFile).value.Some? {
      var changed := RewriteInbound(items[0], certFile, keyFile).value.value;
      assert [changed] + items[1..] == items[0 := changed];
    }
  }

  lemma {:induction false} RewriteNone(items: seq<Json>, certFile: string, keyFile: string)
    requires forall k :: 0 <= k < |items| ==> RewriteInbound(items[k], certFile, keyFile) == Ok(None)
    ensures RewriteFirst(items, certFile, keyFile) == Ok(items)
  {
    if items != [] {
      RewriteNone(items[1..], certFile, keyFile);
      assert [items[0]] + items[1..] == items;
    }
  }

  /** The loop stops at the first inbound that has certificates. */
  method RewriteCertificates(inbounds: seq<Json>, certFile: string, keyFile: string) returns (r: Result<seq<Json>>)
    ensures r == RewriteFirst(inbounds, certFile, keyFile)
  {
    for i := 0 to |inbounds|
      invariant forall k :: 0 <= k < i ==> RewriteInbound(inbounds[k], certFile, keyFile) == Ok(None)
    {
      var rewritten := RewriteInbound(inbounds[i], certFile, keyFile);
      RewriteAt(inbounds, i, certFile, keyFile);
      if rewritten.Raised? { return Raised; }
      if rewritten.value.Some? { return Ok(inbounds[i := rewritten.value.value]); }
    }
    RewriteNone(inbounds, certFile, keyFile);
    return Ok(inbounds);
  }

  // ---- The builders ----

  method ListenOn(inbound: Json, port: int, profile: ProfileSettings) returns (r: Result<Json>)
    ensures r == Listening(inbound, port, profile)
  {
    var changed :- Put(inbound, "port", Num(port));
    if profile.listenAddress.Some? && profile.listenAddress.value != "" {
      r := Put(changed, "listen", Str(profile.listenAddress.value));
    } else {
      r := Ok(changed);
    }
  }

  method SetClientIdOf(inbound: Json, id: Json) returns (r: Result<Json>)
    ensures r == SetClientId(inbound, id)
  {
    var settings :- GetOr(inbound, "settings", Obj(map[]));
    var value :- GetOr(settings, "clients", Arr([]));
    var clients :- AsList(value);
    if clients == [] { return Ok(inbound); }
    var changed :- SetClientIds(clients, id);
    settings :- Put(settings, "clients", Arr(changed));
    r := Put(inbound, "settings", settings);
  }

  method Identify(inbound: Json, o: Order, port: int) returns (r: Result<Json>)
    ensures r == Identified(inbound, o, port)
  {
    var listening :- ListenOn(inbound, port, o.profile);
    r := SetClientIdOf(listening, ClientId(o));
  }

  method ChooseDestination(reality: Json, o: Order) returns (r: Result<Json>)
    ensures r == Destination(reality, o)
  {
    var changed := reality;
    if o.previous.Some? && o.previous.value.gleaned.dest.Some? && !o.policy.rotateDest {
      changed :- Put(changed, "dest", Str(o.previous.value.gleaned.dest.value));
      var names := o.previous.value.gleaned.serverNames;
      if names.Some? {
        r := Put(changed, "serverNames", Arr(names.value));
        return;
      }
    } else if o.profile.realityDestHosts != [] {
      changed :- Put(changed, "dest", Str(Choose(o.profile.realityDestHosts, o.draws.destDraw)));
    }
    r := NameAfterDest(changed);
  }

  method BuildXrayReality(o: Order, port: int) returns (r: Result<Built>)
    ensures r == BuildReality(o, port)
  {
    var inbounds :- Inbounds(o.profile.template);
    var k :- FindTag(inbounds, o.profile.inboundTag);
    var inbound :- ListenOn(inbounds[k], port, o.profile);
    var stream :- Index(inbound, "streamSettings");
    var reality :- Index(stream, "realitySettings");
    reality :- Put(reality, "shortIds", Arr(ShortIds(o)));
    reality :- Put(reality, "privateKey", Str(RealityKeys(o).0));
    reality :- ChooseDestination(reality, o);
    stream :- Put(stream, "realitySettings", reality);
    inbound :- Put(inbound, "streamSettings", stream);
    inbound :- SetClientIdOf(inbound, ClientId(o));
    var config :- ReplaceInbound(o.profile.template, inbounds, k, inbound);
    return Ok(Built(config, RealityKeys(o).0, RealityKeys(o).1, "", false));
  }

  /** The service name written when there is a list of them. */
  method ChooseServiceName(o: Order, preferred: Json) returns (name: string)
    requires o.profile.grpcServiceNames != []
    ensures GrpcService(o, preferred) == Some(name)
  {
    var keep := Keep(preferred, if o.previous.Some? then o.previous.value.gleaned.service else None);
    if !o.policy.rotateServiceName && Truthy(keep) && InList(keep, o.profile.grpcServiceNames) {
      name := keep.s;
    } else {
      name := Choose(o.profile.grpcServiceNames, o.draws.serviceDraw);
    }
  }

  /** The keys of `tlsSettings` and `grpcSettings`, one at a time. */
  method WriteGrpcSections(stream: Json, o: Order, sni: Option<string>, preferredService: Json, certFile: string, keyFile: string)
    returns (r: Result<Json>)
    ensures r == GrpcStream(stream, sni, GrpcService(o, preferredService), certFile, keyFile)
  {
    var tls :- Index(stream, "tlsSettings");
    if !tls.Obj? { return Raised; }
    var section := tls.fields["alpn" := Arr([Str("h2")])];
    section := section - {"fingerprint"};
    if sni.Some? {
      section := section["serverName" := Str(sni.value)];
    }
    var grpc :- Index(stream, "grpcSettings");
    if !grpc.Obj? { return Raised; }
    var names := grpc.fields;
    if o.profile.grpcServiceNames != [] {
      var service := ChooseServiceName(o, preferredService);
      names := names["serviceName" := Str(service)];
    }
    section := section["certificates" := Certificates(certFile, keyFile)];
    return Ok(Obj(stream.fields["grpcSettings" := Obj(names)]["tlsSettings" := Obj(section)]));
  }

  /** The keys of the xHTTP stream, one at a time. */
  method WriteXhttpSections(stream: Json, o: Order, host: string, certFile: string, keyFile: string) returns (r: Result<Json>)
    ensures r == XhttpStream(stream, XhttpPath(o), host, certFile, keyFile)
  {
    if !stream.Obj? { return Raised; }
    var sections := stream.fields["security" := Str("tls")];
    var xhttp :- Index(stream, "xhttpSettings");
    if !xhttp.Obj? { return Raised; }
    var keys := xhttp.fields["host" := Str(host)];
    keys := keys["mode" := Str("stream-up")];
    if o.previous.Some? && o.previous.value.gleaned.path.Some? && !o.policy.rotatePath {
      keys := keys["path" := Str(o.previous.value.gleaned.path.value)];
    } else if o.profile.xhttpPaths != [] {
      keys := keys["path" := Str(Choose(o.profile.xhttpPaths, o.draws.pathDraw))];
    }
    sections := sections["xhttpSettings" := Obj(keys)];
    var secured: map<string, Json> := map["serverName" := Str(host)];
    secured := secured["alpn" := Arr([Str("h2"), Str("http/1.1")])];
    secured := secured["certificates" := Certificates(certFile, keyFile)];
    assert secured == map["serverName" := Str(host), "alpn" := Arr([Str("h2"), Str("http/1.1")]), "certificates" := Certificates(certFile, keyFile)];
    return Ok(Obj(sections["tlsSettings" := Obj(secured)]));
  }

  method BuildXrayGrpc(o: Order, port: int, preferredSni: Json, preferredService: Json) returns (r: Result<Built>)
    ensures r == BuildGrpc(o, port, preferredSni, preferredService)
  {
    var inbounds :- Inbounds(o.profile.template);
    var k :- FindTag(inbounds, o.profile.inboundTag);
    var (sni, name) := GrpcSni(o, preferredSni);
    var tls :- ResolveTls(o, name);
    var inbound :- Identify(inbounds[k], o, port);
    var stream :- Index(inbound, "streamSettings");
    stream :- WriteGrpcSections(stream, o, sni, preferredService, tls.1, tls.2);
    inbound :- Put(inbound, "streamSettings", stream);
    var config :- ReplaceInbound(o.profile.template, inbounds, k, inbound);
    return Ok(Built(config, tls.0.privateKey, tls.0.cert, tls.0.fingerprint, tls.3));
  }

  method BuildXrayXhttp(o: Order, port: int) returns (r: Result<Built>)
    ensures r == BuildXhttp(o, port)
  {
    var inbounds :- Inbounds(o.profile.template);
    var k :- FindTag(inbounds, o.profile.inboundTag);
    var host := ShareHost(o.settings, o.profile, o.configHost);
    var tls :- ResolveTls(o, host);
    var inbound :- Identify(inbounds[k], o, port);
    var stream :- Index(inbound, "streamSettings");
    stream :- WriteXhttpSections(stream, o, host, tls.1, tls.2);
    inbound :- Put(inbound, "streamSettings", stream);
    var config :- ReplaceInbound(o.profile.template, inbounds, k, inbound);
    return Ok(Built(config, tls.0.privateKey, tls.0.cert, tls.0.fingerprint, tls.3));
  }

  method BuildHysteria2(o: Order, port: int) returns (r: Result<Built>)
    ensures r == BuildHysteria(o, port)
  {
    var host := ShareHost(o.settings, o.profile, o.configHost);
    var resolved :- ResolveTls(o, host);
    var config :- Put(o.profile.template, "listen", Str(":" + Text.Text(port)));
    var auth :- Index(config, "auth");
    auth :- Put(auth, "password", Str(Passwords(o).0));
    var tls :- Index(config, "tls");
    tls :- Put(tls, "cert", Str(resolved.1));
    tls :- Put(tls, "key", Str(resolved.2));
    tls :- Put(tls, "sni", Str(host));
    config :- Put(config, "auth", auth);
    config :- Put(config, "tls", tls);
    config :- Put(config, "obfs", SalamanderObfs(Passwords(o).1));
    return Ok(Built(config, resolved.0.privateKey, resolved.0.cert, resolved.0.fingerprint, resolved.3));
  }

  method BuildProfile(profile: Profile, o: Order, port: int, preferredSni: Json, preferredService: Json) returns (r: Result<Built>)
    ensures r == Build(profile, o, port, preferredSni, preferredService)
  {
    match profile {
      case XrayReality => r := BuildXrayReality(o, port);
      case XrayGrpc => r := BuildXrayGrpc(o, port, preferredSni, preferredService);
      case XrayXhttp => r := BuildXrayXhttp(o, port);
      case Hysteria2 => r := BuildHysteria2(o, port);
    }
  }
}
