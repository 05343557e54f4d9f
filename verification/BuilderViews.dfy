/** What a built document shows to a reader: the tagged inbound, the port, and the fields that
    the next regeneration extracts. */
module BuilderViews {
  import opened Wrappers
  import opened JsonTree
  import opened Store
  import opened Settings
  import opened ConfigBuilder
  import opened ConfigBuild

  // ---- Writing certificate paths ----

  /** Two inbounds that no reader of a stored version can tell apart. */
  ghost predicate SameView(a: Json, b: Json)
  {
    && Glean(a) == Glean(b)
    && GetOr(a, "tag", Null) == GetOr(b, "tag", Null)
    && Index(a, "port") == Index(b, "port")
    && GrpcNames(a) == GrpcNames(b)
  }

  /** `b` is `a` with at most the value under `key` changed. */
  ghost predicate DiffersAt(a: Json, b: Json, key: string)
  {
    && a.Obj? && b.Obj? && key in a.fields && key in b.fields
    && b.fields == a.fields[key := b.fields[key]]
  }

  lemma RewriteSections(inbound: Json, certFile: string, keyFile: string)
    requires RewriteInbound(inbound, certFile, keyFile).Ok? && RewriteInbound(inbound, certFile, keyFile).value.Some?
    ensures var changed := RewriteInbound(inbound, certFile, keyFile).value.value;
            && DiffersAt(inbound, changed, "streamSettings")
            && DiffersAt(inbound.fields["streamSettings"], changed.fields["streamSettings"], "tlsSettings")
            && DiffersAt(inbound.fields["streamSettings"].fields["tlsSettings"],
                         changed.fields["streamSettings"].fields["tlsSettings"], "certificates")
  {
  }

  lemma RewriteKeepsView(inbound: Json, certFile: string, keyFile: string)
    requires RewriteInbound(inbound, certFile, keyFile).Ok? && RewriteInbound(inbound, certFile, keyFile).value.Some?
    ensures SameView(inbound, RewriteInbound(inbound, certFile, keyFile).value.value)
  {
    RewriteSections(inbound, certFile, keyFile);
    var changed := RewriteInbound(inbound, certFile, keyFile).value.value;
    CertificatesAreUnread(inbound, changed);
  }

  /** Nothing that is read from an inbound depends on its certificates. */
  lemma CertificatesAreUnread(inbound: Json, changed: Json)
    requires DiffersAt(inbound, changed, "streamSettings")
    requires DiffersAt(inbound.fields["streamSettings"], changed.fields["streamSettings"], "tlsSettings")
    requires DiffersAt(inbound.fields["streamSettings"].fields["tlsSettings"], changed.fields["streamSettings"].fields["tlsSettings"], "certificates")
    ensures SameView(inbound, changed)
  {
    var stream, stream' := inbound.fields["streamSettings"], changed.fields["streamSettings"];
    var tls, tls' := stream.fields["tlsSettings"], stream'.fields["tlsSettings"];
    assert FirstClientId(inbound) == FirstClientId(changed);
    assert Section(inbound, "streamSettings") == Ok(stream) && Section(changed, "streamSettings") == Ok(stream');
    assert Section(stream, "realitySettings") == Section(stream', "realitySettings");
    assert Section(stream, "xhttpSettings") == Section(stream', "xhttpSettings");
    assert Section(stream, "grpcSettings") == Section(stream', "grpcSettings");
    assert Section(stream, "tlsSettings") == Ok(tls) && Section(stream', "tlsSettings") == Ok(tls');
    assert TextField(tls, "serverName") == TextField(tls', "serverName");
  }

  lemma {:induction false} RewriteListKeepsViews(items: seq<Json>, certFile: string, keyFile: string, i: nat)
    requires RewriteFirst(items, certFile, keyFile).Ok? && i < |items|
    ensures SameView(items[i], RewriteFirst(items, certFile, keyFile).value[i])
  {
    var rewritten := RewriteInbound(items[0], certFile, keyFile).value;
    if rewritten.Some? {
      RewriteKeepsView(items[0], certFile, keyFile);
    } else if i > 0 {
      RewriteListKeepsViews(items[1..], certFile, keyFile, i - 1);
    }
  }

  lemma {:induction false} SameTagsFound(a: seq<Json>, b: seq<Json>, tag: string)
    requires |a| == |b|
    requires forall i :: 0 <= i < |a| ==> GetOr(a[i], "tag", Null) == GetOr(b[i], "tag", Null)
    ensures FindTag(a, tag) == FindTag(b, tag)
  {
    if a != [] {
      SameTagsFound(a[1..], b[1..], tag);
    }
  }

  /** `ApplyCertPaths` on an Xray document: same inbounds to every reader. */
  ghost predicate SameInbounds(a: Json, b: Json)
  {
    && Inbounds(a).Ok? && Inbounds(b).Ok?
    && |Inbounds(a).value| == |Inbounds(b).value|
    && forall i :: 0 <= i < |Inbounds(a).value| ==> SameView(Inbounds(a).value[i], Inbounds(b).value[i])
  }

  lemma CertPathsKeepInbounds(profile: Profile, config: Json, certFile: string, keyFile: string)
    requires !profile.Hysteria2? && Inbounds(config).Ok? && ApplyCertPaths(profile, config, certFile, keyFile).Ok?
    ensures SameInbounds(config, ApplyCertPaths(profile, config, certFile, keyFile).value)
  {
    if !profile.XrayReality? {
      var items := Inbounds(config).value;
      var rewritten := RewriteFirst(items, certFile, keyFile).value;
      forall i | 0 <= i < |items| ensures SameView(items[i], rewritten[i]) {
        RewriteListKeepsViews(items, certFile, keyFile, i);
      }
    }
  }

  lemma CertPathsKeepHysteria(config: Json, certFile: string, keyFile: string)
    requires ApplyCertPaths(Hysteria2, config, certFile, keyFile).Ok?
    ensures var config' := ApplyCertPaths(Hysteria2, config, certFile, keyFile).value;
            && HysteriaPasswords(config') == HysteriaPasswords(config)
            && Index(config', "listen") == Index(config, "listen")
            && Inbounds(config') == Inbounds(config)
  {
    var config' := ApplyCertPaths(Hysteria2, config, certFile, keyFile).value;
    assert Section(config', "auth") == Section(config, "auth");
    assert Section(config', "obfs") == Section(config, "obfs");
  }

  lemma SameInboundsSamePort(a: Json, b: Json, profile: Profile, ps: ProfileSettings)
    requires !profile.Hysteria2? && SameInbounds(a, b)
    ensures ListeningPort(profile, a, ps) == ListeningPort(profile, b, ps)
  {
    SameTagsFound(Inbounds(a).value, Inbounds(b).value, ps.inboundTag);
  }

  /** Rewriting the certificate paths never moves the listening port. */
  lemma CertPathsKeepPort(profile: Profile, config: Json, ps: ProfileSettings, certFile: string, keyFile: string)
    requires ApplyCertPaths(profile, config, certFile, keyFile).Ok? && ListeningPort(profile, config, ps).Ok?
    ensures ListeningPort(profile, ApplyCertPaths(profile, config, certFile, keyFile).value, ps) == ListeningPort(profile, config, ps)
  {
    if profile.Hysteria2? {
      CertPathsKeepHysteria(config, certFile, keyFile);
    } else {
      CertPathsKeepInbounds(profile, config, certFile, keyFile);
      SameInboundsSamePort(config, ApplyCertPaths(profile, config, certFile, keyFile).value, profile, ps);
    }
  }

  // ---- The tagged inbound of a built document ----

  lemma {:induction false} FindTagFirst(items: seq<Json>, tag: string)
    requires FindTag(items, tag).Ok?
    ensures GetOr(items[FindTag(items, tag).value], "tag", Null) == Ok(Str(tag))
  {
    if GetOr(items[0], "tag", Null) != Ok(Str(tag)) {
      FindTagFirst(items[1..], tag);
    }
  }

  lemma ReplacedStillFound(items: seq<Json>, tag: string, inbound: Json)
    requires FindTag(items, tag).Ok?
    requires GetOr(inbound, "tag", Null) == GetOr(items[FindTag(items, tag).value], "tag", Null)
    ensures FindTag(items[FindTag(items, tag).value := inbound], tag) == FindTag(items, tag)
  {
    SameTagsFound(items, items[FindTag(items, tag).value := inbound], tag);
  }

  lemma ListeningKeeps(inbound: Json, port: int, ps: ProfileSettings)
    requires Listening(inbound, port, ps).Ok?
    ensures var r := Listening(inbound, port, ps).value;
            && inbound.Obj? && r.Obj?
            && Index(r, "port") == Ok(Num(port))
            && (forall key :: key in inbound.fields && key != "port" && key != "listen" ==>
                 key in r.fields && r.fields[key] == inbound.fields[key])
            && (forall key :: key in r.fields ==> key in inbound.fields || key == "port" || key == "listen")
  {
  }

  /** Whether the tagged inbound has a client list to put an id into. */
  predicate HasClients(inbound: Json)
  {
    && inbound.Obj? && "settings" in inbound.fields && inbound.fields["settings"].Obj?
    && "clients" in inbound.fields["settings"].fields
    && Truthy(inbound.fields["settings"].fields["clients"])
  }

  lemma {:induction false} WithIdFirst(clients: seq<Json>, id: Json)
    requires WithId(clients, id).Ok? && clients != []
    ensures Index(WithId(clients, id).value[0], "id") == Ok(id)
  {
  }

  lemma SetClientIdView(inbound: Json, id: Json)
    requires SetClientId(inbound, id).Ok? && Truthy(id)
    ensures var r := SetClientId(inbound, id).value;
            && inbound.Obj? && r.Obj?
            && r.fields.Keys == inbound.fields.Keys
            && (forall key :: key in inbound.fields && key != "settings" ==> r.fields[key] == inbound.fields[key])
            && FirstClientId(r) == Ok(if HasClients(inbound) then Some(id) else None)
  {
    var settings := GetOr(inbound, "settings", Obj(map[])).value;
    var clients := AsList(GetOr(settings, "clients", Arr([])).value).value;
    if clients != [] {
      WithIdFirst(clients, id);
    }
  }

  /** Secrets read back are non-empty, and so is every fresh draw. */
  ghost predicate OrderOk(o: Order)
  {
    && o.draws.Valid()
    && (o.previous.Some? ==> GleanedOk(o.previous.value.gleaned))
  }

  predicate GleanedOk(g: Gleaned)
  {
    && (g.clientId.Some? ==> Truthy(g.clientId.value))
    && (g.shortIds.Some? ==> g.shortIds.value != [])
    && (g.dest.Some? ==> g.dest.value != "")
    && (g.serverNames.Some? ==> g.serverNames.value != [])
    && (g.path.Some? ==> g.path.value != "")
  }

  lemma {:induction false} GleanAllOk(items: seq<Json>)
    requires GleanAll(items).Ok?
    ensures GleanedOk(GleanAll(items).value)
  {
    if items != [] {
      GleanAllOk(items[..|items| - 1]);
      GleanOneOk(items[|items| - 1]);
    }
  }

  lemma GleanOneOk(inbound: Json)
    requires Glean(inbound).Ok?
    ensures GleanedOk(Glean(inbound).value)
  {
  }

  // ---- Reality ----

  lemma DestinationFields(reality: Json, o: Order)
    requires OrderOk(o) && Destination(reality, o).Ok?
    ensures var r := Destination(reality, o).value;
            && reality.Obj? && r.Obj?
            && (forall key :: key in reality.fields && key != "dest" && key != "serverNames" ==>
                 key in r.fields && r.fields[key] == reality.fields[key])
            && (KeepsDest(o) ==> Index(r, "dest") == Ok(Str(o.previous.value.gleaned.dest.value)))
            && (KeepsDest(o) && o.previous.value.gleaned.serverNames.Some? ==>
                 Index(r, "serverNames") == Ok(Arr(o.previous.value.gleaned.serverNames.value)))
  {
  }

  predicate KeepsDest(o: Order)
  {
    o.previous.Some? && o.previous.value.gleaned.dest.Some? && !o.policy.rotateDest
  }

  lemma RealityFields(reality: Json, o: Order)
    requires OrderOk(o) && RealitySettings(reality, o).Ok?
    ensures var r := RealitySettings(reality, o).value;
            && r.Obj?
            && Index(r, "shortIds") == Ok(Arr(ShortIds(o)))
            && Index(r, "privateKey") == Ok(Str(RealityKeys(o).0))
            && (KeepsDest(o) ==> Index(r, "dest") == Ok(Str(o.previous.value.gleaned.dest.value)))
            && (KeepsDest(o) && o.previous.value.gleaned.serverNames.Some? ==>
                 Index(r, "serverNames") == Ok(Arr(o.previous.value.gleaned.serverNames.value)))
  {
    var ids := Put(reality, "shortIds", Arr(ShortIds(o))).value;
    var keyed := Put(ids, "privateKey", Str(RealityKeys(o).0)).value;
    DestinationFields(keyed, o);
  }

  /** The inbound before the client id is put in. */
  function RealityStreamed(inbound: Json, o: Order, port: int): Result<Json>
  {
    var listening :- Listening(inbound, port, o.profile);
    var stream :- Index(listening, "streamSettings");
    var reality :- Index(stream, "realitySettings");
    var reality' :- RealitySettings(reality, o);
    var stream' :- Put(stream, "realitySettings", reality');
    Put(listening, "streamSettings", stream')
  }

  function RealitySection(inbound: Json): Result<Json>
  {
    var stream :- Section(inbound, "streamSettings");
    Section(stream, "realitySettings")
  }

  lemma RealityStreamedShape(inbound: Json, o: Order, port: int)
    requires OrderOk(o) && RealityStreamed(inbound, o, port).Ok?
    ensures var r := RealityStreamed(inbound, o, port).value;
            && r.Obj? && HasClients(r) == HasClients(inbound)
            && GetOr(r, "tag", Null) == GetOr(inbound, "tag", Null)
            && Index(r, "port") == Ok(Num(port))
  {
    ListeningKeeps(inbound, port, o.profile);
  }

  ghost predicate RealityWritten(reality: Json, o: Order)
  {
    && reality.Obj?
    && Index(reality, "shortIds") == Ok(Arr(ShortIds(o)))
    && Index(reality, "privateKey") == Ok(Str(RealityKeys(o).0))
    && (KeepsDest(o) ==> Index(reality, "dest") == Ok(Str(o.previous.value.gleaned.dest.value)))
    && (KeepsDest(o) && o.previous.value.gleaned.serverNames.Some? ==>
         Index(reality, "serverNames") == Ok(Arr(o.previous.value.gleaned.serverNames.value)))
  }

  lemma RealityStreamedSection(inbound: Json, o: Order, port: int)
    requires OrderOk(o) && RealityStreamed(inbound, o, port).Ok?
    ensures var r := RealityStreamed(inbound, o, port).value;
            RealitySection(r).Ok? && RealityWritten(RealitySection(r).value, o)
  {
    var listening := Listening(inbound, port, o.profile).value;
    var stream := Index(listening, "streamSettings").value;
    var reality := Index(stream, "realitySettings").value;
    RealityFields(reality, o);
    var reality' := RealitySettings(reality, o).value;
    var stream' := Put(stream, "realitySettings", reality').value;
    assert Truthy(reality') && Section(stream', "realitySettings") == Ok(reality');
  }

  lemma GleanReality(inbound: Json)
    requires Glean(inbound).Ok?
    ensures RealitySection(inbound).Ok?
    ensures var reality, g := RealitySection(inbound).value, Glean(inbound).value;
            && ListField(reality, "shortIds") == Ok(g.shortIds)
            && TextField(reality, "dest") == Ok(g.dest)
            && ListField(reality, "serverNames") == Ok(g.serverNames)
            && FirstClientId(inbound) == Ok(g.clientId)
  {
  }

  lemma WrittenGleans(reality: Json, o: Order)
    requires OrderOk(o) && RealityWritten(reality, o)
    ensures ListField(reality, "shortIds") == Ok(Some(ShortIds(o)))
    ensures KeepsDest(o) ==> TextField(reality, "dest") == Ok(o.previous.value.gleaned.dest)
    ensures KeepsDest(o) && o.previous.value.gleaned.serverNames.Some? ==>
              ListField(reality, "serverNames") == Ok(o.previous.value.gleaned.serverNames)
  {
    assert ShortIds(o) != [];
  }

  /** The built Reality inbound: same tag, the picked port, and the extracted fields. */
  lemma RealityView(inbound: Json, o: Order, port: int)
    requires OrderOk(o) && RealityInbound(inbound, o, port).Ok?
    ensures var r := RealityInbound(inbound, o, port).value;
            && GetOr(r, "tag", Null) == GetOr(inbound, "tag", Null)
            && Index(r, "port") == Ok(Num(port))
            && (Glean(r).Ok? ==>
                  && Glean(r).value.clientId == (if HasClients(inbound) then Some(ClientId(o)) else None)
                  && Glean(r).value.shortIds == Some(ShortIds(o))
                  && (KeepsDest(o) ==> Glean(r).value.dest == o.previous.value.gleaned.dest)
                  && (KeepsDest(o) && o.previous.value.gleaned.serverNames.Some? ==>
                       Glean(r).value.serverNames == o.previous.value.gleaned.serverNames))
  {
    var streamed := RealityStreamed(inbound, o, port).value;
    var r := RealityInbound(inbound, o, port).value;
    assert SetClientId(streamed, ClientId(o)) == Ok(r);
    RealityStreamedShape(inbound, o, port);
    RealityStreamedSection(inbound, o, port);
    SetClientIdView(streamed, ClientId(o));
    assert RealitySection(r) == RealitySection(streamed);
    WrittenGleans(RealitySection(r).value, o);
    if Glean(r).Ok? {
      GleanReality(r);
    }
  }

  // ---- gRPC ----

  lemma GrpcTlsFields(tls: Json, sni: Option<string>, certFile: string, keyFile: string)
    requires GrpcTls(tls, sni, certFile, keyFile).Ok?
    ensures var r := GrpcTls(tls, sni, certFile, keyFile).value;
            && tls.Obj? && r.Obj?
            && GetOr(r, "serverName", Null) == (if sni.Some? then Ok(Str(sni.value)) else GetOr(tls, "serverName", Null))
            && "certificates" in r.fields
  {
  }

  /** Putting in the port, the listen address and the client id. */
  lemma IdentifiedView(inbound: Json, o: Order, port: int)
    requires OrderOk(o) && Identified(inbound, o, port).Ok?
    ensures var r := Identified(inbound, o, port).value;
            && r.Obj?
            && GetOr(r, "tag", Null) == GetOr(inbound, "tag", Null)
            && Index(r, "port") == Ok(Num(port))
            && FirstClientId(r) == Ok(if HasClients(inbound) then Some(ClientId(o)) else None)
            && inbound.Obj? && GetOr(r, "streamSettings", Null) == GetOr(inbound, "streamSettings", Null)
  {
    var listening := Listening(inbound, port, o.profile).value;
    ListeningKeeps(inbound, port, o.profile);
    assert Truthy(ClientId(o));
    SetClientIdView(listening, ClientId(o));
    assert HasClients(listening) == HasClients(inbound);
  }

  lemma StreamReplaced(inbound: Json, stream: Json)
    requires inbound.Obj?
    ensures var r := Obj(inbound.fields["streamSettings" := stream]);
            && GetOr(r, "tag", Null) == GetOr(inbound, "tag", Null)
            && Index(r, "port") == Index(inbound, "port")
            && FirstClientId(r) == FirstClientId(inbound)
            && Index(r, "streamSettings") == Ok(stream)
  {
  }

  lemma GrpcShape(inbound: Json, o: Order, port: int, sni: Option<string>, service: Option<string>, certFile: string, keyFile: string)
    requires OrderOk(o) && GrpcInbound(inbound, o, port, sni, service, certFile, keyFile).Ok?
    ensures var r := GrpcInbound(inbound, o, port, sni, service, certFile, keyFile).value;
            && GetOr(r, "tag", Null) == GetOr(inbound, "tag", Null)
            && Index(r, "port") == Ok(Num(port))
            && FirstClientId(r) == Ok(if HasClients(inbound) then Some(ClientId(o)) else None)
  {
    IdentifiedView(inbound, o, port);
    var identified := Identified(inbound, o, port).value;
    var stream := Index(identified, "streamSettings").value;
    StreamReplaced(identified, GrpcStream(stream, sni, service, certFile, keyFile).value);
  }

  lemma GrpcStreamNames(stream: Json, sni: Option<string>, service: Option<string>, certFile: string, keyFile: string)
    requires GrpcStream(stream, sni, service, certFile, keyFile).Ok?
    ensures var a, b := Obj(map["streamSettings" := stream]), Obj(map["streamSettings" := GrpcStream(stream, sni, service, certFile, keyFile).value]);
            && GrpcNames(a).Ok? && GrpcNames(b).Ok?
            && GrpcNames(b).value.0 == (if sni.Some? then Str(sni.value) else GrpcNames(a).value.0)
            && GrpcNames(b).value.1 == (if service.Some? then Str(service.value) else GrpcNames(a).value.1)
  {
    GrpcTlsFields(Index(stream, "tlsSettings").value, sni, certFile, keyFile);
  }

  lemma GrpcView(inbound: Json, o: Order, port: int, sni: Option<string>, service: Option<string>, certFile: string, keyFile: string)
    requires OrderOk(o) && GrpcInbound(inbound, o, port, sni, service, certFile, keyFile).Ok?
    ensures var r := GrpcInbound(inbound, o, port, sni, service, certFile, keyFile).value;
            && GrpcNames(r).Ok? && GrpcNames(inbound).Ok?
            && GrpcNames(r).value.0 == (if sni.Some? then Str(sni.value) else GrpcNames(inbound).value.0)
            && GrpcNames(r).value.1 == (if service.Some? then Str(service.value) else GrpcNames(inbound).value.1)
  {
    IdentifiedView(inbound, o, port);
    var identified := Identified(inbound, o, port).value;
    var stream := Index(identified, "streamSettings").value;
    var stream' := GrpcStream(stream, sni, service, certFile, keyFile).value;
    GrpcStreamNames(stream, sni, service, certFile, keyFile);
    assert GrpcNames(inbound) == GrpcNames(Obj(map["streamSettings" := stream]));
    assert GrpcNames(Obj(identified.fields["streamSettings" := stream'])) == GrpcNames(Obj(map["streamSettings" := stream']));
  }

  // ---- xHTTP ----

  lemma XhttpStreamPath(stream: Json, path: Option<string>, host: string, certFile: string, keyFile: string)
    requires XhttpStream(stream, path, host, certFile, keyFile).Ok?
    ensures var r := XhttpStream(stream, path, host, certFile, keyFile).value;
            && r.Obj? && Truthy(r)
            && Section(r, "xhttpSettings").Ok?
            && (path.Some? ==> Index(Section(r, "xhttpSettings").value, "path") == Ok(Str(path.value)))
  {
    assert "tlsSettings" in XhttpStream(stream, path, host, certFile, keyFile).value.fields;
  }

  lemma XhttpView(inbound: Json, o: Order, port: int, host: string, certFile: string, keyFile: string)
    requires OrderOk(o) && XhttpInbound(inbound, o, port, host, certFile, keyFile).Ok?
    ensures var r := XhttpInbound(inbound, o, port, host, certFile, keyFile).value;
            && GetOr(r, "tag", Null) == GetOr(inbound, "tag", Null)
            && Index(r, "port") == Ok(Num(port))
            && FirstClientId(r) == Ok(if HasClients(inbound) then Some(ClientId(o)) else None)
            && (Glean(r).Ok? && XhttpPath(o).Some? && XhttpPath(o).value != "" ==> Glean(r).value.path == XhttpPath(o))
  {
    IdentifiedView(inbound, o, port);
    var identified := Identified(inbound, o, port).value;
    var stream := Index(identified, "streamSettings").value;
    XhttpStreamPath(stream, XhttpPath(o), host, certFile, keyFile);
    var stream' := XhttpStream(stream, XhttpPath(o), host, certFile, keyFile).value;
    StreamReplaced(identified, stream');
    var r := Obj(identified.fields["streamSettings" := stream']);
    assert Section(r, "streamSettings") == Ok(stream');
    if Glean(r).Ok? {
      GleanPath(r);
    }
  }

  lemma GleanPath(inbound: Json)
    requires Glean(inbound).Ok?
    ensures Section(inbound, "streamSettings").Ok? && Section(Section(inbound, "streamSettings").value, "xhttpSettings").Ok?
    ensures TextField(Section(Section(inbound, "streamSettings").value, "xhttpSettings").value, "path") == Ok(Glean(inbound).value.path)
  {
  }
}
