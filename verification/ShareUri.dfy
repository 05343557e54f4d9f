/** The share link of one version (panel/infrastructure/vpn/client_uri.py and `build_client_uris` in
    config_builder.py). A builder lists the parameters; `Print` puts the parts together. */
module ShareUri {
  import opened Wrappers
  import opened Text
  import opened JsonTree
  import opened PortPicker
  import opened Store
  import opened Settings
  import opened ConfigBuilder
  import opened UriCodec
  import opened UriReader

  function ShareLabel(profile: Profile): string
  {
    match profile
    case XrayReality => "Reality-Dynamic"
    case XrayXhttp => "XHTTP-Dynamic"
    case XrayGrpc => "gRPC-Dynamic"
    case Hysteria2 => "Hysteria2-Dynamic"
  }

  function UpperCase(c: char): char
  {
    if 'a' <= c <= 'z' then ((c as int) - 32) as char else c
  }

  function LowerCase(c: char): char
  {
    if 'A' <= c <= 'Z' then ((c as int) + 32) as char else c
  }

  function Lower(s: string): string
  {
    if s == "" then "" else [LowerCase(s[0])] + Lower(s[1..])
  }

  /** A certificate fingerprint without colons, in capitals. */
  function PinHex(fingerprint: string): string
  {
    if fingerprint == "" then ""
    else (if fingerprint[0] == ':' then "" else [UpperCase(fingerprint[0])]) + PinHex(fingerprint[1..])
  }

  /** `j[0]`. */
  function FirstItem(j: Json): Result<Json>
  {
    match j
    case Arr(items) => if items == [] then Raised else Ok(items[0])
    case Str(s) => if s == "" then Raised else Ok(Str(s[..1]))
    case _ => Raised
  }

  function FirstClient(inbound: Json): Result<Json>
  {
    var settings :- Index(inbound, "settings");
    var clients :- Index(settings, "clients");
    FirstItem(clients)
  }

  /** `str(client["id"])`. */
  function FirstId(inbound: Json): Result<string>
  {
    var client :- FirstClient(inbound);
    var id :- Index(client, "id");
    PyText(id)
  }

  function FirstFlow(inbound: Json): Result<string>
  {
    var client :- FirstClient(inbound);
    var flow :- GetOr(client, "flow", Str(DEFAULT_FLOW));
    PyText(flow)
  }

  /** The stripped, non-empty server names. */
  function NameCandidates(names: seq<Json>): Result<seq<string>>
  {
    if names == [] then Ok([])
    else
      var first :- PyText(names[0]);
      var rest :- NameCandidates(names[1..]);
      Ok((if Strip(first) == "" then [] else [Strip(first)]) + rest)
  }

  function Listed(names: Json): Result<seq<Json>>
  {
    if !Truthy(names) then Ok([])
    else
      match names
      case Arr(items) => Ok(items)
      case Str(s) => Ok(Strings(Characters(s)))
      case _ => Raised
  }

  function Characters(s: string): seq<string>
  {
    seq(|s|, i requires 0 <= i < |s| => s[i..i + 1])
  }

  /** The host of the Reality destination. */
  function DestHost(reality: Json): Result<string>
  {
    var dest :- GetOr(reality, "dest", Null);
    var text :- if Truthy(dest) then PyText(dest) else Ok("");
    Ok(DestHostname(text))
  }

  /** The name a Reality client must send: the destination's, else one of the server names at random. */
  function RealityShareSni(reality: Json, draw: nat): Result<string>
  {
    var host :- DestHost(reality);
    if host != "" then Ok(host)
    else
      var names :- GetOr(reality, "serverNames", Null);
      var items :- Listed(names);
      var candidates :- NameCandidates(items);
      Ok(if candidates == [] then "" else Choose(candidates, draw))
  }

  // ---- Reality ----

  datatype RealityFields = RealityFields(shortId: string, flow: string, sni: string)

  function ReadReality(inbound: Json, draw: nat): Result<RealityFields>
  {
    var stream :- Index(inbound, "streamSettings");
    var reality :- Index(stream, "realitySettings");
    var ids :- Index(reality, "shortIds");
    var id :- FirstItem(ids);
    var shortId :- PyText(id);
    var flow :- FirstFlow(inbound);
    var sni :- RealityShareSni(reality, draw);
    Ok(RealityFields(shortId, flow, sni))
  }

  function RealityParams(f: RealityFields, publicKey: string): seq<Param>
  {
    [("type", "tcp"), ("security", "reality"), ("flow", f.flow), ("fp", "chrome"), ("pbk", publicKey), ("sid", f.shortId)]
    + if f.sni != "" then [("sni", Quote(f.sni))] else []
  }

  // ---- TLS over Xray ----

  /** `tls.get("serverName") or host`. */
  function NameOr(tls: Json, host: string): Result<string>
  {
    var name :- GetOr(tls, "serverName", Null);
    if Truthy(name) then PyText(name) else Ok(host)
  }

  datatype XhttpFields = XhttpFields(mask: string, path: string, mode: string, sni: string)

  function TextOr(section: Json, key: string, default: string): Result<string>
  {
    var v :- GetOr(section, key, Str(default));
    PyText(v)
  }

  function ReadXhttp(inbound: Json, host: string): Result<XhttpFields>
  {
    var stream :- Index(inbound, "streamSettings");
    var xhttp :- Index(stream, "xhttpSettings");
    var tls :- Section(stream, "tlsSettings");
    var mask :- TextOr(xhttp, "host", host);
    var path :- TextOr(xhttp, "path", "/");
    var mode :- TextOr(xhttp, "mode", "stream-up");
    var sni :- NameOr(tls, host);
    Ok(XhttpFields(mask, path, mode, sni))
  }

  datatype GrpcFields = GrpcFields(service: string, sni: string)

  function ReadGrpcLink(inbound: Json, host: string): Result<GrpcFields>
  {
    var stream :- Index(inbound, "streamSettings");
    var tls :- Index(stream, "tlsSettings");
    var grpc :- Index(stream, "grpcSettings");
    var sni :- NameOr(tls, host);
    var service :- TextOr(grpc, "serviceName", "");
    Ok(GrpcFields(service, sni))
  }

  /** A secure link pins the certificate when there is one, any other says so. */
  function Trust(fingerprint: string, secure: bool): seq<Param>
  {
    if !secure then [("insecure", "1")] else if PinHex(fingerprint) == "" then [] else [("pcs", PinHex(fingerprint))]
  }

  function XhttpParams(f: XhttpFields, fingerprint: string, secure: bool): seq<Param>
  {
    [("type", "xhttp"), ("security", "tls"), ("host", Quote(f.mask)), ("path", Quote(f.path)), ("mode", Quote(f.mode)),
     ("fp", "chrome"), ("sni", Quote(f.sni))]
    + Trust(fingerprint, secure)
  }

  function GrpcParams(f: GrpcFields, fingerprint: string, secure: bool): seq<Param>
  {
    [("type", "grpc"), ("security", "tls"), ("serviceName", Quote(f.service)), ("fp", "chrome"), ("sni", Quote(f.sni))]
    + Trust(fingerprint, secure)
  }

  // ---- Hysteria2 ----

  datatype HysteriaFields = HysteriaFields(password: string, sni: string, obfs: Option<string>)

  function HysteriaSni(config: Json, host: string): Result<string>
  {
    var own :- GetOr(config, "sni", Null);
    if Truthy(own) then PyText(own)
    else
      var tls :- GetOr(config, "tls", Obj(map[]));
      var name :- GetOr(tls, "sni", Null);
      if Truthy(name) then PyText(name) else Ok(host)
  }

  /** The obfuscation password when the type is salamander and there is one. */
  function HysteriaObfs(config: Json): Result<Option<string>>
  {
    var obfs :- Section(config, "obfs");
    var kind :- TextOr(obfs, "type", "");
    if Lower(Strip(kind)) != "salamander" then Ok(None)
    else
      var salamander :- Section(obfs, "salamander");
      var password :- GetOr(salamander, "password", Null);
      if !Truthy(password) then Ok(None)
      else
        var text :- PyText(password);
        Ok(Some(text))
  }

  function ReadHysteria(config: Json, host: string): Result<HysteriaFields>
  {
    var auth :- Index(config, "auth");
    var value :- Index(auth, "password");
    var password :- AsText(value);
    var sni :- HysteriaSni(config, host);
    var obfs :- HysteriaObfs(config);
    Ok(HysteriaFields(password, sni, obfs))
  }

  function HysteriaTrust(fingerprint: string, secure: bool): seq<Param>
  {
    if !secure then [("insecure", "1")]
    else (if PinHex(fingerprint) == "" then [] else [("pinSHA256", PinHex(fingerprint))]) + [("insecure", "0")]
  }

  function HysteriaParams(f: HysteriaFields, fingerprint: string, secure: bool): seq<Param>
  {
    [("sni", Quote(f.sni))]
    + (if f.obfs.Some? then [("obfs", "salamander"), ("obfs-password", Quote(f.obfs.value))] else [])
    + HysteriaTrust(fingerprint, secure)
  }

  // ---- build_share_uris ----

  /** Everything a link is made from besides the document. */
  datatype Terms = Terms(host: string, publicKey: string, fingerprint: string, secure: bool, draw: nat)

  /** The advertised port, else the one the document listens on. */
  function SharePort(profile: Profile, config: Json, ps: ProfileSettings): Result<int>
  {
    if ps.sharePublicPort.Some? && ps.sharePublicPort.value != 0 then Ok(ps.sharePublicPort.value)
    else ListeningPort(profile, config, ps)
  }

  function HysteriaPrinted(f: HysteriaFields, t: Terms, port: int): Link
  {
    Link("hysteria2", Quote(f.password), t.host, port, HysteriaParams(f, t.fingerprint, t.secure), Quote(ShareLabel(Hysteria2)))
  }

  function HysteriaLink(config: Json, ps: ProfileSettings, t: Terms): Result<Link>
  {
    var port :- SharePort(Hysteria2, config, ps);
    var f :- ReadHysteria(config, t.host);
    Ok(HysteriaPrinted(f, t, port))
  }

  function XrayParams(profile: Profile, inbound: Json, t: Terms): Result<seq<Param>>
    requires !profile.Hysteria2?
  {
    match profile
    case XrayReality =>
      var f :- ReadReality(inbound, t.draw);
      Ok(RealityParams(f, t.publicKey))
    case XrayXhttp =>
      var f :- ReadXhttp(inbound, t.host);
      Ok(XhttpParams(f, t.fingerprint, t.secure))
    case XrayGrpc =>
      var f :- ReadGrpcLink(inbound, t.host);
      Ok(GrpcParams(f, t.fingerprint, t.secure))
  }

  function XrayLink(profile: Profile, config: Json, ps: ProfileSettings, t: Terms): Result<Link>
    requires !profile.Hysteria2?
  {
    var inbound :- FindInbound(config, ps.inboundTag);
    var port :- SharePort(profile, config, ps);
    var id :- FirstId(inbound);
    var params :- XrayParams(profile, inbound, t);
    Ok(Link("vless", id, t.host, port, params, Quote(ShareLabel(profile))))
  }

  function LinkOf(profile: Profile, config: Json, ps: ProfileSettings, t: Terms): Result<Link>
  {
    if profile.Hysteria2? then HysteriaLink(config, ps, t) else XrayLink(profile, config, ps, t)
  }

  /** `build_client_uris`: one link per version. */
  function BuildClientUris(settings: PanelSettings, profile: Profile, config: Json, publicKey: string, fingerprint: string,
                           secure: bool, shareHost: Option<string>, draw: nat): Result<seq<string>>
  {
    if profile !in settings.profiles then Raised
    else
      var ps := settings.profiles[profile];
      var link :- LinkOf(profile, config, ps, Terms(ShareHost(settings, ps, shareHost), publicKey, fingerprint, secure, draw));
      Ok([Print(link)])
  }

  // ---- The builders, with their growing lists of parameters ----

  method AppendTrust(before: seq<Param>, fingerprint: string, secure: bool) returns (params: seq<Param>)
    ensures params == before + Trust(fingerprint, secure)
  {
    params := before;
    if secure {
      var pcs := PinHex(fingerprint);
      if pcs != "" {
        params := params + [("pcs", pcs)];
      }
    } else {
      params := params + [("insecure", "1")];
    }
  }

  method HysteriaParameters(f: HysteriaFields, fingerprint: string, secure: bool) returns (params: seq<Param>)
    ensures params == HysteriaParams(f, fingerprint, secure)
  {
    params := [("sni", Quote(f.sni))];
    if f.obfs.Some? {
      params := params + [("obfs", "salamander")];
      params := params + [("obfs-password", Quote(f.obfs.value))];
    }
    ghost var before := params;
    assert before == [("sni", Quote(f.sni))]
      + (if f.obfs.Some? then [("obfs", "salamander"), ("obfs-password", Quote(f.obfs.value))] else []);
    if secure {
      var pin := PinHex(fingerprint);
      if pin != "" {
        params := params + [("pinSHA256", pin)];
      }
      params := params + [("insecure", "0")];
    } else {
      params := params + [("insecure", "1")];
    }
    assert params == before + HysteriaTrust(fingerprint, secure);
  }

  method XrayParameters(profile: Profile, inbound: Json, t: Terms) returns (r: Result<seq<Param>>)
    requires !profile.Hysteria2?
    ensures r == XrayParams(profile, inbound, t)
  {
    match profile {
      case XrayReality =>
        var f :- ReadReality(inbound, t.draw);
        var params := [("type", "tcp"), ("security", "reality"), ("flow", f.flow), ("fp", "chrome"), ("pbk", t.publicKey), ("sid", f.shortId)];
        if f.sni != "" {
          params := params + [("sni", Quote(f.sni))];
        }
        assert params == RealityParams(f, t.publicKey);
        return Ok(params);
      case XrayXhttp =>
        var f :- ReadXhttp(inbound, t.host);
        var params := AppendTrust([("type", "xhttp"), ("security", "tls"), ("host", Quote(f.mask)), ("path", Quote(f.path)),
                                   ("mode", Quote(f.mode)), ("fp", "chrome"), ("sni", Quote(f.sni))], t.fingerprint, t.secure);
        return Ok(params);
      case XrayGrpc =>
        var f :- ReadGrpcLink(inbound, t.host);
        var params := AppendTrust([("type", "grpc"), ("security", "tls"), ("serviceName", Quote(f.service)), ("fp", "chrome"),
                                   ("sni", Quote(f.sni))], t.fingerprint, t.secure);
        return Ok(params);
    }
  }

  // ---- What the links say ----

  lemma {:induction false} PinHasNo(fingerprint: string, c: char)
    requires c !in fingerprint && !('A' <= c <= 'Z')
    ensures c !in PinHex(fingerprint)
  {
    if fingerprint != "" {
      PinHasNo(fingerprint[1..], c);
      assert fingerprint[0] in fingerprint;
    }
  }

  /** A text that stands in a query as it is. */
  predicate PlainValue(s: string)
  {
    '&' !in s && '#' !in s && '%' !in s
  }

  lemma QuotedUser(s: string)
    ensures PlainUser(Quote(s)) && Unquote(Quote(s)) == Some(s)
  {
    QuoteIsSafe(s);
    NoAny(Quote(s));
    QuoteReadsBack(s);
  }

  predicate PlainKey(key: string)
  {
    '=' !in key && '&' !in key && '#' !in key
  }

  /** A printed parameter reads as the given one. */
  predicate ParamSays(p: Param, meant: Param)
  {
    PlainParam(p) && p.0 == meant.0 && Unquote(p.1) == Some(meant.1)
  }

  lemma SaysQuoted(key: string, s: string)
    requires PlainKey(key)
    ensures ParamSays((key, Quote(s)), (key, s))
  {
    QuoteIsSafe(s);
    NoAny(Quote(s));
    QuoteReadsBack(s);
  }

  lemma SaysPlain(key: string, s: string)
    requires PlainKey(key) && PlainValue(s)
    ensures ParamSays((key, s), (key, s))
  {
    PlainReads(s);
  }

  ghost predicate Pairwise(a: seq<Param>, b: seq<Param>, good: (Param, Param) -> bool)
  {
    |a| == |b| && forall i :: 0 <= i < |a| ==> good(a[i], b[i])
  }

  lemma {:induction false} ParamsSay(printed: seq<Param>, meant: seq<Param>)
    requires Pairwise(printed, meant, ParamSays)
    ensures PlainParams(printed) && ValuesOf(printed) == Some(meant)
  {
    if printed != [] {
      assert ParamSays(printed[0], meant[0]);
      forall i | 0 <= i < |printed[1..]| ensures ParamSays(printed[1..][i], meant[1..][i]) {
        assert ParamSays(printed[i + 1], meant[i + 1]);
      }
      ParamsSay(printed[1..], meant[1..]);
      assert [meant[0]] + meant[1..] == meant;
    }
  }

  ghost predicate Quotes(good: (Param, Param) -> bool)
  {
    forall key, s :: PlainKey(key) ==> good((key, Quote(s)), (key, s))
  }

  ghost predicate Plains(good: (Param, Param) -> bool)
  {
    forall key, s :: PlainKey(key) && PlainValue(s) ==> good((key, s), (key, s))
  }

  lemma QuotesSay()
    ensures Quotes(ParamSays)
  {
    forall key, s | PlainKey(key) ensures ParamSays((key, Quote(s)), (key, s)) {
      SaysQuoted(key, s);
    }
  }

  lemma PlainsSay()
    ensures Plains(ParamSays)
  {
    forall key, s | PlainKey(key) && PlainValue(s) ensures ParamSays((key, s), (key, s)) {
      SaysPlain(key, s);
    }
  }

  // ---- Hysteria2 ----

  function HysteriaMeant(f: HysteriaFields, fingerprint: string, secure: bool): seq<Param>
  {
    [("sni", f.sni)]
    + (if f.obfs.Some? then [("obfs", "salamander"), ("obfs-password", f.obfs.value)] else [])
    + HysteriaTrust(fingerprint, secure)
  }

  lemma HysteriaTrustPairs(fingerprint: string, secure: bool, good: (Param, Param) -> bool)
    requires Plains(good) && PlainValue(PinHex(fingerprint))
    ensures forall p :: p in HysteriaTrust(fingerprint, secure) ==> good(p, p)
  {
    assert PlainKey("pinSHA256") && PlainKey("insecure");
    assert PlainValue("0") && PlainValue("1");
    assert good(("insecure", "0"), ("insecure", "0")) && good(("insecure", "1"), ("insecure", "1"));
    assert good(("pinSHA256", PinHex(fingerprint)), ("pinSHA256", PinHex(fingerprint)));
  }

  lemma ObfsPairs(password: string, good: (Param, Param) -> bool)
    requires Quotes(good) && Plains(good)
    ensures good(("obfs", "salamander"), ("obfs", "salamander"))
    ensures good(("obfs-password", Quote(password)), ("obfs-password", password))
  {
    assert PlainKey("obfs") && PlainKey("obfs-password") && PlainValue("salamander");
  }

  lemma HysteriaPairs(f: HysteriaFields, fingerprint: string, secure: bool, good: (Param, Param) -> bool)
    requires Quotes(good) && Plains(good) && PlainValue(PinHex(fingerprint))
    ensures Pairwise(HysteriaParams(f, fingerprint, secure), HysteriaMeant(f, fingerprint, secure), good)
  {
    assert PlainKey("sni");
    assert good(("sni", Quote(f.sni)), ("sni", f.sni));
    ObfsPairs(f.obfs.GetOr(""), good);
    HysteriaTrustPairs(fingerprint, secure, good);
    PairsConcat(f, fingerprint, secure, good);
  }

  lemma PairsConcat(f: HysteriaFields, fingerprint: string, secure: bool, good: (Param, Param) -> bool)
    requires good(("sni", Quote(f.sni)), ("sni", f.sni))
    requires f.obfs.Some? ==> good(("obfs", "salamander"), ("obfs", "salamander"))
    requires f.obfs.Some? ==> good(("obfs-password", Quote(f.obfs.value)), ("obfs-password", f.obfs.value))
    requires forall p :: p in HysteriaTrust(fingerprint, secure) ==> good(p, p)
    ensures Pairwise(HysteriaParams(f, fingerprint, secure), HysteriaMeant(f, fingerprint, secure), good)
  {
  }

  lemma HysteriaSays(f: HysteriaFields, fingerprint: string, secure: bool)
    requires PlainValue(PinHex(fingerprint))
    ensures Pairwise(HysteriaParams(f, fingerprint, secure), HysteriaMeant(f, fingerprint, secure), ParamSays)
  {
    QuotesSay();
    PlainsSay();
    HysteriaPairs(f, fingerprint, secure, ParamSays);
  }

  lemma LinkReadsBack(l: Link, user: string, params: seq<Param>, fragment: string)
    requires ':' !in l.scheme && l.port >= 0 && l.params != [] && Pairwise(l.params, params, ParamSays)
    requires PlainUser(l.user) && Unquote(l.user) == Some(user) && Unquote(l.fragment) == Some(fragment)
    ensures ReadUri(Print(l)) == Some(Uri(l.scheme, user, l.host, l.port, params, fragment)) <==> ValidHost(l.host)
  {
    ParamsSay(l.params, params);
    ReadsBackIff(l);
  }

  /** User and label percent-encoded. */
  lemma QuotedLinkReadsBack(l: Link, user: string, params: seq<Param>, fragment: string)
    requires ':' !in l.scheme && l.port >= 0 && l.params != [] && Pairwise(l.params, params, ParamSays)
    requires l.user == Quote(user) && l.fragment == Quote(fragment)
    ensures ReadUri(Print(l)) == Some(Uri(l.scheme, user, l.host, l.port, params, fragment)) <==> ValidHost(l.host)
  {
    QuotedUser(user);
    QuoteReadsBack(fragment);
    LinkReadsBack(l, user, params, fragment);
  }

  lemma HysteriaPrintable(f: HysteriaFields, t: Terms, port: nat)
    requires PlainValue(PinHex(t.fingerprint))
    ensures var l := HysteriaPrinted(f, t, port);
            ':' !in l.scheme && l.params != [] && Pairwise(l.params, HysteriaMeant(f, t.fingerprint, t.secure), ParamSays)
  {
    HysteriaSays(f, t.fingerprint, t.secure);
    assert ':' !in "hysteria2";
    assert HysteriaParams(f, t.fingerprint, t.secure)[0].0 == "sni";
  }

  lemma HysteriaFieldsRead(f: HysteriaFields, t: Terms, port: nat)
    requires PlainValue(PinHex(t.fingerprint))
    ensures ReadUri(Print(HysteriaPrinted(f, t, port)))
            == Some(Uri("hysteria2", f.password, t.host, port, HysteriaMeant(f, t.fingerprint, t.secure), ShareLabel(Hysteria2)))
            <==> ValidHost(t.host)
  {
    var l := HysteriaPrinted(f, t, port);
    HysteriaPrintable(f, t, port);
    QuotedLinkReadsBack(l, f.password, HysteriaMeant(f, t.fingerprint, t.secure), ShareLabel(Hysteria2));
  }

  /** The Hysteria2 link is unambiguous: for any password, SNI and obfuscation password whatever,
      splitting it at its delimiters and decoding gives back exactly what was printed, if and only if
      the host is one that an authority can hold. The port must not be negative and the pin must be
      plain, which every hexadecimal one is. */
  lemma HysteriaLinkReadsBack(config: Json, ps: ProfileSettings, t: Terms)
    requires HysteriaLink(config, ps, t).Ok? && SharePort(Hysteria2, config, ps).value >= 0 && PlainValue(PinHex(t.fingerprint))
    ensures var f := ReadHysteria(config, t.host).value;
            var uri := Print(HysteriaLink(config, ps, t).value);
            ReadUri(uri) == Some(Uri("hysteria2", f.password, t.host, SharePort(Hysteria2, config, ps).value,
                                     HysteriaMeant(f, t.fingerprint, t.secure), ShareLabel(Hysteria2)))
            <==> ValidHost(t.host)
  {
    var f := ReadHysteria(config, t.host).value;
    var port := SharePort(Hysteria2, config, ps).value;
    HysteriaFieldsRead(f, t, port);
    assert HysteriaLink(config, ps, t) == Ok(HysteriaPrinted(f, t, port));
  }
}
