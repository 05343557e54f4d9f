/** What a `vless` share link says when it is read back (panel/infrastructure/vpn/client_uri.py). */
module XrayLinks {
  import opened Wrappers
  import opened JsonTree
  import opened Store
  import opened Settings
  import opened ConfigBuilder
  import opened UriCodec
  import opened UriReader
  import opened ShareUri

  function RealityMeant(f: RealityFields, publicKey: string): seq<Param>
  {
    [("type", "tcp"), ("security", "reality"), ("flow", f.flow), ("fp", "chrome"), ("pbk", publicKey), ("sid", f.shortId)]
    + if f.sni != "" then [("sni", f.sni)] else []
  }

  function XhttpMeant(f: XhttpFields, fingerprint: string, secure: bool): seq<Param>
  {
    [("type", "xhttp"), ("security", "tls"), ("host", f.mask), ("path", f.path), ("mode", f.mode), ("fp", "chrome"), ("sni", f.sni)]
    + Trust(fingerprint, secure)
  }

  function GrpcMeant(f: GrpcFields, fingerprint: string, secure: bool): seq<Param>
  {
    [("type", "grpc"), ("security", "tls"), ("serviceName", f.service), ("fp", "chrome"), ("sni", f.sni)]
    + Trust(fingerprint, secure)
  }

  lemma ShortKeysArePlain()
    ensures PlainKey("type") && PlainKey("flow") && PlainKey("fp") && PlainKey("pbk") && PlainKey("sid")
    ensures PlainKey("sni") && PlainKey("host") && PlainKey("path") && PlainKey("mode") && PlainKey("pcs")
  {
  }

  lemma LongKeysArePlain()
    ensures PlainKey("security") && PlainKey("serviceName") && PlainKey("insecure")
  {
  }

  lemma KeysArePlain()
    ensures PlainKey("type") && PlainKey("security") && PlainKey("flow") && PlainKey("fp") && PlainKey("pbk") && PlainKey("sid")
    ensures PlainKey("sni") && PlainKey("host") && PlainKey("path") && PlainKey("mode") && PlainKey("serviceName")
    ensures PlainKey("pcs") && PlainKey("insecure")
  {
    ShortKeysArePlain();
    LongKeysArePlain();
  }

  lemma WordsArePlain()
    ensures PlainValue("tcp") && PlainValue("reality") && PlainValue("chrome") && PlainValue("xhttp") && PlainValue("tls")
    ensures PlainValue("grpc") && PlainValue("1")
  {
  }

  lemma RealityPairs(f: RealityFields, publicKey: string, good: (Param, Param) -> bool)
    requires Quotes(good) && Plains(good)
    requires PlainValue(f.flow) && PlainValue(publicKey) && PlainValue(f.shortId)
    ensures Pairwise(RealityParams(f, publicKey), RealityMeant(f, publicKey), good)
  {
    KeysArePlain();
    WordsArePlain();
    assert good(("type", "tcp"), ("type", "tcp")) && good(("security", "reality"), ("security", "reality"));
    assert good(("flow", f.flow), ("flow", f.flow)) && good(("fp", "chrome"), ("fp", "chrome"));
    assert good(("pbk", publicKey), ("pbk", publicKey)) && good(("sid", f.shortId), ("sid", f.shortId));
    assert good(("sni", Quote(f.sni)), ("sni", f.sni));
    RealityRows(f, publicKey, good);
  }

  lemma RealityRows(f: RealityFields, publicKey: string, good: (Param, Param) -> bool)
    requires good(("type", "tcp"), ("type", "tcp")) && good(("security", "reality"), ("security", "reality"))
    requires good(("flow", f.flow), ("flow", f.flow)) && good(("fp", "chrome"), ("fp", "chrome"))
    requires good(("pbk", publicKey), ("pbk", publicKey)) && good(("sid", f.shortId), ("sid", f.shortId))
    requires good(("sni", Quote(f.sni)), ("sni", f.sni))
    ensures Pairwise(RealityParams(f, publicKey), RealityMeant(f, publicKey), good)
  {
  }

  lemma TrustPairs(fingerprint: string, secure: bool, good: (Param, Param) -> bool)
    requires Plains(good) && PlainValue(PinHex(fingerprint))
    ensures Pairwise(Trust(fingerprint, secure), Trust(fingerprint, secure), good)
  {
    KeysArePlain();
    WordsArePlain();
    assert good(("insecure", "1"), ("insecure", "1"));
    assert good(("pcs", PinHex(fingerprint)), ("pcs", PinHex(fingerprint)));
  }

  lemma PairwiseConcat(a: seq<Param>, am: seq<Param>, b: seq<Param>, bm: seq<Param>, good: (Param, Param) -> bool)
    requires Pairwise(a, am, good) && Pairwise(b, bm, good)
    ensures Pairwise(a + b, am + bm, good)
  {
  }

  lemma XhttpPairs(f: XhttpFields, fingerprint: string, secure: bool, good: (Param, Param) -> bool)
    requires Quotes(good) && Plains(good) && PlainValue(PinHex(fingerprint))
    ensures Pairwise(XhttpParams(f, fingerprint, secure), XhttpMeant(f, fingerprint, secure), good)
  {
    KeysArePlain();
    WordsArePlain();
    assert good(("type", "xhttp"), ("type", "xhttp")) && good(("security", "tls"), ("security", "tls"));
    assert good(("host", Quote(f.mask)), ("host", f.mask)) && good(("path", Quote(f.path)), ("path", f.path));
    assert good(("mode", Quote(f.mode)), ("mode", f.mode)) && good(("fp", "chrome"), ("fp", "chrome"));
    assert good(("sni", Quote(f.sni)), ("sni", f.sni));
    TrustPairs(fingerprint, secure, good);
    XhttpRows(f, fingerprint, secure, good);
  }

  lemma XhttpRows(f: XhttpFields, fingerprint: string, secure: bool, good: (Param, Param) -> bool)
    requires good(("type", "xhttp"), ("type", "xhttp")) && good(("security", "tls"), ("security", "tls"))
    requires good(("host", Quote(f.mask)), ("host", f.mask)) && good(("path", Quote(f.path)), ("path", f.path))
    requires good(("mode", Quote(f.mode)), ("mode", f.mode)) && good(("fp", "chrome"), ("fp", "chrome"))
    requires good(("sni", Quote(f.sni)), ("sni", f.sni))
    requires Pairwise(Trust(fingerprint, secure), Trust(fingerprint, secure), good)
    ensures Pairwise(XhttpParams(f, fingerprint, secure), XhttpMeant(f, fingerprint, secure), good)
  {
    var printed := [("type", "xhttp"), ("security", "tls"), ("host", Quote(f.mask)), ("path", Quote(f.path)), ("mode", Quote(f.mode)),
                    ("fp", "chrome"), ("sni", Quote(f.sni))];
    var meant := [("type", "xhttp"), ("security", "tls"), ("host", f.mask), ("path", f.path), ("mode", f.mode), ("fp", "chrome"), ("sni", f.sni)];
    PairwiseConcat(printed, meant, Trust(fingerprint, secure), Trust(fingerprint, secure), good);
  }

  lemma GrpcPairs(f: GrpcFields, fingerprint: string, secure: bool, good: (Param, Param) -> bool)
    requires Quotes(good) && Plains(good) && PlainValue(PinHex(fingerprint))
    ensures Pairwise(GrpcParams(f, fingerprint, secure), GrpcMeant(f, fingerprint, secure), good)
  {
    KeysArePlain();
    WordsArePlain();
    assert good(("type", "grpc"), ("type", "grpc")) && good(("security", "tls"), ("security", "tls"));
    assert good(("serviceName", Quote(f.service)), ("serviceName", f.service)) && good(("fp", "chrome"), ("fp", "chrome"));
    assert good(("sni", Quote(f.sni)), ("sni", f.sni));
    TrustPairs(fingerprint, secure, good);
    GrpcRows(f, fingerprint, secure, good);
  }

  lemma GrpcRows(f: GrpcFields, fingerprint: string, secure: bool, good: (Param, Param) -> bool)
    requires good(("type", "grpc"), ("type", "grpc")) && good(("security", "tls"), ("security", "tls"))
    requires good(("serviceName", Quote(f.service)), ("serviceName", f.service)) && good(("fp", "chrome"), ("fp", "chrome"))
    requires good(("sni", Quote(f.sni)), ("sni", f.sni))
    requires Pairwise(Trust(fingerprint, secure), Trust(fingerprint, secure), good)
    ensures Pairwise(GrpcParams(f, fingerprint, secure), GrpcMeant(f, fingerprint, secure), good)
  {
    var printed := [("type", "grpc"), ("security", "tls"), ("serviceName", Quote(f.service)), ("fp", "chrome"), ("sni", Quote(f.sni))];
    var meant := [("type", "grpc"), ("security", "tls"), ("serviceName", f.service), ("fp", "chrome"), ("sni", f.sni)];
    PairwiseConcat(printed, meant, Trust(fingerprint, secure), Trust(fingerprint, secure), good);
  }

  /** What the parameters of an Xray link mean. */
  function XrayMeant(profile: Profile, inbound: Json, t: Terms): Result<seq<Param>>
    requires !profile.Hysteria2?
  {
    match profile
    case XrayReality =>
      var f :- ReadReality(inbound, t.draw);
      Ok(RealityMeant(f, t.publicKey))
    case XrayXhttp =>
      var f :- ReadXhttp(inbound, t.host);
      Ok(XhttpMeant(f, t.fingerprint, t.secure))
    case XrayGrpc =>
      var f :- ReadGrpcLink(inbound, t.host);
      Ok(GrpcMeant(f, t.fingerprint, t.secure))
  }

  /** The values that the panel prints without encoding them can stand as they are. */
  predicate RawPartsPlain(profile: Profile, inbound: Json, t: Terms)
    requires !profile.Hysteria2?
  {
    && FirstId(inbound).Ok? && PlainUser(FirstId(inbound).value) && '%' !in FirstId(inbound).value
    && (if profile.XrayReality? then
          PlainValue(t.publicKey) && (ReadReality(inbound, t.draw).Ok? ==>
            PlainValue(ReadReality(inbound, t.draw).value.flow) && PlainValue(ReadReality(inbound, t.draw).value.shortId))
        else PlainValue(PinHex(t.fingerprint)))
  }

  lemma XrayParamsSay(profile: Profile, inbound: Json, t: Terms)
    requires !profile.Hysteria2? && XrayParams(profile, inbound, t).Ok? && RawPartsPlain(profile, inbound, t)
    ensures XrayMeant(profile, inbound, t).Ok?
    ensures Pairwise(XrayParams(profile, inbound, t).value, XrayMeant(profile, inbound, t).value, ParamSays)
    ensures XrayParams(profile, inbound, t).value != []
  {
    QuotesSay();
    PlainsSay();
    match profile {
      case XrayReality => RealityPairs(ReadReality(inbound, t.draw).value, t.publicKey, ParamSays);
      case XrayXhttp => XhttpPairs(ReadXhttp(inbound, t.host).value, t.fingerprint, t.secure, ParamSays);
      case XrayGrpc => GrpcPairs(ReadGrpcLink(inbound, t.host).value, t.fingerprint, t.secure, ParamSays);
    }
  }

  lemma PlainUserReads(id: string)
    requires PlainUser(id) && '%' !in id
    ensures Unquote(id) == Some(id)
  {
    PlainReads(id);
  }

  lemma VlessReads(l: Link, params: seq<Param>, profile: Profile)
    requires l.scheme == "vless" && l.port >= 0 && l.params != [] && Pairwise(l.params, params, ParamSays)
    requires PlainUser(l.user) && '%' !in l.user && l.fragment == Quote(ShareLabel(profile))
    ensures ReadUri(Print(l)) == Some(Uri("vless", l.user, l.host, l.port, params, ShareLabel(profile))) <==> ValidHost(l.host)
  {
    assert ':' !in "vless";
    PlainUserReads(l.user);
    QuoteReadsBack(ShareLabel(profile));
    LinkReadsBack(l, l.user, params, ShareLabel(profile));
  }

  /** A `vless` link reads back as the credential, address, port and parameters it was made from, if
      and only if the host is one that an authority can hold. */
  lemma XrayLinkReadsBack(profile: Profile, config: Json, ps: ProfileSettings, t: Terms)
    requires !profile.Hysteria2? && XrayLink(profile, config, ps, t).Ok? && SharePort(profile, config, ps).value >= 0
    requires RawPartsPlain(profile, FindInbound(config, ps.inboundTag).value, t)
    ensures var inbound := FindInbound(config, ps.inboundTag).value;
            && XrayMeant(profile, inbound, t).Ok?
            && (ReadUri(Print(XrayLink(profile, config, ps, t).value))
                == Some(Uri("vless", FirstId(inbound).value, t.host, SharePort(profile, config, ps).value,
                            XrayMeant(profile, inbound, t).value, ShareLabel(profile)))
                <==> ValidHost(t.host))
  {
    var inbound := FindInbound(config, ps.inboundTag).value;
    XrayParamsSay(profile, inbound, t);
    VlessReads(XrayLink(profile, config, ps, t).value, XrayMeant(profile, inbound, t).value, profile);
  }
}
