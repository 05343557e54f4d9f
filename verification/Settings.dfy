/** Panel settings and the outside world as the builders see them (panel/config.py). */
module Settings {
  import opened Wrappers
  import opened Text
  import opened JsonTree
  import opened PortPicker
  import opened Store

  datatype ProfileSettings = ProfileSettings(
    template: Json,
    inboundTag: string,
    portCandidates: seq<int>,
    xhttpPaths: seq<string>,
    grpcSniHosts: seq<string>,
    grpcServiceNames: seq<string>,
    realityDestHosts: seq<string>,
    realityServerNames: seq<string>,
    sharePublicPort: Option<int>,
    sharePublicHost: Option<string>,
    listenAddress: Option<string>,
    panelBackend: Option<string>,
    activeConfig: bool,
    externalTls: bool,
    certFile: string,
    keyFile: string)

  datatype PanelSettings = PanelSettings(
    publicHost: string,
    publicHostAliases: seq<string>,
    serverPort: int,
    perConfig: bool,
    profiles: map<Profile, ProfileSettings>)

  datatype TlsPair = TlsPair(privateKey: string, cert: string, fingerprint: string)

  /** A key pair configured outside the panel, with the paths it was read from. */
  datatype ExternalTls = ExternalTls(pair: TlsPair, certPath: string, keyPath: string)

  /** Certificates: which names one covers, whether a key fits it, and minting one for a name. */
  datatype CertRules = CertRules(
    hasSan: (string, string) -> bool,
    matches: (string, string) -> bool,
    mint: (string, nat) -> TlsPair,
    digest: string -> string)
  {
    ghost predicate Valid()
    {
      forall name: string, seed: nat :: MintsFor(name, seed)
    }

    ghost predicate MintsFor(name: string, seed: nat)
    {
      var p := mint(name, seed);
      && p.privateKey != "" && p.cert != "" && p.fingerprint != ""
      && (forall other :: hasSan(p.cert, other) <==> other == name)
      && matches(p.cert, p.privateKey)
    }
  }

  /** Everything one build draws or observes. `external` is the key pair configured for the profile,
      if it is configured (`externalTls`), loads and fits; `Raised` when the files cannot be read. */
  datatype Draws = Draws(
    clientId: string,
    realityPrivate: string,
    realityPublic: string,
    shortIds: seq<string>,
    password: string,
    obfsPassword: string,
    destDraw: nat,
    sniDraw: nat,
    serviceDraw: nat,
    pathDraw: nat,
    portDraw: nat,
    tlsSeed: nat,
    nonce: nat,
    free: BindCheck,
    external: Result<Option<ExternalTls>>,
    writtenCert: string,
    writtenKey: string,
    serviceReady: bool)
  {
    /** Freshly drawn secrets are never empty. */
    predicate Valid()
    {
      && clientId != "" && realityPrivate != "" && realityPublic != ""
      && shortIds != [] && password != "" && obfsPassword != ""
    }
  }

  function NonEmpty(s: string): Option<string>
  {
    if s == "" then None else Some(s)
  }

  function Stripped(candidate: Option<string>): Option<string>
  {
    if candidate.None? then None else NonEmpty(Strip(candidate.value))
  }

  /** The advertised host: the config's own, else the profile's, else the panel's. */
  function ShareHost(settings: PanelSettings, profile: ProfileSettings, configHost: Option<string>): (host: string)
    ensures host != "" && Strip(host) == host
  {
    var found := Stripped(configHost).Or(Stripped(profile.sharePublicHost)).Or(Stripped(Some(settings.publicHost)));
    HostStripped(configHost);
    HostStripped(profile.sharePublicHost);
    HostStripped(Some(settings.publicHost));
    assert Strip("localhost") == "localhost" by {
      StripClean("localhost");
    }
    found.GetOr("localhost")
  }

  lemma HostStripped(candidate: Option<string>)
    ensures Stripped(candidate).Some? ==> Stripped(candidate).value != "" && Strip(Stripped(candidate).value) == Stripped(candidate).value
  {
    if candidate.Some? {
      StripIdempotent(candidate.value);
    }
  }

  /** `str(dest)` up to its last colon (bracketed addresses are kept whole). */
  function DestHostname(dest: string): string
  {
    var value := Strip(dest);
    if value == "" then ""
    else if ':' in value && value[0] != '[' then Strip(BeforeLast(value, ':'))
    else value
  }

  function BeforeLast(s: string, c: char): string
    requires c in s
    decreases |s|
  {
    if s[|s| - 1] == c then s[..|s| - 1] else BeforeLast(s[..|s| - 1], c)
  }

  /** `str(j)`; the printed form of a list or a mapping is not modelled. */
  function PyText(j: Json): Result<string>
  {
    match j
    case Str(s) => Ok(s)
    case Num(n) => Ok(Text.Text(n))
    case Bool(b) => Ok(if b then "True" else "False")
    case Null => Ok("None")
    case _ => Raised
  }

  const DEFAULT_FLOW := "xtls-rprx-vision"
}
