/** The connectivity probe's own client for a stored version: where it dials and what it sends
    (panel/infrastructure/vpn/vpn_connectivity.py). */
module Probe {
  import opened Wrappers
  import opened Text
  import opened JsonTree
  import opened FieldCrypto
  import opened Store
  import opened Settings
  import opened ConfigBuilder
  import opened ConfigBuild
  import opened ShareUri

  function StrippedOr(a: Option<string>, b: Option<string>): string
  {
    Strip(FirstTruthy(a, b))
  }

  predicate HasSharePort(settings: PanelSettings, profile: Profile)
  {
    && profile in settings.profiles
    && settings.profiles[profile].sharePublicPort.Some? && settings.profiles[profile].sharePublicPort.value != 0
  }

  function ProfileShareHost(settings: PanelSettings, profile: Profile): Option<string>
  {
    if profile in settings.profiles then settings.profiles[profile].sharePublicHost else None
  }

  predicate AllowLoopback(settings: PanelSettings, profile: Profile, shareHost: Option<string>)
  {
    profile in settings.profiles ==>
      !HasSharePort(settings, profile) && StrippedOr(shareHost, settings.profiles[profile].sharePublicHost) == ""
  }

  function PreferHost(settings: PanelSettings, profile: Profile, shareHost: Option<string>): Option<string>
  {
    if Stripped(shareHost).Some? then Stripped(shareHost)
    else if Stripped(ProfileShareHost(settings, profile)).Some? then Stripped(ProfileShareHost(settings, profile))
    else if !AllowLoopback(settings, profile, shareHost) then None
    else NonEmpty(Strip(settings.publicHost))
  }

  /** The hosts the probe dials, in order. */
  method ConnectHosts(settings: PanelSettings, preferHost: Option<string>, allowLoopback: bool) returns (hosts: seq<string>)
    ensures hosts == Hosts(settings, preferHost, allowLoopback)
  {
    hosts := [];
    var prefer := Strip(preferHost.GetOr(""));
    if prefer != "" {
      hosts := hosts + [prefer];
    }
    if !allowLoopback {
      return;
    }
    var candidates := [settings.publicHost, "127.0.0.1"];
    ghost var first := hosts;
    assert first == if prefer != "" then [prefer] else [];
    for i := 0 to 2
      invariant AddStripped(hosts, candidates[i..]) == AddStripped(first, candidates)
    {
      assert candidates[i..][0] == candidates[i] && candidates[i..][1..] == candidates[i + 1..];
      var value := Strip(candidates[i]);
      if value != "" && value !in hosts {
        hosts := hosts + [value];
      }
    }
    assert candidates[2..] == [] && AddStripped(hosts, []) == hosts;
  }

  function Hosts(settings: PanelSettings, preferHost: Option<string>, allowLoopback: bool): seq<string>
  {
    var prefer := Strip(preferHost.GetOr(""));
    var first := if prefer != "" then [prefer] else [];
    if allowLoopback then AddStripped(first, [settings.publicHost, "127.0.0.1"]) else first
  }

  predicate IsLoopback(host: string)
  {
    Strip(host) in ["127.0.0.1", "::1", "localhost"]
  }

  function DialPort(settings: PanelSettings, profile: Profile, host: string, port: int): int
  {
    if IsLoopback(host) then port
    else if profile in settings.profiles then settings.profiles[profile].sharePublicPort.GetOr(port)
    else port
  }

  // ---- What a client connects to ----

  /** Everything a client needs, whether it comes from a share link or from the probe. Fields that a
      profile does not use are empty. */
  datatype Endpoint = Endpoint(
    address: string,
    port: int,
    credential: string,
    sni: string,
    pin: string,
    obfs: Option<string>,
    flow: string,
    publicKey: string,
    shortId: string,
    mask: string,
    path: string,
    mode: string,
    service: string)

  function Dialled(address: string, port: int, credential: string, sni: string): Endpoint
  {
    Endpoint(address, port, credential, sni, "", None, "", "", "", "", "", "", "")
  }

  /** `str(tls.get("serverName") or "").strip() or host`. */
  function ProbeName(tls: Json, host: string): Result<string>
  {
    var name :- GetOr(tls, "serverName", Null);
    var text :- if Truthy(name) then PyText(name) else Ok("");
    Ok(if Strip(text) != "" then Strip(text) else host)
  }

  function ProbeReality(inbound: Json, stream: Json, base: Endpoint, publicKey: string, draw: nat): Result<Endpoint>
  {
    var reality :- Index(stream, "realitySettings");
    var flow :- FirstFlow(inbound);
    var sni :- RealityShareSni(reality, draw);
    var ids :- Index(reality, "shortIds");
    var id :- FirstItem(ids);
    var shortId :- PyText(id);
    Ok(base.(sni := sni, flow := flow, publicKey := publicKey, shortId := shortId))
  }

  function ProbeGrpc(stream: Json, base: Endpoint, fingerprint: string): Result<Endpoint>
  {
    var tls :- Index(stream, "tlsSettings");
    var grpc :- Index(stream, "grpcSettings");
    var sni :- ProbeName(tls, base.address);
    var service :- TextOr(grpc, "serviceName", "");
    Ok(base.(sni := sni, pin := PinHex(fingerprint), service := service))
  }

  function ProbeXhttp(stream: Json, base: Endpoint, fingerprint: string): Result<Endpoint>
  {
    var xhttp :- Index(stream, "xhttpSettings");
    var tls :- Section(stream, "tlsSettings");
    var sni :- ProbeName(tls, base.address);
    var mask :- TextOr(xhttp, "host", base.address);
    var path :- TextOr(xhttp, "path", "/");
    var mode :- TextOr(xhttp, "mode", "stream-up");
    Ok(base.(sni := sni, pin := PinHex(fingerprint), mask := mask, path := path, mode := mode))
  }

  /** `_build_xray_client_config`: reads the stored document without decrypting it. */
  function XrayClient(settings: PanelSettings, profile: Profile, row: VersionRow, host: string, draw: nat): Result<Endpoint>
    requires profile in settings.profiles && !profile.Hysteria2?
  {
    var inbound :- FindInbound(row.data, settings.profiles[profile].inboundTag);
    var id :- FirstId(inbound);
    var stream :- Index(inbound, "streamSettings");
    var _ :- Index(stream, "network");
    var base := Dialled(host, DialPort(settings, profile, host, row.port), id, "");
    match profile
    case XrayReality => ProbeReality(inbound, stream, base, row.publicKey, draw)
    case XrayGrpc => ProbeGrpc(stream, base, row.fingerprint)
    case XrayXhttp => ProbeXhttp(stream, base, row.fingerprint)
  }

  /** `_build_hysteria_client_config`. */
  function HysteriaClient(settings: PanelSettings, e: Encryptor, row: VersionRow, host: string): Result<Endpoint>
  {
    var config :- PlainConfig(e, Hysteria2, row);
    HysteriaClientOf(settings, row, config, host)
  }

  function HysteriaClientOf(settings: PanelSettings, row: VersionRow, config: Json, host: string): Result<Endpoint>
  {
    var auth :- Index(config, "auth");
    var value :- Index(auth, "password");
    var password :- PyText(value);
    var sni :- HysteriaSni(config, host);
    var obfs :- HysteriaObfs(config);
    Ok(Dialled(host, DialPort(settings, Hysteria2, host, row.port), password, sni).(pin := PinHex(row.fingerprint), obfs := obfs))
  }

  function ProbeClient(settings: PanelSettings, e: Encryptor, profile: Profile, row: VersionRow, host: string, draw: nat): Result<Endpoint>
  {
    if profile.Hysteria2? then HysteriaClient(settings, e, row, host)
    else if profile !in settings.profiles then Raised
    else XrayClient(settings, profile, row, host, draw)
  }

  // ---- Where the probe dials ----

  lemma {:induction false} AddedHosts(hosts: seq<string>, candidates: seq<string>)
    ensures hosts <= AddStripped(hosts, candidates)
    decreases |candidates|
  {
    if candidates != [] {
      var value := Strip(candidates[0]);
      AddedHosts(if value != "" && value !in hosts then hosts + [value] else hosts, candidates[1..]);
    }
  }

  lemma PreferIsStripped(settings: PanelSettings, profile: Profile, shareHost: Option<string>)
    requires PreferHost(settings, profile, shareHost).Some?
    ensures var host := PreferHost(settings, profile, shareHost).value; host != "" && Strip(host) == host
  {
    HostStripped(shareHost);
    HostStripped(ProfileShareHost(settings, profile));
    HostStripped(Some(settings.publicHost));
  }

  /** The probe's preferred host, when there is one, is dialled first and is the very host that share
      links advertise. */
  lemma FirstHostIsShareHost(settings: PanelSettings, profile: Profile, shareHost: Option<string>)
    requires profile in settings.profiles && PreferHost(settings, profile, shareHost).Some?
    ensures var host := PreferHost(settings, profile, shareHost).value;
            var hosts := Hosts(settings, Some(host), AllowLoopback(settings, profile, shareHost));
            && host == ShareHost(settings, settings.profiles[profile], shareHost)
            && hosts != [] && hosts[0] == host
  {
    var host := PreferHost(settings, profile, shareHost).value;
    PreferIsStripped(settings, profile, shareHost);
    AddedHosts([host], [settings.publicHost, "127.0.0.1"]);
  }

  /** A profile with a share port only ever dials its share host: never the panel's host, never
      loopback in its place, and nothing at all when it has no share host of its own. */
  lemma MuxDialsOnlyShareHost(settings: PanelSettings, profile: Profile, shareHost: Option<string>, host: string)
    requires HasSharePort(settings, profile)
    requires host in Hosts(settings, PreferHost(settings, profile, shareHost), AllowLoopback(settings, profile, shareHost))
    ensures Some(host) == Stripped(shareHost).Or(Stripped(settings.profiles[profile].sharePublicHost))
    ensures host == ShareHost(settings, settings.profiles[profile], shareHost)
  {
    if PreferHost(settings, profile, shareHost).Some? {
      PreferIsStripped(settings, profile, shareHost);
    }
  }
}
