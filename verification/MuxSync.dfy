/** Rewriting the shared-port map after a config was written: three profiles' routes, one text, and
    what nginx then does with every name (panel/infrastructure/vpn/nginx_shared_443.py). */
module MuxSync {
  import opened Wrappers
  import opened Text
  import opened JsonTree
  import opened Store
  import opened Settings
  import opened ConfigBuilder
  import NginxMap
  import NginxMeaning
  import opened MuxRoutes

  type Entry = NginxMap.Entry

  /** A parsed file that is a mapping with the profile's inbound. */
  predicate IsLiveConfig(ps: ProfileSettings, data: Json)
  {
    data.Obj? && (ps.inboundTag == "" || FindInbound(data, ps.inboundTag).Ok?)
  }

  /** The live documents among the parsed files of a directory. */
  function LiveConfigs(ps: ProfileSettings, files: seq<Json>): seq<Json>
  {
    if files == [] then []
    else LiveConfigs(ps, files[..|files| - 1]) + if IsLiveConfig(ps, files[|files| - 1]) then [files[|files| - 1]] else []
  }

  method LoadLiveConfigs(ps: ProfileSettings, files: seq<Json>) returns (items: seq<Json>)
    ensures items == LiveConfigs(ps, files)
  {
    items := [];
    for i := 0 to |files|
      invariant items == LiveConfigs(ps, files[..i])
    {
      assert files[..i + 1][..i] == files[..i];
      if IsLiveConfig(ps, files[i]) {
        items := items + [files[i]];
      }
    }
    assert files[..|files|] == files;
  }

  function WithBackend(hosts: seq<string>, backend: string): (r: seq<Entry>)
    ensures |r| == |hosts| && forall i :: 0 <= i < |hosts| ==> r[i] == (hosts[i], backend)
  {
    seq(|hosts|, i requires 0 <= i < |hosts| => (hosts[i], backend))
  }

  /** The Reality document that is routed: the injected one, else the first live one. */
  function RealityDocument(ps: ProfileSettings, injected: Option<Json>, files: seq<Json>): Option<Json>
  {
    if injected.Some? && Truthy(injected.value) then injected
    else
      var live := LiveConfigs(ps, files);
      if live == [] then None else Some(live[0])
  }

  function RealityRoutes(ps: ProfileSettings, data: Option<Json>): Result<seq<Entry>>
  {
    if data.None? then Ok([])
    else
      var backend :- BackendOf(ps, data.value);
      if backend.None? then Ok([])
      else
        var hosts :- RealitySniHosts(ps, data.value);
        Ok(WithBackend(hosts, backend.value))
  }

  function Documents(ps: ProfileSettings, injected: Option<Json>, files: seq<Json>): seq<Json>
  {
    LiveConfigs(ps, files) + if injected.Some? then [injected.value] else []
  }

  function RoutesFor(settings: PanelSettings, profile: Profile, injected: Option<Json>, files: seq<Json>): Result<seq<Entry>>
  {
    if profile !in settings.profiles || !SharedPortEnabled(settings.profiles[profile]) then Ok([])
    else
      var ps := settings.profiles[profile];
      if profile.XrayReality? then RealityRoutes(ps, RealityDocument(ps, injected, files))
      else Collect(settings, ps, Documents(ps, injected, files), [], {})
  }

  const MUX_PROFILES := [XrayReality, XrayXhttp, XrayGrpc]

  predicate HasTagOf(settings: PanelSettings, profile: Profile, data: Json)
  {
    && profile in settings.profiles && settings.profiles[profile].inboundTag != ""
    && FindInbound(data, settings.profiles[profile].inboundTag).Ok?
  }

  /** The first mux profile whose tag the document has. */
  function DetectOwner(settings: PanelSettings, data: Json): Option<Profile>
  {
    if HasTagOf(settings, XrayReality, data) then Some(XrayReality)
    else if HasTagOf(settings, XrayXhttp, data) then Some(XrayXhttp)
    else if HasTagOf(settings, XrayGrpc, data) then Some(XrayGrpc)
    else None
  }

  method DetectMuxProfileKey(settings: PanelSettings, data: Json) returns (owner: Option<Profile>)
    ensures owner == DetectOwner(settings, data)
  {
    assert |MUX_PROFILES| == 3 && MUX_PROFILES[0] == XrayReality && MUX_PROFILES[1] == XrayXhttp && MUX_PROFILES[2] == XrayGrpc;
    for i := 0 to |MUX_PROFILES|
      invariant forall k :: 0 <= k < i ==> !HasTagOf(settings, MUX_PROFILES[k], data)
    {
      if HasTagOf(settings, MUX_PROFILES[i], data) {
        assert i == 0 || !HasTagOf(settings, MUX_PROFILES[0], data);
        assert i <= 1 || !HasTagOf(settings, MUX_PROFILES[1], data);
        return Some(MUX_PROFILES[i]);
      }
    }
    return None;
  }

  /** What is on disk for each mux profile, in path order. */
  datatype Disk = Disk(reality: seq<Json>, xhttp: seq<Json>, grpc: seq<Json>)
  {
    function Of(profile: Profile): seq<Json>
    {
      match profile
      case XrayReality => reality
      case XrayXhttp => xhttp
      case XrayGrpc => grpc
      case Hysteria2 => []
    }
  }

  function InjectedInto(settings: PanelSettings, profile: Profile, data: Json): Option<Json>
  {
    if DetectOwner(settings, data) == Some(profile) then Some(data) else None
  }

  function ProfileRoutes(settings: PanelSettings, profile: Profile, data: Json, disk: Disk): Result<seq<Entry>>
  {
    RoutesFor(settings, profile, InjectedInto(settings, profile, data), disk.Of(profile))
  }

  function AllRoutes(settings: PanelSettings, data: Json, disk: Disk): Result<seq<Entry>>
  {
    var reality :- ProfileRoutes(settings, XrayReality, data, disk);
    var xhttp :- ProfileRoutes(settings, XrayXhttp, data, disk);
    var grpc :- ProfileRoutes(settings, XrayGrpc, data, disk);
    Ok(reality + xhttp + grpc)
  }

  predicate Enabled(settings: PanelSettings)
  {
    XrayReality in settings.profiles && SharedPortEnabled(settings.profiles[XrayReality])
  }

  function PanelHosts(settings: PanelSettings): seq<string>
  {
    NginxMap.PanelSniHosts(settings.publicHost, settings.publicHostAliases)
  }

  const DEFAULT_PANEL_BACKEND := "127.0.0.1:8443"

  function PanelBackend(settings: PanelSettings): string
    requires XrayReality in settings.profiles
  {
    var configured := settings.profiles[XrayReality].panelBackend.GetOr("");
    Strip(if configured != "" then configured else DEFAULT_PANEL_BACKEND)
  }

  /** The text handed to nginx; None when the sync does nothing. */
  method SyncShared443(settings: PanelSettings, data: Json, disk: Disk) returns (r: Result<Option<string>>)
    ensures !Enabled(settings) || PanelHosts(settings) == [] ==> r == Ok(None)
    ensures Enabled(settings) && PanelHosts(settings) != [] ==>
              && (r.Raised? <==> AllRoutes(settings, data, disk).Raised?)
              && (r.Ok? ==> r.value == Some(NginxMap.Render(PanelHosts(settings), PanelBackend(settings), AllRoutes(settings, data, disk).value)))
  {
    if !Enabled(settings) || PanelHosts(settings) == [] {
      return Ok(None);
    }
    var owner := DetectOwner(settings, data);
    var routes: seq<Entry> := [];
    for i := 0 to |MUX_PROFILES|
      invariant i > 0 ==> ProfileRoutes(settings, XrayReality, data, disk).Ok?
      invariant i > 1 ==> ProfileRoutes(settings, XrayXhttp, data, disk).Ok?
      invariant i > 2 ==> ProfileRoutes(settings, XrayGrpc, data, disk).Ok?
      invariant i == 0 ==> routes == []
      invariant i == 1 ==> routes == ProfileRoutes(settings, XrayReality, data, disk).value
      invariant i == 2 ==> routes == ProfileRoutes(settings, XrayReality, data, disk).value + ProfileRoutes(settings, XrayXhttp, data, disk).value
      invariant i == 3 ==> Ok(routes) == AllRoutes(settings, data, disk)
    {
      var key := MUX_PROFILES[i];
      var injected := if owner == Some(key) then Some(data) else None;
      var more := RoutesFor(settings, key, injected, disk.Of(key));
      if more.Raised? {
        return Raised;
      }
      routes := routes + more.value;
    }
    var text := NginxMap.RenderStreamConf(PanelHosts(settings), PanelBackend(settings), routes);
    return Ok(Some(text));
  }

  // ---- Routes that need no stripping ----

  predicate TrimmedEntry(e: Entry)
  {
    Trimmed(e.0) && Trimmed(e.1)
  }

  ghost predicate AllTrimmed(d: seq<Entry>)
  {
    forall i :: 0 <= i < |d| ==> TrimmedEntry(d[i])
  }

  lemma {:induction false} CollectTrimmed(settings: PanelSettings, ps: ProfileSettings, items: seq<Json>, byHost: seq<Entry>, seen: set<string>)
    requires AllTrimmed(byHost) && Collect(settings, ps, items, byHost, seen).Ok?
    ensures AllTrimmed(Collect(settings, ps, items, byHost, seen).value)
    decreases |items|
  {
    if items != [] {
      var backend := BackendOf(ps, items[0]).value;
      if backend.None? || backend.value in seen {
        CollectTrimmed(settings, ps, items[1..], byHost, seen);
      } else {
        var host := HostOf(settings, ps, items[0]).value;
        if host == "" {
          CollectTrimmed(settings, ps, items[1..], byHost, seen);
        } else {
          assert TrimmedEntry((host, backend.value));
          NginxMap.SetKeepsAll(byHost, host, backend.value, TrimmedEntry);
          CollectTrimmed(settings, ps, items[1..], NginxMap.DictSet(byHost, host, backend.value), seen + {backend.value});
        }
      }
    }
  }

  lemma {:induction false} TextItemsTrimmed(items: seq<Json>, x: string)
    requires x in TextItems(items) && x != ""
    ensures Trimmed(x)
  {
    if !(items[0].Str? && x == Strip(items[0].s)) {
      TextItemsTrimmed(items[1..], x);
    }
  }

  lemma {:induction false} LettersTrimmed(s: string, x: string)
    requires x in Letters(s) && x != ""
    ensures Trimmed(x)
  {
    if x != Strip(s[..1]) {
      LettersTrimmed(s[1..], x);
    }
  }

  lemma DestTrimmed(dest: string)
    ensures DestHostname(dest) != "" ==> Trimmed(DestHostname(dest))
  {
  }

  lemma NameTrimmed(ps: ProfileSettings, config: Json, h: string)
    requires RealityNames(ps, config).Ok? && h in RealityNames(ps, config).value && h != ""
    ensures Trimmed(h)
  {
    var inbound := RealityInboundOf(ps, config).value;
    var reality := Section(Section(inbound, "streamSettings").value, "realitySettings").value;
    var value := GetOr(reality, "serverNames", Null).value;
    var dest := GetOr(reality, "dest", Null).value;
    var text := if Truthy(dest) then PyText(dest).value else "";
    var a, b, c := Hostnames(ps.realityDestHosts), NginxMap.AllStripped(ps.realityServerNames), NamesIn(value).value;
    assert RealityNames(ps, config).value == a + b + c + [DestHostname(text)];
    if h in a {
      var i :| 0 <= i < |a| && a[i] == h;
      DestTrimmed(ps.realityDestHosts[i]);
    } else if h in b {
      var i :| 0 <= i < |b| && b[i] == h;
      assert h == Strip(ps.realityServerNames[i]);
    } else if h in c {
      if value.Arr? { TextItemsTrimmed(value.items, h); } else { LettersTrimmed(value.s, h); }
    } else {
      assert h == DestHostname(text);
      DestTrimmed(text);
    }
  }

  // ---- What nginx does with a name ----

  lemma {:induction false} LastRouteConcat(snis: seq<string>, a: seq<Entry>, b: seq<Entry>, name: string)
    ensures NginxMeaning.LastRoute(snis, a + b, name)
            == NginxMeaning.LastRoute(snis, b, name).Or(NginxMeaning.LastRoute(snis, a, name))
  {
    if a == [] {
      assert a + b == b;
    } else {
      assert (a + b)[1..] == a[1..] + b;
      LastRouteConcat(snis, a[1..], b, name);
    }
  }

  /** Stripping changes nothing. */
  predicate Fixed(e: Entry)
  {
    e.0 != "" && e.1 != "" && Strip(e.0) == e.0 && Strip(e.1) == e.1
  }

  lemma TrimmedIsFixed(e: Entry)
    requires TrimmedEntry(e)
    ensures Fixed(e)
  {
    StripTrimmed(e.0);
    StripTrimmed(e.1);
  }

  lemma HeadOnce(d: seq<Entry>)
    requires d != [] && NginxMap.DistinctKeys(d)
    ensures NginxMap.DistinctKeys(d[1..]) && NginxMap.Lookup(d[1..], d[0].0).None?
  {
    NginxMap.LookupFinds(d[1..], d[0].0);
    forall i | 0 <= i < |d[1..]| ensures d[1..][i].0 != d[0].0 {
      assert d[i + 1].0 != d[0].0;
    }
  }

  lemma {:induction false} LastRouteOfDict(snis: seq<string>, d: seq<Entry>, name: string)
    requires NginxMap.DistinctKeys(d) && forall i :: 0 <= i < |d| ==> Fixed(d[i])
    ensures NginxMeaning.LastRoute(snis, d, name) == if NginxMap.IsPanelSni(snis, name) then None else NginxMap.Lookup(d, name)
  {
    if d != [] {
      assert Fixed(d[0]);
      HeadOnce(d);
      LastRouteOfDict(snis, d[1..], name);
      HeadRoute(snis, d, name);
    }
  }

  lemma HeadRoute(snis: seq<string>, d: seq<Entry>, name: string)
    requires d != [] && Fixed(d[0])
    ensures NginxMeaning.LastRoute(snis, d, name)
            == NginxMeaning.LastRoute(snis, d[1..], name).Or(
                 if !NginxMap.IsPanelSni(snis, d[0].0) && d[0].0 == name then Some(d[0].1) else None)
  {
  }

  lemma {:induction false} BackendLookup(hosts: seq<string>, backend: string, name: string)
    ensures NginxMap.Lookup(WithBackend(hosts, backend), name) == if name in hosts then Some(backend) else None
  {
    if hosts != [] {
      assert WithBackend(hosts, backend)[1..] == WithBackend(hosts[1..], backend);
      BackendLookup(hosts[1..], backend, name);
    }
  }

  lemma SortedDistinct(hosts: seq<string>, backend: string)
    requires Sorted(hosts)
    ensures NginxMap.DistinctKeys(WithBackend(hosts, backend))
  {
    forall i, j | 0 <= i < j < |hosts| ensures hosts[i] != hosts[j] {
      BeforeTotal(hosts[i], hosts[j]);
    }
  }

  lemma RealityRoutesGood(ps: ProfileSettings, data: Json)
    requires RealityRoutes(ps, Some(data)).Ok?
    ensures NginxMap.DistinctKeys(RealityRoutes(ps, Some(data)).value) && AllTrimmed(RealityRoutes(ps, Some(data)).value)
  {
    var backend := BackendOf(ps, data).value;
    if backend.Some? {
      var hosts := RealitySniHosts(ps, data).value;
      RealityHostsSorted(ps, data);
      SortedDistinct(hosts, backend.value);
      forall i | 0 <= i < |hosts| ensures TrimmedEntry(WithBackend(hosts, backend.value)[i]) {
        assert hosts[i] in hosts;
        NameTrimmed(ps, data, hosts[i]);
      }
    }
  }

  lemma RoutesGood(settings: PanelSettings, profile: Profile, injected: Option<Json>, files: seq<Json>)
    requires RoutesFor(settings, profile, injected, files).Ok?
    ensures NginxMap.DistinctKeys(RoutesFor(settings, profile, injected, files).value)
    ensures AllTrimmed(RoutesFor(settings, profile, injected, files).value)
  {
    if profile in settings.profiles && SharedPortEnabled(settings.profiles[profile]) {
      var ps := settings.profiles[profile];
      if profile.XrayReality? {
        if RealityDocument(ps, injected, files).Some? {
          RealityRoutesGood(ps, RealityDocument(ps, injected, files).value);
        }
      } else {
        RoutesAreInjective(settings, ps, Documents(ps, injected, files));
        CollectTrimmed(settings, ps, Documents(ps, injected, files), [], {});
      }
    }
  }

  /** The documents of the profile can all be read. */
  predicate Readable(settings: PanelSettings, profile: Profile, injected: Option<Json>, files: seq<Json>)
  {
    profile in settings.profiles && !profile.XrayReality? ==>
      AllClaims(settings, settings.profiles[profile], Documents(settings.profiles[profile], injected, files)).Ok?
  }

  /** The backend a profile offers for a name: the Reality document's for any of its names; otherwise
      the last of the documents that are first on their backend and claim the name. */
  function Serves(settings: PanelSettings, profile: Profile, injected: Option<Json>, files: seq<Json>, name: string): Option<string>
    requires Readable(settings, profile, injected, files)
  {
    if profile !in settings.profiles || !SharedPortEnabled(settings.profiles[profile]) then None
    else
      var ps := settings.profiles[profile];
      if !profile.XrayReality? then Owner(FirstClaims(AllClaims(settings, ps, Documents(ps, injected, files)).value), name)
      else
        var data := RealityDocument(ps, injected, files);
        if data.Some? && name != "" && RealityNames(ps, data.value).Ok? && name in RealityNames(ps, data.value).value
        then BackendOf(ps, data.value).GetOr(None) else None
  }

  lemma RoutesServe(settings: PanelSettings, profile: Profile, injected: Option<Json>, files: seq<Json>, name: string)
    requires Readable(settings, profile, injected, files) && RoutesFor(settings, profile, injected, files).Ok?
    ensures NginxMap.Lookup(RoutesFor(settings, profile, injected, files).value, name) == Serves(settings, profile, injected, files, name)
  {
    if profile in settings.profiles && SharedPortEnabled(settings.profiles[profile]) {
      var ps := settings.profiles[profile];
      if profile.XrayReality? {
        var data := RealityDocument(ps, injected, files);
        if data.Some? && BackendOf(ps, data.value).value.Some? {
          RealityHostsSorted(ps, data.value);
          BackendLookup(RealitySniHosts(ps, data.value).value, BackendOf(ps, data.value).value.value, name);
        }
      } else {
        var items := Documents(ps, injected, files);
        CollectIsFirstClaims(settings, ps, items);
        ByHostOwner(FirstClaims(AllClaims(settings, ps, items).value), name);
      }
    }
  }

  ghost predicate AllReadable(settings: PanelSettings, data: Json, disk: Disk)
  {
    && Readable(settings, XrayReality, InjectedInto(settings, XrayReality, data), disk.reality)
    && Readable(settings, XrayXhttp, InjectedInto(settings, XrayXhttp, data), disk.xhttp)
    && Readable(settings, XrayGrpc, InjectedInto(settings, XrayGrpc, data), disk.grpc)
  }

  ghost function ServedBy(settings: PanelSettings, profile: Profile, data: Json, disk: Disk, name: string): Option<string>
    requires Readable(settings, profile, InjectedInto(settings, profile, data), disk.Of(profile))
  {
    Serves(settings, profile, InjectedInto(settings, profile, data), disk.Of(profile), name)
  }

  /** Where a name should go: the panel keeps its own hosts, then gRPC before xHTTP before Reality. */
  ghost function Destined(settings: PanelSettings, data: Json, disk: Disk, name: string): string
    requires Enabled(settings) && AllReadable(settings, data, disk)
  {
    if name in PanelHosts(settings) then PanelBackend(settings)
    else
      ServedBy(settings, XrayGrpc, data, disk, name)
      .Or(ServedBy(settings, XrayXhttp, data, disk, name))
      .Or(ServedBy(settings, XrayReality, data, disk, name)).GetOr(PanelBackend(settings))
  }

  lemma RoutesDestined(settings: PanelSettings, data: Json, disk: Disk, name: string)
    requires Enabled(settings) && AllReadable(settings, data, disk) && AllRoutes(settings, data, disk).Ok?
    ensures NginxMeaning.Intended(settings.publicHost, settings.publicHostAliases, PanelBackend(settings), AllRoutes(settings, data, disk).value, name)
            == Destined(settings, data, disk, name)
  {
    var hosts := PanelHosts(settings);
    var reality := ProfileRoutes(settings, XrayReality, data, disk).value;
    var xhttp := ProfileRoutes(settings, XrayXhttp, data, disk).value;
    var grpc := ProfileRoutes(settings, XrayGrpc, data, disk).value;
    NginxMeaning.PanelHostsStripped(settings.publicHost, settings.publicHostAliases, name);
    NginxMap.PanelHostsAreDistinct(settings.publicHost, settings.publicHostAliases);
    LastRouteConcat(hosts, reality + xhttp, grpc, name);
    LastRouteConcat(hosts, reality, xhttp, name);
    RoutesOfProfile(settings, XrayReality, data, disk, name);
    RoutesOfProfile(settings, XrayXhttp, data, disk, name);
    RoutesOfProfile(settings, XrayGrpc, data, disk, name);
  }

  lemma RoutesOfProfile(settings: PanelSettings, profile: Profile, data: Json, disk: Disk, name: string)
    requires Readable(settings, profile, InjectedInto(settings, profile, data), disk.Of(profile))
    requires ProfileRoutes(settings, profile, data, disk).Ok?
    ensures NginxMeaning.LastRoute(PanelHosts(settings), ProfileRoutes(settings, profile, data, disk).value, name)
            == if NginxMap.IsPanelSni(PanelHosts(settings), name) then None else ServedBy(settings, profile, data, disk, name)
  {
    RoutesGood(settings, profile, InjectedInto(settings, profile, data), disk.Of(profile));
    RoutesServe(settings, profile, InjectedInto(settings, profile, data), disk.Of(profile), name);
    var routes := ProfileRoutes(settings, profile, data, disk).value;
    forall i | 0 <= i < |routes| ensures Fixed(routes[i]) {
      TrimmedIsFixed(routes[i]);
    }
    LastRouteOfDict(PanelHosts(settings), routes, name);
  }

  /** The names and backends of the map are words nginx can read. */
  ghost predicate MapReadable(settings: PanelSettings, routes: seq<Entry>)
    requires Enabled(settings)
  {
    && NginxMeaning.CleanEntries(NginxMeaning.Printed(PanelHosts(settings), PanelBackend(settings), routes))
    && !NginxMeaning.ClaimsDefault(PanelHosts(settings), routes)
  }

  /** From the documents on disk to what nginx does: reading the generated text back gives distinct
      keys, and every name goes where it is destined. */
  lemma SyncMeaning(settings: PanelSettings, data: Json, disk: Disk)
    requires Enabled(settings) && PanelHosts(settings) != []
    requires AllReadable(settings, data, disk) && AllRoutes(settings, data, disk).Ok?
    requires MapReadable(settings, AllRoutes(settings, data, disk).value)
    ensures var text := NginxMap.Render(PanelHosts(settings), PanelBackend(settings), AllRoutes(settings, data, disk).value);
            var read := NginxMap.ParseMap(text);
            && read.Some? && NginxMap.DistinctKeys(read.value)
            && forall name :: NginxMap.Route(read.value, name) == Some(Destined(settings, data, disk, name))
  {
    var routes := AllRoutes(settings, data, disk).value;
    NginxMeaning.GeneratedMapMeaning(settings.publicHost, settings.publicHostAliases, PanelBackend(settings), routes);
    forall name ensures NginxMeaning.Intended(settings.publicHost, settings.publicHostAliases, PanelBackend(settings), routes, name)
                        == Destined(settings, data, disk, name) {
      RoutesDestined(settings, data, disk, name);
    }
  }

  /** The xHTTP or gRPC config that was just written is reached by its own name, unless the panel or a
      profile listed later claims the name, or a live document already listens on its backend. */
  lemma WrittenConfigIsServed(settings: PanelSettings, profile: Profile, data: Json, disk: Disk)
    requires profile.XrayXhttp? || profile.XrayGrpc?
    requires Enabled(settings) && AllReadable(settings, data, disk)
    requires DetectOwner(settings, data) == Some(profile) && SharedPortEnabled(settings.profiles[profile])
    requires ClaimOf(settings, settings.profiles[profile], data).Ok? && MuxRoutes.Usable(ClaimOf(settings, settings.profiles[profile], data).value)
    requires var ps := settings.profiles[profile];
             && AllClaims(settings, ps, LiveConfigs(ps, disk.Of(profile))).Ok?
             && !LiveOn(AllClaims(settings, ps, LiveConfigs(ps, disk.Of(profile))).value, ClaimOf(settings, ps, data).value.backend.value)
    ensures var claim := ClaimOf(settings, settings.profiles[profile], data).value;
            Destined(settings, data, disk, claim.host)
            == if claim.host in PanelHosts(settings) then PanelBackend(settings)
               else (if profile.XrayXhttp? then ServedBy(settings, XrayGrpc, data, disk, claim.host) else None).GetOr(claim.backend.value)
  {
    var ps := settings.profiles[profile];
    var live, claim := LiveConfigs(ps, disk.Of(profile)), ClaimOf(settings, ps, data).value;
    assert Documents(ps, InjectedInto(settings, profile, data), disk.Of(profile)) == live + [data];
    InjectedOwnsIff(settings, ps, live, data);
    CollectIsFirstClaims(settings, ps, live + [data]);
    ByHostOwner(FirstClaims(AllClaims(settings, ps, live + [data]).value), claim.host);
  }

  // ---- A live copy of the written config ----

  /** Two live configs share a name. Writing the first again does not give it the name back, although
      it is appended last: its live copy already holds the backend, so the appended one is skipped.
      Without the live copy it does win. */
  lemma LiveCopyLoses(settings: PanelSettings, ps: ProfileSettings, first: Json, second: Json, name: string, x: string, y: string)
    requires name != "" && x != y
    requires ClaimOf(settings, ps, first) == Ok(Claim(name, Some(x))) && ClaimOf(settings, ps, second) == Ok(Claim(name, Some(y)))
    ensures var routes := Collect(settings, ps, [first, second] + [first], [], {});
            routes.Ok? && NginxMap.Lookup(routes.value, name) == Some(y)
    ensures var routes := Collect(settings, ps, [second] + [first], [], {});
            routes.Ok? && NginxMap.Lookup(routes.value, name) == Some(x)
  {
    var a, b := Claim(name, Some(x)), Claim(name, Some(y));
    OneClaim(settings, ps, first);
    OneClaim(settings, ps, second);
    AllClaimsSnoc(settings, ps, [first], second);
    assert [first] + [second] == [first, second] && [a] + [b] == [a, b];
    InjectedOwnsIff(settings, ps, [first], second);
    assert LiveOn([a, b], x) by { assert a in [a, b] && MuxRoutes.Usable(a); }
    InjectedOwnsIff(settings, ps, [first, second], first);
    InjectedOwnsIff(settings, ps, [second], first);
  }

  function SampleInbound(port: int): Json
  {
    Obj(map["tag" := Str("x"), "port" := Num(port),
            "streamSettings" := Obj(map["tlsSettings" := Obj(map["serverName" := Str("a")])])])
  }

  function SampleDocument(port: int): Json
  {
    Obj(map["inbounds" := Arr([SampleInbound(port)])])
  }

  lemma SampleFound(port: int)
    ensures FindInbound(SampleDocument(port), "x") == Ok(SampleInbound(port))
  {
    assert Inbounds(SampleDocument(port)) == Ok([SampleInbound(port)]);
    assert GetOr(SampleInbound(port), "tag", Null) == Ok(Str("x"));
    assert FindTag([SampleInbound(port)], "x") == Ok(0);
  }

  lemma SampleListen()
    ensures Listen(Strip("h")) == "h"
  {
    StripTrimmed("h");
  }

  lemma SampleBackend(port: int)
    requires port >= 1
    ensures InboundBackend(SampleInbound(port), Some("h")) == Ok(Some("h:" + Decimal(port)))
  {
    var inbound := SampleInbound(port);
    assert GetOr(inbound, "port", Null) == Ok(Num(port)) && GetOr(inbound, "listen", Null) == Ok(Null);
    SampleListen();
    assert "h" + ":" == "h:";
  }

  lemma SampleTls(port: int)
    ensures Section(SampleInbound(port), "streamSettings").Ok?
    ensures Section(Section(SampleInbound(port), "streamSettings").value, "tlsSettings") == Ok(Obj(map["serverName" := Str("a")]))
  {
    var tls := Obj(map["serverName" := Str("a")]);
    var stream := Obj(map["tlsSettings" := tls]);
    assert "serverName" in tls.fields && "tlsSettings" in stream.fields;
    assert Section(SampleInbound(port), "streamSettings") == Ok(stream);
  }

  lemma SampleHost(port: int, settings: PanelSettings, ps: ProfileSettings)
    requires ps.inboundTag == "x"
    ensures HostOf(settings, ps, SampleDocument(port)) == Ok("a")
  {
    SampleFound(port);
    SampleTls(port);
    SampleName();
  }

  lemma SampleName()
    ensures StrippedText(Str("a")) == Ok("a")
  {
    StripTrimmed("a");
  }

  /** Two such configs exist. */
  lemma SampleClaims(settings: PanelSettings, ps: ProfileSettings, port: int)
    requires ps.inboundTag == "x" && ps.listenAddress == Some("h") && port >= 1
    ensures ClaimOf(settings, ps, SampleDocument(port)) == Ok(Claim("a", Some("h:" + Decimal(port))))
  {
    SampleFound(port);
    SampleBackend(port);
    SampleHost(port, settings, ps);
  }

  /** The loss, on two concrete live configs. */
  lemma LiveCopyLosesExample(settings: PanelSettings, ps: ProfileSettings)
    requires ps.inboundTag == "x" && ps.listenAddress == Some("h")
    ensures var routes := Collect(settings, ps, [SampleDocument(1), SampleDocument(2)] + [SampleDocument(1)], [], {});
            routes.Ok? && NginxMap.Lookup(routes.value, "a") == Some("h:" + Decimal(2))
  {
    SampleClaims(settings, ps, 1);
    SampleClaims(settings, ps, 2);
    DecimalValue(1);
    DecimalValue(2);
    var x, y := "h:" + Decimal(1), "h:" + Decimal(2);
    assert x[2..] == Decimal(1) && y[2..] == Decimal(2);
    LiveCopyLoses(settings, ps, SampleDocument(1), SampleDocument(2), "a", x, y);
  }
}
