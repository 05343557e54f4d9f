/** Which names the shared port routes to which backend: live configs and the config just written
    are compiled to routes, profile by profile (panel/infrastructure/vpn/nginx_shared_443.py). */
module MuxRoutes {
  import opened Wrappers
  import opened Text
  import opened JsonTree
  import opened Settings
  import opened ConfigBuilder
  import opened NginxMap

  predicate SharedPortEnabled(ps: ProfileSettings)
  {
    && ps.sharePublicPort.Some? && ps.sharePublicPort.value != 0
    && ps.listenAddress.Some? && ps.listenAddress.value != ""
  }

  const LOOPBACK := "127.0.0.1"

  function BackendListen(listen: Json, fallback: Option<string>): Result<string>
  {
    if Truthy(listen) then PyText(listen) else Ok(if fallback.GetOr("") != "" then fallback.value else LOOPBACK)
  }

  /** `_inbound_backend`; `True` counts as the integer 1 but prints as itself. */
  function InboundBackend(inbound: Json, fallback: Option<string>): (r: Result<Option<string>>)
    ensures r.Ok? && r.value.Some? ==> Trimmed(r.value.value)
  {
    var port :- GetOr(inbound, "port", Null);
    if !IsPort(port) then Ok(None)
    else
      var text :- BackendListen(GetOr(inbound, "listen", Null).value, fallback);
      Ok(Some(Listen(Strip(text)) + ":" + PortText(port)))
  }

  predicate IsPort(port: Json)
  {
    (port.Num? && port.n >= 1) || port == Bool(true)
  }

  function Listen(stripped: string): (r: string)
    requires stripped != "" ==> Trimmed(stripped)
    ensures r != "" && !IsSpace(r[0])
  {
    if stripped == "0.0.0.0" || stripped == "::" || stripped == "" then
      assert LOOPBACK[0] == '1';
      LOOPBACK
    else stripped
  }

  function PortText(port: Json): (r: string)
    requires IsPort(port)
    ensures r != "" && !IsSpace(r[|r| - 1])
  {
    if port.Num? then
      var s := Decimal(port.n);
      assert s[|s| - 1] in s;
      s
    else "True"
  }

  // ---- reality_sni_hosts ----

  /** Python's order on text: by code point, a proper prefix first. */
  predicate Before(a: string, b: string)
  {
    b != "" && (a == "" || a[0] < b[0] || (a[0] == b[0] && Before(a[1..], b[1..])))
  }

  lemma {:induction false} BeforeTotal(a: string, b: string)
    ensures Before(a, b) || Before(b, a) || a == b
    ensures !(Before(a, b) && Before(b, a)) && !Before(a, a)
  {
    if a != "" {
      BeforeTotal(a[1..], a[1..]);
    }
    if a != "" && b != "" && a[0] == b[0] {
      BeforeTotal(a[1..], b[1..]);
      assert a == [a[0]] + a[1..] && b == [b[0]] + b[1..];
    }
  }

  lemma {:induction false} BeforeTransitive(a: string, b: string, c: string)
    requires Before(a, b) && Before(b, c)
    ensures Before(a, c)
  {
    if a != "" && a[0] == b[0] && b[0] == c[0] {
      BeforeTransitive(a[1..], b[1..], c[1..]);
    }
  }

  predicate Sorted(xs: seq<string>)
  {
    forall i, j :: 0 <= i < j < |xs| ==> Before(xs[i], xs[j])
  }

  /** Adding to a sorted list that holds nothing twice. */
  function Insert(xs: seq<string>, x: string): (r: seq<string>)
    ensures forall y :: y in r <==> y in xs || y == x
  {
    if xs == [] || Before(x, xs[0]) then [x] + xs
    else if x == xs[0] then xs
    else [xs[0]] + Insert(xs[1..], x)
  }

  lemma {:induction false} InsertSorted(xs: seq<string>, x: string)
    requires Sorted(xs)
    ensures Sorted(Insert(xs, x))
  {
    if xs == [] {
    } else if Before(x, xs[0]) {
      var r := [x] + xs;
      forall i, j | 0 <= i < j < |r| ensures Before(r[i], r[j]) {
        assert r[j] == xs[j - 1];
        if i == 0 && j > 1 { BeforeTransitive(x, xs[0], xs[j - 1]); }
      }
    } else if x != xs[0] {
      InsertSorted(xs[1..], x);
      BeforeTotal(x, xs[0]);
      var rest := Insert(xs[1..], x);
      forall j | 0 <= j < |rest| ensures Before(xs[0], rest[j]) {
        assert rest[j] in rest;
        if rest[j] != x {
          var k :| 0 <= k < |xs[1..]| && xs[1..][k] == rest[j];
          assert rest[j] == xs[k + 1];
        }
      }
    }
  }

  /** The non-empty members of a list, added to a sorted list. */
  function InsertAll(xs: seq<string>, names: seq<string>): (r: seq<string>)
    ensures forall y :: y in r <==> y in xs || (y in names && y != "")
    decreases |names|
  {
    if names == [] then xs else InsertAll(if names[0] == "" then xs else Insert(xs, names[0]), names[1..])
  }

  lemma {:induction false} InsertAllSorted(xs: seq<string>, names: seq<string>)
    requires Sorted(xs)
    ensures Sorted(InsertAll(xs, names))
    decreases |names|
  {
    if names != [] {
      InsertSorted(xs, names[0]);
      InsertAllSorted(if names[0] == "" then xs else Insert(xs, names[0]), names[1..]);
    }
  }

  function Hostnames(dests: seq<string>): (r: seq<string>)
    ensures |r| == |dests| && forall i :: 0 <= i < |dests| ==> r[i] == DestHostname(dests[i])
  {
    seq(|dests|, i requires 0 <= i < |dests| => DestHostname(dests[i]))
  }

  /** The stripped text items of `serverNames`. */
  function NamesIn(names: Json): Result<seq<string>>
  {
    if !Truthy(names) then Ok([])
    else
      match names
      case Arr(items) => Ok(TextItems(items))
      case Str(s) => Ok(Letters(s))
      case _ => Raised
  }

  function TextItems(items: seq<Json>): seq<string>
  {
    if items == [] then []
    else (if items[0].Str? then [Strip(items[0].s)] else []) + TextItems(items[1..])
  }

  function Letters(s: string): seq<string>
  {
    if s == "" then [] else [Strip(s[..1])] + Letters(s[1..])
  }

  /** The tagged inbound or, when there is none, the first one. */
  function RealityInboundOf(ps: ProfileSettings, config: Json): Result<Json>
  {
    var tagged := FindInbound(config, if ps.inboundTag == "" then "inbound-reality" else ps.inboundTag);
    if tagged.Ok? then tagged
    else
      var v :- GetOr(config, "inbounds", Null);
      if !Truthy(v) then Ok(Obj(map[])) else if v.Arr? then Ok(v.items[0]) else Raised
  }

  /** Every name `reality_sni_hosts` collects, unsorted. */
  function RealityNames(ps: ProfileSettings, config: Json): Result<seq<string>>
  {
    var inbound :- RealityInboundOf(ps, config);
    var stream :- Section(inbound, "streamSettings");
    var reality :- Section(stream, "realitySettings");
    var value :- GetOr(reality, "serverNames", Null);
    var names :- NamesIn(value);
    var dest :- GetOr(reality, "dest", Null);
    var text :- if Truthy(dest) then PyText(dest) else Ok("");
    Ok(Hostnames(ps.realityDestHosts) + AllStripped(ps.realityServerNames) + names + [DestHostname(text)])
  }

  function RealitySniHosts(ps: ProfileSettings, config: Json): Result<seq<string>>
  {
    var names :- RealityNames(ps, config);
    Ok(InsertAll([], names))
  }

  /** The Reality names come out in ascending order, each once, and are exactly the non-empty ones. */
  lemma RealityHostsSorted(ps: ProfileSettings, config: Json)
    requires RealitySniHosts(ps, config).Ok?
    ensures Sorted(RealitySniHosts(ps, config).value)
    ensures forall h :: h in RealitySniHosts(ps, config).value <==> h != "" && h in RealityNames(ps, config).value
  {
    InsertAllSorted([], RealityNames(ps, config).value);
  }

  /** One of the loops that add names to the set. */
  method AddNames(hosts: seq<string>, names: seq<string>) returns (r: seq<string>)
    ensures r == InsertAll(hosts, names)
  {
    r := hosts;
    for i := 0 to |names|
      invariant InsertAll(r, names[i..]) == InsertAll(hosts, names)
    {
      assert names[i..][0] == names[i] && names[i..][1..] == names[i + 1..];
      if names[i] != "" {
        r := Insert(r, names[i]);
      }
    }
  }

  lemma {:induction false} InsertAllConcat(hosts: seq<string>, a: seq<string>, b: seq<string>)
    ensures InsertAll(hosts, a + b) == InsertAll(InsertAll(hosts, a), b)
    decreases |a|
  {
    if a == [] {
      assert a + b == b;
    } else {
      assert (a + b)[0] == a[0] && (a + b)[1..] == a[1..] + b;
      InsertAllConcat(if a[0] == "" then hosts else Insert(hosts, a[0]), a[1..], b);
    }
  }

  method CollectRealityHosts(ps: ProfileSettings, config: Json) returns (r: Result<seq<string>>)
    ensures r == RealitySniHosts(ps, config)
  {
    var hosts: seq<string> := [];
    var dests, names := Hostnames(ps.realityDestHosts), AllStripped(ps.realityServerNames);
    hosts := AddNames(hosts, dests);
    hosts := AddNames(hosts, names);
    var inbound :- RealityInboundOf(ps, config);
    var stream :- Section(inbound, "streamSettings");
    var reality :- Section(stream, "realitySettings");
    var value :- GetOr(reality, "serverNames", Null);
    var more :- NamesIn(value);
    hosts := AddNames(hosts, more);
    var dest :- GetOr(reality, "dest", Null);
    var text :- if Truthy(dest) then PyText(dest) else Ok("");
    hosts := AddNames(hosts, [DestHostname(text)]);
    InsertAllConcat([], dests + names + more, [DestHostname(text)]);
    InsertAllConcat([], dests + names, more);
    InsertAllConcat([], dests, names);
    return Ok(hosts);
  }

  // ---- _routes_for_mux_profile ----

  /** The backend of a document, if it has the tagged inbound and a usable port. */
  function BackendOf(ps: ProfileSettings, data: Json): (r: Result<Option<string>>)
    ensures r.Ok? && r.value.Some? ==> Trimmed(r.value.value)
  {
    match FindInbound(data, ps.inboundTag)
    case Raised => Ok(None)
    case Ok(inbound) => InboundBackend(inbound, ps.listenAddress)
  }

  function StrippedText(j: Json): (r: Result<string>)
    ensures r.Ok? && r.value != "" ==> Trimmed(r.value)
  {
    if !Truthy(j) then Ok("") else if j.Str? then Ok(Strip(j.s)) else Raised
  }

  function TlsHost(ps: ProfileSettings, data: Json): (r: Result<string>)
    ensures r.Ok? && r.value != "" ==> Trimmed(r.value)
  {
    match FindInbound(data, ps.inboundTag)
    case Raised => Ok("")
    case Ok(inbound) =>
      var stream :- Section(inbound, "streamSettings");
      var tls :- Section(stream, "tlsSettings");
      var name :- GetOr(tls, "serverName", Null);
      var host :- StrippedText(name);
      if host != "" then Ok(host)
      else
        var xhttp :- Section(stream, "xhttpSettings");
        var other :- GetOr(xhttp, "host", Null);
        StrippedText(other)
  }

  /** The name a document is reached by; empty when it has none. */
  function HostOf(settings: PanelSettings, ps: ProfileSettings, data: Json): (r: Result<string>)
    ensures r.Ok? && r.value != "" ==> Trimmed(r.value)
  {
    var host :- TlsHost(ps, data);
    Ok(if host != "" then host
       else Strip(if ps.sharePublicHost.GetOr("") != "" then ps.sharePublicHost.value else settings.publicHost))
  }

  /** What the loop learns about one document. */
  datatype Claim = Claim(host: string, backend: Option<string>)

  function ClaimOf(settings: PanelSettings, ps: ProfileSettings, data: Json): Result<Claim>
  {
    var backend :- BackendOf(ps, data);
    if backend.None? then Ok(Claim("", None))
    else
      var host :- HostOf(settings, ps, data);
      Ok(Claim(host, backend))
  }

  function AllClaims(settings: PanelSettings, ps: ProfileSettings, items: seq<Json>): Result<seq<Claim>>
  {
    if items == [] then Ok([])
    else
      var first :- ClaimOf(settings, ps, items[0]);
      var rest :- AllClaims(settings, ps, items[1..]);
      Ok([first] + rest)
  }

  predicate Usable(c: Claim)
  {
    c.host != "" && c.backend.Some?
  }

  predicate AllUsable(claims: seq<Claim>)
  {
    forall c :: c in claims ==> c.host != "" && c.backend.Some?
  }

  function Backends(claims: seq<Claim>): set<string>
    requires AllUsable(claims)
  {
    set c | c in claims :: c.backend.value
  }

  /** The first usable claim on each backend. */
  function FirstClaims(claims: seq<Claim>): (r: seq<Claim>)
    ensures AllUsable(r)
  {
    if claims == [] then [] else AcceptOne(FirstClaims(claims[..|claims| - 1]), claims[|claims| - 1])
  }

  function AcceptOne(before: seq<Claim>, c: Claim): (r: seq<Claim>)
    requires AllUsable(before)
    ensures AllUsable(r)
  {
    if Usable(c) && c.backend.value !in Backends(before) then before + [c] else before
  }

  /** `by_host` after the loop. */
  function ByHost(claims: seq<Claim>): seq<Entry>
    requires AllUsable(claims)
  {
    if claims == [] then []
    else
      assert claims[|claims| - 1] in claims;
      DictSet(ByHost(claims[..|claims| - 1]), claims[|claims| - 1].host, claims[|claims| - 1].backend.value)
  }

  /** The loop as a function of what is left and the two dictionaries. */
  function Collect(settings: PanelSettings, ps: ProfileSettings, items: seq<Json>, byHost: seq<Entry>, seen: set<string>): Result<seq<Entry>>
    decreases |items|
  {
    if items == [] then Ok(byHost)
    else
      var backend :- BackendOf(ps, items[0]);
      if backend.None? || backend.value in seen then Collect(settings, ps, items[1..], byHost, seen)
      else
        var host :- HostOf(settings, ps, items[0]);
        if host == "" then Collect(settings, ps, items[1..], byHost, seen)
        else Collect(settings, ps, items[1..], DictSet(byHost, host, backend.value), seen + {backend.value})
  }

  method RoutesFromConfigs(settings: PanelSettings, ps: ProfileSettings, items: seq<Json>) returns (r: Result<seq<Entry>>)
    ensures r == Collect(settings, ps, items, [], {})
  {
    var byHost: seq<Entry>, seenBackends: set<string> := [], {};
    for i := 0 to |items|
      invariant Collect(settings, ps, items[i..], byHost, seenBackends) == Collect(settings, ps, items, [], {})
    {
      assert items[i..][0] == items[i] && items[i..][1..] == items[i + 1..];
      var backend := BackendOf(ps, items[i]);
      if backend.Raised? {
        return Raised;
      }
      if backend.value.None? || backend.value.value in seenBackends {
        continue;
      }
      var host := HostOf(settings, ps, items[i]);
      if host.Raised? {
        return Raised;
      }
      if host.value == "" {
        continue;
      }
      byHost := DictSet(byHost, host.value, backend.value.value);
      seenBackends := seenBackends + {backend.value.value};
    }
    return Ok(byHost);
  }

  // ---- What the loop computes ----

  lemma FirstClaimsSnoc(claims: seq<Claim>, c: Claim)
    ensures FirstClaims(claims + [c]) == AcceptOne(FirstClaims(claims), c)
  {
    assert (claims + [c])[..|claims|] == claims;
  }

  lemma AcceptClaim(before: seq<Claim>, c: Claim)
    requires AllUsable(before) && Usable(c)
    ensures AllUsable(before + [c])
    ensures ByHost(before + [c]) == DictSet(ByHost(before), c.host, c.backend.value)
    ensures Backends(before + [c]) == Backends(before) + {c.backend.value}
  {
    assert (before + [c])[..|before|] == before;
    assert c in before + [c];
  }

  /** The loop once every document has been read. */
  function Fold(claims: seq<Claim>, byHost: seq<Entry>, seen: set<string>): seq<Entry>
    decreases |claims|
  {
    if claims == [] then byHost
    else
      var c := claims[0];
      if c.backend.None? || c.backend.value in seen || c.host == "" then Fold(claims[1..], byHost, seen)
      else Fold(claims[1..], DictSet(byHost, c.host, c.backend.value), seen + {c.backend.value})
  }

  lemma {:induction false} CollectFolds(settings: PanelSettings, ps: ProfileSettings, items: seq<Json>, byHost: seq<Entry>, seen: set<string>)
    requires AllClaims(settings, ps, items).Ok?
    ensures Collect(settings, ps, items, byHost, seen) == Ok(Fold(AllClaims(settings, ps, items).value, byHost, seen))
    decreases |items|
  {
    if items != [] {
      var c := ClaimOf(settings, ps, items[0]).value;
      if c.backend.None? || c.backend.value in seen || c.host == "" {
        CollectFolds(settings, ps, items[1..], byHost, seen);
      } else {
        CollectFolds(settings, ps, items[1..], DictSet(byHost, c.host, c.backend.value), seen + {c.backend.value});
      }
    }
  }

  lemma FoldStep(rest: seq<Claim>, before: seq<Claim>)
    requires rest != [] && AllUsable(before)
    ensures Fold(rest, ByHost(before), Backends(before))
            == Fold(rest[1..], ByHost(AcceptOne(before, rest[0])), Backends(AcceptOne(before, rest[0])))
  {
    var c := rest[0];
    if Usable(c) && c.backend.value !in Backends(before) {
      AcceptClaim(before, c);
    }
  }

  lemma {:induction false} FoldAccepts(rest: seq<Claim>, claims: seq<Claim>)
    ensures Fold(rest, ByHost(FirstClaims(claims)), Backends(FirstClaims(claims))) == ByHost(FirstClaims(claims + rest))
    decreases |rest|
  {
    if rest == [] {
      assert claims + rest == claims;
    } else {
      FoldStep(rest, FirstClaims(claims));
      FirstClaimsSnoc(claims, rest[0]);
      FoldAccepts(rest[1..], claims + [rest[0]]);
      assert claims + [rest[0]] + rest[1..] == claims + rest;
    }
  }

  /** The loop keeps, in the order of the documents, the first usable claim on each backend, and a
      later one of these overwrites an earlier one on the same host. */
  lemma CollectIsFirstClaims(settings: PanelSettings, ps: ProfileSettings, items: seq<Json>)
    requires AllClaims(settings, ps, items).Ok?
    ensures Collect(settings, ps, items, [], {}) == Ok(ByHost(FirstClaims(AllClaims(settings, ps, items).value)))
  {
    var claims := AllClaims(settings, ps, items).value;
    CollectFolds(settings, ps, items, [], {});
    FoldAccepts(claims, []);
    assert Backends(FirstClaims([])) == {};
    assert [] + claims == claims;
  }

  // ---- Injectivity: no two hosts share a backend, no host is listed twice ----

  predicate DistinctValues(d: seq<Entry>)
  {
    forall i, j :: 0 <= i < j < |d| ==> d[i].1 != d[j].1
  }

  lemma {:induction false} SetValues(d: seq<Entry>, key: string, value: string)
    requires DistinctValues(d) && forall i :: 0 <= i < |d| ==> d[i].1 != value
    ensures DistinctValues(DictSet(d, key, value))
    ensures forall i :: 0 <= i < |DictSet(d, key, value)| ==>
              DictSet(d, key, value)[i].1 == value || DictSet(d, key, value)[i] in d
  {
    if d != [] && d[0].0 != key {
      var rest := DictSet(d[1..], key, value);
      SetValues(d[1..], key, value);
      forall j | 0 <= j < |rest| ensures rest[j].1 != d[0].1 {
        if rest[j].1 != value {
          var i :| 0 <= i < |d[1..]| && d[1..][i] == rest[j];
          assert d[i + 1] == rest[j];
        }
      }
    }
  }

  ghost predicate Within(d: seq<Entry>, values: set<string>)
  {
    forall i :: 0 <= i < |d| ==> d[i].1 in values
  }

  lemma {:induction false} CollectInjective(settings: PanelSettings, ps: ProfileSettings, items: seq<Json>, byHost: seq<Entry>, seen: set<string>)
    requires DistinctKeys(byHost) && DistinctValues(byHost) && Within(byHost, seen)
    requires Collect(settings, ps, items, byHost, seen).Ok?
    ensures DistinctKeys(Collect(settings, ps, items, byHost, seen).value)
    ensures DistinctValues(Collect(settings, ps, items, byHost, seen).value)
    decreases |items|
  {
    if items != [] {
      var backend := BackendOf(ps, items[0]).value;
      if backend.None? || backend.value in seen {
        CollectInjective(settings, ps, items[1..], byHost, seen);
      } else {
        var host := HostOf(settings, ps, items[0]).value;
        if host == "" {
          CollectInjective(settings, ps, items[1..], byHost, seen);
        } else {
          SetKeys(byHost, host, backend.value);
          SetValues(byHost, host, backend.value);
          CollectInjective(settings, ps, items[1..], DictSet(byHost, host, backend.value), seen + {backend.value});
        }
      }
    }
  }

  /** Whatever is on disk, the routes of a profile send different hosts to different backends. */
  lemma RoutesAreInjective(settings: PanelSettings, ps: ProfileSettings, items: seq<Json>)
    requires Collect(settings, ps, items, [], {}).Ok?
    ensures DistinctKeys(Collect(settings, ps, items, [], {}).value)
    ensures DistinctValues(Collect(settings, ps, items, [], {}).value)
  {
    CollectInjective(settings, ps, items, [], {});
  }

  // ---- Who owns a host ----

  /** The last claim on a host. */
  function Owner(claims: seq<Claim>, host: string): Option<string>
  {
    if claims == [] then None
    else if claims[|claims| - 1].host == host then claims[|claims| - 1].backend
    else Owner(claims[..|claims| - 1], host)
  }

  lemma {:induction false} ByHostOwner(claims: seq<Claim>, host: string)
    requires AllUsable(claims)
    ensures Lookup(ByHost(claims), host) == Owner(claims, host)
  {
    if claims != [] {
      var before, last := claims[..|claims| - 1], claims[|claims| - 1];
      assert last in claims;
      ByHostOwner(before, host);
      SetThenLookup(ByHost(before), last.host, last.backend.value, host);
    }
  }

  predicate DistinctBackends(claims: seq<Claim>)
  {
    forall i, j :: 0 <= i < j < |claims| && Usable(claims[i]) && Usable(claims[j]) ==> claims[i].backend != claims[j].backend
  }

  /** The usable claims, in order. */
  function UsableClaims(claims: seq<Claim>): (r: seq<Claim>)
    ensures AllUsable(r) && forall c :: c in r ==> c in claims
  {
    if claims == [] then []
    else UsableClaims(claims[..|claims| - 1]) + if Usable(claims[|claims| - 1]) then [claims[|claims| - 1]] else []
  }

  lemma {:induction false} DistinctAccepted(claims: seq<Claim>)
    requires DistinctBackends(claims)
    ensures FirstClaims(claims) == UsableClaims(claims)
  {
    if claims != [] {
      var before, last := claims[..|claims| - 1], claims[|claims| - 1];
      DistinctAccepted(before);
      forall c | c in UsableClaims(before) && Usable(last) ensures c.backend != last.backend {
        var i :| 0 <= i < |before| && before[i] == c;
        assert claims[i] == c;
      }
    }
  }

  /** When no two usable documents share a backend, every host belongs to the last document that
      claims it. */
  lemma DistinctBackendsLastWins(settings: PanelSettings, ps: ProfileSettings, items: seq<Json>, host: string)
    requires AllClaims(settings, ps, items).Ok? && DistinctBackends(AllClaims(settings, ps, items).value)
    ensures Collect(settings, ps, items, [], {}).Ok?
    ensures Lookup(Collect(settings, ps, items, [], {}).value, host)
            == Owner(UsableClaims(AllClaims(settings, ps, items).value), host)
  {
    var claims := AllClaims(settings, ps, items).value;
    CollectIsFirstClaims(settings, ps, items);
    DistinctAccepted(claims);
    ByHostOwner(FirstClaims(claims), host);
  }

  lemma {:induction false} FirstBackends(claims: seq<Claim>, b: string)
    ensures b in Backends(FirstClaims(claims)) <==> exists c :: c in claims && Usable(c) && c.backend == Some(b)
  {
    if claims != [] {
      var before, last := claims[..|claims| - 1], claims[|claims| - 1];
      FirstBackends(before, b);
      assert claims == before + [last];
      FirstClaimsSnoc(before, last);
      if Usable(last) && last.backend.value !in Backends(FirstClaims(before)) {
        AcceptClaim(FirstClaims(before), last);
      }
    }
  }

  lemma AllClaimsSnoc(settings: PanelSettings, ps: ProfileSettings, live: seq<Json>, data: Json)
    requires AllClaims(settings, ps, live).Ok? && ClaimOf(settings, ps, data).Ok?
    ensures AllClaims(settings, ps, live + [data])
            == Ok(AllClaims(settings, ps, live).value + [ClaimOf(settings, ps, data).value])
  {
    var c := ClaimOf(settings, ps, data).value;
    if live == [] {
      OneClaim(settings, ps, data);
      assert live + [data] == [data] && [] + [c] == [c];
    } else {
      var first, rest := ClaimOf(settings, ps, live[0]).value, AllClaims(settings, ps, live[1..]).value;
      assert (live + [data])[0] == live[0] && (live + [data])[1..] == live[1..] + [data];
      AllClaimsSnoc(settings, ps, live[1..], data);
      assert [first] + (rest + [c]) == [first] + rest + [c];
    }
  }

  lemma OneClaim(settings: PanelSettings, ps: ProfileSettings, data: Json)
    requires ClaimOf(settings, ps, data).Ok?
    ensures AllClaims(settings, ps, [data]) == Ok([ClaimOf(settings, ps, data).value])
  {
    var all, c := [data], ClaimOf(settings, ps, data).value;
    assert all != [] && all[0] == data && all[1..] == [];
    var none: seq<Claim> := [];
    assert AllClaims(settings, ps, all[1..]) == Ok(none);
    assert [c] + none == [c];
  }

  /** Some live document can be used and listens on the backend. */
  ghost predicate LiveOn(claims: seq<Claim>, backend: string)
  {
    exists c :: c in claims && Usable(c) && c.backend == Some(backend)
  }

  /** Appending the document just written, "so it wins": it takes its host exactly when no usable live
      document listens on its backend; otherwise it changes nothing at all, and it owns its host only
      if the live documents alone already say so. */
  lemma InjectedOwnsIff(settings: PanelSettings, ps: ProfileSettings, live: seq<Json>, data: Json)
    requires AllClaims(settings, ps, live).Ok? && ClaimOf(settings, ps, data).Ok? && Usable(ClaimOf(settings, ps, data).value)
    ensures var c := ClaimOf(settings, ps, data).value;
            var before := Collect(settings, ps, live, [], {});
            var after := Collect(settings, ps, live + [data], [], {});
            && before.Ok? && after.Ok?
            && (LiveOn(AllClaims(settings, ps, live).value, c.backend.value) ==> after == before)
            && (!LiveOn(AllClaims(settings, ps, live).value, c.backend.value) ==>
                  && Lookup(after.value, c.host) == c.backend
                  && forall other :: other != c.host ==> Lookup(after.value, other) == Lookup(before.value, other))
  {
    var claims, c := AllClaims(settings, ps, live).value, ClaimOf(settings, ps, data).value;
    AllClaimsSnoc(settings, ps, live, data);
    CollectIsFirstClaims(settings, ps, live);
    CollectIsFirstClaims(settings, ps, live + [data]);
    FirstClaimsSnoc(claims, c);
    FirstBackends(claims, c.backend.value);
    if !LiveOn(claims, c.backend.value) {
      AcceptClaim(FirstClaims(claims), c);
      forall other ensures Lookup(DictSet(ByHost(FirstClaims(claims)), c.host, c.backend.value), other)
                           == if other == c.host then c.backend else Lookup(ByHost(FirstClaims(claims)), other) {
        SetThenLookup(ByHost(FirstClaims(claims)), c.host, c.backend.value, other);
      }
    }
  }
}
