/** The generated nginx stream map: printing it, reading it back, and what it routes
    (panel/infrastructure/vpn/nginx_shared_443.py). */
module NginxMap {
  import opened Wrappers
  import opened Text

  type Entry = (string, string)

  // ---- Ordered dictionaries ----

  /** `d[key] = value` on a Python dictionary: the key keeps its first place. */
  function DictSet(d: seq<Entry>, key: string, value: string): (r: seq<Entry>)
  {
    if d == [] then [(key, value)]
    else if d[0].0 == key then [(key, value)] + d[1..]
    else [d[0]] + DictSet(d[1..], key, value)
  }

  /** The first entry for a key. */
  function Lookup(d: seq<Entry>, key: string): Option<string>
  {
    if d == [] then None else if d[0].0 == key then Some(d[0].1) else Lookup(d[1..], key)
  }

  predicate HasKey(d: seq<Entry>, key: string)
  {
    exists i :: 0 <= i < |d| && d[i].0 == key
  }

  predicate DistinctKeys(d: seq<Entry>)
  {
    forall i, j :: 0 <= i < j < |d| ==> d[i].0 != d[j].0
  }

  lemma {:induction false} LookupFinds(d: seq<Entry>, key: string)
    ensures Lookup(d, key).Some? <==> HasKey(d, key)
  {
    if d != [] && d[0].0 != key {
      LookupFinds(d[1..], key);
      if HasKey(d, key) {
        var i :| 0 <= i < |d| && d[i].0 == key;
        assert d[1..][i - 1].0 == key;
      }
      if HasKey(d[1..], key) {
        var i :| 0 <= i < |d[1..]| && d[1..][i].0 == key;
        assert d[i + 1].0 == key;
      }
    }
  }

  lemma {:induction false} SetThenLookup(d: seq<Entry>, key: string, value: string, other: string)
    ensures Lookup(DictSet(d, key, value), other) == if other == key then Some(value) else Lookup(d, other)
  {
    if d != [] && d[0].0 != key {
      SetThenLookup(d[1..], key, value, other);
    }
  }

  lemma {:induction false} SetKeys(d: seq<Entry>, key: string, value: string)
    requires DistinctKeys(d)
    ensures DistinctKeys(DictSet(d, key, value))
    ensures forall i :: 0 <= i < |DictSet(d, key, value)| ==>
              DictSet(d, key, value)[i] == (key, value) || DictSet(d, key, value)[i] in d
  {
    if d != [] && d[0].0 != key {
      var rest := DictSet(d[1..], key, value);
      SetKeys(d[1..], key, value);
      forall j | 0 <= j < |rest| ensures rest[j].0 != d[0].0 {
        if rest[j] != (key, value) {
          var i :| 0 <= i < |d[1..]| && d[1..][i] == rest[j];
          assert d[i + 1] == rest[j];
        }
      }
    }
  }

  lemma {:induction false} SetKeepsAll(d: seq<Entry>, key: string, value: string, good: Entry -> bool)
    requires good((key, value)) && forall i :: 0 <= i < |d| ==> good(d[i])
    ensures forall i :: 0 <= i < |DictSet(d, key, value)| ==> good(DictSet(d, key, value)[i])
  {
    if d != [] && d[0].0 != key {
      SetKeepsAll(d[1..], key, value, good);
    }
  }

  lemma {:induction false} LookupConcat(a: seq<Entry>, b: seq<Entry>, key: string)
    ensures Lookup(a + b, key) == Lookup(a, key).Or(Lookup(b, key))
  {
    if a == [] {
      assert a + b == b;
    } else {
      assert (a + b)[1..] == a[1..] + b;
      LookupConcat(a[1..], b, key);
    }
  }

  // ---- panel_sni_hosts ----

  function PanelSniHosts(publicHost: string, aliases: seq<string>): seq<string>
  {
    AddStripped([], [publicHost] + aliases)
  }

  method CollectPanelHosts(publicHost: string, aliases: seq<string>) returns (hosts: seq<string>)
    ensures hosts == PanelSniHosts(publicHost, aliases)
  {
    var candidates := [publicHost] + aliases;
    hosts := [];
    for i := 0 to |candidates|
      invariant AddStripped(hosts, candidates[i..]) == AddStripped([], candidates)
    {
      assert candidates[i..][0] == candidates[i] && candidates[i..][1..] == candidates[i + 1..];
      var value := Strip(candidates[i]);
      if value != "" && value !in hosts {
        hosts := hosts + [value];
      }
    }
  }

  predicate DistinctHosts(hosts: seq<string>)
  {
    forall i, j :: 0 <= i < j < |hosts| ==> hosts[i] != hosts[j]
  }

  ghost predicate Supplies(candidates: seq<string>, h: string)
  {
    h != "" && exists i :: 0 <= i < |candidates| && Strip(candidates[i]) == h
  }

  lemma SuppliesSplit(candidates: seq<string>, h: string)
    requires candidates != []
    ensures Supplies(candidates, h) <==> (h != "" && Strip(candidates[0]) == h) || Supplies(candidates[1..], h)
  {
    if i :| 0 <= i < |candidates| && Strip(candidates[i]) == h {
      if i > 0 { assert Strip(candidates[1..][i - 1]) == h; }
    }
    if i :| 0 <= i < |candidates[1..]| && Strip(candidates[1..][i]) == h {
      assert Strip(candidates[i + 1]) == h;
    }
  }

  lemma {:induction false} AddStrippedDistinct(hosts: seq<string>, candidates: seq<string>)
    requires DistinctHosts(hosts)
    ensures DistinctHosts(AddStripped(hosts, candidates))
    decreases |candidates|
  {
    if candidates != [] {
      var value := Strip(candidates[0]);
      AddStrippedDistinct(if value != "" && value !in hosts then hosts + [value] else hosts, candidates[1..]);
    }
  }

  lemma {:induction false} AddStrippedMembers(hosts: seq<string>, candidates: seq<string>, h: string)
    ensures h in AddStripped(hosts, candidates) <==> h in hosts || Supplies(candidates, h)
    decreases |candidates|
  {
    if candidates != [] {
      var value := Strip(candidates[0]);
      AddStrippedMembers(if value != "" && value !in hosts then hosts + [value] else hosts, candidates[1..], h);
      SuppliesSplit(candidates, h);
    }
  }

  /** The panel's host list has no host twice and holds exactly the configured hosts, stripped. */
  lemma PanelHostsAreDistinct(publicHost: string, aliases: seq<string>)
    ensures DistinctHosts(PanelSniHosts(publicHost, aliases))
    ensures forall h :: h in PanelSniHosts(publicHost, aliases) <==> Supplies([publicHost] + aliases, h)
  {
    AddStrippedDistinct([], [publicHost] + aliases);
    forall h ensures h in PanelSniHosts(publicHost, aliases) <==> Supplies([publicHost] + aliases, h) {
      AddStrippedMembers([], [publicHost] + aliases, h);
    }
  }

  // ---- render_shared_443_stream_conf ----

  function PanelEntry(sni: string, backend: string): seq<Entry>
  {
    if Strip(sni) == "" then [] else [(Strip(sni), backend)]
  }

  function PanelEntries(snis: seq<string>, backend: string): seq<Entry>
  {
    if snis == [] then []
    else PanelEntries(snis[..|snis| - 1], backend) + PanelEntry(snis[|snis| - 1], backend)
  }

  function AllStripped(snis: seq<string>): (r: seq<string>)
    ensures |r| == |snis| && forall i :: 0 <= i < |snis| ==> r[i] == Strip(snis[i])
  {
    seq(|snis|, i requires 0 <= i < |snis| => Strip(snis[i]))
  }

  /** The set of stripped, non-empty panel hosts. */
  predicate IsPanelSni(snis: seq<string>, name: string)
  {
    name != "" && name in AllStripped(snis)
  }

  /** Whether the loop over the routes uses this one. */
  predicate Usable(snis: seq<string>, route: Entry)
  {
    Strip(route.0) != "" && Strip(route.1) != "" && !IsPanelSni(snis, Strip(route.0))
  }

  function AddRoutes(d: seq<Entry>, snis: seq<string>, routes: seq<Entry>): seq<Entry>
    decreases |routes|
  {
    if routes == [] then d
    else AddRoutes(if Usable(snis, routes[0]) then DictSet(d, Strip(routes[0].0), Strip(routes[0].1)) else d, snis, routes[1..])
  }

  function MapEntries(snis: seq<string>, backend: string, routes: seq<Entry>): seq<Entry>
  {
    PanelEntries(snis, backend) + AddRoutes([], snis, routes)
  }

  function Line(e: Entry): string
  {
    "    " + e.0 + " " + e.1 + ";"
  }

  function Lines(entries: seq<Entry>): seq<string>
  {
    if entries == [] then [] else [Line(entries[0])] + Lines(entries[1..])
  }

  lemma {:induction false} LinesConcat(a: seq<Entry>, b: seq<Entry>)
    ensures Lines(a + b) == Lines(a) + Lines(b)
  {
    if a == [] {
      assert a + b == b;
    } else {
      assert (a + b)[1..] == a[1..] + b;
      LinesConcat(a[1..], b);
    }
  }

  const TITLE := "# Managed by VpnControlPanel " + "— do not edit by hand.\n"
  const NOTE := "# Updated automatically on " + "Reality/xHTTP create/regenerate" + " when share_public_port " + "is set.\n"
  const OPENING := "\nmap $ssl_preread_server_name" + " $vcp_443_backend "
  const HEADER := TITLE + NOTE + OPENING

  const SERVER :=
    "\n"
    + "server {\n"
    + "    listen 443 reuseport;\n"
    + "    listen [::]:443 reuseport;\n"
    + "    proxy_pass $vcp_443_backend;\n"
    + "    ssl_preread on;\n"
    + "    proxy_connect_timeout 10s;\n"
    + "    proxy_timeout 300s;\n"
    + "}\n"

  const DEFAULT := "default"

  function Body(entries: seq<Entry>, backend: string): string
  {
    (if entries != [] then Join(Lines(entries), '\n') else Line((DEFAULT, backend))) + "\n" + Line((DEFAULT, backend)) + "\n"
  }

  function Render(snis: seq<string>, backend: string, routes: seq<Entry>): string
  {
    HEADER + "{\n" + Body(MapEntries(snis, backend, routes), backend) + "}\n" + SERVER
  }

  lemma OneMoreLine(snis: seq<string>, backend: string, i: nat)
    requires i < |snis|
    ensures Lines(PanelEntries(snis[..i + 1], backend))
            == Lines(PanelEntries(snis[..i], backend)) + if Strip(snis[i]) == "" then [] else [Line((Strip(snis[i]), backend))]
  {
    assert snis[..i + 1][..i] == snis[..i];
    LinesConcat(PanelEntries(snis[..i], backend), PanelEntry(snis[i], backend));
    OneLine(snis[i], backend);
  }

  lemma OneLine(sni: string, backend: string)
    ensures Lines(PanelEntry(sni, backend)) == if Strip(sni) == "" then [] else [Line((Strip(sni), backend))]
  {
    var entries := PanelEntry(sni, backend);
    if entries != [] {
      assert entries[1..] == [] && Lines(entries[1..]) == [];
    }
  }

  /** The loop over the panel hosts. */
  method PanelLines(panelSnis: seq<string>, panelBackend: string) returns (lines: seq<string>)
    ensures lines == Lines(PanelEntries(panelSnis, panelBackend))
  {
    lines := [];
    for i := 0 to |panelSnis|
      invariant lines == Lines(PanelEntries(panelSnis[..i], panelBackend))
    {
      var sni := Strip(panelSnis[i]);
      OneMoreLine(panelSnis, panelBackend, i);
      if sni != "" {
        lines := lines + [Line((sni, panelBackend))];
      }
    }
    assert panelSnis[..|panelSnis|] == panelSnis;
  }

  /** The loop over the routes, filling `by_sni`. */
  method CollectRoutes(panelSnis: seq<string>, routes: seq<Entry>) returns (bySni: seq<Entry>)
    ensures bySni == AddRoutes([], panelSnis, routes)
  {
    bySni := [];
    for i := 0 to |routes|
      invariant AddRoutes(bySni, panelSnis, routes[i..]) == AddRoutes([], panelSnis, routes)
    {
      assert routes[i..][0] == routes[i] && routes[i..][1..] == routes[i + 1..];
      var sni, backend := Strip(routes[i].0), Strip(routes[i].1);
      if sni == "" || backend == "" || IsPanelSni(panelSnis, sni) {
        continue;
      }
      bySni := DictSet(bySni, sni, backend);
    }
  }

  method RenderStreamConf(panelSnis: seq<string>, panelBackend: string, routes: seq<Entry>) returns (text: string)
    ensures text == Render(panelSnis, panelBackend, routes)
  {
    var lines := PanelLines(panelSnis, panelBackend);
    var bySni := CollectRoutes(panelSnis, routes);
    lines := lines + Lines(bySni);
    LinesConcat(PanelEntries(panelSnis, panelBackend), bySni);
    assert lines == Lines(MapEntries(panelSnis, panelBackend, routes));
    var body := if lines != [] then Join(lines, '\n') else Line((DEFAULT, panelBackend));
    text := HEADER + "{\n" + (body + "\n" + Line((DEFAULT, panelBackend)) + "\n") + "}\n" + SERVER;
  }

  // ---- Reading the map back ----

  function WordLength(s: string): (n: nat)
    ensures n <= |s|
    ensures s != "" && !IsSpace(s[0]) ==> n > 0
  {
    if s == "" || IsSpace(s[0]) then 0 else 1 + WordLength(s[1..])
  }

  function Words(s: string): seq<string>
    decreases |s|
  {
    var t := StripLeft(s);
    if t == "" then [] else [t[..WordLength(t)]] + Words(t[WordLength(t)..])
  }

  /** A directive is exactly two words. */
  function ReadDirective(piece: string): Option<Entry>
  {
    var words := Words(piece);
    if |words| == 2 then Some((words[0], words[1])) else None
  }

  /** `key value;` directives, and nothing behind the last semicolon; anything else makes nginx refuse
      the file. */
  function Directives(pieces: seq<string>): Option<seq<Entry>>
    requires pieces != []
  {
    if |pieces| == 1 then (if Words(pieces[0]) == [] then Some([]) else None)
    else
      match (ReadDirective(pieces[0]), Directives(pieces[1..]))
      case (Some(e), Some(rest)) => Some([e] + rest)
      case _ => None
  }

  /** The entries of the map block: from the first `{` to the next `}`, with no block inside. */
  function ParseMap(text: string): Option<seq<Entry>>
  {
    var head := BeforeFirst(text, '{');
    if |head| == |text| then None
    else
      var rest := text[|head| + 1..];
      var block := BeforeFirst(rest, '}');
      if |block| == |rest| || '{' in block then None
      else Directives(Split(block, ';'))
  }

  /** nginx: an entry for the name, else the default entry. */
  function Route(entries: seq<Entry>, name: string): Option<string>
  {
    if name != DEFAULT && Lookup(entries, name).Some? then Lookup(entries, name) else Lookup(entries, DEFAULT)
  }
}
