/** Printing a share link from its parts and reading it back by its delimiters (section 3 of RFC 3986). */
module UriReader {
  import opened Wrappers
  import opened Text
  import opened UriCodec

  type Param = (string, string)

  /** The parts as they are printed, already encoded where the panel encodes them. */
  datatype Link = Link(scheme: string, user: string, host: string, port: int, params: seq<Param>, fragment: string)

  function HostPort(l: Link): string
  {
    l.host + ":" + Text.Text(l.port)
  }

  function Authority(l: Link): string
  {
    l.user + "@" + HostPort(l)
  }

  function PrintParam(p: Param): string
  {
    p.0 + "=" + p.1
  }

  function PrintParams(params: seq<Param>): (r: seq<string>)
    ensures |r| == |params| && forall i :: 0 <= i < |params| ==> r[i] == PrintParam(params[i])
  {
    seq(|params|, i requires 0 <= i < |params| => PrintParam(params[i]))
  }

  function Query(l: Link): string
  {
    Join(PrintParams(l.params), '&')
  }

  function Front(l: Link): string
  {
    Authority(l) + "?" + Query(l)
  }

  /** `scheme://user@host:port?a=b&c=d#fragment` */
  function Print(l: Link): string
  {
    l.scheme + ":" + ("//" + (Front(l) + "#" + l.fragment))
  }

  // ---- Reading ----

  /** The parts with the percent-encoding removed. */
  datatype Uri = Uri(scheme: string, user: string, host: string, port: nat, params: seq<Param>, fragment: string)

  function AfterFirst(s: string, c: char): string
  {
    var a := BeforeFirst(s, c);
    if |a| == |s| then "" else s[|a| + 1..]
  }

  lemma Cut(a: string, c: char, rest: string)
    requires c !in a
    ensures BeforeFirst(a + [c] + rest, c) == a && AfterFirst(a + [c] + rest, c) == rest
  {
    FirstAt(a, c, rest);
  }

  /** A bracketed address, or a name without colons; then the port. */
  function SplitHostPort(s: string): Option<(string, string)>
  {
    if s != "" && s[0] == '[' then
      var inside := BeforeFirst(s, ']');
      if |inside| + 1 >= |s| || s[|inside| + 1] != ':' then None
      else Some((s[..|inside| + 1], s[|inside| + 2..]))
    else
      var name := BeforeFirst(s, ':');
      if |name| == |s| then None else Some((name, s[|name| + 1..]))
  }

  function ReadParam(s: string): Option<Param>
  {
    if '=' !in s then None
    else
      match Unquote(AfterFirst(s, '='))
      case None => None
      case Some(v) => Some((BeforeFirst(s, '='), v))
  }

  function ReadParams(pieces: seq<string>): Option<seq<Param>>
  {
    if pieces == [] then Some([])
    else
      match (ReadParam(pieces[0]), ReadParams(pieces[1..]))
      case (Some(p), Some(rest)) => Some([p] + rest)
      case _ => None
  }

  /** User, host and port of an authority with exactly one `@`. */
  function ReadAuthority(s: string): Option<(string, string, nat)>
  {
    var hostPort := AfterFirst(s, '@');
    if '@' !in s || '@' in hostPort then None
    else
      match SplitHostPort(hostPort)
      case None => None
      case Some((host, port)) =>
        if port == "" || !AllDigits(port) then None
        else
          match Unquote(BeforeFirst(s, '@'))
          case None => None
          case Some(user) => Some((user, host, DigitsValue(port)))
  }

  function ReadFront(scheme: string, s: string, fragment: string): Option<Uri>
  {
    match (ReadAuthority(BeforeFirst(BeforeFirst(s, '?'), '/')), ReadParams(Split(AfterFirst(s, '?'), '&')))
    case (Some((user, host, port)), Some(params)) => Some(Uri(scheme, user, host, port, params, fragment))
    case _ => None
  }

  function ReadUri(s: string): Option<Uri>
  {
    var rest := AfterFirst(s, ':');
    if !("//" <= rest) then None
    else
      var body := rest[2..];
      match Unquote(AfterFirst(body, '#'))
      case None => None
      case Some(fragment) => ReadFront(BeforeFirst(s, ':'), BeforeFirst(body, '#'), fragment)
  }

  // ---- What a printed link reads as ----

  /** A host that an authority can hold. */
  predicate ValidHost(h: string)
  {
    && '/' !in h && '?' !in h && '#' !in h && '@' !in h
    && (if h != "" && h[0] == '[' then h[|h| - 1] == ']' && ']' !in h[..|h| - 1] else ':' !in h)
  }

  lemma NoAny(s: string)
    requires forall c :: c in s ==> Unreserved(c) || c == '%'
    ensures '/' !in s && '?' !in s && '#' !in s && '@' !in s && '&' !in s && '=' !in s && ':' !in s
  {
  }

  predicate PlainUser(s: string)
  {
    '/' !in s && '?' !in s && '#' !in s && '@' !in s
  }

  predicate PlainParam(p: Param)
  {
    && '=' !in p.0 && '&' !in p.0 && '#' !in p.0
    && '&' !in p.1 && '#' !in p.1
  }

  predicate PlainParams(params: seq<Param>)
  {
    forall i :: 0 <= i < |params| ==> PlainParam(params[i])
  }

  function ValuesOf(params: seq<Param>): Option<seq<Param>>
  {
    if params == [] then Some([])
    else
      match (Unquote(params[0].1), ValuesOf(params[1..]))
      case (Some(v), Some(rest)) => Some([(params[0].0, v)] + rest)
      case _ => None
  }

  lemma ParamReads(p: Param)
    requires PlainParam(p)
    ensures ReadParam(PrintParam(p)) == (match Unquote(p.1) case None => None case Some(v) => Some((p.0, v)))
    ensures '&' !in PrintParam(p) && '#' !in PrintParam(p)
  {
    Cut(p.0, '=', p.1);
    assert p.0 + ['='] + p.1 == PrintParam(p);
    assert '=' in p.0 + ['='] + p.1;
  }

  lemma {:induction false} ParamsRead(params: seq<Param>)
    requires PlainParams(params)
    ensures ReadParams(PrintParams(params)) == ValuesOf(params)
  {
    if params != [] {
      assert PlainParam(params[0]);
      ParamReads(params[0]);
      ParamsRead(params[1..]);
      assert PrintParams(params)[1..] == PrintParams(params[1..]);
    }
  }

  lemma {:induction false} JoinedHasNo(parts: seq<string>, sep: char, c: char)
    requires c != sep && forall i :: 0 <= i < |parts| ==> c !in parts[i]
    ensures c !in Join(parts, sep)
  {
    if |parts| > 1 {
      JoinedHasNo(parts[1..], sep, c);
    }
  }

  lemma QueryReads(l: Link)
    requires l.params != [] && PlainParams(l.params)
    ensures ReadParams(Split(Query(l), '&')) == ValuesOf(l.params)
    ensures '#' !in Query(l)
  {
    var parts := PrintParams(l.params);
    forall i | 0 <= i < |parts| ensures '&' !in parts[i] && '#' !in parts[i] {
      ParamReads(l.params[i]);
    }
    forall p | p in parts ensures '&' !in p {
      var i :| 0 <= i < |parts| && parts[i] == p;
    }
    SplitJoin(parts, '&');
    JoinedHasNo(parts, '&', '#');
    ParamsRead(l.params);
  }

  lemma DigitsHaveNo(n: nat, c: char)
    requires !IsDigit(c)
    ensures c !in Decimal(n)
  {
  }

  lemma HostPortReads(host: string, port: nat)
    requires ValidHost(host)
    ensures SplitHostPort(host + ":" + Decimal(port)) == Some((host, Decimal(port)))
  {
    var s := host + ":" + Decimal(port);
    if host != "" && host[0] == '[' {
      var inside := host[..|host| - 1];
      assert s == inside + [']'] + (":" + Decimal(port));
      FirstAt(inside, ']', ":" + Decimal(port));
      assert s[..|inside| + 1] == host && s[|inside| + 2..] == Decimal(port);
    } else {
      assert s == host + [':'] + Decimal(port);
      FirstAt(host, ':', Decimal(port));
      assert s[|host| + 1..] == Decimal(port);
    }
  }

  lemma AuthorityReads(l: Link)
    requires PlainUser(l.user) && ValidHost(l.host) && l.port >= 0
    ensures ReadAuthority(Authority(l)) == (match Unquote(l.user) case None => None case Some(user) => Some((user, l.host, l.port)))
    ensures '/' !in Authority(l) && '?' !in Authority(l) && '#' !in Authority(l)
  {
    var digits := Decimal(l.port);
    forall c | c == '/' || c == '?' || c == '#' || c == '@' ensures c !in HostPort(l) {
      DigitsHaveNo(l.port, c);
    }
    Cut(l.user, '@', HostPort(l));
    assert l.user + ['@'] + HostPort(l) == Authority(l);
    assert '@' in l.user + ['@'] + HostPort(l);
    HostPortReads(l.host, l.port);
    DecimalValue(l.port);
  }

  lemma NothingToCut(s: string, c: char)
    requires c !in s
    ensures BeforeFirst(s, c) == s
  {
    var a := BeforeFirst(s, c);
    if a != s {
      FirstOrAll(s, c);
    }
  }

  lemma {:induction false} FirstOrAll(s: string, c: char)
    ensures c !in s ==> BeforeFirst(s, c) == s
  {
    if s != "" {
      FirstOrAll(s[1..], c);
    }
  }

  lemma FrontReads(l: Link)
    requires PlainUser(l.user) && ValidHost(l.host) && l.port >= 0 && l.params != [] && PlainParams(l.params)
    requires Unquote(l.user).Some? && ValuesOf(l.params).Some?
    ensures forall fragment :: ReadFront(l.scheme, Front(l), fragment)
                            == Some(Uri(l.scheme, Unquote(l.user).value, l.host, l.port, ValuesOf(l.params).value, fragment))
    ensures '#' !in Front(l)
  {
    AuthorityReads(l);
    QueryReads(l);
    Cut(Authority(l), '?', Query(l));
    assert Authority(l) + ['?'] + Query(l) == Front(l);
    NothingToCut(Authority(l), '/');
  }

  predicate Printable(l: Link)
  {
    && ':' !in l.scheme && PlainUser(l.user) && l.port >= 0 && l.params != [] && PlainParams(l.params)
    && Unquote(l.user).Some? && ValuesOf(l.params).Some? && Unquote(l.fragment).Some?
  }

  function Meant(l: Link): Uri
    requires Printable(l)
  {
    Uri(l.scheme, Unquote(l.user).value, l.host, l.port, ValuesOf(l.params).value, Unquote(l.fragment).value)
  }

  lemma PrintedReads(l: Link)
    requires Printable(l) && ValidHost(l.host)
    ensures ReadUri(Print(l)) == Some(Meant(l))
  {
    FrontReads(l);
    var body := Front(l) + ['#'] + l.fragment;
    Cut(Front(l), '#', l.fragment);
    Cut(l.scheme, ':', "//" + body);
    assert Print(l) == l.scheme + [':'] + ("//" + body);
    assert ("//" + body)[2..] == body && "//" <= "//" + body;
  }

  lemma AuthorityHost(s: string)
    requires ReadAuthority(s).Some? && '/' !in s && '?' !in s && '#' !in s
    ensures ValidHost(ReadAuthority(s).value.1)
  {
    var hostPort := AfterFirst(s, '@');
    forall c | c in hostPort ensures c in s {}
    var (host, port) := SplitHostPort(hostPort).value;
    forall c | c in host ensures c in hostPort {}
    if hostPort[0] == '[' {
      var inside := BeforeFirst(hostPort, ']');
      BracketAt(hostPort, ']');
      assert host[..|host| - 1] == inside;
    }
  }

  lemma {:induction false} BracketAt(s: string, c: char)
    ensures |BeforeFirst(s, c)| < |s| ==> s[|BeforeFirst(s, c)|] == c
  {
    if s != "" && s[0] != c {
      BracketAt(s[1..], c);
    }
  }

  /** Whatever is read has a host an authority can hold. */
  lemma ReadHostIsValid(s: string)
    requires ReadUri(s).Some?
    ensures ValidHost(ReadUri(s).value.host)
  {
    var body := AfterFirst(s, ':')[2..];
    var front := BeforeFirst(body, '#');
    var authority := BeforeFirst(BeforeFirst(front, '?'), '/');
    assert '#' !in front && '?' !in BeforeFirst(front, '?');
    AuthorityHost(authority);
  }

  /** A link whose other parts are printable reads back as what was meant exactly when its host is one
      that an authority can hold. */
  lemma ReadsBackIff(l: Link)
    requires Printable(l)
    ensures ReadUri(Print(l)) == Some(Meant(l)) <==> ValidHost(l.host)
  {
    if ValidHost(l.host) {
      PrintedReads(l);
    }
    if ReadUri(Print(l)) == Some(Meant(l)) {
      ReadHostIsValid(Print(l));
    }
  }
}
