/** What the generated map means: reading the printed text back gives the entries, and looking a
    name up in them gives the panel, the last route listed for it, or the default. */
module NginxMeaning {
  import opened Wrappers
  import opened Text
  import opened NginxMap

  // ---- The text ----

  /** A token that nginx reads as one word. */
  predicate Clean(s: string)
  {
    s != "" && forall c :: c in s ==> !IsSpace(c) && c != ';' && c != '{' && c != '}'
  }

  predicate CleanEntries(entries: seq<Entry>)
  {
    forall i :: 0 <= i < |entries| ==> Clean(entries[i].0) && Clean(entries[i].1)
  }

  /** The lines that are printed, the closing default included. */
  function Printed(snis: seq<string>, backend: string, routes: seq<Entry>): seq<Entry>
  {
    var entries := MapEntries(snis, backend, routes);
    (if entries == [] then [(DEFAULT, backend)] else entries) + [(DEFAULT, backend)]
  }

  function Block(entries: seq<Entry>): string
  {
    if entries == [] then "" else Line(entries[0]) + "\n" + Block(entries[1..])
  }

  lemma {:induction false} JoinedLines(entries: seq<Entry>)
    requires entries != []
    ensures Join(Lines(entries), '\n') + "\n" == Block(entries)
  {
    if |entries| > 1 {
      JoinedLines(entries[1..]);
      assert Lines(entries)[1..] == Lines(entries[1..]);
    } else {
      assert Block(entries[1..]) == "";
    }
  }

  lemma {:induction false} BlockConcat(a: seq<Entry>, b: seq<Entry>)
    ensures Block(a + b) == Block(a) + Block(b)
  {
    if a == [] {
      assert a + b == b;
    } else {
      assert (a + b)[1..] == a[1..] + b;
      BlockConcat(a[1..], b);
    }
  }

  lemma BodyIsBlock(snis: seq<string>, backend: string, routes: seq<Entry>)
    ensures Body(MapEntries(snis, backend, routes), backend) == Block(Printed(snis, backend, routes))
  {
    var entries := MapEntries(snis, backend, routes);
    var last := [(DEFAULT, backend)];
    assert Block(last) == Line((DEFAULT, backend)) + "\n" by { assert last[1..] == []; }
    if entries != [] {
      JoinedLines(entries);
      BlockConcat(entries, last);
    } else {
      BlockConcat(last, last);
    }
  }

  // ---- Words ----

  lemma {:induction false} WordPrefix(a: string, rest: string)
    requires forall c :: c in a ==> !IsSpace(c)
    requires rest == "" || IsSpace(rest[0])
    ensures WordLength(a + rest) == |a|
  {
    if a == "" {
      assert a + rest == rest;
    } else {
      assert (a + rest)[1..] == a[1..] + rest;
      WordPrefix(a[1..], rest);
    }
  }

  lemma {:induction false} SkipSpaces(spaces: string, rest: string)
    requires forall c :: c in spaces ==> IsSpace(c)
    requires rest == "" || !IsSpace(rest[0])
    ensures StripLeft(spaces + rest) == rest
  {
    if spaces == "" {
      assert spaces + rest == rest;
    } else {
      assert (spaces + rest)[1..] == spaces[1..] + rest;
      SkipSpaces(spaces[1..], rest);
    }
  }

  lemma WordsStep(s: string, t: string, n: nat)
    requires StripLeft(s) == t && t != "" && WordLength(t) == n
    ensures n <= |t| && Words(s) == [t[..n]] + Words(t[n..])
  {
  }

  lemma WordThenRest(a: string, rest: string)
    requires Clean(a) && (rest == "" || IsSpace(rest[0]))
    ensures WordLength(a + rest) == |a| && (a + rest)[..|a|] == a && (a + rest)[|a|..] == rest
  {
    WordPrefix(a, rest);
  }

  lemma OneWord(spaces: string, a: string, rest: string)
    requires forall c :: c in spaces ==> IsSpace(c)
    requires Clean(a) && (rest == "" || IsSpace(rest[0]))
    ensures Words(spaces + (a + rest)) == [a] + Words(rest)
  {
    assert (a + rest)[0] == a[0] && a[0] in a;
    SkipSpaces(spaces, a + rest);
    WordThenRest(a, rest);
    WordsStep(spaces + (a + rest), a + rest, |a|);
  }

  lemma TwoWords(s: string, rest: string, a: string, b: string)
    requires Words(s) == [a] + Words(rest) && Words(rest) == [b]
    ensures Words(s) == [a, b]
  {
  }

  lemma LineWords(lead: string, a: string, b: string)
    requires forall c :: c in lead ==> IsSpace(c)
    requires Clean(a) && Clean(b)
    ensures Words(lead + (a + (" " + b))) == [a, b]
  {
    assert Words(lead + (a + (" " + b))) == [a] + Words(" " + b) by {
      OneWord(lead, a, " " + b);
    }
    LastWord(b);
    TwoWords(lead + (a + (" " + b)), " " + b, a, b);
  }

  lemma LastWord(a: string)
    requires Clean(a)
    ensures Words(" " + a) == [a]
  {
    OneWord(" ", a, "");
    assert a + "" == a;
    NoWords();
  }

  lemma NoWords()
    ensures Words("") == []
  {
  }

  /** `Line` and what follows it, regrouped around its semicolon. */
  lemma Regroup(spaces: string, a: string, b: string, more: string)
    ensures spaces + ("    " + a + " " + b + ";" + "\n" + more) == (spaces + "    ") + (a + (" " + b)) + [';'] + ("\n" + more)
  {
  }

  /** The text of one directive without its semicolon. */
  function Directive(spaces: string, e: Entry): string
  {
    (spaces + "    ") + (e.0 + (" " + e.1))
  }

  lemma BlockSplits(spaces: string, entries: seq<Entry>)
    requires forall c :: c in spaces ==> IsSpace(c)
    requires entries != [] && CleanEntries(entries)
    ensures Split(spaces + Block(entries), ';') == [Directive(spaces, entries[0])] + Split("\n" + Block(entries[1..]), ';')
  {
    var more := Block(entries[1..]);
    Regroup(spaces, entries[0].0, entries[0].1, more);
    NoSemicolon(spaces, entries[0]);
    SplitCons(Directive(spaces, entries[0]), "\n" + more, ';');
  }

  lemma NoSemicolon(spaces: string, e: Entry)
    requires forall c :: c in spaces ==> IsSpace(c)
    requires Clean(e.0) && Clean(e.1)
    ensures ';' !in Directive(spaces, e)
  {
    assert !IsSpace(';') && ';' !in e.0 && ';' !in e.1;
  }

  lemma DirectiveWords(spaces: string, e: Entry)
    requires forall c :: c in spaces ==> IsSpace(c)
    requires Clean(e.0) && Clean(e.1)
    ensures Words(Directive(spaces, e)) == [e.0, e.1]
  {
    Indented(spaces);
    LineWords(spaces + "    ", e.0, e.1);
  }

  lemma OnlySpaces(spaces: string)
    requires forall c :: c in spaces ==> IsSpace(c)
    ensures Directives(Split(spaces, ';')) == Some([])
  {
    assert ';' !in spaces by { assert !IsSpace(';'); }
    SplitWhole(spaces, ';');
    SkipSpaces(spaces, "");
    assert spaces + "" == spaces;
  }

  lemma TwoWordsRead(first: string, e: Entry)
    requires Words(first) == [e.0, e.1]
    ensures ReadDirective(first) == Some(e)
  {
  }

  lemma OneDirective(first: string, pieces: seq<string>, e: Entry, rest: seq<Entry>)
    requires pieces != [] && ReadDirective(first) == Some(e) && Directives(pieces) == Some(rest)
    ensures Directives([first] + pieces) == Some([e] + rest)
  {
    var all := [first] + pieces;
    assert all[0] == first && all[1..] == pieces && |all| > 1;
  }

  lemma Indented(spaces: string)
    requires forall c :: c in spaces ==> IsSpace(c)
    ensures forall c :: c in spaces + "    " ==> IsSpace(c)
  {
    forall c | c in spaces + "    " ensures IsSpace(c) {
      if c !in spaces { assert c in "    "; }
    }
  }

  /** The directives that a text is split into. */
  function Read(text: string): Option<seq<Entry>>
  {
    Directives(Split(text, ';'))
  }

  lemma ReadCons(text: string, first: string, tail: string, e: Entry, rest: seq<Entry>)
    requires Split(text, ';') == [first] + Split(tail, ';') && ReadDirective(first) == Some(e) && Read(tail) == Some(rest)
    ensures Read(text) == Some([e] + rest)
  {
    OneDirective(first, Split(tail, ';'), e, rest);
  }

  lemma BlockStep(spaces: string, entries: seq<Entry>)
    requires forall c :: c in spaces ==> IsSpace(c)
    requires entries != [] && CleanEntries(entries) && Read("\n" + Block(entries[1..])) == Some(entries[1..])
    ensures Read(spaces + Block(entries)) == Some([entries[0]] + entries[1..])
  {
    BlockSplits(spaces, entries);
    assert ReadDirective(Directive(spaces, entries[0])) == Some(entries[0]) by {
      DirectiveWords(spaces, entries[0]);
      TwoWordsRead(Directive(spaces, entries[0]), entries[0]);
    }
    ReadCons(spaces + Block(entries), Directive(spaces, entries[0]), "\n" + Block(entries[1..]), entries[0], entries[1..]);
  }

  lemma {:induction false} BlockDirectives(spaces: string, entries: seq<Entry>)
    requires forall c :: c in spaces ==> IsSpace(c)
    requires CleanEntries(entries)
    ensures Read(spaces + Block(entries)) == Some(entries)
    decreases |entries|
  {
    if entries == [] {
      assert spaces + Block(entries) == spaces;
      OnlySpaces(spaces);
    } else {
      BlockDirectives("\n", entries[1..]);
      BlockStep(spaces, entries);
      assert [entries[0]] + entries[1..] == entries;
    }
  }

  lemma {:induction false} BlockChars(entries: seq<Entry>, c: char)
    requires c in Block(entries) && (c == '{' || c == '}')
    ensures !CleanEntries(entries)
  {
    if entries != [] {
      if c in Line(entries[0]) {
        assert c in entries[0].0 || c in entries[0].1;
        assert !Clean(entries[0].0) || !Clean(entries[0].1);
      } else {
        assert c in Block(entries[1..]);
        BlockChars(entries[1..], c);
        var i :| 0 <= i < |entries[1..]| && !(Clean(entries[1..][i].0) && Clean(entries[1..][i].1));
        assert entries[i + 1] == entries[1..][i];
      }
    }
  }

  lemma TitleHasNoBrace()
    ensures '{' !in TITLE
  {
  }

  lemma NoteHasNoBrace()
    ensures '{' !in NOTE
  {
  }

  lemma HeaderHasNoBrace()
    ensures '{' !in HEADER
  {
    TitleHasNoBrace();
    NoteHasNoBrace();
    assert '{' !in OPENING;
    forall c | c in TITLE + NOTE + OPENING ensures c in TITLE || c in NOTE || c in OPENING {}
  }

  lemma ReadsFrame(head: string, inside: string, tail: string)
    requires '{' !in head && '}' !in inside
    ensures ParseMap(head + ['{'] + (inside + ['}'] + tail))
            == if '{' in inside then None else Directives(Split(inside, ';'))
  {
    var rest := inside + ['}'] + tail;
    CutAt(head, '{', rest);
    CutAt(inside, '}', tail);
  }

  lemma CutAt(a: string, c: char, rest: string)
    requires c !in a
    ensures var s := a + [c] + rest; BeforeFirst(s, c) == a && |a| < |s| && s[|a| + 1..] == rest
  {
    FirstAt(a, c, rest);
  }

  lemma Framed(head: string, body: string, tail: string)
    ensures head + "{\n" + body + "}\n" + tail == head + ['{'] + (("\n" + body) + ['}'] + ("\n" + tail))
  {
  }

  function Inside(entries: seq<Entry>): string
  {
    "\n" + Block(entries)
  }

  /** The reader finds the block that was printed. */
  lemma ReadsBlock(snis: seq<string>, backend: string, routes: seq<Entry>)
    requires '}' !in Block(Printed(snis, backend, routes))
    ensures ParseMap(Render(snis, backend, routes))
            == if '{' in Inside(Printed(snis, backend, routes)) then None
               else Directives(Split(Inside(Printed(snis, backend, routes)), ';'))
  {
    var body := Block(Printed(snis, backend, routes));
    BodyIsBlock(snis, backend, routes);
    Framed(HEADER, body, SERVER);
    HeaderHasNoBrace();
    ReadsFrame(HEADER, "\n" + body, "\n" + SERVER);
  }

  // ---- The other direction: what is read is always clean ----

  lemma {:induction false} WordsAreClean(s: string, w: string)
    requires w in Words(s)
    ensures w != "" && forall c :: c in w ==> c in s && !IsSpace(c)
    decreases |s|
  {
    var t := StripLeft(s);
    if t != "" {
      var n := WordLength(t);
      WordHasNoSpace(t);
      forall c | c in t ensures c in s {}
      if w != t[..n] {
        assert w in Words(t[n..]);
        WordsAreClean(t[n..], w);
      }
    }
  }

  lemma {:induction false} WordHasNoSpace(t: string)
    ensures forall c :: c in t[..WordLength(t)] ==> !IsSpace(c)
  {
    if t != "" && !IsSpace(t[0]) {
      WordHasNoSpace(t[1..]);
      var n := WordLength(t);
      assert t[..n] == [t[0]] + t[1..][..n - 1];
    }
  }

  predicate PlainPiece(p: string)
  {
    ';' !in p && '{' !in p && '}' !in p
  }

  lemma PieceIsClean(piece: string)
    requires ReadDirective(piece).Some? && PlainPiece(piece)
    ensures Clean(ReadDirective(piece).value.0) && Clean(ReadDirective(piece).value.1)
  {
    var words := Words(piece);
    WordsAreClean(piece, words[0]);
    WordsAreClean(piece, words[1]);
  }

  lemma DirectivesStep(pieces: seq<string>)
    requires |pieces| > 1 && Directives(pieces).Some?
    ensures ReadDirective(pieces[0]).Some? && Directives(pieces[1..]).Some?
    ensures Directives(pieces).value == [ReadDirective(pieces[0]).value] + Directives(pieces[1..]).value
  {
  }

  lemma {:induction false} DirectivesAreClean(pieces: seq<string>)
    requires pieces != [] && Directives(pieces).Some?
    requires forall i :: 0 <= i < |pieces| ==> PlainPiece(pieces[i])
    ensures CleanEntries(Directives(pieces).value)
  {
    if |pieces| > 1 {
      DirectivesStep(pieces);
      DirectivesAreClean(pieces[1..]);
      assert PlainPiece(pieces[0]);
      PieceIsClean(pieces[0]);
      OneMoreClean(ReadDirective(pieces[0]).value, Directives(pieces[1..]).value);
    }
  }

  lemma OneMoreClean(e: Entry, rest: seq<Entry>)
    requires Clean(e.0) && Clean(e.1) && CleanEntries(rest)
    ensures CleanEntries([e] + rest)
  {
  }

  lemma {:induction false} PieceChars(s: string, c: char, p: string, x: char)
    requires p in Split(s, c) && x in p
    ensures x in s
  {
    if s != "" {
      var rest := Split(s[1..], c);
      if p in rest {
        PieceChars(s[1..], c, p, x);
      } else if x != s[0] {
        assert rest[0] in rest;
        PieceChars(s[1..], c, rest[0], x);
      }
    }
  }

  lemma ReadEntriesAreClean(text: string)
    requires ParseMap(text).Some?
    ensures CleanEntries(ParseMap(text).value)
  {
    var head := BeforeFirst(text, '{');
    var block := BeforeFirst(text[|head| + 1..], '}');
    var pieces := Split(block, ';');
    forall i | 0 <= i < |pieces| ensures PlainPiece(pieces[i]) {
      SplitPieces(block, ';', pieces[i]);
      if '{' in pieces[i] { PieceChars(block, ';', pieces[i], '{'); }
      if '}' in pieces[i] { PieceChars(block, ';', pieces[i], '}'); }
    }
    DirectivesAreClean(pieces);
  }

  /** The printed map reads back as exactly the entries that were meant, the closing default
      included, if and only if every host and backend in it is one clean nginx word. */
  lemma RenderReadsBack(snis: seq<string>, backend: string, routes: seq<Entry>)
    ensures ParseMap(Render(snis, backend, routes)) == Some(Printed(snis, backend, routes))
            <==> CleanEntries(Printed(snis, backend, routes))
  {
    var entries := Printed(snis, backend, routes);
    if ParseMap(Render(snis, backend, routes)) == Some(entries) {
      ReadEntriesAreClean(Render(snis, backend, routes));
    }
    if CleanEntries(entries) {
      if '{' in Block(entries) { BlockChars(entries, '{'); }
      if '}' in Block(entries) { BlockChars(entries, '}'); }
      ReadsBlock(snis, backend, routes);
      BlockDirectives("\n", entries);
    }
  }

  // ---- Keys ----

  lemma PanelSnoc(snis: seq<string>, name: string)
    requires snis != []
    ensures IsPanelSni(snis, name) <==>
              IsPanelSni(snis[..|snis| - 1], name) || (name != "" && Strip(snis[|snis| - 1]) == name)
  {
    var n := |snis| - 1;
    assert AllStripped(snis) == AllStripped(snis[..n]) + [Strip(snis[n])];
  }

  lemma {:induction false} PanelLookup(snis: seq<string>, backend: string, name: string)
    ensures Lookup(PanelEntries(snis, backend), name) == if IsPanelSni(snis, name) then Some(backend) else None
  {
    if snis != [] {
      var before, last := snis[..|snis| - 1], snis[|snis| - 1];
      PanelLookup(before, backend, name);
      PanelSnoc(snis, name);
      LookupConcat(PanelEntries(before, backend), PanelEntry(last, backend), name);
    }
  }

  /** A non-empty name occurs twice. */
  predicate NeverTwice(names: seq<string>)
  {
    forall i, j :: 0 <= i < j < |names| && names[i] != "" ==> names[i] != names[j]
  }

  /** No host, once stripped, is listed twice. */
  predicate DistinctStripped(snis: seq<string>)
  {
    NeverTwice(AllStripped(snis))
  }

  lemma NeverTwiceSnoc(names: seq<string>, last: string)
    ensures NeverTwice(names + [last]) <==> NeverTwice(names) && (last == "" || last !in names)
  {
    var all := names + [last];
    forall i | 0 <= i < |names| ensures all[i] == names[i] {}
    if NeverTwice(all) {
      forall i, j | 0 <= i < j < |names| && names[i] != "" ensures names[i] != names[j] {
        assert all[i] != all[j];
      }
      forall i | 0 <= i < |names| && last != "" ensures names[i] != last {
        assert all[i] != "" ==> all[i] != all[|names|];
      }
    }
  }

  lemma DistinctSnoc(snis: seq<string>)
    requires snis != []
    ensures DistinctStripped(snis) <==>
              DistinctStripped(snis[..|snis| - 1]) && !IsPanelSni(snis[..|snis| - 1], Strip(snis[|snis| - 1]))
  {
    var n := |snis| - 1;
    var before, last := AllStripped(snis[..n]), Strip(snis[n]);
    assert AllStripped(snis) == before + [last];
    NeverTwiceSnoc(before, last);
  }

  ghost predicate Apart(a: seq<Entry>, b: seq<Entry>)
  {
    forall i, j :: 0 <= i < |a| && 0 <= j < |b| ==> a[i].0 != b[j].0
  }

  lemma DistinctConcat(a: seq<Entry>, b: seq<Entry>)
    ensures DistinctKeys(a + b) <==> DistinctKeys(a) && DistinctKeys(b) && Apart(a, b)
  {
    var c := a + b;
    forall i | 0 <= i < |a| ensures c[i] == a[i] {}
    forall i | 0 <= i < |b| ensures c[|a| + i] == b[i] {}
    if DistinctKeys(c) {
      forall i, j | 0 <= i < j < |b| ensures b[i].0 != b[j].0 {
        assert c[|a| + i].0 != c[|a| + j].0;
      }
      forall i, j | 0 <= i < |a| && 0 <= j < |b| ensures a[i].0 != b[j].0 {
        assert c[i].0 != c[|a| + j].0;
      }
    }
    if DistinctKeys(a) && DistinctKeys(b) && Apart(a, b) {
      forall i, j | 0 <= i < j < |c| ensures c[i].0 != c[j].0 {
        if i < |a| && |a| <= j {
          assert c[j] == b[j - |a|] && c[i] == a[i];
        }
      }
    }
  }

  lemma ApartFrom(a: seq<Entry>, e: Entry)
    ensures Apart(a, [e]) <==> Lookup(a, e.0).None?
  {
    LookupFinds(a, e.0);
    if HasKey(a, e.0) {
      var i :| 0 <= i < |a| && a[i].0 == e.0;
      assert a[i].0 == [e][0].0;
    }
  }

  lemma {:induction false} PanelDistinct(snis: seq<string>, backend: string)
    ensures DistinctKeys(PanelEntries(snis, backend)) <==> DistinctStripped(snis)
  {
    if snis != [] {
      var before, last := snis[..|snis| - 1], snis[|snis| - 1];
      PanelDistinct(before, backend);
      DistinctSnoc(snis);
      PanelLookup(before, backend, Strip(last));
      DistinctConcat(PanelEntries(before, backend), PanelEntry(last, backend));
      ApartFrom(PanelEntries(before, backend), (Strip(last), backend));
    }
  }

  // ---- Routes ----

  /** The last usable route listed for a name. */
  function LastRoute(snis: seq<string>, routes: seq<Entry>, name: string): Option<string>
  {
    if routes == [] then None
    else
      LastRoute(snis, routes[1..], name).Or(
        if Usable(snis, routes[0]) && Strip(routes[0].0) == name then Some(Strip(routes[0].1)) else None)
  }

  lemma {:induction false} RoutesLookup(d: seq<Entry>, snis: seq<string>, routes: seq<Entry>, name: string)
    ensures Lookup(AddRoutes(d, snis, routes), name) == LastRoute(snis, routes, name).Or(Lookup(d, name))
    decreases |routes|
  {
    if routes != [] {
      var sni, backend := Strip(routes[0].0), Strip(routes[0].1);
      if Usable(snis, routes[0]) {
        SetThenLookup(d, sni, backend, name);
        RoutesLookup(DictSet(d, sni, backend), snis, routes[1..], name);
      } else {
        RoutesLookup(d, snis, routes[1..], name);
      }
    }
  }

  lemma {:induction false} RoutesDistinct(d: seq<Entry>, snis: seq<string>, routes: seq<Entry>)
    requires DistinctKeys(d)
    ensures DistinctKeys(AddRoutes(d, snis, routes))
    decreases |routes|
  {
    if routes != [] {
      SetKeys(d, Strip(routes[0].0), Strip(routes[0].1));
      RoutesDistinct(if Usable(snis, routes[0]) then DictSet(d, Strip(routes[0].0), Strip(routes[0].1)) else d, snis, routes[1..]);
    }
  }

  lemma {:induction false} LastIsUsable(snis: seq<string>, routes: seq<Entry>, name: string)
    ensures LastRoute(snis, routes, name).Some? ==> name != "" && !IsPanelSni(snis, name)
  {
    if routes != [] {
      LastIsUsable(snis, routes[1..], name);
    }
  }

  /** nginx's special key, used by a host or a route. */
  predicate ClaimsDefault(snis: seq<string>, routes: seq<Entry>)
  {
    IsPanelSni(snis, DEFAULT) || LastRoute(snis, routes, DEFAULT).Some?
  }

  lemma EntriesDistinct(snis: seq<string>, backend: string, routes: seq<Entry>)
    ensures DistinctKeys(MapEntries(snis, backend, routes)) <==> DistinctStripped(snis)
  {
    var panel, others := PanelEntries(snis, backend), AddRoutes([], snis, routes);
    PanelDistinct(snis, backend);
    RoutesDistinct([], snis, routes);
    DistinctConcat(panel, others);
    forall i, j | 0 <= i < |panel| && 0 <= j < |others| ensures panel[i].0 != others[j].0 {
      var name := others[j].0;
      LookupFinds(others, name);
      LookupFinds(panel, name);
      RoutesLookup([], snis, routes, name);
      LastIsUsable(snis, routes, name);
      PanelLookup(snis, backend, name);
    }
  }

  lemma EntriesLookup(snis: seq<string>, backend: string, routes: seq<Entry>, name: string)
    ensures Lookup(MapEntries(snis, backend, routes), name)
            == if IsPanelSni(snis, name) then Some(backend) else LastRoute(snis, routes, name)
  {
    LookupConcat(PanelEntries(snis, backend), AddRoutes([], snis, routes), name);
    PanelLookup(snis, backend, name);
    RoutesLookup([], snis, routes, name);
    LastIsUsable(snis, routes, name);
  }

  /** The printed map has no key twice (nginx refuses one that has) if and only if no panel host is
      listed twice, nothing is named `default`, and there is something to list at all. */
  lemma KeysDistinctIff(snis: seq<string>, backend: string, routes: seq<Entry>)
    ensures DistinctKeys(Printed(snis, backend, routes)) <==>
              && DistinctStripped(snis)
              && !ClaimsDefault(snis, routes)
              && MapEntries(snis, backend, routes) != []
  {
    var entries, last := MapEntries(snis, backend, routes), (DEFAULT, backend);
    if entries == [] {
      var printed := Printed(snis, backend, routes);
      assert printed[0] == last && printed[1] == last;
      assert !DistinctKeys(printed);
    } else {
      ClosedDistinct(entries, last);
      EntriesDistinct(snis, backend, routes);
      EntriesLookup(snis, backend, routes, DEFAULT);
    }
  }

  /** A panel host named `default` is printed a second time at the end. */
  lemma DefaultHostIsRefused()
    ensures !DistinctKeys(Printed(["default"], "b:1", []))
  {
    var snis := ["default"];
    StripClean("default");
    assert snis[0] in snis;
    KeysDistinctIff(snis, "b:1", []);
  }

  /** So is the last line of a map with nothing else in it. */
  lemma EmptyMapIsRefused()
    ensures !DistinctKeys(Printed([], "b:1", []))
  {
    KeysDistinctIff([], "b:1", []);
  }

  lemma ClosedDistinct(entries: seq<Entry>, last: Entry)
    ensures DistinctKeys(entries + [last]) <==> DistinctKeys(entries) && Lookup(entries, last.0).None?
  {
    DistinctConcat(entries, [last]);
    ApartFrom(entries, last);
  }

  /** A map that nginx accepts sends a name to the panel if the panel claims it, else to the last
      route listed for it, else to the panel. */
  lemma MapMeaning(snis: seq<string>, backend: string, routes: seq<Entry>, name: string)
    requires DistinctKeys(Printed(snis, backend, routes))
    ensures Route(Printed(snis, backend, routes), name)
            == Some(if IsPanelSni(snis, name) then backend else LastRoute(snis, routes, name).GetOr(backend))
  {
    KeysDistinctIff(snis, backend, routes);
    var entries, last := MapEntries(snis, backend, routes), [(DEFAULT, backend)];
    LookupConcat(entries, last, name);
    LookupConcat(entries, last, DEFAULT);
    EntriesLookup(snis, backend, routes, name);
    EntriesLookup(snis, backend, routes, DEFAULT);
  }

  lemma PanelHostsStripped(publicHost: string, aliases: seq<string>, name: string)
    ensures DistinctStripped(PanelSniHosts(publicHost, aliases))
    ensures IsPanelSni(PanelSniHosts(publicHost, aliases), name) <==> Supplies([publicHost] + aliases, name)
  {
    var hosts := PanelSniHosts(publicHost, aliases);
    PanelHostsAreDistinct(publicHost, aliases);
    forall i | 0 <= i < |hosts| ensures Strip(hosts[i]) == hosts[i] && hosts[i] != "" {
      assert hosts[i] in hosts;
      var k :| 0 <= k < |[publicHost] + aliases| && Strip(([publicHost] + aliases)[k]) == hosts[i];
      StripIdempotent(([publicHost] + aliases)[k]);
    }
    assert AllStripped(hosts) == hosts;
  }

  lemma SomethingListed(publicHost: string, aliases: seq<string>, backend: string, routes: seq<Entry>)
    requires PanelSniHosts(publicHost, aliases) != []
    ensures MapEntries(PanelSniHosts(publicHost, aliases), backend, routes) != []
  {
    var hosts := PanelSniHosts(publicHost, aliases);
    PanelHostsStripped(publicHost, aliases, hosts[0]);
    PanelHostsAreDistinct(publicHost, aliases);
    assert hosts[0] in hosts;
    EntriesLookup(hosts, backend, routes, hosts[0]);
  }

  /** What the panel means the map to do. */
  function Intended(publicHost: string, aliases: seq<string>, backend: string, routes: seq<Entry>, name: string): string
  {
    if name in PanelSniHosts(publicHost, aliases) then backend
    else LastRoute(PanelSniHosts(publicHost, aliases), routes, name).GetOr(backend)
  }

  /** The file generated for the panel's own host list: as long as hosts, routes and backend are clean
      words and nothing is called `default`, the text reads back to a map with distinct keys whose
      lookup is the simple rule, for every name. */
  lemma GeneratedMapMeaning(publicHost: string, aliases: seq<string>, backend: string, routes: seq<Entry>)
    requires PanelSniHosts(publicHost, aliases) != []
    requires CleanEntries(Printed(PanelSniHosts(publicHost, aliases), backend, routes))
    requires !ClaimsDefault(PanelSniHosts(publicHost, aliases), routes)
    ensures var read := ParseMap(Render(PanelSniHosts(publicHost, aliases), backend, routes));
            && read.Some? && DistinctKeys(read.value)
            && forall name :: Route(read.value, name) == Some(Intended(publicHost, aliases, backend, routes, name))
  {
    var hosts := PanelSniHosts(publicHost, aliases);
    RenderReadsBack(hosts, backend, routes);
    SomethingListed(publicHost, aliases, backend, routes);
    PanelHostsStripped(publicHost, aliases, "");
    KeysDistinctIff(hosts, backend, routes);
    forall name ensures Route(Printed(hosts, backend, routes), name) == Some(Intended(publicHost, aliases, backend, routes, name)) {
      PanelHostsStripped(publicHost, aliases, name);
      PanelHostsAreDistinct(publicHost, aliases);
      MapMeaning(hosts, backend, routes, name);
    }
  }
}
