/** Encryption of the listed leaves of a config document
    (panel/infrastructure/crypto/config_data.py). */
module FieldCrypto {
  import opened Wrappers
  import opened Text
  import opened JsonTree

  /** Fernet as the code uses it: `encrypt` draws a nonce, so it is a function of the text
      and the nonce; `decrypt` of anything that is not a token raises. */
  datatype Encryptor = Encryptor(encrypt: (string, nat) -> string, decrypt: string -> Result<string>) {
    ghost predicate Valid()
    {
      forall s: string, n: nat ::
        encrypt(s, n) != "" && decrypt(encrypt(s, n)) == Ok(s)
    }
  }

  /** One resolved step of a path: a mapping key or a list position counted from the front. */
  datatype Hop = Key(key: string) | At(index: nat)

  predicate HasHop(t: Json, h: Hop)
  {
    match h
    case Key(k) => t.Obj? && k in t.fields
    case At(i) => t.Arr? && i < |t.items|
  }

  function Child(t: Json, h: Hop): (r: Json)
    requires HasHop(t, h)
    ensures r < t
  {
    match h
    case Key(k) => t.fields[k]
    case At(i) => t.items[i]
  }

  function WithChild(t: Json, h: Hop, v: Json): Json
    requires HasHop(t, h)
  {
    match h
    case Key(k) => Obj(t.fields[k := v])
    case At(i) => Arr(t.items[i := v])
  }

  /** What `current[int(part)]` / `current[part]` selects: negative list indices count from
      the end; everything else raises one of the exceptions the callers skip. */
  function SelectHop(t: Json, part: string): (r: Option<Hop>)
    ensures r.Some? ==> HasHop(t, r.value)
  {
    match t
    case Arr(items) =>
      (match ParseInt(part)
       case Some(i) =>
         if 0 <= i < |items| then Some(At(i))
         else if -|items| <= i < 0 then Some(At(i + |items|))
         else None
       case None => None)
    case Obj(fields) => if part in fields then Some(Key(part)) else None
    case _ => None
  }

  function Resolve(t: Json, parts: seq<string>): Option<seq<Hop>>
    decreases |parts|
  {
    if parts == [] then Some([])
    else
      match SelectHop(t, parts[0])
      case None => None
      case Some(h) =>
        match Resolve(Child(t, h), parts[1..])
        case None => None
        case Some(rest) => Some([h] + rest)
  }

  function Subtree(t: Json, loc: seq<Hop>): Option<Json>
    decreases |loc|
  {
    if loc == [] then Some(t)
    else if HasHop(t, loc[0]) then Subtree(Child(t, loc[0]), loc[1..])
    else None
  }

  function Replace(t: Json, loc: seq<Hop>, v: Json): Json
    requires Subtree(t, loc).Some?
    decreases |loc|
  {
    if loc == [] then v
    else WithChild(t, loc[0], Replace(Child(t, loc[0]), loc[1..], v))
  }

  /** The text at a location, when there is a string there. */
  function LeafAt(t: Json, loc: seq<Hop>): Option<string>
  {
    match Subtree(t, loc)
    case Some(Str(s)) => Some(s)
    case _ => None
  }

  /** The leaf a path reaches and the loops act on: present, a string, not empty. */
  function Reached(t: Json, path: string): (r: Option<seq<Hop>>)
    ensures r.Some? ==> Subtree(t, r.value).Some? && LeafAt(t, r.value).Some? && LeafAt(t, r.value).value != ""
  {
    match Resolve(t, Split(path, '.'))
    case None => None
    case Some(loc) =>
      if LeafAt(t, loc).Some? && LeafAt(t, loc).value != "" then Some(loc) else None
  }

  function EncryptOne(t: Json, path: string, e: Encryptor, nonce: nat): Json
  {
    match Reached(t, path)
    case None => t
    case Some(loc) => Replace(t, loc, Str(e.encrypt(LeafAt(t, loc).value, nonce)))
  }

  function DecryptOne(t: Json, path: string, e: Encryptor): Result<Json>
  {
    match Reached(t, path)
    case None => Ok(t)
    case Some(loc) =>
      var plain :- e.decrypt(LeafAt(t, loc).value);
      Ok(Replace(t, loc, Str(plain)))
  }

  function EncryptFields(t: Json, paths: seq<string>, e: Encryptor, nonce: nat): Json
    decreases |paths|
  {
    if paths == [] then t
    else EncryptFields(EncryptOne(t, paths[0], e, nonce), paths[1..], e, nonce + 1)
  }

  function DecryptFields(t: Json, paths: seq<string>, e: Encryptor): Result<Json>
    decreases |paths|
  {
    if paths == [] then Ok(t)
    else
      var u :- DecryptOne(t, paths[0], e);
      DecryptFields(u, paths[1..], e)
  }

  // ---- The loops of the source ----

  /** The walk with a moving `current`. */
  method GetByPath(data: Json, path: string) returns (r: Option<Json>)
    ensures r == match Resolve(data, Split(path, '.'))
                 case None => None
                 case Some(loc) => Subtree(data, loc)
  {
    var parts := Split(path, '.');
    var current := data;
    for i := 0 to |parts|
      invariant Resolve(data, parts).None? <==> Resolve(current, parts[i..]).None?
      invariant Resolve(data, parts).Some? ==>
                  Subtree(data, Resolve(data, parts).value) == Subtree(current, Resolve(current, parts[i..]).value)
    {
      assert parts[i..][0] == parts[i] && parts[i..][1..] == parts[i + 1..];
      match SelectHop(current, parts[i])
      case None => return None;
      case Some(h) =>
        var next := Child(current, h);
        if Resolve(next, parts[i + 1..]).Some? {
          var rest := Resolve(next, parts[i + 1..]).value;
          assert ([h] + rest)[1..] == rest;
        }
        current := next;
    }
    assert parts[|parts|..] == [];
    return Some(current);
  }

  lemma EncryptFrom(t: Json, paths: seq<string>, i: nat, e: Encryptor, nonce: nat)
    requires i < |paths|
    ensures EncryptFields(t, paths[i..], e, nonce) == EncryptFields(EncryptOne(t, paths[i], e, nonce), paths[i + 1..], e, nonce + 1)
  {
    assert paths[i..][0] == paths[i] && paths[i..][1..] == paths[i + 1..];
  }

  method EncryptConfigDataFields(configData: Json, sensitivePaths: seq<string>, e: Encryptor, nonce: nat) returns (result: Json)
    ensures result == EncryptFields(configData, sensitivePaths, e, nonce)
  {
    result := configData;
    for i := 0 to |sensitivePaths|
      invariant EncryptFields(result, sensitivePaths[i..], e, nonce + i) == EncryptFields(configData, sensitivePaths, e, nonce)
    {
      var path := sensitivePaths[i];
      EncryptFrom(result, sensitivePaths, i, e, nonce + i);
      var value := GetByPath(result, path);
      if value.Some? && value.value.Str? && value.value.s != "" {
        var loc := Resolve(result, Split(path, '.')).value;
        assert Reached(result, path) == Some(loc);
        result := Replace(result, loc, Str(e.encrypt(value.value.s, nonce + i)));
      } else {
        assert Reached(result, path) == None;
      }
    }
  }

  method DecryptConfigDataFields(configData: Json, sensitivePaths: seq<string>, e: Encryptor) returns (r: Result<Json>)
    ensures r == DecryptFields(configData, sensitivePaths, e)
  {
    var result := configData;
    for i := 0 to |sensitivePaths|
      invariant DecryptFields(result, sensitivePaths[i..], e) == DecryptFields(configData, sensitivePaths, e)
    {
      var path := sensitivePaths[i];
      assert sensitivePaths[i..][0] == path && sensitivePaths[i..][1..] == sensitivePaths[i + 1..];
      var value := GetByPath(result, path);
      if value.Some? && value.value.Str? && value.value.s != "" {
        var plain := e.decrypt(value.value.s);
        if plain.Raised? {
          return Raised;
        }
        var loc := Resolve(result, Split(path, '.')).value;
        result := Replace(result, loc, Str(plain.value));
      }
    }
    return Ok(result);
  }

  // ---- Shape ----

  /** Same tree up to the text of non-empty string leaves. */
  ghost predicate SameShape(a: Json, b: Json)
    decreases a
  {
    match a
    case Str(x) => b.Str? && (x == "" <==> b.s == "")
    case Arr(xs) => b.Arr? && |b.items| == |xs| && forall i :: 0 <= i < |xs| ==> SameShape(xs[i], b.items[i])
    case Obj(m) => b.Obj? && m.Keys == b.fields.Keys && forall k :: k in m ==> SameShape(m[k], b.fields[k])
    case _ => a == b
  }

  lemma {:induction false} ShapeReflexive(a: Json)
    ensures SameShape(a, a)
    decreases a
  {
    match a
    case Arr(xs) =>
      forall i | 0 <= i < |xs| ensures SameShape(xs[i], xs[i]) { ShapeReflexive(xs[i]); }
    case Obj(m) =>
      forall k | k in m ensures SameShape(m[k], m[k]) { ShapeReflexive(m[k]); }
    case _ =>
  }

  lemma {:induction false} ShapeTransitive(a: Json, b: Json, c: Json)
    requires SameShape(a, b) && SameShape(b, c)
    ensures SameShape(a, c)
    decreases a
  {
    match a
    case Arr(xs) =>
      forall i | 0 <= i < |xs| ensures SameShape(xs[i], c.items[i]) { ShapeTransitive(xs[i], b.items[i], c.items[i]); }
    case Obj(m) =>
      forall k | k in m ensures SameShape(m[k], c.fields[k]) { ShapeTransitive(m[k], b.fields[k], c.fields[k]); }
    case _ =>
  }

  /** Which leaf a path reaches depends on the shape alone. */
  lemma {:induction false} ShapeResolves(a: Json, b: Json, parts: seq<string>)
    requires SameShape(a, b)
    ensures Resolve(a, parts) == Resolve(b, parts)
    decreases |parts|
  {
    if parts != [] {
      var h := SelectHop(a, parts[0]);
      assert h == SelectHop(b, parts[0]);
      if h.Some? {
        assert SameShape(Child(a, h.value), Child(b, h.value));
        ShapeResolves(Child(a, h.value), Child(b, h.value), parts[1..]);
      }
    }
  }

  lemma {:induction false} ShapeLeaf(a: Json, b: Json, loc: seq<Hop>)
    requires SameShape(a, b)
    ensures LeafAt(a, loc).Some? <==> LeafAt(b, loc).Some?
    ensures LeafAt(a, loc).Some? ==> (LeafAt(a, loc).value == "" <==> LeafAt(b, loc).value == "")
    decreases |loc|
  {
    if loc != [] && HasHop(a, loc[0]) {
      assert SameShape(Child(a, loc[0]), Child(b, loc[0]));
      ShapeLeaf(Child(a, loc[0]), Child(b, loc[0]), loc[1..]);
    }
  }

  lemma ShapeReached(a: Json, b: Json, path: string)
    requires SameShape(a, b)
    ensures Reached(a, path) == Reached(b, path)
  {
    ShapeResolves(a, b, Split(path, '.'));
    var r := Resolve(a, Split(path, '.'));
    if r.Some? {
      ShapeLeaf(a, b, r.value);
    }
  }

  /** Two trees of one shape that agree on every string leaf are equal. */
  lemma {:induction false} ShapeAndLeaves(a: Json, b: Json)
    requires SameShape(a, b)
    requires SameLeaves(a, b)
    ensures a == b
    decreases a
  {
    match a
    case Str(x) =>
      assert LeafAt(a, []) == Some(x);
    case Arr(xs) =>
      forall i | 0 <= i < |xs| ensures xs[i] == b.items[i] {
        ChildLeaves(a, b, At(i));
        ShapeAndLeaves(Child(a, At(i)), Child(b, At(i)));
      }
      assert xs == b.items;
    case Obj(m) =>
      forall k | k in m ensures m[k] == b.fields[k] {
        ChildLeaves(a, b, Key(k));
        ShapeAndLeaves(Child(a, Key(k)), Child(b, Key(k)));
      }
      assert m == b.fields;
    case _ =>
  }

  ghost predicate SameLeaves(a: Json, b: Json)
  {
    forall loc :: LeafAt(a, loc).Some? ==> LeafAt(b, loc) == LeafAt(a, loc)
  }

  lemma ChildLeaves(a: Json, b: Json, h: Hop)
    requires HasHop(a, h) && HasHop(b, h)
    requires SameLeaves(a, b)
    ensures SameLeaves(Child(a, h), Child(b, h))
  {
    forall loc | LeafAt(Child(a, h), loc).Some?
      ensures LeafAt(Child(b, h), loc) == LeafAt(Child(a, h), loc)
    {
      var full := [h] + loc;
      assert full[1..] == loc;
      assert LeafAt(a, full) == LeafAt(Child(a, h), loc);
      assert LeafAt(b, full) == LeafAt(Child(b, h), loc);
    }
  }

  // ---- One in-place write ----

  lemma ReplaceHere(t: Json, loc: seq<Hop>, v: string)
    requires LeafAt(t, loc).Some? && LeafAt(t, loc).value != "" && v != "" && loc != []
    ensures HasHop(t, loc[0]) && LeafAt(Child(t, loc[0]), loc[1..]) == LeafAt(t, loc)
    ensures var r := Replace(t, loc, Str(v));
            HasHop(r, loc[0]) && Child(r, loc[0]) == Replace(Child(t, loc[0]), loc[1..], Str(v))
  {
  }

  /** Writing one non-empty leaf over another keeps every other leaf. */
  lemma {:induction false} ReplaceOther(t: Json, loc: seq<Hop>, v: string, other: seq<Hop>)
    requires LeafAt(t, loc).Some? && LeafAt(t, loc).value != "" && v != ""
    ensures other != loc && LeafAt(t, other).Some? ==> LeafAt(Replace(t, loc, Str(v)), other) == LeafAt(t, other)
    decreases |loc|
  {
    if loc != [] && other != [] && other != loc {
      ReplaceHere(t, loc, v);
      if other[0] == loc[0] {
        assert other == [loc[0]] + other[1..] && loc == [loc[0]] + loc[1..];
        ReplaceOther(Child(t, loc[0]), loc[1..], v, other[1..]);
      }
    }
  }

  /** ... and the shape, and puts the new leaf in place. */
  lemma {:induction false} ReplaceLeaf(t: Json, loc: seq<Hop>, v: string, other: seq<Hop>)
    requires LeafAt(t, loc).Some? && LeafAt(t, loc).value != "" && v != ""
    ensures SameShape(t, Replace(t, loc, Str(v)))
    ensures LeafAt(Replace(t, loc, Str(v)), loc) == Some(v)
    ensures other != loc && LeafAt(t, other).Some? ==> LeafAt(Replace(t, loc, Str(v)), other) == LeafAt(t, other)
    decreases |loc|
  {
    ReplaceOther(t, loc, v, other);
    if loc != [] {
      ReplaceHere(t, loc, v);
      ReplaceLeaf(Child(t, loc[0]), loc[1..], v, []);
      ShapeReflexive(t);
    }
  }

  // ---- Layers of encryption ----

  /** Removing `k` layers. */
  function Peel(s: string, k: nat, e: Encryptor): Option<string>
    decreases k
  {
    if k == 0 then Some(s)
    else if s == "" then None
    else
      match e.decrypt(s)
      case Raised => None
      case Ok(t) => Peel(t, k - 1, e)
  }

  /** How often a path list reaches each leaf of a tree. */
  function Hits(t: Json, paths: seq<string>): multiset<seq<Hop>>
  {
    if paths == [] then multiset{} else Hit(t, paths[0]) + Hits(t, paths[1..])
  }

  function Hit(t: Json, path: string): multiset<seq<Hop>>
  {
    match Reached(t, path)
    case None => multiset{}
    case Some(loc) => multiset{loc}
  }

  /** `t` carries, on each leaf of `plain`, the number of layers that `hits` counts. */
  ghost predicate Layered(plain: Json, t: Json, hits: multiset<seq<Hop>>, e: Encryptor)
  {
    && SameShape(plain, t)
    && forall loc :: LeafAt(plain, loc).Some? && LeafAt(t, loc).Some? ==>
         Peel(LeafAt(t, loc).value, hits[loc], e) == LeafAt(plain, loc)
  }

  /** Rewriting one leaf and its count leaves every other leaf layered as it was. */
  lemma LeafRelayered(plain: Json, t: Json, before: multiset<seq<Hop>>, after: multiset<seq<Hop>>, loc: seq<Hop>, v: string, e: Encryptor)
    requires Layered(plain, t, before, e) && LeafAt(t, loc).Some? && LeafAt(t, loc).value != "" && v != ""
    requires forall other :: other != loc ==> before[other] == after[other]
    requires Peel(v, after[loc], e) == LeafAt(plain, loc)
    ensures Layered(plain, Replace(t, loc, Str(v)), after, e)
  {
    var u := Replace(t, loc, Str(v));
    ReplaceLeaf(t, loc, v, loc);
    ShapeTransitive(plain, t, u);
    forall other | LeafAt(plain, other).Some? && LeafAt(u, other).Some?
      ensures Peel(LeafAt(u, other).value, after[other], e) == LeafAt(plain, other)
    {
      ReplaceLeaf(t, loc, v, other);
      ShapeLeaf(plain, t, other);
    }
  }

  /** Encrypting one path adds exactly the layer its hit counts. */
  lemma LayerAdded(plain: Json, t: Json, hits: multiset<seq<Hop>>, path: string, e: Encryptor, nonce: nat)
    requires e.Valid() && Layered(plain, t, hits, e)
    ensures Layered(plain, EncryptOne(t, path, e, nonce), hits + Hit(plain, path), e)
  {
    ShapeReached(plain, t, path);
    var hit := Reached(t, path);
    if hit.Some? {
      var loc := hit.value;
      ShapeLeaf(plain, t, loc);
      LeafRelayered(plain, t, hits, hits + multiset{loc}, loc, e.encrypt(LeafAt(t, loc).value, nonce), e);
    }
  }

  /** Decrypting one path takes exactly that layer away again, and never fails on it. */
  lemma LayerRemoved(plain: Json, t: Json, hits: multiset<seq<Hop>>, path: string, e: Encryptor)
    requires Layered(plain, t, Hit(plain, path) + hits, e)
    ensures DecryptOne(t, path, e).Ok? && Layered(plain, DecryptOne(t, path, e).value, hits, e)
  {
    ShapeReached(plain, t, path);
    var hit := Reached(t, path);
    if hit.Some? {
      var loc := hit.value;
      ShapeLeaf(plain, t, loc);
      assert Peel(LeafAt(t, loc).value, 1 + hits[loc], e) == LeafAt(plain, loc);
      var v := e.decrypt(LeafAt(t, loc).value).value;
      assert Peel(v, hits[loc], e) == LeafAt(plain, loc) && v != "";
      LeafRelayered(plain, t, multiset{loc} + hits, hits, loc, v, e);
    } else {
      assert Hit(plain, path) + hits == hits;
    }
  }

  lemma {:induction false} EncryptionLayers(plain: Json, t: Json, hits: multiset<seq<Hop>>, paths: seq<string>, e: Encryptor, nonce: nat)
    requires e.Valid() && Layered(plain, t, hits, e)
    ensures Layered(plain, EncryptFields(t, paths, e, nonce), hits + Hits(plain, paths), e)
    decreases |paths|
  {
    if paths == [] {
      assert hits + Hits(plain, paths) == hits;
    } else {
      LayerAdded(plain, t, hits, paths[0], e, nonce);
      EncryptionLayers(plain, EncryptOne(t, paths[0], e, nonce), hits + Hit(plain, paths[0]), paths[1..], e, nonce + 1);
      assert hits + Hit(plain, paths[0]) + Hits(plain, paths[1..]) == hits + Hits(plain, paths);
    }
  }

  lemma {:induction false} DecryptionUnlayers(plain: Json, t: Json, paths: seq<string>, e: Encryptor)
    requires Layered(plain, t, Hits(plain, paths), e)
    ensures DecryptFields(t, paths, e) == Ok(plain)
    decreases |paths|
  {
    if paths == [] {
      forall loc | LeafAt(plain, loc).Some? ensures LeafAt(t, loc) == LeafAt(plain, loc) {
        ShapeLeaf(plain, t, loc);
      }
      ShapeAndLeaves(plain, t);
    } else {
      LayerRemoved(plain, t, Hits(plain, paths[1..]), paths[0], e);
      DecryptionUnlayers(plain, DecryptOne(t, paths[0], e).value, paths[1..], e);
    }
  }

  lemma NoLayers(plain: Json, e: Encryptor)
    ensures Layered(plain, plain, multiset{}, e)
  {
    ShapeReflexive(plain);
  }

  /** Decrypting with the list that encrypted gives back the original document, whatever the
      paths: missing, repeated, prefixes of each other, or two names of one leaf. */
  lemma RoundTrip(plain: Json, paths: seq<string>, e: Encryptor, nonce: nat)
    requires e.Valid()
    ensures DecryptFields(EncryptFields(plain, paths, e, nonce), paths, e) == Ok(plain)
  {
    NoLayers(plain, e);
    EncryptionLayers(plain, plain, multiset{}, paths, e, nonce);
    assert multiset{} + Hits(plain, paths) == Hits(plain, paths);
    DecryptionUnlayers(plain, EncryptFields(plain, paths, e, nonce), paths, e);
  }

  /** Encryption keeps the shape of the document, leaves every leaf that no listed path
      reaches as it was, and puts on every other leaf one layer per listed path that reaches it. */
  lemma EncryptionTouchesOnlyHits(plain: Json, paths: seq<string>, e: Encryptor, nonce: nat, loc: seq<Hop>)
    requires e.Valid() && LeafAt(plain, loc).Some?
    ensures var stored := EncryptFields(plain, paths, e, nonce);
            && SameShape(plain, stored)
            && LeafAt(stored, loc).Some?
            && (loc !in Hits(plain, paths) ==> LeafAt(stored, loc) == LeafAt(plain, loc))
            && Peel(LeafAt(stored, loc).value, Hits(plain, paths)[loc], e) == LeafAt(plain, loc)
  {
    NoLayers(plain, e);
    EncryptionLayers(plain, plain, multiset{}, paths, e, nonce);
    assert multiset{} + Hits(plain, paths) == Hits(plain, paths);
    ShapeLeaf(plain, EncryptFields(plain, paths, e, nonce), loc);
  }
}
