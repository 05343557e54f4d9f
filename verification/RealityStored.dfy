/** The probe reads a Reality version without decrypting it. Decrypting only rewrites the private key of
    the first inbound, so both readings find the same client, short id and destination. */
module RealityStored {
  import opened Wrappers
  import opened Text
  import opened JsonTree
  import opened FieldCrypto
  import opened Store
  import opened ConfigBuilder
  import opened ShareUri
  import BuilderViews

  lemma PathSplits()
    ensures Split(Join(REALITY_KEY_PARTS, '.'), '.') == REALITY_KEY_PARTS
  {
    assert '.' !in "inbounds" && '.' !in "0" && '.' !in "streamSettings" && '.' !in "realitySettings" && '.' !in "privateKey";
    SplitJoin(REALITY_KEY_PARTS, '.');
  }

  /** A word that cannot be a list index. */
  predicate IsWord(s: string)
  {
    Trimmed(s) && 'a' <= s[0] <= 'z'
  }

  lemma WordIsNoIndex(s: string)
    requires IsWord(s)
    ensures ParseInt(s).None?
  {
    StripTrimmed(s);
    var body := DropSeparators(s);
    assert s[0] == body[0] && body[0] in body && !IsDigit(body[0]);
  }

  lemma ResolveWord(t: Json, key: string, rest: seq<string>)
    requires IsWord(key) && Resolve(t, [key] + rest).Some?
    ensures t.Obj? && key in t.fields && Resolve(t.fields[key], rest).Some?
    ensures Resolve(t, [key] + rest) == Some([Key(key)] + Resolve(t.fields[key], rest).value)
  {
    WordIsNoIndex(key);
    assert ([key] + rest)[0] == key && ([key] + rest)[1..] == rest;
  }

  lemma ResolveZero(items: seq<Json>, rest: seq<string>)
    requires Resolve(Arr(items), ["0"] + rest).Some?
    ensures items != [] && Resolve(items[0], rest).Some?
    ensures Resolve(Arr(items), ["0"] + rest) == Some([At(0)] + Resolve(items[0], rest).value)
  {
    assert ParseInt("0") == Some(0) by {
      DigitsParse("0");
      assert "0"[..0] == "";
      assert DigitsValue("0") == 0;
    }
    assert (["0"] + rest)[0] == "0" && (["0"] + rest)[1..] == rest;
  }

  lemma Descend(t: Json, h: Hop, rest: seq<Hop>, v: Json)
    requires HasHop(t, h) && Subtree(t, [h] + rest).Some?
    ensures Subtree(Child(t, h), rest).Some?
    ensures Replace(t, [h] + rest, v) == WithChild(t, h, Replace(Child(t, h), rest, v))
  {
    assert ([h] + rest)[0] == h && ([h] + rest)[1..] == rest;
  }

  predicate HasReality(inbound: Json)
  {
    && inbound.Obj? && "streamSettings" in inbound.fields
    && inbound.fields["streamSettings"].Obj? && "realitySettings" in inbound.fields["streamSettings"].fields
    && inbound.fields["streamSettings"].fields["realitySettings"].Obj?
  }

  function WithKey(inbound: Json, v: Json): Json
    requires HasReality(inbound)
  {
    var stream := inbound.fields["streamSettings"];
    Obj(inbound.fields["streamSettings" := Obj(stream.fields["realitySettings" := Obj(stream.fields["realitySettings"].fields["privateKey" := v])])])
  }

  lemma WordsOfPath()
    ensures IsWord("inbounds") && IsWord("streamSettings") && IsWord("realitySettings") && IsWord("privateKey")
  {
  }

  const KEY_LOCATION := [Key("streamSettings"), Key("realitySettings"), Key("privateKey")]

  lemma InboundLocation(inbound: Json)
    requires Resolve(inbound, ["streamSettings", "realitySettings", "privateKey"]).Some?
    ensures HasReality(inbound) && Resolve(inbound, ["streamSettings", "realitySettings", "privateKey"]) == Some(KEY_LOCATION)
  {
    WordsOfPath();
    assert ["streamSettings", "realitySettings", "privateKey"] == ["streamSettings"] + ["realitySettings", "privateKey"];
    ResolveWord(inbound, "streamSettings", ["realitySettings", "privateKey"]);
    var stream := inbound.fields["streamSettings"];
    assert ["realitySettings", "privateKey"] == ["realitySettings"] + ["privateKey"];
    ResolveWord(stream, "realitySettings", ["privateKey"]);
    assert ["privateKey"] == ["privateKey"] + [];
    var reality := stream.fields["realitySettings"];
    ResolveWord(reality, "privateKey", []);
    assert Resolve(reality, ["privateKey"]) == Some([Key("privateKey")]) by {
      assert [Key("privateKey")] + [] == [Key("privateKey")];
    }
    assert [Key("realitySettings")] + [Key("privateKey")] == [Key("realitySettings"), Key("privateKey")];
    assert [Key("streamSettings")] + [Key("realitySettings"), Key("privateKey")] == KEY_LOCATION;
  }

  lemma InboundReplaced(inbound: Json, v: Json)
    requires HasReality(inbound) && Subtree(inbound, KEY_LOCATION).Some?
    ensures Replace(inbound, KEY_LOCATION, v) == WithKey(inbound, v)
  {
    var stream := inbound.fields["streamSettings"];
    var reality := stream.fields["realitySettings"];
    assert KEY_LOCATION == [Key("streamSettings")] + [Key("realitySettings"), Key("privateKey")];
    Descend(inbound, Key("streamSettings"), [Key("realitySettings"), Key("privateKey")], v);
    assert [Key("realitySettings"), Key("privateKey")] == [Key("realitySettings")] + [Key("privateKey")];
    Descend(stream, Key("realitySettings"), [Key("privateKey")], v);
    assert Subtree(reality, [Key("privateKey")]).Some?;
    assert [Key("privateKey")] == [Key("privateKey")] + [];
    Descend(reality, Key("privateKey"), [], v);
  }

  /** The decrypted document is the stored one, or differs from it only in the first inbound's key. */
  ghost predicate OnlyKeyDiffers(stored: Json, plain: Json)
  {
    && Inbounds(stored).Ok? && Inbounds(plain).Ok?
    && (plain == stored || (
          && Inbounds(stored).value != [] && HasReality(Inbounds(stored).value[0])
          && exists v :: Inbounds(plain).value == Inbounds(stored).value[0 := WithKey(Inbounds(stored).value[0], v)]))
  }

  lemma PathReaches(stored: Json)
    requires Inbounds(stored).Ok? && Resolve(stored, REALITY_KEY_PARTS).Some?
    ensures stored.Obj? && "inbounds" in stored.fields && stored.fields["inbounds"].Arr? && stored.fields["inbounds"].items != []
    ensures HasReality(stored.fields["inbounds"].items[0])
    ensures Resolve(stored, REALITY_KEY_PARTS) == Some([Key("inbounds")] + ([At(0)] + KEY_LOCATION))
  {
    WordsOfPath();
    var last := ["streamSettings", "realitySettings", "privateKey"];
    assert REALITY_KEY_PARTS == ["inbounds"] + (["0"] + last);
    ResolveWord(stored, "inbounds", ["0"] + last);
    var list := stored.fields["inbounds"];
    assert Inbounds(stored) == AsList(list);
    assert (["0"] + last)[0] == "0";
    if list.Arr? {
      ResolveZero(list.items, last);
      InboundLocation(list.items[0]);
    }
  }

  lemma DecryptedDiffersInKey(stored: Json, plain: Json, e: Encryptor)
    requires Inbounds(stored).Ok? && DecryptFields(stored, SensitiveFields(XrayReality), e) == Ok(plain)
    ensures OnlyKeyDiffers(stored, plain)
  {
    var path := Join(REALITY_KEY_PARTS, '.');
    assert SensitiveFields(XrayReality) == [path] && [path][1..] == [];
    assert DecryptOne(stored, path, e) == Ok(plain);
    PathSplits();
    if Reached(stored, path).Some? {
      PathReaches(stored);
      var items := stored.fields["inbounds"].items;
      var loc := [Key("inbounds")] + ([At(0)] + KEY_LOCATION);
      var v := Str(e.decrypt(LeafAt(stored, loc).value).value);
      Descend(stored, Key("inbounds"), [At(0)] + KEY_LOCATION, v);
      Descend(stored.fields["inbounds"], At(0), KEY_LOCATION, v);
      InboundReplaced(items[0], v);
      assert Inbounds(plain) == Ok(items[0 := WithKey(items[0], v)]);
    }
  }

  lemma WithKeyReads(inbound: Json, v: Json, draw: nat)
    requires HasReality(inbound)
    ensures GetOr(WithKey(inbound, v), "tag", Null) == GetOr(inbound, "tag", Null)
    ensures FirstId(WithKey(inbound, v)) == FirstId(inbound)
    ensures ReadReality(WithKey(inbound, v), draw) == ReadReality(inbound, draw)
  {
    var changed := WithKey(inbound, v);
    assert Index(changed, "settings") == Index(inbound, "settings");
    assert FirstClient(changed) == FirstClient(inbound);
    var a, b := inbound.fields["streamSettings"].fields["realitySettings"], changed.fields["streamSettings"].fields["realitySettings"];
    assert Index(b, "shortIds") == Index(a, "shortIds") && GetOr(b, "dest", Null) == GetOr(a, "dest", Null)
           && GetOr(b, "serverNames", Null) == GetOr(a, "serverNames", Null);
  }

  /** Both readings find the tagged inbound, or neither does, and what a share link or a probe takes
      from it is the same. */
  lemma SameReality(stored: Json, plain: Json, e: Encryptor, tag: string, draw: nat)
    requires DecryptFields(stored, SensitiveFields(XrayReality), e) == Ok(plain)
    requires FindInbound(stored, tag).Ok?
    ensures FindInbound(plain, tag).Ok?
    ensures FirstId(FindInbound(plain, tag).value) == FirstId(FindInbound(stored, tag).value)
    ensures ReadReality(FindInbound(plain, tag).value, draw) == ReadReality(FindInbound(stored, tag).value, draw)
  {
    DecryptedDiffersInKey(stored, plain, e);
    if plain != stored {
      var items := Inbounds(stored).value;
      var v :| Inbounds(plain).value == items[0 := WithKey(items[0], v)];
      WithKeyReads(items[0], v, draw);
      BuilderViews.SameTagsFound(items, Inbounds(plain).value, tag);
    }
  }
}
