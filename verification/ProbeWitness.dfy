/** A stored gRPC version whose server name is one space: its share link and its probe disagree on the SNI. */
module ProbeWitness {
  import opened Wrappers
  import opened Text
  import opened JsonTree
  import opened FieldCrypto
  import opened Store
  import opened Settings
  import opened ConfigBuilder
  import opened UriReader
  import opened ShareUri
  import opened XrayLinks
  import opened Probe
  import opened ProbeAgrees
  import opened SampleBuilds

  const BlankTls := Obj(map["serverName" := Str(" ")])
  const BlankStream := Obj(map["network" := Str("grpc"), "tlsSettings" := BlankTls, "grpcSettings" := Obj(map[])])
  const BlankMain := Obj(map["tag" := Str("main"), "settings" := Clients(Obj(map["id" := Str("id")])), "port" := Num(443),
                             "streamSettings" := BlankStream])
  const BlankDoc := Obj(map["inbounds" := Arr([BlankMain])])
  const BlankRow := VersionRow(443, "", "", "", BlankDoc)
  const Site := Some("a.com")

  function BlankPanel(): PanelSettings
  {
    GrpcPanel(Plan(None, [443]))
  }

  lemma BlankIsFound(ps: ProfileSettings)
    requires ps.inboundTag == "main"
    ensures FindInbound(BlankDoc, "main") == Ok(BlankMain) && ListeningPort(XrayGrpc, BlankDoc, ps) == Ok(443)
  {
    var items := [BlankMain];
    assert Inbounds(BlankDoc) == Ok(items);
    assert GetOr(items[0], "tag", Null) == Ok(Str("main"));
    assert FindTag(items, "main") == Ok(0);
  }

  lemma BlankFields(host: string)
    ensures FirstId(BlankMain) == Ok("id") && Index(BlankMain, "streamSettings") == Ok(BlankStream)
    ensures ReadGrpcLink(BlankMain, host) == Ok(GrpcFields("", " "))
    ensures TlsOf(XrayGrpc, BlankMain) == BlankTls && BlankName(BlankTls)
    ensures ProbeGrpc(BlankStream, Dialled(host, 443, "id", ""), "").Ok?
  {
    assert Strip(" ") == Strip("") == "";
    assert FirstItem(Arr([Obj(map["id" := Str("id")])])) == Ok(Obj(map["id" := Str("id")]));
  }

  lemma SiteIsPlain()
    ensures Strip("a.com") == "a.com" && ValidHost("a.com") && !IsLoopback("a.com")
  {
    StripClean("a.com");
    assert |"a.com"| == 5 && |"127.0.0.1"| == 9 && |"::1"| == 3 && |"localhost"| == 9;
  }

  lemma BlankIsComparable(e: Encryptor)
    ensures Comparable(BlankPanel(), e, XrayGrpc, BlankRow, BlankDoc, Site) && PreferHost(BlankPanel(), XrayGrpc, Site) == Site
  {
    SiteIsPlain();
    assert SensitiveFields(XrayGrpc) == [];
    BlankIsFound(BlankPanel().profiles[XrayGrpc]);
  }

  function BlankTerms(): Terms
  {
    LinkTerms(BlankPanel(), XrayGrpc, BlankRow, Site, 0)
  }

  lemma BlankTermsAre()
    ensures BlankTerms() == Terms("a.com", "", "", true, 0)
  {
    SiteIsPlain();
  }

  lemma BlankLinkIsMade(ps: ProfileSettings)
    requires ps.inboundTag == "main" && ps.sharePublicPort.None?
    ensures XrayLink(XrayGrpc, BlankDoc, ps, BlankTerms()).Ok?
  {
    BlankTermsAre();
    BlankIsFound(ps);
    BlankFields("a.com");
    assert XrayParams(XrayGrpc, BlankMain, BlankTerms()).Ok?;
  }

  lemma BlankIsPlain()
    ensures RawPartsPlain(XrayGrpc, BlankMain, BlankTerms())
  {
    BlankTermsAre();
    BlankFields("a.com");
    assert |"id"| == 2 && PinHex("") == "";
  }

  lemma BlankIsProbed(e: Encryptor)
    ensures ProbeClient(BlankPanel(), e, XrayGrpc, BlankRow, "a.com", 0).Ok?
  {
    SiteIsPlain();
    BlankIsFound(BlankPanel().profiles[XrayGrpc]);
    BlankFields("a.com");
  }

  /** The link that is made of the version, read back, and the client that the probe runs name different
      servers, even up to white space. */
  lemma BlankNameDisagrees(e: Encryptor)
    ensures var link := XrayLink(XrayGrpc, BlankDoc, BlankPanel().profiles[XrayGrpc], BlankTerms());
            var client := ProbeClient(BlankPanel(), e, XrayGrpc, BlankRow, "a.com", 0);
            && link.Ok? && client.Ok? && ReadUri(Print(link.value)).Some?
            && AgreeUnless(FromUri(XrayGrpc, ReadUri(Print(link.value)).value), client.value, true)
  {
    var ps := BlankPanel().profiles[XrayGrpc];
    BlankIsComparable(e);
    BlankIsFound(ps);
    BlankFields("a.com");
    BlankLinkIsMade(ps);
    BlankIsPlain();
    BlankIsProbed(e);
    GrpcAgrees(BlankPanel(), e, BlankRow, BlankDoc, Site);
  }
}
