/** Builds that go wrong: a gRPC host with white space around it, no gRPC host at all, and a guest inbound
    that stands before the tagged one. */
module BuildWitness {
  import opened Wrappers
  import opened Text
  import opened JsonTree
  import opened FieldCrypto
  import opened Store
  import opened Settings
  import opened ConfigBuilder
  import opened ConfigBuild
  import opened VersionChain
  import opened RegenerateChain
  import opened RegenerateKept
  import opened RegenerateForever
  import opened ServedName
  import opened SampleBuilds

  const Padded := " a.com"

  lemma PaddedIsStripped()
    ensures Strip(Padded) == "a.com" && Padded != "a.com"
  {
    assert Padded[1..] == "a.com";
    StripClean("a.com");
  }

  function OnHost(host: string): Plan
  {
    Plan(Some(host), [443])
  }

  function OfficeContext(certs: CertRules, e: Encryptor, host: string): Context
  {
    Context(GrpcPanel(OnHost(host)), certs, e)
  }

  /** Two versions of the sample panel, the second built from the first. */
  lemma TwoVersions(ctx: Context, host: string, s1: nat, s2: nat) returns (a: VersionRow, b: VersionRow, o: Order, p: Order)
    requires ctx.encryptor.Valid() && ctx.settings == GrpcPanel(OnHost(host)) && Strip(host) != ""
    ensures Builds(ctx, Office, None, a) && Builds(ctx, Office, Some(a), b)
    ensures o.previous.None? && o.policy == p.policy == KeepAll && o.certs == p.certs == ctx.certs
    ensures o.draws == Drawing("one", s1) && p.draws == Drawing("two", s2)
    ensures !o.profile.externalTls && !p.profile.externalTls
    ensures ResolveTls(o, host).Ok? && a.publicKey == ResolveTls(o, host).value.0.cert
    ensures ResolveTls(p, host).Ok? && b.publicKey == ResolveTls(p, host).value.0.cert
    ensures TaggedField(ctx, Office, a, ClientIdField) == Some(ClientId(o)) && TaggedField(ctx, Office, b, ClientIdField) == Some(ClientId(p))
    ensures Taken(ctx, Office, a) == Ok(Nothing.(clientId := Some(Str("guest")), sni := Some(host)))
    ensures p.previous.Some? && Taken(ctx, Office, a) == Ok(p.previous.value.gleaned)
    ensures p.previous.value.publicKey == NonEmpty(a.publicKey)
    ensures StoredNames(ctx, Office, a) == Ok((Str(host), Null)) && StoredNames(ctx, Office, b) == Ok((Str(host), Null))
  {
    a := OfficeVersion(ctx, OnHost(host), None, {}, "one", s1);
    o := OfficeOrder(ctx, OnHost(host), None, "one", s1);
    b := OfficeVersion(ctx, OnHost(host), Some(a), {}, "two", s2);
    p := OfficeOrder(ctx, OnHost(host), Some(a), "two", s2);
    BackIsTaken(ctx, Office, a);
    SeenKeys(ctx, Office, a);
  }

  /** The host " a.com": the TLS flag is off and no external pair is configured, yet the second version has
      a new certificate, and neither certificate covers the name in its document. */
  lemma PaddedHostLosesCertificate(certs: CertRules, e: Encryptor, s1: nat, s2: nat) returns (ctx: Context, a: VersionRow, b: VersionRow)
    requires certs.Valid() && e.Valid() && certs.mint("a.com", s1).cert != certs.mint("a.com", s2).cert
    ensures ctx == OfficeContext(certs, e, Padded) && !ResolvedPolicy(ctx, Office).rotateTls && NoExternalPair(ctx, Office)
    ensures Builds(ctx, Office, None, a) && Builds(ctx, Office, Some(a), b)
    ensures a.publicKey == certs.mint("a.com", s1).cert && b.publicKey == certs.mint("a.com", s2).cert
    ensures !Covered(ctx, Office, a) && !Covered(ctx, Office, b)
  {
    PaddedIsStripped();
    ctx := OfficeContext(certs, e, Padded);
    var o, p;
    a, b, o, p := TwoVersions(ctx, Padded, s1, s2);
    assert certs.MintsFor("a.com", s1);
    assert !ReusableTls(p.previous, Padded, certs);
    NotServed(ctx, a);
    NotServed(ctx, b);
    BuiltIsCovered(ctx, Office, None, a);
    var name := BuiltPair(ctx, Office, None, a);
    BuiltIsCovered(ctx, Office, Some(a), b);
  }

  lemma NotServed(ctx: Context, row: VersionRow)
    requires ctx.settings == GrpcPanel(OnHost(Padded)) && StoredNames(ctx, Office, row) == Ok((Str(Padded), Null))
    ensures !NameIsServed(ctx, Office, row)
  {
    PaddedIsStripped();
    assert Strip("") == "";
  }

  /** The client id: its flag is off, yet the second version gives clients the id of the guest inbound. */
  lemma GuestTakesOver(certs: CertRules, e: Encryptor) returns (ctx: Context, a: VersionRow, b: VersionRow)
    requires certs.Valid() && e.Valid()
    ensures ctx == OfficeContext(certs, e, "a.com") && !ResolvedPolicy(ctx, Office).rotateClientId
    ensures Builds(ctx, Office, None, a) && Builds(ctx, Office, Some(a), b)
    ensures TaggedField(ctx, Office, a, ClientIdField) == Some(Str("one"))
    ensures TaggedField(ctx, Office, b, ClientIdField) == Some(Str("guest"))
  {
    StripClean("a.com");
    ctx := OfficeContext(certs, e, "a.com");
    var o, p;
    a, b, o, p := TwoVersions(ctx, "a.com", 0, 1);
  }

  // ---- No gRPC host is configured ----

  const NoHost := Plan(None, [443])

  lemma NoHostNames(ctx: Context)
    requires ctx.settings == GrpcPanel(NoHost)
    ensures Known(ctx, Office) && !Pinned(ctx, Office) && HostOf(ctx, Office) == "localhost"
    ensures TemplateNames(ctx, Office).0 == Str(TemplateName) && TemplateName != "localhost"
  {
    assert Strip("") == "";
    MainIsFound(Main);
    assert FindInbound(Template, "main") == Ok(Main);
    assert GrpcNames(Main) == Ok((Str(TemplateName), Null));
    assert |TemplateName| == 5 && |"localhost"| == 9;
  }

  /** With an empty list of gRPC hosts the document keeps the template's name while the certificate is issued
      for the advertised host, and so does not cover it. */
  lemma NoHostNotCovered(certs: CertRules, e: Encryptor, seed: nat) returns (ctx: Context, row: VersionRow)
    requires certs.Valid() && e.Valid()
    ensures ctx == Context(GrpcPanel(NoHost), certs, e) && NoExternalPair(ctx, Office)
    ensures Builds(ctx, Office, None, row) && row.publicKey == certs.mint("localhost", seed).cert
    ensures StoredNames(ctx, Office, row) == Ok((Str(TemplateName), Null)) && !Covered(ctx, Office, row)
  {
    ctx := Context(GrpcPanel(NoHost), certs, e);
    row := OfficeVersion(ctx, NoHost, None, {}, "id", seed);
    LocalIsClean();
    NoHostNames(ctx);
    BuiltIsCovered(ctx, Office, None, row);
  }
}
