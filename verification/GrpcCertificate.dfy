/** The gRPC certificate over any number of regenerations. Its name is looked up as it is configured but
    certified stripped, so with the TLS flag off the pair of version 1 is served for ever exactly when the
    name that version 1 chose has no white space around it; otherwise every build mints a new pair, and none
    of them covers the name. */
module GrpcCertificate {
  import opened Wrappers
  import opened Text
  import opened JsonTree
  import opened Store
  import opened Settings
  import opened ConfigBuild
  import opened ChainLaw
  import opened RegenerateChain
  import opened RegenerateKept
  import opened RegenerateForever

  /** The name a version's certificate is asked for. */
  ghost function AskedName(ctx: Context, spec: Spec, row: VersionRow): string
    requires Known(ctx, spec)
  {
    if Pinned(ctx, spec) || ctx.settings.profiles[spec.profile].grpcSniHosts == [] then HostOf(ctx, spec)
    else if SniOf(ctx, spec, row).Str? then SniOf(ctx, spec, row).s else ""
  }

  /** No white space around it. Advertised hosts never have any; listed ones are not checked. */
  ghost predicate CleanName(ctx: Context, spec: Spec, row: VersionRow)
  {
    Known(ctx, spec) && Strip(AskedName(ctx, spec, row)) == AskedName(ctx, spec, row)
  }

  ghost predicate CertHolds(ctx: Context, spec: Spec, row: VersionRow)
  {
    SniStays(ctx, spec, row) && MintedFor(ctx, row, Strip(AskedName(ctx, spec, row))) && Strip(AskedName(ctx, spec, row)) != ""
  }

  ghost predicate KeepsCert(ctx: Context, spec: Spec)
  {
    spec.profile.XrayGrpc? && NoExternalPair(ctx, spec) && !ResolvedPolicy(ctx, spec).rotateTls
  }

  /** Follows the pair of a version whose name is clean. */
  ghost function GrpcCertWatcher(ctx: Context): Watcher<(Result<string>, string, string)>
  {
    Watcher(
      BuildLink(ctx),
      (spec: Spec) => KeepsCert(ctx, spec),
      (spec: Spec, row: VersionRow) => CertHolds(ctx, spec, row) && CleanName(ctx, spec, row),
      (spec: Spec, row: VersionRow) => (PlainKey(ctx.encryptor, row), row.publicKey, row.fingerprint))
  }

  /** Follows the asked name of any version. */
  ghost function AskedWatcher(ctx: Context): Watcher<Json>
  {
    Watcher(
      BuildLink(ctx),
      (spec: Spec) => KeepsCert(ctx, spec),
      (spec: Spec, row: VersionRow) => CertHolds(ctx, spec, row),
      (spec: Spec, row: VersionRow) => SniOf(ctx, spec, row))
  }

  /** One regeneration with the TLS flag off and no external pair: the name stays, and the pair is the old
      one exactly when the name is clean; otherwise a pair is minted for the stripped name. */
  lemma GrpcCertStep(ctx: Context, a: Spec, rowA: VersionRow, b: Spec, rowB: VersionRow) returns (seed: nat)
    requires ctx.encryptor.Valid() && ctx.certs.Valid() && a.profile == b.profile && a.publicHost == b.publicHost
    requires KeepsCert(ctx, b) && Builds(ctx, b, Some(rowA), rowB) && CertHolds(ctx, a, rowA)
    ensures CertHolds(ctx, b, rowB) && SniOf(ctx, b, rowB) == SniOf(ctx, a, rowA) && AskedName(ctx, b, rowB) == AskedName(ctx, a, rowA)
    ensures CleanName(ctx, a, rowA) ==>
              && PlainKey(ctx.encryptor, rowB) == PlainKey(ctx.encryptor, rowA)
              && rowB.publicKey == rowA.publicKey && rowB.fingerprint == rowA.fingerprint
    ensures !CleanName(ctx, a, rowA) ==>
              var pair := ctx.certs.mint(Strip(AskedName(ctx, a, rowA)), seed);
              PlainKey(ctx.encryptor, rowB) == Ok(pair.privateKey) && rowB.publicKey == pair.cert
  {
    SniStep(ctx, a, rowA, b, rowB);
    SameNames(ctx, a, b, rowA);
    var certified;
    certified, seed := PairReusedIff(ctx, b, rowA, rowB, Strip(AskedName(ctx, a, rowA)));
    assert certified == AskedName(ctx, a, rowA);
    StripIdempotent(certified);
    Followed(ctx, a, rowA);
    var name := BuiltPair(ctx, b, Some(rowA), rowB);
    assert name == certified;
  }

  lemma Followed(ctx: Context, spec: Spec, row: VersionRow)
    requires CertHolds(ctx, spec, row)
    ensures PanelPair(ctx, row)
  {
    StripIdempotent(AskedName(ctx, spec, row));
  }

  lemma GrpcCertStart(ctx: Context, spec: Spec, row: VersionRow)
    requires ctx.encryptor.Valid() && ctx.certs.Valid() && Builds(ctx, spec, None, row)
    requires spec.profile.XrayGrpc? && NoExternalPair(ctx, spec)
    ensures CertHolds(ctx, spec, row)
  {
    FirstNames(ctx, spec, row);
    var name := BuiltPair(ctx, spec, None, row);
  }

  lemma GrpcCertSteady(ctx: Context)
    requires ctx.encryptor.Valid() && ctx.certs.Valid()
    ensures Steady(GrpcCertWatcher(ctx)) && Steady(AskedWatcher(ctx))
  {
    var w, u := GrpcCertWatcher(ctx), AskedWatcher(ctx);
    forall a, rowA, b, rowB | Relays(w, a, rowA, b, rowB) ensures w.holds(b, rowB) && w.sees(b, rowB) == w.sees(a, rowA) {
      var seed := GrpcCertStep(ctx, a, rowA, b, rowB);
    }
    forall a, rowA, b, rowB | Relays(u, a, rowA, b, rowB) ensures u.holds(b, rowB) && u.sees(b, rowB) == u.sees(a, rowA) {
      var seed := GrpcCertStep(ctx, a, rowA, b, rowB);
    }
  }

  /** With the TLS flag off and no external pair, every gRPC version serves the certificate of version 1,
      although its name is chosen from a list at random, if the chosen name is clean. */
  lemma GrpcCertificateForever(ctx: Context, specs: seq<Spec>, rows: seq<VersionRow>, i: nat)
    requires ctx.encryptor.Valid() && ctx.certs.Valid() && IsWatchedChain(GrpcCertWatcher(ctx), specs, rows) && i < |rows|
    requires specs[0].profile.XrayGrpc? && NoExternalPair(ctx, specs[0]) && CleanName(ctx, specs[0], rows[0])
    ensures PlainKey(ctx.encryptor, rows[i]) == PlainKey(ctx.encryptor, rows[0])
    ensures rows[i].publicKey == rows[0].publicKey && rows[i].fingerprint == rows[0].fingerprint
  {
    GrpcCertSteady(ctx);
    assert WatchedAt(GrpcCertWatcher(ctx), specs, rows, 0);
    GrpcCertStart(ctx, specs[0], rows[0]);
    SteadyChain(GrpcCertWatcher(ctx), specs, rows, i);
  }

  /** If it is not clean, no version ever reuses a pair: each build after the first mints one for the
      stripped name, and no version's certificate covers the name its document shows. */
  lemma GrpcCertificateNeverKept(ctx: Context, specs: seq<Spec>, rows: seq<VersionRow>, i: nat) returns (seed: nat)
    requires ctx.encryptor.Valid() && ctx.certs.Valid() && IsWatchedChain(AskedWatcher(ctx), specs, rows) && i < |rows|
    requires specs[0].profile.XrayGrpc? && NoExternalPair(ctx, specs[0]) && !CleanName(ctx, specs[0], rows[0])
    ensures SniOf(ctx, specs[i], rows[i]) == Str(AskedName(ctx, specs[0], rows[0]))
    ensures !ctx.certs.hasSan(rows[i].publicKey, AskedName(ctx, specs[0], rows[0]))
    ensures i > 0 ==> rows[i].publicKey == ctx.certs.mint(Strip(AskedName(ctx, specs[0], rows[0])), seed).cert
  {
    AskedAt(ctx, specs, rows, i);
    seed := 0;
    if i > 0 {
      AskedAt(ctx, specs, rows, i - 1);
      assert WatchedAt(AskedWatcher(ctx), specs, rows, i) && WatchedAt(AskedWatcher(ctx), specs, rows, i - 1);
      seed := GrpcCertStep(ctx, specs[i - 1], rows[i - 1], specs[i], rows[i]);
    }
  }

  lemma AskedAt(ctx: Context, specs: seq<Spec>, rows: seq<VersionRow>, i: nat)
    requires ctx.encryptor.Valid() && ctx.certs.Valid() && IsWatchedChain(AskedWatcher(ctx), specs, rows) && i < |rows|
    requires specs[0].profile.XrayGrpc? && NoExternalPair(ctx, specs[0]) && !CleanName(ctx, specs[0], rows[0])
    ensures CertHolds(ctx, specs[i], rows[i]) && !CleanName(ctx, specs[i], rows[i])
    ensures AskedName(ctx, specs[i], rows[i]) == AskedName(ctx, specs[0], rows[0])
    ensures SniOf(ctx, specs[i], rows[i]) == Str(AskedName(ctx, specs[0], rows[0]))
  {
    GrpcCertSteady(ctx);
    assert WatchedAt(AskedWatcher(ctx), specs, rows, 0);
    GrpcCertStart(ctx, specs[0], rows[0]);
    SteadyChain(AskedWatcher(ctx), specs, rows, i);
    assert WatchedAt(AskedWatcher(ctx), specs, rows, i);
    AskedIsSni(ctx, specs[0], rows[0], specs[i], rows[i]);
  }

  lemma AskedIsSni(ctx: Context, a: Spec, rowA: VersionRow, b: Spec, rowB: VersionRow)
    requires Known(ctx, a) && !CleanName(ctx, a, rowA) && a.profile == b.profile && a.publicHost == b.publicHost
    requires SniOf(ctx, b, rowB) == SniOf(ctx, a, rowA)
    ensures AskedName(ctx, b, rowB) == AskedName(ctx, a, rowA) && SniOf(ctx, b, rowB) == Str(AskedName(ctx, a, rowA))
    ensures !CleanName(ctx, b, rowB)
  {
    assert Strip("") == "";
  }
}
