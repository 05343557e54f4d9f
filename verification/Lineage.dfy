/** From runs of the whole system to chains of versions: what the builders keep from one version to the
    next holds between version 1 and any stored version, whatever the API, the broker and the workers
    did in between, as long as nobody edits the config. Its policy may change; what is kept is what every
    policy it has had keeps. */
module Lineage {
  import opened Wrappers
  import opened JsonTree
  import opened Store
  import opened Settings
  import opened ConfigBuilder
  import opened ConfigBuild
  import opened VersionChain
  import opened Regenerate
  import opened Lifecycle
  import opened LifecycleTheorems
  import opened LifecycleLinks
  import opened ChainLaw
  import opened RegenerateChain
  import opened RegenerateKept
  import opened RegenerateForever
  import opened GrpcCertificate
  import opened ServedName

  /** The workers build with one context of settings, certificate rules and keys. */
  ghost function PanelWorld(ctx: Context): World
  {
    World(BuildLink(ctx))
  }

  /** Versions 1 to n of a config. */
  function RowsOf(db: Tables, c: ConfigId, n: nat): seq<VersionRow>
    requires forall v :: 1 <= v <= n ==> (c, v) in db.versions
  {
    seq(n, i requires 0 <= i < n => db.versions[(c, i + 1)])
  }

  /** Which rows a build can make, from settings and the row before. */
  type Builder = (Spec, Option<VersionRow>, VersionRow) -> bool

  ghost predicate BuiltWith(link: Builder, db: Tables, c: ConfigId, v: Version, policy: Option<Policy>)
    requires c in db.configs && (c, v) in db.versions
  {
    link(db.configs[c].spec.(policy := policy), Predecessor(db, c, v), db.versions[(c, v)])
  }

  ghost predicate BuiltAt(link: Builder, db: Tables, c: ConfigId, v: Version, ok: Policies)
    requires c in db.configs
  {
    (c, v) in db.versions && exists policy :: ok(policy) && BuiltWith(link, db, c, v, policy)
  }

  /** Every stored version was built from the one before it, under a policy that the config had. */
  ghost predicate Lined(link: Builder, db: Tables, c: ConfigId, n: nat, ok: Policies)
  {
    && c in db.configs && (forall v :: (c, v) in db.versions <==> 1 <= v <= n)
    && forall v :: 1 <= v <= n ==> BuiltAt(link, db, c, v, ok)
  }

  lemma RunIsLined(ctx: Context, states: seq<State>, steps: seq<Step>, i: nat, c: ConfigId, ok: Policies) returns (n: nat)
    requires IsRun(PanelWorld(ctx), states, steps) && i <= |steps| && c in states[i].db.configs
    requires NeverEdited(states, steps, i, c) && PoliciesWere(states, i, c, ok)
    ensures Lined(BuildLink(ctx), states[i].db, c, n, ok)
  {
    var db, counts := states[i].db, CountsAt(states, steps, i);
    RunInvariant(PanelWorld(ctx), states, steps, i);
    n := counts[c];
    assert Contiguous(db, c, n);
    VersionsFormAChain(PanelWorld(ctx), states, steps, i, c, ok);
    forall v | 1 <= v <= n ensures BuiltAt(BuildLink(ctx), db, c, v, ok) {
      assert (c, v) in db.versions;
      WorldBuilds(ctx, db, c, v, ok);
    }
  }

  lemma WorldBuilds(ctx: Context, db: Tables, c: ConfigId, v: Version, ok: Policies)
    requires c in db.configs && (c, v) in db.versions && BuiltFromPredecessor(PanelWorld(ctx), db, c, v, db.versions[(c, v)], ok)
    ensures BuiltAt(BuildLink(ctx), db, c, v, ok)
  {
    var policy :| ok(policy) && BuiltUnder(PanelWorld(ctx), db, c, v, db.versions[(c, v)], policy);
    assert BuiltWith(BuildLink(ctx), db, c, v, policy);
  }

  lemma PredecessorIs(db: Tables, c: ConfigId, n: nat, k: nat)
    requires (forall v :: 1 <= v <= n ==> (c, v) in db.versions) && k < n
    ensures Prev(RowsOf(db, c, n), k) == Predecessor(db, c, k + 1) && RowsOf(db, c, n)[k] == db.versions[(c, k + 1)]
  {
  }

  /** The config's settings, under one of its policies, from which a version was built. */
  ghost predicate SpecFits(link: Builder, db: Tables, c: ConfigId, ok: Policies, spec: Spec, v: Version)
    requires c in db.configs && (c, v) in db.versions
  {
    && ok(spec.policy) && spec == db.configs[c].spec.(policy := spec.policy)
    && link(spec, Predecessor(db, c, v), db.versions[(c, v)])
  }

  lemma SpecAt(link: Builder, db: Tables, c: ConfigId, v: Version, ok: Policies) returns (spec: Spec)
    requires c in db.configs && BuiltAt(link, db, c, v, ok)
    ensures SpecFits(link, db, c, ok, spec, v)
  {
    var policy :| ok(policy) && BuiltWith(link, db, c, v, policy);
    spec := db.configs[c].spec.(policy := policy);
  }

  /** The settings of the first versions, as a list. */
  lemma {:induction false} SpecsOf(link: Builder, db: Tables, c: ConfigId, n: nat, m: nat, ok: Policies) returns (specs: seq<Spec>)
    requires Lined(link, db, c, n, ok) && m <= n
    ensures |specs| == m && forall k :: 0 <= k < m ==> SpecFits(link, db, c, ok, specs[k], k + 1)
  {
    specs := [];
    if m > 0 {
      var before := SpecsOf(link, db, c, n, m - 1, ok);
      assert BuiltAt(link, db, c, m, ok);
      var last := SpecAt(link, db, c, m, ok);
      specs := before + [last];
    }
  }

  /** All policies of the config let a watched value be kept. */
  ghost predicate AlwaysKeeps<T(!new)>(w: Watcher<T>, spec: Spec, ok: Policies)
  {
    forall policy :: ok(policy) ==> w.keeps(spec.(policy := policy))
  }

  /** Whatever its policy, a first version gives what later builds rely on. */
  ghost predicate AlwaysStarts<T(!new)>(w: Watcher<T>, spec: Spec, first: VersionRow, ok: Policies)
  {
    forall policy :: ok(policy) && w.link(spec.(policy := policy), None, first) ==> w.holds(spec.(policy := policy), first)
  }

  /** Any value that builds hand on unchanged is the value of version 1. */
  lemma WatchedIsFirst<T(!new)>(w: Watcher<T>, db: Tables, c: ConfigId, n: nat, v: Version, ok: Policies) returns (a: Spec, b: Spec)
    requires Lined(w.link, db, c, n, ok) && 1 <= v <= n && Steady(w)
    requires AlwaysKeeps(w, db.configs[c].spec, ok) && AlwaysStarts(w, db.configs[c].spec, db.versions[(c, 1)], ok)
    ensures a == db.configs[c].spec.(policy := a.policy) && b == db.configs[c].spec.(policy := b.policy)
    ensures w.holds(b, db.versions[(c, v)]) && w.sees(b, db.versions[(c, v)]) == w.sees(a, db.versions[(c, 1)])
  {
    var rows := RowsOf(db, c, n);
    var specs := SpecsOf(w.link, db, c, n, n, ok);
    assert SpecFits(w.link, db, c, ok, specs[0], 1) && SpecFits(w.link, db, c, ok, specs[v - 1], v);
    forall k | 0 <= k < n ensures WatchedAt(w, specs, rows, k) {
      assert SpecFits(w.link, db, c, ok, specs[k], k + 1);
      PredecessorIs(db, c, n, k);
    }
    assert rows[0] == db.versions[(c, 1)] && rows[v - 1] == db.versions[(c, v)];
    SteadyChain(w, specs, rows, v - 1);
    a, b := specs[0], specs[v - 1];
  }

  // ---- Flags that stay off ----

  function RotatesPort(p: Policy): bool { p.rotatePort }
  function RotatesKeys(p: Policy): bool { p.rotateRealityKeys }
  function RotatesTls(p: Policy): bool { p.rotateTls }
  function RotatesAuth(p: Policy): bool { p.rotateAuth }
  function RotatesObfs(p: Policy): bool { p.rotateObfs }
  function RotatesService(p: Policy): bool { p.rotateServiceName }
  function Never(p: Policy): bool { false }

  /** The policies, given or by default, that leave a flag off. */
  function Off(ctx: Context, spec: Spec, flag: Policy -> bool): Policies
  {
    (policy: Option<Policy>) => Known(ctx, spec) && !flag(ResolvedPolicy(ctx, spec.(policy := policy)))
  }

  /** The flag was off in every policy that the config has had. */
  ghost predicate StayedOff(ctx: Context, states: seq<State>, i: nat, c: ConfigId, flag: Policy -> bool)
    requires i < |states| && c in states[i].db.configs
  {
    PoliciesWere(states, i, c, Off(ctx, states[i].db.configs[c].spec, flag))
  }

  ghost predicate SameKeys(ctx: Context, a: VersionRow, b: VersionRow)
  {
    PlainKey(ctx.encryptor, a) == PlainKey(ctx.encryptor, b) && a.publicKey == b.publicKey
  }

  /** No external pair is configured, and a gRPC name chosen by version 1 has no white space around it. */
  ghost predicate CanKeepPair(ctx: Context, spec: Spec, first: VersionRow)
    requires Known(ctx, spec)
  {
    !spec.profile.XrayReality? && NoExternalPair(ctx, spec) && (spec.profile.XrayGrpc? ==> CleanName(ctx, spec, first))
  }

  /** Version 1 did not draw an empty name from a list. */
  ghost predicate CanKeepService(ctx: Context, spec: Spec, first: VersionRow)
    requires Known(ctx, spec)
  {
    spec.profile.XrayGrpc? && (ctx.settings.profiles[spec.profile].grpcServiceNames == [] || ServiceOf(ctx, spec, first) != Str(""))
  }

  ghost predicate CanKeepSni(ctx: Context, spec: Spec, first: VersionRow)
    requires Known(ctx, spec)
  {
    && spec.profile.XrayGrpc?
    && (Pinned(ctx, spec) || ctx.settings.profiles[spec.profile].grpcSniHosts == [] || SniOf(ctx, spec, first) != Str(""))
  }

  /** What the flags that stayed off promise of a version. */
  ghost predicate KeptFromFirst(ctx: Context, states: seq<State>, i: nat, c: ConfigId, v: Version)
    requires i < |states| && c in states[i].db.configs && Known(ctx, states[i].db.configs[c].spec)
    requires (c, v) in states[i].db.versions && (c, 1) in states[i].db.versions
  {
    var spec, first, row := states[i].db.configs[c].spec, states[i].db.versions[(c, 1)], states[i].db.versions[(c, v)];
    && (StayedOff(ctx, states, i, c, RotatesPort) ==> row.port == first.port)
    && (spec.profile.XrayReality? && StayedOff(ctx, states, i, c, RotatesKeys) ==> SameKeys(ctx, row, first))
    && (CanKeepPair(ctx, spec, first) && StayedOff(ctx, states, i, c, RotatesTls) ==>
         SameKeys(ctx, row, first) && row.fingerprint == first.fingerprint)
    && (spec.profile.Hysteria2? && StayedOff(ctx, states, i, c, RotatesAuth) ==>
         AuthOf(ctx, row).Some? && AuthOf(ctx, row) == AuthOf(ctx, first))
    && (spec.profile.Hysteria2? && StayedOff(ctx, states, i, c, RotatesObfs) ==>
         ObfsOf(ctx, row).Some? && ObfsOf(ctx, row) == ObfsOf(ctx, first))
    && (CanKeepService(ctx, spec, first) && StayedOff(ctx, states, i, c, RotatesService) ==>
         ServiceOf(ctx, spec, row) == ServiceOf(ctx, spec, first))
    && (CanKeepSni(ctx, spec, first) ==> SniOf(ctx, spec, row) == SniOf(ctx, spec, first))
  }

  // ---- Each of them in a lined database ----

  ghost predicate LinedOff(ctx: Context, db: Tables, c: ConfigId, n: nat, flag: Policy -> bool)
  {
    c in db.configs && Known(ctx, db.configs[c].spec) && Lined(BuildLink(ctx), db, c, n, Off(ctx, db.configs[c].spec, flag))
  }

  lemma PortOf(ctx: Context, db: Tables, c: ConfigId, n: nat, v: Version)
    requires LinedOff(ctx, db, c, n, RotatesPort) && 1 <= v <= n
    ensures db.versions[(c, v)].port == db.versions[(c, 1)].port
  {
    var w, base, first, ok := PortWatcher(ctx), db.configs[c].spec, db.versions[(c, 1)], Off(ctx, db.configs[c].spec, RotatesPort);
    forall policy | ok(policy) ensures w.keeps(base.(policy := policy)) {
      assert !RotatesPort(ResolvedPolicy(ctx, base.(policy := policy)));
    }
    forall policy | ok(policy) && w.link(base.(policy := policy), None, first) ensures w.holds(base.(policy := policy), first) {
      PortIsCandidate(ctx, base.(policy := policy), None, first);
    }
    PortSteady(ctx);
    var a, b := WatchedIsFirst(w, db, c, n, v, ok);
  }

  lemma RealityKeysOf(ctx: Context, db: Tables, c: ConfigId, n: nat, v: Version)
    requires ctx.encryptor.Valid() && LinedOff(ctx, db, c, n, RotatesKeys) && 1 <= v <= n && db.configs[c].spec.profile.XrayReality?
    ensures SameKeys(ctx, db.versions[(c, v)], db.versions[(c, 1)])
  {
    var w, base, first, ok := KeysWatcher(ctx), db.configs[c].spec, db.versions[(c, 1)], Off(ctx, db.configs[c].spec, RotatesKeys);
    forall policy | ok(policy) ensures w.keeps(base.(policy := policy)) {
      assert !RotatesKeys(ResolvedPolicy(ctx, base.(policy := policy)));
    }
    forall policy | ok(policy) && w.link(base.(policy := policy), None, first) ensures w.holds(base.(policy := policy), first) {
      RealityHasKeys(ctx, base.(policy := policy), None, first);
    }
    KeysSteady(ctx);
    var a, b := WatchedIsFirst(w, db, c, n, v, ok);
  }

  lemma CertificateOf(ctx: Context, db: Tables, c: ConfigId, n: nat, v: Version)
    requires ctx.encryptor.Valid() && ctx.certs.Valid() && LinedOff(ctx, db, c, n, RotatesTls) && 1 <= v <= n
    requires CanKeepPair(ctx, db.configs[c].spec, db.versions[(c, 1)]) && !db.configs[c].spec.profile.XrayGrpc?
    ensures SameKeys(ctx, db.versions[(c, v)], db.versions[(c, 1)]) && db.versions[(c, v)].fingerprint == db.versions[(c, 1)].fingerprint
  {
    var w, base, first, ok := CertWatcher(ctx), db.configs[c].spec, db.versions[(c, 1)], Off(ctx, db.configs[c].spec, RotatesTls);
    forall policy | ok(policy) ensures w.keeps(base.(policy := policy)) {
      assert !RotatesTls(ResolvedPolicy(ctx, base.(policy := policy)));
    }
    forall policy | ok(policy) && w.link(base.(policy := policy), None, first) ensures w.holds(base.(policy := policy), first) {
      CertStart(ctx, base.(policy := policy), first);
    }
    CertSteady(ctx);
    var a, b := WatchedIsFirst(w, db, c, n, v, ok);
  }

  lemma GrpcCertificateOf(ctx: Context, db: Tables, c: ConfigId, n: nat, v: Version)
    requires ctx.encryptor.Valid() && ctx.certs.Valid() && LinedOff(ctx, db, c, n, RotatesTls) && 1 <= v <= n
    requires CanKeepPair(ctx, db.configs[c].spec, db.versions[(c, 1)]) && db.configs[c].spec.profile.XrayGrpc?
    ensures SameKeys(ctx, db.versions[(c, v)], db.versions[(c, 1)]) && db.versions[(c, v)].fingerprint == db.versions[(c, 1)].fingerprint
  {
    var w, base, first, ok := GrpcCertWatcher(ctx), db.configs[c].spec, db.versions[(c, 1)], Off(ctx, db.configs[c].spec, RotatesTls);
    forall policy | ok(policy) ensures w.keeps(base.(policy := policy)) {
      assert !RotatesTls(ResolvedPolicy(ctx, base.(policy := policy)));
    }
    forall policy | ok(policy) && w.link(base.(policy := policy), None, first) ensures w.holds(base.(policy := policy), first) {
      GrpcCertStart(ctx, base.(policy := policy), first);
    }
    GrpcCertSteady(ctx);
    var a, b := WatchedIsFirst(w, db, c, n, v, ok);
  }

  lemma AuthOfAll(ctx: Context, db: Tables, c: ConfigId, n: nat, v: Version)
    requires ctx.encryptor.Valid() && LinedOff(ctx, db, c, n, RotatesAuth) && 1 <= v <= n && db.configs[c].spec.profile.Hysteria2?
    ensures AuthOf(ctx, db.versions[(c, v)]).Some? && AuthOf(ctx, db.versions[(c, v)]) == AuthOf(ctx, db.versions[(c, 1)])
  {
    var w, base, first, ok := AuthWatcher(ctx), db.configs[c].spec, db.versions[(c, 1)], Off(ctx, db.configs[c].spec, RotatesAuth);
    forall policy | ok(policy) ensures w.keeps(base.(policy := policy)) {
      assert !RotatesAuth(ResolvedPolicy(ctx, base.(policy := policy)));
    }
    forall policy | ok(policy) && w.link(base.(policy := policy), None, first) ensures w.holds(base.(policy := policy), first) {
      var o := HysteriaRow(ctx, base.(policy := policy), None, first);
    }
    AuthSteady(ctx);
    var a, b := WatchedIsFirst(w, db, c, n, v, ok);
  }

  lemma ObfsOfAll(ctx: Context, db: Tables, c: ConfigId, n: nat, v: Version)
    requires ctx.encryptor.Valid() && LinedOff(ctx, db, c, n, RotatesObfs) && 1 <= v <= n && db.configs[c].spec.profile.Hysteria2?
    ensures ObfsOf(ctx, db.versions[(c, v)]).Some? && ObfsOf(ctx, db.versions[(c, v)]) == ObfsOf(ctx, db.versions[(c, 1)])
  {
    var w, base, first, ok := ObfsWatcher(ctx), db.configs[c].spec, db.versions[(c, 1)], Off(ctx, db.configs[c].spec, RotatesObfs);
    forall policy | ok(policy) ensures w.keeps(base.(policy := policy)) {
      assert !RotatesObfs(ResolvedPolicy(ctx, base.(policy := policy)));
    }
    forall policy | ok(policy) && w.link(base.(policy := policy), None, first) ensures w.holds(base.(policy := policy), first) {
      var o := HysteriaRow(ctx, base.(policy := policy), None, first);
    }
    ObfsSteady(ctx);
    var a, b := WatchedIsFirst(w, db, c, n, v, ok);
  }

  lemma ServiceOfAll(ctx: Context, db: Tables, c: ConfigId, n: nat, v: Version)
    requires ctx.encryptor.Valid() && LinedOff(ctx, db, c, n, RotatesService) && 1 <= v <= n
    requires CanKeepService(ctx, db.configs[c].spec, db.versions[(c, 1)])
    ensures ServiceOf(ctx, db.configs[c].spec, db.versions[(c, v)]) == ServiceOf(ctx, db.configs[c].spec, db.versions[(c, 1)])
  {
    var w, base, first, ok := ServiceWatcher(ctx), db.configs[c].spec, db.versions[(c, 1)], Off(ctx, db.configs[c].spec, RotatesService);
    forall policy | ok(policy) ensures w.keeps(base.(policy := policy)) {
      assert !RotatesService(ResolvedPolicy(ctx, base.(policy := policy)));
    }
    forall policy | ok(policy) && w.link(base.(policy := policy), None, first) ensures w.holds(base.(policy := policy), first) {
      FirstNames(ctx, base.(policy := policy), first);
    }
    ServiceSteady(ctx);
    var a, b := WatchedIsFirst(w, db, c, n, v, ok);
  }

  lemma SniOfAll(ctx: Context, db: Tables, c: ConfigId, n: nat, v: Version)
    requires ctx.encryptor.Valid() && LinedOff(ctx, db, c, n, Never) && 1 <= v <= n
    requires CanKeepSni(ctx, db.configs[c].spec, db.versions[(c, 1)])
    ensures SniOf(ctx, db.configs[c].spec, db.versions[(c, v)]) == SniOf(ctx, db.configs[c].spec, db.versions[(c, 1)])
  {
    var w, base, first, ok := SniWatcher(ctx), db.configs[c].spec, db.versions[(c, 1)], Off(ctx, db.configs[c].spec, Never);
    forall policy | ok(policy) ensures w.keeps(base.(policy := policy)) {
      assert !Never(ResolvedPolicy(ctx, base.(policy := policy)));
    }
    forall policy | ok(policy) && w.link(base.(policy := policy), None, first) ensures w.holds(base.(policy := policy), first) {
      FirstNames(ctx, base.(policy := policy), first);
    }
    SniSteady(ctx);
    var a, b := WatchedIsFirst(w, db, c, n, v, ok);
  }

  // ---- In every run ----

  lemma RunIsLinedOff(ctx: Context, states: seq<State>, steps: seq<Step>, i: nat, c: ConfigId, flag: Policy -> bool) returns (n: nat)
    requires IsRun(PanelWorld(ctx), states, steps) && i <= |steps| && c in states[i].db.configs && NeverEdited(states, steps, i, c)
    requires Known(ctx, states[i].db.configs[c].spec) && StayedOff(ctx, states, i, c, flag)
    ensures LinedOff(ctx, states[i].db, c, n, flag) && forall v :: (c, v) in states[i].db.versions <==> 1 <= v <= n
  {
    n := RunIsLined(ctx, states, steps, i, c, Off(ctx, states[i].db.configs[c].spec, flag));
  }

  lemma NeverIsOff(ctx: Context, states: seq<State>, i: nat, c: ConfigId)
    requires i < |states| && c in states[i].db.configs && Known(ctx, states[i].db.configs[c].spec)
    ensures StayedOff(ctx, states, i, c, Never)
  {
    var spec := states[i].db.configs[c].spec;
    var ok := Off(ctx, spec, Never);
    forall k | 0 <= k <= i ensures PolicyIs(states[k], c, ok) {
      if c in states[k].db.configs {
        assert !Never(ResolvedPolicy(ctx, spec.(policy := states[k].db.configs[c].spec.policy)));
      }
    }
  }

  lemma PairKept(ctx: Context, db: Tables, c: ConfigId, n: nat, v: Version)
    requires ctx.encryptor.Valid() && ctx.certs.Valid() && LinedOff(ctx, db, c, n, RotatesTls) && 1 <= v <= n
    requires CanKeepPair(ctx, db.configs[c].spec, db.versions[(c, 1)])
    ensures SameKeys(ctx, db.versions[(c, v)], db.versions[(c, 1)]) && db.versions[(c, v)].fingerprint == db.versions[(c, 1)].fingerprint
  {
    if db.configs[c].spec.profile.XrayGrpc? {
      GrpcCertificateOf(ctx, db, c, n, v);
    } else {
      CertificateOf(ctx, db, c, n, v);
    }
  }

  /** In every run of the system, with duplicated, late, failed and overlapping tasks and changing policies,
      every stored version of an unedited config still has of version 1 what belongs to a flag that stayed
      off: the port, the Reality keys, the certificate, the Hysteria2 passwords and the gRPC names. */
  lemma RunKeepsFirst(ctx: Context, states: seq<State>, steps: seq<Step>, i: nat, c: ConfigId, v: Version)
    requires ctx.encryptor.Valid() && ctx.certs.Valid()
    requires IsRun(PanelWorld(ctx), states, steps) && i <= |steps| && c in states[i].db.configs
    requires NeverEdited(states, steps, i, c) && Known(ctx, states[i].db.configs[c].spec) && (c, v) in states[i].db.versions
    ensures (c, 1) in states[i].db.versions && KeptFromFirst(ctx, states, i, c, v)
  {
    NeverIsOff(ctx, states, i, c);
    var db, spec := states[i].db, states[i].db.configs[c].spec;
    var n := RunIsLinedOff(ctx, states, steps, i, c, Never);
    if StayedOff(ctx, states, i, c, RotatesPort) {
      var m := RunIsLinedOff(ctx, states, steps, i, c, RotatesPort);
      PortOf(ctx, db, c, m, v);
    }
    if spec.profile.XrayReality? && StayedOff(ctx, states, i, c, RotatesKeys) {
      var m := RunIsLinedOff(ctx, states, steps, i, c, RotatesKeys);
      RealityKeysOf(ctx, db, c, m, v);
    }
    if CanKeepPair(ctx, spec, db.versions[(c, 1)]) && StayedOff(ctx, states, i, c, RotatesTls) {
      var m := RunIsLinedOff(ctx, states, steps, i, c, RotatesTls);
      PairKept(ctx, db, c, m, v);
    }
    PasswordsKept(ctx, states, steps, i, c, v);
    NamesKept(ctx, states, steps, i, c, n, v);
  }

  lemma PasswordsKept(ctx: Context, states: seq<State>, steps: seq<Step>, i: nat, c: ConfigId, v: Version)
    requires ctx.encryptor.Valid()
    requires IsRun(PanelWorld(ctx), states, steps) && i <= |steps| && c in states[i].db.configs
    requires NeverEdited(states, steps, i, c) && Known(ctx, states[i].db.configs[c].spec)
    requires (c, v) in states[i].db.versions && (c, 1) in states[i].db.versions
    ensures var first, row := states[i].db.versions[(c, 1)], states[i].db.versions[(c, v)];
            states[i].db.configs[c].spec.profile.Hysteria2? ==>
              && (StayedOff(ctx, states, i, c, RotatesAuth) ==> AuthOf(ctx, row).Some? && AuthOf(ctx, row) == AuthOf(ctx, first))
              && (StayedOff(ctx, states, i, c, RotatesObfs) ==> ObfsOf(ctx, row).Some? && ObfsOf(ctx, row) == ObfsOf(ctx, first))
  {
    if states[i].db.configs[c].spec.profile.Hysteria2? {
      if StayedOff(ctx, states, i, c, RotatesAuth) {
        var m := RunIsLinedOff(ctx, states, steps, i, c, RotatesAuth);
        AuthOfAll(ctx, states[i].db, c, m, v);
      }
      if StayedOff(ctx, states, i, c, RotatesObfs) {
        var m := RunIsLinedOff(ctx, states, steps, i, c, RotatesObfs);
        ObfsOfAll(ctx, states[i].db, c, m, v);
      }
    }
  }

  lemma NamesKept(ctx: Context, states: seq<State>, steps: seq<Step>, i: nat, c: ConfigId, n: nat, v: Version)
    requires ctx.encryptor.Valid()
    requires IsRun(PanelWorld(ctx), states, steps) && i <= |steps| && c in states[i].db.configs
    requires NeverEdited(states, steps, i, c) && LinedOff(ctx, states[i].db, c, n, Never) && 1 <= v <= n
    ensures var spec, first, row := states[i].db.configs[c].spec, states[i].db.versions[(c, 1)], states[i].db.versions[(c, v)];
            && (CanKeepService(ctx, spec, first) && StayedOff(ctx, states, i, c, RotatesService) ==>
                 ServiceOf(ctx, spec, row) == ServiceOf(ctx, spec, first))
            && (CanKeepSni(ctx, spec, first) ==> SniOf(ctx, spec, row) == SniOf(ctx, spec, first))
  {
    var spec, first := states[i].db.configs[c].spec, states[i].db.versions[(c, 1)];
    assert (c, v) in states[i].db.versions;
    if CanKeepService(ctx, spec, first) && StayedOff(ctx, states, i, c, RotatesService) {
      var m := RunIsLinedOff(ctx, states, steps, i, c, RotatesService);
      ServiceOfAll(ctx, states[i].db, c, m, v);
    }
    if CanKeepSni(ctx, spec, first) {
      SniOfAll(ctx, states[i].db, c, n, v);
    }
  }

  // ---- Fields of the document ----

  lemma PredecessorRead(ctx: Context, spec: Spec, row: VersionRow, next: VersionRow)
    requires Builds(ctx, spec, Some(row), next)
    ensures Known(ctx, spec) && Taken(ctx, spec, row).Ok?
  {
    var used: set<int>, draws: Draws, files: Written :|
      draws.Valid() && BuildVersion(ctx, spec, Some(row), used, draws) == Ok(Stored(next, files));
    BackIsTaken(ctx, spec, row);
  }

  /** Reading a row depends on the profile only. */
  lemma SameReader(ctx: Context, a: Spec, b: Spec, row: VersionRow)
    requires a.profile == b.profile
    ensures Taken(ctx, a, row) == Taken(ctx, b, row) && Tagged(ctx, a, row) == Tagged(ctx, b, row)
  {
  }

  /** `readable`: what every build could do with the row before it. */
  ghost predicate ReadsBefore(link: Builder, readable: (Spec, VersionRow) -> bool)
  {
    && (forall spec, row, next :: link(spec, Some(row), next) ==> readable(spec, row))
    && (forall a, b, row :: ReadsAlike(readable, a, b, row))
  }

  ghost predicate ReadsAlike(readable: (Spec, VersionRow) -> bool, a: Spec, b: Spec, row: VersionRow)
  {
    a.profile == b.profile ==> readable(a, row) == readable(b, row)
  }

  /** A version that another one was built from could be read. */
  lemma BuiltUponIsRead(link: Builder, readable: (Spec, VersionRow) -> bool, db: Tables, c: ConfigId, n: nat, u: Version, ok: Policies)
    requires ReadsBefore(link, readable) && Lined(link, db, c, n, ok) && 1 <= u < n
    ensures readable(db.configs[c].spec, db.versions[(c, u)])
  {
    assert BuiltAt(link, db, c, u + 1, ok);
    var spec := SpecAt(link, db, c, u + 1, ok);
    assert Predecessor(db, c, u + 1) == Some(db.versions[(c, u)]);
    assert ReadsAlike(readable, spec, db.configs[c].spec, db.versions[(c, u)]);
  }

  /** The reader follows what is built and readable. */
  ghost predicate Follows(r: Reader, link: Builder, readable: (Spec, VersionRow) -> bool)
  {
    forall spec, previous, row :: link(spec, previous, row) && readable(spec, row) ==> r.link(spec, previous, row)
  }

  lemma FirstRowsChain(r: Reader, link: Builder, readable: (Spec, VersionRow) -> bool, db: Tables, c: ConfigId, n: nat, v: nat, f: Field, ok: Policies)
    returns (specs: seq<Spec>)
    requires ReadsBefore(link, readable) && Follows(r, link, readable)
    requires Lined(link, db, c, n, ok) && 1 < v <= n && (v < n || readable(db.configs[c].spec, db.versions[(c, v)]))
    requires forall policy :: ok(policy) ==> r.keeps(db.configs[c].spec.(policy := policy), f)
    ensures IsChain(r, specs, RowsOf(db, c, v), f)
    ensures |specs| == v && specs[0] == db.configs[c].spec.(policy := specs[0].policy)
    ensures specs[v - 1] == db.configs[c].spec.(policy := specs[v - 1].policy)
  {
    var base, rows := db.configs[c].spec, RowsOf(db, c, v);
    specs := SpecsOf(link, db, c, n, v, ok);
    assert SpecFits(link, db, c, ok, specs[0], 1) && SpecFits(link, db, c, ok, specs[v - 1], v);
    forall k: nat | k < v ensures LinkAt(r, specs, rows, k) && r.keeps(specs[k], f) {
      assert SpecFits(link, db, c, ok, specs[k], k + 1);
      PredecessorIs(db, c, v, k);
      if k + 1 < n {
        BuiltUponIsRead(link, readable, db, c, n, k + 1, ok);
      }
      assert ReadsAlike(readable, specs[k], base, rows[k]);
    }
  }

  /** The policies under which a field is kept. */
  ghost function KeepingField(ctx: Context, spec: Spec, f: Field): Policies
  {
    (policy: Option<Policy>) => KeepsField(ctx, spec.(policy := policy), f)
  }

  ghost function Readable(ctx: Context): (Spec, VersionRow) -> bool
  {
    (spec: Spec, row: VersionRow) => Taken(ctx, spec, row).Ok?
  }

  lemma BuildsRead(ctx: Context)
    ensures ReadsBefore(BuildLink(ctx), Readable(ctx)) && Follows(ReaderOf(ctx), BuildLink(ctx), Readable(ctx))
  {
    forall spec, row, next | BuildLink(ctx)(spec, Some(row), next) ensures Readable(ctx)(spec, row) {
      PredecessorRead(ctx, spec, row, next);
    }
    forall a, b, row ensures ReadsAlike(Readable(ctx), a, b, row) {
      if a.profile == b.profile {
        SameReader(ctx, a, b, row);
      }
    }
  }

  /** In every such run a field of the Xray document (client id, short ids, destination, server names,
      path) whose flag was off in every policy the config has had appears in a later version as in version 1
      exactly when the template lets version 1's value be found again: no inbound before the tagged one has
      a client id, no inbound after it has another field, or it has the same. The version asked about has
      to be readable, which every version is that another one was built from. */
  lemma RunKeepsField(ctx: Context, states: seq<State>, steps: seq<Step>, i: nat, c: ConfigId, v: Version, f: Field)
    requires ctx.encryptor.Valid() && IsRun(PanelWorld(ctx), states, steps) && i <= |steps| && c in states[i].db.configs
    requires NeverEdited(states, steps, i, c) && PoliciesWere(states, i, c, KeepingField(ctx, states[i].db.configs[c].spec, f))
    requires v > 1 && (c, v) in states[i].db.versions && (c, 1) in states[i].db.versions
    requires (c, v + 1) in states[i].db.versions || Taken(ctx, states[i].db.configs[c].spec, states[i].db.versions[(c, v)]).Ok?
    requires var spec, first := states[i].db.configs[c].spec, states[i].db.versions[(c, 1)];
             TakenField(ctx, spec, first, f).Some? && (f.ServerNamesField? ==> TakenField(ctx, spec, first, DestField).Some?)
    ensures var spec, first := states[i].db.configs[c].spec, states[i].db.versions[(c, 1)];
            && TaggedField(ctx, spec, states[i].db.versions[(c, v)], f) == TakenField(ctx, spec, first, f)
            && (TaggedField(ctx, spec, states[i].db.versions[(c, v)], f) == TaggedField(ctx, spec, first, f)
                <==> FirstIsFound(ctx, spec, first, f))
  {
    var n := RunIsLined(ctx, states, steps, i, c, KeepingField(ctx, states[i].db.configs[c].spec, f));
    assert PolicyIs(states[i], c, KeepingField(ctx, states[i].db.configs[c].spec, f));
    LinedKeepsField(ctx, states[i].db, c, n, v, f);
  }

  /** ... in a database whose versions form one chain. */
  lemma LinedKeepsField(ctx: Context, db: Tables, c: ConfigId, n: nat, v: nat, f: Field)
    requires ctx.encryptor.Valid() && c in db.configs && Lined(BuildLink(ctx), db, c, n, KeepingField(ctx, db.configs[c].spec, f)) && 1 < v <= n
    requires KeepsField(ctx, db.configs[c].spec, f)
    requires v < n || Taken(ctx, db.configs[c].spec, db.versions[(c, v)]).Ok?
    requires var spec, first := db.configs[c].spec, db.versions[(c, 1)];
             TakenField(ctx, spec, first, f).Some? && (f.ServerNamesField? ==> TakenField(ctx, spec, first, DestField).Some?)
    ensures var spec, first := db.configs[c].spec, db.versions[(c, 1)];
            && TaggedField(ctx, spec, db.versions[(c, v)], f) == TakenField(ctx, spec, first, f)
            && (TaggedField(ctx, spec, db.versions[(c, v)], f) == TaggedField(ctx, spec, first, f) <==> FirstIsFound(ctx, spec, first, f))
  {
    var spec, ok, rows := db.configs[c].spec, KeepingField(ctx, db.configs[c].spec, f), RowsOf(db, c, v);
    BuildsRead(ctx);
    var specs := FirstRowsChain(ReaderOf(ctx), BuildLink(ctx), Readable(ctx), db, c, n, v, f, ok);
    assert rows[v - 1] == db.versions[(c, v)] && rows[0] == db.versions[(c, 1)];
    EndsShow(ctx, specs, rows, spec, f);
  }

  /** The two ends of a chain, read with one set of settings. */
  lemma EndsShow(ctx: Context, specs: seq<Spec>, rows: seq<VersionRow>, spec: Spec, f: Field)
    requires ctx.encryptor.Valid() && IsChain(ReaderOf(ctx), specs, rows, f) && |rows| > 1
    requires specs[0].profile == spec.profile == specs[|rows| - 1].profile
    requires TakenField(ctx, spec, rows[0], f).Some? && (f.ServerNamesField? ==> TakenField(ctx, spec, rows[0], DestField).Some?)
    ensures var last := TaggedField(ctx, spec, rows[|rows| - 1], f);
            && last == TakenField(ctx, spec, rows[0], f)
            && (last == TaggedField(ctx, spec, rows[0], f) <==> FirstIsFound(ctx, spec, rows[0], f))
  {
    SameFields(ctx, specs[0], spec, rows[0], f);
    SameFields(ctx, specs[0], spec, rows[0], DestField);
    ChainEnds(ctx, specs, rows, f);
    SameFields(ctx, specs[|rows| - 1], spec, rows[|rows| - 1], f);
  }

  /** The two ends of a chain. */
  lemma ChainEnds(ctx: Context, specs: seq<Spec>, rows: seq<VersionRow>, f: Field)
    requires ctx.encryptor.Valid() && IsChain(ReaderOf(ctx), specs, rows, f) && |rows| > 1
    requires TakenField(ctx, specs[0], rows[0], f).Some?
    requires f.ServerNamesField? ==> TakenField(ctx, specs[0], rows[0], DestField).Some?
    ensures var last := TaggedField(ctx, specs[|rows| - 1], rows[|rows| - 1], f);
            && last == TakenField(ctx, specs[0], rows[0], f)
            && (last == TaggedField(ctx, specs[0], rows[0], f) <==> FirstIsFound(ctx, specs[0], rows[0], f))
  {
    FieldKeptIff(ctx, specs, rows, f);
    ChainStarts(ctx, specs, rows, f);
    FoundIff(ctx, specs[0], rows[0], f);
  }

  lemma ChainStarts(ctx: Context, specs: seq<Spec>, rows: seq<VersionRow>, f: Field)
    requires IsChain(ReaderOf(ctx), specs, rows, f) && |rows| > 1
    ensures Link(ctx, specs[0], None, rows[0]) && !specs[0].profile.Hysteria2?
  {
    assert LinkAt(ReaderOf(ctx), specs, rows, 0) && LinkAt(ReaderOf(ctx), specs, rows, 1);
    assert ReaderOf(ctx).keeps(specs[1], f);
  }

  lemma SameFields(ctx: Context, a: Spec, b: Spec, row: VersionRow, f: Field)
    requires a.profile == b.profile
    ensures TakenField(ctx, a, row, f) == TakenField(ctx, b, row, f) && TaggedField(ctx, a, row, f) == TaggedField(ctx, b, row, f)
    ensures FirstIsFound(ctx, a, row, f) == FirstIsFound(ctx, b, row, f)
  {
    SameValues(ctx, a, b, row, f);
    SameTemplate(ctx, a, b, f);
  }

  lemma SameValues(ctx: Context, a: Spec, b: Spec, row: VersionRow, f: Field)
    requires a.profile == b.profile
    ensures TakenField(ctx, a, row, f) == TakenField(ctx, b, row, f) && TaggedField(ctx, a, row, f) == TaggedField(ctx, b, row, f)
  {
    SameReader(ctx, a, b, row);
  }

  lemma SameTemplate(ctx: Context, a: Spec, b: Spec, f: Field)
    requires a.profile == b.profile
    ensures TemplateRival(ctx, a, f) == TemplateRival(ctx, b, f)
  {
  }

  lemma FoundIff(ctx: Context, spec: Spec, first: VersionRow, f: Field)
    requires ctx.encryptor.Valid() && !spec.profile.Hysteria2? && Link(ctx, spec, None, first) && TakenField(ctx, spec, first, f).Some?
    ensures TakenField(ctx, spec, first, f) == TaggedField(ctx, spec, first, f) <==> FirstIsFound(ctx, spec, first, f)
  {
    if TaggedField(ctx, spec, first, f).Some? {
      TakenFromRow(ctx, spec, None, first, f);
    }
  }

  // ---- Ports and certificates of single versions ----

  /** Any policy. */
  function AnyPolicy(policy: Option<Policy>): bool { true }

  /** In every run without edits every stored row of the config decrypts to a document that listens on the
      port of the row, one of the profile's candidates. */
  lemma RunRowsListen(ctx: Context, states: seq<State>, steps: seq<Step>, i: nat, c: ConfigId, v: Version)
    requires ctx.encryptor.Valid() && IsRun(PanelWorld(ctx), states, steps) && i <= |steps| && c in states[i].db.configs
    requires NeverEdited(states, steps, i, c) && (c, v) in states[i].db.versions
    ensures var spec, row := states[i].db.configs[c].spec, states[i].db.versions[(c, v)];
            && Known(ctx, spec) && PlainConfig(ctx.encryptor, spec.profile, row).Ok?
            && ListeningPort(spec.profile, PlainConfig(ctx.encryptor, spec.profile, row).value, ctx.settings.profiles[spec.profile]) == Ok(row.port)
            && row.port in ctx.settings.profiles[spec.profile].portCandidates
  {
    var n := RunIsLined(ctx, states, steps, i, c, AnyPolicy);
    assert BuiltAt(BuildLink(ctx), states[i].db, c, v, AnyPolicy);
    var spec := SpecAt(BuildLink(ctx), states[i].db, c, v, AnyPolicy);
    BuiltRowListens(ctx, spec, Predecessor(states[i].db, c, v), states[i].db.versions[(c, v)]);
  }

  lemma BuiltRowListens(ctx: Context, spec: Spec, previous: Option<VersionRow>, row: VersionRow)
    requires ctx.encryptor.Valid() && Builds(ctx, spec, previous, row)
    ensures Known(ctx, spec) && PlainConfig(ctx.encryptor, spec.profile, row).Ok?
    ensures ListeningPort(spec.profile, PlainConfig(ctx.encryptor, spec.profile, row).value, ctx.settings.profiles[spec.profile]) == Ok(row.port)
    ensures row.port in ctx.settings.profiles[spec.profile].portCandidates
  {
    var used: set<int>, draws: Draws, files: Written :|
      draws.Valid() && BuildVersion(ctx, spec, previous, used, draws) == Ok(Stored(row, files));
    StoredMatchesFiles(ctx, spec, previous, used, draws, Stored(row, files));
  }

  lemma {:induction false} LinedPairs(ctx: Context, db: Tables, c: ConfigId, n: nat, v: Version)
    requires ctx.encryptor.Valid() && ctx.certs.Valid() && Lined(BuildLink(ctx), db, c, n, AnyPolicy) && 1 <= v <= n
    requires !db.configs[c].spec.profile.XrayReality? && NoExternalPair(ctx, db.configs[c].spec)
    ensures PanelPair(ctx, db.versions[(c, v)])
    decreases v
  {
    assert BuiltAt(BuildLink(ctx), db, c, v, AnyPolicy);
    if v > 1 {
      LinedPairs(ctx, db, c, n, v - 1);
    }
    var spec := SpecAt(BuildLink(ctx), db, c, v, AnyPolicy);
    var name := BuiltPair(ctx, spec, Predecessor(db, c, v), db.versions[(c, v)]);
  }

  /** Whether the certificate covers the name does not depend on the policy. */
  lemma SameCover(ctx: Context, a: Spec, b: Spec, row: VersionRow)
    requires a == b.(policy := a.policy) && Known(ctx, a)
    ensures Covered(ctx, a, row) == Covered(ctx, b, row) && NameIsServed(ctx, a, row) == NameIsServed(ctx, b, row)
  {
  }

  /** In every run without edits the certificate of every stored version fits its key and covers the name
      that the version's document, and so its share link, makes clients expect: always for xHTTP and
      Hysteria2, for gRPC exactly when that name is one that certificates are issued for as it stands. */
  lemma RunCertificatesCover(ctx: Context, states: seq<State>, steps: seq<Step>, i: nat, c: ConfigId, v: Version)
    requires ctx.encryptor.Valid() && ctx.certs.Valid()
    requires IsRun(PanelWorld(ctx), states, steps) && i <= |steps| && c in states[i].db.configs
    requires NeverEdited(states, steps, i, c) && (c, v) in states[i].db.versions
    requires !states[i].db.configs[c].spec.profile.XrayReality? && NoExternalPair(ctx, states[i].db.configs[c].spec)
    ensures var spec, row := states[i].db.configs[c].spec, states[i].db.versions[(c, v)];
            Covered(ctx, spec, row) <==> NameIsServed(ctx, spec, row)
  {
    var db := states[i].db;
    var n := RunIsLined(ctx, states, steps, i, c, AnyPolicy);
    assert BuiltAt(BuildLink(ctx), db, c, v, AnyPolicy);
    if v > 1 {
      LinedPairs(ctx, db, c, n, v - 1);
    }
    var spec := SpecAt(BuildLink(ctx), db, c, v, AnyPolicy);
    BuiltIsCovered(ctx, spec, Predecessor(db, c, v), db.versions[(c, v)]);
    SameCover(ctx, spec, db.configs[c].spec, db.versions[(c, v)]);
  }
}
