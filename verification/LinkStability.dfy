/** A pinned share link keeps giving the same address, whatever happens to the config afterwards. */
module LinkStability {
  import opened Wrappers
  import opened JsonTree
  import opened FieldCrypto
  import opened Store
  import opened Settings
  import opened ShareExpiry
  import opened ConfigBuilder
  import opened ConfigBuild
  import opened Lifecycle
  import opened LifecycleTheorems
  import opened LifecycleLinks
  import opened ShareUri
  import opened ProbeAgrees
  import opened ResolveShare

  /** Nothing in the link of this snapshot is drawn at random. */
  ghost predicate Settled(settings: PanelSettings, e: Encryptor, s: Snapshot)
  {
    s.profile.XrayReality? && s.profile in settings.profiles && PlainConfig(e, s.profile, s.row).Ok? ==>
      var inbound := FindInbound(PlainConfig(e, s.profile, s.row).value, settings.profiles[s.profile].inboundTag);
      inbound.Ok? ==> Steady(IndexedReality(inbound.value))
  }

  lemma SettledLink(profile: Profile, config: Json, ps: ProfileSettings, t: Terms, draw: nat)
    requires LinkOf(profile, config, ps, t).Ok?
    requires profile.XrayReality? ==> Steady(IndexedReality(FindInbound(config, ps.inboundTag).value))
    ensures LinkOf(profile, config, ps, t.(draw := draw)) == LinkOf(profile, config, ps, t)
  {
    if profile.XrayReality? {
      SteadyReading(FindInbound(config, ps.inboundTag).value, t.draw, draw);
    }
  }

  /** A settled snapshot has the same link on every draw. */
  lemma SettledUris(settings: PanelSettings, e: Encryptor, s: Snapshot, secure: bool, a: nat, b: nat)
    requires UrisForSnapshot(settings, e, s, secure, a).Ok? && Settled(settings, e, s)
    ensures UrisForSnapshot(settings, e, s, secure, b) == UrisForSnapshot(settings, e, s, secure, a)
  {
    var plain := PlainConfig(e, s.profile, s.row).value;
    var ps := settings.profiles[s.profile];
    var t := Terms(ShareHost(settings, ps, s.publicHost), s.row.publicKey, s.row.fingerprint, secure, a);
    SettledLink(s.profile, plain, ps, t, b);
  }

  /** A link pinned to a version gives the same addresses at any later moment at which it is still
      valid, through any run of regenerations, failures, redeliveries and deletions that does not edit
      that version, and whatever is drawn in between. */
  lemma PinnedLinkStable(world: World, states: seq<State>, steps: seq<Step>, i: nat, j: nat, hash: string,
                         settings: PanelSettings, e: Encryptor, order: seq<ConfigId>, order': seq<ConfigId>,
                         draws: nat -> nat, draws': nat -> nat)
    requires IsRun(world, states, steps) && i <= j <= |steps|
    requires hash in states[i].db.tokens && states[i].db.tokens[hash].config.Some? && states[i].db.tokens[hash].version.Some?
    requires var t := states[i].db.tokens[hash];
             && NoEdit(states, steps, i, j, t.config.value, t.version.value)
             && (GetSnapshot(states[i].db, t.config.value, t.version.value).Some? ==>
                  Settled(settings, e, GetSnapshot(states[i].db, t.config.value, t.version.value).value))
    requires ResolveToken(states[i].db, settings, e, hash, states[i].now, order, draws).Links?
    ensures hash in states[j].db.tokens
    ensures Accepted(states[j].db.tokens[hash], states[j].now) ==>
              ResolveToken(states[j].db, settings, e, hash, states[j].now, order', draws')
              == ResolveToken(states[i].db, settings, e, hash, states[i].now, order, draws)
    ensures !Accepted(states[j].db.tokens[hash], states[j].now) ==>
              ResolveToken(states[j].db, settings, e, hash, states[j].now, order', draws') == NotFound
  {
    var t := states[i].db.tokens[hash];
    TokenRun(world, states, steps, i, j, hash);
    SnapshotStable(world, states, steps, i, j, t.config.value, t.version.value);
    SettledUris(settings, e, GetSnapshot(states[i].db, t.config.value, t.version.value).value, t.secure, draws(0), draws'(0));
  }
}
