/** Resolving a share link (panel/application/resolve_share.py). */
module ResolveShare {
  import opened Wrappers
  import opened FieldCrypto
  import opened Store
  import opened Settings
  import opened ShareExpiry
  import opened ConfigBuild
  import opened ShareUri
  import MuxRoutes
  import RateLimit
  import opened Repository

  // ---- The order of the links of an all-configs share ----

  function ProfileOrder(p: Profile): nat
  {
    match p
    case XrayReality => 0
    case XrayXhttp => 1
    case XrayGrpc => 2
    case Hysteria2 => 3
  }

  /** Whether `a` must come before `b`: by profile, then by name without regard to case. */
  predicate Precedes(a: Snapshot, b: Snapshot)
  {
    ProfileOrder(a.profile) < ProfileOrder(b.profile)
    || (a.profile == b.profile && MuxRoutes.Before(Lower(a.name), Lower(b.name)))
  }

  /** Add one more snapshot behind everything it need not precede. */
  function InsertLast(sorted: seq<Snapshot>, s: Snapshot): (r: seq<Snapshot>)
    ensures multiset(r) == multiset(sorted) + multiset{s}
  {
    if sorted == [] || !Precedes(s, sorted[|sorted| - 1]) then sorted + [s]
    else
      var front, last := sorted[..|sorted| - 1], sorted[|sorted| - 1];
      assert sorted == front + [last];
      InsertLast(front, s) + [last]
  }

  /** `sorted(...)` with its key; equal keys keep their order. */
  function SortSnapshots(snapshots: seq<Snapshot>): (r: seq<Snapshot>)
    ensures multiset(r) == multiset(snapshots)
  {
    if snapshots == [] then []
    else
      assert snapshots == snapshots[..|snapshots| - 1] + [snapshots[|snapshots| - 1]];
      InsertLast(SortSnapshots(snapshots[..|snapshots| - 1]), snapshots[|snapshots| - 1])
  }

  ghost predicate InOrder(s: seq<Snapshot>)
  {
    forall i, j :: 0 <= i < j < |s| ==> !Precedes(s[j], s[i])
  }

  lemma PrecedesTransitive(a: Snapshot, b: Snapshot, c: Snapshot)
    requires Precedes(a, b) && !Precedes(c, b)
    ensures !Precedes(c, a)
  {
    if a.profile == b.profile == c.profile {
      MuxRoutes.BeforeTotal(Lower(c.name), Lower(b.name));
      MuxRoutes.BeforeTotal(Lower(c.name), Lower(a.name));
      if MuxRoutes.Before(Lower(b.name), Lower(c.name)) {
        MuxRoutes.BeforeTransitive(Lower(a.name), Lower(b.name), Lower(c.name));
      }
    }
  }

  lemma PrecedesAsymmetric(a: Snapshot, b: Snapshot)
    requires Precedes(a, b)
    ensures !Precedes(b, a)
  {
    MuxRoutes.BeforeTotal(Lower(a.name), Lower(b.name));
  }

  lemma {:induction false} InsertInOrder(sorted: seq<Snapshot>, s: Snapshot)
    requires InOrder(sorted)
    ensures InOrder(InsertLast(sorted, s))
  {
    if sorted == [] {
    } else if Precedes(s, sorted[|sorted| - 1]) {
      var front, last := sorted[..|sorted| - 1], sorted[|sorted| - 1];
      InsertInOrder(front, s);
      var r := InsertLast(front, s);
      forall i | 0 <= i < |r| ensures !Precedes(last, r[i]) {
        assert r[i] in multiset(r);
        if r[i] == s {
          PrecedesAsymmetric(s, last);
        } else {
          assert r[i] in multiset(front);
          var k :| 0 <= k < |front| && front[k] == r[i];
          assert sorted[k] == r[i];
        }
      }
    } else {
      var n := |sorted|;
      forall i | 0 <= i < n ensures !Precedes(s, sorted[i]) {
        if i < n - 1 && Precedes(s, sorted[i]) {
          PrecedesTransitive(s, sorted[i], sorted[n - 1]);
          NotBehind(s, sorted[i], sorted[n - 1]);
        }
      }
    }
  }

  /** Whoever precedes one of two ordered snapshots precedes the later one too. */
  lemma NotBehind(s: Snapshot, a: Snapshot, b: Snapshot)
    requires Precedes(s, a) && !Precedes(b, a)
    ensures Precedes(s, b)
  {
    if s.profile == a.profile == b.profile {
      MuxRoutes.BeforeTotal(Lower(b.name), Lower(a.name));
      if MuxRoutes.Before(Lower(a.name), Lower(b.name)) {
        MuxRoutes.BeforeTransitive(Lower(s.name), Lower(a.name), Lower(b.name));
      }
    } else {
      assert ProfileOrder(a.profile) <= ProfileOrder(b.profile);
    }
  }

  /** The snapshots with the same key as a given one, in order. */
  function Alike(s: seq<Snapshot>, like: Snapshot): seq<Snapshot>
  {
    if s == [] then []
    else Alike(s[..|s| - 1], like) + IfAlike(s[|s| - 1], like)
  }

  predicate SameKey(a: Snapshot, b: Snapshot)
  {
    a.profile == b.profile && Lower(a.name) == Lower(b.name)
  }

  function IfAlike(s: Snapshot, like: Snapshot): seq<Snapshot>
  {
    if SameKey(s, like) then [s] else []
  }

  lemma AlikeSnoc(s: seq<Snapshot>, x: Snapshot, like: Snapshot)
    ensures Alike(s + [x], like) == Alike(s, like) + IfAlike(x, like)
  {
    assert (s + [x])[..|s|] == s;
  }

  lemma KeysDiffer(a: Snapshot, b: Snapshot, like: Snapshot)
    requires Precedes(a, b)
    ensures IfAlike(a, like) == [] || IfAlike(b, like) == []
  {
    MuxRoutes.BeforeTotal(Lower(a.name), Lower(b.name));
  }

  lemma Swapped(a: seq<Snapshot>, x: seq<Snapshot>, y: seq<Snapshot>)
    requires x == [] || y == []
    ensures a + x + y == a + y + x
  {
  }

  lemma {:induction false} InsertKeepsAlike(sorted: seq<Snapshot>, s: Snapshot, like: Snapshot)
    ensures Alike(InsertLast(sorted, s), like) == Alike(sorted, like) + IfAlike(s, like)
  {
    if sorted == [] || !Precedes(s, sorted[|sorted| - 1]) {
      AlikeSnoc(sorted, s, like);
    } else {
      var front, last := sorted[..|sorted| - 1], sorted[|sorted| - 1];
      InsertKeepsAlike(front, s, like);
      AlikeSnoc(InsertLast(front, s), last, like);
      KeysDiffer(s, last, like);
      Swapped(Alike(front, like), IfAlike(s, like), IfAlike(last, like));
    }
  }

  /** The links come by profile and name, none is lost or doubled, and equal keys keep the order in
      which the configs were created. */
  lemma {:induction false} SortIsStable(snapshots: seq<Snapshot>, like: Snapshot)
    ensures InOrder(SortSnapshots(snapshots))
    ensures multiset(SortSnapshots(snapshots)) == multiset(snapshots)
    ensures Alike(SortSnapshots(snapshots), like) == Alike(snapshots, like)
  {
    if snapshots != [] {
      var front, last := snapshots[..|snapshots| - 1], snapshots[|snapshots| - 1];
      SortIsStable(front, like);
      InsertInOrder(SortSnapshots(front), last);
      InsertKeepsAlike(SortSnapshots(front), last, like);
    }
  }

  // ---- The use case ----

  function UrisForSnapshot(settings: PanelSettings, e: Encryptor, s: Snapshot, secure: bool, draw: nat): Result<seq<string>>
  {
    var plain :- PlainConfig(e, s.profile, s.row);
    BuildClientUris(settings, s.profile, plain, s.row.publicKey, s.row.fingerprint, secure, s.publicHost, draw)
  }

  /** `list_current_version_snapshots`, the configs taken in the order of their creation. */
  function CurrentSnapshots(db: Tables, order: seq<ConfigId>): seq<Snapshot>
  {
    if order == [] then []
    else CurrentSnapshots(db, order[..|order| - 1]) + CurrentSnapshot(db, order[|order| - 1])
  }

  function CurrentSnapshot(db: Tables, c: ConfigId): seq<Snapshot>
  {
    if IsLive(db, c) && db.configs[c].status.Active? && db.configs[c].current.Some?
       && GetSnapshot(db, c, db.configs[c].current.value).Some?
    then [GetSnapshot(db, c, db.configs[c].current.value).value] else []
  }

  function AllUris(settings: PanelSettings, e: Encryptor, snapshots: seq<Snapshot>, secure: bool, draws: nat -> nat): Result<seq<string>>
  {
    if snapshots == [] then Ok([])
    else
      var n := |snapshots| - 1;
      var before :- AllUris(settings, e, snapshots[..n], secure, draws);
      var last :- UrisForSnapshot(settings, e, snapshots[n], secure, draws(n));
      Ok(before + last)
  }

  datatype Resolved = Links(uris: seq<string>) | NotFound | LimitExceeded | Broken

  function Linked(r: Result<seq<string>>): Resolved
  {
    match r
    case Ok(uris) => Links(uris)
    case Raised => Broken
  }

  /** What a token resolves to once the limiter has let the request through. */
  function ResolveToken(db: Tables, settings: PanelSettings, e: Encryptor, hash: string, now: int, order: seq<ConfigId>, draws: nat -> nat): Resolved
  {
    if hash !in db.tokens || !Accepted(db.tokens[hash], now) then NotFound
    else
      var t := db.tokens[hash];
      if t.config.None? then
        var snapshots := SortSnapshots(CurrentSnapshots(db, order));
        if snapshots == [] then NotFound else Linked(AllUris(settings, e, snapshots, t.secure, draws))
      else if t.version.None? then NotFound
      else
        match GetSnapshot(db, t.config.value, t.version.value)
        case None => NotFound
        case Some(s) => Linked(UrisForSnapshot(settings, e, s, t.secure, draws(0)))
  }

  lemma {:induction false} UnreadableRaises(settings: PanelSettings, e: Encryptor, snapshots: seq<Snapshot>, secure: bool, draws: nat -> nat, i: nat)
    requires i < |snapshots| && UrisForSnapshot(settings, e, snapshots[i], secure, draws(i)).Raised?
    ensures AllUris(settings, e, snapshots, secure, draws).Raised?
  {
    if i < |snapshots| - 1 {
      UnreadableRaises(settings, e, snapshots[..|snapshots| - 1], secure, draws, i);
    }
  }

  class ResolveShareUseCase {
    const settings: PanelSettings
    const encryptor: Encryptor
    const session: Session
    const shares: ShareTokenRepository
    const limiter: RateLimit.RateLimiter
    const limit: int
    const windowSeconds: nat

    ghost predicate Valid()
    {
      shares.session == session && windowSeconds > 0
    }

    constructor (settings: PanelSettings, encryptor: Encryptor, session: Session, shares: ShareTokenRepository,
                 limiter: RateLimit.RateLimiter, maxRequests: int, windowSeconds: nat)
      requires shares.session == session && windowSeconds > 0
      ensures Valid() && this.settings == settings && this.encryptor == encryptor && this.session == session && this.limiter == limiter
      ensures this.limit == (if maxRequests != 0 then maxRequests else 30) && this.windowSeconds == windowSeconds
    {
      this.settings, this.encryptor, this.session, this.shares := settings, encryptor, session, shares;
      this.limiter, this.limit, this.windowSeconds := limiter, if maxRequests != 0 then maxRequests else 30, windowSeconds;
    }

    method CollectUris(snapshots: seq<Snapshot>, secure: bool, draws: nat -> nat) returns (r: Result<seq<string>>)
      ensures r == AllUris(settings, encryptor, snapshots, secure, draws)
    {
      var uris: seq<string> := [];
      for i := 0 to |snapshots|
        invariant AllUris(settings, encryptor, snapshots[..i], secure, draws) == Ok(uris)
      {
        assert snapshots[..i + 1][..i] == snapshots[..i];
        var more := UrisForSnapshot(settings, encryptor, snapshots[i], secure, draws(i));
        if more.Raised? {
          UnreadableRaises(settings, encryptor, snapshots, secure, draws, i);
          return Raised;
        }
        uris := uris + more.value;
      }
      assert snapshots[..|snapshots|] == snapshots;
      return Ok(uris);
    }

    /** Every request is counted; only one that gets its links is recorded on the token. */
    method Execute(hash: string, clientIp: string, now: nat, order: seq<ConfigId>, draws: nat -> nat) returns (r: Resolved)
      requires Valid()
      modifies session, limiter
      ensures var call := RateLimit.Call("share" + ":" + ("ip:" + clientIp), limit, windowSeconds, now);
              && limiter.counts == RateLimit.Counted(old(limiter.counts), call)
              && r == (if !RateLimit.Admits(old(limiter.counts), call) then LimitExceeded
                       else ResolveToken(old(session.work), settings, encryptor, hash, now, order, draws))
      ensures !r.Links? ==> session.work == old(session.work)
      ensures r.Links? ==> hash in old(session.work).tokens
      ensures r.Links? ==> session.work == old(session.work).(tokens := old(session.work).tokens[hash := Accessed(old(session.work).tokens[hash], now)])
    {
      var admitted := limiter.CheckAndIncrement("share", "ip:" + clientIp, limit, windowSeconds, now);
      if !admitted {
        return LimitExceeded;
      }
      var db := session.work;
      if hash !in db.tokens { return NotFound; }
      var share := db.tokens[hash];
      if share.revokedAt.Some? { return NotFound; }
      if !share.isPermanent && share.expiresAt.Some? && share.expiresAt.value <= now { return NotFound; }
      var uris;
      if share.config.None? {
        var snapshots := SortSnapshots(CurrentSnapshots(db, order));
        if snapshots == [] { return NotFound; }
        uris := CollectUris(snapshots, share.secure, draws);
      } else {
        if share.version.None? { return NotFound; }
        var snapshot := GetSnapshot(db, share.config.value, share.version.value);
        if snapshot.None? { return NotFound; }
        uris := UrisForSnapshot(settings, encryptor, snapshot.value, share.secure, draws(0));
      }
      if uris.Raised? { return Broken; }
      shares.RecordAccess(hash, now);
      return Links(uris.value);
    }
  }
}
