/** The public share endpoint (panel/api/routers/share.py): it commits the session of a request on success and
    on its two expected errors, and a request that ends in any other error is rolled back, count and all. */
module ShareRouter {
  import opened FieldCrypto
  import opened Store
  import opened Settings
  import opened Repository
  import opened ResolveShare
  import RateLimit

  /** What all requests have in common. */
  datatype Site = Site(settings: PanelSettings, encryptor: Encryptor, limit: int, windowSeconds: nat) {
    predicate Valid()
    {
      windowSeconds > 0 && limit != 0
    }
  }

  /** A request, and the rows of the panel that it meets. */
  datatype Request = Request(db: Tables, hash: string, clientIp: string, now: nat, order: seq<ConfigId>, draws: nat -> nat)

  function CallOf(site: Site, q: Request): (c: RateLimit.Call)
    requires site.Valid()
    ensures c.Valid()
  {
    RateLimit.Call("share" + ":" + ("ip:" + q.clientIp), site.limit, site.windowSeconds, q.now)
  }

  /** What the token resolves to, apart from the limiter. */
  function Resolution(site: Site, q: Request): Resolved
  {
    ResolveToken(q.db, site.settings, site.encryptor, q.hash, q.now, q.order, q.draws)
  }

  function Answer(site: Site, counts: RateLimit.Counts, q: Request): Resolved
    requires site.Valid()
  {
    if !RateLimit.Admits(counts, CallOf(site, q)) then LimitExceeded else Resolution(site, q)
  }

  /** The counts that the request leaves behind. */
  function CountsOn(site: Site, counts: RateLimit.Counts, q: Request): RateLimit.Counts
    requires site.Valid()
  {
    if Answer(site, counts, q).Broken? then counts else RateLimit.Counted(counts, CallOf(site, q))
  }

  class Router {
    const database: Database
    const site: Site
    var counts: RateLimit.Counts

    constructor (database: Database, site: Site)
      ensures this.database == database && this.site == site && counts == map[]
    {
      this.database, this.site, this.counts := database, site, map[];
    }

    /** One request with its own session. */
    method ResolveShare(hash: string, clientIp: string, now: nat, order: seq<ConfigId>, draws: nat -> nat) returns (r: Resolved)
      requires site.Valid()
      modifies this, database
      ensures var q := Request(old(database.rows), hash, clientIp, now, order, draws);
              && r == Answer(site, old(counts), q) && counts == CountsOn(site, old(counts), q)
      ensures !r.Links? ==> database.rows == old(database.rows)
      ensures r.Links? ==> hash in old(database.rows).tokens
      ensures r.Links? ==> database.rows == old(database.rows).(tokens := old(database.rows).tokens[hash := Accessed(old(database.rows).tokens[hash], now)])
    {
      var session := new Session(database);
      var limiter := new RateLimit.RateLimiter();
      limiter.counts := counts;
      var shares := new ShareTokenRepository(session);
      var useCase := new ResolveShareUseCase(site.settings, site.encryptor, session, shares, limiter, site.limit, site.windowSeconds);
      r := useCase.Execute(hash, clientIp, now, order, draws);
      if !r.Broken? {
        session.Commit();
        counts := limiter.counts;
      }
    }
  }

  // ---- Any number of requests, one after the other, whatever happens to the rows in between ----

  ghost function CountsRun(site: Site, asked: seq<Request>): RateLimit.Counts
    requires site.Valid()
  {
    if asked == [] then map[] else CountsOn(site, CountsRun(site, asked[..|asked| - 1]), asked[|asked| - 1])
  }

  /** How many requests of a client's window did not end in an unexpected error. */
  ghost function Kept(site: Site, asked: seq<Request>, row: (string, nat)): nat
    requires site.Valid()
  {
    if asked == [] then 0
    else
      var before, q := asked[..|asked| - 1], asked[|asked| - 1];
      Kept(site, before, row) + if CallOf(site, q).Row() == row && !Answer(site, CountsRun(site, before), q).Broken? then 1 else 0
  }

  /** How many of those were let through by the limiter. */
  ghost function Served(site: Site, asked: seq<Request>, row: (string, nat)): nat
    requires site.Valid()
  {
    if asked == [] then 0
    else
      var before, q := asked[..|asked| - 1], asked[|asked| - 1];
      var answer := Answer(site, CountsRun(site, before), q);
      Served(site, before, row) + if CallOf(site, q).Row() == row && !answer.Broken? && !answer.LimitExceeded? then 1 else 0
  }

  /** The committed count is the number of requests that did not end in an unexpected error. */
  lemma {:induction false} CountIsKept(site: Site, asked: seq<Request>, row: (string, nat))
    requires site.Valid()
    ensures RateLimit.CountOf(CountsRun(site, asked), row) == Kept(site, asked, row)
  {
    if asked != [] {
      CountIsKept(site, asked[..|asked| - 1], row);
    }
  }

  /** A request is refused exactly when its window has seen the limit of such requests before it. */
  lemma LimitedIff(site: Site, asked: seq<Request>, q: Request)
    requires site.Valid()
    ensures Answer(site, CountsRun(site, asked), q).LimitExceeded? <==> Kept(site, asked, CallOf(site, q).Row()) >= site.limit
  {
    CountIsKept(site, asked, CallOf(site, q).Row());
    TokenIsNotLimited(site, q);
  }

  lemma TokenIsNotLimited(site: Site, q: Request)
    ensures !Resolution(site, q).LimitExceeded?
  {
  }

  /** Every window answers the first requests that do not end in an unexpected error, up to the limit. */
  lemma {:induction false} WindowServes(site: Site, asked: seq<Request>, row: (string, nat))
    requires site.Valid() && site.limit > 0
    ensures Served(site, asked, row) == RateLimit.Min(Kept(site, asked, row), site.limit)
  {
    if asked != [] {
      var before, q := asked[..|asked| - 1], asked[|asked| - 1];
      WindowServes(site, before, row);
      LimitedIff(site, before, q);
    }
  }

  /** A link whose document cannot be read is never limited: however often it is asked for, every answer is
      the unexpected error and no count remains. */
  lemma {:induction false} UnreadableIsNeverLimited(site: Site, asked: seq<Request>, q: Request)
    requires site.Valid() && site.limit > 0 && Resolution(site, q).Broken?
    requires forall i :: 0 <= i < |asked| ==> Resolution(site, asked[i]).Broken?
    ensures CountsRun(site, asked) == map[] && Answer(site, CountsRun(site, asked), q).Broken?
  {
    if asked != [] {
      UnreadableIsNeverLimited(site, asked[..|asked| - 1], asked[|asked| - 1]);
    }
  }
}
