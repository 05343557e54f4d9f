/** Validity of share links (panel/application/share_expiration.py and the reading side in
    repositories/share_token.py and resolve_share.py). Time is an integer instant. */
module ShareExpiry {
  import opened Wrappers
  import opened Store

  datatype Expiration = Expiration(isPermanent: bool, expiresAt: Option<int>)

  function ResolveShareExpiration(isPermanent: bool, expiresAt: Option<int>, ttlSeconds: Option<int>, now: int): Result<Expiration>
  {
    if ttlSeconds.Some? then
      if ttlSeconds.value <= 0 then Raised
      else if expiresAt.Some? then Raised
      else if isPermanent then Raised
      else Ok(Expiration(false, Some(now + ttlSeconds.value)))
    else if isPermanent then
      if expiresAt.Some? then Raised else Ok(Expiration(true, None))
    else if expiresAt.None? then Raised
    else if expiresAt.value <= now then Raised
    else Ok(Expiration(false, expiresAt))
  }

  /** Exactly one of the three request forms is accepted; what comes out is either permanent
      without an instant or expires strictly later than now. */
  lemma ExpirationWellFormed(isPermanent: bool, expiresAt: Option<int>, ttlSeconds: Option<int>, now: int)
    ensures var r := ResolveShareExpiration(isPermanent, expiresAt, ttlSeconds, now);
            && (r.Ok? <==>
                  || (isPermanent && expiresAt.None? && ttlSeconds.None?)
                  || (!isPermanent && expiresAt.None? && ttlSeconds.Some? && ttlSeconds.value > 0)
                  || (!isPermanent && ttlSeconds.None? && expiresAt.Some? && expiresAt.value > now))
            && (r.Ok? ==> r.value.isPermanent == isPermanent
                          && (r.value.isPermanent <==> r.value.expiresAt.None?)
                          && (r.value.expiresAt.Some? ==> r.value.expiresAt.value > now))
  {
  }

  /** The filter of `list_active`; a missing expiry compares as SQL NULL, so it is not listed. */
  predicate Listed(t: Token, now: int)
  {
    && t.revokedAt.None?
    && (t.isPermanent || (t.expiresAt.Some? && t.expiresAt.value > now))
  }

  /** The checks of `resolve` before it looks for the version. */
  predicate Accepted(t: Token, now: int)
  {
    && t.revokedAt.None?
    && !(!t.isPermanent && t.expiresAt.Some? && t.expiresAt.value <= now)
  }

  predicate WellFormed(t: Token)
  {
    && (t.isPermanent <==> t.expiresAt.None?)
    && (t.config.Some? <==> t.version.Some?)
  }

  /** The two readings of one row agree at every instant exactly when a live row that is not
      permanent has an expiry. */
  lemma ListedIffAccepted(t: Token)
    ensures (forall now :: Listed(t, now) <==> Accepted(t, now))
            <==> (t.revokedAt.Some? || t.isPermanent || t.expiresAt.Some?)
  {
    if t.revokedAt.None? && !t.isPermanent && t.expiresAt.None? {
      assert Accepted(t, 0) && !Listed(t, 0);
    }
  }
}
