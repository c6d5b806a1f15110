/** oauth2: the Keycloak token source. Every grant overwrites all four cache fields. */
module Keycloak {
  import opened Outcomes
  import opened TokenCache
  import opened World

  /** What an accepted response leaves: all four fields overwritten, also by a response without tokens. */
  lemma AcceptedResponse(c: Cache, g: Grant, i: Issue, clock: nat -> int, k: nat)
    ensures TokenCache.Request(KEYCLOAK, c, g, Ok(i), clock, k) ==
              Turn(
                Cache(i.access, At(clock(k) + i.expiresIn), i.refresh, At(clock(k + 1) + i.refreshIn)),
                Ok(i.access), [g], k + 2)
  {
  }

  /** When the cached token is returned, and, if it is not, when the refresh token is posted first: each only
      before its expiry. */
  lemma WhatIsPosted(c: Cache, clock: nat -> int, k: nat, answers: nat -> Result<Issue>, n: nat)
    ensures var t := TokenCache.GetToken(KEYCLOAK, c, clock, k, answers, n);
            var now2 := clock(if c.access != "" then k + 1 else k);
            && (t.posts == [] <==> c.access != "" && c.accessExpiry.At? && clock(k) < c.accessExpiry.when)
            && (t.posts != [] ==>
                  t.posts[0] ==
                  if c.refresh != "" && c.refreshExpiry.At? && now2 < c.refreshExpiry.when then Refresh(c.refresh)
                  else Password)
  {
  }

  class OAuth2 {
    var held: bool // the mutex
    var accessToken: string
    var accessTokenExpiry: Instant
    var refreshToken: string
    var refreshTokenExpiry: Instant

    ghost function Contents(): Cache
      reads this
    {
      Cache(accessToken, accessTokenExpiry, refreshToken, refreshTokenExpiry)
    }

    constructor ()
      ensures !held && Contents() == COLD
    {
      held := false;
      accessToken, accessTokenExpiry := "", Zero;
      refreshToken, refreshTokenExpiry := "", Zero;
    }

    /** requestToken; the caller holds the mutex. */
    method RequestToken(w: World, g: Grant) returns (r: Result<string>)
      requires held
      modifies this`accessToken, this`accessTokenExpiry, this`refreshToken, this`refreshTokenExpiry, w`ticks, w`posts
      ensures w.posts == old(w.posts) + [g]
      ensures Turn(Contents(), r, [g], w.ticks) ==
                TokenCache.Request(KEYCLOAK, old(Contents()), g, w.Typed()(|old(w.posts)|), w.clock, old(w.ticks))
    {
      var resp := w.Post(g);
      if resp.Unreachable? {
        return Err(Transport);
      }
      if resp.status >= 400 {
        return Err(Api(resp.status));
      }
      if resp.typed.None? {
        return Err(Garbled);
      }
      var tr := resp.typed.value;
      accessToken := tr.access;
      var now := w.Now();
      accessTokenExpiry := At(now + tr.expiresIn);

      refreshToken := tr.refresh;
      now := w.Now();
      refreshTokenExpiry := At(now + tr.refreshIn);
      return Ok(accessToken);
    }

    /** The second half of GetToken: the refresh grant if it may be posted, then the password grant. */
    method Renew(w: World) returns (r: Result<string>)
      requires held
      modifies this`accessToken, this`accessTokenExpiry, this`refreshToken, this`refreshTokenExpiry, w`ticks, w`posts
      ensures var turn := TokenCache.Renew(
                  KEYCLOAK, old(Contents()), w.clock, old(w.ticks), w.Typed(), |old(w.posts)|);
              && Contents() == turn.cache && r == turn.result
              && w.ticks == turn.ticks && w.posts == old(w.posts) + turn.posts
    {
      if refreshToken != "" {
        var now := w.Now();
        if Before(now, refreshTokenExpiry) {
          r := RequestToken(w, Refresh(refreshToken));
          if r.Ok? {
            return r;
          }
          if !r.error.Api? || r.error.status >= 500 {
            return r;
          }
          refreshToken := "";
        }
      }
      r := RequestToken(w, Password);
    }

    /** GetToken: the cached token, or a renewed one; takes and releases the mutex. */
    method GetToken(w: World) returns (r: Result<string>)
      requires !held
      modifies this, w`ticks, w`posts
      ensures !held
      ensures var turn := TokenCache.GetToken(
                  KEYCLOAK, old(Contents()), w.clock, old(w.ticks), w.Typed(), |old(w.posts)|);
              && Contents() == turn.cache && r == turn.result
              && w.ticks == turn.ticks && w.posts == old(w.posts) + turn.posts
    {
      held := true;
      if accessToken != "" {
        var now := w.Now();
        if Before(now, accessTokenExpiry) {
          held := false;
          return Ok(accessToken);
        }
      }
      r := Renew(w);
      held := false;
    }

    /** InvalidateToken: drops the access token and nothing else. */
    method InvalidateToken()
      requires !held
      modifies this
      ensures !held && Contents() == Invalidate(old(Contents()))
    {
      held := true;
      accessToken := "";
      held := false;
    }
  }
}
