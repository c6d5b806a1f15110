/** oidcAuth: the token source of generic OIDC providers. An access token without an expiry is
    used until it is rejected, and a response must carry an access token. */
module Oidc {
  import opened Outcomes
  import opened TokenCache
  import opened PropertyNames
  import opened World

  /** What an accepted response leaves: an expiry only if one was given, and the old refresh token if none was. A
      response without an access token is an error that changes nothing. */
  lemma AcceptedResponse(c: Cache, g: Grant, i: Issue, clock: nat -> int, k: nat)
    ensures i.access == "" ==> TokenCache.Request(OIDC, c, g, Ok(i), clock, k) == Turn(c, Err(NoToken), [g], k)
    ensures i.access != "" ==>
              TokenCache.Request(OIDC, c, g, Ok(i), clock, k) ==
              Turn(
                Cache(
                  i.access,
                  if i.expiresIn > 0 then At(clock(k) + i.expiresIn) else Zero,
                  if i.refresh != "" then i.refresh else c.refresh,
                  c.refreshExpiry),
                Ok(i.access), [g], if i.expiresIn > 0 then k + 1 else k)
  {
  }

  /** When the cached token is returned, and, if it is not, when the refresh token is posted first: whenever
      there is one. */
  lemma WhatIsPosted(c: Cache, clock: nat -> int, k: nat, answers: nat -> Result<Issue>, n: nat)
    ensures var t := TokenCache.GetToken(OIDC, c, clock, k, answers, n);
            && (t.posts == [] <==>
                  c.access != "" && (c.accessExpiry.Zero? || clock(k) < c.accessExpiry.when))
            && (t.posts != [] ==> t.posts[0] == if c.refresh != "" then Refresh(c.refresh) else Password)
  {
  }

  class OidcAuth {
    const cases: Cases
    const tokenProperty: string
    var held: bool // the mutex
    var accessToken: string
    var accessTokenExpiry: Instant
    var refreshToken: string

    ghost function Contents(): Cache
      reads this
    {
      Cache(accessToken, accessTokenExpiry, refreshToken, Zero)
    }

    constructor (cases: Cases, tokenProperty: string)
      ensures this.cases == cases && this.tokenProperty == tokenProperty
      ensures !held && Contents() == COLD
    {
      this.cases, this.tokenProperty := cases, tokenProperty;
      held := false;
      accessToken, accessTokenExpiry, refreshToken := "", Zero, "";
    }

    /** The end of requestToken: an accepted response overwrites the cache. */
    method StoreFields(w: World, raw: map<string, Json>, token: string)
      modifies this`accessToken, this`accessTokenExpiry, this`refreshToken, w`ticks
      ensures accessToken == token
      ensures var lives := "expires_in" in raw && raw["expires_in"].Number? && raw["expires_in"].n > 0;
              && accessTokenExpiry ==
                   (if lives then At(w.clock(old(w.ticks)) + raw["expires_in"].n) else Zero)
              && w.ticks == old(w.ticks) + if lives then 1 else 0
      ensures refreshToken ==
                if "refresh_token" in raw && raw["refresh_token"].Text? && raw["refresh_token"].s != ""
                then raw["refresh_token"].s
                else old(refreshToken)
    {
      accessToken := token;
      accessTokenExpiry := Zero;
      if "expires_in" in raw && raw["expires_in"].Number? && raw["expires_in"].n > 0 {
        var now := w.Now();
        accessTokenExpiry := At(now + raw["expires_in"].n);
      }
      if "refresh_token" in raw && raw["refresh_token"].Text? && raw["refresh_token"].s != "" {
        refreshToken := raw["refresh_token"].s;
      }
    }

    /** requestToken; the caller holds the mutex. */
    method RequestToken(w: World, g: Grant) returns (r: Result<string>)
      requires held
      modifies this`accessToken, this`accessTokenExpiry, this`refreshToken, w`ticks, w`posts
      ensures w.posts == old(w.posts) + [g]
      ensures Turn(Contents(), r, [g], w.ticks) ==
                TokenCache.Request(
                  OIDC, old(Contents()), g, w.Fields(cases, tokenProperty)(|old(w.posts)|), w.clock, old(w.ticks))
    {
      var resp := w.Post(g);
      if resp.Unreachable? {
        return Err(Transport);
      }
      if resp.status >= 400 {
        return Err(Api(resp.status));
      }
      if resp.fields.None? {
        return Err(Garbled);
      }
      var raw := resp.fields.value;

      var candidates := TokenPropertyCandidates(cases, tokenProperty);
      var token := PickToken(raw, candidates);
      if token == "" {
        return Err(NoToken);
      }

      ghost var issue := Issue(token, TextOf(raw, "refresh_token"), NumberOf(raw, "expires_in"), 0);
      assert w.Fields(cases, tokenProperty)(|old(w.posts)|) == Ok(issue);
      AcceptedResponse(Contents(), g, issue, w.clock, w.ticks);
      StoreFields(w, raw, token);
      return Ok(accessToken);
    }

    /** The second half of GetToken: the refresh grant if it may be posted, then the password grant. */
    method Renew(w: World) returns (r: Result<string>)
      requires held
      modifies this`accessToken, this`accessTokenExpiry, this`refreshToken, w`ticks, w`posts
      ensures var turn := TokenCache.Renew(
                  OIDC, old(Contents()), w.clock, old(w.ticks), w.Fields(cases, tokenProperty), |old(w.posts)|);
              && Contents() == turn.cache && r == turn.result
              && w.ticks == turn.ticks && w.posts == old(w.posts) + turn.posts
    {
      if refreshToken != "" {
        r := RequestToken(w, Refresh(refreshToken));
        if r.Ok? {
          return r;
        }
        if !r.error.Api? || r.error.status >= 500 {
          return r;
        }
        refreshToken := "";
      }
      r := RequestToken(w, Password);
    }

    /** GetToken: the cached token, or a renewed one; takes and releases the mutex. */
    method GetToken(w: World) returns (r: Result<string>)
      requires !held
      modifies this, w`ticks, w`posts
      ensures !held
      ensures var turn := TokenCache.GetToken(
                  OIDC, old(Contents()), w.clock, old(w.ticks), w.Fields(cases, tokenProperty), |old(w.posts)|);
              && Contents() == turn.cache && r == turn.result
              && w.ticks == turn.ticks && w.posts == old(w.posts) + turn.posts
    {
      held := true;
      if accessToken != "" {
        if accessTokenExpiry.Zero? {
          held := false;
          return Ok(accessToken);
        }
        var now := w.Now();
        if Before(now, accessTokenExpiry) {
          held := false;
          return Ok(accessToken);
        }
      }
      r := Renew(w);
      held := false;
    }

    /** InvalidateToken: drops the access token and nothing else. */
    method InvalidateToken()
      requires !held
      modifies this
      ensures !held && Contents() == Invalidate(old(Contents()))
    {
      held := true;
      accessToken := "";
      held := false;
    }
  }
}
