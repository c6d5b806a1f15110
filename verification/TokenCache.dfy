/** The token cache shared by the three token sources, as values and functions.

    A `Policy` says where the three sources differ. `GetToken` composes the steps
    that the methods of the sources perform on their fields; the interleaved
    protocol uses the same steps one at a time. */
module TokenCache {
  import opened Outcomes

  /** keepsRefresh: a response without a refresh token leaves the old one cached.
      refreshLapses: the refresh token's own expiry is checked before it is posted.
      zeroIsForever: an access token without an expiry is used until it is rejected.
      refusesEmpty: a response without an access token is an error.
      logsOutRemotely: Logout posts the tokens to the server and clears both. */
  datatype Policy = Policy(
    keepsRefresh: bool, refreshLapses: bool, zeroIsForever: bool, refusesEmpty: bool, logsOutRemotely: bool)

  const KEYCLOAK := Policy(false, true, false, false, false)
  const OIDC := Policy(true, false, true, true, false)
  const SELF_MANAGED := Policy(true, true, false, false, true)

  /** A decoded token response; lifetimes are in clock units. */
  datatype Issue = Issue(access: string, refresh: string, expiresIn: int, refreshIn: int)

  /** The cache fields as the sources hold them: "" is "no token", and an expiry may be stale. */
  datatype Cache = Cache(access: string, accessExpiry: Instant, refresh: string, refreshExpiry: Instant)

  const COLD := Cache("", Zero, "", Zero)

  /** What is posted to the token endpoint. */
  datatype Grant = Password | Refresh(token: string)

  predicate AccessUsable(p: Policy, c: Cache, now: int) {
    c.access != "" && ((p.zeroIsForever && c.accessExpiry.Zero?) || Before(now, c.accessExpiry))
  }

  predicate RefreshUsable(p: Policy, c: Cache, now: int) {
    c.refresh != "" && (p.refreshLapses ==> Before(now, c.refreshExpiry))
  }

  /** Whether the response leaves the cached refresh token in place. */
  predicate Retains(p: Policy, i: Issue) {
    p.keepsRefresh && i.refresh == ""
  }

  predicate Timeless(p: Policy, i: Issue) {
    p.zeroIsForever && i.expiresIn <= 0
  }

  function Store(p: Policy, c: Cache, i: Issue, now1: int, now2: int): Cache {
    Cache(
      i.access,
      if Timeless(p, i) then Zero else At(now1 + i.expiresIn),
      if Retains(p, i) then c.refresh else i.refresh,
      if Retains(p, i) || !p.refreshLapses then c.refreshExpiry else At(now2 + i.refreshIn))
  }

  function Invalidate(c: Cache): Cache {
    c.(access := "")
  }

  function DropRefresh(c: Cache): Cache {
    c.(refresh := "")
  }

  function Clear(c: Cache): Cache {
    c.(access := "", refresh := "")
  }

  /** A response the source does not accept becomes an error that is not an APIError. */
  function Vet(p: Policy, reply: Result<Issue>): Result<Issue> {
    if reply.Ok? && p.refusesEmpty && reply.value.access == "" then Err(NoToken) else reply
  }

  /** A refresh grant answered like this drops the refresh token and falls back. */
  predicate Declines(reply: Result<Issue>) {
    reply.Err? && reply.error.Api? && reply.error.status < 500
  }

  /** The clock readings taken while a response is stored: for the access expiry, then the refresh expiry. */
  function AccessReads(p: Policy, i: Issue): nat {
    if Timeless(p, i) then 0 else 1
  }

  function RefreshReads(p: Policy, i: Issue): nat {
    if Retains(p, i) || !p.refreshLapses then 0 else 1
  }

  /** The state a step of a token source leaves behind: cache, result, grants posted, clock readings taken. */
  datatype Turn = Turn(cache: Cache, result: Result<string>, posts: seq<Grant>, ticks: nat)

  /** requestToken: one posted grant, answered by `reply`. */
  function Request(p: Policy, c: Cache, g: Grant, reply: Result<Issue>, clock: nat -> int, k: nat): Turn {
    match Vet(p, reply)
    case Err(e) => Turn(c, Err(e), [g], k)
    case Ok(i) =>
      var k1 := k + AccessReads(p, i);
      Turn(Store(p, c, i, clock(k), clock(k1)), Ok(i.access), [g], k1 + RefreshReads(p, i))
  }

  /** The number of readings taken to test the cached access token, then the cached refresh token. */
  function AccessTestReads(p: Policy, c: Cache): nat {
    if c.access != "" && !(p.zeroIsForever && c.accessExpiry.Zero?) then 1 else 0
  }

  function RefreshTestReads(p: Policy, c: Cache): nat {
    if c.refresh != "" && p.refreshLapses then 1 else 0
  }

  /** The rest of GetToken, once the cached access token cannot be used. */
  function Renew(p: Policy, c: Cache, clock: nat -> int, k: nat, answers: nat -> Result<Issue>, n: nat): Turn {
    var k1 := k + RefreshTestReads(p, c);
    if !RefreshUsable(p, c, clock(k)) then Request(p, c, Password, answers(n), clock, k1)
    else if !Declines(answers(n)) then Request(p, c, Refresh(c.refresh), answers(n), clock, k1)
    else
      var second := Request(p, DropRefresh(c), Password, answers(n + 1), clock, k1);
      second.(posts := [Refresh(c.refresh), Password])
  }

  /** GetToken: the n-th and later answers of the token endpoint, the k-th and later clock readings.

      Every call posts nothing, one grant, or a refresh grant followed by a password grant, the last
      exactly when a refresh grant was answered with an APIError below 500. A token that may have
      lapsed is neither returned nor posted. A failed call changes nothing but the refresh token,
      and that only when the server declined it. */
  function GetToken(p: Policy, c: Cache, clock: nat -> int, k: nat, answers: nat -> Result<Issue>, n: nat): (t: Turn)
    ensures t.posts in [[], [Password], [Refresh(c.refresh)], [Refresh(c.refresh), Password]]
    ensures |t.posts| == 2 <==> |t.posts| >= 1 && t.posts[0].Refresh? && Declines(answers(n))
    ensures t.posts == [] ==> t.cache == c && t.result == Ok(c.access) && AccessUsable(p, c, clock(k))
    ensures |t.posts| >= 1 && t.posts[0].Refresh? ==>
              RefreshUsable(p, c, clock(k + AccessTestReads(p, c))) && !AccessUsable(p, c, clock(k))
    ensures t.result.Err? ==> t.cache == if |t.posts| == 2 then c.(refresh := "") else c
    ensures t.result.Ok? ==> t.cache.access == t.result.value && (p.refusesEmpty ==> t.result.value != "")
  {
    var k1 := k + AccessTestReads(p, c);
    if AccessUsable(p, c, clock(k)) then Turn(c, Ok(c.access), [], k1)
    else Renew(p, c, clock, k1, answers, n)
  }

  /** Logout of a source that posts the tokens; `status` is None when no answer arrived. It succeeds exactly
      if there is nothing to deactivate or the answer accepts it, and then leaves no token; a failure changes
      nothing. */
  function RemoteLogout(c: Cache, status: Option<int>): (t: (Cache, Result<()>))
    ensures t.1.Ok? <==> (c.access == "" && c.refresh == "") || (status.Some? && status.value < 400)
    ensures t.1.Ok? ==> t.0.access == "" && t.0.refresh == ""
    ensures t.1.Err? ==> t.0 == c && t.1.error == if status.None? then Transport else Api(status.value)
  {
    if c.access == "" && c.refresh == "" then (c, Ok(()))
    else if status.None? then (c, Err(Transport))
    else if status.value >= 400 then (c, Err(Api(status.value)))
    else (Clear(c), Ok(()))
  }

  /** Client.Logout is documented to make later calls authenticate with the stored credentials.
      On a source without remote logout it only invalidates the access token, so the next call
      posts the password grant first exactly when no refresh token would be posted anyway. */
  lemma LocalLogoutThenCredentials(
    p: Policy, c: Cache, clock: nat -> int, k: nat, answers: nat -> Result<Issue>, n: nat)
    ensures var t := GetToken(p, Invalidate(c), clock, k, answers, n);
            t.posts != [] && (t.posts[0] == Password <==>
              c.refresh == "" || (p.refreshLapses && !Before(clock(k), c.refreshExpiry)))
  {
  }

  /** A successful remote logout always leads to the stored credentials. */
  lemma RemoteLogoutThenCredentials(
    p: Policy, c: Cache, status: Option<int>, clock: nat -> int, k: nat, answers: nat -> Result<Issue>, n: nat)
    requires RemoteLogout(c, status).1.Ok?
    ensures GetToken(p, RemoteLogout(c, status).0, clock, k, answers, n).posts == [Password]
  {
  }
}
