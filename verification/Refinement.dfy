/** The cache without its encoding: each token is either absent or held together with the expiry
    that came in its own response. The cache of TokenCache, where "" means absent and an expiry
    field may outlive its token, behaves exactly like this one. */
module Refinement {
  import opened Outcomes
  import opened TokenCache

  datatype Held = Held(token: string, expiry: Instant)

  datatype Vault = Vault(access: Option<Held>, refresh: Option<Held>)

  function Holding(token: string, expiry: Instant): Option<Held> {
    if token == "" then None else Some(Held(token, expiry))
  }

  /** What a cache stands for. The expiry of a refresh token counts only where the policy looks at it. */
  function View(p: Policy, c: Cache): Vault {
    Vault(Holding(c.access, c.accessExpiry), Holding(c.refresh, if p.refreshLapses then c.refreshExpiry else Zero))
  }

  /** The tokens of a response, each with its own expiry. */
  function Issued(p: Policy, i: Issue, now1: int, now2: int): Vault {
    Vault(
      Holding(i.access, if p.zeroIsForever && i.expiresIn <= 0 then Zero else At(now1 + i.expiresIn)),
      Holding(i.refresh, if p.refreshLapses then At(now2 + i.refreshIn) else Zero))
  }

  predicate Forever(p: Policy, h: Held) {
    p.zeroIsForever && h.expiry == Zero
  }

  predicate Live(p: Policy, access: Option<Held>, now: int) {
    access.Some? && (Forever(p, access.value) || Before(now, access.value.expiry))
  }

  predicate Renewable(p: Policy, refresh: Option<Held>, now: int) {
    refresh.Some? && (p.refreshLapses ==> Before(now, refresh.value.expiry))
  }

  datatype VaultTurn = VaultTurn(vault: Vault, result: Result<string>, posts: seq<Grant>, ticks: nat)

  function Exchange(
    p: Policy, v: Vault, g: Grant, reply: Result<Issue>, clock: nat -> int, k: nat): VaultTurn
  {
    match reply
    case Err(e) => VaultTurn(v, Err(e), [g], k)
    case Ok(i) =>
      if i.access == "" && p.refusesEmpty then VaultTurn(v, Err(NoToken), [g], k)
      else
        var k1 := if p.zeroIsForever && i.expiresIn <= 0 then k else k + 1;
        var got := Issued(p, i, clock(k), clock(k1));
        if got.refresh.None? && p.keepsRefresh then
          VaultTurn(Vault(got.access, v.refresh), Ok(i.access), [g], k1)
        else
          VaultTurn(got, Ok(i.access), [g], if p.refreshLapses then k1 + 1 else k1)
  }

  function Replace(p: Policy, v: Vault, clock: nat -> int, k: nat, answers: nat -> Result<Issue>, n: nat): VaultTurn {
    var k1 := if v.refresh.Some? && p.refreshLapses then k + 1 else k;
    if !Renewable(p, v.refresh, clock(k)) then Exchange(p, v, Password, answers(n), clock, k1)
    else
      var g := Refresh(v.refresh.value.token);
      match answers(n)
      case Err(Api(status)) =>
        if status >= 500 then VaultTurn(v, Err(Api(status)), [g], k1)
        else
          var second := Exchange(p, v.(refresh := None), Password, answers(n + 1), clock, k1);
          second.(posts := [g, Password])
      case _ => Exchange(p, v, g, answers(n), clock, k1)
  }

  function Obtain(p: Policy, v: Vault, clock: nat -> int, k: nat, answers: nat -> Result<Issue>, n: nat): VaultTurn {
    var k1 := if v.access.Some? && !Forever(p, v.access.value) then k + 1 else k;
    if Live(p, v.access, clock(k)) then VaultTurn(v, Ok(v.access.value.token), [], k1)
    else Replace(p, v, clock, k1, answers, n)
  }

  /** The calls that reach a token source; `status` is the answer to a remote logout, if any. */
  datatype Op = Get | Drop | Logout(status: Option<int>)

  datatype Output =
    | Got(result: Result<string>, posts: seq<Grant>)
    | Dropped
    | LoggedOut(outcome: Result<()>)

  /** A source after one operation: cache, output, and how many readings and answers are used up. */
  datatype After<C> = After(cache: C, output: Output, ticks: nat, posted: nat)

  function Apply(
    p: Policy, c: Cache, op: Op, clock: nat -> int, k: nat, answers: nat -> Result<Issue>, n: nat): After<Cache>
  {
    match op
    case Get =>
      var t := GetToken(p, c, clock, k, answers, n);
      After(t.cache, Got(t.result, t.posts), t.ticks, n + |t.posts|)
    case Drop => After(Invalidate(c), Dropped, k, n)
    case Logout(status) =>
      if !p.logsOutRemotely then After(Invalidate(c), LoggedOut(Ok(())), k, n)
      else After(RemoteLogout(c, status).0, LoggedOut(RemoteLogout(c, status).1), k, n)
  }

  function ApplyVault(
    p: Policy, v: Vault, op: Op, clock: nat -> int, k: nat, answers: nat -> Result<Issue>, n: nat): After<Vault>
  {
    match op
    case Get =>
      var t := Obtain(p, v, clock, k, answers, n);
      After(t.vault, Got(t.result, t.posts), t.ticks, n + |t.posts|)
    case Drop => After(v.(access := None), Dropped, k, n)
    case Logout(status) =>
      if !p.logsOutRemotely then After(v.(access := None), LoggedOut(Ok(())), k, n)
      else if v == Vault(None, None) then After(v, LoggedOut(Ok(())), k, n)
      else match status
        case None => After(v, LoggedOut(Err(Transport)), k, n)
        case Some(s) =>
          if s >= 400 then After(v, LoggedOut(Err(Api(s))), k, n)
          else After(Vault(None, None), LoggedOut(Ok(())), k, n)
  }

  /** Everything a source answers over a sequence of operations. */
  function Outputs(
    p: Policy, c: Cache, ops: seq<Op>, clock: nat -> int, k: nat, answers: nat -> Result<Issue>, n: nat): seq<Output>
    decreases |ops|
  {
    if ops == [] then []
    else
      var a := Apply(p, c, ops[0], clock, k, answers, n);
      [a.output] + Outputs(p, a.cache, ops[1..], clock, a.ticks, answers, a.posted)
  }

  function VaultOutputs(
    p: Policy, v: Vault, ops: seq<Op>, clock: nat -> int, k: nat, answers: nat -> Result<Issue>, n: nat): seq<Output>
    decreases |ops|
  {
    if ops == [] then []
    else
      var a := ApplyVault(p, v, ops[0], clock, k, answers, n);
      [a.output] + VaultOutputs(p, a.cache, ops[1..], clock, a.ticks, answers, a.posted)
  }

  lemma ExchangeRefines(p: Policy, c: Cache, g: Grant, reply: Result<Issue>, clock: nat -> int, k: nat)
    ensures var t := Request(p, c, g, reply, clock, k);
            Exchange(p, View(p, c), g, reply, clock, k) == VaultTurn(View(p, t.cache), t.result, t.posts, t.ticks)
  {
  }

  lemma ReplaceRefines(p: Policy, c: Cache, clock: nat -> int, k: nat, answers: nat -> Result<Issue>, n: nat)
    ensures var t := Renew(p, c, clock, k, answers, n);
            Replace(p, View(p, c), clock, k, answers, n) == VaultTurn(View(p, t.cache), t.result, t.posts, t.ticks)
  {
    var k1 := k + RefreshTestReads(p, c);
    if !RefreshUsable(p, c, clock(k)) {
      ExchangeRefines(p, c, Password, answers(n), clock, k1);
    } else if Declines(answers(n)) {
      ExchangeRefines(p, DropRefresh(c), Password, answers(n + 1), clock, k1);
    } else {
      ExchangeRefines(p, c, Refresh(c.refresh), answers(n), clock, k1);
    }
  }

  lemma ObtainRefines(p: Policy, c: Cache, clock: nat -> int, k: nat, answers: nat -> Result<Issue>, n: nat)
    ensures var t := GetToken(p, c, clock, k, answers, n);
            Obtain(p, View(p, c), clock, k, answers, n) == VaultTurn(View(p, t.cache), t.result, t.posts, t.ticks)
  {
    ReplaceRefines(p, c, clock, k + AccessTestReads(p, c), answers, n);
  }

  /** One operation: same output, same use of clock and server, and the caches still correspond. */
  lemma StepRefines(
    p: Policy, c: Cache, op: Op, clock: nat -> int, k: nat, answers: nat -> Result<Issue>, n: nat)
    ensures var a := Apply(p, c, op, clock, k, answers, n);
            ApplyVault(p, View(p, c), op, clock, k, answers, n) == After(View(p, a.cache), a.output, a.ticks, a.posted)
  {
    ObtainRefines(p, c, clock, k, answers, n);
  }

  /** Logout on each of the three sources: on the two OAuth2 sources it always succeeds and drops the access
      token; on the self-managed source it drops both tokens, or fails and keeps both. */
  lemma LogoutOfEachSource(
    c: Cache, status: Option<int>, clock: nat -> int, k: nat, answers: nat -> Result<Issue>, n: nat)
    ensures Apply(KEYCLOAK, c, Logout(status), clock, k, answers, n) ==
            After(c.(access := ""), LoggedOut(Ok(())), k, n)
    ensures Apply(OIDC, c, Logout(status), clock, k, answers, n) == After(c.(access := ""), LoggedOut(Ok(())), k, n)
    ensures var accepted := (c.access == "" && c.refresh == "") || (status.Some? && status.value < 400);
            Apply(SELF_MANAGED, c, Logout(status), clock, k, answers, n) ==
            if accepted then After(c.(access := "", refresh := ""), LoggedOut(Ok(())), k, n)
            else After(c, LoggedOut(Err(if status.None? then Transport else Api(status.value))), k, n)
  {
  }

  /** Over every sequence of operations the cache answers as its view does. */
  lemma {:induction false} RunRefines(
    p: Policy, c: Cache, ops: seq<Op>, clock: nat -> int, k: nat, answers: nat -> Result<Issue>, n: nat)
    ensures Outputs(p, c, ops, clock, k, answers, n) == VaultOutputs(p, View(p, c), ops, clock, k, answers, n)
    decreases |ops|
  {
    if ops != [] {
      var a := Apply(p, c, ops[0], clock, k, answers, n);
      StepRefines(p, c, ops[0], clock, k, answers, n);
      RunRefines(p, a.cache, ops[1..], clock, a.ticks, answers, a.posted);
    }
  }

  /** So an expiry left behind by a cleared token, or one the policy never looks at, changes no answer, ever. */
  lemma StaleExpiryIsInert(
    p: Policy, c: Cache, d: Cache, ops: seq<Op>, clock: nat -> int, k: nat, answers: nat -> Result<Issue>, n: nat)
    requires c.access == d.access && (c.access != "" ==> c.accessExpiry == d.accessExpiry)
    requires c.refresh == d.refresh && (c.refresh != "" && p.refreshLapses ==> c.refreshExpiry == d.refreshExpiry)
    ensures Outputs(p, c, ops, clock, k, answers, n) == Outputs(p, d, ops, clock, k, answers, n)
  {
    RunRefines(p, c, ops, clock, k, answers, n);
    RunRefines(p, d, ops, clock, k, answers, n);
  }
}
