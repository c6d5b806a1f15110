/** The request path of the client as a function of what a call starts from: the token cache, the
    clock, the token endpoint and the answers to its API requests. */
module Calls {
  import opened Outcomes
  import opened TokenCache
  import opened World

  /** The answer to one API request: its body if it decodes, and whether the server acted on it. */
  datatype ApiReply<+B> =
    | Lost(effect: bool)
    | Reply(status: int, body: Option<B>, effect: bool)

  /** The server as a call finds it: what it answers to each attempt of a request. */
  type Api<+B> = (Request, nat) -> ApiReply<B>

  /** The answers to the attempts of one request. */
  function AnswersTo<B>(api: Api<B>, q: Request): nat -> ApiReply<B> {
    (attempt: nat) => api(q, attempt)
  }

  /** Whether do decodes the body, or has no result to decode into and answers with `value`. */
  datatype Into<+B> = Decode | Ignore(value: B)

  const KEY_ATTRIBUTES_DIFFERENT := 260

  /** What do makes of an answer that it does not replay: it succeeds exactly when an answer arrived
      whose status is below 400 and not 260, and whose body decodes if a result is wanted. */
  function Judge<B>(reply: ApiReply<B>, into: Into<B>): (r: Result<B>)
    ensures r.Ok? <==>
              && reply.Reply? && reply.status < 400 && reply.status != 260
              && (into.Decode? ==> reply.body.Some?)
    ensures r.Ok? ==> r.value == if into.Ignore? then into.value else reply.body.value
    ensures r.Err? ==>
              r.error == if reply.Lost? then Transport
                         else if reply.status >= 400 || reply.status == 260 then Api(reply.status)
                         else Garbled
  {
    match reply
    case Lost(_) => Err(Transport)
    case Reply(status, body, _) =>
      if status >= 400 || status == KEY_ATTRIBUTES_DIFFERENT then Err(Api(status))
      else if into.Ignore? then Ok(into.value)
      else if body.None? then Err(Garbled)
      else Ok(body.value)
  }

  predicate Unauthorized<B>(reply: ApiReply<B>) {
    reply.Reply? && reply.status == 401
  }

  /** The answer that decides an authenticated call: the second one if the first is a 401. */
  function Deciding<B>(serve: nat -> ApiReply<B>): ApiReply<B> {
    if Unauthorized(serve(0)) then serve(1) else serve(0)
  }

  /** The answer on which an authenticated request to the server ends: after a first 401, the next one. */
  function FinalAnswer<B>(api: Api<B>, q: Request): ApiReply<B> {
    if api(q, 0).Reply? && api(q, 0).status == 401 then api(q, 1) else api(q, 0)
  }

  /** What the environment holds fixed. */
  datatype Setting = Setting(p: Policy, clock: nat -> int, answers: nat -> Result<Issue>)

  /** What a call changes: the cache, and the record of what was asked so far. */
  datatype Env = Env(cache: Cache, ticks: nat, posts: seq<Grant>, sent: seq<Sent>, effects: nat)

  /** How a token source answers GetToken, as a step from one environment to the next. */
  type TokenFetch = Env -> (Env, Result<string>)

  function TokenRun(x: Setting, e: Env): (Env, Result<string>) {
    var t := GetToken(x.p, e.cache, x.clock, e.ticks, x.answers, |e.posts|);
    (e.(cache := t.cache, ticks := t.ticks, posts := e.posts + t.posts), t.result)
  }

  function Tokens(x: Setting): TokenFetch {
    (e: Env) => TokenRun(x, e)
  }

  /** A token source sends no API request and posts at most two grants a call. */
  ghost predicate Modest(tokens: TokenFetch) {
    forall e: Env ::
      && tokens(e).0.sent == e.sent && tokens(e).0.effects == e.effects
      && e.posts <= tokens(e).0.posts && |tokens(e).0.posts| <= |e.posts| + 2
  }

  lemma TokensAreModest(x: Setting)
    ensures Modest(Tokens(x))
  {
  }

  /** Every token is obtained. */
  ghost predicate Willing(tokens: TokenFetch) {
    forall e: Env :: tokens(e).1.Ok?
  }

  lemma TokensAreWilling(x: Setting)
    requires forall n: nat :: Vet(x.p, x.answers(n)).Ok?
    ensures Willing(Tokens(x))
  {
  }

  /** newRequest: the bearer of an authenticated request. */
  function BearerRun(tokens: TokenFetch, e: Env, authenticated: bool): (Env, Result<Option<string>>) {
    if !authenticated then (e, Ok(None))
    else
      var (e1, token) := tokens(e);
      (e1, if token.Ok? then Ok(Some(token.value)) else Err(token.error))
  }

  function SendRun(e: Env, q: Request, bearer: Option<string>, effect: bool): Env {
    e.(sent := e.sent + [Sent(q, bearer)], effects := e.effects + if effect then 1 else 0)
  }

  function RequestsOf(sent: seq<Sent>): seq<Request> {
    seq(|sent|, i requires 0 <= i < |sent| => sent[i].request)
  }

  lemma RequestsJoin(s0: seq<Sent>, s1: seq<Sent>, s2: seq<Sent>)
    requires s0 <= s1 <= s2
    ensures RequestsOf(s2[|s0|..]) == RequestsOf(s1[|s0|..]) + RequestsOf(s2[|s1|..])
  {
    assert s2[|s0|..] == s1[|s0|..] + s2[|s1|..];
  }

  /** A 401 answer means that the server did nothing. */
  ghost predicate Harmless<B(!new)>(serve: nat -> ApiReply<B>) {
    forall i: nat :: Unauthorized(serve(i)) ==> !serve(i).effect
  }

  function Effect<B>(reply: ApiReply<B>): nat {
    if reply.effect then 1 else 0
  }

  /** do from the given attempt on: token, request, and one replay after a 401 on attempt 0. */
  function DoFrom<B>(
    tokens: TokenFetch, e: Env, q: Request, authenticated: bool, serve: nat -> ApiReply<B>, into: Into<B>, attempt: nat)
    : (Env, Result<B>)
    requires attempt <= 1
    decreases 1 - attempt
  {
    var (e1, bearer) := BearerRun(tokens, e, authenticated);
    if bearer.Err? then (e1, Err(bearer.error))
    else
      var reply := serve(attempt);
      var e2 := SendRun(e1, q, bearer.value, reply.effect);
      if Unauthorized(reply) && authenticated && attempt == 0 then
        DoFrom(tokens, e2.(cache := Invalidate(e2.cache)), q, authenticated, serve, into, 1)
      else (e2, Judge(reply, into))
  }

  function Do<B>(
    tokens: TokenFetch, e: Env, q: Request, authenticated: bool, serve: nat -> ApiReply<B>, into: Into<B>)
    : (Env, Result<B>)
  {
    DoFrom(tokens, e, q, authenticated, serve, into, 0)
  }

  lemma DoUnfolds<B>(
    tokens: TokenFetch, e: Env, q: Request, authenticated: bool, serve: nat -> ApiReply<B>, into: Into<B>, attempt: nat)
    requires attempt <= 1
    ensures var (e1, bearer) := BearerRun(tokens, e, authenticated);
            DoFrom(tokens, e, q, authenticated, serve, into, attempt) ==
              if bearer.Err? then (e1, Err(bearer.error))
              else
                var e2 := SendRun(e1, q, bearer.value, serve(attempt).effect);
                if Unauthorized(serve(attempt)) && authenticated && attempt == 0 then
                  DoFrom(tokens, e2.(cache := Invalidate(e2.cache)), q, authenticated, serve, into, 1)
                else (e2, Judge(serve(attempt), into))
  {
  }

  /** The n requests for q at the end of what was sent. */
  ghost predicate SentLast(before: Env, after: Env, q: Request, n: nat) {
    && |after.sent| == |before.sent| + n && before.sent <= after.sent
    && forall i | |before.sent| <= i < |after.sent| :: after.sent[i].request == q
  }

  /** A do sends its request at most twice, posts at most four grants, and when it succeeds the answer
      it decodes is the deciding one: it sent twice exactly if the first answer was a 401. */
  lemma DoAccounts<B(!new)>(
    tokens: TokenFetch, e: Env, q: Request, authenticated: bool, serve: nat -> ApiReply<B>, into: Into<B>)
    requires Modest(tokens)
    ensures var (e', r) := Do(tokens, e, q, authenticated, serve, into);
            var n := |e'.sent| - |e.sent|;
            && 0 <= n <= 2 && SentLast(e, e', q, n)
            && e.posts <= e'.posts && |e'.posts| <= |e.posts| + (if authenticated then 4 else 0)
            && (!authenticated ==> e'.cache == e.cache && n == 1 && r == Judge(serve(0), into))
            && (authenticated && r.Ok? ==>
                  r == Judge(Deciding(serve), into) && n == if Unauthorized(serve(0)) then 2 else 1)
            && (authenticated && r.Err? && r != Judge(Deciding(serve), into) ==>
                  n == 0 || (n == 1 && Unauthorized(serve(0))))
  {
  }

  /** The requests of a do and their bearers: none without a token when one is needed; the first with the
      token that GetToken returned, or with none if it is not authenticated; and a second one, exactly after
      a first 401 for which another token is obtained, with that token. The rest of its environment is what
      the token source leaves, and its result the failure to get a token or the verdict on its last answer. */
  lemma DoSends<B>(
    tokens: TokenFetch, e: Env, q: Request, authenticated: bool, serve: nat -> ApiReply<B>, into: Into<B>)
    ensures !authenticated ==>
              Do(tokens, e, q, authenticated, serve, into) ==
              (e.(sent := e.sent + [Sent(q, None)], effects := e.effects + Effect(serve(0))), Judge(serve(0), into))
    ensures authenticated ==>
              var (e1, first) := tokens(e);
              var (e', r) := Do(tokens, e, q, authenticated, serve, into);
              if first.Err? then (e', r) == (e1, Err(first.error))
              else
                var e2 := e1.(sent := e1.sent + [Sent(q, Some(first.value))], effects := e1.effects + Effect(serve(0)));
                if !(serve(0).Reply? && serve(0).status == 401) then (e', r) == (e2, Judge(serve(0), into))
                else
                  var (e3, second) := tokens(e2.(cache := e2.cache.(access := "")));
                  if second.Err? then (e', r) == (e3, Err(second.error))
                  else
                    && e' == e3.(sent := e3.sent + [Sent(q, Some(second.value))],
                                 effects := e3.effects + Effect(serve(1)))
                    && r == Judge(serve(1), into)
  {
    DoUnfolds(tokens, e, q, authenticated, serve, into, 0);
    if authenticated {
      var (e1, first) := tokens(e);
      if first.Ok? {
        var e2 := SendRun(e1, q, Some(first.value), serve(0).effect);
        assert e2 == e1.(sent := e1.sent + [Sent(q, Some(first.value))], effects := e1.effects + Effect(serve(0)));
        var (e3, second) := tokens(e2.(cache := Invalidate(e2.cache)));
        DoUnfolds(tokens, e2.(cache := Invalidate(e2.cache)), q, authenticated, serve, into, 1);
        if second.Ok? {
          assert SendRun(e3, q, Some(second.value), serve(1).effect) ==
                 e3.(sent := e3.sent + [Sent(q, Some(second.value))], effects := e3.effects + Effect(serve(1)));
        }
      }
    }
  }

  /** The cached token can be used from now on. */
  ghost predicate Usable(x: Setting, e: Env) {
    forall i: nat | e.ticks <= i :: AccessUsable(x.p, e.cache, x.clock(i))
  }

  /** Since e, only requests with the cached token were sent: no grant was posted and the cache is the same. */
  ghost predicate SameToken(e: Env, e': Env) {
    && e'.cache == e.cache && e'.posts == e.posts && e.ticks <= e'.ticks && e.sent <= e'.sent
    && forall i | |e.sent| <= i < |e'.sent| :: e'.sent[i].bearer == Some(e.cache.access)
  }

  /** A token that can be used and is not rejected is sent as it is. */
  lemma LiveTokenSuffices<B>(x: Setting, e: Env, q: Request, serve: nat -> ApiReply<B>, into: Into<B>)
    requires Usable(x, e) && !(serve(0).Reply? && serve(0).status == 401)
    ensures SameToken(e, Do(Tokens(x), e, q, true, serve, into).0)
    ensures Usable(x, Do(Tokens(x), e, q, true, serve, into).0)
  {
    assert AccessUsable(x.p, e.cache, x.clock(e.ticks));
    DoSends(Tokens(x), e, q, true, serve, into);
  }

  lemma SameTokenOn(e: Env, e1: Env, e2: Env)
    requires SameToken(e, e1) && SameToken(e1, e2)
    ensures SameToken(e, e2)
  {
  }

  /** When every token is obtained the deciding answer alone makes the result. */
  lemma DoDecided<B>(tokens: TokenFetch, e: Env, q: Request, serve: nat -> ApiReply<B>, into: Into<B>)
    requires Willing(tokens)
    ensures Do(tokens, e, q, true, serve, into).1 == Judge(Deciding(serve), into)
  {
  }

  /** When a 401 means no effect, a do has at most one effect on the server, exactly one if it succeeds
      and success means that the server acted. */
  lemma DoEffects<B(!new)>(
    tokens: TokenFetch, e: Env, q: Request, authenticated: bool, serve: nat -> ApiReply<B>, into: Into<B>)
    requires Modest(tokens)
    requires Harmless(serve)
    ensures var (e', r) := Do(tokens, e, q, authenticated, serve, into);
            && e.effects <= e'.effects <= e.effects + 1
            && (r.Ok? ==> e'.effects == e.effects + Effect(if authenticated then Deciding(serve) else serve(0)))
  {
  }

  /** Without a cached access token, a token is the one that the last posted grant was answered with. */
  lemma RenewalAnswers(x: Setting, e: Env)
    requires e.cache.access == ""
    ensures var (e', r) := TokenRun(x, e);
            |e'.posts| > |e.posts| &&
            (r.Ok? ==> var last := Vet(x.p, x.answers(|e'.posts| - 1)); last.Ok? && last.value.access == r.value)
  {
  }

  /** The replay carries a token that was granted in answer to a grant posted after the 401. */
  lemma ReplayCarriesFreshToken<B(!new)>(
    x: Setting, e: Env, q: Request, serve: nat -> ApiReply<B>, into: Into<B>)
    requires |Do(Tokens(x), e, q, true, serve, into).0.sent| == |e.sent| + 2
    ensures var (e', r) := Do(Tokens(x), e, q, true, serve, into);
            var (e1, first) := TokenRun(x, e);
            && Unauthorized(serve(0)) && first.Ok? && |e'.posts| > |e1.posts|
            && e'.sent == e.sent + [Sent(q, Some(first.value)), e'.sent[|e.sent| + 1]]
            && var last := Vet(x.p, x.answers(|e'.posts| - 1));
               last.Ok? && e'.sent[|e.sent| + 1] == Sent(q, Some(last.value.access))
  {
    var tokens := Tokens(x);
    var (e1, first) := tokens(e);
    DoUnfolds(tokens, e, q, true, serve, into, 0);
    if first.Ok? && Unauthorized(serve(0)) {
      var e2 := SendRun(e1, q, Some(first.value), serve(0).effect);
      var e3 := e2.(cache := Invalidate(e2.cache));
      DoUnfolds(tokens, e3, q, true, serve, into, 1);
      RenewalAnswers(x, e3);
    }
  }
}
