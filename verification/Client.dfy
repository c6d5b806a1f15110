/** The client: a token source and the calls that go through it. */
module Client {
  import opened Outcomes
  import opened TokenCache
  import opened World
  import opened Keycloak
  import opened Oidc
  import opened SelfManaged
  import opened Calls
  import opened Paging
  import opened Rotation

  /** tokenSource: nil before Connect, then one of the three sources. */
  datatype Source = NotConnected | UsesKeycloak(k: OAuth2) | UsesOidc(o: OidcAuth) | UsesSelfManaged(s: SelfManagedAuth)

  class Client {
    const source: Source

    constructor (source: Source)
      ensures this.source == source
    {
      this.source := source;
    }

    ghost function Parts(): set<object> {
      match source
      case NotConnected => {}
      case UsesKeycloak(k) => {k}
      case UsesOidc(o) => {o}
      case UsesSelfManaged(s) => {s}
    }

    /** No call is inside the mutex of the token source. */
    ghost predicate Free()
      reads Parts()
    {
      match source
      case NotConnected => true
      case UsesKeycloak(k) => !k.held
      case UsesOidc(o) => !o.held
      case UsesSelfManaged(s) => !s.held
    }

    ghost function Contents(): Cache
      reads Parts()
    {
      match source
      case NotConnected => COLD
      case UsesKeycloak(k) => k.Contents()
      case UsesOidc(o) => o.Contents()
      case UsesSelfManaged(s) => s.Contents()
    }

    /** The policy of the source, the clock and the token endpoint as the source reads it. */
    ghost function In(w: World): Setting {
      match source
      case NotConnected => Setting(KEYCLOAK, w.clock, w.Typed())
      case UsesKeycloak(_) => Setting(KEYCLOAK, w.clock, w.Typed())
      case UsesOidc(o) => Setting(OIDC, w.clock, w.Fields(o.cases, o.tokenProperty))
      case UsesSelfManaged(_) => Setting(SELF_MANAGED, w.clock, w.Typed())
    }

    ghost function Now(w: World): Env
      reads Parts(), w
    {
      Env(Contents(), w.ticks, w.posts, w.sent, w.effects)
    }

    /** The token source's GetToken. */
    method GetToken(w: World) returns (r: Result<string>)
      requires !source.NotConnected? && Free()
      modifies Parts(), w`ticks, w`posts
      ensures Free() && (Now(w), r) == Tokens(In(w))(old(Now(w)))
    {
      match source
      case UsesKeycloak(k) => r := k.GetToken(w);
      case UsesOidc(o) => r := o.GetToken(w);
      case UsesSelfManaged(s) => r := s.GetToken(w);
    }

    /** The token source's InvalidateToken; it leaves the world alone. */
    method InvalidateToken(ghost w: World)
      requires !source.NotConnected? && Free()
      modifies Parts()
      ensures Free() && Now(w) == old(Now(w)).(cache := Invalidate(old(Contents())))
    {
      match source
      case UsesKeycloak(k) => k.InvalidateToken();
      case UsesOidc(o) => o.InvalidateToken();
      case UsesSelfManaged(s) => s.InvalidateToken();
    }

    /** Logout: on the server and locally for a self-managed source, locally for the others, where
        only the access token is dropped. */
    method Logout(w: World, status: Option<int>) returns (r: Result<()>)
      requires Free()
      modifies Parts(), w`logouts
      ensures Free()
      ensures source.NotConnected? ==> r == Ok(()) && w.logouts == old(w.logouts)
      ensures source.UsesSelfManaged? ==>
                && (Contents(), r) == RemoteLogout(old(Contents()), status)
                && w.logouts == old(w.logouts) +
                     if old(Contents().access) == "" && old(Contents().refresh) == "" then []
                     else [(old(Contents().access), old(Contents().refresh))]
      ensures source.UsesKeycloak? || source.UsesOidc? ==>
                Contents() == Invalidate(old(Contents())) && r == Ok(()) && w.logouts == old(w.logouts)
    {
      if source.NotConnected? {
        return Ok(());
      }
      if source.UsesSelfManaged? {
        r := source.s.Logout(w, status);
        return;
      }
      InvalidateToken(w);
      return Ok(());
    }

    /** newRequest: the bearer token of an authenticated request, and none for the others. */
    method NewRequest(w: World, authenticated: bool) returns (r: Result<Option<string>>)
      requires authenticated ==> !source.NotConnected?
      requires Free()
      modifies Parts(), w`ticks, w`posts
      ensures Free() && (Now(w), r) == BearerRun(Tokens(In(w)), old(Now(w)), authenticated)
    {
      if !authenticated {
        return Ok(None);
      }
      var token := GetToken(w);
      if token.Err? {
        return Err(token.error);
      }
      return Ok(Some(token.value));
    }

    /** One request on the wire. */
    method Send(w: World, q: Request, bearer: Option<string>, effect: bool)
      requires Free()
      modifies w`sent, w`effects
      ensures Free() && Now(w) == SendRun(old(Now(w)), q, bearer, effect)
    {
      w.Send(q, bearer, effect);
    }

    /** do: one API request, replayed once with a fresh token after a 401. */
    method Do<B>(w: World, q: Request, authenticated: bool, serve: nat -> ApiReply<B>, into: Into<B>)
      returns (r: Result<B>)
      requires Free()
      modifies Parts(), w`ticks, w`posts, w`sent, w`effects
      ensures Free()
      ensures authenticated && source.NotConnected? ==> r == Err(Failure.NotConnected) && Now(w) == old(Now(w))
      ensures !(authenticated && source.NotConnected?) ==>
                (Now(w), r) == Calls.Do(Tokens(In(w)), old(Now(w)), q, authenticated, serve, into)
    {
      if authenticated && source.NotConnected? {
        return Err(Failure.NotConnected);
      }
      ghost var tokens := Tokens(In(w));
      ghost var goal := Calls.Do(tokens, Now(w), q, authenticated, serve, into);
      var attempt := 0;
      while true
        invariant Free() && 0 <= attempt <= 1
        invariant DoFrom(tokens, Now(w), q, authenticated, serve, into, attempt) == goal
        decreases 1 - attempt
      {
        DoUnfolds(tokens, Now(w), q, authenticated, serve, into, attempt);
        var bearer := NewRequest(w, authenticated);
        if bearer.Err? {
          return Err(bearer.error);
        }
        var resp := serve(attempt);
        Send(w, q, bearer.value, resp.effect);
        if resp.Reply? && resp.status == 401 && authenticated && attempt == 0 {
          InvalidateToken(w);
          attempt := attempt + 1;
          continue;
        }
        return Judge(resp, into);
      }
    }

    /** This is how a page of the list is fetched by way of do. */
    ghost predicate FetchesPages<T>(
      w: World, path: string, api: Api<Envelope<T>>, fetch: PageFetch<T>)
    {
      !source.NotConnected? ==>
        forall e: Env, q: Request, page: nat
          {:trigger Calls.Do(Tokens(In(w)), e, q, true, AnswersTo(api, q), Decode), PageRequest(path, page)} ::
          q == PageRequest(path, page) ==>
            fetch(e, page) == Calls.Do(Tokens(In(w)), e, q, true, AnswersTo(api, q), Decode)
    }

    /** The request for one page. */
    method FetchPage<T>(
      w: World, path: string, api: Api<Envelope<T>>, page: nat, ghost fetch: PageFetch<T>)
      returns (r: Result<Envelope<T>>)
      requires Free() && FetchesPages(w, path, api, fetch)
      modifies Parts(), w`ticks, w`posts, w`sent, w`effects
      ensures Free()
      ensures source.NotConnected? ==> r == Err(Failure.NotConnected) && Now(w) == old(Now(w))
      ensures !source.NotConnected? ==> (Now(w), r) == fetch(old(Now(w)), page)
    {
      var q := PageRequest(path, page);
      r := Do(w, q, true, AnswersTo(api, q), Decode);
    }

    /** The loop of fetchAllPages: appends page after page until one stops. */
    method AppendPages<T>(
      w: World, path: string, api: Api<Envelope<T>>, ghost fetch: PageFetch<T>)
      returns (r: Result<seq<T>>)
      requires Free() && FetchesPages(w, path, api, fetch)
      modifies Parts(), w`ticks, w`posts, w`sent, w`effects
      ensures Free()
      ensures source.NotConnected? ==> r == Err(Failure.NotConnected) && Now(w) == old(Now(w))
      ensures !source.NotConnected? ==> (Now(w), r) == FetchFrom(fetch, old(Now(w)), 0)
    {
      var all: seq<T> := [];
      var page := 0;
      ghost var goal := FetchFrom(fetch, Now(w), 0);
      PrefixedByNothing(goal.1);
      while true
        invariant Free() && page <= MAX_INT
        invariant source.NotConnected? ==> Now(w) == old(Now(w))
        invariant !source.NotConnected? ==> Finish(fetch, Now(w), page, all) == goal
        decreases MAX_INT - page
      {
        FinishUnfolds(fetch, Now(w), page, all);
        var result := FetchPage(w, path, api, page, fetch);
        if result.Err? {
          return Err(result.error);
        }
        all := all + result.value.content;
        if result.value.last || |result.value.content| == 0 || page >= LessOne(result.value.totalPages) {
          return Ok(all);
        }
        page := page + 1;
      }
    }

    /** fetchAllPages: every page of a list, one after the other. */
    method FetchAllPages<T>(w: World, path: string, api: Api<Envelope<T>>)
      returns (r: Result<seq<T>>)
      requires Free()
      modifies Parts(), w`ticks, w`posts, w`sent, w`effects
      ensures Free()
      ensures source.NotConnected? ==> r == Err(Failure.NotConnected) && Now(w) == old(Now(w))
      ensures !source.NotConnected? ==> (Now(w), r) == FetchAll(Tokens(In(w)), old(Now(w)), path, api)
    {
      r := AppendPages(w, path, api, Fetcher(Tokens(In(w)), path, api));
    }

    /** The end of RotateKey; it leaves client and world alone. */
    method Infer(ghost w: World, before: seq<Id>, after: seq<Id>, key: Id) returns (r: Rotated)
      requires Free()
      ensures Free() && Now(w) == old(Now(w)) && r == Conclude(before, Ok(after), key)
    {
      var successor, ok := NewKeyLink(before, after, key);
      r := if ok then Successor(successor) else Unknown(None);
      match source
      case NotConnected =>
      case UsesKeycloak(k) => assert k.held == old(k.held) && k.Contents() == old(k.Contents());
      case UsesOidc(o) => assert o.held == old(o.held) && o.Contents() == old(o.Contents());
      case UsesSelfManaged(s) => assert s.held == old(s.held) && s.Contents() == old(s.Contents());
    }

    /** RotateKey: read, rotate, read again, and infer the successor. */
    method RotateKey(w: World, key: Id, round: Round) returns (r: Rotated)
      requires Free()
      modifies Parts(), w`ticks, w`posts, w`sent, w`effects
      ensures Free()
      ensures source.NotConnected? ==> r == Failed(Failure.NotConnected) && Now(w) == old(Now(w))
      ensures !source.NotConnected? ==> (Now(w), r) == Rotate(Tokens(In(w)), old(Now(w)), key, round)
    {
      ghost var tokens, e := Tokens(In(w)), Now(w);
      var before := Do(w, ReadKey(key), true, FirstRead(round, key), Decode);
      if before.Err? {
        return Failed(before.error);
      }
      ghost var e1 := Now(w);
      var done := Do(w, Request.RotateKey(key), true, Rotating(round, key), Ignore(()));
      if done.Err? {
        return Failed(done.error);
      }
      ghost var e2 := Now(w);
      var after := Do(w, ReadKey(key), true, SecondRead(round, key), Decode);
      RotateUnfolds(tokens, e, key, round, e1, before, e2, done, Now(w), after);
      if after.Err? {
        return Unknown(Some(after.error));
      }
      r := Infer(w, before.value, after.value, key);
    }
  }
}
