/** RotateKey: read the key's links, rotate, read them again, and infer the successor from what is
    new, while other clients may change the links as they like. */
module Rotation {
  import opened Outcomes
  import opened World
  import opened Calls

  type Id = nat

  const NIL: Id := 0

  function SetOf(links: seq<Id>): set<Id> {
    set id | id in links
  }

  /** The links of `after` that are neither in `before` nor the key itself. */
  function NewLinks(before: seq<Id>, after: seq<Id>, self: Id): set<Id> {
    SetOf(after) - SetOf(before) - {self}
  }

  lemma OnlyMember(s: set<Id>, id: Id)
    requires |s| == 1 && id in s
    ensures s == {id}
  {
    assert |s - {id}| == 0;
  }

  /** The only new link, if there is exactly one. */
  ghost function SuccessorOf(before: seq<Id>, after: seq<Id>, self: Id): (r: Option<Id>)
    ensures r.Some? <==> |NewLinks(before, after, self)| == 1
    ensures r.Some? ==> NewLinks(before, after, self) == {r.value}
  {
    var links := NewLinks(before, after, self);
    if |links| == 1 then
      var id :| id in links;
      OnlyMember(links, id);
      Some(id)
    else None
  }

  lemma SingletonSize(s: set<Id>, id: Id)
    requires s == {id}
    ensures |s| == 1
  {
  }

  lemma OneMore(links: seq<Id>, i: nat)
    requires i < |links|
    ensures SetOf(links[..i + 1]) == SetOf(links[..i]) + {links[i]}
  {
    assert links[..i + 1] == links[..i] + [links[i]];
  }

  /** What one more link of `after` adds. */
  lemma LinkStep(before: seq<Id>, after: seq<Id>, i: nat, self: Id)
    requires i < |after|
    ensures var links := NewLinks(before, after[..i], self);
            NewLinks(before, after[..i + 1], self) ==
              if after[i] in {self} + SetOf(before) + SetOf(after[..i]) then links else links + {after[i]}
    ensures after[i] !in SetOf(after[..i]) ==> after[i] !in NewLinks(before, after[..i], self)
  {
    OneMore(after, i);
  }

  /** The map marks exactly these ids as seen. */
  ghost predicate Marks(seen: map<Id, bool>, ids: set<Id>) {
    seen.Keys == ids && forall id | id in ids :: seen[id]
  }

  lemma Mark(seen: map<Id, bool>, ids: set<Id>, id: Id)
    requires Marks(seen, ids)
    ensures Marks(seen[id := true], ids + {id})
  {
  }

  /** The counter and the last new link tell none, one and several new links apart. */
  ghost predicate Tallied(links: set<Id>, count: nat, last: Id) {
    && (count == 0 ==> links == {} && last == NIL)
    && (count == 1 ==> links == {last})
    && (count >= 2 ==> exists a, b :: a in links && b in links && a != b)
  }

  lemma TallyOne(links: set<Id>, count: nat, last: Id, id: Id)
    requires Tallied(links, count, last) && id !in links
    ensures Tallied(links + {id}, count + 1, id)
  {
    if count == 1 {
      assert last in links + {id} && id in links + {id};
    } else if count >= 2 {
      var a, b :| a in links && b in links && a != b;
      assert a in links + {id} && b in links + {id};
    }
  }

  lemma TallyRead(links: set<Id>, count: nat, last: Id)
    requires Tallied(links, count, last)
    ensures count == 1 <==> |links| == 1
    ensures count == 1 ==> links == {last}
    ensures links == {} ==> last == NIL
  {
    if count >= 2 {
      var a, b :| a in links && b in links && a != b;
      assert b in links - {a} && |links - {a}| >= 1;
    }
  }

  /** What the map, the counter and the last new link record of `before` and a prefix of `after`. */
  ghost predicate Scanned(
    seen: map<Id, bool>, before: seq<Id>, prefix: seq<Id>, self: Id, count: nat, last: Id)
  {
    Marks(seen, {self} + SetOf(before) + SetOf(prefix)) && Tallied(NewLinks(before, prefix, self), count, last)
  }

  lemma ScanStep(seen: map<Id, bool>, before: seq<Id>, after: seq<Id>, i: nat, self: Id, count: nat, last: Id)
    requires i < |after| && Scanned(seen, before, after[..i], self, count, last)
    ensures var id := after[i];
            if id in seen && seen[id] then Scanned(seen, before, after[..i + 1], self, count, last)
            else Scanned(seen[id := true], before, after[..i + 1], self, count + 1, id)
  {
    var id := after[i];
    var marked := {self} + SetOf(before) + SetOf(after[..i]);
    LinkStep(before, after, i, self);
    OneMore(after, i);
    if id in marked {
      assert {self} + SetOf(before) + SetOf(after[..i + 1]) == marked;
    } else {
      assert {self} + SetOf(before) + SetOf(after[..i + 1]) == marked + {id};
      Mark(seen, marked, id);
      TallyOne(NewLinks(before, after[..i], self), count, last, id);
    }
  }

  lemma ScanBegins(seen: map<Id, bool>, before: seq<Id>, self: Id)
    requires Marks(seen, {self} + SetOf(before))
    ensures Scanned(seen, before, [], self, 0, NIL)
  {
    assert {self} + SetOf(before) + SetOf([]) == {self} + SetOf(before);
  }

  /** newKeyLink, through its map of the links already seen. */
  method NewKeyLink(before: seq<Id>, after: seq<Id>, self: Id) returns (successor: Id, ok: bool)
    ensures ok <==> |NewLinks(before, after, self)| == 1
    ensures ok ==> NewLinks(before, after, self) == {successor}
    ensures NewLinks(before, after, self) == {} ==> successor == NIL
  {
    var seen: map<Id, bool> := map[self := true];
    for i := 0 to |before|
      invariant Marks(seen, {self} + SetOf(before[..i]))
    {
      OneMore(before, i);
      Mark(seen, {self} + SetOf(before[..i]), before[i]);
      seen := seen[before[i] := true];
    }
    assert before[..|before|] == before;
    ScanBegins(seen, before, self);

    successor := NIL;
    var count := 0;
    for i := 0 to |after|
      invariant Scanned(seen, before, after[..i], self, count, successor)
    {
      var id := after[i];
      ScanStep(seen, before, after, i, self, count, successor);
      if id in seen && seen[id] {
        continue;
      }
      seen := seen[id := true];
      successor := id;
      count := count + 1;
    }
    assert after[..|after|] == after;
    TallyRead(NewLinks(before, after, self), count, successor);
    ok := count == 1;
  }

  /** The order and the repetition of links do not matter. */
  lemma OnlyTheSetsMatter(before: seq<Id>, after: seq<Id>, before': seq<Id>, after': seq<Id>, self: Id)
    requires forall id :: id in before <==> id in before'
    requires forall id :: id in after <==> id in after'
    ensures SuccessorOf(before, after, self) == SuccessorOf(before', after', self)
  {
    assert NewLinks(before, after, self) == NewLinks(before', after', self);
  }

  /** How RotateKey ends; `Unknown` is an error that matches ErrSuccessorUnknown. */
  datatype Rotated = Successor(id: Id) | Unknown(cause: Option<Failure>) | Failed(error: Failure)

  /** The server as it is for the first read, for the rotation and for the second read. */
  datatype Round = Round(before: Api<seq<Id>>, rotate: Api<()>, after: Api<seq<Id>>)

  /** The answers to the attempts of the three requests for a key. */
  function FirstRead(round: Round, key: Id): nat -> ApiReply<seq<Id>> {
    AnswersTo(round.before, ReadKey(key))
  }

  function Rotating(round: Round, key: Id): nat -> ApiReply<()> {
    AnswersTo(round.rotate, Request.RotateKey(key))
  }

  function SecondRead(round: Round, key: Id): nat -> ApiReply<seq<Id>> {
    AnswersTo(round.after, ReadKey(key))
  }

  ghost function Conclude(before: seq<Id>, after: Result<seq<Id>>, key: Id): Rotated {
    if after.Err? then Unknown(Some(after.error))
    else
      var successor := SuccessorOf(before, after.value, key);
      if successor.Some? then Successor(successor.value) else Unknown(None)
  }

  ghost function Rotate(tokens: TokenFetch, e: Env, key: Id, round: Round): (Env, Rotated) {
    var (e1, before) := Do(tokens, e, ReadKey(key), true, FirstRead(round, key), Decode);
    if before.Err? then (e1, Failed(before.error))
    else
      var (e2, done) := Do(tokens, e1, Request.RotateKey(key), true, Rotating(round, key), Ignore(()));
      if done.Err? then (e2, Failed(done.error))
      else
        var (e3, after) := Do(tokens, e2, ReadKey(key), true, SecondRead(round, key), Decode);
        (e3, Conclude(before.value, after, key))
  }

  lemma RotateUnfolds(
    tokens: TokenFetch, e: Env, key: Id, round: Round, e1: Env, before: Result<seq<Id>>, e2: Env, done: Result<()>,
    e3: Env, after: Result<seq<Id>>)
    requires (e1, before) == Do(tokens, e, ReadKey(key), true, FirstRead(round, key), Decode) && before.Ok?
    requires (e2, done) == Do(tokens, e1, Request.RotateKey(key), true, Rotating(round, key), Ignore(())) && done.Ok?
    requires (e3, after) == Do(tokens, e2, ReadKey(key), true, SecondRead(round, key), Decode)
    ensures Rotate(tokens, e, key, round) == (e3, Conclude(before.value, after, key))
  {
  }

  /** The links that the deciding answer of a read carries. */
  function LinksRead(serve: nat -> ApiReply<seq<Id>>): Result<seq<Id>> {
    Judge(Deciding(serve), Decode)
  }

  /** A read that succeeds carries its deciding answer. */
  lemma ReadIsDecided(tokens: TokenFetch, e: Env, key: Id, serve: nat -> ApiReply<seq<Id>>)
    requires Modest(tokens)
    ensures var r := Do(tokens, e, ReadKey(key), true, serve, Decode).1; r.Ok? ==> r == LinksRead(serve)
  {
    DoAccounts(tokens, e, ReadKey(key), true, serve, Decode);
  }

  /** What a finished rotation has read: it never concludes from anything but the two deciding answers. */
  lemma RotateReads(tokens: TokenFetch, e: Env, key: Id, round: Round)
    requires Modest(tokens)
    requires var r := Rotate(tokens, e, key, round).1; r.Successor? || r == Unknown(None)
    ensures LinksRead(FirstRead(round, key)).Ok? && LinksRead(SecondRead(round, key)).Ok?
    ensures Rotate(tokens, e, key, round).1 ==
            Conclude(LinksRead(FirstRead(round, key)).value, LinksRead(SecondRead(round, key)), key)
  {
    var (e1, before) := Do(tokens, e, ReadKey(key), true, FirstRead(round, key), Decode);
    var (e2, done) := Do(tokens, e1, Request.RotateKey(key), true, Rotating(round, key), Ignore(()));
    ReadIsDecided(tokens, e, key, FirstRead(round, key));
    ReadIsDecided(tokens, e2, key, SecondRead(round, key));
  }

  /** No link but this one appeared between the two reads. */
  ghost predicate NoOtherNew(before: seq<Id>, after: seq<Id>, key: Id, successor: Id) {
    forall id | id in after && id != successor :: id in before || id == key
  }

  lemma ConclusionSound(before: seq<Id>, after: seq<Id>, key: Id, successor: Id)
    requires successor !in before && successor != key
    ensures var r := Conclude(before, Ok(after), key);
            && (r.Successor? ==> (r.id == successor <==> successor in after))
            && (successor in after ==> (r == Successor(successor) <==> NoOtherNew(before, after, key, successor)))
            && (successor in after ==> r == Successor(successor) || r == Unknown(None))
  {
    var links := NewLinks(before, after, key);
    assert successor in links <==> successor in after;
    if successor in after && NoOtherNew(before, after, key, successor) {
      SingletonSize(links, successor);
    }
    if links == {successor} {
      assert forall id | id in after && id != successor :: id !in links;
    }
  }

  /** If the true successor is new, then a returned id is the successor exactly when the second read
      shows the successor; and with it shown, the successor is returned exactly when no other new link
      appeared, whatever other clients added, removed, repeated or reordered. */
  lemma SuccessorSoundness(tokens: TokenFetch, e: Env, key: Id, round: Round, successor: Id)
    requires Modest(tokens)
    requires LinksRead(FirstRead(round, key)).Ok? ==> successor !in LinksRead(FirstRead(round, key)).value
    requires successor != key
    ensures var r := Rotate(tokens, e, key, round).1;
            r.Successor? || r == Unknown(None) ==>
              && LinksRead(FirstRead(round, key)).Ok? && LinksRead(SecondRead(round, key)).Ok?
              && var before, after := LinksRead(FirstRead(round, key)).value, LinksRead(SecondRead(round, key)).value;
                 && (r.Successor? ==> (r.id == successor <==> successor in after))
                 && (successor in after ==>
                       && (r == Successor(successor) <==> NoOtherNew(before, after, key, successor))
                       && (r == Successor(successor) || r == Unknown(None)))
  {
    var r := Rotate(tokens, e, key, round).1;
    if r.Successor? || r == Unknown(None) {
      RotateReads(tokens, e, key, round);
      ConclusionSound(LinksRead(FirstRead(round, key)).value, LinksRead(SecondRead(round, key)).value, key, successor);
    }
  }

  ghost predicate Effectless<B(!new)>(serve: nat -> ApiReply<B>) {
    forall i: nat :: !serve(i).effect
  }

  /** An accepted answer means that the server rotated the key. */
  ghost predicate Truthful(serve: nat -> ApiReply<()>) {
    forall i: nat :: Judge(serve(i), Ignore(())).Ok? ==> serve(i).effect
  }

  lemma ReadHasNoEffect(tokens: TokenFetch, e: Env, key: Id, serve: nat -> ApiReply<seq<Id>>)
    requires Modest(tokens)
    requires Effectless(serve)
    ensures Do(tokens, e, ReadKey(key), true, serve, Decode).0.effects == e.effects
  {
  }

  /** n requests for q. */
  function Copies(q: Request, n: nat): seq<Request> {
    seq(n, _ => q)
  }

  /** The requests of a call that got its answer: one, and one more after a 401. */
  function Requested<B>(q: Request, serve: nat -> ApiReply<B>): seq<Request> {
    if serve(0).Reply? && serve(0).status == 401 then [q, q] else [q]
  }

  /** What was requested from e to e'. */
  function Since(e: Env, e': Env): seq<Request>
    requires e.sent <= e'.sent
  {
    RequestsOf(e'.sent[|e.sent|..])
  }

  /** The requests of one call: at most two, and those of its answer if it succeeded. */
  lemma OneCallSends<B(!new)>(tokens: TokenFetch, e: Env, q: Request, serve: nat -> ApiReply<B>, into: Into<B>)
    requires Modest(tokens)
    ensures var (e', r) := Do(tokens, e, q, true, serve, into);
            && e.sent <= e'.sent
            && (exists n: nat :: n <= 2 && Since(e, e') == Copies(q, n))
            && (r.Ok? ==> Since(e, e') == Requested(q, serve))
  {
    DoAccounts(tokens, e, q, true, serve, into);
    var e' := Do(tokens, e, q, true, serve, into).0;
    assert Since(e, e') == Copies(q, |e'.sent| - |e.sent|);
    assert Copies(q, 1) == [q] && Copies(q, 2) == [q, q];
  }

  /** A rotation that fails has sent reads of the key and nothing else, or, once the key was read, rotations
      and nothing after them. */
  ghost predicate GaveUp(sent: seq<Request>, key: Id, round: Round) {
    || (exists n: nat :: n <= 2 && sent == Copies(ReadKey(key), n))
    || exists n: nat :: n <= 2
         && sent == Requested(ReadKey(key), FirstRead(round, key)) + Copies(Request.RotateKey(key), n)
  }

  /** The exact requests of a rotation. One that reaches its end has read the key, rotated it and read it
      again, each once, or twice after a 401; one that cannot read the key again has done the same up to
      there. */
  lemma RotationSends(tokens: TokenFetch, e: Env, key: Id, round: Round)
    requires Modest(tokens)
    ensures var (e', r) := Rotate(tokens, e, key, round);
            var rotated := Requested(ReadKey(key), FirstRead(round, key))
                           + Requested(Request.RotateKey(key), Rotating(round, key));
            && e.sent <= e'.sent
            && (r.Failed? ==> GaveUp(Since(e, e'), key, round))
            && (r.Unknown? && r.cause.Some? ==>
                  exists n: nat :: n <= 2 && Since(e, e') == rotated + Copies(ReadKey(key), n))
            && (r.Successor? || r == Unknown(None) ==>
                  Since(e, e') == rotated + Requested(ReadKey(key), SecondRead(round, key)))
  {
    var (e1, before) := Do(tokens, e, ReadKey(key), true, FirstRead(round, key), Decode);
    OneCallSends(tokens, e, ReadKey(key), FirstRead(round, key), Decode);
    if before.Ok? {
      var (e2, done) := Do(tokens, e1, Request.RotateKey(key), true, Rotating(round, key), Ignore(()));
      OneCallSends(tokens, e1, Request.RotateKey(key), Rotating(round, key), Ignore(()));
      RequestsJoin(e.sent, e1.sent, e2.sent);
      if done.Ok? {
        var (e3, after) := Do(tokens, e2, ReadKey(key), true, SecondRead(round, key), Decode);
        OneCallSends(tokens, e2, ReadKey(key), SecondRead(round, key), Decode);
        RequestsJoin(e.sent, e2.sent, e3.sent);
      }
    }
  }

  /** A key that cannot be read is left alone: the call fails after nothing but reads, without effect. */
  lemma UnreadKeyLeftAlone(tokens: TokenFetch, e: Env, key: Id, round: Round)
    requires Modest(tokens)
    requires LinksRead(FirstRead(round, key)).Err?
             || Do(tokens, e, ReadKey(key), true, FirstRead(round, key), Decode).1.Err?
    ensures var (e', r) := Rotate(tokens, e, key, round);
            && r.Failed? && e.sent <= e'.sent && (forall q | q in Since(e, e') :: q == ReadKey(key))
            && (Effectless(FirstRead(round, key)) ==> e'.effects == e.effects)
  {
    ReadIsDecided(tokens, e, key, FirstRead(round, key));
    OneCallSends(tokens, e, ReadKey(key), FirstRead(round, key), Decode);
    if Effectless(FirstRead(round, key)) {
      ReadHasNoEffect(tokens, e, key, FirstRead(round, key));
    }
  }

  /** When every token is obtained, the three deciding answers alone make the result: a rotation is accepted
      by a status below 400 other than 260, whatever its body. */
  lemma RotationDecided(tokens: TokenFetch, e: Env, key: Id, round: Round)
    requires Willing(tokens)
    ensures var r := Rotate(tokens, e, key, round).1;
            var before := Judge(FinalAnswer(round.before, Request.ReadKey(key)), Decode);
            var after := Judge(FinalAnswer(round.after, Request.ReadKey(key)), Decode);
            var reply := FinalAnswer(round.rotate, Request.RotateKey(key));
            if before.Err? then r == Failed(before.error)
            else if reply.Lost? then r == Failed(Transport)
            else if reply.status >= 400 || reply.status == 260 then r == Failed(Api(reply.status))
            else if after.Err? then r == Unknown(Some(after.error))
            else
              var successor := SuccessorOf(before.value, after.value, key);
              r == if successor.Some? then Successor(successor.value) else Unknown(None)
  {
    var (e1, before) := Do(tokens, e, ReadKey(key), true, FirstRead(round, key), Decode);
    var (e2, done) := Do(tokens, e1, Request.RotateKey(key), true, Rotating(round, key), Ignore(()));
    DoDecided(tokens, e, ReadKey(key), FirstRead(round, key), Decode);
    DoDecided(tokens, e1, Request.RotateKey(key), Rotating(round, key), Ignore(()));
    DoDecided(tokens, e2, ReadKey(key), SecondRead(round, key), Decode);
  }

  /** A returned id, or an error matching ErrSuccessorUnknown, means that the key was rotated exactly
      once; any other error that it was rotated at most once. */
  lemma RotatesAtMostOnce(tokens: TokenFetch, e: Env, key: Id, round: Round)
    requires Modest(tokens)
    requires Effectless(FirstRead(round, key)) && Effectless(SecondRead(round, key))
    requires Harmless(Rotating(round, key)) && Truthful(Rotating(round, key))
    ensures var (e', r) := Rotate(tokens, e, key, round);
            if r.Failed? then e.effects <= e'.effects <= e.effects + 1 else e'.effects == e.effects + 1
  {
    var (e1, before) := Do(tokens, e, ReadKey(key), true, FirstRead(round, key), Decode);
    ReadHasNoEffect(tokens, e, key, FirstRead(round, key));
    var (e2, done) := Do(tokens, e1, Request.RotateKey(key), true, Rotating(round, key), Ignore(()));
    DoEffects(tokens, e1, Request.RotateKey(key), true, Rotating(round, key), Ignore(()));
    DoAccounts(tokens, e1, Request.RotateKey(key), true, Rotating(round, key), Ignore(()));
    ReadHasNoEffect(tokens, e2, key, SecondRead(round, key));
  }

  predicate NoneRejected(round: Round, key: Id) {
    && !Unauthorized(FirstRead(round, key)(0)) && !Unauthorized(Rotating(round, key)(0))
    && !Unauthorized(SecondRead(round, key)(0))
  }

  /** One token serves for the whole rotation while it can be used and is not rejected. */
  lemma OneTokenForRotation(x: Setting, e: Env, key: Id, round: Round)
    requires Usable(x, e) && NoneRejected(round, key)
    ensures SameToken(e, Rotate(Tokens(x), e, key, round).0)
  {
    var tokens := Tokens(x);
    var (e1, before) := Do(tokens, e, ReadKey(key), true, FirstRead(round, key), Decode);
    LiveTokenSuffices(x, e, ReadKey(key), FirstRead(round, key), Decode);
    if before.Ok? {
      var (e2, done) := Do(tokens, e1, Request.RotateKey(key), true, Rotating(round, key), Ignore(()));
      LiveTokenSuffices(x, e1, Request.RotateKey(key), Rotating(round, key), Ignore(()));
      SameTokenOn(e, e1, e2);
      if done.Ok? {
        LiveTokenSuffices(x, e2, ReadKey(key), SecondRead(round, key), Decode);
        SameTokenOn(e, e2, Do(tokens, e2, ReadKey(key), true, SecondRead(round, key), Decode).0);
      }
    }
  }

  /** The links of every key on a server. */
  type Server = map<Id, seq<Id>>

  ghost predicate Unused(server: Server, id: Id) {
    id !in server && forall k | k in server :: id !in server[k]
  }

  /** Rotating k adds one link to k and links the new key back to it. */
  function Rotation(server: Server, k: Id, id: Id): Server
    requires k in server
  {
    server[k := server[k] + [id]][id := [k]]
  }

  /** The ids that successive rotations generate are unused when they are generated. */
  ghost predicate FreshIds(server: Server, k: Id, ids: seq<Id>)
    requires k in server
    decreases |ids|
  {
    ids == [] || (Unused(server, ids[0]) && FreshIds(Rotation(server, k, ids[0]), ids[0], ids[1..]))
  }

  /** Whenever a read of this round succeeds, it shows the server's links before or after the rotation. */
  ghost predicate Shows(round: Round, server: Server, k: Id, id: Id)
    requires k in server
  {
    && (LinksRead(FirstRead(round, k)).Ok? ==> LinksRead(FirstRead(round, k)).value == server[k])
    && (LinksRead(SecondRead(round, k)).Ok? ==> LinksRead(SecondRead(round, k)).value == Rotation(server, k, id)[k])
  }

  ghost predicate ShowsAll(rounds: seq<Round>, server: Server, k: Id, ids: seq<Id>)
    requires k in server && |rounds| == |ids|
    decreases |ids|
  {
    ids == [] || (Shows(rounds[0], server, k, ids[0])
                  && ShowsAll(rounds[1..], Rotation(server, k, ids[0]), ids[0], ids[1..]))
  }

  /** How one rotation runs, as a step from one environment to the next. */
  type RotateStep = (Env, Id, Round) -> (Env, Rotated)

  ghost function Rotates(tokens: TokenFetch): RotateStep {
    (e: Env, key: Id, round: Round) => Rotate(tokens, e, key, round)
  }

  /** A rotation concludes from the two deciding answers and nothing else. */
  ghost predicate Concludes(rotate: RotateStep) {
    forall e: Env, key: Id, round: Round ::
      var r := rotate(e, key, round).1;
      r.Successor? || r == Unknown(None) ==>
        && LinksRead(FirstRead(round, key)).Ok? && LinksRead(SecondRead(round, key)).Ok?
        && r == Conclude(LinksRead(FirstRead(round, key)).value, LinksRead(SecondRead(round, key)), key)
  }

  lemma RotationsConclude(tokens: TokenFetch)
    requires Modest(tokens)
    ensures Concludes(Rotates(tokens))
  {
    forall e: Env, key: Id, round: Round |
      Rotate(tokens, e, key, round).1.Successor? || Rotate(tokens, e, key, round).1 == Unknown(None)
      ensures LinksRead(FirstRead(round, key)).Ok? && LinksRead(SecondRead(round, key)).Ok?
      ensures Rotate(tokens, e, key, round).1
           == Conclude(LinksRead(FirstRead(round, key)).value, LinksRead(SecondRead(round, key)), key)
    {
      RotateReads(tokens, e, key, round);
    }
  }

  /** Rotating k, then the returned successor, and so on, until a rotation returns no id. */
  ghost function RotateAgain(rotate: RotateStep, e: Env, k: Id, rounds: seq<Round>): (Env, seq<Rotated>)
    decreases |rounds|
  {
    if rounds == [] then (e, [])
    else
      var (e1, r) := rotate(e, k, rounds[0]);
      if !r.Successor? then (e1, [r])
      else
        var (e2, rest) := RotateAgain(rotate, e1, r.id, rounds[1..]);
        (e2, [r] + rest)
  }

  /** The one link that was added is the successor. */
  lemma AddedLinkConcludes(before: seq<Id>, key: Id, id: Id)
    requires id !in before && id != key
    ensures Conclude(before, Ok(before + [id]), key) == Successor(id)
  {
    assert NewLinks(before, before + [id], key) == {id};
  }

  lemma OneRotation(rotate: RotateStep, e: Env, k: Id, round: Round, server: Server, id: Id)
    requires Concludes(rotate)
    requires k in server && Unused(server, id) && Shows(round, server, k, id)
    ensures var r := rotate(e, k, round).1;
            r == Successor(id) || r.Failed? || (r.Unknown? && r.cause.Some?)
  {
    var r := rotate(e, k, round).1;
    if r.Successor? || r == Unknown(None) {
      AddedLinkConcludes(server[k], k, id);
      assert Rotation(server, k, id)[k] == server[k] + [id];
    }
  }

  /** The results follow the ids, in order, up to the first that is an error of a request. */
  ghost predicate Follows(results: seq<Rotated>, ids: seq<Id>)
    decreases |ids|
  {
    if ids == [] then results == []
    else
      results != [] &&
      if results[0] == Successor(ids[0]) then Follows(results[1..], ids[1..])
      else |results| == 1 && (results[0].Failed? || (results[0].Unknown? && results[0].cause.Some?))
  }

  lemma {:induction false} ChainFollows(
    rotate: RotateStep, e: Env, k: Id, rounds: seq<Round>, server: Server, ids: seq<Id>)
    requires Concludes(rotate)
    requires k in server && |rounds| == |ids| && FreshIds(server, k, ids) && ShowsAll(rounds, server, k, ids)
    ensures Follows(RotateAgain(rotate, e, k, rounds).1, ids)
    decreases |ids|
  {
    if ids != [] {
      OneRotation(rotate, e, k, rounds[0], server, ids[0]);
      var (e1, r) := rotate(e, k, rounds[0]);
      if r.Successor? {
        ChainFollows(rotate, e1, ids[0], rounds[1..], Rotation(server, k, ids[0]), ids[1..]);
      }
    }
  }

  lemma {:induction false} FollowsInOrder(results: seq<Rotated>, ids: seq<Id>)
    requires Follows(results, ids)
    ensures |results| <= |ids|
    ensures forall i | 0 <= i < |results| && results[i].Successor? :: results[i] == Successor(ids[i])
    ensures forall i | 0 <= i < |results| && !results[i].Successor? :: i == |results| - 1 && results[i] != Unknown(None)
    ensures (forall i | 0 <= i < |results| :: results[i].Successor?) ==> |results| == |ids|
    decreases |ids|
  {
    if ids != [] && results[0] == Successor(ids[0]) {
      FollowsInOrder(results[1..], ids[1..]);
      assert forall i | 0 < i < |results| :: results[i] == results[1..][i - 1];
      assert forall i | 0 <= i < |results| - 1 :: results[1..][i] == results[i + 1];
    }
  }

  /** A chain of rotations of any length yields the ids that the server generates, in order and all of
      them if its requests succeed; an error of a request ends it, and it never yields another id. */
  lemma RotationChain(tokens: TokenFetch, e: Env, k: Id, rounds: seq<Round>, server: Server, ids: seq<Id>)
    requires Modest(tokens)
    requires k in server && |rounds| == |ids| && FreshIds(server, k, ids) && ShowsAll(rounds, server, k, ids)
    ensures var results := RotateAgain(Rotates(tokens), e, k, rounds).1;
            && |results| <= |ids|
            && (forall i | 0 <= i < |results| && results[i].Successor? :: results[i] == Successor(ids[i]))
            && (forall i | 0 <= i < |results| && !results[i].Successor? ::
                  i == |results| - 1 && results[i] != Unknown(None))
            && ((forall i | 0 <= i < |results| :: results[i].Successor?) ==> |results| == |ids|)
  {
    RotationsConclude(tokens);
    ChainFollows(Rotates(tokens), e, k, rounds, server, ids);
    FollowsInOrder(RotateAgain(Rotates(tokens), e, k, rounds).1, ids);
  }

  /** Those ids are pairwise distinct, and none of them was in use before. */
  lemma {:induction false} ChainIdsDistinct(server: Server, k: Id, ids: seq<Id>)
    requires k in server && FreshIds(server, k, ids)
    ensures forall i | 0 <= i < |ids| :: ids[i] !in server
    ensures forall i, j | 0 <= i < j < |ids| :: ids[i] != ids[j]
    decreases |ids|
  {
    if ids != [] {
      var next := Rotation(server, k, ids[0]);
      ChainIdsDistinct(next, ids[0], ids[1..]);
      forall i | 0 < i < |ids|
        ensures ids[i] !in next
      {
        assert ids[i] == ids[1..][i - 1];
      }
      forall i, j | 0 <= i < j < |ids|
        ensures ids[i] != ids[j]
      {
        if i > 0 {
          assert ids[i] == ids[1..][i - 1] && ids[j] == ids[1..][j - 1];
        }
      }
    }
  }
}
