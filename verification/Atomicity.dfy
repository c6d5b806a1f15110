/** A GetToken that runs among any number of other goroutines is one turn of the sequential
    GetToken on the cache it finds when it takes the mutex, and every such turn can be run. */
module Atomicity {
  import opened Outcomes
  import opened TokenCache
  import opened Protocol
  import opened Invariants

  /** The grants that t has posted since entry n of the log. */
  function PostsSince(log: Log, n: nat, t: nat): seq<Grant> {
    if |log| <= n then []
    else
      var last := log[|log| - 1];
      PostsSince(log[..|log| - 1], n, t) + if last.tid == t && last.event.Posted? then [last.event.grant] else []
  }

  lemma PostsAppend(log: Log, e: Entry, n: nat, t: nat)
    requires n <= |log|
    ensures PostsSince(log + [e], n, t) ==
              PostsSince(log, n, t) + if e.tid == t && e.event.Posted? then [e.event.grant] else []
  {
    assert (log + [e])[..|log|] == log;
  }

  /** Between Lock and Unlock of a GetToken. */
  predicate Renewing(pc: Pc) {
    pc.Deciding? || pc.Refreshing? || pc.FallingBack? || pc.LoggingIn?
  }

  /** One reading of the clock, or none. */
  function Taken(n: nat, now: int): seq<int> {
    if n == 0 then [] else [now]
  }

  /** The clock readings taken for the two expiry tests, at now1 and now2. */
  function TestReadings(p: Policy, c: Cache, now1: int, now2: int): seq<int> {
    Taken(AccessTestReads(p, c), now1) +
    if AccessUsable(p, c, now1) then [] else Taken(RefreshTestReads(p, c), now2)
  }

  /** The clock readings taken when an answer is stored, at now1 and now2. */
  function StoreReadings(p: Policy, reply: Result<Issue>, now1: int, now2: int): seq<int> {
    match Vet(p, reply)
    case Ok(i) => Taken(AccessReads(p, i), now1) + Taken(RefreshReads(p, i), now2)
    case Err(_) => []
  }

  /** The clock readings that a step takes on this cache, in the order the code takes them. */
  function StepReadings(p: Policy, c: Cache, step: Step): seq<int> {
    match step
    case Decide(_, now1, now2) => TestReadings(p, c, now1, now2)
    case TokenAnswer(_, reply, now1, now2) => StoreReadings(p, reply, now1, now2)
    case _ => []
  }

  /** The answer of the token endpoint that a step brings. */
  function StepReplies(step: Step): seq<Result<Issue>> {
    if step.TokenAnswer? then [step.reply] else []
  }

  function Readings(p: Policy, s: State, steps: seq<Step>): seq<int>
    requires Runs(p, s, steps)
    decreases |steps|
  {
    if steps == [] then [] else StepReadings(p, s.cache, steps[0]) + Readings(p, Apply(p, s, steps[0]), steps[1..])
  }

  function Replies(steps: seq<Step>): seq<Result<Issue>> {
    if steps == [] then [] else StepReplies(steps[0]) + Replies(steps[1..])
  }

  /** From the k-th on, the values of f are these. */
  ghost predicate Carries<T>(f: nat -> T, k: nat, values: seq<T>) {
    forall i | 0 <= i < |values| :: values[i] == f(k + i)
  }

  lemma CarriesOne<T>(f: nat -> T, k: nat, value: T)
    requires Carries(f, k, [value])
    ensures f(k) == value
  {
    assert [value][0] == value;
  }

  lemma CarriesParts<T>(f: nat -> T, k: nat, a: seq<T>, b: seq<T>)
    requires Carries(f, k, a + b)
    ensures Carries(f, k, a) && Carries(f, k + |a|, b)
  {
    forall i | 0 <= i < |a|
      ensures a[i] == f(k + i)
    {
      assert (a + b)[i] == a[i];
    }
    forall i | 0 <= i < |b|
      ensures b[i] == f(k + |a| + i)
    {
      assert (a + b)[|a| + i] == b[i];
    }
  }

  lemma CarriesJoined<T>(f: nat -> T, k: nat, a: seq<T>, b: seq<T>)
    requires Carries(f, k, a) && Carries(f, k + |a|, b)
    ensures Carries(f, k, a + b)
  {
    forall i | 0 <= i < |a + b|
      ensures (a + b)[i] == f(k + i)
    {
      if i >= |a| {
        assert (a + b)[i] == b[i - |a|] && k + |a| + (i - |a|) == k + i;
      }
    }
  }

  /** Where a goroutine stands in its GetToken, with the cache it sees and the grants it has posted; or, when
      it is outside, the result it has in its hands, if any. */
  datatype Place =
    | Inside(pc: Pc, cache: Cache, posts: seq<Grant>)
    | Outside(cache: Cache, result: Option<Result<string>>, posts: seq<Grant>)

  /** The token or the failure that a goroutine outside has from its GetToken. */
  function ResultOf(th: Thread): Option<Result<string>> {
    if th.pc == Done(false) then if th.failure.Some? then Some(Err(th.failure.value)) else None
    else if th.bearer.Some? then Some(Ok(th.bearer.value.token))
    else None
  }

  /** The place of t, which entered its section with log length n. */
  function PlaceOf(s: State, t: nat, n: nat): Place
    requires t < |s.threads|
  {
    var th := s.threads[t];
    if Renewing(th.pc) then Inside(th.pc, s.cache, PostsSince(s.log, n, t))
    else Outside(s.cache, ResultOf(th), PostsSince(s.log, n, t))
  }

  /** The place that a turn of the sequential GetToken leads to. */
  function PlaceAfter(turn: Turn): Place {
    Outside(turn.cache, Some(turn.result), turn.posts)
  }

  /** What remains of the sequential GetToken at a place inside, at the k-th reading and the n-th answer. */
  function Rest(
    p: Policy, pc: Pc, c: Cache, clock: nat -> int, k: nat, answers: nat -> Result<Issue>, n: nat): Turn
    requires Renewing(pc)
  {
    if pc.Deciding? then GetToken(p, c, clock, k, answers, n)
    else if pc.Refreshing? && !Declines(answers(n)) then
      Request(p, c, Refresh(c.refresh), answers(n), clock, k).(posts := [])
    else if pc.Refreshing? then Request(p, DropRefresh(c), Password, answers(n + 1), clock, k)
    else Request(p, c, Password, answers(n), clock, k).(posts := if pc.FallingBack? then [Password] else [])
  }

  /** The place that a goroutine gets to in the end, and the number of readings taken by then. */
  function Promise(
    p: Policy, at: Place, clock: nat -> int, k: nat, answers: nat -> Result<Issue>, n: nat): (Place, nat)
    requires at.Inside? ==> Renewing(at.pc)
  {
    if at.Outside? then (at, k)
    else
      var turn := Rest(p, at.pc, at.cache, clock, k, answers, n);
      (PlaceAfter(turn.(posts := at.posts + turn.posts)), turn.ticks)
  }

  /** The tests give at the k-th reading what they gave at the reading that was taken. */
  lemma AccessTest(p: Policy, c: Cache, now: int, clock: nat -> int, k: nat)
    requires Carries(clock, k, Taken(AccessTestReads(p, c), now))
    ensures AccessUsable(p, c, clock(k)) == AccessUsable(p, c, now)
    ensures |Taken(AccessTestReads(p, c), now)| == AccessTestReads(p, c)
  {
    if AccessTestReads(p, c) == 1 {
      CarriesOne(clock, k, now);
    }
  }

  lemma RefreshTest(p: Policy, c: Cache, now: int, clock: nat -> int, k: nat)
    requires Carries(clock, k, Taken(RefreshTestReads(p, c), now))
    ensures RefreshUsable(p, c, clock(k)) == RefreshUsable(p, c, now)
    ensures |Taken(RefreshTestReads(p, c), now)| == RefreshTestReads(p, c)
  {
    if RefreshTestReads(p, c) == 1 {
      CarriesOne(clock, k, now);
    }
  }

  lemma ReusePromise(
    p: Policy, c: Cache, posts: seq<Grant>, now1: int, now2: int, clock: nat -> int, k: nat,
    answers: nat -> Result<Issue>, n: nat)
    requires Carries(clock, k, TestReadings(p, c, now1, now2)) && AccessUsable(p, c, now1)
    ensures Promise(p, Inside(Deciding, c, posts), clock, k, answers, n) ==
              (Outside(c, Some(Ok(c.access)), posts), k + |TestReadings(p, c, now1, now2)|)
  {
    assert TestReadings(p, c, now1, now2) == Taken(AccessTestReads(p, c), now1);
    AccessTest(p, c, now1, clock, k);
    assert posts + [] == posts;
  }

  /** The grant a GetToken posts first, and where it then stands. */
  function FirstGrant(p: Policy, c: Cache, now: int): Grant {
    if RefreshUsable(p, c, now) then Refresh(c.refresh) else Password
  }

  function AfterPost(p: Policy, c: Cache, now: int): Pc {
    if RefreshUsable(p, c, now) then Refreshing else LoggingIn
  }

  lemma RenewRest(p: Policy, c: Cache, now: int, clock: nat -> int, k: nat, answers: nat -> Result<Issue>, n: nat)
    requires RefreshUsable(p, c, clock(k)) == RefreshUsable(p, c, now)
    ensures var turn := Rest(p, AfterPost(p, c, now), c, clock, k + RefreshTestReads(p, c), answers, n);
            Renew(p, c, clock, k, answers, n) == turn.(posts := [FirstGrant(p, c, now)] + turn.posts)
  {
  }

  /** Without a usable access token, what counts starts after the readings of the first test. */
  lemma SkipsTest(p: Policy, c: Cache, now: int, clock: nat -> int, k: nat, answers: nat -> Result<Issue>, n: nat)
    requires Carries(clock, k, Taken(AccessTestReads(p, c), now)) && !AccessUsable(p, c, now)
    ensures GetToken(p, c, clock, k, answers, n) == Renew(p, c, clock, k + AccessTestReads(p, c), answers, n)
  {
    AccessTest(p, c, now, clock, k);
  }

  lemma PostRest(
    p: Policy, c: Cache, now1: int, now2: int, clock: nat -> int, k: nat, answers: nat -> Result<Issue>, n: nat)
    requires Carries(clock, k, Taken(AccessTestReads(p, c), now1)) && !AccessUsable(p, c, now1)
    requires Carries(clock, k + AccessTestReads(p, c), Taken(RefreshTestReads(p, c), now2))
    ensures var k' := k + AccessTestReads(p, c) + RefreshTestReads(p, c);
            var rest := Rest(p, AfterPost(p, c, now2), c, clock, k', answers, n);
            GetToken(p, c, clock, k, answers, n) == rest.(posts := [FirstGrant(p, c, now2)] + rest.posts)
  {
    var k1 := k + AccessTestReads(p, c);
    SkipsTest(p, c, now1, clock, k, answers, n);
    RefreshTest(p, c, now2, clock, k1);
    RenewRest(p, c, now2, clock, k1, answers, n);
  }

  lemma TestsCarried(p: Policy, c: Cache, now1: int, now2: int, clock: nat -> int, k: nat)
    requires Carries(clock, k, TestReadings(p, c, now1, now2)) && !AccessUsable(p, c, now1)
    ensures Carries(clock, k, Taken(AccessTestReads(p, c), now1))
    ensures Carries(clock, k + AccessTestReads(p, c), Taken(RefreshTestReads(p, c), now2))
    ensures |TestReadings(p, c, now1, now2)| == AccessTestReads(p, c) + RefreshTestReads(p, c)
  {
    CarriesParts(clock, k, Taken(AccessTestReads(p, c), now1), Taken(RefreshTestReads(p, c), now2));
  }

  lemma PostPromise(
    p: Policy, c: Cache, posts: seq<Grant>, now1: int, now2: int, clock: nat -> int, k: nat,
    answers: nat -> Result<Issue>, n: nat)
    requires Carries(clock, k, TestReadings(p, c, now1, now2)) && !AccessUsable(p, c, now1)
    ensures Promise(p, Inside(Deciding, c, posts), clock, k, answers, n) ==
            Promise(p, Inside(AfterPost(p, c, now2), c, posts + [FirstGrant(p, c, now2)]), clock,
                    k + |TestReadings(p, c, now1, now2)|, answers, n)
  {
    var k' := k + AccessTestReads(p, c) + RefreshTestReads(p, c);
    TestsCarried(p, c, now1, now2, clock, k);
    PostRest(p, c, now1, now2, clock, k, answers, n);
    var rest := Rest(p, AfterPost(p, c, now2), c, clock, k', answers, n);
    assert posts + ([FirstGrant(p, c, now2)] + rest.posts) == posts + [FirstGrant(p, c, now2)] + rest.posts;
  }

  lemma FallBackPromise(
    p: Policy, c: Cache, posts: seq<Grant>, clock: nat -> int, k: nat, answers: nat -> Result<Issue>, n: nat)
    ensures Promise(p, Inside(FallingBack, c, posts), clock, k, answers, n) ==
            Promise(p, Inside(LoggingIn, c, posts + [Password]), clock, k, answers, n)
  {
    assert posts + [Password] + [] == posts + [Password];
  }

  lemma DeclinePromise(
    p: Policy, c: Cache, posts: seq<Grant>, clock: nat -> int, k: nat, answers: nat -> Result<Issue>, n: nat)
    requires Declines(answers(n))
    ensures Promise(p, Inside(Refreshing, c, posts), clock, k, answers, n) ==
            Promise(p, Inside(FallingBack, DropRefresh(c), posts), clock, k, answers, n + 1)
  {
  }

  lemma StoreTurn(p: Policy, c: Cache, g: Grant, reply: Result<Issue>, now1: int, now2: int, clock: nat -> int, k: nat)
    requires Carries(clock, k, StoreReadings(p, reply, now1, now2))
    ensures var turn := Request(p, c, g, reply, clock, k);
            var vetted := Vet(p, reply);
            && turn.ticks == k + |StoreReadings(p, reply, now1, now2)|
            && if vetted.Err? then turn.cache == c && turn.result == Err(vetted.error)
               else turn.cache == Store(p, c, vetted.value, now1, now2) && turn.result == Ok(vetted.value.access)
  {
    if Vet(p, reply).Ok? {
      var i := Vet(p, reply).value;
      CarriesParts(clock, k, Taken(AccessReads(p, i), now1), Taken(RefreshReads(p, i), now2));
      if AccessReads(p, i) == 1 {
        CarriesOne(clock, k, now1);
      }
      if RefreshReads(p, i) == 1 {
        CarriesOne(clock, k + AccessReads(p, i), now2);
      }
    }
  }

  lemma AnswerPromise(
    p: Policy, pc: Pc, c: Cache, posts: seq<Grant>, now1: int, now2: int, clock: nat -> int, k: nat,
    answers: nat -> Result<Issue>, n: nat)
    requires pc.LoggingIn? || (pc.Refreshing? && !Declines(answers(n)))
    requires Carries(clock, k, StoreReadings(p, answers(n), now1, now2))
    ensures Promise(p, Inside(pc, c, posts), clock, k, answers, n) ==
              var vetted := Vet(p, answers(n));
              var k' := k + |StoreReadings(p, answers(n), now1, now2)|;
              if vetted.Err? then (Outside(c, Some(Err(vetted.error)), posts), k')
              else (Outside(Store(p, c, vetted.value, now1, now2), Some(Ok(vetted.value.access)), posts), k')
  {
    StoreTurn(p, c, if pc.Refreshing? then Refresh(c.refresh) else Password, answers(n), now1, now2, clock, k);
    assert posts + [] == posts;
  }

  /** Where a step of the goroutine itself leads. */
  function Moved(p: Policy, at: Place, step: Step): Place
    requires at.Inside?
  {
    match step
    case Decide(_, now1, now2) =>
      if AccessUsable(p, at.cache, now1) then Outside(at.cache, Some(Ok(at.cache.access)), at.posts)
      else Inside(AfterPost(p, at.cache, now2), at.cache, at.posts + [FirstGrant(p, at.cache, now2)])
    case FallBack(_) => Inside(LoggingIn, at.cache, at.posts + [Password])
    case TokenAnswer(_, reply, now1, now2) =>
      var vetted := Vet(p, reply);
      if vetted.Ok? then
        Outside(Store(p, at.cache, vetted.value, now1, now2), Some(Ok(vetted.value.access)), at.posts)
      else if at.pc.Refreshing? && Declines(reply) then Inside(FallingBack, DropRefresh(at.cache), at.posts)
      else Outside(at.cache, Some(Err(vetted.error)), at.posts)
    case _ => at
  }

  /** The step is one that the code can take at this place. */
  predicate Fits(at: Place, step: Step) {
    && at.Inside?
    && match step
       case Decide(_, _, _) => at.pc.Deciding?
       case FallBack(_) => at.pc.FallingBack?
       case TokenAnswer(_, _, _, _) => at.pc.Refreshing? || at.pc.LoggingIn?
       case _ => false
  }

  /** A grant posted and not yet answered. */
  function Owed(at: Place): nat {
    if at.Inside? && (at.pc.Refreshing? || at.pc.LoggingIn?) then 1 else 0
  }

  lemma MovedPromise(
    p: Policy, at: Place, step: Step, to: Place, clock: nat -> int, k: nat, k': nat, answers: nat -> Result<Issue>,
    n: nat, n': nat)
    requires Fits(at, step) && to == Moved(p, at, step)
    requires k' == k + |StepReadings(p, at.cache, step)| && n' == n + |StepReplies(step)|
    requires Carries(clock, k, StepReadings(p, at.cache, step)) && Carries(answers, n, StepReplies(step))
    ensures to.Inside? ==> Renewing(to.pc)
    ensures Promise(p, at, clock, k, answers, n) == Promise(p, to, clock, k', answers, n')
  {
    match step
    case Decide(_, now1, now2) =>
      if AccessUsable(p, at.cache, now1) {
        ReusePromise(p, at.cache, at.posts, now1, now2, clock, k, answers, n);
      } else {
        PostPromise(p, at.cache, at.posts, now1, now2, clock, k, answers, n);
      }
    case FallBack(_) => FallBackPromise(p, at.cache, at.posts, clock, k, answers, n);
    case TokenAnswer(_, reply, now1, now2) =>
      CarriesOne(answers, n, reply);
      if at.pc.Refreshing? && Declines(reply) {
        DeclinePromise(p, at.cache, at.posts, clock, k, answers, n);
      } else {
        AnswerPromise(p, at.pc, at.cache, at.posts, now1, now2, clock, k, answers, n);
      }
  }

  lemma MovedCounts(p: Policy, at: Place, step: Step)
    requires Fits(at, step)
    ensures |Moved(p, at, step).posts| + Owed(at) == |at.posts| + |StepReplies(step)| + Owed(Moved(p, at, step))
  {
  }

  lemma DecideMoves(p: Policy, s: State, t: nat, step: Step, n: nat)
    requires step.Decide? && Enabled(s, step) && step.t == t && n <= |s.log|
    ensures t < |Apply(p, s, step).threads|
    ensures PlaceOf(Apply(p, s, step), t, n) == Moved(p, PlaceOf(s, t, n), step)
  {
    PostsAppend(s.log, Apply(p, s, step).log[|s.log|], n, t);
  }

  lemma GrantMoves(p: Policy, s: State, t: nat, step: Step, n: nat)
    requires step.TokenAnswer? && Enabled(s, step) && step.t == t && n <= |s.log| && Vet(p, step.reply).Ok?
    ensures t < |Apply(p, s, step).threads|
    ensures PlaceOf(Apply(p, s, step), t, n) == Moved(p, PlaceOf(s, t, n), step)
  {
    PostsAppend(s.log, Apply(p, s, step).log[|s.log|], n, t);
  }

  lemma DeclineMoves(p: Policy, s: State, t: nat, step: Step, n: nat)
    requires step.TokenAnswer? && Enabled(s, step) && step.t == t && n <= |s.log|
    requires s.threads[t].pc.Refreshing? && Declines(step.reply)
    ensures t < |Apply(p, s, step).threads|
    ensures PlaceOf(Apply(p, s, step), t, n) == Moved(p, PlaceOf(s, t, n), step)
  {
    PostsAppend(s.log, Apply(p, s, step).log[|s.log|], n, t);
    assert Apply(p, s, step).threads[t].pc == FallingBack;
  }

  lemma FailureMoves(p: Policy, s: State, t: nat, step: Step, n: nat)
    requires step.TokenAnswer? && Enabled(s, step) && step.t == t && n <= |s.log| && Vet(p, step.reply).Err?
    requires !(s.threads[t].pc.Refreshing? && Declines(step.reply))
    ensures t < |Apply(p, s, step).threads|
    ensures PlaceOf(Apply(p, s, step), t, n) == Moved(p, PlaceOf(s, t, n), step)
  {
    PostsAppend(s.log, Apply(p, s, step).log[|s.log|], n, t);
    assert Apply(p, s, step).threads[t].pc == Done(false);
  }

  lemma FallBackMoves(p: Policy, s: State, t: nat, step: Step, n: nat)
    requires step.FallBack? && Enabled(s, step) && step.t == t && n <= |s.log|
    ensures t < |Apply(p, s, step).threads|
    ensures PlaceOf(Apply(p, s, step), t, n) == Moved(p, PlaceOf(s, t, n), step)
  {
    PostsAppend(s.log, Apply(p, s, step).log[|s.log|], n, t);
  }

  /** A step of t in the protocol moves it like that. */
  lemma PlaceMoves(p: Policy, s: State, t: nat, step: Step, n: nat)
    requires Enabled(s, step) && !step.Tick? && step.t == t && Renewing(s.threads[t].pc) && n <= |s.log|
    ensures t < |Apply(p, s, step).threads| && Fits(PlaceOf(s, t, n), step)
    ensures PlaceOf(Apply(p, s, step), t, n) == Moved(p, PlaceOf(s, t, n), step)
  {
    if step.Decide? {
      DecideMoves(p, s, t, step, n);
    } else if step.TokenAnswer? && Vet(p, step.reply).Ok? {
      GrantMoves(p, s, t, step, n);
    } else if step.TokenAnswer? && s.threads[t].pc.Refreshing? && Declines(step.reply) {
      DeclineMoves(p, s, t, step, n);
    } else if step.TokenAnswer? {
      FailureMoves(p, s, t, step, n);
    } else {
      FallBackMoves(p, s, t, step, n);
    }
  }

  /** Steps of others take no readings, bring no answers and do not disturb the section. */
  lemma OthersKeepPlace(p: Policy, s: State, t: nat, step: Step, n: nat)
    requires LockOk(s) && Enabled(s, step) && (step.Tick? || step.t != t) && s.holder == Some(t) && n <= |s.log|
    ensures Apply(p, s, step).holder == Some(t) && t < |Apply(p, s, step).threads|
    ensures PlaceOf(Apply(p, s, step), t, n) == PlaceOf(s, t, n)
    ensures StepReadings(p, s.cache, step) == [] && StepReplies(step) == []
  {
    if !step.Tick? {
      StepFrame(p, s, step);
      var s' := Apply(p, s, step);
      assert InSection(s.threads[step.t].pc) <==> s.holder == Some(step.t);
      if s'.log != s.log {
        PostsAppend(s.log, s'.log[|s.log|], n, t);
      }
    }
  }

  lemma LockKept(p: Policy, s: State, step: Step)
    requires LockOk(s) && Enabled(s, step)
    ensures LockOk(Apply(p, s, step))
  {
    if !step.Tick? {
      StepFrame(p, s, step);
      assert InSection(s.threads[step.t].pc) <==> s.holder == Some(step.t);
    }
  }

  /** The mutex stays with the goroutine inside, whose GetToken goes on exactly as long as it holds it. */
  lemma StepHolds(p: Policy, s: State, t: nat, step: Step)
    requires LockOk(s) && Enabled(s, step) && s.holder == Some(t) && Renewing(s.threads[t].pc)
    ensures var s' := Apply(p, s, step);
            && LockOk(s') && |s.log| <= |s'.log| && t < |s'.threads|
            && (Renewing(s'.threads[t].pc) <==> s'.holder == Some(t))
  {
    LockKept(p, s, step);
  }

  /** t holds the mutex in s, and gives it up with the last of the steps. */
  ghost predicate HoldsUntilLast(p: Policy, s: State, t: nat, steps: seq<Step>)
    requires Runs(p, s, steps)
    decreases |steps|
  {
    && s.holder == Some(t) && steps != []
    && var s' := Apply(p, s, steps[0]);
       if |steps| == 1 then s'.holder != Some(t) else HoldsUntilLast(p, s', t, steps[1..])
  }

  /** The steps of t among these. */
  function Own(steps: seq<Step>, t: nat): seq<Step> {
    if steps == [] then []
    else (if !steps[0].Tick? && steps[0].t == t then [steps[0]] else []) + Own(steps[1..], t)
  }

  predicate FitsAll(p: Policy, at: Place, own: seq<Step>)
    decreases |own|
  {
    own == [] || (Fits(at, own[0]) && FitsAll(p, Moved(p, at, own[0]), own[1..]))
  }

  function MovedAll(p: Policy, at: Place, own: seq<Step>): Place
    requires FitsAll(p, at, own)
    decreases |own|
  {
    if own == [] then at else MovedAll(p, Moved(p, at, own[0]), own[1..])
  }

  function OwnReadings(p: Policy, at: Place, own: seq<Step>): seq<int>
    requires FitsAll(p, at, own)
    decreases |own|
  {
    if own == [] then [] else StepReadings(p, at.cache, own[0]) + OwnReadings(p, Moved(p, at, own[0]), own[1..])
  }

  lemma OneMoreMove(p: Policy, at: Place, step: Step, own: seq<Step>)
    requires Fits(at, step) && FitsAll(p, Moved(p, at, step), own)
    ensures var to, all := Moved(p, at, step), [step] + own;
            && FitsAll(p, at, all) && MovedAll(p, at, all) == MovedAll(p, to, own)
            && OwnReadings(p, at, all) == StepReadings(p, at.cache, step) + OwnReadings(p, to, own)
            && Replies(all) == StepReplies(step) + Replies(own)
  {
    assert ([step] + own)[1..] == own;
  }

  /** The steps of t lead from its place in s to its place in `end`, and they alone take readings and bring
      answers. */
  ghost predicate Leads(p: Policy, s: State, t: nat, steps: seq<Step>, n: nat, end: State)
    requires Runs(p, s, steps) && t < |s.threads|
  {
    var at, own := PlaceOf(s, t, n), Own(steps, t);
    && t < |end.threads| && FitsAll(p, at, own) && MovedAll(p, at, own) == PlaceOf(end, t, n)
    && OwnReadings(p, at, own) == Readings(p, s, steps) && Replies(own) == Replies(steps)
  }

  lemma OtherLeads(p: Policy, s: State, t: nat, steps: seq<Step>, n: nat, end: State)
    requires LockOk(s) && Runs(p, s, steps) && steps != [] && s.holder == Some(t) && n <= |s.log|
    requires steps[0].Tick? || steps[0].t != t
    requires t < |Apply(p, s, steps[0]).threads| && Leads(p, Apply(p, s, steps[0]), t, steps[1..], n, end)
    ensures t < |s.threads| && Leads(p, s, t, steps, n, end)
  {
    var s', rest := Apply(p, s, steps[0]), steps[1..];
    OthersKeepPlace(p, s, t, steps[0], n);
    assert Own(steps, t) == Own(rest, t);
    assert Readings(p, s, steps) == Readings(p, s', rest);
    assert Replies(steps) == Replies(rest);
  }

  lemma OwnLeads(p: Policy, s: State, t: nat, steps: seq<Step>, n: nat, end: State)
    requires Runs(p, s, steps) && steps != [] && n <= |s.log|
    requires !steps[0].Tick? && steps[0].t == t && t < |s.threads| && Renewing(s.threads[t].pc)
    requires t < |Apply(p, s, steps[0]).threads| && Leads(p, Apply(p, s, steps[0]), t, steps[1..], n, end)
    ensures Leads(p, s, t, steps, n, end)
  {
    PlaceMoves(p, s, t, steps[0], n);
    OneMoreMove(p, PlaceOf(s, t, n), steps[0], Own(steps[1..], t));
    assert Own(steps, t) == [steps[0]] + Own(steps[1..], t);
  }

  lemma {:induction false} SectionMoves(p: Policy, s: State, t: nat, steps: seq<Step>, n: nat, end: State)
    requires LockOk(s) && Runs(p, s, steps) && HoldsUntilLast(p, s, t, steps) && end == Follow(p, s, steps)
    requires Renewing(s.threads[t].pc) && n <= |s.log|
    ensures Leads(p, s, t, steps, n, end)
    ensures end.holder != Some(t) && !Renewing(end.threads[t].pc)
    decreases |steps|
  {
    StepHolds(p, s, t, steps[0]);
    if |steps| == 1 {
      assert Leads(p, end, t, steps[1..], n, end);
    } else {
      SectionMoves(p, Apply(p, s, steps[0]), t, steps[1..], n, end);
    }
    if steps[0].Tick? || steps[0].t != t {
      OtherLeads(p, s, t, steps, n, end);
    } else {
      OwnLeads(p, s, t, steps, n, end);
    }
  }

  /** The steps lead to `to` at the k2-th reading, each with its readings and its answer where the ones before
      have left off. */
  ghost predicate Brings(
    p: Policy, at: Place, own: seq<Step>, clock: nat -> int, k: nat, answers: nat -> Result<Issue>, n: nat,
    to: Place, k2: nat)
    decreases |own|
  {
    if own == [] then to == at && k2 == k
    else
      && Fits(at, own[0])
      && Carries(clock, k, StepReadings(p, at.cache, own[0])) && Carries(answers, n, StepReplies(own[0]))
      && Brings(p, Moved(p, at, own[0]), own[1..], clock, k + |StepReadings(p, at.cache, own[0])|, answers,
                n + |StepReplies(own[0])|, to, k2)
  }

  lemma {:induction false} MovesBring(
    p: Policy, at: Place, own: seq<Step>, clock: nat -> int, k: nat, answers: nat -> Result<Issue>, n: nat)
    requires FitsAll(p, at, own)
    requires Carries(clock, k, OwnReadings(p, at, own)) && Carries(answers, n, Replies(own))
    ensures Brings(p, at, own, clock, k, answers, n, MovedAll(p, at, own), k + |OwnReadings(p, at, own)|)
    decreases |own|
  {
    if own != [] {
      var first, replies := StepReadings(p, at.cache, own[0]), StepReplies(own[0]);
      CarriesParts(clock, k, first, OwnReadings(p, Moved(p, at, own[0]), own[1..]));
      CarriesParts(answers, n, replies, Replies(own[1..]));
      MovesBring(p, Moved(p, at, own[0]), own[1..], clock, k + |first|, answers, n + |replies|);
    }
  }

  lemma {:induction false} AllPromise(
    p: Policy, at: Place, own: seq<Step>, clock: nat -> int, k: nat, answers: nat -> Result<Issue>, n: nat,
    to: Place, k2: nat)
    requires Brings(p, at, own, clock, k, answers, n, to, k2) && to.Outside? && (at.Inside? ==> Renewing(at.pc))
    ensures Promise(p, at, clock, k, answers, n) == (to, k2)
    decreases |own|
  {
    if own != [] {
      var at' := Moved(p, at, own[0]);
      var k', n' := k + |StepReadings(p, at.cache, own[0])|, n + |StepReplies(own[0])|;
      MovedPromise(p, at, own[0], at', clock, k, k', answers, n, n');
      AllPromise(p, at', own[1..], clock, k', answers, n', to, k2);
    }
  }

  lemma {:induction false} AllCounts(p: Policy, at: Place, own: seq<Step>)
    requires FitsAll(p, at, own)
    ensures |MovedAll(p, at, own).posts| + Owed(at) == |at.posts| + |Replies(own)| + Owed(MovedAll(p, at, own))
    decreases |own|
  {
    if own != [] {
      MovedCounts(p, at, own[0]);
      AllCounts(p, Moved(p, at, own[0]), own[1..]);
    }
  }

  /** The values, in order, and `rest` from then on. */
  function Stream<T>(values: seq<T>, rest: T): nat -> T {
    (i: nat) => if i < |values| then values[i] else rest
  }

  lemma StreamCarries<T>(values: seq<T>, rest: T)
    ensures Carries(Stream(values, rest), 0, values)
  {
  }

  /** Readings that never run backwards, none before `low` and none after `high`. */
  ghost predicate Ordered(low: int, readings: seq<int>, high: int) {
    && (forall i | 0 <= i < |readings| :: low <= readings[i] <= high)
    && forall i, j | 0 <= i <= j < |readings| :: readings[i] <= readings[j]
  }

  lemma StepReadingsOrdered(p: Policy, s: State, step: Step)
    requires Enabled(s, step)
    ensures s.now <= Apply(p, s, step).now
    ensures Ordered(s.now, StepReadings(p, s.cache, step), Apply(p, s, step).now)
  {
  }

  lemma {:induction false} ReadingsOrdered(p: Policy, s: State, steps: seq<Step>)
    requires Runs(p, s, steps)
    ensures s.now <= Follow(p, s, steps).now && Ordered(s.now, Readings(p, s, steps), Follow(p, s, steps).now)
    decreases |steps|
  {
    if steps != [] {
      StepReadingsOrdered(p, s, steps[0]);
      ReadingsOrdered(p, Apply(p, s, steps[0]), steps[1..]);
    }
  }

  /** t has left its section, which it entered with log length n, with what `turn` says: the cache, the
      grants it has posted, and its token or its failure. */
  ghost predicate LeftWith(turn: Turn, n: nat, s: State, t: nat) {
    && t < |s.threads| && s.holder != Some(t) && s.cache == turn.cache && PostsSince(s.log, n, t) == turn.posts
    && ResultOf(s.threads[t]) == Some(turn.result)
  }

  lemma FirstPromise(p: Policy, c: Cache, clock: nat -> int, k: nat, answers: nat -> Result<Issue>, n: nat)
    ensures var turn := GetToken(p, c, clock, k, answers, n);
            Promise(p, Inside(Deciding, c, []), clock, k, answers, n) == (PlaceAfter(turn), turn.ticks)
  {
    var turn := GetToken(p, c, clock, k, answers, n);
    assert [] + turn.posts == turn.posts;
  }

  /** Moves from Lock to Unlock are a turn of the sequential GetToken, at the reading and the answer at which
      they begin. */
  lemma MovesAreTurn(
    p: Policy, c: Cache, own: seq<Step>, clock: nat -> int, k: nat, answers: nat -> Result<Issue>, n: nat)
    requires FitsAll(p, Inside(Deciding, c, []), own) && MovedAll(p, Inside(Deciding, c, []), own).Outside?
    requires Carries(clock, k, OwnReadings(p, Inside(Deciding, c, []), own)) && Carries(answers, n, Replies(own))
    ensures var turn := GetToken(p, c, clock, k, answers, n);
            && MovedAll(p, Inside(Deciding, c, []), own) == PlaceAfter(turn)
            && turn.ticks == k + |OwnReadings(p, Inside(Deciding, c, []), own)| && |turn.posts| == |Replies(own)|
  {
    var at := Inside(Deciding, c, []);
    FirstPromise(p, c, clock, k, answers, n);
    MovesBring(p, at, own, clock, k, answers, n);
    AllPromise(p, at, own, clock, k, answers, n, MovedAll(p, at, own), k + |OwnReadings(p, at, own)|);
    AllCounts(p, at, own);
  }

  lemma PlaceIsLeft(turn: Turn, n: nat, s: State, t: nat)
    requires t < |s.threads| && s.holder != Some(t) && PlaceOf(s, t, n) == PlaceAfter(turn)
    ensures LeftWith(turn, n, s, t)
  {
  }

  /** Whatever the other goroutines do meanwhile, from Lock to Unlock a GetToken does to the cache,
      posts and returns exactly what the sequential GetToken does on the cache at Lock, with the clock
      readings that its steps took, in order, and the answers that they received: it takes neither
      more readings nor more answers than these, and all readings lie between Lock and Unlock. */
  lemma SectionIsTurn(p: Policy, s: State, t: nat, steps: seq<Step>)
    requires Inv(p, s) && StandsAt(s, t, AtToken) && Enabled(s, Enter(t))
    requires Runs(p, Apply(p, s, Enter(t)), steps) && HoldsUntilLast(p, Apply(p, s, Enter(t)), t, steps)
    ensures var s1 := Apply(p, s, Enter(t));
            var s' := Follow(p, s1, steps);
            var readings, replies := Readings(p, s1, steps), Replies(steps);
            var turn := GetToken(p, s.cache, Stream(readings, s'.now), 0, Stream(replies, Err(Transport)), 0);
            && LeftWith(turn, |s.log|, s', t) && turn.ticks == |readings| && |turn.posts| == |replies|
            && Ordered(s.now, readings, s'.now)
  {
    var s1 := Apply(p, s, Enter(t));
    var s' := Follow(p, s1, steps);
    var readings := Readings(p, s1, steps);
    var clock, answers := Stream(readings, s'.now), Stream(Replies(steps), Err(Transport));
    StreamCarries(readings, s'.now);
    StreamCarries(Replies(steps), Err(Transport));
    LockKept(p, s, Enter(t));
    assert PlaceOf(s1, t, |s.log|) == Inside(Deciding, s.cache, []);
    SectionMoves(p, s1, t, steps, |s.log|, s');
    MovesAreTurn(p, s.cache, Own(steps, t), clock, 0, answers, 0);
    PlaceIsLeft(GetToken(p, s.cache, clock, 0, answers, 0), |s.log|, s', t);
    ReadingsOrdered(p, s1, steps);
  }

  /** The turn ends with this answer stored in the cache, or with its error. */
  predicate Concludes(p: Policy, before: Cache, reply: Result<Issue>, now3: int, now4: int, turn: Turn) {
    match Vet(p, reply)
    case Ok(i) => turn.cache == Store(p, before, i, now3, now4) && turn.result == Ok(i.access)
    case Err(e) => turn.cache == before && turn.result == Err(e)
  }

  lemma Prepend(p: Policy, s: State, step: Step, rest: seq<Step>)
    requires Enabled(s, step) && Runs(p, Apply(p, s, step), rest)
    ensures Runs(p, s, [step] + rest) && Follow(p, s, [step] + rest) == Follow(p, Apply(p, s, step), rest)
  {
    assert ([step] + rest)[1..] == rest;
  }

  /** The reading at which a response is stored second. */
  function SecondRead(p: Policy, reply: Result<Issue>, k: nat): nat {
    k + if Vet(p, reply).Ok? then AccessReads(p, Vet(p, reply).value) else 0
  }

  lemma RequestConcludes(
    p: Policy, c: Cache, g: Grant, reply: Result<Issue>, clock: nat -> int, k: nat, posts: seq<Grant>)
    ensures Concludes(p, c, reply, clock(k), clock(SecondRead(p, reply, k)),
                      Request(p, c, g, reply, clock, k).(posts := posts))
  {
  }

  /** The last post of a section and its answer, from where the goroutine has posted it. */
  lemma LastAnswer(
    p: Policy, s: State, t: nat, reply: Result<Issue>, now3: int, now4: int, turn: Turn, n: nat)
    returns (steps: seq<Step>)
    requires (StandsAt(s, t, LoggingIn) || (StandsAt(s, t, Refreshing) && !Declines(reply))) && s.now <= now3 <= now4
    requires n <= |s.log| && PostsSince(s.log, n, t) == turn.posts
    requires Concludes(p, s.cache, reply, now3, now4, turn)
    ensures Runs(p, s, steps) && LeftWith(turn, n, Follow(p, s, steps), t)
  {
    var step := TokenAnswer(t, reply, now3, now4);
    var s' := Apply(p, s, step);
    PostsAppend(s.log, s'.log[|s.log|], n, t);
    assert LeftWith(turn, n, s', t);
    Prepend(p, s, step, []);
    steps := [step] + [];
  }

  lemma PrependTwo(p: Policy, s: State, two: seq<Step>, s2: State, rest: seq<Step>) returns (steps: seq<Step>)
    requires |two| == 2 && Enabled(s, two[0]) && Enabled(Apply(p, s, two[0]), two[1])
    requires s2 == Apply(p, Apply(p, s, two[0]), two[1]) && Runs(p, s2, rest)
    ensures Runs(p, s, steps) && Follow(p, s, steps) == Follow(p, s2, rest)
  {
    Prepend(p, Apply(p, s, two[0]), two[1], rest);
    Prepend(p, s, two[0], [two[1]] + rest);
    steps := [two[0]] + ([two[1]] + rest);
  }

  lemma DeclinedThenPosted(p: Policy, s2: State, t: nat, n: nat, reply: Result<Issue>, now: int)
    returns (two: seq<Step>, s4: State)
    requires StandsAt(s2, t, Refreshing) && Declines(reply) && s2.now <= now && n <= |s2.log|
    requires PostsSince(s2.log, n, t) == [Refresh(s2.cache.refresh)]
    ensures |two| == 2 && Enabled(s2, two[0]) && Enabled(Apply(p, s2, two[0]), two[1])
    ensures s4 == Apply(p, Apply(p, s2, two[0]), two[1])
    ensures StandsAt(s4, t, LoggingIn) && s4.now == now && s4.cache == DropRefresh(s2.cache) && n <= |s4.log|
    ensures PostsSince(s4.log, n, t) == [Refresh(s2.cache.refresh), Password]
  {
    two := [TokenAnswer(t, reply, now, now), FallBack(t)];
    var s3 := Apply(p, s2, two[0]);
    s4 := Apply(p, s3, two[1]);
    PostsAppend(s2.log, s3.log[|s2.log|], n, t);
    PostsAppend(s3.log, s4.log[|s3.log|], n, t);
  }

  lemma FallsBack(
    p: Policy, s2: State, t: nat, n: nat, clock: nat -> int, k: nat, first: Result<Issue>, second: Result<Issue>)
    returns (steps: seq<Step>)
    requires Monotone(clock) && s2.now <= clock(k) && n <= |s2.log|
    requires StandsAt(s2, t, Refreshing) && PostsSince(s2.log, n, t) == [Refresh(s2.cache.refresh)] && Declines(first)
    ensures var turn := Request(p, DropRefresh(s2.cache), Password, second, clock, k).(
                          posts := [Refresh(s2.cache.refresh), Password]);
            Runs(p, s2, steps) && LeftWith(turn, n, Follow(p, s2, steps), t)
  {
    var c, posts := DropRefresh(s2.cache), [Refresh(s2.cache.refresh), Password];
    var turn := Request(p, c, Password, second, clock, k).(posts := posts);
    var k3 := SecondRead(p, second, k);
    assert clock(k) <= clock(k3);
    var fallBack, s4 := DeclinedThenPosted(p, s2, t, n, first, clock(k));
    RequestConcludes(p, c, Password, second, clock, k, posts);
    var rest := LastAnswer(p, s4, t, second, clock(k), clock(k3), turn, n);
    steps := PrependTwo(p, s2, fallBack, s4, rest);
  }

  /** The rest of a turn, from its first post on, with the k-th reading of the clock. */
  lemma Renews(p: Policy, s2: State, t: nat, n: nat, clock: nat -> int, k: nat, answers: nat -> Result<Issue>)
    returns (steps: seq<Step>)
    requires Monotone(clock) && s2.now == clock(k) && n <= |s2.log|
    requires var refreshes := RefreshUsable(p, s2.cache, s2.now);
             && StandsAt(s2, t, if refreshes then Refreshing else LoggingIn)
             && PostsSince(s2.log, n, t) == [if refreshes then Refresh(s2.cache.refresh) else Password]
    ensures Runs(p, s2, steps) && LeftWith(Renew(p, s2.cache, clock, k, answers, 0), n, Follow(p, s2, steps), t)
  {
    var turn := Renew(p, s2.cache, clock, k, answers, 0);
    var k2 := k + RefreshTestReads(p, s2.cache);
    assert clock(k) <= clock(k2);
    if StandsAt(s2, t, Refreshing) && Declines(answers(0)) {
      steps := FallsBack(p, s2, t, n, clock, k2, answers(0), answers(1));
    } else {
      var g := if StandsAt(s2, t, Refreshing) then Refresh(s2.cache.refresh) else Password;
      var k3 := SecondRead(p, answers(0), k2);
      assert clock(k2) <= clock(k3);
      RequestConcludes(p, s2.cache, g, answers(0), clock, k2, [g]);
      steps := LastAnswer(p, s2, t, answers(0), clock(k2), clock(k3), turn, n);
    }
  }

  /** t has taken the free mutex in s and posted the first grant of its turn in s2. */
  ghost predicate HasPosted(p: Policy, s: State, s2: State, t: nat, clock: nat -> int) {
    && StandsAt(s, t, AtToken) && s.holder.None? && Monotone(clock) && s.now <= clock(0)
    && !AccessUsable(p, s.cache, clock(0))
    && s2 == Apply(p, Apply(p, s, Enter(t)), Decide(t, clock(0), clock(AccessTestReads(p, s.cache))))
  }

  lemma RenewalStarts(p: Policy, s: State, s2: State, t: nat, clock: nat -> int)
    requires HasPosted(p, s, s2, t, clock)
    ensures s2.cache == s.cache && s2.now == clock(AccessTestReads(p, s.cache)) && |s.log| <= |s2.log|
    ensures var refreshes := RefreshUsable(p, s.cache, s2.now);
            && StandsAt(s2, t, if refreshes then Refreshing else LoggingIn)
            && PostsSince(s2.log, |s.log|, t) == [if refreshes then Refresh(s.cache.refresh) else Password]
  {
    PostsAppend(s.log, s2.log[|s.log|], |s.log|, t);
  }

  lemma Renewal(p: Policy, s: State, s2: State, t: nat, clock: nat -> int, answers: nat -> Result<Issue>)
    returns (steps: seq<Step>)
    requires HasPosted(p, s, s2, t, clock)
    ensures Runs(p, s2, steps)
    ensures LeftWith(GetToken(p, s.cache, clock, 0, answers, 0), |s.log|, Follow(p, s2, steps), t)
  {
    RenewalStarts(p, s, s2, t, clock);
    steps := Renews(p, s2, t, |s.log|, clock, AccessTestReads(p, s.cache), answers);
  }

  /** Conversely, whatever the clock and the server, the protocol can run the sequential GetToken's
      turn: the goroutine takes the free mutex and steps through it alone. */
  lemma TurnIsSection(p: Policy, s: State, t: nat, clock: nat -> int, answers: nat -> Result<Issue>)
    returns (steps: seq<Step>)
    requires StandsAt(s, t, AtToken) && s.holder.None? && Monotone(clock) && s.now <= clock(0)
    ensures Runs(p, s, steps)
    ensures LeftWith(GetToken(p, s.cache, clock, 0, answers, 0), |s.log|, Follow(p, s, steps), t)
  {
    var turn := GetToken(p, s.cache, clock, 0, answers, 0);
    var n := |s.log|;
    var k1 := AccessTestReads(p, s.cache);
    var s1 := Apply(p, s, Enter(t));
    var decide := Decide(t, clock(0), clock(k1));
    var s2 := Apply(p, s1, decide);
    PostsAppend(s1.log, s2.log[n], n, t);
    var rest := [];
    if !AccessUsable(p, s.cache, clock(0)) {
      rest := Renewal(p, s, s2, t, clock, answers);
    }
    Prepend(p, s1, decide, rest);
    Prepend(p, s, Enter(t), [decide] + rest);
    steps := [Enter(t)] + ([decide] + rest);
  }
}
