/** Any number of concurrent calls on one connected client: the token cache behind its mutex, the
    API requests outside it, a clock, and a server that answers anything.

    A step is what one goroutine does between two points where others can interfere. `log` records
    every visible step in order; an index into it identifies a grant, a post or an invalidation,
    because token strings may repeat. The order of entries made under the mutex is the lock order. */
module Protocol {
  import opened Outcomes
  import opened TokenCache

  datatype Call = DoCall(authenticated: bool) | TokenCall | InvalidateCall | LogoutCall

  /** Where a goroutine stands. From Deciding to LoggingIn, in Invalidating, LoggingOut and
      AwaitingLogout it holds the mutex. */
  datatype Pc =
    | AtToken | Deciding | Refreshing | FallingBack | LoggingIn
    | Sending | Awaiting
    | AtInvalidate | Invalidating
    | AtLogout | LoggingOut | AwaitingLogout
    | Done(ok: bool)

  /** An access token in a goroutine's hands, and the log index of the grant it came from. */
  datatype Bearer = Bearer(token: string, grant: nat)

  /** attempt: the loop counter of do. posted: the last grant it posted. dropped: its own invalidation.
      failure: what its GetToken has failed with. */
  datatype Thread = Thread(
    call: Call, pc: Pc, attempt: nat, posted: nat, dropped: nat, bearer: Option<Bearer>, failure: Option<Failure>)

  datatype Event =
    | Posted(grant: Grant, source: nat) // source: the grant that issued the refresh token posted
    | Granted(post: nat, issue: Issue, expiry: Instant, refreshExpiry: Instant)
    | Declined(post: nat)
    | Failed(post: nat, error: Failure)
    | Reused(source: nat)
    | Invalidated(rejected: Option<nat>) // by a do, with the grant of the token it was rejected with
    | LogoutSkipped | LogoutSent | LoggedOut | LogoutFailed
    | Sent(attempt: nat, bearer: Option<Bearer>)
    | Answered(status: Option<int>, decodes: bool, effect: bool)

  datatype Entry = Entry(tid: nat, at: int, event: Event)

  /** accessGrant and refreshGrant index the grants that issued the cached tokens. */
  datatype State = State(
    now: int, holder: Option<nat>, cache: Cache, accessGrant: nat, refreshGrant: nat,
    threads: seq<Thread>, log: seq<Entry>)

  /** What the environment and the scheduler choose. */
  datatype Step =
    | Tick(now: int)
    | Enter(t: nat)
    | Decide(t: nat, now1: int, now2: int)
    | FallBack(t: nat)
    | TokenAnswer(t: nat, reply: Result<Issue>, now1: int, now2: int)
    | Send(t: nat)
    | ApiAnswer(t: nat, status: Option<int>, decodes: bool, effect: bool)
    | Drop(t: nat)
    | LogoutBegin(t: nat)
    | LogoutAnswer(t: nat, status: Option<int>)

  predicate InSection(pc: Pc) {
    pc.Deciding? || pc.Refreshing? || pc.FallingBack? || pc.LoggingIn? || pc.Invalidating? || pc.LoggingOut?
    || pc.AwaitingLogout?
  }

  function FirstPc(p: Policy, call: Call): Pc {
    match call
    case DoCall(authenticated) => if authenticated then AtToken else Sending
    case TokenCall => AtToken
    case InvalidateCall => AtInvalidate
    case LogoutCall => if p.logsOutRemotely then AtLogout else AtInvalidate
  }

  function Start(p: Policy, calls: seq<Call>, now: int): State {
    State(now, None, COLD, 0, 0,
      seq(|calls|, i requires 0 <= i < |calls| => Thread(calls[i], FirstPc(p, calls[i]), 0, 0, 0, None, None)), [])
  }

  function Record(s: State, t: nat, th: Thread, e: Event, now: int): State
    requires t < |s.threads|
  {
    s.(now := now, threads := s.threads[t := th], log := s.log + [Entry(t, now, e)])
  }

  /** GetToken has returned a token. */
  function WithToken(th: Thread, token: string, grant: nat): Thread {
    th.(bearer := Some(Bearer(token, grant)), pc := if th.call.DoCall? then Sending else Done(true))
  }

  predicate StandsAt(s: State, t: nat, pc: Pc) {
    t < |s.threads| && s.threads[t].pc == pc
  }

  predicate Enabled(s: State, step: Step) {
    match step
    case Tick(now) => s.now <= now
    case Enter(t) =>
      s.holder.None? && (StandsAt(s, t, AtToken) || StandsAt(s, t, AtInvalidate) || StandsAt(s, t, AtLogout))
    case Decide(t, now1, now2) => StandsAt(s, t, Deciding) && s.now <= now1 <= now2
    case FallBack(t) => StandsAt(s, t, FallingBack)
    case TokenAnswer(t, _, now1, now2) =>
      (StandsAt(s, t, Refreshing) || StandsAt(s, t, LoggingIn)) && s.now <= now1 <= now2
    case Send(t) => StandsAt(s, t, Sending)
    case ApiAnswer(t, _, _, _) => StandsAt(s, t, Awaiting)
    case Drop(t) => StandsAt(s, t, Invalidating)
    case LogoutBegin(t) => StandsAt(s, t, LoggingOut)
    case LogoutAnswer(t, _) => StandsAt(s, t, AwaitingLogout)
  }

  function DoEnter(s: State, t: nat): State
    requires Enabled(s, Enter(t))
  {
    var th := s.threads[t];
    var pc := if th.pc.AtToken? then Deciding else if th.pc.AtInvalidate? then Invalidating else LoggingOut;
    s.(holder := Some(t), threads := s.threads[t := th.(pc := pc)])
  }

  function DoDecide(p: Policy, s: State, t: nat, now1: int, now2: int): State
    requires Enabled(s, Decide(t, now1, now2))
  {
    var th := s.threads[t];
    if AccessUsable(p, s.cache, now1) then
      Record(s, t, WithToken(th, s.cache.access, s.accessGrant), Reused(s.accessGrant), now1).(holder := None)
    else if RefreshUsable(p, s.cache, now2) then
      Record(s, t, th.(pc := Refreshing, posted := |s.log|), Posted(Refresh(s.cache.refresh), s.refreshGrant), now2)
    else
      Record(s, t, th.(pc := LoggingIn, posted := |s.log|), Posted(Password, 0), now2)
  }

  function DoFallBack(s: State, t: nat): State
    requires Enabled(s, FallBack(t))
  {
    Record(s, t, s.threads[t].(pc := LoggingIn, posted := |s.log|), Posted(Password, 0), s.now)
  }

  function DoTokenAnswer(p: Policy, s: State, t: nat, reply: Result<Issue>, now1: int, now2: int): State
    requires Enabled(s, TokenAnswer(t, reply, now1, now2))
  {
    var th := s.threads[t];
    match Vet(p, reply)
    case Ok(i) =>
      var c := Store(p, s.cache, i, now1, now2);
      var e := Granted(th.posted, i, c.accessExpiry, c.refreshExpiry);
      Record(s, t, WithToken(th, i.access, |s.log|), e, now2).(
        holder := None, cache := c, accessGrant := |s.log|,
        refreshGrant := if Retains(p, i) then s.refreshGrant else |s.log|)
    case Err(e) =>
      if th.pc.Refreshing? && Declines(reply) then
        Record(s, t, th.(pc := FallingBack), Declined(th.posted), now2).(cache := DropRefresh(s.cache))
      else
        Record(s, t, th.(pc := Done(false), failure := Some(e)), Failed(th.posted, e), now2).(holder := None)
  }

  function DoSend(s: State, t: nat): State
    requires Enabled(s, Send(t))
  {
    var th := s.threads[t];
    Record(s, t, th.(pc := Awaiting), Sent(th.attempt, th.bearer), s.now)
  }

  function DoApiAnswer(s: State, t: nat, status: Option<int>, decodes: bool, effect: bool): State
    requires Enabled(s, ApiAnswer(t, status, decodes, effect))
  {
    var th := s.threads[t];
    var pc :=
      if status == Some(401) && th.call == DoCall(true) && th.attempt == 0 then AtInvalidate
      else Done(status.Some? && status.value < 400 && status.value != 260 && decodes);
    Record(s, t, th.(pc := pc), Answered(status, decodes, effect), s.now)
  }

  /** The grant of the token that a do about to invalidate was rejected with. */
  function RejectedWith(th: Thread): Option<nat> {
    if th.call.DoCall? && th.bearer.Some? then Some(th.bearer.value.grant) else None
  }

  function DoDrop(s: State, t: nat): State
    requires Enabled(s, Drop(t))
  {
    var th := s.threads[t];
    var next :=
      if th.call.DoCall? then th.(pc := AtToken, attempt := th.attempt + 1, dropped := |s.log|)
      else th.(pc := Done(true));
    Record(s, t, next, Invalidated(RejectedWith(th)), s.now).(holder := None, cache := Invalidate(s.cache))
  }

  function DoLogoutBegin(s: State, t: nat): State
    requires Enabled(s, LogoutBegin(t))
  {
    var th := s.threads[t];
    if s.cache.access == "" && s.cache.refresh == "" then
      Record(s, t, th.(pc := Done(true)), LogoutSkipped, s.now).(holder := None)
    else Record(s, t, th.(pc := AwaitingLogout), LogoutSent, s.now)
  }

  function DoLogoutAnswer(s: State, t: nat, status: Option<int>): State
    requires Enabled(s, LogoutAnswer(t, status))
  {
    var th := s.threads[t];
    var ok := status.Some? && status.value < 400;
    Record(s, t, th.(pc := Done(ok)), if ok then LoggedOut else LogoutFailed, s.now).(
      holder := None, cache := if ok then Clear(s.cache) else s.cache)
  }

  function Apply(p: Policy, s: State, step: Step): State
    requires Enabled(s, step)
  {
    match step
    case Tick(now) => s.(now := now)
    case Enter(t) => DoEnter(s, t)
    case Decide(t, now1, now2) => DoDecide(p, s, t, now1, now2)
    case FallBack(t) => DoFallBack(s, t)
    case TokenAnswer(t, reply, now1, now2) => DoTokenAnswer(p, s, t, reply, now1, now2)
    case Send(t) => DoSend(s, t)
    case ApiAnswer(t, status, decodes, effect) => DoApiAnswer(s, t, status, decodes, effect)
    case Drop(t) => DoDrop(s, t)
    case LogoutBegin(t) => DoLogoutBegin(s, t)
    case LogoutAnswer(t, status) => DoLogoutAnswer(s, t, status)
  }

  /** A schedule that can be followed from s. */
  predicate Runs(p: Policy, s: State, steps: seq<Step>)
    decreases |steps|
  {
    steps == [] || (Enabled(s, steps[0]) && Runs(p, Apply(p, s, steps[0]), steps[1..]))
  }

  function Follow(p: Policy, s: State, steps: seq<Step>): State
    requires Runs(p, s, steps)
    decreases |steps|
  {
    if steps == [] then s else Follow(p, Apply(p, s, steps[0]), steps[1..])
  }

  /** A step touches its own goroutine and adds at most one entry, of that goroutine. */
  lemma StepFrame(p: Policy, s: State, step: Step)
    requires Enabled(s, step) && !step.Tick?
    ensures var s' := Apply(p, s, step);
            && |s'.threads| == |s.threads|
            && (forall u | 0 <= u < |s.threads| && u != step.t :: s'.threads[u] == s.threads[u])
            && s'.threads[step.t].call == s.threads[step.t].call
            && (s'.log == s.log
                || (|s.log| < |s'.log| && s'.log == s.log + [s'.log[|s.log|]] && s'.log[|s.log|].tid == step.t))
  {
  }

  /** No goroutine appears, goes away or turns to another call. */
  lemma {:induction false} FollowFrame(p: Policy, s: State, steps: seq<Step>)
    requires Runs(p, s, steps)
    ensures |Follow(p, s, steps).threads| == |s.threads|
    ensures forall t | 0 <= t < |s.threads| :: Follow(p, s, steps).threads[t].call == s.threads[t].call
    decreases |steps|
  {
    if steps != [] {
      if !steps[0].Tick? {
        StepFrame(p, s, steps[0]);
      }
      FollowFrame(p, Apply(p, s, steps[0]), steps[1..]);
    }
  }
}
