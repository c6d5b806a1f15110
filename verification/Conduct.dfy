/** What a do makes of its tokens and answers while other goroutines run: the same as the sequential do. */
module Conduct {
  import opened Outcomes
  import opened TokenCache
  import opened Protocol
  import opened Invariants
  import opened Preservation
  import opened Guarantees
  import Calls
  import World

  type Answer = Calls.ApiReply<()>

  /** All that a goroutine has got and sent: what its GetToken calls returned, the bearers of its requests,
      and the answers to them, each in order. */
  datatype Talk = Talk(tokens: seq<Result<string>>, sent: seq<Option<string>>, answers: seq<Answer>)

  const SILENCE := Talk([], [], [])

  /** The answer as do sees it; without a body that decodes, if one is wanted, it carries none. */
  function AsReply(status: Option<int>, decodes: bool, effect: bool): Answer {
    if status.None? then Calls.Lost(effect)
    else Calls.Reply(status.value, if decodes then Some(()) else None, effect)
  }

  /** What one entry adds to the talk of its goroutine. */
  function Added(log: Log, talk: Talk, event: Event): Talk {
    match event
    case Reused(source) =>
      var token := if Granting(log, source) then Ok(log[source].event.issue.access) else Err(NoToken);
      talk.(tokens := talk.tokens + [token])
    case Granted(_, issue, _, _) => talk.(tokens := talk.tokens + [Ok(issue.access)])
    case Failed(_, error) => talk.(tokens := talk.tokens + [Err(error)])
    case Sent(_, bearer) =>
      talk.(sent := talk.sent + [if bearer.Some? then Some(bearer.value.token) else None])
    case Answered(status, decodes, effect) => talk.(answers := talk.answers + [AsReply(status, decodes, effect)])
    case _ => talk
  }

  function TalkOf(log: Log, t: nat): Talk {
    if log == [] then SILENCE
    else
      var before, last := log[..|log| - 1], log[|log| - 1];
      if last.tid == t then Added(before, TalkOf(before, t), last.event) else TalkOf(before, t)
  }

  lemma TalkGoesOn(log: Log, e: Entry, t: nat)
    ensures TalkOf(log + [e], t) ==
              if e.tid == t then Added(log, TalkOf(log, t), e.event) else TalkOf(log, t)
  {
    assert (log + [e])[..|log|] == log;
  }

  function AnswerIn(step: Step, t: nat): seq<Answer> {
    if step.ApiAnswer? && step.t == t then [AsReply(step.status, step.decodes, step.effect)] else []
  }

  /** The answers that a schedule brings to t's requests. */
  function AnswersIn(steps: seq<Step>, t: nat): seq<Answer> {
    if steps == [] then [] else AnswerIn(steps[0], t) + AnswersIn(steps[1..], t)
  }

  lemma AddedAnswer(log: Log, talk: Talk, event: Event)
    requires !event.Answered?
    ensures Added(log, talk, event).answers == talk.answers
  {
  }

  /** Only the answer to an API request is recorded as one. */
  lemma OthersDoNotAnswer(p: Policy, s: State, step: Step)
    requires Enabled(s, step) && !step.ApiAnswer? && Apply(p, s, step).log != s.log
    ensures |s.log| < |Apply(p, s, step).log| && !Apply(p, s, step).log[|s.log|].event.Answered?
  {
  }

  lemma StepAnswers(p: Policy, s: State, step: Step, t: nat)
    requires Enabled(s, step)
    ensures TalkOf(Apply(p, s, step).log, t).answers == TalkOf(s.log, t).answers + AnswerIn(step, t)
  {
    var log := Apply(p, s, step).log;
    if log != s.log {
      StepFrame(p, s, step);
      TalkGoesOn(s.log, log[|s.log|], t);
      if !step.ApiAnswer? {
        OthersDoNotAnswer(p, s, step);
        AddedAnswer(s.log, TalkOf(s.log, t), log[|s.log|].event);
      }
    }
  }

  lemma AnswersJoin(before: seq<Answer>, first: seq<Answer>, rest: seq<Answer>)
    ensures (before + first) + rest == before + (first + rest)
  {
  }

  lemma {:induction false} FollowAnswers(p: Policy, s: State, steps: seq<Step>, t: nat)
    requires Runs(p, s, steps)
    ensures TalkOf(Follow(p, s, steps).log, t).answers == TalkOf(s.log, t).answers + AnswersIn(steps, t)
    decreases |steps|
  {
    if steps != [] {
      var s1 := Apply(p, s, steps[0]);
      StepAnswers(p, s, steps[0], t);
      FollowAnswers(p, s1, steps[1..], t);
      AnswersJoin(TalkOf(s.log, t).answers, AnswerIn(steps[0], t), AnswersIn(steps[1..], t));
    }
  }

  predicate Refused(answer: Answer) {
    answer.Reply? && answer.status == 401
  }

  /** The bearers are the tokens obtained, one for each request. */
  ghost predicate Bears(talk: Talk, authenticated: bool) {
    forall i | 0 <= i < |talk.sent| ::
      if authenticated then i < |talk.tokens| && talk.tokens[i].Ok? && talk.sent[i] == Some(talk.tokens[i].value)
      else talk.sent[i] == None
  }

  predicate Lengths(talk: Talk, tokens: nat, sent: nat, answers: nat) {
    |talk.tokens| == tokens && |talk.sent| == sent && |talk.answers| == answers
  }

  /** How far an authenticated do has got in attempt `a`. */
  ghost predicate AuthenticatedAt(th: Thread, talk: Talk) {
    var a := th.attempt;
    && a <= 1 && (a == 1 ==> |talk.answers| >= 1 && Refused(talk.answers[0]))
    && match th.pc
       case AtToken => Lengths(talk, a, a, a)
       case Deciding => Lengths(talk, a, a, a)
       case Refreshing => Lengths(talk, a, a, a)
       case FallingBack => Lengths(talk, a, a, a)
       case LoggingIn => Lengths(talk, a, a, a)
       case Sending =>
         Lengths(talk, a + 1, a, a) && th.bearer.Some? && talk.tokens[a] == Ok(th.bearer.value.token)
       case Awaiting => Lengths(talk, a + 1, a + 1, a)
       case AtInvalidate => a == 0 && Lengths(talk, 1, 1, 1) && Refused(talk.answers[0])
       case Invalidating => a == 0 && Lengths(talk, 1, 1, 1) && Refused(talk.answers[0])
       case Done(ok) =>
         || (Lengths(talk, a + 1, a, a) && talk.tokens[a].Err? && !ok)
         || (Lengths(talk, a + 1, a + 1, a + 1) && (a == 0 ==> !Refused(talk.answers[0]))
             && (ok <==> Calls.Judge(talk.answers[a], Calls.Decode).Ok?))
       case _ => false
  }

  /** An unauthenticated do asks for no token and does not replay. */
  ghost predicate AnonymousAt(th: Thread, talk: Talk) {
    match th.pc
    case Sending => Lengths(talk, 0, 0, 0) && th.bearer.None?
    case Awaiting => Lengths(talk, 0, 1, 0)
    case Done(ok) => Lengths(talk, 0, 1, 1) && (ok <==> Calls.Judge(talk.answers[0], Calls.Decode).Ok?)
    case _ => false
  }

  /** A goroutine that runs do stands where its talk says. */
  ghost predicate InCharacter(th: Thread, talk: Talk) {
    th.call.DoCall? ==>
      && Bears(talk, th.call.authenticated)
      && if th.call.authenticated then AuthenticatedAt(th, talk) else AnonymousAt(th, talk)
  }

  ghost predicate Conducts(s: State, t: nat)
    requires t < |s.threads|
  {
    InCharacter(s.threads[t], TalkOf(s.log, t))
  }

  ghost predicate AllConduct(s: State) {
    forall t | 0 <= t < |s.threads| :: Conducts(s, t)
  }

  /** One more token, or a failure to get one. */
  lemma TokenInCharacter(th: Thread, th': Thread, talk: Talk, talk': Talk, result: Result<string>)
    requires InCharacter(th, talk) && talk' == talk.(tokens := talk.tokens + [result])
    requires th.pc.Deciding? || th.pc.Refreshing? || th.pc.LoggingIn?
    requires th'.call == th.call && th'.attempt == th.attempt
    requires th.call.DoCall? ==>
               if result.Ok? then th'.pc.Sending? && th'.bearer.Some? && th'.bearer.value.token == result.value
               else th'.pc == Done(false)
    ensures InCharacter(th', talk')
  {
    assert forall i | 0 <= i < |talk.tokens| :: talk'.tokens[i] == talk.tokens[i];
  }

  lemma ReuseConducts(p: Policy, s: State, step: Step)
    requires CacheOk(p, s) && Enabled(s, step) && step.Decide? && AccessUsable(p, s.cache, step.now1)
    requires Conducts(s, step.t)
    ensures step.t < |Apply(p, s, step).threads| && Conducts(Apply(p, s, step), step.t)
  {
    var s' := Apply(p, s, step);
    TalkGoesOn(s.log, s'.log[|s.log|], step.t);
    TokenInCharacter(s.threads[step.t], s'.threads[step.t], TalkOf(s.log, step.t), TalkOf(s'.log, step.t),
                     Ok(s.cache.access));
  }

  lemma GrantConducts(p: Policy, s: State, step: Step)
    requires Enabled(s, step) && step.TokenAnswer? && Vet(p, step.reply).Ok? && Conducts(s, step.t)
    ensures step.t < |Apply(p, s, step).threads| && Conducts(Apply(p, s, step), step.t)
  {
    var s' := Apply(p, s, step);
    TalkGoesOn(s.log, s'.log[|s.log|], step.t);
    TokenInCharacter(s.threads[step.t], s'.threads[step.t], TalkOf(s.log, step.t), TalkOf(s'.log, step.t),
                     Ok(Vet(p, step.reply).value.access));
  }

  lemma FailureConducts(p: Policy, s: State, step: Step)
    requires Enabled(s, step) && step.TokenAnswer? && Vet(p, step.reply).Err? && Conducts(s, step.t)
    requires !(s.threads[step.t].pc.Refreshing? && Declines(step.reply))
    ensures step.t < |Apply(p, s, step).threads| && Conducts(Apply(p, s, step), step.t)
  {
    var s' := Apply(p, s, step);
    TalkGoesOn(s.log, s'.log[|s.log|], step.t);
    TokenInCharacter(s.threads[step.t], s'.threads[step.t], TalkOf(s.log, step.t), TalkOf(s'.log, step.t),
                     Err(Vet(p, step.reply).error));
  }

  predicate Seeking(pc: Pc) {
    pc.AtToken? || pc.Deciding? || pc.Refreshing? || pc.FallingBack? || pc.LoggingIn?
  }

  lemma StillSeeking(th: Thread, th': Thread, talk: Talk, talk': Talk)
    requires InCharacter(th, talk) && talk' == talk && Seeking(th.pc) && Seeking(th'.pc)
    requires th'.call == th.call && th'.attempt == th.attempt
    ensures InCharacter(th', talk')
  {
  }

  /** Steps within GetToken that post a grant or are declined one. */
  lemma PostConducts(p: Policy, s: State, step: Step)
    requires Enabled(s, step) && step.Decide? && Conducts(s, step.t)
    requires !AccessUsable(p, s.cache, step.now1)
    ensures step.t < |Apply(p, s, step).threads| && Conducts(Apply(p, s, step), step.t)
  {
    var s' := Apply(p, s, step);
    TalkGoesOn(s.log, s'.log[|s.log|], step.t);
    StillSeeking(s.threads[step.t], s'.threads[step.t], TalkOf(s.log, step.t), TalkOf(s'.log, step.t));
  }

  lemma FallBackConducts(p: Policy, s: State, step: Step)
    requires Enabled(s, step) && step.FallBack? && Conducts(s, step.t)
    ensures step.t < |Apply(p, s, step).threads| && Conducts(Apply(p, s, step), step.t)
  {
    var s' := Apply(p, s, step);
    TalkGoesOn(s.log, s'.log[|s.log|], step.t);
    StillSeeking(s.threads[step.t], s'.threads[step.t], TalkOf(s.log, step.t), TalkOf(s'.log, step.t));
  }

  lemma DeclineRecorded(p: Policy, s: State, step: Step)
    requires Enabled(s, step) && step.TokenAnswer?
    requires s.threads[step.t].pc.Refreshing? && Declines(step.reply)
    ensures var s', th := Apply(p, s, step), s.threads[step.t];
            && s'.threads == s.threads[step.t := th.(pc := FallingBack)]
            && s'.log == s.log + [Entry(step.t, step.now2, Declined(th.posted))]
  {
    assert Vet(p, step.reply).Err?;
  }

  lemma DeclineConducts(p: Policy, s: State, step: Step)
    requires Enabled(s, step) && step.TokenAnswer? && Conducts(s, step.t)
    requires s.threads[step.t].pc.Refreshing? && Declines(step.reply)
    ensures step.t < |Apply(p, s, step).threads| && Conducts(Apply(p, s, step), step.t)
  {
    var s' := Apply(p, s, step);
    DeclineRecorded(p, s, step);
    TalkGoesOn(s.log, s'.log[|s.log|], step.t);
    StillSeeking(s.threads[step.t], s'.threads[step.t], TalkOf(s.log, step.t), TalkOf(s'.log, step.t));
  }

  /** A request goes out with the token obtained last, or with none. */
  lemma SentInCharacter(th: Thread, th': Thread, talk: Talk, talk': Talk)
    requires InCharacter(th, talk) && th.pc.Sending?
    requires talk' == talk.(sent := talk.sent + [if th.bearer.Some? then Some(th.bearer.value.token) else None])
    requires th'.call == th.call && th'.attempt == th.attempt && th'.pc.Awaiting?
    ensures InCharacter(th', talk')
  {
  }

  lemma SendConducts(p: Policy, s: State, step: Step)
    requires Enabled(s, step) && step.Send? && Conducts(s, step.t)
    ensures step.t < |Apply(p, s, step).threads| && Conducts(Apply(p, s, step), step.t)
  {
    var s' := Apply(p, s, step);
    TalkGoesOn(s.log, s'.log[|s.log|], step.t);
    SentInCharacter(s.threads[step.t], s'.threads[step.t], TalkOf(s.log, step.t), TalkOf(s'.log, step.t));
  }

  /** The answer to a request either ends the do with the verdict on it, or, a first 401, sends it on. */
  lemma AnswerInCharacter(th: Thread, th': Thread, talk: Talk, talk': Talk, answer: Answer)
    requires InCharacter(th, talk) && th.pc.Awaiting? && talk' == talk.(answers := talk.answers + [answer])
    requires th'.call == th.call && th'.attempt == th.attempt
    requires th'.pc == if Refused(answer) && th.call == DoCall(true) && th.attempt == 0 then AtInvalidate
                       else Done(Calls.Judge(answer, Calls.Decode).Ok?)
    ensures InCharacter(th', talk')
  {
    if talk.answers != [] {
      assert talk'.answers[0] == talk.answers[0];
    }
  }

  lemma AnswerConducts(p: Policy, s: State, step: Step)
    requires Enabled(s, step) && step.ApiAnswer? && Conducts(s, step.t)
    ensures step.t < |Apply(p, s, step).threads| && Conducts(Apply(p, s, step), step.t)
  {
    var s' := Apply(p, s, step);
    TalkGoesOn(s.log, s'.log[|s.log|], step.t);
    AnswerInCharacter(s.threads[step.t], s'.threads[step.t], TalkOf(s.log, step.t), TalkOf(s'.log, step.t),
                      AsReply(step.status, step.decodes, step.effect));
  }

  lemma EnterConducts(p: Policy, s: State, step: Step)
    requires Enabled(s, step) && step.Enter? && Conducts(s, step.t)
    ensures step.t < |Apply(p, s, step).threads| && Conducts(Apply(p, s, step), step.t)
  {
  }

  /** An invalidation after a 401 sends the do back for another token. */
  lemma DropConducts(p: Policy, s: State, step: Step)
    requires Enabled(s, step) && step.Drop? && Conducts(s, step.t)
    ensures step.t < |Apply(p, s, step).threads| && Conducts(Apply(p, s, step), step.t)
  {
    TalkGoesOn(s.log, Apply(p, s, step).log[|s.log|], step.t);
  }

  lemma LogoutConducts(p: Policy, s: State, step: Step)
    requires Enabled(s, step) && (step.LogoutBegin? || step.LogoutAnswer?) && Shape(p, s.threads[step.t])
    ensures step.t < |Apply(p, s, step).threads| && Conducts(Apply(p, s, step), step.t)
  {
  }

  lemma MoverConducts(p: Policy, s: State, step: Step)
    requires CacheOk(p, s) && Enabled(s, step) && !step.Tick? && Shape(p, s.threads[step.t]) && Conducts(s, step.t)
    ensures step.t < |Apply(p, s, step).threads| && Conducts(Apply(p, s, step), step.t)
  {
    match step
    case Enter(_) => EnterConducts(p, s, step);
    case Decide(_, now1, _) =>
      if AccessUsable(p, s.cache, now1) {
        ReuseConducts(p, s, step);
      } else {
        PostConducts(p, s, step);
      }
    case FallBack(_) => FallBackConducts(p, s, step);
    case TokenAnswer(_, reply, _, _) =>
      if Vet(p, reply).Ok? {
        GrantConducts(p, s, step);
      } else if s.threads[step.t].pc.Refreshing? && Declines(reply) {
        DeclineConducts(p, s, step);
      } else {
        FailureConducts(p, s, step);
      }
    case Send(_) => SendConducts(p, s, step);
    case ApiAnswer(_, _, _, _) => AnswerConducts(p, s, step);
    case Drop(_) => DropConducts(p, s, step);
    case _ => LogoutConducts(p, s, step);
  }

  lemma StepConducts(p: Policy, s: State, step: Step)
    requires Inv(p, s) && AllConduct(s) && Enabled(s, step)
    ensures AllConduct(Apply(p, s, step))
  {
    var s' := Apply(p, s, step);
    if step.Tick? {
      assert forall t | 0 <= t < |s.threads| :: Conducts(s, t) ==> Conducts(s', t);
    } else {
      StepFrame(p, s, step);
      assert ThreadOk(p, s, step.t);
      MoverConducts(p, s, step);
      forall t | 0 <= t < |s.threads| && t != step.t
        ensures Conducts(s', t)
      {
        assert Conducts(s, t);
        if s'.log != s.log {
          TalkGoesOn(s.log, s'.log[|s.log|], t);
        }
      }
    }
  }

  lemma {:induction false} FollowConducts(p: Policy, s: State, steps: seq<Step>)
    requires Inv(p, s) && AllConduct(s) && Runs(p, s, steps)
    ensures AllConduct(Follow(p, s, steps))
    decreases |steps|
  {
    if steps != [] {
      StepOk(p, s, steps[0]);
      StepConducts(p, s, steps[0]);
      FollowConducts(p, Apply(p, s, steps[0]), steps[1..]);
    }
  }

  /** The last thing t did. */
  function LastOf(log: Log, t: nat): Option<Event> {
    if log == [] then None
    else if log[|log| - 1].tid == t then Some(log[|log| - 1].event)
    else LastOf(log[..|log| - 1], t)
  }

  lemma LastOfMore(log: Log, e: Entry, t: nat)
    ensures LastOf(log + [e], t) == if e.tid == t then Some(e.event) else LastOf(log, t)
  {
    assert (log + [e])[..|log|] == log;
  }

  /** What a call that succeeded, or did not, has done last. */
  predicate EndsWith(p: Policy, call: Call, ok: bool, event: Event) {
    match call
    case DoCall(_) => event.Answered? || (event.Failed? && !ok)
    case TokenCall => if ok then event.Reused? || event.Granted? else event.Failed?
    case InvalidateCall => ok && event.Invalidated?
    case LogoutCall =>
      if !p.logsOutRemotely then ok && event.Invalidated?
      else if ok then event.LoggedOut? || event.LogoutSkipped?
      else event.LogoutFailed?
  }

  ghost predicate HasActed(p: Policy, s: State, t: nat)
    requires t < |s.threads|
  {
    var th := s.threads[t];
    th.pc.Done? ==> LastOf(s.log, t).Some? && EndsWith(p, th.call, th.pc.ok, LastOf(s.log, t).value)
  }

  ghost predicate AllHaveActed(p: Policy, s: State) {
    forall t | 0 <= t < |s.threads| :: HasActed(p, s, t)
  }

  /** The step that ends a call records its end. */
  lemma EndIsRecorded(p: Policy, s: State, step: Step)
    requires Enabled(s, step) && !step.Tick? && Shape(p, s.threads[step.t])
    ensures var s' := Apply(p, s, step);
            step.t < |s'.threads| && (s'.threads[step.t].pc.Done? ==>
              && |s'.log| == |s.log| + 1
              && EndsWith(p, s'.threads[step.t].call, s'.threads[step.t].pc.ok, s'.log[|s.log|].event))
  {
  }

  lemma MoverActs(p: Policy, s: State, step: Step)
    requires Enabled(s, step) && !step.Tick? && Shape(p, s.threads[step.t])
    ensures step.t < |Apply(p, s, step).threads| && HasActed(p, Apply(p, s, step), step.t)
  {
    EndIsRecorded(p, s, step);
    StepFrame(p, s, step);
    var log := Apply(p, s, step).log;
    if log != s.log {
      LastOfMore(s.log, log[|s.log|], step.t);
    }
  }

  lemma StepActs(p: Policy, s: State, step: Step)
    requires Inv(p, s) && AllHaveActed(p, s) && Enabled(s, step)
    ensures AllHaveActed(p, Apply(p, s, step))
  {
    var s' := Apply(p, s, step);
    if step.Tick? {
      assert forall t | 0 <= t < |s.threads| :: HasActed(p, s, t) ==> HasActed(p, s', t);
    } else {
      StepFrame(p, s, step);
      assert ThreadOk(p, s, step.t);
      MoverActs(p, s, step);
      forall t | 0 <= t < |s.threads| && t != step.t
        ensures HasActed(p, s', t)
      {
        assert HasActed(p, s, t);
        if s'.log != s.log {
          LastOfMore(s.log, s'.log[|s.log|], t);
        }
      }
    }
  }

  lemma {:induction false} FollowActs(p: Policy, s: State, steps: seq<Step>)
    requires Inv(p, s) && AllHaveActed(p, s) && Runs(p, s, steps)
    ensures AllHaveActed(p, Follow(p, s, steps))
    decreases |steps|
  {
    if steps != [] {
      StepOk(p, s, steps[0]);
      StepActs(p, s, steps[0]);
      FollowActs(p, Apply(p, s, steps[0]), steps[1..]);
    }
  }

  /** No call ends without having done its part: InvalidateToken has dropped the access token, Logout has
      dropped it, been accepted by the server, or found nothing to log out of, and GetToken has a token. */
  lemma FinishedCallsHaveActed(p: Policy, calls: seq<Call>, now: int, steps: seq<Step>, t: nat)
    requires Runs(p, Start(p, calls, now), steps) && t < |calls|
    ensures var s := Outcome(p, calls, now, steps);
            && t < |s.threads| && s.threads[t].call == calls[t]
            && (s.threads[t].pc.Done? ==>
                  LastOf(s.log, t).Some? && EndsWith(p, calls[t], s.threads[t].pc.ok, LastOf(s.log, t).value))
  {
    var s0 := Start(p, calls, now);
    StartOk(p, calls, now);
    assert AllHaveActed(p, s0);
    FollowActs(p, s0, steps);
    FollowFrame(p, s0, steps);
    assert HasActed(p, Outcome(p, calls, now, steps), t);
  }

  /** A token source that returns these results one after the other, from the k-th clock reading on. */
  function Scripted(tokens: seq<Result<string>>, k: nat): Calls.TokenFetch {
    (e: Calls.Env) =>
      if k <= e.ticks < k + |tokens| then (e.(ticks := e.ticks + 1), tokens[e.ticks - k]) else (e, Err(Transport))
  }

  function Served(answers: seq<Answer>): nat -> Answer {
    (i: nat) => if i < |answers| then answers[i] else Calls.Lost(false)
  }

  function Requests(q: World.Request, bearers: seq<Option<string>>): seq<World.Sent> {
    seq(|bearers|, i requires 0 <= i < |bearers| => World.Sent(q, bearers[i]))
  }

  function EffectsOf(answers: seq<Answer>): nat {
    if answers == [] then 0 else Calls.Effect(answers[0]) + EffectsOf(answers[1..])
  }

  /** The sequential do, given what t's GetToken calls returned and the answers to its requests, sends the
      requests of t, has their effects, uses up all the tokens and all the answers, and ends as t did. */
  ghost predicate AsSequential(talk: Talk, authenticated: bool, ok: bool, q: World.Request, e: Calls.Env) {
    var (e', r) := Calls.Do(
                     Scripted(talk.tokens, e.ticks), e, q, authenticated, Served(talk.answers), Calls.Decode);
    && e'.sent == e.sent + Requests(q, talk.sent)
    && e'.effects == e.effects + EffectsOf(talk.answers)
    && e'.ticks == e.ticks + |talk.tokens| && |talk.answers| == |talk.sent|
    && (r.Ok? <==> ok)
  }

  lemma AnonymousAsSequential(th: Thread, talk: Talk, q: World.Request, e: Calls.Env)
    requires th.call == DoCall(false) && th.pc.Done? && InCharacter(th, talk)
    ensures AsSequential(talk, false, th.pc.ok, q, e)
  {
    assert talk.answers == [talk.answers[0]] && talk.answers[1..] == [];
    assert Requests(q, talk.sent) == [World.Sent(q, None)];
  }

  /** The first attempt fails to get a token, or its answer is not a 401. */
  lemma FirstAttemptAsSequential(th: Thread, talk: Talk, q: World.Request, e: Calls.Env)
    requires th.call == DoCall(true) && th.pc.Done? && th.attempt == 0 && InCharacter(th, talk)
    ensures AsSequential(talk, true, th.pc.ok, q, e)
  {
    if talk.answers == [] {
      assert Requests(q, talk.sent) == [];
    } else {
      assert talk.answers == [talk.answers[0]] && talk.answers[1..] == [];
      assert Requests(q, talk.sent) == [World.Sent(q, talk.sent[0])];
    }
  }

  /** The second attempt, after a 401, for which no token is had. */
  lemma LostReplayAsSequential(talk: Talk, q: World.Request, e: Calls.Env)
    requires Bears(talk, true) && Lengths(talk, 2, 1, 1) && Refused(talk.answers[0]) && talk.tokens[1].Err?
    ensures AsSequential(talk, true, false, q, e)
  {
    Calls.DoSends(Scripted(talk.tokens, e.ticks), e, q, true, Served(talk.answers), Calls.Decode);
    assert talk.sent[0] == Some(talk.tokens[0].value);
    assert talk.answers[1..] == [];
    assert Requests(q, talk.sent) == [World.Sent(q, talk.sent[0])];
  }

  /** The second attempt, after a 401, and the answer to it. */
  lemma ReplayAsSequential(talk: Talk, ok: bool, q: World.Request, e: Calls.Env)
    requires Bears(talk, true) && Lengths(talk, 2, 2, 2) && Refused(talk.answers[0])
    requires ok <==> Calls.Judge(talk.answers[1], Calls.Decode).Ok?
    ensures AsSequential(talk, true, ok, q, e)
  {
    Calls.DoSends(Scripted(talk.tokens, e.ticks), e, q, true, Served(talk.answers), Calls.Decode);
    assert talk.sent[0] == Some(talk.tokens[0].value) && talk.sent[1] == Some(talk.tokens[1].value);
    assert talk.answers[1..] == [talk.answers[1]] && [talk.answers[1]][1..] == [];
    assert EffectsOf([talk.answers[1]]) == Calls.Effect(talk.answers[1]) + EffectsOf([]);
    assert Requests(q, talk.sent) == [World.Sent(q, talk.sent[0])] + [World.Sent(q, talk.sent[1])];
  }

  /** A do succeeds exactly if it got an answer at all and the last one has a status below 400 other than
      260 and a body that decodes. */
  ghost predicate EndsOnLastAnswer(talk: Talk, ok: bool) {
    ok <==> talk.answers != [] &&
            var last := talk.answers[|talk.answers| - 1];
            last.Reply? && last.status < 400 && last.status != 260 && last.body.Some?
  }

  lemma FinishedOnLastAnswer(th: Thread, talk: Talk)
    requires th.call.DoCall? && th.pc.Done? && InCharacter(th, talk)
    ensures EndsOnLastAnswer(talk, th.pc.ok)
  {
  }

  lemma FinishedAsSequential(th: Thread, talk: Talk, q: World.Request, e: Calls.Env)
    requires th.call.DoCall? && th.pc.Done? && InCharacter(th, talk)
    ensures AsSequential(talk, th.call.authenticated, th.pc.ok, q, e)
  {
    if !th.call.authenticated {
      AnonymousAsSequential(th, talk, q, e);
    } else if th.attempt == 0 {
      FirstAttemptAsSequential(th, talk, q, e);
    } else if |talk.answers| == 1 {
      LostReplayAsSequential(talk, q, e);
    } else {
      ReplayAsSequential(talk, th.pc.ok, q, e);
    }
  }

  lemma StartConducts(p: Policy, calls: seq<Call>, now: int)
    ensures AllConduct(Start(p, calls, now))
  {
  }

  /** Over every schedule, a finished do, among any number of other calls, was given the answers that the
      schedule brought to its requests, has done what the sequential do does with those and with what its
      GetToken calls returned, and ended on its last answer. */
  lemma DoAmongOthers(
    p: Policy, calls: seq<Call>, now: int, steps: seq<Step>, t: nat, q: World.Request, e: Calls.Env)
    requires Runs(p, Start(p, calls, now), steps)
    requires t < |calls| && calls[t].DoCall?
    ensures var s := Outcome(p, calls, now, steps);
            && t < |s.threads| && s.threads[t].call == calls[t]
            && (s.threads[t].pc.Done? ==>
                  var talk, ok := TalkOf(s.log, t), s.threads[t].pc.ok;
                  && talk.answers == AnswersIn(steps, t)
                  && AsSequential(talk, calls[t].authenticated, ok, q, e)
                  && EndsOnLastAnswer(talk, ok))
  {
    var s0 := Start(p, calls, now);
    StartOk(p, calls, now);
    StartConducts(p, calls, now);
    FollowConducts(p, s0, steps);
    FollowFrame(p, s0, steps);
    FollowAnswers(p, s0, steps, t);
    var s := Outcome(p, calls, now, steps);
    assert Conducts(s, t);
    if s.threads[t].pc.Done? {
      FinishedAsSequential(s.threads[t], TalkOf(s.log, t), q, e);
      FinishedOnLastAnswer(s.threads[t], TalkOf(s.log, t));
    }
  }
}
