/** The mutex is used as intended, no schedule runs forever, and none gets stuck. */
module Progress {
  import opened Outcomes
  import opened TokenCache
  import opened Protocol
  import opened Invariants
  import opened Preservation
  import opened Guarantees
  import opened Counting

  /** Whatever changes the cache is done by the goroutine that holds the mutex; a goroutine takes
      the mutex only when nobody holds it, and never asks for it while holding it. */
  lemma LockDiscipline(p: Policy, calls: seq<Call>, now: int, steps: seq<Step>, step: Step)
    requires Runs(p, Start(p, calls, now), steps) && Enabled(Outcome(p, calls, now, steps), step)
    ensures var s := Outcome(p, calls, now, steps);
            && (Apply(p, s, step).cache != s.cache ==> !step.Tick? && s.holder == Some(step.t))
            && (Apply(p, s, step).holder != s.holder ==>
                  !step.Tick? && (s.holder == Some(step.t) || (s.holder.None? && step.Enter?)))
            && forall t | 0 <= t < |s.threads| ::
                 (s.threads[t].pc.AtToken? || s.threads[t].pc.AtInvalidate? || s.threads[t].pc.AtLogout?
                  || s.threads[t].pc.Done? || s.threads[t].pc.Sending? || s.threads[t].pc.Awaiting?
                  ==> s.holder != Some(t))
  {
    OutcomeOk(p, calls, now, steps);
  }

  /** Steps a call may still take. */
  function Rank(th: Thread): nat {
    var replay := if th.call == DoCall(true) && th.attempt == 0 then 9 else 0;
    match th.pc
    case AtToken => 7 + replay
    case Deciding => 6 + replay
    case Refreshing => 5 + replay
    case FallingBack => 4 + replay
    case LoggingIn => 3 + replay
    case Sending => 2 + replay
    case Awaiting => 1 + replay
    case AtInvalidate => if th.call.DoCall? then 9 else 2
    case Invalidating => if th.call.DoCall? then 8 else 1
    case AtLogout => 3
    case LoggingOut => 2
    case AwaitingLogout => 1
    case Done(_) => 0
  }

  function TotalRank(threads: seq<Thread>): nat {
    if threads == [] then 0 else Rank(threads[0]) + TotalRank(threads[1..])
  }

  lemma {:induction false} RankAfterUpdate(threads: seq<Thread>, t: nat, th: Thread)
    requires t < |threads|
    ensures TotalRank(threads[t := th]) + Rank(threads[t]) == TotalRank(threads) + Rank(th)
  {
    if t > 0 {
      RankAfterUpdate(threads[1..], t - 1, th);
      assert threads[t := th][1..] == threads[1..][t - 1 := th];
    }
  }

  lemma OwnRankFalls(p: Policy, s: State, step: Step)
    requires Enabled(s, step) && !step.Tick? && Shape(p, s.threads[step.t])
    ensures step.t < |Apply(p, s, step).threads|
    ensures Rank(Apply(p, s, step).threads[step.t]) < Rank(s.threads[step.t])
  {
  }

  /** Every step of a goroutine brings the run nearer to its end; the clock's steps change no goroutine. */
  lemma RankFalls(p: Policy, s: State, step: Step)
    requires Inv(p, s) && Enabled(s, step)
    ensures TotalRank(Apply(p, s, step).threads) + (if step.Tick? then 0 else 1) <= TotalRank(s.threads)
  {
    if !step.Tick? {
      var s' := Apply(p, s, step);
      assert ThreadOk(p, s, step.t);
      StepFrame(p, s, step);
      assert s'.threads == s.threads[step.t := s'.threads[step.t]];
      RankAfterUpdate(s.threads, step.t, s'.threads[step.t]);
      OwnRankFalls(p, s, step);
    }
  }

  /** The number of steps taken by goroutines. */
  function Moves(steps: seq<Step>): nat {
    if steps == [] then 0 else (if steps[0].Tick? then 0 else 1) + Moves(steps[1..])
  }

  lemma {:induction false} MovesBounded(p: Policy, s: State, steps: seq<Step>)
    requires Inv(p, s) && Runs(p, s, steps)
    ensures Moves(steps) + TotalRank(Follow(p, s, steps).threads) <= TotalRank(s.threads)
    decreases |steps|
  {
    if steps != [] {
      StepOk(p, s, steps[0]);
      RankFalls(p, s, steps[0]);
      MovesBounded(p, Apply(p, s, steps[0]), steps[1..]);
    }
  }

  lemma {:induction false} RankAtStart(threads: seq<Thread>)
    requires forall t | 0 <= t < |threads| :: Rank(threads[t]) <= 16
    ensures TotalRank(threads) <= 16 * |threads|
  {
    if threads != [] {
      RankAtStart(threads[1..]);
    }
  }

  /** n calls take at most 16n steps between them, in any schedule. */
  lemma EveryRunEnds(p: Policy, calls: seq<Call>, now: int, steps: seq<Step>)
    requires Runs(p, Start(p, calls, now), steps)
    ensures Moves(steps) <= 16 * |calls|
  {
    StartOk(p, calls, now);
    MovesBounded(p, Start(p, calls, now), steps);
    RankAtStart(Start(p, calls, now).threads);
  }

  ghost predicate Finished(s: State) {
    forall t | 0 <= t < |s.threads| :: s.threads[t].pc.Done?
  }

  /** The next step of a goroutine that does not wait for the mutex; answers are failures. */
  function NextStep(s: State, t: nat): Step
    requires t < |s.threads|
  {
    match s.threads[t].pc
    case Deciding => Decide(t, s.now, s.now)
    case Refreshing => TokenAnswer(t, Err(Transport), s.now, s.now)
    case LoggingIn => TokenAnswer(t, Err(Transport), s.now, s.now)
    case FallingBack => FallBack(t)
    case Sending => Send(t)
    case Awaiting => ApiAnswer(t, None, false, false)
    case Invalidating => Drop(t)
    case LoggingOut => LogoutBegin(t)
    case AwaitingLogout => LogoutAnswer(t, None)
    case _ => Enter(t)
  }

  lemma NextStepEnabled(p: Policy, s: State, t: nat)
    requires t < |s.threads| && !s.threads[t].pc.Done? && Shape(p, s.threads[t])
    requires s.holder.None? || InSection(s.threads[t].pc)
    ensures Enabled(s, NextStep(s, t)) && !NextStep(s, t).Tick?
  {
  }

  /** While a call is unfinished, some goroutine can take a step. */
  lemma NoDeadlock(p: Policy, s: State) returns (step: Step)
    requires Inv(p, s) && !Finished(s)
    ensures Enabled(s, step) && !step.Tick?
  {
    var t: nat :| t < |s.threads| && !s.threads[t].pc.Done?;
    var mover := if s.holder.Some? then s.holder.value else t;
    assert ThreadOk(p, s, mover);
    assert InSection(s.threads[mover].pc) <==> s.holder == Some(mover);
    NextStepEnabled(p, s, mover);
    step := NextStep(s, mover);
  }

  lemma {:induction false} CanFinish(p: Policy, s: State) returns (steps: seq<Step>)
    requires Inv(p, s)
    ensures Runs(p, s, steps) && Finished(Follow(p, s, steps))
    decreases TotalRank(s.threads)
  {
    if Finished(s) {
      return [];
    }
    var step := NoDeadlock(p, s);
    var s' := Apply(p, s, step);
    StepOk(p, s, step);
    RankFalls(p, s, step);
    var rest := CanFinish(p, s');
    steps := [step] + rest;
    assert steps[1..] == rest;
  }

  /** From every state that any schedule reaches, all calls can be brought to their end. */
  lemma NeverStuck(p: Policy, calls: seq<Call>, now: int, steps: seq<Step>)
    requires Runs(p, Start(p, calls, now), steps)
    ensures exists more :: Runs(p, Outcome(p, calls, now, steps), more)
                        && Finished(Follow(p, Outcome(p, calls, now, steps), more))
  {
    OutcomeOk(p, calls, now, steps);
    var more := CanFinish(p, Outcome(p, calls, now, steps));
  }
}
