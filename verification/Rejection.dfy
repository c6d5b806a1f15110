/** What the invalidation after a 401 drops: the token that was rejected, or one granted since. */
module Rejection {
  import opened Outcomes
  import opened TokenCache
  import opened Protocol
  import opened Invariants
  import opened Preservation
  import opened Guarantees

  /** Before entry n the token of grant g has neither been dropped nor replaced by another grant. */
  ghost predicate LiveAt(log: Log, g: nat, n: nat)
    requires n <= |log|
  {
    && g < n && log[g].event.Granted? && log[g].event.issue.access != ""
    && forall k | g < k < n :: !Ends(log[k]) && !log[k].event.Granted?
  }

  /** Entry i is the invalidation of a do that comes too late: a token newer than the one it was
      rejected with is live. */
  ghost predicate Late(log: Log, i: nat)
    requires i < |log|
  {
    && log[i].event.Invalidated? && log[i].event.rejected.Some?
    && exists g: nat :: log[i].event.rejected.value < g && LiveAt(log, g, i)
  }

  /** Before entry n, t has sent its first request with the token of grant b. */
  ghost predicate SentWith(log: Log, t: nat, b: nat, n: nat)
    requires n <= |log|
  {
    exists j: nat :: j < n && log[j].tid == t && log[j].event.Sent? && log[j].event.attempt == 0
                     && log[j].event.bearer.Some? && log[j].event.bearer.value.grant == b
  }

  /** And has been answered 401. */
  ghost predicate RefusedWith(log: Log, t: nat, b: nat, n: nat)
    requires n <= |log|
  {
    exists k: nat :: k < n && log[k].tid == t && log[k].event.Answered? && log[k].event.status == Some(401)
                     && SentWith(log, t, b, k)
  }

  /** A do invalidates because of a token of its own that the server has refused. */
  ghost predicate RejectionOk(log: Log, i: nat)
    requires i < |log|
  {
    log[i].event.Invalidated? && log[i].event.rejected.Some? ==>
      var b := log[i].event.rejected.value;
      b < i && Granting(log, b) && RefusedWith(log, log[i].tid, b, i)
  }

  ghost predicate RejectorOk(s: State, t: nat)
    requires t < |s.threads|
  {
    var th := s.threads[t];
    th.call == DoCall(true) && th.attempt == 0 ==>
      && (th.pc.Awaiting? ==> th.bearer.Some? && SentWith(s.log, t, th.bearer.value.grant, |s.log|))
      && (th.pc.AtInvalidate? || th.pc.Invalidating? ==>
            th.bearer.Some? && RefusedWith(s.log, t, th.bearer.value.grant, |s.log|))
  }

  /** A live token is the cached one. */
  ghost predicate LiveIsCached(s: State) {
    forall g: nat | LiveAt(s.log, g, |s.log|) :: s.cache.access != "" && s.accessGrant == g
  }

  ghost predicate Traced(s: State) {
    && LiveIsCached(s)
    && (forall i | 0 <= i < |s.log| :: RejectionOk(s.log, i))
    && forall t | 0 <= t < |s.threads| :: RejectorOk(s, t)
  }

  lemma SentStays(log: Log, e: Entry, t: nat, b: nat, n: nat)
    requires n <= |log| && SentWith(log, t, b, n)
    ensures SentWith(log + [e], t, b, n)
  {
    var j: nat :| j < n && log[j].tid == t && log[j].event.Sent? && log[j].event.attempt == 0
                  && log[j].event.bearer.Some? && log[j].event.bearer.value.grant == b;
    assert (log + [e])[j].tid == t;
  }

  /** What is true before entry n stays true when the log grows. */
  lemma LogGrowsTraced(log: Log, e: Entry, t: nat, b: nat, n: nat)
    requires n <= |log|
    ensures SentWith(log, t, b, n) ==> SentWith(log + [e], t, b, n)
    ensures RefusedWith(log, t, b, n) ==> RefusedWith(log + [e], t, b, n)
  {
    var log' := log + [e];
    assert forall k | 0 <= k < |log| :: log'[k] == log[k];
    if SentWith(log, t, b, n) {
      SentStays(log, e, t, b, n);
    }
    if RefusedWith(log, t, b, n) {
      var k: nat :| k < n && log[k].tid == t && log[k].event.Answered? && log[k].event.status == Some(401)
                    && SentWith(log, t, b, k);
      SentStays(log, e, t, b, k);
      assert log'[k].tid == t;
    }
  }

  /** And stays true before a later entry. */
  lemma LaterToo(log: Log, t: nat, b: nat, n: nat, m: nat)
    requires n <= m <= |log|
    ensures SentWith(log, t, b, n) ==> SentWith(log, t, b, m)
    ensures RefusedWith(log, t, b, n) ==> RefusedWith(log, t, b, m)
  {
  }

  lemma LiveEarlier(log: Log, e: Entry, g: nat)
    requires g < |log| && LiveAt(log + [e], g, |log| + 1)
    ensures LiveAt(log, g, |log|) && !Ends(e) && !e.event.Granted?
  {
    var log' := log + [e];
    assert log'[|log|] == e;
    assert forall k | 0 <= k < |log| :: log'[k] == log[k];
  }

  /** A step that records an entry keeps a live token the cached one. */
  lemma LiveKept(p: Policy, s: State, step: Step)
    requires Inv(p, s) && Enabled(s, step) && LiveIsCached(s)
    ensures LiveIsCached(Apply(p, s, step))
  {
    var s' := Apply(p, s, step);
    if s'.log != s.log {
      var e := s'.log[|s.log|];
      assert s'.log == s.log + [e];
      forall g: nat | LiveAt(s'.log, g, |s'.log|)
        ensures s'.cache.access != "" && s'.accessGrant == g
      {
        if g < |s.log| {
          LiveEarlier(s.log, e, g);
        }
      }
    }
  }

  /** The entries recorded before a step keep their rejections. */
  lemma RejectionStays(log: Log, e: Entry, i: nat)
    requires i < |log| && RejectionOk(log, i)
    ensures RejectionOk(log + [e], i)
  {
    assert (log + [e])[i] == log[i];
    if log[i].event.Invalidated? && log[i].event.rejected.Some? {
      var b := log[i].event.rejected.value;
      assert (log + [e])[b] == log[b];
      LogGrowsTraced(log, e, log[i].tid, b, i);
    }
  }

  /** A goroutine that does not move keeps its own. */
  lemma BystanderTraced(s: State, s': State, e: Entry, u: nat)
    requires u < |s.threads| == |s'.threads| && s'.threads[u] == s.threads[u] && s'.log == s.log + [e]
    requires RejectorOk(s, u)
    ensures RejectorOk(s', u)
  {
    if s.threads[u].bearer.Some? {
      var b := s.threads[u].bearer.value.grant;
      LogGrowsTraced(s.log, e, u, b, |s.log|);
      LaterToo(s'.log, u, b, |s.log|, |s'.log|);
    }
  }

  /** So does the goroutine that moves: sending and being refused are on record. */
  lemma MoverTraced(p: Policy, s: State, step: Step)
    requires Inv(p, s) && Enabled(s, step) && !step.Tick? && RejectorOk(s, step.t)
    ensures |Apply(p, s, step).threads| == |s.threads| && RejectorOk(Apply(p, s, step), step.t)
  {
    var s' := Apply(p, s, step);
    var t := step.t;
    assert ThreadOk(p, s, t);
    match step
    case Send(_) =>
      assert s'.log[|s.log|].event == Sent(s.threads[t].attempt, s.threads[t].bearer);
      assert s'.log[|s.log|].tid == t;
    case ApiAnswer(_, status, decodes, effect) =>
      if s'.threads[t].pc.AtInvalidate? {
        var b := s.threads[t].bearer.value.grant;
        LogGrowsTraced(s.log, s'.log[|s.log|], t, b, |s.log|);
        assert s'.log[|s.log|].tid == t && s'.log[|s.log|].event == Answered(status, decodes, effect);
      }
    case _ =>
  }

  /** The entry that a step records, if it is an invalidation, has its rejection behind it. */
  lemma NewRejectionOk(p: Policy, s: State, step: Step)
    requires Inv(p, s) && Enabled(s, step) && !step.Tick? && RejectorOk(s, step.t)
    requires |Apply(p, s, step).log| > |s.log|
    ensures RejectionOk(Apply(p, s, step).log, |s.log|)
  {
    var s' := Apply(p, s, step);
    if step.Drop? && RejectedWith(s.threads[step.t]).Some? {
      assert ThreadOk(p, s, step.t);
      LogGrowsTraced(s.log, s'.log[|s.log|], step.t, s.threads[step.t].bearer.value.grant, |s.log|);
    }
  }

  lemma StepTraced(p: Policy, s: State, step: Step)
    requires Inv(p, s) && Traced(s) && Enabled(s, step)
    ensures Traced(Apply(p, s, step))
  {
    var s' := Apply(p, s, step);
    LiveKept(p, s, step);
    if step.Tick? {
      assert forall t | 0 <= t < |s.threads| :: RejectorOk(s, t) ==> RejectorOk(s', t);
    } else {
      MoverTraced(p, s, step);
      StepFrame(p, s, step);
      if s'.log == s.log {
        assert forall u | 0 <= u < |s.threads| && u != step.t :: RejectorOk(s, u) ==> RejectorOk(s', u);
      } else {
        var e := s'.log[|s.log|];
        NewRejectionOk(p, s, step);
        forall i | 0 <= i < |s.log|
          ensures RejectionOk(s'.log, i)
        {
          RejectionStays(s.log, e, i);
        }
        forall u | 0 <= u < |s.threads| && u != step.t
          ensures RejectorOk(s', u)
        {
          BystanderTraced(s, s', e, u);
        }
      }
    }
  }

  lemma {:induction false} FollowTraced(p: Policy, s: State, steps: seq<Step>)
    requires Inv(p, s) && Traced(s) && Runs(p, s, steps)
    ensures Traced(Follow(p, s, steps))
    decreases |steps|
  {
    if steps != [] {
      StepOk(p, s, steps[0]);
      StepTraced(p, s, steps[0]);
      FollowTraced(p, Apply(p, s, steps[0]), steps[1..]);
    }
  }

  lemma OutcomeTraced(p: Policy, calls: seq<Call>, now: int, steps: seq<Step>)
    requires Runs(p, Start(p, calls, now), steps)
    ensures Inv(p, Outcome(p, calls, now, steps)) && Traced(Outcome(p, calls, now, steps))
  {
    OutcomeOk(p, calls, now, steps);
    StartOk(p, calls, now);
    FollowTraced(p, Start(p, calls, now), steps);
  }

  /** The entry that t's invalidation records is late exactly if a newer token is live now. */
  lemma DropIsLate(p: Policy, s: State, t: nat)
    requires StandsAt(s, t, Invalidating) && s.threads[t].call.DoCall? && s.threads[t].bearer.Some?
    ensures var log' := Apply(p, s, Drop(t)).log;
            |log'| == |s.log| + 1 &&
            (Late(log', |s.log|) <==>
               exists g: nat :: s.threads[t].bearer.value.grant < g && LiveAt(s.log, g, |s.log|))
  {
    var log' := Apply(p, s, Drop(t)).log;
    assert log'[|s.log|].event == Invalidated(Some(s.threads[t].bearer.value.grant));
    assert forall k | 0 <= k < |s.log| :: log'[k] == s.log[k];
    assert forall g: nat | g < |s.log| :: LiveAt(log', g, |s.log|) <==> LiveAt(s.log, g, |s.log|);
  }

  /** What a do that was answered 401, and now holds the mutex, is about to drop: a token newer than
      the one it was rejected with exactly if such a token has been granted since and is live, and
      that very token exactly if it is still live itself. */
  lemma LateRejectionExactly(p: Policy, calls: seq<Call>, now: int, steps: seq<Step>, t: nat)
    requires Runs(p, Start(p, calls, now), steps)
    requires var s := Outcome(p, calls, now, steps); StandsAt(s, t, Invalidating) && s.threads[t].call.DoCall?
    ensures var s := Outcome(p, calls, now, steps);
            && s.threads[t].bearer.Some?
            && var rejected := s.threads[t].bearer.value.grant;
               && RefusedWith(s.log, t, rejected, |s.log|)
               && ((s.cache.access != "" && s.accessGrant != rejected) <==>
                     exists g: nat :: rejected < g && LiveAt(s.log, g, |s.log|))
               && ((s.cache.access != "" && s.accessGrant == rejected) <==> LiveAt(s.log, rejected, |s.log|))
               && ((s.cache.access != "" && s.accessGrant != rejected) <==>
                     Late(Apply(p, s, Drop(t)).log, |s.log|))
  {
    OutcomeTraced(p, calls, now, steps);
    var s := Outcome(p, calls, now, steps);
    assert ThreadOk(p, s, t) && RejectorOk(s, t);
    var rejected := s.threads[t].bearer.value.grant;
    assert Granting(s.log, rejected);
    if s.cache.access != "" {
      assert EntryOk(p, s.log, s.accessGrant);
      assert LiveAt(s.log, s.accessGrant, |s.log|);
    }
    DropIsLate(p, s, t);
  }
}
