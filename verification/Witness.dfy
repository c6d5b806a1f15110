/** A run that the other theorems leave open, and that shows their bounds are not idle. */
module Witness {
  import opened Outcomes
  import opened TokenCache
  import opened Protocol
  import opened Invariants
  import opened Rejection

  /** Follow one more step. */
  lemma {:induction false} Extend(p: Policy, s0: State, steps: seq<Step>, step: Step)
    requires Runs(p, s0, steps) && Enabled(Follow(p, s0, steps), step)
    ensures Runs(p, s0, steps + [step])
    ensures Follow(p, s0, steps + [step]) == Apply(p, Follow(p, s0, steps), step)
    decreases |steps|
  {
    if steps == [] {
      assert [] + [step] == [step] && [step][1..] == [];
    } else {
      assert (steps + [step])[0] == steps[0] && (steps + [step])[1..] == steps[1..] + [step];
      Extend(p, Apply(p, s0, steps[0]), steps[1..], step);
    }
  }

  lemma Then(p: Policy, s0: State, steps: seq<Step>, s: State, step: Step) returns (steps': seq<Step>, s': State)
    requires Runs(p, s0, steps) && Follow(p, s0, steps) == s && Enabled(s, step)
    ensures s' == Apply(p, s, step) && Runs(p, s0, steps') && Follow(p, s0, steps') == s'
  {
    Extend(p, s0, steps, step);
    steps', s' := steps + [step], Apply(p, s, step);
  }

  /** t, free to take the mutex with no usable token cached, logs in and is answered with `token`. */
  lemma LogsIn(p: Policy, s0: State, steps: seq<Step>, s: State, t: nat, token: string)
    returns (steps': seq<Step>, s': State)
    requires Runs(p, s0, steps) && Follow(p, s0, steps) == s
    requires StandsAt(s, t, AtToken) && s.threads[t].call.DoCall? && s.holder.None?
    requires s.cache.access == "" && s.cache.refresh == "" && token != ""
    ensures Runs(p, s0, steps') && Follow(p, s0, steps') == s'
    ensures s'.holder.None? && s'.now == s.now && s'.cache.access == token && s'.cache.refresh == ""
    ensures s'.cache.accessExpiry == At(s.now + 100) && s'.accessGrant == |s.log| + 1
    ensures |s'.threads| == |s.threads| && forall u | 0 <= u < |s.threads| && u != t :: s'.threads[u] == s.threads[u]
    ensures s'.threads[t] == WithToken(s.threads[t], token, |s.log| + 1).(posted := |s.log|)
    ensures |s'.log| == |s.log| + 2 && s'.log[..|s.log|] == s.log
    ensures s'.log[|s.log|].event.Posted? && s'.log[|s.log| + 1].event.Granted?
    ensures s'.log[|s.log| + 1].event.issue.access == token
  {
    var steps1, s1 := Then(p, s0, steps, s, Enter(t));
    var steps2, s2 := Then(p, s0, steps1, s1, Decide(t, s.now, s.now));
    steps', s' := Then(p, s0, steps2, s2, TokenAnswer(t, Ok(Issue(token, "", 100, 0)), s.now, s.now));
  }

  /** t, holding a token, sends its request and is answered 401. */
  lemma IsRejected(p: Policy, s0: State, steps: seq<Step>, s: State, t: nat)
    returns (steps': seq<Step>, s': State)
    requires Runs(p, s0, steps) && Follow(p, s0, steps) == s
    requires StandsAt(s, t, Sending) && s.threads[t].call == DoCall(true) && s.threads[t].attempt == 0
    ensures Runs(p, s0, steps') && Follow(p, s0, steps') == s'
    ensures s' == s.(threads := s.threads[t := s.threads[t].(pc := AtInvalidate)], log := s'.log)
    ensures s'.log ==
              s.log + [Entry(t, s.now, Sent(0, s.threads[t].bearer)),
                       Entry(t, s.now, Answered(Some(401), false, false))]
  {
    var steps1, s1 := Then(p, s0, steps, s, Send(t));
    steps', s' := Then(p, s0, steps1, s1, ApiAnswer(t, Some(401), false, false));
    assert s.threads[t := s1.threads[t]][t := s'.threads[t]] == s.threads[t := s'.threads[t]];
  }

  /** t drops the cached access token. */
  lemma Drops(p: Policy, s0: State, steps: seq<Step>, s: State, t: nat) returns (steps': seq<Step>, s': State)
    requires Runs(p, s0, steps) && Follow(p, s0, steps) == s
    requires StandsAt(s, t, AtInvalidate) && s.threads[t].call == DoCall(true) && s.holder.None?
    ensures Runs(p, s0, steps') && Follow(p, s0, steps') == s'
    ensures s'.holder.None? && s'.now == s.now && s'.cache == Invalidate(s.cache) && s'.accessGrant == s.accessGrant
    ensures |s'.threads| == |s.threads| && forall u | 0 <= u < |s.threads| && u != t :: s'.threads[u] == s.threads[u]
    ensures StandsAt(s', t, AtToken) && s'.threads[t].call == DoCall(true)
    ensures s'.log == s.log + [Entry(t, s.now, Invalidated(RejectedWith(s.threads[t])))]
  {
    var steps1, s1 := Then(p, s0, steps, s, Enter(t));
    steps', s' := Then(p, s0, steps1, s1, Drop(t));
  }

  lemma Reuses(s0: State, steps: seq<Step>, s: State) returns (steps': seq<Step>, s': State)
    requires Runs(KEYCLOAK, s0, steps) && Follow(KEYCLOAK, s0, steps) == s
    requires StandsAt(s, 1, AtToken) && s.threads[1].call.DoCall? && s.holder.None?
    requires s.cache.access != "" && s.cache.accessExpiry == At(s.now + 100)
    ensures Runs(KEYCLOAK, s0, steps') && Follow(KEYCLOAK, s0, steps') == s'
    ensures s' == s.(threads := s'.threads, log := s.log + [Entry(1, s.now, Reused(s.accessGrant))])
    ensures |s'.threads| == |s.threads| && s'.threads[0] == s.threads[0]
    ensures s'.threads[1] == WithToken(s.threads[1], s.cache.access, s.accessGrant)
  {
    var steps1, s1 := Then(KEYCLOAK, s0, steps, s, Enter(1));
    steps', s' := Then(KEYCLOAK, s0, steps1, s1, Decide(1, s.now, s.now));
  }

  /** Both calls obtain the token of the first login and are rejected. */
  lemma BothRejected(now: int) returns (steps: seq<Step>, s: State, first: nat)
    ensures Runs(KEYCLOAK, Start(KEYCLOAK, [DoCall(true), DoCall(true)], now), steps)
    ensures s == Follow(KEYCLOAK, Start(KEYCLOAK, [DoCall(true), DoCall(true)], now), steps)
    ensures s.now == now && |s.threads| == 2 && s.holder.None? && s.cache.refresh == ""
    ensures StandsAt(s, 0, AtInvalidate) && s.threads[0].call == DoCall(true)
    ensures StandsAt(s, 1, AtInvalidate) && s.threads[1].call == DoCall(true)
    ensures Granting(s.log, first)
    ensures RejectedWith(s.threads[0]) == Some(first) == RejectedWith(s.threads[1])
    ensures forall i | 0 <= i < |s.log| && s.log[i].event.Sent? :: s.log[i].event.bearer == Some(Bearer("a", first))
  {
    var s0 := Start(KEYCLOAK, [DoCall(true), DoCall(true)], now);
    var steps1, s1 := LogsIn(KEYCLOAK, s0, [], s0, 0, "a");
    first := s1.accessGrant;
    var steps3, s3 := Reuses(s0, steps1, s1);
    var steps4, s4 := IsRejected(KEYCLOAK, s0, steps3, s3, 0);
    steps, s := IsRejected(KEYCLOAK, s0, steps4, s4, 1);
  }

  lemma RejectedLogsIn(s0: State, steps: seq<Step>, s: State, t: nat, token: string)
    returns (steps': seq<Step>, s': State)
    requires Runs(KEYCLOAK, s0, steps) && Follow(KEYCLOAK, s0, steps) == s && s.holder.None?
    requires StandsAt(s, t, AtInvalidate) && s.threads[t].call == DoCall(true) && s.cache.refresh == "" && token != ""
    ensures Runs(KEYCLOAK, s0, steps') && Follow(KEYCLOAK, s0, steps') == s' && s'.now == s.now && s'.holder.None?
    ensures |s'.threads| == |s.threads| && forall u | 0 <= u < |s.threads| && u != t :: s'.threads[u] == s.threads[u]
    ensures |s'.log| == |s.log| + 3 && s'.log[..|s.log|] == s.log && s'.cache.refresh == ""
    ensures s'.log[|s.log|].event == Invalidated(RejectedWith(s.threads[t]))
    ensures s'.log[|s.log| + 1].event.Posted? && s'.log[|s.log| + 2].event.Granted?
    ensures s'.log[|s.log| + 2].event.issue.access != ""
  {
    var steps1, s1 := Drops(KEYCLOAK, s0, steps, s, t);
    steps', s' := LogsIn(KEYCLOAK, s0, steps1, s1, t, token);
    assert s'.log[|s.log|] == s1.log[|s.log|] && s'.log[..|s.log|] == s1.log[..|s.log|];
  }

  /** Each rejected call drops what is cached and logs in. */
  lemma SecondRejection(s0: State, steps: seq<Step>, s: State, first: nat)
    returns (steps': seq<Step>, s': State, second: nat, third: nat)
    requires Runs(KEYCLOAK, s0, steps) && Follow(KEYCLOAK, s0, steps) == s && |s.threads| == 2 && s.holder.None?
    requires StandsAt(s, 0, AtInvalidate) && StandsAt(s, 1, AtInvalidate) && s.cache.refresh == ""
    requires s.threads[0].call == DoCall(true) && s.threads[1].call == DoCall(true)
    requires first < |s.log| && RejectedWith(s.threads[0]) == Some(first) == RejectedWith(s.threads[1])
    ensures Runs(KEYCLOAK, s0, steps') && Follow(KEYCLOAK, s0, steps') == s' && s'.now == s.now
    ensures |s.log| < |s'.log| && s'.log[..|s.log|] == s.log && |s.log| <= second < third
    ensures Granting(s'.log, second) && Granting(s'.log, third)
    ensures forall i | |s.log| <= i < |s'.log| :: !s'.log[i].event.Sent?
    ensures exists i | 0 <= i < |s'.log| :: Late(s'.log, i)
  {
    var steps2, s2 := RejectedLogsIn(s0, steps, s, 0, "b");
    second := |s.log| + 2;
    steps', s' := RejectedLogsIn(s0, steps2, s2, 1, "c");
    third := |s2.log| + 2;
    assert s'.log[..|s.log|] == s2.log[..|s.log|];
    assert s'.log[second] == s2.log[second];
    assert LiveAt(s'.log, second, |s2.log|);
    assert Late(s'.log, |s2.log|);
  }

  /** Two calls send the same token and both are rejected. The first invalidates it and logs in again;
      the second, late, invalidates the token just granted, which no request ever carried. So one
      revoked token can cost two new grants: an invalidation is a reason, but not always a good one. */
  lemma LateRejectionDropsFreshToken(now: int) returns (steps: seq<Step>, s: State, first: nat, second: nat, third: nat)
    ensures Runs(KEYCLOAK, Start(KEYCLOAK, [DoCall(true), DoCall(true)], now), steps)
    ensures s == Follow(KEYCLOAK, Start(KEYCLOAK, [DoCall(true), DoCall(true)], now), steps)
    ensures s.now == now && first < second < third
    ensures Granting(s.log, first) && Granting(s.log, second) && Granting(s.log, third)
    ensures forall i | 0 <= i < |s.log| && s.log[i].event.Sent? :: s.log[i].event.bearer == Some(Bearer("a", first))
    ensures exists i | 0 <= i < |s.log| :: Late(s.log, i)
  {
    var s0 := Start(KEYCLOAK, [DoCall(true), DoCall(true)], now);
    var steps1, s1, g := BothRejected(now);
    first := g;
    steps, s, second, third := SecondRejection(s0, steps1, s1, first);
    assert s.log[..|s1.log|] == s1.log;
    assert forall i | 0 <= i < |s1.log| :: s.log[i] == s1.log[i];
  }
}
