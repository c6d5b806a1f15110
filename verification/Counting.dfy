/** How much a run asks of the servers, and how many grants it takes. */
module Counting {
  import opened Outcomes
  import opened TokenCache
  import opened Protocol
  import opened Invariants
  import opened Preservation
  import opened Guarantees
  import opened Rejection

  /** What one goroutine's work is counted in. */
  datatype Work = Posts | Sends | Drops | Effects

  /** Endings that a caller asked for, and those after a 401 that came too late, are also counted apart. */
  datatype Kind = Grants | Empties | Endings | Asked | LateDrops | Lapses | Of(w: Work, t: nat) | All(w: Work)

  predicate Does(e: Entry, w: Work) {
    match w
    case Posts => e.event.Posted?
    case Sends => e.event.Sent?
    case Drops => e.event.Invalidated?
    case Effects => e.event.Answered? && e.event.effect
  }

  /** The token of grant i has reached its expiry when a later grant is posted. */
  ghost predicate Lapsed(log: Log, i: nat)
    requires i < |log| && log[i].event.Granted?
  {
    log[i].event.expiry.At?
    && exists j :: i < j < |log| && log[j].event.Posted? && log[i].event.expiry.when <= log[j].at
  }

  ghost predicate Is(log: Log, i: nat, k: Kind)
    requires i < |log|
  {
    match k
    case Grants => log[i].event.Granted?
    case Empties => log[i].event.Granted? && log[i].event.issue.access == ""
    case Endings => Ends(log[i])
    case Asked => Ends(log[i]) && !(log[i].event.Invalidated? && log[i].event.rejected.Some?)
    case LateDrops => Late(log, i)
    case Lapses => log[i].event.Granted? && Lapsed(log, i)
    case Of(w, t) => log[i].tid == t && Does(log[i], w)
    case All(w) => Does(log[i], w)
  }

  /** How many of the first n entries are of kind k. */
  ghost function Tally(log: Log, n: nat, k: Kind): nat
    requires n <= |log|
  {
    if n == 0 then 0 else Tally(log, n - 1, k) + if Is(log, n - 1, k) then 1 else 0
  }

  ghost predicate StillGood(log: Log, i: nat, n: nat)
    requires i < n <= |log|
  {
    && log[i].event.Granted? && log[i].event.issue.access != "" && !Lapsed(log, i)
    && forall k | i < k < n :: !Ends(log[k])
  }

  /** The last grant among the first n entries still has no reason to be followed by another. */
  ghost predicate Open(log: Log, n: nat)
    requires n <= |log|
  {
    exists i :: 0 <= i < n && StillGood(log, i, n)
  }

  lemma GrantCloses(p: Policy, log: Log, n: nat)
    requires LogOk(p, log) && n < |log| && log[n].event.Granted?
    ensures !Open(log, n)
  {
    var q := log[n].event.post;
    assert EntryOk(p, log, n);
    assert EntryOk(p, log, q);
    forall i | 0 <= i < n
      ensures !StillGood(log, i, n)
    {
      if log[i].event.Granted? {
        assert Locked(log[i]);
        assert i < q && Reason(log, i, q);
      }
    }
  }

  /** A grant is open unless its token is empty or lapses, and stays open until it ends. */
  lemma OpenNext(p: Policy, log: Log, n: nat)
    requires LogOk(p, log) && n < |log|
    ensures log[n].event.Granted? ==>
              !Open(log, n) && (Open(log, n + 1) || log[n].event.issue.access == "" || Lapsed(log, n))
    ensures !Ends(log[n]) && Open(log, n) ==> Open(log, n + 1)
  {
    if log[n].event.Granted? {
      GrantCloses(p, log, n);
      assert log[n].event.issue.access != "" && !Lapsed(log, n) ==> StillGood(log, n, n + 1);
    }
    if !Ends(log[n]) && Open(log, n) {
      var i: nat :| i < n && StillGood(log, i, n);
      assert StillGood(log, i, n + 1);
    }
  }

  /** How far the lapsed, the empty and the open grants among the first n entries exceed all grants. */
  ghost function Surplus(log: Log, n: nat): int
    requires n <= |log|
  {
    Tally(log, n, Lapses) + Tally(log, n, Empties) + (if Open(log, n) then 1 else 0) - Tally(log, n, Grants)
  }

  /** Only an entry that ends the open grant lowers it. */
  lemma SurplusNext(p: Policy, log: Log, n: nat)
    requires LogOk(p, log) && n < |log|
    ensures Surplus(log, n) <= Surplus(log, n + 1) + if Ends(log[n]) && Open(log, n) then 1 else 0
  {
    OpenNext(p, log, n);
  }

  lemma {:induction false} GrantsUpTo(p: Policy, log: Log, n: nat)
    requires LogOk(p, log) && n <= |log|
    ensures 0 <= Surplus(log, n) + Tally(log, n, Endings)
  {
    if n > 0 {
      GrantsUpTo(p, log, n - 1);
      SurplusNext(p, log, n - 1);
    }
  }

  /** Over any run the successful grants number at most one more than the invalidations and logouts,
      the tokens outlived and the empty tokens together. */
  lemma GrantsAreEarned(p: Policy, calls: seq<Call>, now: int, steps: seq<Step>)
    requires Runs(p, Start(p, calls, now), steps)
    ensures var log := Outcome(p, calls, now, steps).log;
            Tally(log, |log|, Grants) <=
              1 + Tally(log, |log|, Endings) + Tally(log, |log|, Lapses) + Tally(log, |log|, Empties)
  {
    OutcomeOk(p, calls, now, steps);
    var log := Outcome(p, calls, now, steps).log;
    GrantsUpTo(p, log, |log|);
  }

  /** The grants whose tokens a do was rejected with and invalidated, among the first n entries. */
  ghost function Rejected(log: Log, n: nat): set<nat>
    requires n <= |log|
  {
    if n == 0 then {}
    else
      Rejected(log, n - 1) +
      if log[n - 1].event.Invalidated? && log[n - 1].event.rejected.Some? then {log[n - 1].event.rejected.value} else {}
  }

  lemma {:induction false} RejectedBehind(log: Log, n: nat, b: nat)
    requires n <= |log| && b in Rejected(log, n)
    ensures exists k: nat :: k < n && log[k].event == Invalidated(Some(b))
  {
    if b in Rejected(log, n - 1) {
      RejectedBehind(log, n - 1, b);
    }
  }

  /** A second invalidation of one rejected token drops nothing that could still be used, or is late. */
  lemma SecondRejectionIsLate(p: Policy, log: Log, n: nat, b: nat)
    requires LogOk(p, log) && n < |log| && RejectionOk(log, n) && log[n].event == Invalidated(Some(b))
    requires forall i | 0 <= i < |log| :: RejectionOk(log, i)
    requires b in Rejected(log, n)
    ensures Open(log, n) ==> Late(log, n)
  {
    if Open(log, n) {
      var i: nat :| i < n && StillGood(log, i, n);
      RejectedBehind(log, n, b);
      var k: nat :| k < n && log[k].event == Invalidated(Some(b));
      assert RejectionOk(log, k) && Ends(log[k]);
      assert b < k < i;
      forall m | i < m < n
        ensures !log[m].event.Granted?
      {
        if log[m].event.Granted? {
          GrantCloses(p, log, m);
          assert StillGood(log, i, m);
        }
      }
      assert LiveAt(log, i, n);
    }
  }

  /** What the grants among the first n entries are charged to: rejected tokens, late rejections and endings
      that callers asked for. */
  ghost function Charged(log: Log, n: nat): nat
    requires n <= |log|
  {
    |Rejected(log, n)| + Tally(log, n, LateDrops) + Tally(log, n, Asked)
  }

  /** An entry that ends a token is charged if it closed the last grant. */
  lemma EndingCharged(p: Policy, log: Log, n: nat)
    requires LogOk(p, log) && n < |log| && forall i | 0 <= i < |log| :: RejectionOk(log, i)
    ensures Charged(log, n) + (if Ends(log[n]) && Open(log, n) then 1 else 0) <= Charged(log, n + 1)
  {
    if log[n].event.Invalidated? && log[n].event.rejected.Some? {
      var b := log[n].event.rejected.value;
      if b in Rejected(log, n) {
        SecondRejectionIsLate(p, log, n, b);
        assert Rejected(log, n + 1) == Rejected(log, n);
      }
    }
  }

  lemma {:induction false} GrantsPerRejectionUpTo(p: Policy, log: Log, n: nat)
    requires LogOk(p, log) && n <= |log| && forall i | 0 <= i < |log| :: RejectionOk(log, i)
    ensures 0 <= Surplus(log, n) + Charged(log, n)
  {
    if n > 0 {
      GrantsPerRejectionUpTo(p, log, n - 1);
      SurplusNext(p, log, n - 1);
      EndingCharged(p, log, n - 1);
    }
  }

  lemma {:induction false} NoneLate(log: Log, n: nat)
    requires n <= |log| && forall i | 0 <= i < n :: !Late(log, i)
    ensures Tally(log, n, LateDrops) == 0
  {
    if n > 0 {
      NoneLate(log, n - 1);
    }
  }

  /** One new grant for each token that the server rejected, and one more for each rejection that came
      too late, on top of the first grant and what callers, expiries and empty tokens cost. Without late
      rejections, dos that are rejected with one token share one new grant. */
  lemma GrantsPerRejectedToken(p: Policy, calls: seq<Call>, now: int, steps: seq<Step>)
    requires Runs(p, Start(p, calls, now), steps)
    ensures var log := Outcome(p, calls, now, steps).log;
            && Tally(log, |log|, Grants) <=
                 1 + |Rejected(log, |log|)| + Tally(log, |log|, LateDrops) + Tally(log, |log|, Asked)
                 + Tally(log, |log|, Lapses) + Tally(log, |log|, Empties)
            && ((forall i | 0 <= i < |log| :: !Late(log, i)) ==>
                  Tally(log, |log|, Grants) <=
                    1 + |Rejected(log, |log|)| + Tally(log, |log|, Asked)
                    + Tally(log, |log|, Lapses) + Tally(log, |log|, Empties))
            && forall b | b in Rejected(log, |log|) ::
                 Granting(log, b) && exists t: nat :: RefusedWith(log, t, b, |log|)
  {
    OutcomeTraced(p, calls, now, steps);
    var log := Outcome(p, calls, now, steps).log;
    GrantsPerRejectionUpTo(p, log, |log|);
    if forall i | 0 <= i < |log| :: !Late(log, i) {
      NoneLate(log, |log|);
    }
    forall b | b in Rejected(log, |log|)
      ensures Granting(log, b) && exists t: nat :: RefusedWith(log, t, b, |log|)
    {
      RejectedBehind(log, |log|, b);
      var k: nat :| k < |log| && log[k].event == Invalidated(Some(b));
      assert RejectionOk(log, k);
      LaterToo(log, log[k].tid, b, k, |log|);
    }
  }

  /** What a call may still do from where it stands. */
  function Left(p: Policy, w: Work, th: Thread): nat {
    if th.pc.Done? then 0
    else
      var replays := th.call == DoCall(true) && th.attempt == 0;
      match w
      case Posts =>
        (if th.pc.AtToken? || th.pc.Deciding? then 2 else if th.pc.Refreshing? || th.pc.FallingBack? then 1 else 0)
        + if replays then 2 else 0
      case Sends =>
        (if th.call.DoCall? && !th.pc.Awaiting? && !th.pc.AtInvalidate? && !th.pc.Invalidating? then 1 else 0)
        + if replays then 1 else 0
      case Drops =>
        if replays || th.call == InvalidateCall || (th.call == LogoutCall && !p.logsOutRemotely) then 1 else 0
      case Effects => if th.call.DoCall? then 1 else 0
  }

  /** The work a call may do in all. */
  function Budget(p: Policy, w: Work, call: Call): nat {
    match call
    case DoCall(authenticated) =>
      (match w
       case Posts => if authenticated then 4 else 0
       case Sends => if authenticated then 2 else 1
       case Drops => if authenticated then 1 else 0
       case Effects => 1)
    case TokenCall => if w.Posts? then 2 else 0
    case InvalidateCall => if w.Drops? then 1 else 0
    case LogoutCall => if w.Drops? && !p.logsOutRemotely then 1 else 0
  }

  /** A request that the server rejects with 401 has had no effect there. */
  ghost predicate RejectionsHarmless(log: Log) {
    forall i | 0 <= i < |log| && log[i].event.Answered? && log[i].event.status == Some(401) :: !log[i].event.effect
  }

  ghost predicate WithinBudget(p: Policy, s: State, t: nat, w: Work)
    requires t < |s.threads|
  {
    (w.Effects? ==> RejectionsHarmless(s.log)) ==>
      Tally(s.log, |s.log|, Of(w, t)) + Left(p, w, s.threads[t]) <= Budget(p, w, s.threads[t].call)
  }

  ghost predicate AllWithinBudget(p: Policy, s: State) {
    forall t, w: Work | 0 <= t < |s.threads| :: WithinBudget(p, s, t, w)
  }

  lemma {:induction false} TallyOfPrefix(log: Log, e: Entry, n: nat, k: Kind)
    requires n <= |log| && (k.Of? || k.All?)
    ensures Tally(log + [e], n, k) == Tally(log, n, k)
  {
    if n > 0 {
      TallyOfPrefix(log, e, n - 1, k);
      assert (log + [e])[n - 1] == log[n - 1];
    }
  }

  lemma TallyOneMore(log: Log, e: Entry, k: Kind)
    requires k.Of? || k.All?
    ensures Tally(log + [e], |log| + 1, k) == Tally(log, |log|, k) + if Is(log + [e], |log|, k) then 1 else 0
  {
    TallyOfPrefix(log, e, |log|, k);
  }

  /** The piece of work that a step adds to the log. */
  ghost function Added(p: Policy, s: State, step: Step, w: Work): nat
    requires Enabled(s, step)
  {
    var log := Apply(p, s, step).log;
    if |log| > |s.log| && Does(log[|s.log|], w) then 1 else 0
  }

  lemma PostPays(p: Policy, s: State, step: Step)
    requires Enabled(s, step) && !step.Tick? && Shape(p, s.threads[step.t])
    ensures step.t < |Apply(p, s, step).threads|
    ensures Added(p, s, step, Posts) + Left(p, Posts, Apply(p, s, step).threads[step.t])
         <= Left(p, Posts, s.threads[step.t])
  {
  }

  lemma EffectPays(p: Policy, s: State, step: Step)
    requires Enabled(s, step) && !step.Tick? && Shape(p, s.threads[step.t])
    requires RejectionsHarmless(Apply(p, s, step).log)
    ensures step.t < |Apply(p, s, step).threads|
    ensures Added(p, s, step, Effects) + Left(p, Effects, Apply(p, s, step).threads[step.t])
         <= Left(p, Effects, s.threads[step.t])
  {
    if step.ApiAnswer? {
      assert Apply(p, s, step).log[|s.log|].event == Answered(step.status, step.decodes, step.effect);
    }
  }

  /** A step never does more than what it takes off the budget of its goroutine. */
  lemma StepPays(p: Policy, s: State, step: Step, w: Work)
    requires Enabled(s, step) && !step.Tick? && Shape(p, s.threads[step.t])
    requires w.Effects? ==> RejectionsHarmless(Apply(p, s, step).log)
    ensures step.t < |Apply(p, s, step).threads|
    ensures Added(p, s, step, w) + Left(p, w, Apply(p, s, step).threads[step.t]) <= Left(p, w, s.threads[step.t])
  {
    match w
    case Posts => PostPays(p, s, step);
    case Sends =>
    case Drops =>
    case Effects => EffectPays(p, s, step);
  }

  lemma BudgetOfOne(p: Policy, s: State, step: Step, u: nat, w: Work)
    requires Enabled(s, step) && !step.Tick? && Shape(p, s.threads[step.t])
    requires u < |s.threads| == |Apply(p, s, step).threads| && WithinBudget(p, s, u, w)
    ensures WithinBudget(p, Apply(p, s, step), u, w)
  {
    var s' := Apply(p, s, step);
    if w.Effects? ==> RejectionsHarmless(s'.log) {
      StepFrame(p, s, step);
      StepPays(p, s, step, w);
      if s'.log != s.log {
        TallyOneMore(s.log, s'.log[|s.log|], Of(w, u));
        assert forall i | 0 <= i < |s.log| :: s'.log[i] == s.log[i];
      }
    }
  }

  lemma BudgetKept(p: Policy, s: State, step: Step)
    requires Inv(p, s) && AllWithinBudget(p, s) && Enabled(s, step)
    ensures AllWithinBudget(p, Apply(p, s, step))
  {
    var s' := Apply(p, s, step);
    if step.Tick? {
      assert forall u, w: Work | 0 <= u < |s.threads| :: WithinBudget(p, s, u, w) ==> WithinBudget(p, s', u, w);
    } else {
      assert ThreadOk(p, s, step.t);
      forall u, w: Work | 0 <= u < |s'.threads|
        ensures WithinBudget(p, s', u, w)
      {
        StepFrame(p, s, step);
        assert WithinBudget(p, s, u, w);
        BudgetOfOne(p, s, step, u, w);
      }
    }
  }

  lemma {:induction false} FollowWithinBudget(p: Policy, s: State, steps: seq<Step>)
    requires Inv(p, s) && AllWithinBudget(p, s) && Runs(p, s, steps)
    ensures AllWithinBudget(p, Follow(p, s, steps))
    decreases |steps|
  {
    if steps != [] {
      BudgetKept(p, s, steps[0]);
      StepOk(p, s, steps[0]);
      FollowWithinBudget(p, Apply(p, s, steps[0]), steps[1..]);
    }
  }

  /** Every call stays within its budget: an authenticated do posts at most 4 grants, sends at most
      2 requests and invalidates at most once; an unauthenticated one posts nothing and sends one.
      When rejected requests have no effect, a do has at most one. */
  lemma WorkBounds(p: Policy, calls: seq<Call>, now: int, steps: seq<Step>)
    requires Runs(p, Start(p, calls, now), steps)
    ensures var log := Outcome(p, calls, now, steps).log;
            forall t, w: Work | 0 <= t < |calls| && (w.Effects? ==> RejectionsHarmless(log)) ::
              Tally(log, |log|, Of(w, t)) <= Budget(p, w, calls[t])
  {
    var s0 := Start(p, calls, now);
    StartOk(p, calls, now);
    FollowWithinBudget(p, s0, steps);
    FollowFrame(p, s0, steps);
    var s := Outcome(p, calls, now, steps);
    forall t, w: Work | 0 <= t < |calls| && (w.Effects? ==> RejectionsHarmless(s.log))
      ensures Tally(s.log, |s.log|, Of(w, t)) <= Budget(p, w, calls[t])
    {
      assert WithinBudget(p, s, t, w);
      assert s.threads[t].call == s0.threads[t].call;
    }
  }

  ghost function Sum(log: Log, n: nat, w: Work, m: nat): nat
    requires n <= |log|
  {
    if m == 0 then 0 else Sum(log, n, w, m - 1) + Tally(log, n, Of(w, m - 1))
  }

  lemma {:induction false} SumGrows(log: Log, n: nat, w: Work, m: nat)
    requires 0 < n <= |log|
    ensures Sum(log, n, w, m) == Sum(log, n - 1, w, m) + if log[n - 1].tid < m && Does(log[n - 1], w) then 1 else 0
  {
    if m > 0 {
      SumGrows(log, n, w, m - 1);
    }
  }

  lemma {:induction false} SumOfNothing(log: Log, w: Work, m: nat)
    ensures Sum(log, 0, w, m) == 0
  {
    if m > 0 {
      SumOfNothing(log, w, m - 1);
    }
  }

  lemma {:induction false} TallySplits(log: Log, n: nat, w: Work, m: nat)
    requires n <= |log| && forall i | 0 <= i < n :: log[i].tid < m
    ensures Tally(log, n, All(w)) == Sum(log, n, w, m)
  {
    if n > 0 {
      TallySplits(log, n - 1, w, m);
      SumGrows(log, n, w, m);
    } else {
      SumOfNothing(log, w, m);
    }
  }

  lemma {:induction false} SumBounded(log: Log, w: Work, m: nat, most: nat)
    requires forall t | 0 <= t < m :: Tally(log, |log|, Of(w, t)) <= most
    ensures Sum(log, |log|, w, m) <= most * m
  {
    if m > 0 {
      SumBounded(log, w, m - 1, most);
      assert most * m == most * (m - 1) + most;
    }
  }

  /** If no call does more than `most` of one kind of work, n calls do at most n times that. */
  lemma WorkOfAll(p: Policy, calls: seq<Call>, now: int, steps: seq<Step>, w: Work, most: nat)
    requires Runs(p, Start(p, calls, now), steps) && !w.Effects?
    requires forall call :: Budget(p, w, call) <= most
    ensures var log := Outcome(p, calls, now, steps).log; Tally(log, |log|, All(w)) <= most * |calls|
  {
    var s := Outcome(p, calls, now, steps);
    OutcomeOk(p, calls, now, steps);
    FollowFrame(p, Start(p, calls, now), steps);
    TallySplits(s.log, |s.log|, w, |calls|);
    forall t | 0 <= t < |calls|
      ensures Tally(s.log, |s.log|, Of(w, t)) <= most
    {
      WorkBounds(p, calls, now, steps);
    }
    SumBounded(s.log, w, |calls|, most);
  }

  /** n concurrent calls make at most 4n token requests, 2n API requests and n invalidations. */
  lemma TotalWork(p: Policy, calls: seq<Call>, now: int, steps: seq<Step>)
    requires Runs(p, Start(p, calls, now), steps)
    ensures var log := Outcome(p, calls, now, steps).log;
            && Tally(log, |log|, All(Posts)) <= 4 * |calls|
            && Tally(log, |log|, All(Sends)) <= 2 * |calls|
            && Tally(log, |log|, All(Drops)) <= 1 * |calls|
  {
    WorkOfAll(p, calls, now, steps, Posts, 4);
    WorkOfAll(p, calls, now, steps, Sends, 2);
    WorkOfAll(p, calls, now, steps, Drops, 1);
  }
}
