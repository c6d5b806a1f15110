/** What holds after every schedule of any number of concurrent calls, whatever the server answers
    and whenever the clock moves. Each is stated of the log of the run. */
module Guarantees {
  import opened Outcomes
  import opened TokenCache
  import opened Protocol
  import opened Invariants
  import opened Preservation

  /** The state a connected client's calls reach by a schedule. */
  function Outcome(p: Policy, calls: seq<Call>, now: int, steps: seq<Step>): State
    requires Runs(p, Start(p, calls, now), steps)
  {
    Follow(p, Start(p, calls, now), steps)
  }

  lemma OutcomeOk(p: Policy, calls: seq<Call>, now: int, steps: seq<Step>)
    requires Runs(p, Start(p, calls, now), steps)
    ensures Inv(p, Outcome(p, calls, now, steps))
  {
    StartOk(p, calls, now);
    FollowOk(p, Start(p, calls, now), steps);
  }

  /** Entry i sends a replay whose token was issued in answer to a grant that was posted after an
      invalidation by the same goroutine. */
  ghost predicate FreshReplay(log: Log, i: nat)
    requires i < |log| && log[i].event.Sent?
  {
    var bearer := log[i].event.bearer;
    && bearer.Some? && bearer.value.grant < i && Granting(log, bearer.value.grant)
    && bearer.value.token == log[bearer.value.grant].event.issue.access
    && var post := log[bearer.value.grant].event.post;
       post < bearer.value.grant && log[post].event.Posted?
       && exists j :: 0 <= j < post && log[j].tid == log[i].tid && log[j].event.Invalidated?
  }

  /** A request is replayed only with a token granted after the replaying goroutine's own
      invalidation, even if another goroutine refilled the cache in between. */
  lemma ReplayFreshness(p: Policy, calls: seq<Call>, now: int, steps: seq<Step>)
    requires Runs(p, Start(p, calls, now), steps)
    ensures var log := Outcome(p, calls, now, steps).log;
            forall i | 0 <= i < |log| && log[i].event.Sent? && log[i].event.attempt > 0 :: FreshReplay(log, i)
  {
    OutcomeOk(p, calls, now, steps);
    var log := Outcome(p, calls, now, steps).log;
    forall i | 0 <= i < |log| && log[i].event.Sent? && log[i].event.attempt > 0
      ensures FreshReplay(log, i)
    {
      assert EntryOk(p, log, i);
      assert EntryOk(p, log, log[i].event.bearer.value.grant);
    }
  }

  /** After a successful grant another one is posted only for a reason. */
  lemma GrantSeparation(p: Policy, calls: seq<Call>, now: int, steps: seq<Step>)
    requires Runs(p, Start(p, calls, now), steps)
    ensures var log := Outcome(p, calls, now, steps).log;
            forall i, j | 0 <= i < j < |log| && log[i].event.Granted? && log[j].event.Posted? ::
              Reason(log, i, j) && (p.refusesEmpty ==> log[i].event.issue.access != "")
  {
    OutcomeOk(p, calls, now, steps);
    var log := Outcome(p, calls, now, steps).log;
    forall i, j | 0 <= i < j < |log| && log[i].event.Granted? && log[j].event.Posted?
      ensures Reason(log, i, j) && (p.refusesEmpty ==> log[i].event.issue.access != "")
    {
      assert EntryOk(p, log, i) && EntryOk(p, log, j);
    }
  }

  /** Entry i declines one refresh token and entry j posts another one. */
  ghost predicate PostsAnother(log: Log, i: nat, j: nat)
    requires i < |log| && j < |log| && log[i].event.Declined? && RefreshPost(log[j])
  {
    var post := log[i].event.post;
    post < i && RefreshPost(log[post]) && log[post].event.source != log[j].event.source
  }

  /** Once the server has declined a refresh token it is never posted again. */
  lemma DeclinedStaysDead(p: Policy, calls: seq<Call>, now: int, steps: seq<Step>)
    requires Runs(p, Start(p, calls, now), steps)
    ensures var log := Outcome(p, calls, now, steps).log;
            forall i, j | 0 <= i < j < |log| && log[i].event.Declined? && RefreshPost(log[j]) :: PostsAnother(log, i, j)
  {
    OutcomeOk(p, calls, now, steps);
    var log := Outcome(p, calls, now, steps).log;
    forall i, j | 0 <= i < j < |log| && log[i].event.Declined? && RefreshPost(log[j])
      ensures PostsAnother(log, i, j)
    {
      assert EntryOk(p, log, i) && EntryOk(p, log, j);
      var post := log[i].event.post;
      assert EntryOk(p, log, post);
      assert DeclinesGrant(log, i, log[post].event.source);
    }
  }

  /** The grant behind what entry j uses: the token it returns or the refresh token it posts. */
  predicate Uses(log: Log, j: nat, g: nat)
    requires j < |log|
  {
    match log[j].event
    case Reused(source) => g == source
    case Granted(_, _, _, _) => g == j
    case Posted(grant, source) => grant.Refresh? && g == source
    case _ => false
  }

  /** After a successful remote logout every token returned and every refresh token posted under the
      mutex comes from a grant that was posted later. */
  lemma LoggedOutStaysOut(p: Policy, calls: seq<Call>, now: int, steps: seq<Step>)
    requires Runs(p, Start(p, calls, now), steps)
    ensures var log := Outcome(p, calls, now, steps).log;
            forall i, j, g | 0 <= i < j < |log| && log[i].event.LoggedOut? && 0 <= g && Uses(log, j, g) ::
              Granting(log, g) && i < log[g].event.post < g <= j
  {
    OutcomeOk(p, calls, now, steps);
    var log := Outcome(p, calls, now, steps).log;
    forall i, j, g | 0 <= i < j < |log| && log[i].event.LoggedOut? && 0 <= g && Uses(log, j, g)
      ensures Granting(log, g) && i < log[g].event.post < g <= j
    {
      assert EntryOk(p, log, j);
      assert EntryOk(p, log, g);
      assert Ends(log[i]) && Locked(log[i]);
    }
  }

  /** Entry i neither returns nor posts a token at or past the expiry that came with it. */
  ghost predicate WithinExpiry(p: Policy, log: Log, i: nat)
    requires i < |log|
  {
    match log[i].event
    case Reused(g) =>
      && g < i && Granting(log, g) && log[g].event.issue.access != ""
      && (log[g].event.expiry.At? ==> log[i].at < log[g].event.expiry.when)
      && (log[g].event.expiry.Zero? ==> p.zeroIsForever)
    case Posted(grant, g) =>
      grant.Refresh? && p.refreshLapses ==>
        && g < i && Granting(log, g) && log[g].event.issue.refresh == grant.token
        && Before(log[i].at, log[g].event.refreshExpiry)
    case _ => true
  }

  /** The cached path respects the expiry of the access token, and a refresh token whose policy
      checks it locally is posted only before its own expiry. */
  lemma ExpirySafety(p: Policy, calls: seq<Call>, now: int, steps: seq<Step>)
    requires Runs(p, Start(p, calls, now), steps)
    ensures var log := Outcome(p, calls, now, steps).log;
            forall i | 0 <= i < |log| :: WithinExpiry(p, log, i)
  {
    OutcomeOk(p, calls, now, steps);
    var log := Outcome(p, calls, now, steps).log;
    forall i | 0 <= i < |log|
      ensures WithinExpiry(p, log, i)
    {
      assert EntryOk(p, log, i);
    }
  }

  /** A posted grant is answered once. */
  lemma OneAnswer(p: Policy, log: Log, i: nat, j: nat)
    requires LogOk(p, log) && i < |log| && j < |log|
    requires log[i].event.Granted? && (log[j].event.Granted? || log[j].event.Failed?)
    requires forall k | 0 <= k < |log| && log[k].event.Posted? :: k == log[i].event.post
    ensures i == j
  {
    assert EntryOk(p, log, i) && EntryOk(p, log, j);
    assert Locked(log[i]) && Locked(log[j]);
  }

  /** While one non-empty grant, the first one posted, is neither dropped nor past its expiry, no
      other grant is posted, and every GetToken that has finished returned its token. */
  lemma SingleFlight(p: Policy, calls: seq<Call>, now: int, steps: seq<Step>, g: nat)
    requires Runs(p, Start(p, calls, now), steps)
    requires var s := Outcome(p, calls, now, steps);
             && Granting(s.log, g) && s.log[g].event.issue.access != ""
             && (s.log[g].event.expiry.At? ==> s.now < s.log[g].event.expiry.when)
             && (forall i | 0 <= i < |s.log| :: !Ends(s.log[i]))
             && (forall i | 0 <= i < s.log[g].event.post && i < |s.log| :: !s.log[i].event.Posted?)
    ensures var s := Outcome(p, calls, now, steps);
            && (forall i | 0 <= i < |s.log| :: s.log[i].event.Posted? <==> i == s.log[g].event.post)
            && (forall t | 0 <= t < |s.threads| && s.threads[t].call == TokenCall && s.threads[t].pc.Done? ::
                  s.threads[t].pc.ok && s.threads[t].bearer == Some(Bearer(s.log[g].event.issue.access, g)))
  {
    OutcomeOk(p, calls, now, steps);
    var s := Outcome(p, calls, now, steps);
    var q := s.log[g].event.post;
    GrantSeparation(p, calls, now, steps);
    assert EntryOk(p, s.log, g);
    forall i | 0 <= i < |s.log| && s.log[i].event.Posted?
      ensures i == q
    {
      assert Locked(s.log[i]);
    }
    forall t | 0 <= t < |s.threads| && s.threads[t].call == TokenCall && s.threads[t].pc.Done?
      ensures s.threads[t].pc.ok && s.threads[t].bearer == Some(Bearer(s.log[g].event.issue.access, g))
    {
      assert ThreadOk(p, s, t);
      if s.threads[t].pc.ok {
        OneAnswer(p, s.log, g, s.threads[t].bearer.value.grant);
      } else {
        var i :| 0 <= i < |s.log| && s.log[i].tid == t && s.log[i].event.Failed?;
        OneAnswer(p, s.log, g, i);
      }
    }
  }
}
