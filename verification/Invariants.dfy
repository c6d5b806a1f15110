/** What every step of the protocol keeps. The properties read off a finished run are clauses of
    `EntryOk`, which speaks of one log entry and those before it. */
module Invariants {
  import opened Outcomes
  import opened TokenCache
  import opened Protocol

  type Log = seq<Entry>

  /** Entries made under the mutex. */
  predicate Locked(e: Entry) {
    !e.event.Sent? && !e.event.Answered?
  }

  /** The cached access token is dropped. */
  predicate Ends(e: Entry) {
    e.event.Invalidated? || e.event.LoggedOut?
  }

  predicate RefreshPost(e: Entry) {
    e.event.Posted? && e.event.grant.Refresh?
  }

  /** Entry k is the answer that declined the refresh token issued by grant g. */
  predicate DeclinesGrant(log: Log, k: nat, g: nat)
    requires k < |log|
  {
    log[k].event.Declined? && log[k].event.post < k && RefreshPost(log[log[k].event.post])
    && log[log[k].event.post].event.source == g
  }

  /** Entry i answers the grant posted at entry `post`, within one hold of the mutex. */
  ghost predicate Answers(log: Log, post: nat, i: nat)
    requires i < |log|
  {
    && post < i && log[post].event.Posted? && log[post].tid == log[i].tid
    && forall k | post < k < i :: !Locked(log[k])
  }

  predicate Granting(log: Log, g: nat) {
    g < |log| && log[g].event.Granted?
  }

  /** Why a grant may be posted at j although grant i succeeded before: the token of i was empty,
      it was dropped in between, or it has reached its expiry. */
  ghost predicate Reason(log: Log, i: nat, j: nat)
    requires i < j < |log| && log[i].event.Granted?
  {
    || log[i].event.issue.access == ""
    || (log[i].event.expiry.At? && log[i].event.expiry.when <= log[j].at)
    || exists k :: i < k < j && Ends(log[k])
  }

  ghost predicate PostedOk(p: Policy, log: Log, i: nat)
    requires i < |log| && log[i].event.Posted?
  {
    var e := log[i].event;
    && (e.grant.Refresh? ==>
          && e.source < i && Granting(log, e.source)
          && e.grant.token == log[e.source].event.issue.refresh && e.grant.token != ""
          && (p.refreshLapses ==> Before(log[i].at, log[e.source].event.refreshExpiry))
          && forall k | e.source < k < i :: !log[k].event.LoggedOut? && !DeclinesGrant(log, k, e.source))
    && forall g | 0 <= g < i && log[g].event.Granted? :: Reason(log, g, i)
  }

  ghost predicate ReusedOk(p: Policy, log: Log, i: nat)
    requires i < |log| && log[i].event.Reused?
  {
    var g := log[i].event.source;
    && g < i && Granting(log, g) && log[g].event.issue.access != ""
    && ((p.zeroIsForever && log[g].event.expiry.Zero?) || Before(log[i].at, log[g].event.expiry))
    && forall k | g < k < i :: !Ends(log[k]) && !log[k].event.Granted?
  }

  ghost predicate SentOk(log: Log, i: nat)
    requires i < |log| && log[i].event.Sent?
  {
    var Sent(attempt, bearer) := log[i].event;
    && attempt <= 1
    && (bearer.Some? ==>
          bearer.value.grant < i && Granting(log, bearer.value.grant)
          && bearer.value.token == log[bearer.value.grant].event.issue.access)
    && (attempt == 1 ==>
          && bearer.Some?
          && exists j :: 0 <= j < log[bearer.value.grant].event.post && j < i
                      && log[j].tid == log[i].tid && log[j].event.Invalidated?)
  }

  ghost predicate EntryOk(p: Policy, log: Log, i: nat)
    requires i < |log|
  {
    && (forall j | 0 <= j < i :: log[j].at <= log[i].at)
    && match log[i].event
       case Posted(_, _) => PostedOk(p, log, i)
       case Granted(post, issue, expiry, _) =>
         Answers(log, post, i) && (p.refusesEmpty ==> issue.access != "") && (expiry.Zero? ==> p.zeroIsForever)
       case Declined(post) => Answers(log, post, i) && RefreshPost(log[post])
       case Failed(post, _) => Answers(log, post, i)
       case Reused(_) => ReusedOk(p, log, i)
       case Sent(_, _) => SentOk(log, i)
       case _ => true
  }

  ghost predicate LogOk(p: Policy, log: Log) {
    forall i | 0 <= i < |log| :: EntryOk(p, log, i)
  }

  /** The mutex is held by exactly the goroutine whose code is between Lock and Unlock. */
  ghost predicate LockOk(s: State) {
    && (s.holder.Some? ==> s.holder.value < |s.threads|)
    && forall t | 0 <= t < |s.threads| :: InSection(s.threads[t].pc) <==> s.holder == Some(t)
  }

  predicate MayInvalidate(p: Policy, th: Thread) {
    || th.call == InvalidateCall
    || (th.call == LogoutCall && !p.logsOutRemotely)
    || (th.call == DoCall(true) && th.attempt == 0)
  }

  /** Which calls reach which code. */
  predicate Shape(p: Policy, th: Thread) {
    && th.attempt <= 1 && (th.attempt == 1 ==> th.call == DoCall(true))
    && match th.pc
       case AtToken => th.call == TokenCall || th.call == DoCall(true)
       case Deciding => th.call == TokenCall || th.call == DoCall(true)
       case Refreshing => th.call == TokenCall || th.call == DoCall(true)
       case FallingBack => th.call == TokenCall || th.call == DoCall(true)
       case LoggingIn => th.call == TokenCall || th.call == DoCall(true)
       case Sending => th.call.DoCall? && th.call.authenticated == th.bearer.Some?
       case Awaiting => th.call.DoCall? && th.call.authenticated == th.bearer.Some?
       case AtInvalidate => MayInvalidate(p, th)
       case Invalidating => MayInvalidate(p, th)
       case AtLogout => th.call == LogoutCall && p.logsOutRemotely
       case LoggingOut => th.call == LogoutCall && p.logsOutRemotely
       case AwaitingLogout => th.call == LogoutCall && p.logsOutRemotely
       case Done(ok) => th.call == TokenCall && ok ==> th.bearer.Some?
  }

  ghost predicate ThreadOk(p: Policy, s: State, t: nat)
    requires t < |s.threads|
  {
    var th := s.threads[t];
    && Shape(p, th)
    && (th.pc.Refreshing? || th.pc.LoggingIn? ==>
          && th.posted < |s.log| && s.log[th.posted].tid == t && s.log[th.posted].event.Posted?
          && (th.pc.Refreshing? ==> RefreshPost(s.log[th.posted]))
          && forall k | th.posted < k < |s.log| :: !Locked(s.log[k]))
    && (th.pc.FallingBack? ==>
          && th.posted < |s.log| && s.log[th.posted].event.Posted?
          && forall k | th.posted < k < |s.log| :: !s.log[k].event.Granted?)
    && (th.pc.Refreshing? ==> s.cache.refresh != "" && s.log[th.posted].event.source == s.refreshGrant)
    && (th.bearer.Some? ==>
          Granting(s.log, th.bearer.value.grant)
          && th.bearer.value.token == s.log[th.bearer.value.grant].event.issue.access)
    && (th.attempt == 1 ==>
          && th.dropped < |s.log| && s.log[th.dropped].tid == t && s.log[th.dropped].event.Invalidated?
          && (th.pc.Refreshing? || th.pc.LoggingIn? ==> th.dropped < th.posted)
          && (th.pc.Sending? || th.pc.Awaiting? ==> th.dropped < s.log[th.bearer.value.grant].event.post))
    && (th.call == TokenCall && th.pc == Done(false) ==>
          exists i :: 0 <= i < |s.log| && s.log[i].tid == t && s.log[i].event.Failed?)
  }

  /** Grant i no longer fills the cache, for a reason or because another grant was posted since. */
  ghost predicate Superseded(log: Log, i: nat)
    requires i < |log| && log[i].event.Granted?
  {
    || log[i].event.issue.access == ""
    || exists k :: i < k < |log| && (Ends(log[k]) || log[k].event.Posted?)
  }

  /** A cached token is the one its grant issued, paired with the expiry of that grant, and newer
      than every invalidation, logout and refusal that concerns it. */
  ghost predicate CacheOk(p: Policy, s: State) {
    && (s.cache.access != "" ==>
          && Granting(s.log, s.accessGrant)
          && s.log[s.accessGrant].event.issue.access == s.cache.access
          && s.log[s.accessGrant].event.expiry == s.cache.accessExpiry
          && forall k | s.accessGrant < k < |s.log| :: !Ends(s.log[k]) && !s.log[k].event.Granted?)
    && (s.cache.refresh != "" ==>
          && Granting(s.log, s.refreshGrant)
          && s.log[s.refreshGrant].event.issue.refresh == s.cache.refresh
          && (p.refreshLapses ==> s.log[s.refreshGrant].event.refreshExpiry == s.cache.refreshExpiry)
          && forall k | s.refreshGrant < k < |s.log| ::
               !s.log[k].event.LoggedOut? && !DeclinesGrant(s.log, k, s.refreshGrant))
    && (forall i | 0 <= i < |s.log| && s.log[i].event.Granted? ::
          (s.cache.access != "" && i == s.accessGrant) || Superseded(s.log, i))
    && (forall i | 0 <= i < |s.log| :: s.log[i].at <= s.now && s.log[i].tid < |s.threads|)
  }

  ghost predicate Inv(p: Policy, s: State) {
    LockOk(s) && LogOk(p, s.log) && CacheOk(p, s) && forall t | 0 <= t < |s.threads| :: ThreadOk(p, s, t)
  }

  lemma StartOk(p: Policy, calls: seq<Call>, now: int)
    ensures Inv(p, Start(p, calls, now))
  {
  }

  lemma PostedStays(p: Policy, log: Log, e: Entry, i: nat)
    requires i < |log| && log[i].event.Posted? && PostedOk(p, log, i)
    ensures PostedOk(p, log + [e], i)
  {
    var log' := log + [e];
    assert forall k | 0 <= k < |log| :: log'[k] == log[k];
    forall g | 0 <= g < i && log'[g].event.Granted?
      ensures Reason(log', g, i)
    {
      assert Reason(log, g, i);
      if exists k :: g < k < i && Ends(log[k]) {
        var k :| g < k < i && Ends(log[k]);
        assert Ends(log'[k]);
      }
    }
    if log[i].event.grant.Refresh? {
      var src := log[i].event.source;
      forall k | src < k < i
        ensures !DeclinesGrant(log', k, src)
      {
        assert !DeclinesGrant(log, k, src);
      }
    }
  }

  /** What is true of an entry stays true when the log grows. */
  lemma EntryStays(p: Policy, log: Log, e: Entry, i: nat)
    requires i < |log| && EntryOk(p, log, i)
    ensures EntryOk(p, log + [e], i)
  {
    var log' := log + [e];
    assert forall k | 0 <= k < |log| :: log'[k] == log[k];
    match log[i].event
    case Posted(_, _) => PostedStays(p, log, e, i);
    case Sent(attempt, bearer) =>
      if attempt == 1 {
        var j :| 0 <= j < log[bearer.value.grant].event.post && j < i
                   && log[j].tid == log[i].tid && log[j].event.Invalidated?;
        assert log'[j].tid == log'[i].tid;
      }
    case _ =>
  }

  lemma LogGrows(p: Policy, log: Log, e: Entry)
    requires LogOk(p, log) && EntryOk(p, log + [e], |log|)
    ensures LogOk(p, log + [e])
  {
    forall i | 0 <= i < |log|
      ensures EntryOk(p, log + [e], i)
    {
      EntryStays(p, log, e, i);
    }
  }

  lemma SupersededStays(log: Log, e: Entry, i: nat)
    requires i < |log| && log[i].event.Granted? && Superseded(log, i)
    ensures Superseded(log + [e], i)
  {
    if log[i].event.issue.access != "" {
      var k :| i < k < |log| && (Ends(log[k]) || log[k].event.Posted?);
      assert (log + [e])[k] == log[k];
    }
  }

  /** A goroutine that does not move, and is not inside the mutex if the mover is, keeps its facts. */
  lemma BystanderOk(p: Policy, s: State, s': State, e: Entry, u: nat)
    requires u < |s.threads| == |s'.threads| && s'.threads[u] == s.threads[u] && ThreadOk(p, s, u)
    requires s'.log == s.log + [e]
    requires InSection(s.threads[u].pc) ==>
               !Locked(e) && s'.cache == s.cache && s'.refreshGrant == s.refreshGrant
    ensures ThreadOk(p, s', u)
  {
    assert forall k | 0 <= k < |s.log| :: s'.log[k] == s.log[k];
    var th := s.threads[u];
    if th.call == TokenCall && th.pc == Done(false) {
      var i :| 0 <= i < |s.log| && s.log[i].tid == u && s.log[i].event.Failed?;
      assert s'.log[i].tid == u;
    }
  }
}
