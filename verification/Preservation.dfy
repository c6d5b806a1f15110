/** Every step of the protocol keeps the invariant. */
module Preservation {
  import opened Outcomes
  import opened TokenCache
  import opened Protocol
  import opened Invariants

  /** A step of t that records e. */
  ghost predicate Recorded(s: State, s': State, t: nat, e: Entry) {
    && t < |s.threads| == |s'.threads| && (forall u | 0 <= u < |s.threads| && u != t :: s'.threads[u] == s.threads[u])
    && s'.log == s.log + [e] && e.tid == t && s.now <= e.at == s'.now
  }

  lemma TimesOk(p: Policy, s: State, s': State, t: nat, e: Entry)
    requires Inv(p, s) && Recorded(s, s', t, e)
    ensures forall j | 0 <= j < |s.log| :: s'.log[j].at <= s'.log[|s.log|].at
    ensures forall i | 0 <= i < |s'.log| :: s'.log[i].at <= s'.now && s'.log[i].tid < |s'.threads|
  {
  }

  lemma OthersOk(p: Policy, s: State, s': State, t: nat, e: Entry)
    requires Inv(p, s) && Recorded(s, s', t, e)
    requires s.holder == Some(t) || (!Locked(e) && s'.cache == s.cache && s'.refreshGrant == s.refreshGrant)
    ensures forall u | 0 <= u < |s'.threads| && u != t :: ThreadOk(p, s', u)
  {
    forall u | 0 <= u < |s'.threads| && u != t
      ensures ThreadOk(p, s', u)
    {
      BystanderOk(p, s, s', e, u);
    }
  }

  lemma GrantsSuperseded(p: Policy, s: State, s': State, t: nat, e: Entry)
    requires Inv(p, s) && Recorded(s, s', t, e)
    ensures forall i | 0 <= i < |s.log| && s'.log[i].event.Granted? ::
              (s.cache.access != "" && i == s.accessGrant) || Superseded(s'.log, i)
  {
    forall i | 0 <= i < |s.log| && s'.log[i].event.Granted?
      ensures (s.cache.access != "" && i == s.accessGrant) || Superseded(s'.log, i)
    {
      assert s'.log[i] == s.log[i];
      if !(s.cache.access != "" && i == s.accessGrant) {
        SupersededStays(s.log, e, i);
      }
    }
  }

  lemma RefreshKept(p: Policy, s: State, s': State, t: nat, e: Entry)
    requires Inv(p, s) && Recorded(s, s', t, e) && !e.event.LoggedOut? && !e.event.Declined?
    ensures s.cache.refresh != "" ==>
              && Granting(s'.log, s.refreshGrant)
              && s'.log[s.refreshGrant] == s.log[s.refreshGrant]
              && forall k | s.refreshGrant < k < |s'.log| ::
                   !s'.log[k].event.LoggedOut? && !DeclinesGrant(s'.log, k, s.refreshGrant)
  {
    if s.cache.refresh != "" {
      forall k | s.refreshGrant < k < |s'.log|
        ensures !s'.log[k].event.LoggedOut? && !DeclinesGrant(s'.log, k, s.refreshGrant)
      {
        if k < |s.log| {
          assert s'.log[k] == s.log[k] && !DeclinesGrant(s.log, k, s.refreshGrant);
        }
      }
    }
  }

  /** An entry that neither fills nor drops a token leaves the cache facts alone. */
  lemma CacheKept(p: Policy, s: State, s': State, t: nat, e: Entry)
    requires Inv(p, s) && Recorded(s, s', t, e)
    requires s'.cache == s.cache && s'.accessGrant == s.accessGrant && s'.refreshGrant == s.refreshGrant
    requires !Ends(e) && !e.event.Granted? && !e.event.Declined?
    ensures CacheOk(p, s')
  {
    TimesOk(p, s, s', t, e);
    GrantsSuperseded(p, s, s', t, e);
    RefreshKept(p, s, s', t, e);
  }

  /** The parts together, for a step of t that records e. */
  lemma Assemble(p: Policy, s: State, s': State, t: nat, e: Entry)
    requires Inv(p, s) && Recorded(s, s', t, e)
    requires s.holder == Some(t) || (!Locked(e) && s'.cache == s.cache && s'.refreshGrant == s.refreshGrant)
    requires EntryOk(p, s'.log, |s.log|) && CacheOk(p, s') && ThreadOk(p, s', t)
    requires s.holder == Some(t) ==> s'.holder == if InSection(s'.threads[t].pc) then Some(t) else None
    requires s.holder != Some(t) ==> s'.holder == s.holder && !InSection(s'.threads[t].pc)
    ensures Inv(p, s')
  {
    LogGrows(p, s.log, e);
    OthersOk(p, s, s', t, e);
  }

  lemma TickOk(p: Policy, s: State, now: int)
    requires Inv(p, s) && Enabled(s, Tick(now))
    ensures Inv(p, Apply(p, s, Tick(now)))
  {
    var s' := Apply(p, s, Tick(now));
    assert forall u | 0 <= u < |s.threads| :: ThreadOk(p, s, u) ==> ThreadOk(p, s', u);
  }

  lemma EnterOk(p: Policy, s: State, t: nat)
    requires Inv(p, s) && Enabled(s, Enter(t))
    ensures Inv(p, Apply(p, s, Enter(t)))
  {
    var s' := Apply(p, s, Enter(t));
    forall u | 0 <= u < |s.threads|
      ensures ThreadOk(p, s', u)
    {
      assert ThreadOk(p, s, u);
    }
  }

  lemma SendOk(p: Policy, s: State, t: nat)
    requires Inv(p, s) && Enabled(s, Send(t))
    ensures Inv(p, Apply(p, s, Send(t)))
  {
    var s' := Apply(p, s, Send(t));
    var e := s'.log[|s.log|];
    var th := s.threads[t];
    assert ThreadOk(p, s, t);
    assert Recorded(s, s', t, e);
    CacheKept(p, s, s', t, e);
    TimesOk(p, s, s', t, e);
    if th.attempt == 1 {
      assert s'.log[th.dropped].event.Invalidated?;
    }
    Assemble(p, s, s', t, e);
  }

  lemma ApiAnswerOk(p: Policy, s: State, t: nat, status: Option<int>, decodes: bool, effect: bool)
    requires Inv(p, s) && Enabled(s, ApiAnswer(t, status, decodes, effect))
    ensures Inv(p, Apply(p, s, ApiAnswer(t, status, decodes, effect)))
  {
    var s' := Apply(p, s, ApiAnswer(t, status, decodes, effect));
    var e := s'.log[|s.log|];
    assert ThreadOk(p, s, t);
    assert Recorded(s, s', t, e);
    CacheKept(p, s, s', t, e);
    TimesOk(p, s, s', t, e);
    Assemble(p, s, s', t, e);
  }

  lemma DropOk(p: Policy, s: State, t: nat)
    requires Inv(p, s) && Enabled(s, Drop(t))
    ensures Inv(p, Apply(p, s, Drop(t)))
  {
    var s' := Apply(p, s, Drop(t));
    var e := s'.log[|s.log|];
    assert ThreadOk(p, s, t);
    assert Recorded(s, s', t, e);
    TimesOk(p, s, s', t, e);
    RefreshKept(p, s, s', t, e);
    forall i | 0 <= i < |s'.log| && s'.log[i].event.Granted?
      ensures Superseded(s'.log, i)
    {
      assert Ends(s'.log[|s.log|]);
    }
    Assemble(p, s, s', t, e);
  }

  lemma LogoutBeginOk(p: Policy, s: State, t: nat)
    requires Inv(p, s) && Enabled(s, LogoutBegin(t))
    ensures Inv(p, Apply(p, s, LogoutBegin(t)))
  {
    var s' := Apply(p, s, LogoutBegin(t));
    var e := s'.log[|s.log|];
    assert ThreadOk(p, s, t);
    assert Recorded(s, s', t, e);
    TimesOk(p, s, s', t, e);
    CacheKept(p, s, s', t, e);
    Assemble(p, s, s', t, e);
  }

  lemma LogoutAnswerOk(p: Policy, s: State, t: nat, status: Option<int>)
    requires Inv(p, s) && Enabled(s, LogoutAnswer(t, status))
    ensures Inv(p, Apply(p, s, LogoutAnswer(t, status)))
  {
    var s' := Apply(p, s, LogoutAnswer(t, status));
    var e := s'.log[|s.log|];
    assert ThreadOk(p, s, t);
    assert Recorded(s, s', t, e);
    TimesOk(p, s, s', t, e);
    if e.event.LoggedOut? {
      forall i | 0 <= i < |s'.log| && s'.log[i].event.Granted?
        ensures Superseded(s'.log, i)
      {
        assert Ends(s'.log[|s.log|]);
      }
    } else {
      CacheKept(p, s, s', t, e);
    }
    Assemble(p, s, s', t, e);
  }

  lemma ReasonCarriesOver(p: Policy, s: State, s': State, t: nat, e: Entry, g: nat, k: nat)
    requires Inv(p, s) && Recorded(s, s', t, e)
    requires g < k < |s.log| && s.log[g].event.Granted? && (Ends(s.log[k]) || s.log[k].event.Posted?)
    ensures Reason(s'.log, g, |s.log|)
  {
    assert s'.log[g] == s.log[g] && s'.log[k] == s.log[k];
    TimesOk(p, s, s', t, e);
    if Ends(s.log[k]) {
      assert Ends(s'.log[k]);
    } else {
      assert EntryOk(p, s.log, k);
      assert Reason(s.log, g, k);
      if exists m :: g < m < k && Ends(s.log[m]) {
        var m :| g < m < k && Ends(s.log[m]);
        assert Ends(s'.log[m]);
      }
    }
  }

  /** A grant may be posted when the cached access token cannot be used. */
  lemma PostHasReasons(p: Policy, s: State, s': State, t: nat, e: Entry, now: int)
    requires Inv(p, s) && Recorded(s, s', t, e) && e.event.Posted?
    requires !AccessUsable(p, s.cache, now) && now <= e.at
    ensures forall g | 0 <= g < |s.log| && s'.log[g].event.Granted? :: Reason(s'.log, g, |s.log|)
  {
    var n := |s.log|;
    TimesOk(p, s, s', t, e);
    forall g | 0 <= g < n && s'.log[g].event.Granted?
      ensures Reason(s'.log, g, n)
    {
      assert s'.log[g] == s.log[g] && EntryOk(p, s.log, g);
      if s.cache.access != "" && g == s.accessGrant {
      } else if s.log[g].event.issue.access != "" {
        assert Superseded(s.log, g);
        var k :| g < k < n && (Ends(s.log[k]) || s.log[k].event.Posted?);
        ReasonCarriesOver(p, s, s', t, e, g, k);
      }
    }
  }

  lemma ReuseOk(p: Policy, s: State, t: nat, now1: int, now2: int)
    requires Inv(p, s) && Enabled(s, Decide(t, now1, now2)) && AccessUsable(p, s.cache, now1)
    ensures Inv(p, Apply(p, s, Decide(t, now1, now2)))
  {
    var s' := Apply(p, s, Decide(t, now1, now2));
    var e := s'.log[|s.log|];
    var th := s.threads[t];
    assert ThreadOk(p, s, t);
    assert Recorded(s, s', t, e);
    TimesOk(p, s, s', t, e);
    CacheKept(p, s, s', t, e);
    if th.attempt == 1 {
      // The cached token was granted after this goroutine's invalidation, and posted after it too.
      var g := s.accessGrant;
      assert EntryOk(p, s.log, g);
      assert th.dropped < s.log[g].event.post;
    }
    Assemble(p, s, s', t, e);
  }

  lemma PostOk(p: Policy, s: State, t: nat, now1: int, now2: int)
    requires Inv(p, s) && Enabled(s, Decide(t, now1, now2)) && !AccessUsable(p, s.cache, now1)
    ensures Inv(p, Apply(p, s, Decide(t, now1, now2)))
  {
    var s' := Apply(p, s, Decide(t, now1, now2));
    var e := s'.log[|s.log|];
    assert ThreadOk(p, s, t);
    assert Recorded(s, s', t, e);
    TimesOk(p, s, s', t, e);
    CacheKept(p, s, s', t, e);
    RefreshKept(p, s, s', t, e);
    PostHasReasons(p, s, s', t, e, now1);
    assert PostedOk(p, s'.log, |s.log|);
    Assemble(p, s, s', t, e);
  }

  lemma FallBackHasReasons(p: Policy, s: State, s': State, t: nat, e: Entry)
    requires Inv(p, s) && Recorded(s, s', t, e) && StandsAt(s, t, FallingBack)
    ensures forall g | 0 <= g < |s.log| && s'.log[g].event.Granted? :: Reason(s'.log, g, |s.log|)
  {
    var post := s.threads[t].posted;
    assert ThreadOk(p, s, t);
    forall g | 0 <= g < |s.log| && s'.log[g].event.Granted?
      ensures Reason(s'.log, g, |s.log|)
    {
      assert s'.log[g] == s.log[g];
      ReasonCarriesOver(p, s, s', t, e, g, post);
    }
  }

  lemma FallBackOk(p: Policy, s: State, t: nat)
    requires Inv(p, s) && Enabled(s, FallBack(t))
    ensures Inv(p, Apply(p, s, FallBack(t)))
  {
    var s' := Apply(p, s, FallBack(t));
    var e := s'.log[|s.log|];
    assert ThreadOk(p, s, t);
    assert Recorded(s, s', t, e);
    TimesOk(p, s, s', t, e);
    CacheKept(p, s, s', t, e);
    FallBackHasReasons(p, s, s', t, e);
    Assemble(p, s, s', t, e);
  }

  /** The answer of the token endpoint closes the post of its goroutine. */
  lemma AnswersOwnPost(p: Policy, s: State, s': State, t: nat, e: Entry)
    requires Inv(p, s) && Recorded(s, s', t, e) && (StandsAt(s, t, Refreshing) || StandsAt(s, t, LoggingIn))
    ensures Answers(s'.log, s.threads[t].posted, |s.log|)
  {
    assert ThreadOk(p, s, t);
  }

  /** After a grant the cache holds the issued tokens, each with the expiry of its own response. */
  lemma GrantFillsCache(p: Policy, s: State, t: nat, reply: Result<Issue>, now1: int, now2: int)
    requires Inv(p, s) && Enabled(s, TokenAnswer(t, reply, now1, now2)) && Vet(p, reply).Ok?
    ensures CacheOk(p, Apply(p, s, TokenAnswer(t, reply, now1, now2)))
  {
    var s' := Apply(p, s, TokenAnswer(t, reply, now1, now2));
    var n := |s.log|;
    var e := s'.log[n];
    var th := s.threads[t];
    assert ThreadOk(p, s, t);
    assert Recorded(s, s', t, e);
    TimesOk(p, s, s', t, e);
    RefreshKept(p, s, s', t, e);
    forall i | 0 <= i < n && s'.log[i].event.Granted?
      ensures Superseded(s'.log, i)
    {
      // Nothing was granted since this goroutine posted, so i is older than that post.
      assert s'.log[i] == s.log[i] && i < th.posted;
      assert s'.log[th.posted].event.Posted?;
    }
  }

  lemma GrantOk(p: Policy, s: State, t: nat, reply: Result<Issue>, now1: int, now2: int)
    requires Inv(p, s) && Enabled(s, TokenAnswer(t, reply, now1, now2)) && Vet(p, reply).Ok?
    ensures Inv(p, Apply(p, s, TokenAnswer(t, reply, now1, now2)))
  {
    var s' := Apply(p, s, TokenAnswer(t, reply, now1, now2));
    var n := |s.log|;
    var e := s'.log[n];
    GrantFillsCache(p, s, t, reply, now1, now2);
    assert ThreadOk(p, s, t);
    assert Recorded(s, s', t, e);
    assert EntryOk(p, s'.log, n) by {
      TimesOk(p, s, s', t, e);
      AnswersOwnPost(p, s, s', t, e);
    }
    assert ThreadOk(p, s', t);
    Assemble(p, s, s', t, e);
  }

  lemma DeclineOk(p: Policy, s: State, t: nat, reply: Result<Issue>, now1: int, now2: int)
    requires Inv(p, s) && Enabled(s, TokenAnswer(t, reply, now1, now2)) && StandsAt(s, t, Refreshing) && Declines(reply)
    ensures Inv(p, Apply(p, s, TokenAnswer(t, reply, now1, now2)))
  {
    var s' := Apply(p, s, TokenAnswer(t, reply, now1, now2));
    var e := s'.log[|s.log|];
    assert ThreadOk(p, s, t);
    assert Recorded(s, s', t, e);
    TimesOk(p, s, s', t, e);
    AnswersOwnPost(p, s, s', t, e);
    GrantsSuperseded(p, s, s', t, e);
    Assemble(p, s, s', t, e);
  }

  lemma FailOk(p: Policy, s: State, t: nat, reply: Result<Issue>, now1: int, now2: int)
    requires Inv(p, s) && Enabled(s, TokenAnswer(t, reply, now1, now2)) && Vet(p, reply).Err?
    requires !(StandsAt(s, t, Refreshing) && Declines(reply))
    ensures Inv(p, Apply(p, s, TokenAnswer(t, reply, now1, now2)))
  {
    var s' := Apply(p, s, TokenAnswer(t, reply, now1, now2));
    var e := s'.log[|s.log|];
    assert ThreadOk(p, s, t);
    assert Recorded(s, s', t, e);
    TimesOk(p, s, s', t, e);
    AnswersOwnPost(p, s, s', t, e);
    CacheKept(p, s, s', t, e);
    assert s'.log[|s.log|].tid == t && s'.log[|s.log|].event.Failed?;
    Assemble(p, s, s', t, e);
  }

  lemma StepOk(p: Policy, s: State, step: Step)
    requires Inv(p, s) && Enabled(s, step)
    ensures Inv(p, Apply(p, s, step))
  {
    match step
    case Tick(now) => TickOk(p, s, now);
    case Enter(t) => EnterOk(p, s, t);
    case Decide(t, now1, now2) =>
      if AccessUsable(p, s.cache, now1) {
        ReuseOk(p, s, t, now1, now2);
      } else {
        PostOk(p, s, t, now1, now2);
      }
    case FallBack(t) => FallBackOk(p, s, t);
    case TokenAnswer(t, reply, now1, now2) =>
      if Vet(p, reply).Ok? {
        GrantOk(p, s, t, reply, now1, now2);
      } else if StandsAt(s, t, Refreshing) && Declines(reply) {
        DeclineOk(p, s, t, reply, now1, now2);
      } else {
        FailOk(p, s, t, reply, now1, now2);
      }
    case Send(t) => SendOk(p, s, t);
    case ApiAnswer(t, status, decodes, effect) => ApiAnswerOk(p, s, t, status, decodes, effect);
    case Drop(t) => DropOk(p, s, t);
    case LogoutBegin(t) => LogoutBeginOk(p, s, t);
    case LogoutAnswer(t, status) => LogoutAnswerOk(p, s, t, status);
  }

  /** The invariant holds after every schedule. */
  lemma {:induction false} FollowOk(p: Policy, s: State, steps: seq<Step>)
    requires Inv(p, s) && Runs(p, s, steps)
    ensures Inv(p, Follow(p, s, steps))
    decreases |steps|
  {
    if steps != [] {
      StepOk(p, s, steps[0]);
      FollowOk(p, Apply(p, s, steps[0]), steps[1..]);
    }
  }
}
