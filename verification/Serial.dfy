/** Whole runs: the sections of any number of goroutines, in the order in which they took the mutex, are
    a sequential history of the token source, with one clock and one server. */
module Serial {
  import opened Outcomes
  import opened TokenCache
  import opened Protocol
  import opened Invariants
  import opened Preservation
  import opened Guarantees
  import opened Atomicity
  import Refinement

  /** What the source was asked in one section, and what came of it. */
  datatype Section = Section(op: Refinement.Op, output: Refinement.Output)

  function Ops(h: seq<Section>): seq<Refinement.Op> {
    if h == [] then [] else [h[0].op] + Ops(h[1..])
  }

  function Outputs(h: seq<Section>): seq<Refinement.Output> {
    if h == [] then [] else [h[0].output] + Outputs(h[1..])
  }

  function Told(result: Option<Result<string>>): Result<string> {
    if result.Some? then result.value else Err(Transport)
  }

  function LogoutResult(status: Option<int>, th: Thread): Result<()> {
    if th.pc == Done(true) then Ok(()) else Err(if status.None? then Transport else Api(status.value))
  }

  /** The section that this step ends, if it does, as the goroutine and the log show it; the goroutine
      entered it with log length n. */
  function Ended(p: Policy, s: State, step: Step, n: nat): seq<Section>
    requires Enabled(s, step)
  {
    var s' := Apply(p, s, step);
    if s.holder.None? || s'.holder.Some? then []
    else
      match step
      case Decide(t, _, _) =>
        [Section(Refinement.Get, Refinement.Got(Told(ResultOf(s'.threads[t])), PostsSince(s'.log, n, t)))]
      case TokenAnswer(t, _, _, _) =>
        [Section(Refinement.Get, Refinement.Got(Told(ResultOf(s'.threads[t])), PostsSince(s'.log, n, t)))]
      case Drop(t) =>
        if s.threads[t].call.LogoutCall? then
          [Section(Refinement.Logout(None), Refinement.LoggedOut(LogoutResult(None, s'.threads[t])))]
        else [Section(Refinement.Drop, Refinement.Dropped)]
      case LogoutBegin(t) =>
        [Section(Refinement.Logout(None), Refinement.LoggedOut(LogoutResult(None, s'.threads[t])))]
      case LogoutAnswer(t, status) =>
        [Section(Refinement.Logout(status), Refinement.LoggedOut(LogoutResult(status, s'.threads[t])))]
      case _ => []
  }

  /** The sections that a run completes, in the order of the mutex. */
  function History(p: Policy, s: State, steps: seq<Step>, n: nat): seq<Section>
    requires Runs(p, s, steps)
    decreases |steps|
  {
    if steps == [] then []
    else
      Ended(p, s, steps[0], n)
      + History(p, Apply(p, s, steps[0]), steps[1..], if steps[0].Enter? then |s.log| else n)
  }

  /** The token source alone: free, or inside the section of whoever holds the mutex. */
  datatype Source =
    | Free(cache: Cache)
    | Renews(at: Place)
    | Drops(logout: bool, cache: Cache)
    | LogsOut(sent: bool, cache: Cache)

  function SourceOf(s: State, n: nat): Source {
    if s.holder.None? || s.holder.value >= |s.threads| then Free(s.cache)
    else
      var th := s.threads[s.holder.value];
      if Renewing(th.pc) then Renews(PlaceOf(s, s.holder.value, n))
      else if th.pc.Invalidating? then Drops(th.call.LogoutCall?, s.cache)
      else LogsOut(th.pc.AwaitingLogout?, s.cache)
  }

  /** What a step is to the source. */
  datatype Move = Idle | Lock(source: Source) | Go(step: Step)

  function MoveOf(p: Policy, s: State, step: Step): Move
    requires Enabled(s, step)
  {
    match step
    case Tick(_) => Idle
    case Send(_) => Idle
    case ApiAnswer(_, _, _, _) => Idle
    case Enter(_) => Lock(SourceOf(Apply(p, s, step), |s.log|))
    case _ => Go(step)
  }

  function Moves(p: Policy, s: State, steps: seq<Step>): seq<Move>
    requires Runs(p, s, steps)
    decreases |steps|
  {
    if steps == [] then [] else [MoveOf(p, s, steps[0])] + Moves(p, Apply(p, s, steps[0]), steps[1..])
  }

  /** The moves that the code can make. */
  predicate MoveFits(p: Policy, src: Source, move: Move) {
    match move
    case Idle => true
    case Lock(x) =>
      && src.Free?
      && (match x
          case Free(_) => false
          case Renews(at) => at == Inside(Deciding, src.cache, [])
          case Drops(logout, c) => c == src.cache && (logout ==> !p.logsOutRemotely)
          case LogsOut(sent, c) => c == src.cache && !sent && p.logsOutRemotely)
    case Go(step) =>
      match src
      case Free(_) => false
      case Renews(at) => Fits(at, step) && Renewing(at.pc)
      case Drops(_, _) => step.Drop?
      case LogsOut(sent, _) => if sent then step.LogoutAnswer? else step.LogoutBegin?
  }

  function Next(p: Policy, src: Source, move: Move): Source
    requires MoveFits(p, src, move)
  {
    match move
    case Idle => src
    case Lock(x) => x
    case Go(step) =>
      match src
      case Free(c) => src
      case Renews(at) => var to := Moved(p, at, step); if to.Inside? then Renews(to) else Free(to.cache)
      case Drops(_, c) => Free(Invalidate(c))
      case LogsOut(sent, c) =>
        if sent then Free(RemoteLogout(c, step.status).0)
        else if c.access == "" && c.refresh == "" then Free(c) else LogsOut(true, c)
  }

  /** The section that a move ends, if it does. */
  function Emit(p: Policy, src: Source, move: Move): seq<Section>
    requires MoveFits(p, src, move)
  {
    if !move.Go? then []
    else
      match src
      case Free(_) => []
      case Renews(at) =>
        var to := Moved(p, at, move.step);
        if to.Inside? then []
        else [Section(Refinement.Get, Refinement.Got(Told(to.result), to.posts))]
      case Drops(logout, c) =>
        if logout then [Section(Refinement.Logout(None), Refinement.LoggedOut(Ok(())))]
        else [Section(Refinement.Drop, Refinement.Dropped)]
      case LogsOut(sent, c) =>
        if sent then
          [Section(Refinement.Logout(move.step.status), Refinement.LoggedOut(RemoteLogout(c, move.step.status).1))]
        else if c.access == "" && c.refresh == "" then
          [Section(Refinement.Logout(None), Refinement.LoggedOut(Ok(())))]
        else []
  }

  function CacheOf(src: Source): Cache {
    if src.Renews? then src.at.cache else src.cache
  }

  function MoveReadings(p: Policy, src: Source, move: Move): seq<int> {
    if move.Go? then StepReadings(p, CacheOf(src), move.step) else []
  }

  function MoveReplies(move: Move): seq<Result<Issue>> {
    if move.Go? then StepReplies(move.step) else []
  }

  predicate FitAll(p: Policy, src: Source, moves: seq<Move>)
    decreases |moves|
  {
    moves == [] || (MoveFits(p, src, moves[0]) && FitAll(p, Next(p, src, moves[0]), moves[1..]))
  }

  function EmitAll(p: Policy, src: Source, moves: seq<Move>): seq<Section>
    requires FitAll(p, src, moves)
    decreases |moves|
  {
    if moves == [] then [] else Emit(p, src, moves[0]) + EmitAll(p, Next(p, src, moves[0]), moves[1..])
  }

  function ReadAll(p: Policy, src: Source, moves: seq<Move>): seq<int>
    requires FitAll(p, src, moves)
    decreases |moves|
  {
    if moves == [] then [] else MoveReadings(p, src, moves[0]) + ReadAll(p, Next(p, src, moves[0]), moves[1..])
  }

  function ReplyAll(moves: seq<Move>): seq<Result<Issue>> {
    if moves == [] then [] else MoveReplies(moves[0]) + ReplyAll(moves[1..])
  }

  /** A logout is posted only for a cache that holds something. */
  predicate SomethingSent(src: Source) {
    src.LogsOut? && src.sent ==> src.cache.access != "" || src.cache.refresh != ""
  }

  /** A step of the protocol does to the source, and shows of it, what its move does. */
  ghost predicate Matches(p: Policy, s: State, step: Step, n: nat)
    requires Enabled(s, step)
  {
    var src, move := SourceOf(s, n), MoveOf(p, s, step);
    var n' := if step.Enter? then |s.log| else n;
    && MoveFits(p, src, move) && n' <= |Apply(p, s, step).log|
    && SourceOf(Apply(p, s, step), n') == Next(p, src, move)
    && Ended(p, s, step, n) == Emit(p, src, move)
    && StepReadings(p, s.cache, step) == MoveReadings(p, src, move) && StepReplies(step) == MoveReplies(move)
  }

  lemma EnterMatches(p: Policy, s: State, step: Step, n: nat)
    requires Inv(p, s) && step.Enter? && Enabled(s, step) && n <= |s.log|
    ensures Matches(p, s, step, n)
  {
    assert ThreadOk(p, s, step.t);
  }

  lemma IdleMatches(p: Policy, s: State, step: Step, n: nat)
    requires Inv(p, s) && (step.Tick? || step.Send? || step.ApiAnswer?) && Enabled(s, step) && n <= |s.log|
    ensures Matches(p, s, step, n)
  {
    var s' := Apply(p, s, step);
    if !step.Tick? {
      assert InSection(s.threads[step.t].pc) <==> s.holder == Some(step.t);
      if s.holder.Some? {
        OthersKeepPlace(p, s, s.holder.value, step, n);
      }
    }
  }

  lemma DropMatches(p: Policy, s: State, step: Step, n: nat)
    requires Inv(p, s) && step.Drop? && Enabled(s, step) && n <= |s.log|
    ensures Matches(p, s, step, n)
  {
    assert ThreadOk(p, s, step.t);
    assert InSection(s.threads[step.t].pc) <==> s.holder == Some(step.t);
  }

  lemma LogoutMatches(p: Policy, s: State, step: Step, n: nat)
    requires Inv(p, s) && (step.LogoutBegin? || step.LogoutAnswer?) && Enabled(s, step) && n <= |s.log|
    requires SomethingSent(SourceOf(s, n))
    ensures Matches(p, s, step, n)
  {
    assert ThreadOk(p, s, step.t);
    assert InSection(s.threads[step.t].pc) <==> s.holder == Some(step.t);
  }

  lemma RenewalMatches(p: Policy, s: State, step: Step, n: nat)
    requires Inv(p, s) && (step.Decide? || step.FallBack? || step.TokenAnswer?) && Enabled(s, step) && n <= |s.log|
    ensures Matches(p, s, step, n)
  {
    var s', t := Apply(p, s, step), step.t;
    assert InSection(s.threads[t].pc) <==> s.holder == Some(t);
    PlaceMoves(p, s, t, step, n);
    StepHolds(p, s, t, step);
    assert SourceOf(s, n) == Renews(PlaceOf(s, t, n));
    if s'.holder == Some(t) {
      assert SourceOf(s', n) == Renews(PlaceOf(s', t, n));
    } else {
      assert SourceOf(s', n) == Free(s'.cache);
    }
  }

  lemma StepMatches(p: Policy, s: State, step: Step, n: nat)
    requires Inv(p, s) && Enabled(s, step) && n <= |s.log| && SomethingSent(SourceOf(s, n))
    ensures Matches(p, s, step, n)
  {
    if step.Enter? {
      EnterMatches(p, s, step, n);
    } else if step.Drop? {
      DropMatches(p, s, step, n);
    } else if step.LogoutBegin? || step.LogoutAnswer? {
      LogoutMatches(p, s, step, n);
    } else if step.Tick? || step.Send? || step.ApiAnswer? {
      IdleMatches(p, s, step, n);
    } else {
      RenewalMatches(p, s, step, n);
    }
  }

  /** A run is a sequence of moves of the source: its sections are those that the moves end, and its clock
      readings and answers are theirs. */
  ghost predicate RunMatches(p: Policy, s: State, steps: seq<Step>, n: nat)
    requires Runs(p, s, steps)
  {
    var src, moves := SourceOf(s, n), Moves(p, s, steps);
    && FitAll(p, src, moves) && EmitAll(p, src, moves) == History(p, s, steps, n)
    && ReadAll(p, src, moves) == Readings(p, s, steps) && ReplyAll(moves) == Replies(steps)
  }

  lemma MatchesFurther(p: Policy, s: State, steps: seq<Step>, n: nat)
    requires Runs(p, s, steps) && steps != [] && Matches(p, s, steps[0], n)
    requires RunMatches(p, Apply(p, s, steps[0]), steps[1..], if steps[0].Enter? then |s.log| else n)
    ensures RunMatches(p, s, steps, n)
  {
    var moves := Moves(p, Apply(p, s, steps[0]), steps[1..]);
    assert Moves(p, s, steps)[0] == MoveOf(p, s, steps[0]) && Moves(p, s, steps)[1..] == moves;
  }

  lemma {:induction false} RunIsMoves(p: Policy, s: State, steps: seq<Step>, n: nat)
    requires Inv(p, s) && Runs(p, s, steps) && n <= |s.log| && SomethingSent(SourceOf(s, n))
    ensures RunMatches(p, s, steps, n)
    decreases |steps|
  {
    if steps != [] {
      StepMatches(p, s, steps[0], n);
      StepOk(p, s, steps[0]);
      RunIsMoves(p, Apply(p, s, steps[0]), steps[1..], if steps[0].Enter? then |s.log| else n);
      MatchesFurther(p, s, steps, n);
    }
  }

  /** Where an operation began: the cache, and the readings and answers used up before it. */
  datatype Origin = Origin(cache: Cache, ticks: nat, posted: nat)

  /** A GetToken that began at o has made these moves, with these readings and answers, and stands here. */
  ghost predicate Played(
    p: Policy, o: Origin, own: seq<Step>, at: Place, clock: nat -> int, k: nat, answers: nat -> Result<Issue>, n: nat)
  {
    var first := Inside(Deciding, o.cache, []);
    && FitsAll(p, first, own) && MovedAll(p, first, own) == at
    && Carries(clock, o.ticks, OwnReadings(p, first, own)) && Carries(answers, o.posted, Replies(own))
    && k == o.ticks + |OwnReadings(p, first, own)| && n == o.posted + |Replies(own)|
  }

  lemma {:induction false} OneMoreAtEnd(p: Policy, at: Place, own: seq<Step>, step: Step)
    requires FitsAll(p, at, own) && Fits(MovedAll(p, at, own), step)
    ensures FitsAll(p, at, own + [step]) && MovedAll(p, at, own + [step]) == Moved(p, MovedAll(p, at, own), step)
    decreases |own|
  {
    if own == [] {
      assert own + [step] == [step] + [];
      OneMoreMove(p, at, step, []);
    } else {
      assert own + [step] == [own[0]] + (own[1..] + [step]);
      OneMoreAtEnd(p, Moved(p, at, own[0]), own[1..], step);
      OneMoreMove(p, at, own[0], own[1..] + [step]);
    }
  }

  lemma {:induction false} ReadingsAtEnd(p: Policy, at: Place, own: seq<Step>, step: Step)
    requires FitsAll(p, at, own) && Fits(MovedAll(p, at, own), step) && FitsAll(p, at, own + [step])
    ensures OwnReadings(p, at, own + [step]) ==
              OwnReadings(p, at, own) + StepReadings(p, MovedAll(p, at, own).cache, step)
    decreases |own|
  {
    if own == [] {
      assert OwnReadings(p, at, [step]) == StepReadings(p, at.cache, step) + OwnReadings(p, Moved(p, at, step), []);
      assert own + [step] == [step];
    } else {
      var all, to := own + [step], Moved(p, at, own[0]);
      assert all[0] == own[0] && all[1..] == own[1..] + [step];
      ReadingsAtEnd(p, to, own[1..], step);
    }
  }

  lemma {:induction false} RepliesAtEnd(own: seq<Step>, step: Step)
    ensures Replies(own + [step]) == Replies(own) + StepReplies(step)
  {
    if own == [] {
      assert own + [step] == [step] && Replies([step]) == StepReplies(step) + Replies([]);
    } else {
      assert (own + [step])[0] == own[0] && (own + [step])[1..] == own[1..] + [step];
      RepliesAtEnd(own[1..], step);
    }
  }

  lemma PlaysOn(
    p: Policy, o: Origin, own: seq<Step>, at: Place, step: Step, clock: nat -> int, k: nat,
    answers: nat -> Result<Issue>, n: nat)
    requires Played(p, o, own, at, clock, k, answers, n) && Fits(at, step)
    requires Carries(clock, k, StepReadings(p, at.cache, step)) && Carries(answers, n, StepReplies(step))
    ensures Played(p, o, own + [step], Moved(p, at, step), clock, k + |StepReadings(p, at.cache, step)|, answers,
                   n + |StepReplies(step)|)
  {
    var first := Inside(Deciding, o.cache, []);
    OneMoreAtEnd(p, first, own, step);
    ReadingsAtEnd(p, first, own, step);
    RepliesAtEnd(own, step);
    CarriesJoined(clock, o.ticks, OwnReadings(p, first, own), StepReadings(p, at.cache, step));
    CarriesJoined(answers, o.posted, Replies(own), StepReplies(step));
  }

  /** The source has begun an operation at o; if that is a GetToken, `own` are the moves it has made. */
  ghost predicate OnTrack(
    p: Policy, src: Source, o: Origin, own: seq<Step>, clock: nat -> int, k: nat, answers: nat -> Result<Issue>, n: nat)
  {
    match src
    case Free(c) => o == Origin(c, k, n)
    case Renews(at) => at.Inside? && Played(p, o, own, at, clock, k, answers, n)
    case Drops(logout, c) => o == Origin(c, k, n) && (logout ==> !p.logsOutRemotely)
    case LogsOut(_, c) => o == Origin(c, k, n) && p.logsOutRemotely && SomethingSent(src)
  }

  /** The operation that a section shows, done at o, leaves this cache, at this reading and this answer. */
  ghost predicate Performs(
    p: Policy, sec: Section, o: Origin, clock: nat -> int, answers: nat -> Result<Issue>, c: Cache, k: nat, n: nat)
  {
    Refinement.Apply(p, o.cache, sec.op, clock, o.ticks, answers, o.posted) == Refinement.After(c, sec.output, k, n)
  }

  /** A move keeps the source on track, or ends the operation as the sequential one ends. */
  ghost predicate StaysOnTrack(
    p: Policy, src: Source, move: Move, o: Origin, own: seq<Step>, clock: nat -> int, k: nat,
    answers: nat -> Result<Issue>, n: nat)
    requires MoveFits(p, src, move)
  {
    var to, ended := Next(p, src, move), Emit(p, src, move);
    if ended == [] then OnTrack(p, to, o, own, clock, k, answers, n)
    else to.Free? && |ended| == 1 && Performs(p, ended[0], o, clock, answers, to.cache, k, n)
  }

  lemma RenewalEnds(
    p: Policy, src: Source, step: Step, o: Origin, own: seq<Step>, clock: nat -> int, k: nat,
    answers: nat -> Result<Issue>, n: nat)
    requires src.Renews? && MoveFits(p, src, Go(step)) && Moved(p, src.at, step).Outside?
    requires Played(p, o, own, Moved(p, src.at, step), clock, k, answers, n)
    ensures StaysOnTrack(p, src, Go(step), o, own, clock, k, answers, n)
  {
    MovesAreTurn(p, o.cache, own, clock, o.ticks, answers, o.posted);
  }

  lemma RenewalOnTrack(
    p: Policy, src: Source, step: Step, o: Origin, own: seq<Step>, clock: nat -> int, k: nat,
    answers: nat -> Result<Issue>, n: nat)
    requires src.Renews? && MoveFits(p, src, Go(step)) && OnTrack(p, src, o, own, clock, k, answers, n)
    requires Carries(clock, k, StepReadings(p, src.at.cache, step)) && Carries(answers, n, StepReplies(step))
    ensures StaysOnTrack(p, src, Go(step), o, own + [step], clock, k + |StepReadings(p, src.at.cache, step)|, answers,
                         n + |StepReplies(step)|)
  {
    var k', n' := k + |StepReadings(p, src.at.cache, step)|, n + |StepReplies(step)|;
    PlaysOn(p, o, own, src.at, step, clock, k, answers, n);
    if Moved(p, src.at, step).Outside? {
      RenewalEnds(p, src, step, o, own + [step], clock, k', answers, n');
    }
  }

  lemma OtherOnTrack(
    p: Policy, src: Source, step: Step, o: Origin, own: seq<Step>, clock: nat -> int, k: nat,
    answers: nat -> Result<Issue>, n: nat)
    requires !src.Renews? && MoveFits(p, src, Go(step)) && OnTrack(p, src, o, own, clock, k, answers, n)
    ensures StepReadings(p, CacheOf(src), step) == [] && StepReplies(step) == []
    ensures StaysOnTrack(p, src, Go(step), o, own, clock, k, answers, n)
  {
  }

  lemma LockOnTrack(
    p: Policy, src: Source, x: Source, o: Origin, own: seq<Step>, clock: nat -> int, k: nat,
    answers: nat -> Result<Issue>, n: nat)
    requires MoveFits(p, src, Lock(x)) && OnTrack(p, src, o, own, clock, k, answers, n)
    ensures StaysOnTrack(p, src, Lock(x), o, [], clock, k, answers, n)
  {
  }

  lemma MoveOnTrack(
    p: Policy, src: Source, move: Move, o: Origin, own: seq<Step>, clock: nat -> int, k: nat,
    answers: nat -> Result<Issue>, n: nat)
    returns (own': seq<Step>)
    requires MoveFits(p, src, move) && OnTrack(p, src, o, own, clock, k, answers, n)
    requires Carries(clock, k, MoveReadings(p, src, move)) && Carries(answers, n, MoveReplies(move))
    ensures StaysOnTrack(p, src, move, o, own', clock, k + |MoveReadings(p, src, move)|, answers,
                         n + |MoveReplies(move)|)
  {
    match move
    case Idle => own' := own;
    case Lock(x) =>
      own' := [];
      LockOnTrack(p, src, x, o, own, clock, k, answers, n);
    case Go(step) =>
      if src.Renews? {
        own' := own + [step];
        RenewalOnTrack(p, src, step, o, own, clock, k, answers, n);
      } else {
        own' := own;
        OtherOnTrack(p, src, step, o, own, clock, k, answers, n);
      }
  }

  /** Operation after operation, from where the one before has left the cache, the clock and the server. */
  ghost predicate Chain(
    p: Policy, h: seq<Section>, at: seq<Origin>, clock: nat -> int, answers: nat -> Result<Issue>)
  {
    && |at| == |h| + 1
    && forall i | 0 <= i < |h| ::
         Performs(p, h[i], at[i], clock, answers, at[i + 1].cache, at[i + 1].ticks, at[i + 1].posted)
  }

  lemma ChainGrows(
    p: Policy, sec: Section, h: seq<Section>, o: Origin, at: seq<Origin>, clock: nat -> int,
    answers: nat -> Result<Issue>)
    requires Chain(p, h, at, clock, answers)
    requires Performs(p, sec, o, clock, answers, at[0].cache, at[0].ticks, at[0].posted)
    ensures Chain(p, [sec] + h, [o] + at, clock, answers)
  {
  }

  /** A chain gives the outputs of the sequential operations. */
  lemma {:induction false} ChainOutputs(
    p: Policy, h: seq<Section>, at: seq<Origin>, clock: nat -> int, answers: nat -> Result<Issue>)
    requires Chain(p, h, at, clock, answers)
    ensures Refinement.Outputs(p, at[0].cache, Ops(h), clock, at[0].ticks, answers, at[0].posted) == Outputs(h)
    decreases |h|
  {
    if h != [] {
      assert Performs(p, h[0], at[0], clock, answers, at[1].cache, at[1].ticks, at[1].posted);
      ChainOutputs(p, h[1..], at[1..], clock, answers);
      assert Ops(h)[1..] == Ops(h[1..]);
    }
  }

  /** The sections that the moves end, if they fit and each finds its readings and answers where the ones before
      have left off. */
  ghost function Fed(
    p: Policy, src: Source, moves: seq<Move>, clock: nat -> int, k: nat, answers: nat -> Result<Issue>, n: nat)
    : Option<seq<Section>>
    decreases |moves|
  {
    if moves == [] then Some([])
    else if MoveFits(p, src, moves[0]) && Carries(clock, k, MoveReadings(p, src, moves[0]))
            && Carries(answers, n, MoveReplies(moves[0])) then
      var later := Fed(p, Next(p, src, moves[0]), moves[1..], clock, k + |MoveReadings(p, src, moves[0])|, answers,
                       n + |MoveReplies(moves[0])|);
      if later.Some? then Some(Emit(p, src, moves[0]) + later.value) else None
    else None
  }

  lemma FedFirst(
    p: Policy, src: Source, moves: seq<Move>, h: seq<Section>, clock: nat -> int, k: nat,
    answers: nat -> Result<Issue>, n: nat)
    returns (to: Source, rest: seq<Section>, k': nat, n': nat)
    requires moves != [] && Fed(p, src, moves, clock, k, answers, n) == Some(h)
    ensures MoveFits(p, src, moves[0]) && to == Next(p, src, moves[0]) && h == Emit(p, src, moves[0]) + rest
    ensures k' == k + |MoveReadings(p, src, moves[0])| && n' == n + |MoveReplies(moves[0])|
    ensures Carries(clock, k, MoveReadings(p, src, moves[0])) && Carries(answers, n, MoveReplies(moves[0]))
    ensures Fed(p, to, moves[1..], clock, k', answers, n') == Some(rest)
  {
    to := Next(p, src, moves[0]);
    k', n' := k + |MoveReadings(p, src, moves[0])|, n + |MoveReplies(moves[0])|;
    rest := Fed(p, to, moves[1..], clock, k', answers, n').value;
  }

  lemma FedMore(
    p: Policy, src: Source, moves: seq<Move>, h: seq<Section>, clock: nat -> int, k: nat,
    answers: nat -> Result<Issue>, n: nat)
    requires moves != [] && MoveFits(p, src, moves[0])
    requires Carries(clock, k, MoveReadings(p, src, moves[0])) && Carries(answers, n, MoveReplies(moves[0]))
    requires Fed(p, Next(p, src, moves[0]), moves[1..], clock, k + |MoveReadings(p, src, moves[0])|, answers,
                 n + |MoveReplies(moves[0])|) == Some(h)
    ensures Fed(p, src, moves, clock, k, answers, n) == Some(Emit(p, src, moves[0]) + h)
  {
  }

  lemma {:induction false} CarriedMovesFed(
    p: Policy, src: Source, moves: seq<Move>, clock: nat -> int, k: nat, answers: nat -> Result<Issue>, n: nat)
    requires FitAll(p, src, moves)
    requires Carries(clock, k, ReadAll(p, src, moves)) && Carries(answers, n, ReplyAll(moves))
    ensures Fed(p, src, moves, clock, k, answers, n) == Some(EmitAll(p, src, moves))
    decreases |moves|
  {
    if moves != [] {
      var to, rest := Next(p, src, moves[0]), moves[1..];
      var first, replies := MoveReadings(p, src, moves[0]), MoveReplies(moves[0]);
      CarriesParts(clock, k, first, ReadAll(p, to, rest));
      CarriesParts(answers, n, replies, ReplyAll(rest));
      CarriedMovesFed(p, to, rest, clock, k + |first|, answers, n + |replies|);
      FedMore(p, src, moves, EmitAll(p, to, rest), clock, k, answers, n);
    }
  }

  /** From o the sections h are done: either nothing of them until o', or the first, which leads to o'. */
  ghost predicate Links(
    p: Policy, h: seq<Section>, rest: seq<Section>, o: Origin, o': Origin, clock: nat -> int,
    answers: nat -> Result<Issue>)
  {
    || (rest == h && o' == o)
    || (h != [] && rest == h[1..] && Performs(p, h[0], o, clock, answers, o'.cache, o'.ticks, o'.posted))
  }

  lemma EndedLinks(
    p: Policy, ended: seq<Section>, rest: seq<Section>, o: Origin, o': Origin, clock: nat -> int,
    answers: nat -> Result<Issue>)
    requires |ended| <= 1
    requires if ended == [] then o' == o
             else Performs(p, ended[0], o, clock, answers, o'.cache, o'.ticks, o'.posted)
    ensures Links(p, ended + rest, rest, o, o', clock, answers)
  {
    if ended == [] {
      assert ended + rest == rest;
    } else {
      assert (ended + rest)[0] == ended[0] && (ended + rest)[1..] == rest;
    }
  }

  /** After a move the source is on track from o', where the operation that has ended, if any, has left it. */
  lemma MoveTracked(
    p: Policy, src: Source, move: Move, rest: seq<Section>, o: Origin, own: seq<Step>, clock: nat -> int, k: nat,
    answers: nat -> Result<Issue>, n: nat)
    returns (o': Origin, own': seq<Step>)
    requires MoveFits(p, src, move) && OnTrack(p, src, o, own, clock, k, answers, n)
    requires Carries(clock, k, MoveReadings(p, src, move)) && Carries(answers, n, MoveReplies(move))
    ensures OnTrack(p, Next(p, src, move), o', own', clock, k + |MoveReadings(p, src, move)|, answers,
                    n + |MoveReplies(move)|)
    ensures Links(p, Emit(p, src, move) + rest, rest, o, o', clock, answers)
  {
    own' := MoveOnTrack(p, src, move, o, own, clock, k, answers, n);
    o' := if Emit(p, src, move) == [] then o
          else Origin(Next(p, src, move).cache, k + |MoveReadings(p, src, move)|, n + |MoveReplies(move)|);
    EndedLinks(p, Emit(p, src, move), rest, o, o', clock, answers);
  }

  lemma LinkGrowsChain(
    p: Policy, h: seq<Section>, rest: seq<Section>, o: Origin, at: seq<Origin>, clock: nat -> int,
    answers: nat -> Result<Issue>)
    returns (at': seq<Origin>)
    requires Chain(p, rest, at, clock, answers) && Links(p, h, rest, o, at[0], clock, answers)
    ensures Chain(p, h, at', clock, answers) && at'[0] == o
  {
    if rest == h && at[0] == o {
      at' := at;
    } else {
      assert h == [h[0]] + rest;
      ChainGrows(p, h[0], rest, o, at, clock, answers);
      at' := [o] + at;
    }
  }

  ghost predicate Tracked(
    p: Policy, src: Source, o: Origin, clock: nat -> int, k: nat, answers: nat -> Result<Issue>, n: nat)
  {
    exists own: seq<Step> :: OnTrack(p, src, o, own, clock, k, answers, n)
  }

  /** A move from where k readings and n answers are used up to where k' and n' are. */
  lemma OneMoveTracked(
    p: Policy, src: Source, move: Move, to: Source, rest: seq<Section>, o: Origin, clock: nat -> int, k: nat, k': nat,
    answers: nat -> Result<Issue>, n: nat, n': nat)
    returns (o': Origin)
    requires MoveFits(p, src, move) && to == Next(p, src, move) && Tracked(p, src, o, clock, k, answers, n)
    requires k' == k + |MoveReadings(p, src, move)| && n' == n + |MoveReplies(move)|
    requires Carries(clock, k, MoveReadings(p, src, move)) && Carries(answers, n, MoveReplies(move))
    ensures Tracked(p, to, o', clock, k', answers, n')
    ensures Links(p, Emit(p, src, move) + rest, rest, o, o', clock, answers)
  {
    var own: seq<Step> :| OnTrack(p, src, o, own, clock, k, answers, n);
    o', own := MoveTracked(p, src, move, rest, o, own, clock, k, answers, n);
    assert OnTrack(p, to, o', own, clock, k', answers, n');
  }

  lemma OneMoveAhead(
    p: Policy, src: Source, moves: seq<Move>, h: seq<Section>, o: Origin, clock: nat -> int, k: nat,
    answers: nat -> Result<Issue>, n: nat)
    returns (to: Source, rest: seq<Section>, o': Origin, k': nat, n': nat)
    requires moves != [] && Fed(p, src, moves, clock, k, answers, n) == Some(h)
    requires Tracked(p, src, o, clock, k, answers, n)
    ensures Fed(p, to, moves[1..], clock, k', answers, n') == Some(rest) && Tracked(p, to, o', clock, k', answers, n')
    ensures Links(p, h, rest, o, o', clock, answers)
  {
    to, rest, k', n' := FedFirst(p, src, moves, h, clock, k, answers, n);
    o' := OneMoveTracked(p, src, moves[0], to, rest, o, clock, k, k', answers, n, n');
  }

  /** The sections that moves end are a chain of sequential operations. */
  lemma {:induction false} MovesAreChain(
    p: Policy, src: Source, moves: seq<Move>, h: seq<Section>, o: Origin, clock: nat -> int, k: nat,
    answers: nat -> Result<Issue>, n: nat)
    returns (at: seq<Origin>)
    requires Fed(p, src, moves, clock, k, answers, n) == Some(h) && Tracked(p, src, o, clock, k, answers, n)
    ensures Chain(p, h, at, clock, answers) && at[0] == o
    decreases |moves|
  {
    if moves == [] {
      return [o];
    }
    var to, rest, o', k', n' := OneMoveAhead(p, src, moves, h, o, clock, k, answers, n);
    at := MovesAreChain(p, to, moves[1..], rest, o', clock, k', answers, n');
    at := LinkGrowsChain(p, h, rest, o, at, clock, answers);
  }

  /** For every policy, any calls and every schedule there is one clock that never runs backwards and one
      stream of answers, namely the readings and the answers of the run in order, for which the sections of
      the run, taken in the order of the mutex, return exactly what the same operations return when they are
      done one after the other, by a cache that starts cold, or by one that pairs each token with its expiry. */
  lemma RunIsSerial(p: Policy, calls: seq<Call>, now: int, steps: seq<Step>)
    requires Runs(p, Start(p, calls, now), steps)
    ensures var s0, end := Start(p, calls, now), Outcome(p, calls, now, steps).now;
            var readings := Readings(p, s0, steps);
            var clock, answers := Stream(readings, end), Stream(Replies(steps), Err(Transport));
            var h := History(p, s0, steps, 0);
            && Ordered(now, readings, end)
            && Refinement.Outputs(p, COLD, Ops(h), clock, 0, answers, 0) == Outputs(h)
            && Refinement.VaultOutputs(p, Refinement.Vault(None, None), Ops(h), clock, 0, answers, 0) == Outputs(h)
  {
    var s0, end := Start(p, calls, now), Outcome(p, calls, now, steps).now;
    var readings, moves := Readings(p, s0, steps), Moves(p, s0, steps);
    var clock, answers := Stream(readings, end), Stream(Replies(steps), Err(Transport));
    StartOk(p, calls, now);
    ReadingsOrdered(p, s0, steps);
    RunIsMoves(p, s0, steps, 0);
    StreamCarries(readings, end);
    StreamCarries(Replies(steps), Err(Transport));
    CarriedMovesFed(p, Free(COLD), moves, clock, 0, answers, 0);
    assert OnTrack(p, Free(COLD), Origin(COLD, 0, 0), [], clock, 0, answers, 0);
    var h := History(p, s0, steps, 0);
    var at := MovesAreChain(p, Free(COLD), moves, h, Origin(COLD, 0, 0), clock, 0, answers, 0);
    ChainOutputs(p, h, at, clock, answers);
    Refinement.RunRefines(p, COLD, Ops(h), clock, 0, answers, 0);
  }
}
