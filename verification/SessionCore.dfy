/**
 * The owner of one simulator: reset, and execution of a chunk of actions with
 * its stop conditions, step records and success latch.  The simulator and the
 * critic are oracles over everything they have been given since the reset.
 */
module SessionCore {
  import opened Wrappers
  import opened PlainValues
  import ActionContract

  datatype Frame = Frame(state: string)

  datatype SimReply =
    | StepRaised
    | Stepped(frame: Frame, reward: real, terminated: bool, truncated: bool,
              healthy: bool,      // the state is finite
              success: bool,      // the official task predicate
              recorded: bool)     // video and state extraction went through

  /** `critic` answers from all frames it evaluated since it was configured; `None` is an exception. */
  datatype World = World(
    start: Frame,
    startSuccess: bool,
    step: seq<ActionContract.Action> -> SimReply,
    rulesValid: string -> bool,
    critic: (string, seq<(Frame, nat)>) -> Option<seq<string>>)

  datatype StepRecord = StepRecord(
    stepIndex: nat, action: ActionContract.Action, frame: Frame, reward: real, officialSuccess: bool,
    successLatched: bool, terminated: bool, truncated: bool, proposals: seq<string>)

  datatype Session = Session(
    maxSteps: nat,
    scale: ActionContract.Scale,
    hasEnvironment: bool,
    observation: Option<Frame>,
    stepIndex: nat,
    reward: real,
    terminated: bool,
    truncated: bool,
    officialSuccess: bool,
    successLatched: bool,
    successFirstStep: Option<nat>,
    critic: Option<string>,                       // the rules it was configured with
    evaluated: seq<(Frame, nat)>,                 // what the critic has seen
    played: seq<ActionContract.Action>)           // what the simulator was asked to do since the reset

  datatype ChunkRequest = ChunkRequest(actions: seq<Value>, rules: string, interrupt: bool, taskProgram: bool)

  datatype SessionError =
    | NotReset | AlreadyOver | NoActions | BadRules | RulesChanged | ProgramChanged
    | BadAction | SimulatorFailed | Unhealthy | RecordingFailed | CriticFailed

  datatype ChunkRun = ChunkRun(session: Session, steps: seq<StepRecord>, proposals: seq<string>, error: Option<SessionError>)

  // ---- One step ----------------------------------------------------------

  datatype OneStep = OneStep(session: Session, record: Option<StepRecord>, error: Option<SessionError>)
  {
    predicate Stops(interrupt: bool)
    {
      error.Some?
      || session.successLatched || session.terminated || session.truncated
      || (interrupt && record.Some? && record.value.proposals != [])
    }
  }

  function Absorb(s: Session, o: SimReply): Session
    requires o.Stepped?
  {
    s.(observation := Some(o.frame), stepIndex := s.stepIndex + 1, reward := o.reward, terminated := o.terminated,
       truncated := o.truncated || s.stepIndex + 1 >= s.maxSteps)
  }

  function Latch(s: Session, success: bool): Session
  {
    if success && !s.successLatched
    then s.(officialSuccess := success, successLatched := true, successFirstStep := Some(s.stepIndex))
    else s.(officialSuccess := success)
  }

  function Evaluate(w: World, s: Session, action: ActionContract.Action): OneStep
    requires s.observation.Some? && s.critic.Some?
  {
    var seen := s.evaluated + [(s.observation.value, s.stepIndex)];
    var t := s.(evaluated := seen);
    var proposals := w.critic(s.critic.value, seen);
    if proposals.None? then OneStep(t, None, Some(CriticFailed))
    else
      OneStep(t, Some(StepRecord(t.stepIndex, action, t.observation.value, t.reward, t.officialSuccess, t.successLatched,
                                 t.terminated, t.truncated, proposals.value)), None)
  }

  /** One simulator step with its health check, success latch and recording. */
  function Advance(w: World, s: Session, action: ActionContract.Action): (r: (Session, Option<SessionError>))
    ensures r.0.critic == s.critic && (r.1.None? ==> r.0.observation.Some?)
  {
    var asked := s.(played := s.played + [action]);
    var o := w.step(asked.played);
    if o.StepRaised? then (asked, Some(SimulatorFailed))
    else
      var moved := Absorb(asked, o);
      if !o.healthy then (moved, Some(Unhealthy))
      else (Latch(moved, o.success), if o.recorded then None else Some(RecordingFailed))
  }

  function PlayOne(w: World, s: Session, raw: Value): OneStep
    requires s.critic.Some?
  {
    var action := ActionContract.CanonicalAction(raw, s.scale);
    if action.None? then OneStep(s, None, Some(BadAction))
    else
      var (moved, error) := Advance(w, s, action.value);
      if error.Some? then OneStep(moved, None, error) else Evaluate(w, moved, action.value)
  }

  lemma AbsorbShape(s: Session, o: SimReply)
    requires o.Stepped?
    ensures var t := Absorb(s, o);
      && t.critic == s.critic && t.hasEnvironment == s.hasEnvironment && t.maxSteps == s.maxSteps && t.scale == s.scale
      && t.observation.Some? && t.played == s.played && t.stepIndex == s.stepIndex + 1
  {
  }

  lemma LatchShape(s: Session, success: bool)
    ensures var t := Latch(s, success);
      && t.critic == s.critic && t.hasEnvironment == s.hasEnvironment && t.maxSteps == s.maxSteps && t.scale == s.scale
      && t.observation == s.observation && t.played == s.played && t.stepIndex == s.stepIndex
  {
  }

  lemma AdvanceShape(w: World, s: Session, action: ActionContract.Action)
    ensures var (t, error) := Advance(w, s, action);
      && t.critic == s.critic && t.hasEnvironment == s.hasEnvironment && t.maxSteps == s.maxSteps && t.scale == s.scale
      && (s.observation.Some? ==> t.observation.Some?) && s.played <= t.played
      && s.stepIndex <= t.stepIndex <= s.stepIndex + 1
      && (error.None? ==> t.stepIndex == s.stepIndex + 1 && t.observation.Some?)
  {
    hide Absorb, Latch;
    var asked := s.(played := s.played + [action]);
    var o := w.step(asked.played);
    if o.Stepped? {
      AbsorbShape(asked, o);
      LatchShape(Absorb(asked, o), o.success);
    }
  }

  lemma OneStepShape(w: World, s: Session, raw: Value)
    requires s.critic.Some?
    ensures var one := PlayOne(w, s, raw); var t := one.session;
      && (one.record.Some? <==> one.error.None?)
      && t.critic == s.critic && t.hasEnvironment == s.hasEnvironment && t.maxSteps == s.maxSteps && t.scale == s.scale
      && (s.observation.Some? ==> t.observation.Some?) && s.played <= t.played
      && s.stepIndex <= t.stepIndex <= s.stepIndex + 1
      && (one.record.Some? ==> t.stepIndex == s.stepIndex + 1 && one.record.value.stepIndex == t.stepIndex)
  {
    hide ActionContract.CanonicalAction, Advance;
    var action := ActionContract.CanonicalAction(raw, s.scale);
    if action.Some? {
      AdvanceShape(w, s, action.value);
    }
  }

  // ---- One chunk ---------------------------------------------------------

  function Prepend(steps: seq<StepRecord>, proposals: seq<string>, run: ChunkRun): ChunkRun
  {
    run.(steps := steps + run.steps, proposals := proposals + run.proposals)
  }

  lemma PrependMore(steps: seq<StepRecord>, proposals: seq<string>, record: StepRecord, rest: ChunkRun)
    ensures Prepend(steps, proposals, Prepend([record], record.proposals, rest))
            == Prepend(steps + [record], proposals + record.proposals, rest)
  {
    assert steps + ([record] + rest.steps) == (steps + [record]) + rest.steps;
    assert proposals + (record.proposals + rest.proposals) == (proposals + record.proposals) + rest.proposals;
  }

  lemma PrependDone(steps: seq<StepRecord>, proposals: seq<string>, s: Session, error: Option<SessionError>)
    ensures Prepend(steps, proposals, ChunkRun(s, [], [], error)) == ChunkRun(s, steps, proposals, error)
    ensures Prepend([], [], ChunkRun(s, steps, proposals, error)) == ChunkRun(s, steps, proposals, error)
  {
  }

  function Play(w: World, s: Session, interrupt: bool, actions: seq<Value>): ChunkRun
    requires s.critic.Some?
    decreases |actions|
  {
    if actions == [] then ChunkRun(s, [], [], None)
    else
      var one := PlayOne(w, s, actions[0]);
      if one.error.Some? then ChunkRun(one.session, [], [], one.error)
      else
        var rest := if one.Stops(interrupt) then ChunkRun(one.session, [], [], None)
                    else Play(w, one.session, interrupt, actions[1..]);
        Prepend([one.record.value], one.record.value.proposals, rest)
  }

  function Configure(w: World, s: Session, rules: string): Result<Session, SessionError>
  {
    if s.critic.None? then
      if w.rulesValid(rules) then Ok(s.(critic := Some(rules), evaluated := [])) else Err(BadRules)
    else if s.critic == Some(rules) then Ok(s)
    else Err(RulesChanged)
  }

  function Chunk(w: World, s: Session, q: ChunkRequest): ChunkRun
  {
    if !s.hasEnvironment || s.observation.None? then ChunkRun(s, [], [], Some(NotReset))
    else if s.terminated || s.truncated then ChunkRun(s, [], [], Some(AlreadyOver))
    else if q.actions == [] then ChunkRun(s, [], [], Some(NoActions))
    else
      match Configure(w, s, q.rules)
      case Err(error) => ChunkRun(s, [], [], Some(error))
      case Ok(ready) =>
        if q.taskProgram then ChunkRun(ready, [], [], Some(ProgramChanged))
        else Play(w, ready, q.interrupt, q.actions)
  }

  /** The session a healthy reset leaves. */
  function Started(w: World, maxSteps: nat, scale: ActionContract.Scale): Session
  {
    Session(maxSteps, scale, true, Some(w.start), 0, 0.0, false, false, w.startSuccess, w.startSuccess,
            if w.startSuccess then Some(0) else None, None, [], [])
  }

  // ---- Splitting a chunk -------------------------------------------------

  /** The run ended before its actions did, or on its last action by a stop condition. */
  predicate Ended(run: ChunkRun, interrupt: bool)
  {
    run.error.Some? || run.session.successLatched || run.session.terminated || run.session.truncated
    || (interrupt && run.proposals != [])
  }

  lemma {:induction false} PlaySplits(w: World, s: Session, interrupt: bool, a: seq<Value>, b: seq<Value>)
    requires s.critic.Some? && a != []
    ensures var first := Play(w, s, interrupt, a);
      && first.session.critic.Some?
      && Play(w, s, interrupt, a + b)
         == if Ended(first, interrupt) then first
            else Prepend(first.steps, first.proposals, Play(w, first.session, interrupt, b))
    decreases |a|
  {
    hide PlayOne;
    OneStepShape(w, s, a[0]);
    assert (a + b)[0] == a[0] && (a + b)[1..] == a[1..] + b;
    var one := PlayOne(w, s, a[0]);
    if one.error.Some? {
    } else if one.Stops(interrupt) {
      assert Play(w, s, interrupt, a).session == one.session;
      assert Play(w, s, interrupt, a).proposals == one.record.value.proposals;
    } else if |a| == 1 {
      assert a[1..] == [] && a[1..] + b == b;
      assert Play(w, s, interrupt, a).proposals == one.record.value.proposals;
      assert interrupt ==> one.record.value.proposals == [];
      assert Play(w, s, interrupt, a).steps == [one.record.value];
    } else {
      PlaySplits(w, one.session, interrupt, a[1..], b);
      var rest := Play(w, one.session, interrupt, a[1..]);
      var head, said := [one.record.value], one.record.value.proposals;
      assert Play(w, s, interrupt, a) == Prepend(head, said, rest);
      assert interrupt ==> said == [] && said + rest.proposals == rest.proposals;
      assert Ended(Prepend(head, said, rest), interrupt) == Ended(rest, interrupt);
      if !Ended(rest, interrupt) {
        var tail := Play(w, rest.session, interrupt, b);
        assert head + (rest.steps + tail.steps) == (head + rest.steps) + tail.steps;
        assert said + (rest.proposals + tail.proposals) == (said + rest.proposals) + tail.proposals;
      }
    }
  }

  /**
   * Executing `a + b` is executing `a`, then `b` when `a` ended on no stop
   * condition and no error, and `a` alone otherwise.
   */
  lemma ChunkSplits(w: World, s: Session, q: ChunkRequest, a: seq<Value>, b: seq<Value>)
    requires q.actions == a + b && a != [] && b != []
    ensures var first := Chunk(w, s, q.(actions := a));
      Chunk(w, s, q)
      == if Ended(first, q.interrupt) then first
         else Prepend(first.steps, first.proposals, Chunk(w, first.session, q.(actions := b)))
  {
    hide Play;
    var ready := Configure(w, s, q.rules);
    if s.hasEnvironment && s.observation.Some? && !s.terminated && !s.truncated && ready.Ok? && !q.taskProgram {
      PlaySplits(w, ready.value, q.interrupt, a, b);
      PlayKeepsSetup(w, ready.value, q.interrupt, a);
    }
  }

  lemma {:induction false} PlayKeepsSetup(w: World, s: Session, interrupt: bool, actions: seq<Value>)
    requires s.critic.Some?
    ensures var t := Play(w, s, interrupt, actions).session;
      && t.critic == s.critic && t.hasEnvironment == s.hasEnvironment && t.maxSteps == s.maxSteps && t.scale == s.scale
      && (s.observation.Some? ==> t.observation.Some?)
      && s.played <= t.played && s.stepIndex <= t.stepIndex
    decreases |actions|
  {
    hide PlayOne;
    if actions != [] {
      OneStepShape(w, s, actions[0]);
    }
    if actions != [] {
      var one := PlayOne(w, s, actions[0]);
      if !one.Stops(interrupt) {
        PlayKeepsSetup(w, one.session, interrupt, actions[1..]);
      }
    }
  }

  // ---- What step indices and the success latch mean ----------------------

  /** How many of the simulator steps asked for have returned. */
  function StepsReturned(w: World, played: seq<ActionContract.Action>): nat
  {
    if played == [] then 0
    else StepsReturned(w, played[..|played| - 1]) + (if w.step(played).Stepped? then 1 else 0)
  }

  /** The observation after the first `k` requests was an official success; at 0, the reset observation. */
  predicate SuccessAt(w: World, played: seq<ActionContract.Action>, k: nat)
    requires k <= |played|
  {
    if k == 0 then w.startSuccess
    else
      var o := w.step(played[..k]);
      o.Stepped? && o.healthy && o.success
  }

  ghost predicate EverSucceeded(w: World, played: seq<ActionContract.Action>)
  {
    exists k: nat :: k <= |played| && SuccessAt(w, played, k)
  }

  ghost predicate FirstSuccess(w: World, played: seq<ActionContract.Action>, step: nat)
  {
    exists k: nat :: k <= |played| && SuccessAt(w, played, k) && step == StepsReturned(w, played[..k])
                     && forall j: nat | j < k :: !SuccessAt(w, played, j)
  }

  /** The session's bookkeeping says what happened in the simulator since the reset. */
  ghost predicate Tracks(w: World, s: Session)
  {
    && s.stepIndex == StepsReturned(w, s.played)
    && (s.successLatched <==> EverSucceeded(w, s.played))
    && (s.successLatched <==> s.successFirstStep.Some?)
    && (s.successFirstStep.Some? ==> FirstSuccess(w, s.played, s.successFirstStep.value))
  }

  lemma PlayedPrefix(w: World, played: seq<ActionContract.Action>, a: ActionContract.Action)
    ensures forall k: nat | k <= |played| ::
              (played + [a])[..k] == played[..k] && SuccessAt(w, played + [a], k) == SuccessAt(w, played, k)
    ensures (played + [a])[..|played| + 1] == played + [a] && (played + [a])[..|played|] == played
  {
    forall k: nat | k <= |played|
      ensures (played + [a])[..k] == played[..k]
    { }
  }

  lemma TracksOneMore(w: World, s: Session, t: Session, a: ActionContract.Action)
    requires Tracks(w, s) && t.played == s.played + [a]
    requires var o := w.step(t.played);
      var good := o.Stepped? && o.healthy && o.success;
      && t.stepIndex == s.stepIndex + (if o.Stepped? then 1 else 0)
      && t.successLatched == (s.successLatched || good)
      && t.successFirstStep == (if good && !s.successLatched then Some(t.stepIndex) else s.successFirstStep)
    ensures Tracks(w, t)
  {
    PlayedPrefix(w, s.played, a);
    var n := |s.played|;
    assert StepsReturned(w, t.played) == t.stepIndex;
    if s.successLatched {
      var k: nat :| k <= n && SuccessAt(w, s.played, k) && s.successFirstStep.value == StepsReturned(w, s.played[..k])
                    && forall j: nat | j < k :: !SuccessAt(w, s.played, j);
      assert SuccessAt(w, t.played, k);
    } else if t.successLatched {
      assert SuccessAt(w, t.played, n + 1);
      assert t.played[..n + 1] == t.played;
    }
  }

  lemma PlayOneTracks(w: World, s: Session, raw: Value)
    requires Tracks(w, s) && s.critic.Some?
    ensures Tracks(w, PlayOne(w, s, raw).session)
  {
    hide ActionContract.CanonicalAction, Tracks;
    var action := ActionContract.CanonicalAction(raw, s.scale);
    if action.Some? {
      TracksOneMore(w, s, PlayOne(w, s, raw).session, action.value);
    }
  }

  lemma {:induction false} PlayTracks(w: World, s: Session, interrupt: bool, actions: seq<Value>)
    requires Tracks(w, s) && s.critic.Some?
    ensures Tracks(w, Play(w, s, interrupt, actions).session)
    decreases |actions|
  {
    hide PlayOne, Tracks;
    if actions != [] {
      OneStepShape(w, s, actions[0]);
    }
    if actions != [] {
      PlayOneTracks(w, s, actions[0]);
      var one := PlayOne(w, s, actions[0]);
      if !one.Stops(interrupt) {
        PlayTracks(w, one.session, interrupt, actions[1..]);
      }
    }
  }

  /** The session after any sequence of chunk requests, failed ones included. */
  function RunChunks(w: World, s: Session, requests: seq<ChunkRequest>): Session
    decreases |requests|
  {
    if requests == [] then s
    else RunChunks(w, Chunk(w, s, requests[0]).session, requests[1..])
  }

  lemma {:induction false} ChunksTrack(w: World, s: Session, requests: seq<ChunkRequest>)
    requires Tracks(w, s)
    ensures Tracks(w, RunChunks(w, s, requests))
    decreases |requests|
  {
    hide Play;
    if requests != [] {
      var ready := Configure(w, s, requests[0].rules);
      if ready.Ok? {
        PlayTracks(w, ready.value, requests[0].interrupt, requests[0].actions);
      }
      ChunksTrack(w, Chunk(w, s, requests[0]).session, requests[1..]);
    }
  }

  /**
   * After any chunks since a reset: the latch holds exactly when some
   * observation was an official success, and the first step is the least such index.
   */
  lemma SuccessLatchIsExact(w: World, maxSteps: nat, scale: ActionContract.Scale, requests: seq<ChunkRequest>)
    ensures var s := RunChunks(w, Started(w, maxSteps, scale), requests);
      && s.stepIndex == StepsReturned(w, s.played)
      && (s.successLatched <==> EverSucceeded(w, s.played))
      && (s.successLatched <==> s.successFirstStep.Some?)
      && (s.successFirstStep.Some? ==> FirstSuccess(w, s.played, s.successFirstStep.value))
  {
    var s := Started(w, maxSteps, scale);
    if w.startSuccess {
      assert SuccessAt(w, s.played, 0);
    }
    assert Tracks(w, s);
    ChunksTrack(w, s, requests);
  }

  /** Records carry consecutive step indices; when nothing was raised, one per simulator step. */
  lemma {:induction false} StepIndicesAreConsecutive(w: World, s: Session, interrupt: bool, actions: seq<Value>)
    requires s.critic.Some?
    ensures var run := Play(w, s, interrupt, actions);
      && (forall i | 0 <= i < |run.steps| :: run.steps[i].stepIndex == s.stepIndex + 1 + i)
      && s.stepIndex + |run.steps| <= run.session.stepIndex <= s.stepIndex + |run.steps| + 1
      && (run.error.None? ==> run.session.stepIndex == s.stepIndex + |run.steps|)
      && |run.steps| <= |actions|
    decreases |actions|
  {
    hide PlayOne;
    if actions != [] {
      OneStepShape(w, s, actions[0]);
    }
    if actions != [] {
      var one := PlayOne(w, s, actions[0]);
      if !one.Stops(interrupt) {
        StepIndicesAreConsecutive(w, one.session, interrupt, actions[1..]);
        var rest := Play(w, one.session, interrupt, actions[1..]);
        forall i | 0 <= i < |rest.steps| + 1
          ensures ([one.record.value] + rest.steps)[i].stepIndex == s.stepIndex + 1 + i
        {
          if i > 0 {
            assert ([one.record.value] + rest.steps)[i] == rest.steps[i - 1];
          }
        }
      }
    }
  }

  // ---- What records and fields mean --------------------------------------

  /** The record of the step that completed `played`, in simulator terms. */
  ghost predicate RecordTells(w: World, scale: ActionContract.Scale, maxSteps: nat, rules: string, raw: Value,
                              played: seq<ActionContract.Action>, seen: seq<(Frame, nat)>, x: StepRecord)
  {
    && played != [] && seen != []
    && ActionContract.CanonicalAction(raw, scale) == Some(x.action) && played[|played| - 1] == x.action
    && var o := w.step(played);
       && o.Stepped? && o.healthy && o.recorded
       && x.frame == o.frame && x.reward == o.reward && x.officialSuccess == o.success && x.terminated == o.terminated
       && x.stepIndex == StepsReturned(w, played) && x.truncated == (o.truncated || x.stepIndex >= maxSteps)
       && (x.successLatched <==> EverSucceeded(w, played))
       && seen[|seen| - 1] == (x.frame, x.stepIndex) && w.critic(rules, seen) == Some(x.proposals)
  }

  /** A record after which the chunk goes on. */
  predicate GoesOn(x: StepRecord, interrupt: bool)
  {
    !x.successLatched && !x.terminated && !x.truncated && (interrupt ==> x.proposals == [])
  }

  function AllProposals(steps: seq<StepRecord>): seq<string>
  {
    if steps == [] then [] else steps[0].proposals + AllProposals(steps[1..])
  }

  /**
   * Why a chunk broke off at `action`, read off the simulator and the critic,
   * after `n` requests to the one and `m` to the other.
   */
  predicate BrokeOff(w: World, scale: ActionContract.Scale, n: nat, m: nat, t: Session, action: Value, error: SessionError)
    requires t.critic.Some?
  {
    if error == BadAction then
      ActionContract.CanonicalAction(action, scale).None? && |t.played| == n && |t.evaluated| == m
    else
      && |t.played| == n + 1 && ActionContract.CanonicalAction(action, scale) == Some(t.played[n])
      && |t.evaluated| == (if error == CriticFailed then m + 1 else m)
      && var o := w.step(t.played);
         match error
         case SimulatorFailed => o.StepRaised?
         case Unhealthy => o.Stepped? && !o.healthy
         case RecordingFailed => o.Stepped? && o.healthy && !o.recorded
         case CriticFailed =>
           && o.Stepped? && o.healthy && o.recorded
           && t.evaluated[m] == (o.frame, t.stepIndex) && w.critic(t.critic.value, t.evaluated).None?
         case _ => false
  }

  lemma AdvanceFields(w: World, s: Session, action: ActionContract.Action)
    ensures var (t, error) := Advance(w, s, action); var o := w.step(t.played);
      && t.played == s.played + [action] && t.evaluated == s.evaluated && t.maxSteps == s.maxSteps
      && (o.StepRaised? ==> error == Some(SimulatorFailed) && t == s.(played := t.played))
      && (o.Stepped? ==>
            && t.stepIndex == s.stepIndex + 1 && t.observation == Some(o.frame) && t.reward == o.reward
            && t.terminated == o.terminated && t.truncated == (o.truncated || t.stepIndex >= s.maxSteps)
            && t.officialSuccess == (if o.healthy then o.success else s.officialSuccess)
            && error == (if !o.healthy then Some(Unhealthy) else if o.recorded then None else Some(RecordingFailed)))
  {
  }

  lemma EvaluateFields(w: World, s: Session, action: ActionContract.Action)
    requires s.observation.Some? && s.critic.Some?
    ensures var one := Evaluate(w, s, action); var seen := s.evaluated + [(s.observation.value, s.stepIndex)];
      && one.session == s.(evaluated := seen)
      && (one.record.Some? <==> one.error.None?) && (one.error.Some? ==> one.error == Some(CriticFailed))
      && match w.critic(s.critic.value, seen)
         case None => one.error.Some?
         case Some(proposals) =>
           one.record == Some(StepRecord(s.stepIndex, action, s.observation.value, s.reward, s.officialSuccess,
                                         s.successLatched, s.terminated, s.truncated, proposals))
  {
  }

  /** The session and the record of a step that went through, from the session before it. */
  lemma RecordFields(w: World, s: Session, raw: Value)
    requires s.critic.Some? && PlayOne(w, s, raw).record.Some?
    ensures var one := PlayOne(w, s, raw); var t, x := one.session, one.record.value; var o := w.step(t.played);
      && ActionContract.CanonicalAction(raw, s.scale) == Some(x.action) && t.played == s.played + [x.action]
      && t.evaluated == s.evaluated + [(x.frame, x.stepIndex)]
      && o.Stepped? && o.healthy && o.recorded
      && x.frame == o.frame && x.reward == o.reward && x.officialSuccess == o.success && x.terminated == o.terminated
      && x.truncated == (o.truncated || x.stepIndex >= s.maxSteps)
      && w.critic(s.critic.value, t.evaluated) == Some(x.proposals)
      && t.stepIndex == x.stepIndex && t.successLatched == x.successLatched && t.terminated == x.terminated
      && t.truncated == x.truncated
  {
    hide ActionContract.CanonicalAction, Advance, Evaluate;
    var action := ActionContract.CanonicalAction(raw, s.scale).value;
    AdvanceFields(w, s, action);
    AdvanceShape(w, s, action);
    EvaluateFields(w, Advance(w, s, action).0, action);
  }

  lemma OneRecordTells(w: World, s: Session, raw: Value)
    requires s.critic.Some? && Tracks(w, s) && PlayOne(w, s, raw).record.Some?
    ensures var one := PlayOne(w, s, raw); var t, x := one.session, one.record.value;
      && t.played == s.played + [x.action] && t.evaluated == s.evaluated + [(x.frame, x.stepIndex)]
      && RecordTells(w, s.scale, s.maxSteps, s.critic.value, raw, t.played, t.evaluated, x)
      && t.successLatched == x.successLatched && t.terminated == x.terminated && t.truncated == x.truncated
  {
    hide ActionContract.CanonicalAction, EverSucceeded, FirstSuccess, PlayOne, StepsReturned;
    PlayOneTracks(w, s, raw);
    RecordFields(w, s, raw);
  }

  lemma OneErrorTells(w: World, s: Session, raw: Value)
    requires s.critic.Some? && PlayOne(w, s, raw).error.Some?
    ensures var one := PlayOne(w, s, raw);
      && one.session.critic == s.critic
      && BrokeOff(w, s.scale, |s.played|, |s.evaluated|, one.session, raw, one.error.value)
      && s.played <= one.session.played && s.evaluated <= one.session.evaluated
  {
    hide ActionContract.CanonicalAction, Advance, Evaluate;
    var action := ActionContract.CanonicalAction(raw, s.scale);
    if action.Some? {
      AdvanceFields(w, s, action.value);
      var moved := Advance(w, s, action.value);
      if moved.1.None? {
        EvaluateFields(w, moved.0, action.value);
      }
    }
  }

  /**
   * What a chunk reports: one record per step, telling what the simulator and
   * the critic said about exactly the action asked for; all proposals in
   * order; the end exactly at the first stop condition, or where it broke off.
   */
  ghost predicate ReportTells(w: World, s: Session, interrupt: bool, actions: seq<Value>, run: ChunkRun)
    requires s.critic.Some?
  {
    && |run.steps| <= |actions| && run.proposals == AllProposals(run.steps) && run.session.critic == s.critic
    && |s.played| + |run.steps| <= |run.session.played| && |s.evaluated| + |run.steps| <= |run.session.evaluated|
    && s.played <= run.session.played && s.evaluated <= run.session.evaluated
    && (forall i: nat | i < |run.steps| ::
          && RecordTells(w, s.scale, s.maxSteps, s.critic.value, actions[i], run.session.played[..|s.played| + i + 1],
                         run.session.evaluated[..|s.evaluated| + i + 1], run.steps[i])
          && (i < |run.steps| - 1 || run.error.Some? ==> GoesOn(run.steps[i], interrupt)))
    && (run.error.Some? ==>
          && |run.steps| < |actions|
          && BrokeOff(w, s.scale, |s.played| + |run.steps|, |s.evaluated| + |run.steps|, run.session,
                      actions[|run.steps|], run.error.value))
    && (run.error.None? ==>
          && |run.session.played| == |s.played| + |run.steps| && |run.session.evaluated| == |s.evaluated| + |run.steps|
          && (|run.steps| < |actions| ==> run.steps != [] && !GoesOn(run.steps[|run.steps| - 1], interrupt)))
  }

  lemma {:induction false} PlayTells(w: World, s: Session, interrupt: bool, actions: seq<Value>)
    requires s.critic.Some? && Tracks(w, s)
    ensures ReportTells(w, s, interrupt, actions, Play(w, s, interrupt, actions))
    decreases |actions|
  {
    hide PlayOne, Tracks, RecordTells, BrokeOff;
    var run := Play(w, s, interrupt, actions);
    if actions != [] {
      OneStepShape(w, s, actions[0]);
      var one := PlayOne(w, s, actions[0]);
      PlayOneTracks(w, s, actions[0]);
      if one.error.Some? {
        OneErrorTells(w, s, actions[0]);
      } else {
        OneRecordTells(w, s, actions[0]);
        var x := one.record.value;
        if one.Stops(interrupt) {
          OneRecordReport(w, s, interrupt, actions, one.session, x);
        } else {
          PlayTells(w, one.session, interrupt, actions[1..]);
          MoreRecordsReport(w, s, interrupt, actions, one.session, x, Play(w, one.session, interrupt, actions[1..]));
        }
      }
    }
  }

  lemma OneRecordReport(w: World, s: Session, interrupt: bool, actions: seq<Value>, t: Session, x: StepRecord)
    requires s.critic.Some? && actions != [] && t.critic == s.critic && !GoesOn(x, interrupt)
    requires t.played == s.played + [x.action] && t.evaluated == s.evaluated + [(x.frame, x.stepIndex)]
    requires RecordTells(w, s.scale, s.maxSteps, s.critic.value, actions[0], t.played, t.evaluated, x)
    ensures ReportTells(w, s, interrupt, actions, Prepend([x], x.proposals, ChunkRun(t, [], [], None)))
  {
    hide RecordTells;
    var run := Prepend([x], x.proposals, ChunkRun(t, [], [], None));
    assert run.steps == [x] && run.proposals == x.proposals + [];
    assert AllProposals([x]) == x.proposals + AllProposals([x][1..]);
    assert t.played[..|s.played| + 1] == t.played && t.evaluated[..|s.evaluated| + 1] == t.evaluated;
  }

  lemma MoreRecordsReport(w: World, s: Session, interrupt: bool, actions: seq<Value>, t: Session, x: StepRecord, rest: ChunkRun)
    requires s.critic.Some? && actions != [] && t.critic == s.critic && GoesOn(x, interrupt)
    requires t.played == s.played + [x.action] && t.evaluated == s.evaluated + [(x.frame, x.stepIndex)]
    requires t.scale == s.scale && t.maxSteps == s.maxSteps
    requires RecordTells(w, s.scale, s.maxSteps, s.critic.value, actions[0], t.played, t.evaluated, x)
    requires ReportTells(w, t, interrupt, actions[1..], rest)
    ensures ReportTells(w, s, interrupt, actions, Prepend([x], x.proposals, rest))
  {
    hide RecordTells, BrokeOff, GoesOn;
    var run := Prepend([x], x.proposals, rest);
    assert run.steps[1..] == rest.steps;
    var played, evaluated := run.session.played, run.session.evaluated;
    assert played[..|s.played| + 1] == t.played && evaluated[..|s.evaluated| + 1] == t.evaluated;
    forall i: nat | 0 < i < |run.steps|
      ensures run.steps[i] == rest.steps[i - 1] && actions[i] == actions[1..][i - 1]
      ensures RecordTells(w, s.scale, s.maxSteps, s.critic.value, actions[i], played[..|s.played| + i + 1],
                          evaluated[..|s.evaluated| + i + 1], run.steps[i])
    {
      assert RecordTells(w, t.scale, t.maxSteps, t.critic.value, actions[1..][i - 1], played[..|t.played| + (i - 1) + 1],
                         evaluated[..|t.evaluated| + (i - 1) + 1], rest.steps[i - 1]);
    }
  }

  /** The last simulator step that returned. */
  function LastReply(w: World, played: seq<ActionContract.Action>): (r: Option<SimReply>)
    ensures r.Some? ==> r.value.Stepped?
  {
    if played == [] then None
    else if w.step(played).Stepped? then Some(w.step(played))
    else LastReply(w, played[..|played| - 1])
  }

  /** The verdict on the last observation that passed the health check. */
  function LastVerdict(w: World, played: seq<ActionContract.Action>): bool
  {
    if played == [] then w.startSuccess
    else
      var o := w.step(played);
      if o.Stepped? && o.healthy then o.success else LastVerdict(w, played[..|played| - 1])
  }

  /** The episode was not over after the first `k` requests. */
  predicate OpenAfter(w: World, maxSteps: nat, played: seq<ActionContract.Action>, k: nat)
    requires 0 < k <= |played|
  {
    var o := w.step(played[..k]);
    o.Stepped? ==> !o.terminated && !o.truncated && StepsReturned(w, played[..k]) < maxSteps
  }

  /** The fields are those of the last simulator step that returned, and nothing was asked for after the episode was over. */
  ghost predicate FieldsTell(w: World, s: Session)
  {
    var o := LastReply(w, s.played);
    && s.observation == Some(if o.Some? then o.value.frame else w.start)
    && s.reward == (if o.Some? then o.value.reward else 0.0)
    && s.terminated == (o.Some? && o.value.terminated)
    && s.truncated == (o.Some? && (o.value.truncated || s.stepIndex >= s.maxSteps))
    && s.officialSuccess == LastVerdict(w, s.played)
    && forall k: nat | 0 < k < |s.played| :: OpenAfter(w, s.maxSteps, s.played, k)
  }

  lemma OpenOneMore(w: World, maxSteps: nat, played: seq<ActionContract.Action>, a: ActionContract.Action)
    requires forall k: nat | 0 < k <= |played| :: OpenAfter(w, maxSteps, played, k)
    ensures forall k: nat | 0 < k < |played + [a]| :: OpenAfter(w, maxSteps, played + [a], k)
  {
    forall k: nat | 0 < k < |played + [a]| ensures OpenAfter(w, maxSteps, played + [a], k) {
      assert OpenAfter(w, maxSteps, played, k);
      assert (played + [a])[..k] == played[..k];
    }
  }

  lemma OpenNow(w: World, s: Session)
    requires s.stepIndex == StepsReturned(w, s.played) && FieldsTell(w, s) && !s.terminated && !s.truncated && s.played != []
    ensures OpenAfter(w, s.maxSteps, s.played, |s.played|)
  {
    assert s.played[..|s.played|] == s.played;
  }

  lemma AdvanceTells(w: World, s: Session, action: ActionContract.Action)
    requires Tracks(w, s) && FieldsTell(w, s) && !s.terminated && !s.truncated
    ensures FieldsTell(w, Advance(w, s, action).0)
  {
    hide EverSucceeded, FirstSuccess, Advance, OpenAfter;
    var t := Advance(w, s, action).0;
    AdvanceFields(w, s, action);
    assert t.played[..|t.played| - 1] == s.played;
    if s.played != [] {
      OpenNow(w, s);
    }
    OpenOneMore(w, s.maxSteps, s.played, action);
  }

  lemma {:induction false} PlayFieldsTell(w: World, s: Session, interrupt: bool, actions: seq<Value>)
    requires s.critic.Some? && Tracks(w, s) && FieldsTell(w, s) && !s.terminated && !s.truncated
    ensures FieldsTell(w, Play(w, s, interrupt, actions).session)
    decreases |actions|
  {
    hide Advance, Tracks, FieldsTell, ActionContract.CanonicalAction;
    if actions != [] {
      PlayOneTracks(w, s, actions[0]);
      PlayOneFieldsTell(w, s, actions[0]);
      OneStepShape(w, s, actions[0]);
      var one := PlayOne(w, s, actions[0]);
      if !one.Stops(interrupt) {
        PlayFieldsTell(w, one.session, interrupt, actions[1..]);
      }
    }
  }

  lemma PlayOneFieldsTell(w: World, s: Session, raw: Value)
    requires s.critic.Some? && Tracks(w, s) && FieldsTell(w, s) && !s.terminated && !s.truncated
    ensures FieldsTell(w, PlayOne(w, s, raw).session)
  {
    hide Advance, Tracks, ActionContract.CanonicalAction, LastReply, LastVerdict, OpenAfter;
    var action := ActionContract.CanonicalAction(raw, s.scale);
    if action.Some? {
      AdvanceTells(w, s, action.value);
    }
  }

  /** The session a ready chunk starts from: it takes the rules on if it has none. */
  function WithRules(s: Session, rules: string): Session
  {
    if s.critic.None? then s.(critic := Some(rules), evaluated := []) else s
  }

  /** The chunk goes to the simulator: the episode is open, there are actions, and the rules are valid and unchanged. */
  predicate Ready(w: World, s: Session, q: ChunkRequest)
  {
    && s.hasEnvironment && s.observation.Some? && !s.terminated && !s.truncated && q.actions != [] && !q.taskProgram
    && (if s.critic.None? then w.rulesValid(q.rules) else s.critic == Some(q.rules))
  }

  /** What each refusal of a chunk says about the session and the request. */
  predicate Refuses(w: World, s: Session, q: ChunkRequest, error: SessionError)
  {
    match error
    case NotReset => !s.hasEnvironment || s.observation.None?
    case AlreadyOver => s.terminated || s.truncated
    case NoActions => q.actions == []
    case BadRules => s.critic.None? && !w.rulesValid(q.rules)
    case RulesChanged => s.critic.Some? && s.critic != Some(q.rules)
    case ProgramChanged => q.taskProgram
    case _ => false
  }

  /** Otherwise it is refused for a true reason, with nothing done but that valid rules may have been taken on. */
  lemma ChunkRunsIffReady(w: World, s: Session, q: ChunkRequest)
    ensures var run := Chunk(w, s, q);
      if Ready(w, s, q)
      then run == Play(w, WithRules(s, q.rules), q.interrupt, q.actions)
      else
        && run.error.Some? && Refuses(w, s, q, run.error.value) && run.steps == [] && run.proposals == []
        && (run.session == s
            || (s.critic.None? && w.rulesValid(q.rules) && run.session == WithRules(s, q.rules)))
  {
    hide Play;
  }

  /** A reset opens the episode to any rules. */
  lemma ResetOpens(w: World, maxSteps: nat, scale: ActionContract.Scale, q: ChunkRequest)
    ensures Ready(w, Started(w, maxSteps, scale), q) <==> q.actions != [] && !q.taskProgram && w.rulesValid(q.rules)
    ensures Started(w, maxSteps, scale).scale == scale && Started(w, maxSteps, scale).played == []
  {
  }

  lemma {:induction false} ChunksFieldsTell(w: World, s: Session, requests: seq<ChunkRequest>)
    requires Tracks(w, s) && FieldsTell(w, s)
    ensures FieldsTell(w, RunChunks(w, s, requests))
    decreases |requests|
  {
    hide Play, Chunk, Tracks, LastReply, LastVerdict, OpenAfter;
    if requests != [] {
      var q := requests[0];
      ChunkRunsIffReady(w, s, q);
      ChunksTrack(w, s, [q]);
      assert [q][1..] == [];
      assert RunChunks(w, Chunk(w, s, q).session, [][..]) == Chunk(w, s, q).session;
      if Ready(w, s, q) {
        var ready := WithRules(s, q.rules);
        SameTracks(w, s, ready);
        PlayFieldsTell(w, ready, q.interrupt, q.actions);
      }
      ChunksFieldsTell(w, Chunk(w, s, q).session, requests[1..]);
    }
  }

  lemma SameTracks(w: World, s: Session, t: Session)
    requires Tracks(w, s) && t == s.(critic := t.critic, evaluated := t.evaluated)
    ensures Tracks(w, t)
  {
    hide EverSucceeded, FirstSuccess;
  }

  /**
   * After any chunks since a reset, failed ones included: the observation, the
   * reward and the flags are those of the last simulator step that returned;
   * the episode is truncated at its step limit; and no step is asked for once
   * it is over, so the limit is never passed.
   */
  lemma FieldsAreTheLastReply(w: World, maxSteps: nat, scale: ActionContract.Scale, requests: seq<ChunkRequest>)
    ensures var s := RunChunks(w, Started(w, maxSteps, scale), requests);
      && FieldsTell(w, s) && s.maxSteps == maxSteps
      && (s.stepIndex > 0 && s.stepIndex >= maxSteps ==> s.truncated)
      && (s.stepIndex <= maxSteps || s.stepIndex == 1)
  {
    var start := Started(w, maxSteps, scale);
    if w.startSuccess {
      assert SuccessAt(w, start.played, 0);
    }
    assert Tracks(w, start) && FieldsTell(w, start);
    ChunksTrack(w, start, requests);
    ChunksFieldsTell(w, start, requests);
    ChunksKeepLimit(w, start, requests);
    LimitHolds(w, RunChunks(w, start, requests));
  }

  /** After any chunks since a reset, whatever a further chunk reports is true. */
  lemma ReportsTell(w: World, maxSteps: nat, scale: ActionContract.Scale, requests: seq<ChunkRequest>, q: ChunkRequest)
    ensures var s := RunChunks(w, Started(w, maxSteps, scale), requests);
      Ready(w, s, q) ==> ReportTells(w, WithRules(s, q.rules), q.interrupt, q.actions, Chunk(w, s, q))
  {
    hide Chunk, RunChunks, ReportTells, FieldsTell;
    FieldsAreTheLastReply(w, maxSteps, scale, requests);
    SuccessLatchIsExact(w, maxSteps, scale, requests);
    var s := RunChunks(w, Started(w, maxSteps, scale), requests);
    ChunkRunsIffReady(w, s, q);
    if Ready(w, s, q) {
      SameTracks(w, s, WithRules(s, q.rules));
      PlayTells(w, WithRules(s, q.rules), q.interrupt, q.actions);
    }
  }

  lemma {:induction false} ChunksKeepLimit(w: World, s: Session, requests: seq<ChunkRequest>)
    ensures RunChunks(w, s, requests).maxSteps == s.maxSteps
    decreases |requests|
  {
    hide Play, Chunk;
    if requests != [] {
      ChunkRunsIffReady(w, s, requests[0]);
      if Ready(w, s, requests[0]) {
        PlayKeepsSetup(w, WithRules(s, requests[0].rules), requests[0].interrupt, requests[0].actions);
      }
      ChunksKeepLimit(w, Chunk(w, s, requests[0]).session, requests[1..]);
    }
  }

  lemma {:induction false} ReturnedMeansReply(w: World, played: seq<ActionContract.Action>)
    ensures StepsReturned(w, played) > 0 <==> LastReply(w, played).Some?
  {
    if played != [] {
      ReturnedMeansReply(w, played[..|played| - 1]);
    }
  }

  lemma LimitHolds(w: World, s: Session)
    requires s.stepIndex == StepsReturned(w, s.played) && FieldsTell(w, s)
    ensures s.stepIndex > 0 && s.stepIndex >= s.maxSteps ==> s.truncated
    ensures s.stepIndex <= s.maxSteps || s.stepIndex == 1
  {
    ReturnedMeansReply(w, s.played);
    LimitOnTheWay(w, s.maxSteps, s.played);
  }

  lemma {:induction false} LimitOnTheWay(w: World, maxSteps: nat, played: seq<ActionContract.Action>)
    requires forall k: nat | 0 < k < |played| :: OpenAfter(w, maxSteps, played, k)
    ensures StepsReturned(w, played) <= maxSteps || StepsReturned(w, played) == 1
    decreases |played|
  {
    if played != [] {
      var front := played[..|played| - 1];
      forall k: nat | 0 < k < |front| ensures OpenAfter(w, maxSteps, front, k) {
        assert OpenAfter(w, maxSteps, played, k);
        assert front[..k] == played[..k];
      }
      LimitOnTheWay(w, maxSteps, front);
      FrontIsOpen(w, maxSteps, played);
    }
  }

  /** Before the last request fewer steps than the limit had returned, or none. */
  lemma {:induction false} FrontIsOpen(w: World, maxSteps: nat, played: seq<ActionContract.Action>)
    requires played != [] && forall k: nat | 0 < k < |played| :: OpenAfter(w, maxSteps, played, k)
    ensures var front := played[..|played| - 1]; StepsReturned(w, front) < maxSteps || StepsReturned(w, front) == 0
    decreases |played|
  {
    var front := played[..|played| - 1];
    if front != [] {
      forall k: nat | 0 < k < |front| ensures OpenAfter(w, maxSteps, front, k) {
        assert OpenAfter(w, maxSteps, played, k);
        assert front[..k] == played[..k];
      }
      FrontIsOpen(w, maxSteps, front);
      assert OpenAfter(w, maxSteps, played, |front|);
      assert played[..|front|] == front;
    }
  }

  // ---- The session object ------------------------------------------------

  class RoboCasaSession {
    const maxSteps: nat
    var scale: ActionContract.Scale
    var hasEnvironment: bool
    var observation: Option<Frame>
    var stepIndex: nat
    var reward: real
    var terminated: bool
    var truncated: bool
    var officialSuccess: bool
    var successLatched: bool
    var successFirstStep: Option<nat>
    var critic: Option<string>
    var evaluated: seq<(Frame, nat)>
    var played: seq<ActionContract.Action>

    function State(): Session
      reads this
    {
      Session(maxSteps, scale, hasEnvironment, observation, stepIndex, reward, terminated, truncated, officialSuccess,
              successLatched, successFirstStep, critic, evaluated, played)
    }

    constructor (steps: nat)
      ensures maxSteps == steps && !hasEnvironment && observation.None? && stepIndex == 0
    {
      maxSteps, scale, hasEnvironment, observation, stepIndex := steps, ActionContract.UNIT_SCALE, false, None, 0;
      reward, terminated, truncated, officialSuccess, successLatched := 0.0, false, false, false, false;
      successFirstStep, critic, evaluated, played := None, None, [], [];
    }

    method Reset(w: World, actionScale: ActionContract.Scale)
      modifies this
      ensures State() == Started(w, maxSteps, actionScale)
    {
      RestartEpisode(w.start);
      RestartVerdict(w.startSuccess);
      scale := actionScale;
      critic := None;
      evaluated, played := [], [];
    }

    method RestartEpisode(frame: Frame)
      modifies this
      ensures State() == old(State()).(hasEnvironment := true, observation := Some(frame), terminated := false,
                                       truncated := false, stepIndex := 0, reward := 0.0)
    {
      hasEnvironment, observation := true, Some(frame);
      terminated, truncated := false, false;
      stepIndex, reward := 0, 0.0;
    }

    method RestartVerdict(success: bool)
      modifies this
      ensures State() == old(State()).(officialSuccess := success, successLatched := success,
                                       successFirstStep := if success then Some(0) else None)
    {
      officialSuccess := success;
      successLatched := officialSuccess;
      successFirstStep := if successLatched then Some(0) else None;
    }

    method AskCritic(w: World, action: ActionContract.Action) returns (record: Option<StepRecord>, error: Option<SessionError>)
      requires critic.Some? && observation.Some?
      modifies this`evaluated
      ensures OneStep(State(), record, error) == Evaluate(w, old(State()), action)
    {
      evaluated := evaluated + [(observation.value, stepIndex)];
      var proposals := w.critic(critic.value, evaluated);
      if proposals.None? {
        return None, Some(CriticFailed);
      }
      return Some(StepRecord(stepIndex, action, observation.value, reward, officialSuccess, successLatched,
                             terminated, truncated, proposals.value)), None;
    }

    method MoveSimulator(w: World, action: ActionContract.Action) returns (error: Option<SessionError>)
      modifies this
      ensures (State(), error) == Advance(w, old(State()), action)
    {
      hide Absorb, Latch;
      played := played + [action];
      var o := w.step(played);
      if o.StepRaised? {
        return Some(SimulatorFailed);
      }
      TakeReply(o);
      if !o.healthy {
        return Some(Unhealthy);
      }
      LatchSuccess(o.success);
      return if o.recorded then None else Some(RecordingFailed);
    }

    method TakeReply(o: SimReply)
      requires o.Stepped?
      modifies this
      ensures State() == Absorb(old(State()), o)
    {
      observation := Some(o.frame);
      stepIndex := stepIndex + 1;
      reward := o.reward;
      terminated := o.terminated;
      truncated := o.truncated || stepIndex >= maxSteps;
    }

    method LatchSuccess(success: bool)
      modifies this
      ensures State() == Latch(old(State()), success)
    {
      officialSuccess := success;
      if officialSuccess && !successLatched {
        successLatched := true;
        successFirstStep := Some(stepIndex);
      }
    }

    /** One action: command check, simulator step, health, success latch, recording, critic. */
    method StepOnce(w: World, raw: Value) returns (record: Option<StepRecord>, error: Option<SessionError>)
      requires critic.Some?
      modifies this
      ensures OneStep(State(), record, error) == PlayOne(w, old(State()), raw)
      ensures record.Some? <==> error.None?
      ensures critic.Some?
    {
      hide ActionContract.CanonicalAction;
      var action := ActionContract.CanonicalAction(raw, scale);
      if action.None? {
        return None, Some(BadAction);
      }
      error := MoveSimulator(w, action.value);
      if error.Some? {
        return None, error;
      }
      record, error := AskCritic(w, action.value);
    }

    method ExecuteChunk(w: World, q: ChunkRequest) returns (r: ChunkRun)
      modifies this
      ensures r == Chunk(w, old(State()), q) && State() == r.session
    {
      if !hasEnvironment || observation.None? {
        return ChunkRun(State(), [], [], Some(NotReset));
      }
      if terminated || truncated {
        return ChunkRun(State(), [], [], Some(AlreadyOver));
      }
      if q.actions == [] {
        return ChunkRun(State(), [], [], Some(NoActions));
      }
      if critic.None? {
        if !w.rulesValid(q.rules) {
          return ChunkRun(State(), [], [], Some(BadRules));
        }
        critic, evaluated := Some(q.rules), [];
      } else if critic != Some(q.rules) {
        return ChunkRun(State(), [], [], Some(RulesChanged));
      }
      if q.taskProgram {
        return ChunkRun(State(), [], [], Some(ProgramChanged));
      }
      r := PlayActions(w, q);
    }

    method PlayActions(w: World, q: ChunkRequest) returns (r: ChunkRun)
      requires critic.Some?
      modifies this
      ensures r == Play(w, old(State()), q.interrupt, q.actions) && State() == r.session
    {
      hide PlayOne, Prepend;
      ghost var ready := State();
      var steps: seq<StepRecord>, proposals: seq<string> := [], [];
      ghost var all := Play(w, ready, q.interrupt, q.actions);
      PrependDone(all.steps, all.proposals, all.session, all.error);
      assert q.actions[0..] == q.actions;
      var i := 0;
      while i < |q.actions|
        invariant 0 <= i <= |q.actions| && critic.Some?
        invariant Play(w, ready, q.interrupt, q.actions)
                  == Prepend(steps, proposals, Play(w, State(), q.interrupt, q.actions[i..]))
      {
        ghost var before := State();
        assert q.actions[i..][0] == q.actions[i] && q.actions[i..][1..] == q.actions[i + 1..];
        OneStepShape(w, before, q.actions[i]);
        var record, error := StepOnce(w, q.actions[i]);
        if error.Some? {
          PrependDone(steps, proposals, State(), error);
          return ChunkRun(State(), steps, proposals, error);
        }
        ghost var rest := if PlayOne(w, before, q.actions[i]).Stops(q.interrupt) then ChunkRun(State(), [], [], None)
                          else Play(w, State(), q.interrupt, q.actions[i + 1..]);
        PrependMore(steps, proposals, record.value, rest);
        steps := steps + [record.value];
        proposals := proposals + record.value.proposals;
        if successLatched || terminated || truncated || (q.interrupt && record.value.proposals != []) {
          PrependDone(steps, proposals, State(), None);
          return ChunkRun(State(), steps, proposals, None);
        }
        i := i + 1;
      }
      PrependDone(steps, proposals, State(), None);
      return ChunkRun(State(), steps, proposals, None);
    }
  }
}
