/**
 * The LIBERO environment behind one RPC facade: single steps, plain chunks,
 * critic-checked chunks and the audit trace; the client's episode counters;
 * and the audit ledger flushed from the trace.
 */
module LiberoEnv {
  import opened Wrappers

  type Action = seq<real>

  datatype Obs = Obs(state: string, eef: string)

  datatype Reply = Failed | Moved(obs: Obs, reward: real, terminated: bool, truncated: bool)

  /** The simulator, the feature extraction and the critic, each a function of everything it was given. */
  datatype World = World(
    start: Obs,
    step: seq<Action> -> Reply,
    features: (seq<Action>, string) -> string,         // history of actions, previous end-effector position
    critic: (string, seq<string>) -> seq<string>)      // rules, all features since it was configured

  datatype Row = Row(stepIndex: nat, action: Action, features: string, reward: real, terminated: bool, truncated: bool,
                     proposals: seq<string>)

  datatype Facade = Facade(
    done: bool, stepIndex: nat, trace: seq<Row>, previousEef: string,
    critic: Option<string>, evaluated: seq<string>, played: seq<Action>)

  datatype EnvError = EpisodeDone | WorkerFailed | NoAction | RulesChanged

  datatype Mode = Plain | Critic(interrupt: bool)

  // ---- One step ----------------------------------------------------------

  datatype Stepped = Stepped(facade: Facade, reply: Option<Reply>, error: Option<EnvError>)

  function Step(w: World, f: Facade, a: Action): (s: Stepped)
    ensures s.reply.Some? <==> s.error.None?
    ensures s.reply.Some? ==> s.reply.value.Moved?
    ensures s.facade.trace == f.trace && s.facade.critic == f.critic
    ensures s.facade.previousEef == f.previousEef && s.facade.evaluated == f.evaluated
  {
    if f.done then Stepped(f, None, Some(EpisodeDone))
    else
      var asked := f.(played := f.played + [a]);
      var r := w.step(asked.played);
      if r.Failed? then Stepped(asked, None, Some(WorkerFailed))
      else Stepped(asked.(done := r.terminated || r.truncated, stepIndex := f.stepIndex + 1), Some(r), None)
  }

  /** A step inside a chunk: features are extracted, the critic is asked if there is one, the row is traced. */
  function ChunkStepOnce(w: World, f: Facade, mode: Mode, a: Action): (s: Stepped)
    requires mode.Critic? ==> f.critic.Some?
    ensures s.reply.Some? <==> s.error.None?
    ensures s.reply.Some? ==> s.reply.value.Moved? && |s.facade.trace| == |f.trace| + 1
    ensures f.trace <= s.facade.trace
    ensures s.facade.critic == f.critic
  {
    var s := Step(w, f, a);
    if s.error.Some? then s
    else
      var g, r := s.facade, s.reply.value;
      var features := w.features(g.played, f.previousEef);
      var evaluated := if mode.Critic? then g.evaluated + [features] else g.evaluated;
      var proposals := if mode.Critic? then w.critic(g.critic.value, evaluated) else [];
      var row := Row(g.stepIndex, a, features, r.reward, r.terminated, r.truncated, proposals);
      Stepped(g.(trace := g.trace + [row], previousEef := r.obs.eef, evaluated := evaluated), Some(r), None)
  }

  function LastProposals(f: Facade): seq<string>
  {
    if f.trace == [] then [] else f.trace[|f.trace| - 1].proposals
  }

  // ---- Chunks ------------------------------------------------------------

  datatype Run = Run(facade: Facade, replies: seq<Reply>, proposals: seq<string>, error: Option<EnvError>)

  function Prepend(replies: seq<Reply>, proposals: seq<string>, run: Run): Run
  {
    run.(replies := replies + run.replies, proposals := proposals + run.proposals)
  }

  lemma PrependMore(replies: seq<Reply>, proposals: seq<string>, reply: Reply, said: seq<string>, rest: Run)
    ensures Prepend(replies, proposals, Prepend([reply], said, rest)) == Prepend(replies + [reply], proposals + said, rest)
  {
    assert replies + ([reply] + rest.replies) == (replies + [reply]) + rest.replies;
    assert proposals + (said + rest.proposals) == (proposals + said) + rest.proposals;
  }

  lemma PrependDone(replies: seq<Reply>, proposals: seq<string>, f: Facade, error: Option<EnvError>)
    ensures Prepend(replies, proposals, Run(f, [], [], error)) == Run(f, replies, proposals, error)
    ensures Prepend([], [], Run(f, replies, proposals, error)) == Run(f, replies, proposals, error)
  {
  }

  predicate Stops(f: Facade, mode: Mode)
  {
    f.done || (mode.Critic? && mode.interrupt && LastProposals(f) != [])
  }

  function Play(w: World, f: Facade, mode: Mode, actions: seq<Action>): (r: Run)
    requires mode.Critic? ==> f.critic.Some?
    ensures f.trace <= r.facade.trace
    decreases |actions|
  {
    if actions == [] then Run(f, [], [], None)
    else
      var s := ChunkStepOnce(w, f, mode, actions[0]);
      if s.error.Some? then Run(s.facade, [], [], s.error)
      else
        Prepend([s.reply.value], LastProposals(s.facade),
                if Stops(s.facade, mode) then Run(s.facade, [], [], None) else Play(w, s.facade, mode, actions[1..]))
  }

  function ChunkStep(w: World, f: Facade, actions: seq<Action>): Run
  {
    if f.done then Run(f, [], [], Some(EpisodeDone))
    else if actions == [] then Run(f, [], [], Some(NoAction))
    else Play(w, f, Plain, actions)
  }

  function Configured(f: Facade, rules: string): Facade
  {
    if f.critic.None? then f.(critic := Some(rules), evaluated := []) else f
  }

  function CriticChunkStep(w: World, f: Facade, actions: seq<Action>, rules: string, interrupt: bool): (r: Run)
    ensures f.trace <= r.facade.trace
  {
    if f.critic.Some? && f.critic.value != rules then Run(f, [], [], Some(RulesChanged))
    else
      var ready := Configured(f, rules);
      if actions == [] then Run(ready, [], [], Some(NoAction)) else Play(w, ready, Critic(interrupt), actions)
  }

  function AuditTrace(f: Facade, since: nat): seq<Row>
  {
    RowsAfter(f.trace, since)
  }

  function RowsAfter(trace: seq<Row>, since: nat): (r: seq<Row>)
    ensures forall row <- r :: row in trace && row.stepIndex > since
  {
    if trace == [] then []
    else (if trace[0].stepIndex > since then [trace[0]] else []) + RowsAfter(trace[1..], since)
  }

  function Fresh(w: World): Facade
  {
    Facade(false, 0, [], w.start.eef, None, [], [])
  }

  // ---- Plain and critic chunks drive the same trajectory -----------------

  function WithoutProposals(rows: seq<Row>): (r: seq<Row>)
    ensures |r| == |rows| && forall i | 0 <= i < |rows| :: r[i] == rows[i].(proposals := [])
  {
    seq(|rows|, i requires 0 <= i < |rows| => rows[i].(proposals := []))
  }

  /** The part of the facade the environment determines. */
  function Trajectory(f: Facade): Facade
  {
    f.(trace := WithoutProposals(f.trace), critic := None, evaluated := [])
  }

  lemma SameStep(w: World, f: Facade, g: Facade, mode: Mode, a: Action)
    requires mode.Critic? ==> f.critic.Some?
    requires Trajectory(f) == Trajectory(g)
    ensures var s, t := ChunkStepOnce(w, f, mode, a), ChunkStepOnce(w, g, Plain, a);
      s.error == t.error && s.reply == t.reply && Trajectory(s.facade) == Trajectory(t.facade)
  {
    var s, t := ChunkStepOnce(w, f, mode, a), ChunkStepOnce(w, g, Plain, a);
    assert |f.trace| == |WithoutProposals(f.trace)| == |g.trace|;
    forall i | 0 <= i < |s.facade.trace|
      ensures |s.facade.trace| == |t.facade.trace|
      ensures s.facade.trace[i].(proposals := []) == t.facade.trace[i].(proposals := [])
    {
      if i < |f.trace| {
        assert WithoutProposals(f.trace)[i] == WithoutProposals(g.trace)[i];
      }
    }
    assert WithoutProposals(s.facade.trace) == WithoutProposals(t.facade.trace);
  }

  lemma {:induction false} PlaySameTrajectory(w: World, f: Facade, g: Facade, actions: seq<Action>)
    requires f.critic.Some? && Trajectory(f) == Trajectory(g)
    ensures var c, p := Play(w, f, Critic(false), actions), Play(w, g, Plain, actions);
      c.error == p.error && c.replies == p.replies && Trajectory(c.facade) == Trajectory(p.facade)
    decreases |actions|
  {
    hide ChunkStepOnce, Trajectory, LastProposals;
    if actions != [] {
      SameStep(w, f, g, Critic(false), actions[0]);
      var s, t := ChunkStepOnce(w, f, Critic(false), actions[0]), ChunkStepOnce(w, g, Plain, actions[0]);
      SameDone(s.facade, t.facade);
      if s.error.None? && !s.facade.done {
        PlaySameTrajectory(w, s.facade, t.facade, actions[1..]);
      }
    }
  }

  lemma SameDone(f: Facade, g: Facade)
    requires Trajectory(f) == Trajectory(g)
    ensures f.done == g.done && |f.trace| == |g.trace|
  {
    assert |WithoutProposals(f.trace)| == |WithoutProposals(g.trace)|;
  }

  lemma {:induction false} PlayPrefixTrajectory(w: World, f: Facade, g: Facade, actions: seq<Action>)
    requires f.critic.Some? && Trajectory(f) == Trajectory(g)
    requires Play(w, f, Critic(true), actions).error.None?
    ensures var c := Play(w, f, Critic(true), actions);
      var n := |c.replies|;
      && n <= |actions|
      && var p := Play(w, g, Plain, actions[..n]);
         p.error.None? && p.replies == c.replies && Trajectory(c.facade) == Trajectory(p.facade)
    decreases |actions|
  {
    hide ChunkStepOnce, Trajectory, LastProposals;
    if actions == [] {
      assert actions[..0] == [];
    } else {
      SameStep(w, f, g, Critic(true), actions[0]);
      var s, t := ChunkStepOnce(w, f, Critic(true), actions[0]), ChunkStepOnce(w, g, Plain, actions[0]);
      SameDone(s.facade, t.facade);
      var c := Play(w, f, Critic(true), actions);
      if Stops(s.facade, Critic(true)) {
        assert c.replies == [s.reply.value];
        assert actions[..1] == [actions[0]] && actions[..1][1..] == [];
        PlayNothing(w, t.facade);
        assert [t.reply.value] + [] == [t.reply.value];
      } else {
        PlayPrefixTrajectory(w, s.facade, t.facade, actions[1..]);
        var n := |c.replies|;
        assert actions[..n][1..] == actions[1..][..n - 1];
      }
    }
  }

  lemma PlayNothing(w: World, f: Facade)
    ensures Play(w, f, Plain, []) == Run(f, [], [], None)
  {
  }

  /** The rows a chunk traced: one per reply, proposals only in the last one when interrupting. */
  lemma {:induction false} InterruptedAtFirstProposal(w: World, f: Facade, actions: seq<Action>)
    requires f.critic.Some? && Play(w, f, Critic(true), actions).error.None?
    ensures var c := Play(w, f, Critic(true), actions);
      var rows := c.facade.trace[|f.trace|..];
      && f.trace <= c.facade.trace && |rows| == |c.replies| <= |actions|
      && (forall i | 0 <= i < |rows| - 1 :: rows[i].proposals == [])
      && (|rows| < |actions| ==> c.facade.done || (rows != [] && rows[|rows| - 1].proposals != []))
    decreases |actions|
  {
    hide Step;
    if actions != [] {
      var s := ChunkStepOnce(w, f, Critic(true), actions[0]);
      if !Stops(s.facade, Critic(true)) {
        InterruptedAtFirstProposal(w, s.facade, actions[1..]);
        var c := Play(w, f, Critic(true), actions);
        var rest := c.facade.trace[|s.facade.trace|..];
        var rows := c.facade.trace[|f.trace|..];
        assert rows == [s.facade.trace[|f.trace|]] + rest;
      }
    }
  }

  lemma ConfiguredTrajectory(f: Facade, rules: string)
    ensures Trajectory(Configured(f, rules)) == Trajectory(f) && Configured(f, rules).trace == f.trace
  {
  }

  /** Without interruption a critic chunk drives the environment through exactly the trajectory of the plain chunk. */
  lemma CriticChunkIsPlainChunk(w: World, f: Facade, actions: seq<Action>, rules: string)
    requires !f.done && (f.critic.Some? ==> f.critic.value == rules)
    ensures var c, p := CriticChunkStep(w, f, actions, rules, false), ChunkStep(w, f, actions);
      c.error == p.error && c.replies == p.replies && Trajectory(c.facade) == Trajectory(p.facade)
  {
    hide Play, Trajectory;
    ConfiguredTrajectory(f, rules);
    PlaySameTrajectory(w, Configured(f, rules), f, actions);
  }

  /** With interruption, through the plain trajectory of the prefix that ends at the first proposing step. */
  lemma InterruptedChunkIsPlainPrefix(w: World, f: Facade, actions: seq<Action>, rules: string)
    requires !f.done && (f.critic.Some? ==> f.critic.value == rules)
    requires CriticChunkStep(w, f, actions, rules, true).error.None?
    ensures var c := CriticChunkStep(w, f, actions, rules, true);
      var n := |c.replies|;
      var rows := c.facade.trace[|f.trace|..];
      && 0 < n <= |actions| && |rows| == n
      && ChunkStep(w, f, actions[..n]).error.None? && ChunkStep(w, f, actions[..n]).replies == c.replies
      && Trajectory(c.facade) == Trajectory(ChunkStep(w, f, actions[..n]).facade)
      && (forall i | 0 <= i < n - 1 :: rows[i].proposals == [])
      && (n < |actions| ==> c.facade.done || rows[n - 1].proposals != [])
  {
    hide Play, Trajectory;
    ConfiguredTrajectory(f, rules);
    PlayPrefixTrajectory(w, Configured(f, rules), f, actions);
    InterruptedAtFirstProposal(w, Configured(f, rules), actions);
    PlayReplies(w, Configured(f, rules), Critic(true), actions);
  }

  lemma PlayReplies(w: World, f: Facade, mode: Mode, actions: seq<Action>)
    requires (mode.Critic? ==> f.critic.Some?) && actions != [] && Play(w, f, mode, actions).error.None?
    ensures Play(w, f, mode, actions).replies != []
  {
    hide ChunkStepOnce;
  }

  // ---- What a chunk reports ----------------------------------------------

  predicate Ends(r: Reply)
  {
    r.Moved? && (r.terminated || r.truncated)
  }

  /** Where the previous end-effector position comes from: the chunk's last reply, or what was known before it. */
  function EefAfter(before: string, replies: seq<Reply>): string
  {
    if replies != [] && replies[|replies| - 1].Moved? then replies[|replies| - 1].obs.eef else before
  }

  lemma EefCons(before: string, reply: Reply, rest: seq<Reply>)
    requires reply.Moved? && forall o <- rest :: o.Moved?
    ensures EefAfter(before, [reply] + rest) == EefAfter(reply.obs.eef, rest)
  {
  }

  /** Step `i` of the chunk, in simulator terms: its reply, and the row traced for it. */
  predicate RowTells(w: World, f: Facade, mode: Mode, actions: seq<Action>, r: Run, i: nat)
    requires mode.Critic? ==> f.critic.Some?
    requires i < |r.replies| <= |actions|
    requires |f.played| + |r.replies| <= |r.facade.played| && |r.facade.trace| == |f.trace| + |r.replies|
    requires mode.Critic? ==> |r.facade.evaluated| == |f.evaluated| + |r.replies|
  {
    var n := |f.played| + i;
    var played, row, o := r.facade.played[..n + 1], r.facade.trace[|f.trace| + i], r.replies[i];
    && played[n] == actions[i] && o == w.step(played) && o.Moved?
    && row.stepIndex == f.stepIndex + i + 1 && row.action == actions[i]
    && row.reward == o.reward && row.terminated == o.terminated && row.truncated == o.truncated
    && row.features == w.features(played, EefAfter(f.previousEef, r.replies[..i]))
    && match mode
       case Plain => row.proposals == []
       case Critic(_) =>
         && r.facade.evaluated[|f.evaluated| + i] == row.features
         && row.proposals == w.critic(f.critic.value, r.facade.evaluated[..|f.evaluated| + i + 1])
  }

  function AllProposals(rows: seq<Row>): seq<string>
  {
    if rows == [] then [] else rows[0].proposals + AllProposals(rows[1..])
  }

  /** Why a chunk broke off after the replies it has. */
  predicate BrokeOff(w: World, f: Facade, actions: seq<Action>, r: Run, error: EnvError)
  {
    match error
    case EpisodeDone => f.done && r.replies == [] && r.facade == f
    case WorkerFailed =>
      && !f.done && |r.replies| < |actions| && r.facade.played != []
      && r.facade.played[|r.facade.played| - 1] == actions[|r.replies|] && w.step(r.facade.played).Failed?
    case _ => false
  }

  /** The facade after the chunk: what was asked, traced and evaluated, and the fields from the last reply. */
  ghost predicate Counted(f: Facade, mode: Mode, actions: seq<Action>, r: Run)
  {
    var n, g := |r.replies|, r.facade;
    && n <= |actions|
    && f.played <= g.played && |g.played| == |f.played| + n + (if r.error == Some(WorkerFailed) then 1 else 0)
    && f.trace <= g.trace && |g.trace| == |f.trace| + n
    && f.evaluated <= g.evaluated && |g.evaluated| == |f.evaluated| + (if mode.Critic? then n else 0)
    && g.critic == f.critic && g.stepIndex == f.stepIndex + n
    && g.previousEef == EefAfter(f.previousEef, r.replies)
    && g.done == (if n == 0 then f.done else Ends(r.replies[n - 1]))
    && r.proposals == AllProposals(g.trace[|f.trace|..])
  }

  ghost predicate RowsTell(w: World, f: Facade, mode: Mode, actions: seq<Action>, r: Run)
    requires (mode.Critic? ==> f.critic.Some?) && Counted(f, mode, actions, r)
  {
    forall i: nat | i < |r.replies| :: RowTells(w, f, mode, actions, r, i)
  }

  /** Step `i` of the chunk calls for the end of it. */
  predicate CallsForEnd(f: Facade, mode: Mode, r: Run, i: nat)
    requires i < |r.replies| && |r.facade.trace| == |f.trace| + |r.replies|
  {
    Ends(r.replies[i]) || (mode.Critic? && mode.interrupt && r.facade.trace[|f.trace| + i].proposals != [])
  }

  /**
   * What a chunk reports and leaves: a reply and a row per step telling what
   * the simulator and the critic said about exactly the action asked for, all
   * proposals in order, the end exactly at the first stop, and the facade's
   * fields from the last reply.
   */
  ghost predicate ReportTells(w: World, f: Facade, mode: Mode, actions: seq<Action>, r: Run)
    requires mode.Critic? ==> f.critic.Some?
  {
    var n := |r.replies|;
    && Counted(f, mode, actions, r)
    && RowsTell(w, f, mode, actions, r)
    && (forall i: nat | i < n && CallsForEnd(f, mode, r, i) :: i == n - 1 && r.error.None?)
    && (r.error.None? && n < |actions| ==> n > 0 && CallsForEnd(f, mode, r, n - 1))
    && (r.error.Some? ==> BrokeOff(w, f, actions, r, r.error.value))
  }

  lemma StepTells(w: World, f: Facade, mode: Mode, a: Action)
    requires mode.Critic? ==> f.critic.Some?
    ensures var s := ChunkStepOnce(w, f, mode, a); var g := s.facade;
      && (s.error.Some? ==>
            || (s.error == Some(EpisodeDone) && f.done && g == f)
            || (s.error == Some(WorkerFailed) && !f.done && g == f.(played := f.played + [a]) && w.step(g.played).Failed?))
      && (s.error.None? ==>
            var o := s.reply.value; var row := g.trace[|g.trace| - 1];
            && !f.done && g.played == f.played + [a] && g.trace == f.trace + [row] && g.critic == f.critic
            && g.evaluated == f.evaluated + (if mode.Critic? then [row.features] else [])
            && g.stepIndex == f.stepIndex + 1 && g.previousEef == o.obs.eef && g.done == Ends(o)
            && o == w.step(g.played)
            && row.stepIndex == g.stepIndex && row.action == a && row.reward == o.reward && row.terminated == o.terminated
            && row.truncated == o.truncated && row.features == w.features(g.played, f.previousEef)
            && row.proposals == (if mode.Critic? then w.critic(f.critic.value, g.evaluated) else [])
            && LastProposals(g) == row.proposals)
  {
  }

  lemma {:induction false} PlayTells(w: World, f: Facade, mode: Mode, actions: seq<Action>)
    requires mode.Critic? ==> f.critic.Some?
    ensures ReportTells(w, f, mode, actions, Play(w, f, mode, actions))
    decreases |actions|
  {
    hide ChunkStepOnce, LastProposals;
    if actions != [] {
      StepTells(w, f, mode, actions[0]);
      var s := ChunkStepOnce(w, f, mode, actions[0]);
      if s.error.None? {
        if Stops(s.facade, mode) {
          OneRowReport(w, f, mode, actions, s);
        } else {
          PlayTells(w, s.facade, mode, actions[1..]);
          MoreRowsReport(w, f, mode, actions, s, Play(w, s.facade, mode, actions[1..]));
        }
      }
    }
  }

  lemma OneRowReport(w: World, f: Facade, mode: Mode, actions: seq<Action>, s: Stepped)
    requires mode.Critic? ==> f.critic.Some?
    requires actions != [] && s == ChunkStepOnce(w, f, mode, actions[0]) && s.error.None? && Stops(s.facade, mode)
    ensures ReportTells(w, f, mode, actions, Prepend([s.reply.value], LastProposals(s.facade), Run(s.facade, [], [], None)))
  {
    hide ChunkStepOnce, LastProposals, RowTells, Counted, EefAfter;
    PlayTellsNothing(w, s.facade, mode, actions[1..]);
    var rest := Run(s.facade, [], [], None);
    var r := Prepend([s.reply.value], LastProposals(s.facade), rest);
    MoreCounted(w, f, mode, actions, s, rest);
    Sizes(f, mode, actions, r);
    StepTells(w, f, mode, actions[0]);
    FirstRow(w, f, mode, actions, s, rest);
  }

  /** The start of a run: nothing done yet, so nothing wrong. */
  lemma PlayTellsNothing(w: World, f: Facade, mode: Mode, actions: seq<Action>)
    ensures Counted(f, mode, actions, Run(f, [], [], None))
  {
  }

  lemma MoreRowsReport(w: World, f: Facade, mode: Mode, actions: seq<Action>, s: Stepped, rest: Run)
    requires mode.Critic? ==> f.critic.Some?
    requires actions != [] && s == ChunkStepOnce(w, f, mode, actions[0]) && s.error.None? && !Stops(s.facade, mode)
    requires ReportTells(w, s.facade, mode, actions[1..], rest)
    ensures ReportTells(w, f, mode, actions, Prepend([s.reply.value], LastProposals(s.facade), rest))
  {
    hide ChunkStepOnce, LastProposals, RowTells, Counted;
    var r := Prepend([s.reply.value], LastProposals(s.facade), rest);
    MoreCounted(w, f, mode, actions, s, rest);
    Sizes(f, mode, actions, r);
    Sizes(s.facade, mode, actions[1..], rest);
    StepTells(w, f, mode, actions[0]);
    forall i: nat | i < |r.replies|
      ensures RowTells(w, f, mode, actions, r, i)
      ensures CallsForEnd(f, mode, r, i) <==> i > 0 && CallsForEnd(s.facade, mode, rest, i - 1)
    {
      if i == 0 {
        FirstRow(w, f, mode, actions, s, rest);
      } else {
        LaterRow(w, f, mode, actions, s, rest, i);
      }
    }
  }

  lemma Sizes(f: Facade, mode: Mode, actions: seq<Action>, r: Run)
    requires Counted(f, mode, actions, r)
    ensures |r.replies| <= |actions|
    ensures f.played <= r.facade.played && |f.played| + |r.replies| <= |r.facade.played|
    ensures f.trace <= r.facade.trace && |r.facade.trace| == |f.trace| + |r.replies|
    ensures mode.Critic? ==> |r.facade.evaluated| == |f.evaluated| + |r.replies|
  {
  }

  lemma MoreCounted(w: World, f: Facade, mode: Mode, actions: seq<Action>, s: Stepped, rest: Run)
    requires mode.Critic? ==> f.critic.Some?
    requires actions != [] && s == ChunkStepOnce(w, f, mode, actions[0]) && s.error.None?
    requires Counted(s.facade, mode, actions[1..], rest) && RowsTell(w, s.facade, mode, actions[1..], rest)
    ensures Counted(f, mode, actions, Prepend([s.reply.value], LastProposals(s.facade), rest))
  {
    hide ChunkStepOnce, LastProposals, RowTells, BrokeOff, EefAfter;
    StepTells(w, f, mode, actions[0]);
    var g := s.facade;
    var r := Prepend([s.reply.value], LastProposals(g), rest);
    var row := g.trace[|f.trace|];
    assert r.facade.trace[|f.trace|..] == [row] + r.facade.trace[|g.trace|..];
    assert ([row] + r.facade.trace[|g.trace|..])[1..] == r.facade.trace[|g.trace|..];
    AllMoved(w, g, mode, actions[1..], rest);
    EefCons(f.previousEef, s.reply.value, rest.replies);
  }

  lemma FirstRow(w: World, f: Facade, mode: Mode, actions: seq<Action>, s: Stepped, rest: Run)
    requires mode.Critic? ==> f.critic.Some?
    requires actions != [] && s == ChunkStepOnce(w, f, mode, actions[0]) && s.error.None?
    requires Counted(s.facade, mode, actions[1..], rest)
    ensures RowTells(w, f, mode, actions, Prepend([s.reply.value], LastProposals(s.facade), rest), 0)
  {
    hide ChunkStepOnce, LastProposals;
    StepTells(w, f, mode, actions[0]);
    assert rest.facade.played[..|f.played| + 1] == s.facade.played;
    assert mode.Critic? ==> rest.facade.evaluated[..|f.evaluated| + 1] == s.facade.evaluated;
  }

  lemma LaterRow(w: World, f: Facade, mode: Mode, actions: seq<Action>, s: Stepped, rest: Run, i: nat)
    requires mode.Critic? ==> f.critic.Some?
    requires actions != [] && s == ChunkStepOnce(w, f, mode, actions[0]) && s.error.None?
    requires Counted(s.facade, mode, actions[1..], rest) && RowsTell(w, s.facade, mode, actions[1..], rest)
    requires 0 < i <= |rest.replies|
    ensures RowTells(w, f, mode, actions, Prepend([s.reply.value], LastProposals(s.facade), rest), i)
  {
    hide ChunkStepOnce, LastProposals, EefAfter, AllProposals;
    StepTells(w, f, mode, actions[0]);
    var r := Prepend([s.reply.value], LastProposals(s.facade), rest);
    assert RowTells(w, s.facade, mode, actions[1..], rest, i - 1);
    assert r.replies[..i] == [s.reply.value] + rest.replies[..i - 1];
    AllMoved(w, s.facade, mode, actions[1..], rest);
    EefCons(f.previousEef, s.reply.value, rest.replies[..i - 1]);
  }

  lemma AllMoved(w: World, f: Facade, mode: Mode, actions: seq<Action>, r: Run)
    requires (mode.Critic? ==> f.critic.Some?) && Counted(f, mode, actions, r) && RowsTell(w, f, mode, actions, r)
    ensures forall o <- r.replies :: o.Moved?
  {
    forall i: nat | i < |r.replies| ensures r.replies[i].Moved? {
      assert RowTells(w, f, mode, actions, r, i);
    }
  }

  /** A plain chunk is refused on an episode that is done, or without actions; otherwise it reports the truth. */
  lemma PlainChunkTells(w: World, f: Facade, actions: seq<Action>)
    ensures var r := ChunkStep(w, f, actions);
      && (f.done ==> r == Run(f, [], [], Some(EpisodeDone)))
      && (!f.done && actions == [] ==> r == Run(f, [], [], Some(NoAction)))
      && (!f.done && actions != [] ==> ReportTells(w, f, Plain, actions, r))
  {
    hide Play, ReportTells;
    PlayTells(w, f, Plain, actions);
  }

  /** A critic chunk takes its rules on if there are none, is refused if they differ, and otherwise reports the truth. */
  lemma CriticChunkTells(w: World, f: Facade, actions: seq<Action>, rules: string, interrupt: bool)
    ensures var r := CriticChunkStep(w, f, actions, rules, interrupt);
      var ready := if f.critic.None? then f.(critic := Some(rules), evaluated := []) else f;
      && (f.critic.Some? && f.critic != Some(rules) ==> r == Run(f, [], [], Some(RulesChanged)))
      && (ready.critic == Some(rules) && actions == [] ==> r == Run(ready, [], [], Some(NoAction)))
      && (ready.critic == Some(rules) && actions != [] ==> ReportTells(w, ready, Critic(interrupt), actions, r))
  {
    hide Play, ReportTells;
    PlayTells(w, Configured(f, rules), Critic(interrupt), actions);
  }

  // ---- The client's counters ---------------------------------------------

  datatype Client = Client(terminated: bool, truncated: bool, steps: nat)
  {
    predicate Over() { terminated || truncated }
  }

  function Any(replies: seq<Reply>, truncation: bool): (b: bool)
    ensures b <==> exists i :: 0 <= i < |replies| && replies[i].Moved?
                               && (if truncation then replies[i].truncated else replies[i].terminated)
  {
    exists r <- replies :: r.Moved? && if truncation then r.truncated else r.terminated
  }

  function Observe(c: Client, replies: seq<Reply>): Client
  {
    Client(c.terminated || Any(replies, false), c.truncated || Any(replies, true), c.steps + |replies|)
  }

  datatype Op =
    | OpStep(action: Action)
    | OpChunk(actions: seq<Action>)
    | OpCritic(actions: seq<Action>, rules: string, interrupt: bool)

  function RunOp(w: World, f: Facade, op: Op): Run
  {
    match op
    case OpStep(a) =>
      var s := Step(w, f, a);
      Run(s.facade, if s.reply.Some? then [s.reply.value] else [], [], s.error)
    case OpChunk(actions) => ChunkStep(w, f, actions)
    case OpCritic(actions, rules, interrupt) => CriticChunkStep(w, f, actions, rules, interrupt)
  }

  /** The server's done flag and step count after a failure-free call agree with what its replies say. */
  lemma {:induction false} PlayCounts(w: World, f: Facade, mode: Mode, actions: seq<Action>)
    requires (mode.Critic? ==> f.critic.Some?) && Play(w, f, mode, actions).error.None? && !f.done
    ensures var r := Play(w, f, mode, actions);
      && r.facade.stepIndex == f.stepIndex + |r.replies|
      && r.facade.done == (Any(r.replies, false) || Any(r.replies, true))
    decreases |actions|
  {
    if actions != [] {
      var s := ChunkStepOnce(w, f, mode, actions[0]);
      var r := Play(w, f, mode, actions);
      if Stops(s.facade, mode) {
        assert r.replies == [s.reply.value];
        assert s.reply.value in r.replies;
      } else {
        PlayCounts(w, s.facade, mode, actions[1..]);
        var rest := Play(w, s.facade, mode, actions[1..]);
        assert r.replies == [s.reply.value] + rest.replies;
        forall truncation: bool ensures Any(r.replies, truncation) == Any(rest.replies, truncation) {
          assert forall x :: x in r.replies <==> x == s.reply.value || x in rest.replies;
        }
      }
    }
  }

  /** Client and server in step: same count, and the client is over exactly when the server is done. */
  predicate Mirrors(c: Client, f: Facade)
  {
    c.steps == f.stepIndex && c.Over() == f.done
  }

  lemma OpKeepsMirror(w: World, f: Facade, c: Client, op: Op)
    requires Mirrors(c, f) && !c.Over() && RunOp(w, f, op).error.None?
    ensures Mirrors(Observe(c, RunOp(w, f, op).replies), RunOp(w, f, op).facade)
  {
    var r := RunOp(w, f, op);
    match op
    case OpStep(a) =>
      assert r.replies[0] in r.replies;
    case OpChunk(actions) =>
      PlayCounts(w, f, Plain, actions);
    case OpCritic(actions, rules, interrupt) =>
      var ready := Configured(f, rules);
      PlayCounts(w, ready, Critic(interrupt), actions);
  }

  /** A failure-free run of client calls: each is made while the episode is not over, and none raises. */
  ghost predicate FailureFree(w: World, f: Facade, c: Client, ops: seq<Op>, g: Facade, d: Client)
    decreases |ops|
  {
    if ops == [] then f == g && c == d
    else
      var r := RunOp(w, f, ops[0]);
      !c.Over() && r.error.None? && FailureFree(w, r.facade, Observe(c, r.replies), ops[1..], g, d)
  }

  /** Some step asked for after the first `from` came back with the flag. */
  ghost predicate Flagged(w: World, played: seq<Action>, from: nat, truncation: bool)
  {
    exists k: nat :: FlaggedAt(w, played, from, truncation, k)
  }

  predicate FlaggedAt(w: World, played: seq<Action>, from: nat, truncation: bool, k: nat)
  {
    && from < k <= |played|
    && var o := w.step(played[..k]); o.Moved? && (if truncation then o.truncated else o.terminated)
  }

  lemma FlaggedSplits(w: World, played: seq<Action>, more: seq<Action>, from: nat, truncation: bool)
    requires played <= more && from <= |played|
    ensures Flagged(w, more, from, truncation) <==>
      Flagged(w, played, from, truncation) || Flagged(w, more, |played|, truncation)
  {
    forall k: nat | k <= |played| ensures more[..k] == played[..k] { }
    if Flagged(w, played, from, truncation) {
      var k: nat :| FlaggedAt(w, played, from, truncation, k);
      assert FlaggedAt(w, more, from, truncation, k);
    }
    if Flagged(w, more, |played|, truncation) {
      var k: nat :| FlaggedAt(w, more, |played|, truncation, k);
      assert FlaggedAt(w, more, from, truncation, k);
    }
    if Flagged(w, more, from, truncation) {
      var k: nat :| FlaggedAt(w, more, from, truncation, k);
      assert k <= |played| ==> FlaggedAt(w, played, from, truncation, k);
      assert k > |played| ==> FlaggedAt(w, more, |played|, truncation, k);
    }
  }

  /** The replies a call returned are the simulator's, to exactly the requests it made. */
  ghost predicate Answers(w: World, f: Facade, r: Run)
  {
    && f.played <= r.facade.played && |r.facade.played| == |f.played| + |r.replies|
    && forall i: nat | i < |r.replies| :: r.replies[i] == w.step(r.facade.played[..|f.played| + i + 1])
  }

  lemma PlayAnswers(w: World, f: Facade, mode: Mode, actions: seq<Action>)
    requires (mode.Critic? ==> f.critic.Some?) && Play(w, f, mode, actions).error.None?
    ensures Answers(w, f, Play(w, f, mode, actions))
  {
    hide Play;
    PlayTells(w, f, mode, actions);
    var r := Play(w, f, mode, actions);
    forall i: nat | i < |r.replies| ensures r.replies[i] == w.step(r.facade.played[..|f.played| + i + 1]) {
      assert RowTells(w, f, mode, actions, r, i);
    }
  }

  lemma OpAnswers(w: World, f: Facade, op: Op)
    requires RunOp(w, f, op).error.None?
    ensures Answers(w, f, RunOp(w, f, op))
  {
    hide Play;
    match op
    case OpStep(a) =>
      var g := Step(w, f, a).facade;
      assert g.played[..|f.played| + 1] == g.played;
    case OpChunk(actions) => PlayAnswers(w, f, Plain, actions);
    case OpCritic(actions, rules, interrupt) =>
      var ready := Configured(f, rules);
      PlayAnswers(w, ready, Critic(interrupt), actions);
  }

  lemma AnyIsFlagged(w: World, f: Facade, r: Run, truncation: bool)
    requires Answers(w, f, r)
    ensures Any(r.replies, truncation) <==> Flagged(w, r.facade.played, |f.played|, truncation)
  {
    if Any(r.replies, truncation) {
      var i :| 0 <= i < |r.replies| && r.replies[i].Moved?
               && (if truncation then r.replies[i].truncated else r.replies[i].terminated);
      assert FlaggedAt(w, r.facade.played, |f.played|, truncation, |f.played| + i + 1);
    }
    if Flagged(w, r.facade.played, |f.played|, truncation) {
      var k: nat :| FlaggedAt(w, r.facade.played, |f.played|, truncation, k);
      var o := r.replies[k - |f.played| - 1];
      assert o == w.step(r.facade.played[..|f.played| + (k - |f.played| - 1) + 1]);
    }
  }

  /**
   * Over any failure-free calls the client mirrors the server: same count,
   * over exactly when the server is done, and terminated or truncated exactly
   * when some simulator step since came back so.
   */
  lemma {:induction false} ClientMirrorsServer(w: World, f: Facade, c: Client, ops: seq<Op>, g: Facade, d: Client)
    requires Mirrors(c, f) && FailureFree(w, f, c, ops, g, d)
    ensures Mirrors(d, g) && f.played <= g.played
    ensures d.terminated <==> c.terminated || Flagged(w, g.played, |f.played|, false)
    ensures d.truncated <==> c.truncated || Flagged(w, g.played, |f.played|, true)
    decreases |ops|
  {
    hide RunOp, Mirrors, FlaggedAt, Any;
    if ops != [] {
      OpKeepsMirror(w, f, c, ops[0]);
      OpAnswers(w, f, ops[0]);
      var r := RunOp(w, f, ops[0]);
      ClientMirrorsServer(w, r.facade, Observe(c, r.replies), ops[1..], g, d);
      forall truncation: bool
        ensures Flagged(w, g.played, |f.played|, truncation) <==>
          Any(r.replies, truncation) || Flagged(w, g.played, |r.facade.played|, truncation)
      {
        AnyIsFlagged(w, f, r, truncation);
        FlaggedSplits(w, r.facade.played, g.played, |f.played|, truncation);
      }
    } else {
      assert forall k: nat, t: bool :: !FlaggedAt(w, g.played, |g.played|, t, k) by {
        NoneBeyond(w, g.played);
      }
    }
  }

  lemma NoneBeyond(w: World, played: seq<Action>)
    ensures forall k: nat, t: bool :: !FlaggedAt(w, played, |played|, t, k)
  {
  }

  // ---- The audit ledger --------------------------------------------------

  datatype ActionRow = ActionRow(stepIndex: nat, action: Action)

  datatype Ledger = Ledger(lastStep: nat, actions: seq<ActionRow>, states: seq<Row>)

  function ActionRows(rows: seq<Row>): (r: seq<ActionRow>)
    ensures |r| == |rows| && forall i | 0 <= i < |rows| :: r[i] == ActionRow(rows[i].stepIndex, rows[i].action)
  {
    seq(|rows|, i requires 0 <= i < |rows| => ActionRow(rows[i].stepIndex, rows[i].action))
  }

  /** Rows are traced in step order, with steps that were taken; a bare step traces none. */
  ghost predicate Ordered(f: Facade)
  {
    Increasing(f.trace) && forall row <- f.trace :: 0 < row.stepIndex <= f.stepIndex
  }

  predicate Increasing(trace: seq<Row>)
  {
    forall i, j | 0 <= i < j < |trace| :: trace[i].stepIndex < trace[j].stepIndex
  }

  /** The trace numbers its rows 1, 2, 3, ... */
  predicate Numbered(trace: seq<Row>)
  {
    forall i | 0 <= i < |trace| :: trace[i].stepIndex == i + 1
  }

  function LastStepOf(rows: seq<Row>): nat
  {
    if rows == [] then 0 else rows[|rows| - 1].stepIndex
  }

  /** The ledgers hold the first rows of the trace, and the last audited step is that of the last of them. */
  ghost predicate Records(l: Ledger, trace: seq<Row>)
  {
    l.states <= trace && l.actions == ActionRows(l.states) && l.lastStep == LastStepOf(l.states)
  }

  datatype AuditOp = Call(op: Op) | Flush

  /** Calls, failing or not, and flushes in any order. */
  ghost predicate Audited(w: World, f: Facade, l: Ledger, ops: seq<AuditOp>, g: Facade, m: Ledger)
    decreases |ops|
  {
    if ops == [] then f == g && l == m
    else
      match ops[0]
      case Flush => Audited(w, f, Flushed(l, f.trace), ops[1..], g, m)
      case Call(op) => Audited(w, RunOp(w, f, op).facade, l, ops[1..], g, m)
  }

  /** All the calls are chunk calls that succeed. */
  ghost predicate ChunksSucceed(w: World, f: Facade, ops: seq<AuditOp>)
    decreases |ops|
  {
    ops != [] ==>
      match ops[0]
      case Flush => ChunksSucceed(w, f, ops[1..])
      case Call(op) =>
        !op.OpStep? && !f.done && RunOp(w, f, op).error.None? && ChunksSucceed(w, RunOp(w, f, op).facade, ops[1..])
  }

  function Flushed(l: Ledger, trace: seq<Row>): Ledger
  {
    var rows := RowsAfter(trace, l.lastStep);
    Ledger(LargestStep(rows, l.lastStep), l.actions + ActionRows(rows), l.states + rows)
  }

  function LargestStep(rows: seq<Row>, least: nat): (n: nat)
    ensures n >= least
  {
    if rows == [] then least
    else LargestStep(rows[1..], if rows[0].stepIndex > least then rows[0].stepIndex else least)
  }

  lemma {:induction false} RowsAfterIncreasing(trace: seq<Row>, n: nat, since: nat)
    requires n <= |trace|
    requires forall i | 0 <= i < |trace| :: i < n <==> trace[i].stepIndex <= since
    ensures RowsAfter(trace, since) == trace[n..]
    decreases |trace|
  {
    if n == 0 {
      AllAfter(trace, since);
    } else {
      RowsAfterIncreasing(trace[1..], n - 1, since);
    }
  }

  lemma {:induction false} AllAfter(trace: seq<Row>, since: nat)
    requires forall i | 0 <= i < |trace| :: trace[i].stepIndex > since
    ensures RowsAfter(trace, since) == trace
  {
    if trace != [] {
      AllAfter(trace[1..], since);
    }
  }

  lemma {:induction false} LargestIncreasing(rows: seq<Row>, least: nat)
    requires Increasing(rows) && (rows != [] ==> rows[0].stepIndex > least)
    ensures LargestStep(rows, least) == if rows == [] then least else LastStepOf(rows)
  {
    if rows != [] {
      LargestIncreasing(rows[1..], rows[0].stepIndex);
    }
  }

  lemma FlushRecords(l: Ledger, f: Facade)
    requires Ordered(f) && Records(l, f.trace)
    ensures Flushed(l, f.trace) == Ledger(LastStepOf(f.trace), ActionRows(f.trace), f.trace)
    ensures Records(Flushed(l, f.trace), f.trace)
  {
    hide Ordered, Increasing, ActionRows, RowsAfter, LargestStep, LastStepOf;
    var rest := f.trace[|l.states|..];
    assert l.states + rest == f.trace;
    NewRows(l, f);
    ActionRowsConcat(l.states, rest);
  }

  lemma NewRows(l: Ledger, f: Facade)
    requires Ordered(f) && Records(l, f.trace)
    ensures RowsAfter(f.trace, l.lastStep) == f.trace[|l.states|..]
    ensures LargestStep(f.trace[|l.states|..], l.lastStep) == LastStepOf(f.trace)
  {
    hide Ordered, Increasing, ActionRows, RowsAfter, LargestStep;
    RecordedSplit(l, f);
    RowsAfterIncreasing(f.trace, |l.states|, l.lastStep);
    LargestIncreasing(f.trace[|l.states|..], l.lastStep);
  }

  /** The recorded rows are those up to the last audited step. */
  lemma RecordedSplit(l: Ledger, f: Facade)
    requires Ordered(f) && Records(l, f.trace)
    ensures forall i | 0 <= i < |f.trace| :: i < |l.states| <==> f.trace[i].stepIndex <= l.lastStep
    ensures Increasing(f.trace[|l.states|..])
  {
    var n := |l.states|;
    forall i | 0 <= i < n ensures f.trace[i].stepIndex <= l.lastStep {
      assert f.trace[i] == l.states[i] && f.trace[n - 1] == l.states[n - 1];
    }
    forall i | n <= i < |f.trace| ensures f.trace[i].stepIndex > l.lastStep {
      assert f.trace[i] in f.trace;
      assert n > 0 ==> f.trace[n - 1] == l.states[n - 1];
    }
  }

  lemma ActionRowsConcat(a: seq<Row>, b: seq<Row>)
    ensures ActionRows(a) + ActionRows(b) == ActionRows(a + b)
  {
  }

  /** One more row for the step just taken, or none. */
  lemma StepOrdered(w: World, f: Facade, mode: Mode, a: Action)
    requires Ordered(f) && (mode.Critic? ==> f.critic.Some?)
    ensures Ordered(ChunkStepOnce(w, f, mode, a).facade)
    ensures Ordered(Step(w, f, a).facade)
  {
  }

  lemma {:induction false} PlayOrdered(w: World, f: Facade, mode: Mode, actions: seq<Action>)
    requires (mode.Critic? ==> f.critic.Some?) && Ordered(f)
    ensures Ordered(Play(w, f, mode, actions).facade)
    decreases |actions|
  {
    hide Ordered;
    if actions != [] {
      StepOrdered(w, f, mode, actions[0]);
      var s := ChunkStepOnce(w, f, mode, actions[0]);
      if s.error.None? && !Stops(s.facade, mode) {
        PlayOrdered(w, s.facade, mode, actions[1..]);
      }
    }
  }

  lemma CallOrdered(w: World, f: Facade, op: Op)
    requires Ordered(f)
    ensures Ordered(RunOp(w, f, op).facade) && f.trace <= RunOp(w, f, op).facade.trace
  {
    match op
    case OpStep(a) => StepOrdered(w, f, Plain, a);
    case OpChunk(actions) => PlayOrdered(w, f, Plain, actions);
    case OpCritic(actions, rules, interrupt) =>
      var ready := Configured(f, rules);
      PlayOrdered(w, ready, Critic(interrupt), actions);
  }

  /**
   * Over any interleaving of flushes and calls of every kind, failing or not,
   * since a reset: the ledgers hold exactly the traced rows up to the last
   * audited step, once each and in order; a flush makes them complete; and
   * flushing again adds nothing.
   */
  lemma {:induction false} LedgerHoldsTheTrace(w: World, f: Facade, l: Ledger, ops: seq<AuditOp>, g: Facade, m: Ledger)
    requires Ordered(f) && Records(l, f.trace) && Audited(w, f, l, ops, g, m)
    ensures Ordered(g) && Records(m, g.trace)
    ensures forall row :: row in m.states <==> row in g.trace && row.stepIndex <= m.lastStep
    ensures Flushed(m, g.trace).states == g.trace && Flushed(Flushed(m, g.trace), g.trace) == Flushed(m, g.trace)
    decreases |ops|
  {
    hide RunOp, Flushed, Ordered;
    if ops == [] {
      FlushRecords(m, g);
      FlushRecords(Flushed(m, g.trace), g);
      RecordedRows(m, g);
    } else {
      match ops[0]
      case Flush =>
        FlushRecords(l, f);
        LedgerHoldsTheTrace(w, f, Flushed(l, f.trace), ops[1..], g, m);
      case Call(op) =>
        CallOrdered(w, f, op);
        LedgerHoldsTheTrace(w, RunOp(w, f, op).facade, l, ops[1..], g, m);
    }
  }

  lemma RecordedRows(m: Ledger, g: Facade)
    requires Ordered(g) && Records(m, g.trace)
    ensures forall row :: row in m.states <==> row in g.trace && row.stepIndex <= m.lastStep
  {
    hide Ordered, Increasing;
    RecordedSplit(m, g);
    forall row | row in g.trace && row.stepIndex <= m.lastStep ensures row in m.states {
      var i :| 0 <= i < |g.trace| && g.trace[i] == row;
      assert m.states[i] == row;
    }
    forall row | row in m.states ensures row in g.trace && row.stepIndex <= m.lastStep {
      var i :| 0 <= i < |m.states| && m.states[i] == row;
      assert g.trace[i] == row;
    }
  }

  lemma {:induction false} PlayNumbers(w: World, f: Facade, mode: Mode, actions: seq<Action>)
    requires (mode.Critic? ==> f.critic.Some?) && Play(w, f, mode, actions).error.None?
    requires Numbered(f.trace) && f.stepIndex == |f.trace|
    ensures var g := Play(w, f, mode, actions).facade; Numbered(g.trace) && g.stepIndex == |g.trace|
    decreases |actions|
  {
    if actions != [] {
      var s := ChunkStepOnce(w, f, mode, actions[0]);
      if !Stops(s.facade, mode) {
        PlayNumbers(w, s.facade, mode, actions[1..]);
      }
    }
  }

  lemma {:induction false} ChunksNumber(w: World, f: Facade, l: Ledger, ops: seq<AuditOp>, g: Facade, m: Ledger)
    requires Numbered(f.trace) && f.stepIndex == |f.trace|
    requires Audited(w, f, l, ops, g, m) && ChunksSucceed(w, f, ops)
    ensures Numbered(g.trace) && g.stepIndex == |g.trace|
    decreases |ops|
  {
    hide Play, Flushed, Numbered;
    if ops != [] {
      match ops[0]
      case Flush => ChunksNumber(w, f, Flushed(l, f.trace), ops[1..], g, m);
      case Call(op) =>
        match op {
          case OpStep(_) =>
          case OpChunk(actions) => PlayNumbers(w, f, Plain, actions);
          case OpCritic(actions, rules, interrupt) =>
            var ready := Configured(f, rules);
            PlayNumbers(w, ready, Critic(interrupt), actions);
        }
        ChunksNumber(w, RunOp(w, f, op).facade, l, ops[1..], g, m);
    }
  }

  /**
   * Over any interleaving of failure-free chunk calls and flushes since a
   * reset, the ledgers hold the rows of steps 1 to the last audited step
   * exactly once and in order, and a flush brings them up to the step count.
   */
  lemma LedgerIsExact(w: World, ops: seq<AuditOp>, g: Facade, m: Ledger)
    requires Audited(w, Fresh(w), Ledger(0, [], []), ops, g, m) && ChunksSucceed(w, Fresh(w), ops)
    ensures |m.states| == |m.actions| == m.lastStep <= g.stepIndex
    ensures forall i | 0 <= i < m.lastStep ::
              m.states[i].stepIndex == m.actions[i].stepIndex == i + 1 && m.states[i].action == m.actions[i].action
    ensures Flushed(m, g.trace).lastStep == g.stepIndex && |Flushed(m, g.trace).states| == g.stepIndex
    ensures Flushed(Flushed(m, g.trace), g.trace) == Flushed(m, g.trace)
  {
    hide RunOp, Flushed;
    LedgerHoldsTheTrace(w, Fresh(w), Ledger(0, [], []), ops, g, m);
    ChunksNumber(w, Fresh(w), Ledger(0, [], []), ops, g, m);
    FlushRecords(m, g);
  }

  // ---- The objects -------------------------------------------------------

  class LiberoEnvFacade {
    const world: World
    var done: bool
    var stepIndex: nat
    var auditTrace: seq<Row>
    var previousEef: string
    var critic: Option<string>
    var evaluated: seq<string>
    var played: seq<Action>

    function State(): Facade
      reads this
    {
      Facade(done, stepIndex, auditTrace, previousEef, critic, evaluated, played)
    }

    constructor (w: World)
      ensures world == w && State() == Fresh(w)
    {
      world, done, stepIndex, auditTrace, previousEef := w, false, 0, [], w.start.eef;
      critic, evaluated, played := None, [], [];
    }

    method Reset()
      modifies this
      ensures State() == Fresh(world)
      ensures !done && stepIndex == 0 && auditTrace == [] && played == [] && critic.None? && evaluated == []
      ensures previousEef == world.start.eef
    {
      done, critic, evaluated, stepIndex, auditTrace := false, None, [], 0, [];
      previousEef, played := world.start.eef, [];
    }

    method StepEnv(a: Action) returns (reply: Option<Reply>, error: Option<EnvError>)
      modifies this`done, this`stepIndex, this`played
      ensures Stepped(State(), reply, error) == Step(world, old(State()), a)
    {
      if done {
        return None, Some(EpisodeDone);
      }
      played := played + [a];
      var r := world.step(played);
      if r.Failed? {
        return None, Some(WorkerFailed);
      }
      if r.terminated || r.truncated {
        done := true;
      }
      stepIndex := stepIndex + 1;
      return Some(r), None;
    }

    method StepInChunk(mode: Mode, a: Action) returns (reply: Option<Reply>, error: Option<EnvError>)
      requires mode.Critic? ==> critic.Some?
      modifies this
      ensures Stepped(State(), reply, error) == ChunkStepOnce(world, old(State()), mode, a)
      ensures reply.Some? ==> auditTrace != []
    {
      hide Step;
      reply, error := StepEnv(a);
      if error.Some? {
        return;
      }
      var features := world.features(played, previousEef);
      var said: seq<string> := [];
      if mode.Critic? {
        evaluated := evaluated + [features];
        said := world.critic(critic.value, evaluated);
      }
      auditTrace := auditTrace + [Row(stepIndex, a, features, reply.value.reward, reply.value.terminated,
                                      reply.value.truncated, said)];
      previousEef := reply.value.obs.eef;
    }

    method RunChunk(mode: Mode, actions: seq<Action>) returns (r: Run)
      requires mode.Critic? ==> critic.Some?
      modifies this
      ensures r == Play(world, old(State()), mode, actions) && State() == r.facade
    {
      hide ChunkStepOnce, Prepend;
      ghost var start := State();
      var replies: seq<Reply>, proposals: seq<string> := [], [];
      ghost var all := Play(world, start, mode, actions);
      PrependDone(all.replies, all.proposals, all.facade, all.error);
      assert actions[0..] == actions;
      var i := 0;
      while i < |actions|
        invariant 0 <= i <= |actions| && (mode.Critic? ==> critic.Some?)
        invariant Play(world, start, mode, actions)
                  == Prepend(replies, proposals, Play(world, State(), mode, actions[i..]))
      {
        assert actions[i..][0] == actions[i] && actions[i..][1..] == actions[i + 1..];
        var reply, error := StepInChunk(mode, actions[i]);
        if error.Some? {
          PrependDone(replies, proposals, State(), error);
          return Run(State(), replies, proposals, error);
        }
        var said := auditTrace[|auditTrace| - 1].proposals;
        ghost var rest := if Stops(State(), mode) then Run(State(), [], [], None)
                          else Play(world, State(), mode, actions[i + 1..]);
        PrependMore(replies, proposals, reply.value, said, rest);
        replies, proposals := replies + [reply.value], proposals + said;
        if done || (mode.Critic? && mode.interrupt && said != []) {
          PrependDone(replies, proposals, State(), None);
          return Run(State(), replies, proposals, None);
        }
        i := i + 1;
      }
      PrependDone(replies, proposals, State(), None);
      return Run(State(), replies, proposals, None);
    }

    method PlainChunk(actions: seq<Action>) returns (r: Run)
      modifies this
      ensures r == ChunkStep(world, old(State()), actions) && State() == r.facade
    {
      if done {
        return Run(State(), [], [], Some(EpisodeDone));
      }
      if actions == [] {
        return Run(State(), [], [], Some(NoAction));
      }
      r := RunChunk(Plain, actions);
    }

    method CriticChunk(actions: seq<Action>, rules: string, interrupt: bool) returns (r: Run)
      modifies this
      ensures r == CriticChunkStep(world, old(State()), actions, rules, interrupt) && State() == r.facade
    {
      if critic.None? {
        critic, evaluated := Some(rules), [];
      } else if critic.value != rules {
        return Run(State(), [], [], Some(RulesChanged));
      }
      if actions == [] {
        return Run(State(), [], [], Some(NoAction));
      }
      r := RunChunk(Critic(interrupt), actions);
    }
  }

  class AuditLedger {
    var lastStep: nat
    var actions: seq<ActionRow>
    var states: seq<Row>

    function State(): Ledger
      reads this
    {
      Ledger(lastStep, actions, states)
    }

    constructor ()
      ensures State() == Ledger(0, [], [])
    {
      lastStep, actions, states := 0, [], [];
    }

    /** Append everything the server traced since the last flush. */
    method FlushFrom(rows: seq<Row>)
      modifies this
      ensures lastStep == LargestStep(rows, old(lastStep))
      ensures actions == old(actions) + ActionRows(rows) && states == old(states) + rows
    {
      var actionRows: seq<ActionRow>, stateRows: seq<Row> := [], [];
      for i := 0 to |rows|
        invariant actionRows == ActionRows(rows[..i]) && stateRows == rows[..i]
        invariant LargestStep(rows[i..], lastStep) == LargestStep(rows, old(lastStep))
        invariant actions == old(actions) && states == old(states)
      {
        assert rows[i..][0] == rows[i] && rows[i..][1..] == rows[i + 1..];
        actionRows := actionRows + [ActionRow(rows[i].stepIndex, rows[i].action)];
        stateRows := stateRows + [rows[i]];
        if rows[i].stepIndex > lastStep {
          lastStep := rows[i].stepIndex;
        }
        assert rows[..i + 1] == rows[..i] + [rows[i]];
      }
      assert rows[..|rows|] == rows;
      actions, states := actions + actionRows, states + stateRows;
    }

    method FlushAuditTrace(env: LiberoEnvFacade)
      modifies this
      ensures State() == Flushed(old(State()), env.auditTrace)
    {
      FlushFrom(AuditTrace(env.State(), lastStep));
    }
  }

  class LiberoEnvClient {
    const server: LiberoEnvFacade
    var terminated: bool
    var truncated: bool
    var steps: nat

    function State(): Client
      reads this
    {
      Client(terminated, truncated, steps)
    }

    constructor (s: LiberoEnvFacade)
      modifies s
      ensures server == s && s.State() == Fresh(s.world) && State() == Client(false, false, 0)
    {
      server, terminated, truncated, steps := s, false, false, 0;
      new;
      s.Reset();
    }

    /** One chunk call; the counters move only when the call returned. */
    method Chunk(actions: seq<Action>, rules: Option<string>, interrupt: bool) returns (error: Option<EnvError>)
      modifies this, server
      ensures old(State()).Over() ==>
        error == Some(EpisodeDone) && State() == old(State()) && server.State() == old(server.State())
      ensures !old(State()).Over() ==>
        var op := if rules.None? then OpChunk(actions) else OpCritic(actions, rules.value, interrupt);
        var r := RunOp(server.world, old(server.State()), op);
        && error == r.error && server.State() == r.facade
        && State() == (if r.error.None? then Observe(old(State()), r.replies) else old(State()))
    {
      hide Play;
      if terminated || truncated {
        return Some(EpisodeDone);
      }
      var r: Run;
      if rules.None? {
        r := server.PlainChunk(actions);
      } else {
        r := server.CriticChunk(actions, rules.value, interrupt);
      }
      if r.error.Some? {
        return r.error;
      }
      terminated := terminated || Any(r.replies, false);
      truncated := truncated || Any(r.replies, true);
      steps := steps + |r.replies|;
      return None;
    }
  }
}
