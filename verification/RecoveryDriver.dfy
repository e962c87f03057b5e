/**
 * Driving one frozen recovery to its end under Role1: the LIBERO recovery
 * actor for one step, and the loop that calls it until the recovery is
 * finished, the episode is over, or the method has failed.
 */
module RecoveryDriver {
  import opened Wrappers
  import opened RecoveryControl

  // ---- Tool names --------------------------------------------------------

  const NAMESPACE := "libero."

  /** The frozen tool catalogue and Python's `strip`. */
  datatype Names = Names(strip: string -> string, known: set<string>)
  {
    ghost predicate Lawful()
    {
      && (forall s {:trigger strip(strip(s))} :: strip(strip(s)) == strip(s))
      && forall n | n in known :: strip(n) == n && strip(NAMESPACE + n) == NAMESPACE + n
    }

    function Role1Name(name: string): Option<string>
    {
      var short := strip(name);
      if short in known then Some(NAMESPACE + short) else None
    }

    function ShortName(name: string): Option<string>
    {
      var value := strip(name);
      if !(NAMESPACE <= value) then None
      else if value[|NAMESPACE|..] in known then Some(value[|NAMESPACE|..])
      else None
    }
  }

  /** The two name mappings are inverse, up to surrounding blanks. */
  lemma NamesAreInverse(n: Names, name: string)
    requires n.Lawful()
    ensures n.Role1Name(name).Some? ==> n.ShortName(n.Role1Name(name).value) == Some(n.strip(name))
    ensures n.ShortName(name).Some? ==> n.Role1Name(n.ShortName(name).value) == Some(n.strip(name))
  {
    if n.Role1Name(name).Some? {
      assert (NAMESPACE + n.strip(name))[|NAMESPACE|..] == n.strip(name);
    }
    if n.ShortName(name).Some? {
      assert n.strip(name) == NAMESPACE + n.ShortName(name).value;
    }
  }

  // ---- One recovery step -------------------------------------------------

  datatype Env = Env(steps: nat, terminated: bool, truncated: bool, proposals: seq<string>)
  {
    predicate Over() { terminated || truncated }
  }

  datatype Review =
    | Effect(approvedTermination: bool, direct: bool, selected: Option<string>,
             modified: bool, replacement: Option<map<string, string>>)
    | ContractFault
    | ModelCrash

  datatype HandlerReply =
    | Ran(advance: nat, terminated: bool, truncated: bool, proposals: seq<string>, noOp: bool, advanced: Option<bool>)
    | HandlerRaised(advance: nat)

  /** Model and primitives, arbitrary at every call; the model is given the critic's rows and the frozen step. */
  datatype World = World(
    names: Names,
    allowed: set<string>,
    handlers: set<string>,
    review: (nat, seq<string>, RecoveryStep) -> Review,
    run: (nat, Env, string, map<string, string>) -> HandlerReply)

  /** Episode flags change only when the environment steps. */
  ghost predicate HonestFlags(w: World)
  {
    forall k, env, tool, parameters ::
      var r := w.run(k, env, tool, parameters);
      r.Ran? && r.advance == 0 ==> r.terminated == env.terminated && r.truncated == env.truncated
  }

  /** One call of a primitive. */
  datatype PrimitiveCall = PrimitiveCall(tool: string, parameters: map<string, string>)

  /** What one actor call came to, the environment after it, and the primitive it ran, if any. */
  datatype Reviewed =
    | Executed(tool: string, horizon: nat, noOp: bool, env: Env, ran: Option<PrimitiveCall>)
    | Fault(env: Env, ran: Option<PrimitiveCall>)
    | Crash(env: Env, ran: Option<PrimitiveCall>)

  function DecideAndExecute(w: World, call: nat, critics: seq<string>, env: Env, step: RecoveryStep): Reviewed
  {
    var required := w.names.strip(step.tool);
    if required !in w.allowed then Fault(env, None)
    else
      var role1Name := w.names.Role1Name(required);
      if role1Name.None? then Crash(env, None)
      else
        match w.review(call, critics, step)
        case ModelCrash => Crash(env, None)
        case ContractFault => Fault(env, None)
        case Effect(approved, direct, selected, modified, replacement) =>
          if approved || direct then Fault(env, None)
          else if selected.Some? && selected.value != role1Name.value then Fault(env, None)
          else
            var short := w.names.ShortName(role1Name.value);
            if short.None? then Crash(env, None)
            else if short.value !in w.handlers then Fault(env, None)
            else if modified && replacement.None? then Fault(env, None)
            else
              RunHandler(w, call, env.(proposals := []), short.value,
                         if modified then step.parameters + replacement.value else step.parameters)
  }

  function RunHandler(w: World, call: nat, env: Env, tool: string, parameters: map<string, string>): Reviewed
  {
    var ran := Some(PrimitiveCall(tool, parameters));
    match w.run(call, env, tool, parameters)
    case HandlerRaised(advance) => Crash(env.(steps := env.steps + advance), ran)
    case Ran(advance, terminated, truncated, proposals, noOp, advanced) =>
      var after := Env(env.steps + advance, terminated, truncated, proposals);
      var moved := if advanced.Some? then advanced.value else advance > 0;
      if advance < 1 && !terminated && !(noOp && !moved) then Fault(after, ran) else Executed(tool, advance, noOp, after, ran)
  }

  // ---- What one actor call may do ----------------------------------------

  /** One actor call: what it was given, and what it came to. */
  datatype ActorCall = ActorCall(call: nat, critics: seq<string>, before: Env, step: RecoveryStep, reviewed: Reviewed)

  /** The model approved running the frozen step: no termination, no command, no other tool, and parameters if it modified. */
  predicate Approves(review: Review, tool: string)
  {
    && review.Effect? && !review.approvedTermination && !review.direct
    && (review.selected.Some? ==> review.selected.value == NAMESPACE + tool)
    && (review.modified ==> review.replacement.Some?)
  }

  /** The frozen parameters, unchanged but for those a modification replaces, and what it adds. */
  predicate Effective(step: RecoveryStep, review: Review, parameters: map<string, string>)
    requires review.Effect? && (review.modified ==> review.replacement.Some?)
  {
    && parameters.Keys == step.parameters.Keys + (if review.modified then review.replacement.value.Keys else {})
    && (forall k | k in parameters ::
          parameters[k] == if review.modified && k in review.replacement.value then review.replacement.value[k]
                           else step.parameters[k])
  }

  /** The environment the reply of the primitive leaves, and whether the call counts as executed. */
  predicate Follows(before: Env, reply: HandlerReply, tool: string, r: Reviewed)
  {
    match reply
    case HandlerRaised(advance) => r.Crash? && r.env == Env(before.steps + advance, before.terminated, before.truncated, [])
    case Ran(advance, terminated, truncated, proposals, noOp, advanced) =>
      && r.env == Env(before.steps + advance, terminated, truncated, proposals)
      && var still := noOp && (if advanced.Some? then !advanced.value else advance == 0);
         if advance >= 1 || terminated || still
         then r.Executed? && r.tool == tool && r.horizon == advance && r.noOp == noOp else r.Fault?
  }

  /**
   * The primitive of the frozen step runs exactly when the step's tool is
   * allowed and exists and the model approved, with the effective parameters
   * and the critic's proposals acknowledged; otherwise nothing happens.
   */
  ghost predicate Faithful(w: World, x: ActorCall)
  {
    var tool, review := w.names.strip(x.step.tool), w.review(x.call, x.critics, x.step);
    && (x.reviewed.ran.Some? <==>
          tool in w.allowed && tool in w.names.known && tool in w.handlers && Approves(review, tool))
    && (x.reviewed.ran.None? ==> !x.reviewed.Executed? && x.reviewed.env == x.before)
    && (x.reviewed.ran.Some? ==>
          && x.reviewed.ran.value.tool == tool && Effective(x.step, review, x.reviewed.ran.value.parameters)
          && Follows(x.before, w.run(x.call, x.before.(proposals := []), tool, x.reviewed.ran.value.parameters), tool, x.reviewed))
    && (x.reviewed.Crash? && x.reviewed.ran.None? ==> tool in w.allowed && (tool !in w.names.known || review.ModelCrash?))
  }

  lemma StepIsFaithful(w: World, call: nat, critics: seq<string>, env: Env, step: RecoveryStep)
    requires w.names.Lawful()
    ensures Faithful(w, ActorCall(call, critics, env, step, DecideAndExecute(w, call, critics, env, step)))
  {
    hide Follows;
    var tool := w.names.strip(step.tool);
    NamesAreInverse(w.names, tool);
    var r := DecideAndExecute(w, call, critics, env, step);
    if r.ran.Some? {
      RunFollows(w, call, env, tool, r.ran.value.parameters);
    }
  }

  lemma RunFollows(w: World, call: nat, env: Env, tool: string, parameters: map<string, string>)
    ensures Follows(env, w.run(call, env.(proposals := []), tool, parameters), tool,
                    RunHandler(w, call, env.(proposals := []), tool, parameters))
  {
  }

  /** A contract fault never moves the environment, whatever the model and the primitives do. */
  lemma FaultsDoNotStep(w: World, call: nat, critics: seq<string>, env: Env, step: RecoveryStep)
    ensures var r := DecideAndExecute(w, call, critics, env, step);
      && r.env.steps >= env.steps
      && (r.Fault? ==> r.env.steps == env.steps)
      && (r.Fault? && HonestFlags(w) ==> r.env.terminated == env.terminated && r.env.truncated == env.truncated)
  {
  }

  /** What an executed step reports: the frozen tool, stripped, and an action or a verified no-op. */
  lemma ExecutedStep(w: World, call: nat, critics: seq<string>, env: Env, step: RecoveryStep)
    requires w.names.Lawful() && DecideAndExecute(w, call, critics, env, step).Executed?
    ensures var r := DecideAndExecute(w, call, critics, env, step);
      && r.tool == w.names.strip(step.tool)
      && r.env.steps == env.steps + r.horizon
      && (HonestFlags(w) && !env.terminated ==> r.horizon >= 1 || r.noOp)
  {
    NamesAreInverse(w.names, w.names.strip(step.tool));
  }

  /** The controller's guard on an executed step trips exactly when the frozen tool name carries blanks. */
  lemma GuardTripsIff(w: World, call: nat, critics: seq<string>, env: Env, c: Controller, step: int)
    requires w.names.Lawful() && HonestFlags(w) && Inv(c) && c.IsActive() && !env.terminated
    requires DecideAndExecute(w, call, critics, env, c.rule.value.steps.value[c.state.value.currentStep]).Executed?
    ensures var frozen := c.rule.value.steps.value[c.state.value.currentStep];
      var r := DecideAndExecute(w, call, critics, env, frozen);
      CompleteStep(c, Some(r.tool), step, r.horizon, r.noOp).error.Some? <==> w.names.strip(frozen.tool) != frozen.tool
  {
    hide Replay, Progress, DecideAndExecute;
    ExecutedStep(w, call, critics, env, c.rule.value.steps.value[c.state.value.currentStep]);
  }

  function PaddedNames(): Names
  {
    Names(s => if s == "open " then "open" else s, {"open"})
  }

  function PaddedWorld(): World
  {
    World(PaddedNames(), {"open"}, {"open"}, (call: nat, critics: seq<string>, step: RecoveryStep) => Effect(false, false, None, false, None),
          (call: nat, env: Env, tool: string, parameters: map<string, string>) =>
            Ran(1, env.terminated, env.truncated, [], false, None))
  }

  function PaddedController(): Controller
  {
    var rule := RecoveryRule("padded", {"slip"}, Some([RecoveryStep("open ", map[])]));
    Activation(Fresh("bundle"), ["slip"], [rule], 0, "run").controller
  }

  /** A concrete step that is really executed, with a blank behind its frozen tool name, and then refused by the guard. */
  lemma PaddedToolTripsGuard()
    ensures var w, c, env := PaddedWorld(), PaddedController(), Env(0, false, false, []);
      && w.names.Lawful() && HonestFlags(w) && Inv(c) && c.IsActive()
      && var r := DecideAndExecute(w, 0, ["slip"], env, c.rule.value.steps.value[c.state.value.currentStep]);
         r.Executed? && r.env.steps == 1 && CompleteStep(c, Some(r.tool), 1, r.horizon, r.noOp).error == Some(WrongTool)
  {
    hide DecideAndExecute, PaddedController;
    PaddedIsActive();
    PaddedIsExecuted(RecoveryStep("open ", map[]));
  }

  lemma PaddedIsActive()
    ensures var c := PaddedController();
      Inv(c) && c.IsActive() && c.rule.value.steps == Some([RecoveryStep("open ", map[])]) && c.state.value.currentStep == 0
  {
    var rule := RecoveryRule("padded", {"slip"}, Some([RecoveryStep("open ", map[])]));
    hide Inv;
    assert Inv(Fresh("bundle")) by { FreshInv("bundle"); }
    ActivateKeepsInv(Fresh("bundle"), ["slip"], [rule], 0, "run");
    assert Triggers(["slip"]) == {"slip"};
    assert Matching([rule], {"slip"}) == [rule];
  }

  lemma PaddedIsExecuted(step: RecoveryStep)
    requires step == RecoveryStep("open ", map[])
    ensures var w, env := PaddedWorld(), Env(0, false, false, []);
      && w.names.Lawful() && HonestFlags(w)
      && DecideAndExecute(w, 0, ["slip"], env, step) == Executed("open", 1, false, Env(1, false, false, []), Some(PrimitiveCall("open", map[])))
  {
    var n := PaddedNames();
    assert |NAMESPACE + "open"| == 11;
    assert n.Lawful();
    assert n.Role1Name("open") == Some(NAMESPACE + "open");
    NamesAreInverse(n, "open");
  }

  // ---- The loop ----------------------------------------------------------

  datatype Row =
    | UnmatchedProposal
    | CallLimit
    | ContractFailure
    | StepRow(tool: string, horizon: nat, interrupted: bool)

  datatype DriverError = ActivationFailed(error: RecoveryError) | ActorCrashed | GuardTripped(error: RecoveryError)

  const MAXIMUM_CONTRACT_RETRIES: nat := 3

  /** The steps the rows report as finished, in order. */
  function Finished(rows: seq<Row>): seq<(string, int)>
  {
    if rows == [] then []
    else
      var last := rows[|rows| - 1];
      Finished(rows[..|rows| - 1])
      + (if last.StepRow? && !last.interrupted then [(last.tool, last.horizon as int)] else [])
  }

  /** The steps the audit log advances, in order. */
  function Advances(log: seq<AuditEvent>): seq<(string, int)>
  {
    if log == [] then []
    else
      var last := log[|log| - 1];
      Advances(log[..|log| - 1]) + (if last.Advanced? then [(last.tool, last.horizon)] else [])
  }

  lemma FinishedAppend(rows: seq<Row>, row: Row)
    ensures Finished(rows + [row])
            == Finished(rows) + (if row.StepRow? && !row.interrupted then [(row.tool, row.horizon as int)] else [])
  {
    assert (rows + [row])[..|rows|] == rows;
  }

  lemma AdvancesAppend(log: seq<AuditEvent>, event: AuditEvent)
    ensures Advances(log + [event])
            == Advances(log) + (if event.Advanced? then [(event.tool, event.horizon)] else [])
  {
    assert (log + [event])[..|log|] == log;
  }

  predicate Stripped(n: Names, rule: RecoveryRule)
  {
    rule.steps.Some? ==> forall s <- rule.steps.value :: n.strip(s.tool) == s.tool
  }

  /** The steps logged since `oldLog` are the steps finished since `oldRows`, in order. */
  ghost predicate Balanced(oldLog: seq<AuditEvent>, log: seq<AuditEvent>, oldRows: seq<Row>, rows: seq<Row>)
  {
    && Advances(oldLog) <= Advances(log) && Finished(oldRows) <= Finished(rows)
    && Advances(log)[|Advances(oldLog)|..] == Finished(rows)[|Finished(oldRows)|..]
  }

  lemma BalancedSame(oldLog: seq<AuditEvent>, log: seq<AuditEvent>, rows: seq<Row>)
    requires Advances(log) == Advances(oldLog)
    ensures Balanced(oldLog, log, rows, rows)
  {
  }

  lemma BalancedRow(oldLog: seq<AuditEvent>, log: seq<AuditEvent>, oldRows: seq<Row>, rows: seq<Row>, row: Row)
    requires Balanced(oldLog, log, oldRows, rows) && (row.StepRow? ==> row.interrupted)
    ensures Balanced(oldLog, log, oldRows, rows + [row])
  {
    FinishedAppend(rows, row);
    assert Finished(rows) + [] == Finished(rows);
  }

  lemma BalancedStep(oldLog: seq<AuditEvent>, log: seq<AuditEvent>, newLog: seq<AuditEvent>, oldRows: seq<Row>,
                     rows: seq<Row>, row: Row)
    requires Balanced(oldLog, log, oldRows, rows) && row.StepRow? && !row.interrupted
    requires |newLog| == |log| + 1 && newLog[..|log|] == log
    requires newLog[|log|].Advanced? && newLog[|log|].tool == row.tool && newLog[|log|].horizon == row.horizon
    ensures Balanced(oldLog, newLog, oldRows, rows + [row])
  {
    FinishedAppend(rows, row);
    AdvancesAppend(log, newLog[|log|]);
    assert newLog == log + [newLog[|log|]];
    hide Finished, Advances;
    SuffixAppend(Advances(oldLog), Advances(log), (row.tool, row.horizon as int));
    SuffixAppend(Finished(oldRows), Finished(rows), (row.tool, row.horizon as int));
  }

  lemma SuffixAppend<T>(a: seq<T>, b: seq<T>, x: T)
    requires a <= b
    ensures a <= b + [x] && (b + [x])[|a|..] == b[|a|..] + [x]
  {
  }

  lemma CompletionAppends(c: Controller, tool: Option<string>, step: int, horizon: int, noOp: bool)
    requires InRange(c) && CompleteStep(c, tool, step, horizon, noOp).error.None?
    ensures var log := CompleteStep(c, tool, step, horizon, noOp).controller.log;
      && |log| == |c.log| + 1 && log[..|c.log|] == c.log
      && log[|c.log|].Advanced? && Some(log[|c.log|].tool) == tool && log[|c.log|].horizon == horizon
  {
  }

  lemma ActivationKeepsStripped(n: Names, c: Controller, proposals: seq<string>, rules: seq<RecoveryRule>, step: int, id: string)
    requires (forall rule <- rules :: Stripped(n, rule)) && (c.rule.Some? ==> Stripped(n, c.rule.value))
    ensures var d := Activation(c, proposals, rules, step, id).controller; d.rule.Some? ==> Stripped(n, d.rule.value)
  {
  }

  lemma ActivationAppends(c: Controller, proposals: seq<string>, rules: seq<RecoveryRule>, step: int, id: string)
    ensures Advances(Activation(c, proposals, rules, step, id).controller.log) == Advances(c.log)
  {
    var d := Activation(c, proposals, rules, step, id).controller;
    if d != c {
      AdvancesAppend(c.log, d.log[|c.log|]);
    }
  }

  lemma CompletionKeepsRule(c: Controller, tool: Option<string>, step: int, horizon: int, noOp: bool)
    requires InRange(c)
    ensures var d := CompleteStep(c, tool, step, horizon, noOp).controller;
      (d.rule.Some? ==> d.rule == c.rule) && (c.state.Some? ==> d.state.Some?)
  {
  }

  // ---- What a whole recovery does ----------------------------------------

  function EnvAfter(start: Env, trace: seq<ActorCall>): Env
  {
    if trace == [] then start else trace[|trace| - 1].reviewed.env
  }

  /** The proposals the model is shown: those that started the recovery, until a step raises new ones. */
  function CriticsAfter(proposals: seq<string>, trace: seq<ActorCall>): seq<string>
  {
    if trace == [] then proposals
    else
      var last := trace[|trace| - 1].reviewed;
      if last.Executed? && last.env.proposals != [] then last.env.proposals
      else CriticsAfter(proposals, trace[..|trace| - 1])
  }

  /** An executed step that no new proposal interrupted. */
  predicate Finishes(x: ActorCall)
  {
    x.reviewed.Executed? && x.reviewed.env.proposals == []
  }

  function Done(trace: seq<ActorCall>): nat
  {
    if trace == [] then 0 else Done(trace[..|trace| - 1]) + (if Finishes(trace[|trace| - 1]) then 1 else 0)
  }

  /** The decisions that were executed, interrupted or not. */
  function Executions(trace: seq<ActorCall>): nat
  {
    if trace == [] then 0 else Executions(trace[..|trace| - 1]) + (if trace[|trace| - 1].reviewed.Executed? then 1 else 0)
  }

  /** The contract faults in a row at the end. */
  function TrailingFaults(trace: seq<ActorCall>): nat
  {
    if trace != [] && trace[|trace| - 1].reviewed.Fault? then TrailingFaults(trace[..|trace| - 1]) + 1 else 0
  }

  /** What is reported of an actor call. */
  function Reported(trace: seq<ActorCall>): seq<Row>
  {
    if trace == [] then []
    else
      var last := trace[|trace| - 1].reviewed;
      Reported(trace[..|trace| - 1])
      + (if last.Executed? then [StepRow(last.tool, last.horizon, last.env.proposals != [])]
         else if last.Fault? then [ContractFailure] else [])
  }

  lemma TraceSnoc(proposals: seq<string>, trace: seq<ActorCall>, x: ActorCall)
    ensures var more := trace + [x]; var last := x.reviewed;
      && Done(more) == Done(trace) + (if Finishes(x) then 1 else 0)
      && Executions(more) == Executions(trace) + (if last.Executed? then 1 else 0)
      && TrailingFaults(more) == (if last.Fault? then TrailingFaults(trace) + 1 else 0)
      && Reported(more) == Reported(trace)
                           + (if last.Executed? then [StepRow(last.tool, last.horizon, last.env.proposals != [])]
                              else if last.Fault? then [ContractFailure] else [])
      && CriticsAfter(proposals, more) == (if last.Executed? && last.env.proposals != [] then last.env.proposals
                                           else CriticsAfter(proposals, trace))
      && more[..|trace|] == trace
  {
    assert (trace + [x])[..|trace|] == trace;
  }

  /**
   * The actor calls of one recovery: numbered, each starting where the one
   * before ended and faithful to the frozen step in turn, which is the one
   * after those finished so far.
   */
  ghost predicate Told(w: World, begun: Controller, start: Env, proposals: seq<string>, trace: seq<ActorCall>)
  {
    && (trace != [] ==> begun.IsActive() && begun.rule.Some? && begun.rule.value.steps.Some?)
    && forall k: nat | k < |trace| ::
         var x := trace[k];
         && x.call == k + 1 && x.before == EnvAfter(start, trace[..k]) && x.critics == CriticsAfter(proposals, trace[..k])
         && begun.state.value.currentStep + Done(trace[..k]) < |begun.rule.value.steps.value|
         && x.step == begun.rule.value.steps.value[begun.state.value.currentStep + Done(trace[..k])]
         && Faithful(w, x) && TrailingFaults(trace[..k]) < MAXIMUM_CONTRACT_RETRIES && !x.before.Over()
  }

  lemma ToldSnoc(w: World, begun: Controller, start: Env, proposals: seq<string>, trace: seq<ActorCall>, x: ActorCall)
    requires Told(w, begun, start, proposals, trace) && begun.IsActive() && begun.rule.Some? && begun.rule.value.steps.Some?
    requires x.call == |trace| + 1 && x.before == EnvAfter(start, trace) && x.critics == CriticsAfter(proposals, trace)
    requires begun.state.value.currentStep + Done(trace) < |begun.rule.value.steps.value|
    requires x.step == begun.rule.value.steps.value[begun.state.value.currentStep + Done(trace)]
    requires Faithful(w, x) && TrailingFaults(trace) < MAXIMUM_CONTRACT_RETRIES && !x.before.Over()
    ensures Told(w, begun, start, proposals, trace + [x])
  {
    hide Faithful, Done, TrailingFaults, CriticsAfter, EnvAfter;
    var more := trace + [x];
    forall k: nat | k < |trace| ensures more[..k] == trace[..k] { }
    assert more[..|trace|] == trace;
  }

  /** The controller after the recovery began and some of its steps were finished. */
  ghost predicate Reached(begun: Controller, c: Controller, trace: seq<ActorCall>)
  {
    && begun.IsActive() && begun.rule.Some? && begun.rule.value.steps.Some? && c.state.Some?
    && var steps, from := |begun.rule.value.steps.value|, begun.state.value.currentStep;
       && from + Done(trace) <= steps
       && c.state.value.completedInvocations == begun.state.value.completedInvocations + Done(trace)
       && (c.IsActive() <==> from + Done(trace) < steps)
       && (c.IsActive() ==> c.rule == begun.rule && c.state.value.currentStep == from + Done(trace))
  }

  lemma ReachedStart(c: Controller)
    requires Inv(c) && c.IsActive()
    ensures Reached(c, c, [])
  {
    hide Replay, Progress, Tools;
  }

  lemma ReachedStays(begun: Controller, c: Controller, trace: seq<ActorCall>, x: ActorCall)
    requires Reached(begun, c, trace) && !Finishes(x)
    ensures Reached(begun, c, trace + [x])
  {
    TraceSnoc([], trace, x);
  }

  lemma ReachedNext(begun: Controller, c: Controller, trace: seq<ActorCall>, x: ActorCall, d: Controller, tool: Option<string>,
                    step: int, horizon: int, noOp: bool)
    requires Reached(begun, c, trace) && Finishes(x) && InRange(c) && c.IsActive()
    requires Completes(c, tool, step, horizon, noOp, d, Ok(true))
    ensures Reached(begun, d, trace + [x])
  {
    TraceSnoc([], trace, x);
  }

  lemma GuardNeedsBlanks(w: World, call: nat, critics: seq<string>, env: Env, c: Controller, step: int)
    requires w.names.Lawful() && Inv(c) && c.IsActive() && !env.terminated
    requires DecideAndExecute(w, call, critics, env, c.rule.value.steps.value[c.state.value.currentStep]).Executed?
    ensures var r := DecideAndExecute(w, call, critics, env, c.rule.value.steps.value[c.state.value.currentStep]);
      HonestFlags(w) && Stripped(w.names, c.rule.value)
      ==> CompleteStep(c, Some(r.tool), step, r.horizon, r.noOp).error.None?
  {
    hide Replay, Progress, DecideAndExecute;
    ExecutedStep(w, call, critics, env, c.rule.value.steps.value[c.state.value.currentStep]);
  }

  class Driver {
    const world: World
    const controller: RecoveryController
    const rules: seq<RecoveryRule>
    const maximumActorCalls: nat
    var env: Env
    var methodFailure: bool
    var decisions: nat
    var rows: seq<Row>

    ghost predicate Valid()
      reads this, controller
    {
      controller.Valid() && world.names.Lawful()
    }

    ghost predicate AllStripped()
      reads this, controller
    {
      && (forall rule <- rules :: Stripped(world.names, rule))
      && (controller.rule.Some? ==> Stripped(world.names, controller.rule.value))
    }

    constructor (w: World, c: RecoveryController, frozen: seq<RecoveryRule>, limit: nat, start: Env)
      requires c.Valid() && w.names.Lawful()
      ensures Valid() && world == w && controller == c && rules == frozen && maximumActorCalls == limit
      ensures env == start && !methodFailure && decisions == 0 && rows == []
    {
      world, controller, rules, maximumActorCalls := w, c, frozen, limit;
      env, methodFailure, decisions, rows := start, false, 0, [];
    }

    method Begin(proposals: seq<string>, executionId: string) returns (r: Result<bool, DriverError>)
      requires Valid()
      modifies controller
      ensures exists started ::
        && Activates(old(controller.View()), proposals, rules, env.steps, executionId, controller.View(), started)
        && (if started.Err? then r == Err(ActivationFailed(started.error)) else r == Ok(controller.View().IsActive()))
      ensures Valid() && (old(AllStripped()) ==> AllStripped())
      ensures Advances(controller.log) == Advances(old(controller.log))
      ensures r.Ok? ==> r.value == controller.View().IsActive()
      ensures r.Err? ==> r.error.ActivationFailed?
    {
      hide Inv, Matching, Triggers, Activates;
      ghost var before := controller.View();
      var activated := controller.Activate(proposals, rules, env.steps, executionId);
      ActivationAppends(before, proposals, rules, env.steps, executionId);
      if old(AllStripped()) {
        ActivationKeepsStripped(world.names, before, proposals, rules, env.steps, executionId);
      }
      if activated.Err? {
        return Err(ActivationFailed(activated.error));
      }
      return Ok(controller.state.Some? && controller.state.value.status == Active);
    }

    /** An executed step: report it, and complete it unless a new critic proposal interrupted it. */
    method Acknowledge(reviewed: Reviewed, call: nat, ghost critics: seq<string>, ghost before: Env,
                       ghost oldLog: seq<AuditEvent>, ghost oldRows: seq<Row>, ghost begun: Controller,
                       ghost trace: seq<ActorCall>)
      returns (r: Result<(), DriverError>)
      requires Valid() && controller.View().IsActive() && reviewed.Executed? && env == reviewed.env && !before.terminated
      requires Reached(begun, controller.View(), trace)
      requires reviewed == DecideAndExecute(world, call, critics, before, controller.rule.value.steps.value[controller.state.value.currentStep])
      requires Balanced(oldLog, controller.log, oldRows, rows)
      modifies this`decisions, this`rows, controller
      ensures Valid() && controller.state.Some? && (old(AllStripped()) ==> AllStripped())
      ensures r.Ok? ==>
        && Balanced(oldLog, controller.log, oldRows, rows)
        && Reached(begun, controller.View(),
                   trace + [ActorCall(call, critics, before,
                                      old(controller.rule.value.steps.value[controller.state.value.currentStep]), reviewed)])
      ensures rows == old(rows) + [StepRow(reviewed.tool, reviewed.horizon, env.proposals != [])]
      ensures decisions == old(decisions) + 1
      ensures r.Err? ==> Finishes(ActorCall(call, critics, before,
                                  old(controller.rule.value.steps.value[controller.state.value.currentStep]), reviewed))
      ensures r.Err? ==> r.error.GuardTripped? && !(old(AllStripped()) && HonestFlags(world))
    {
      hide DecideAndExecute, Replay, Progress, Tools, Balanced, HonestFlags, Stripped, Names.Lawful, Advances, Finished,
        CompleteStep, Reached, Completes, InRange, Inv;
      InvInRange(controller.View());
      ghost var x := ActorCall(call, critics, before, controller.rule.value.steps.value[controller.state.value.currentStep],
                               reviewed);
      decisions := decisions + 1;
      var row := StepRow(reviewed.tool, reviewed.horizon, env.proposals != []);
      ghost var log, reported, c := controller.log, rows, controller.View();
      rows := rows + [row];
      if env.proposals != [] {
        BalancedRow(oldLog, log, oldRows, reported, row);
        ReachedStays(begun, c, trace, x);
        return Ok(());
      }
      var advanced := controller.CompleteCurrentStep(Some(reviewed.tool), env.steps, reviewed.horizon, reviewed.noOp);
      CompletionKeepsRule(c, Some(reviewed.tool), env.steps, reviewed.horizon, reviewed.noOp);
      GuardNeedsBlanks(world, call, critics, before, c, env.steps);
      if advanced.Err? {
        return Err(GuardTripped(advanced.error));
      }
      CompletionAppends(c, Some(reviewed.tool), env.steps, reviewed.horizon, reviewed.noOp);
      BalancedStep(oldLog, log, controller.log, oldRows, reported, row);
      ReachedNext(begun, c, trace, x, controller.View(), Some(reviewed.tool), env.steps, reviewed.horizon, reviewed.noOp);
      return Ok(());
    }

    /** A recovery that began as `begun`, after the actor calls of `trace`. */
    ghost predicate Underway(begun: Controller, start: Env, oldLog: seq<AuditEvent>, oldRows: seq<Row>,
                             decided: nat, proposals: seq<string>, trace: seq<ActorCall>)
      reads this, controller
    {
      && Valid() && begun.IsActive() && Told(world, begun, start, proposals, trace) && env == EnvAfter(start, trace)
      && Reached(begun, controller.View(), trace) && Balanced(oldLog, controller.log, oldRows, rows)
      && rows == oldRows + Reported(trace) && env.steps >= start.steps && decisions == decided + Executions(trace)
    }

    /** One actor call on the current frozen step, reported and followed up. */
    method TakeTurn(call: nat, current: seq<string>, ghost begun: Controller, ghost start: Env, ghost oldLog: seq<AuditEvent>,
                    ghost oldRows: seq<Row>, ghost decided: nat, ghost proposals: seq<string>, ghost trace: seq<ActorCall>)
      returns (turn: Turn, ghost next: seq<ActorCall>)
      requires Underway(begun, start, oldLog, oldRows, decided, proposals, trace)
      requires controller.View().IsActive() && !env.Over() && current == CriticsAfter(proposals, trace)
      requires call == |trace| + 1 && TrailingFaults(trace) < MAXIMUM_CONTRACT_RETRIES
      modifies this`env, this`decisions, this`rows, controller
      ensures |next| == |trace| + 1 && (old(AllStripped()) ==> AllStripped())
      ensures !turn.Tripped? ==> Underway(begun, start, oldLog, oldRows, decided, proposals, next)
      ensures turn.Crashed? ==> next[|trace|].reviewed.Crash?
      ensures turn.Faulted? ==>
        TrailingFaults(next) == TrailingFaults(trace) + 1 && CriticsAfter(proposals, next) == current
      ensures turn.Stepped? ==>
        && TrailingFaults(next) == 0
        && CriticsAfter(proposals, next) == if env.proposals != [] then env.proposals else current
      ensures turn.Tripped? ==>
        && Valid() && Told(world, begun, start, proposals, next) && env == EnvAfter(start, next)
        && rows == oldRows + Reported(next) && env.steps >= start.steps && TrailingFaults(next) == 0
        && decisions == decided + Executions(next)
        && turn.error.GuardTripped? && !(old(AllStripped()) && HonestFlags(world))
    {
      hide DecideAndExecute, Inv, Balanced, HonestFlags, Stripped, Names.Lawful, Advances, Finished, CompleteStep, InRange,
        RunHandler, Told, Reached, Faithful, Done, TrailingFaults, Reported, CriticsAfter, EnvAfter, Executions;
      NextIsFrozen(begun, controller.View(), trace);
      var context := controller.Context();
      var step := context.value.step;
      var reviewed := DecideAndExecute(world, call, current, env, step);
      FaultsDoNotStep(world, call, current, env, step);
      StepIsFaithful(world, call, current, env, step);
      ghost var before, x := env, ActorCall(call, current, env, step, reviewed);
      ToldSnoc(world, begun, start, proposals, trace, x);
      TraceSnoc(proposals, trace, x);
      EnvSnoc(start, trace, x);
      next := trace + [x];
      env := reviewed.env;
      if reviewed.Crash? {
        ReachedStays(begun, controller.View(), trace, x);
        assert Reported(trace) + [] == Reported(trace);
        return Crashed, next;
      }
      if reviewed.Fault? {
        BalancedRow(oldLog, controller.log, oldRows, rows, ContractFailure);
        ReachedStays(begun, controller.View(), trace, x);
        rows := rows + [ContractFailure];
        return Faulted, next;
      }
      var finished := Acknowledge(reviewed, call, current, before, oldLog, oldRows, begun, trace);
      return if finished.Err? then Tripped(finished.error) else Stepped, next;
    }

    /** Take turns until the recovery is done, the episode over, the calls used up, or three faults came in a row. */
    method TakeTurns(ghost begun: Controller, ghost start: Env, ghost oldLog: seq<AuditEvent>, ghost oldRows: seq<Row>,
                     ghost decided: nat, proposals: seq<string>)
      returns (r: Result<(), DriverError>, calls: nat, ghost trace: seq<ActorCall>)
      requires Underway(begun, start, oldLog, oldRows, decided, proposals, []) && controller.View() == begun
      modifies this`env, this`methodFailure, this`decisions, this`rows, controller
      ensures Valid() && |trace| == calls <= maximumActorCalls && env.steps >= start.steps
      ensures Told(world, begun, start, proposals, trace) && env == EnvAfter(start, trace)
      ensures (r.Err? && r.error.GuardTripped?) || Balanced(oldLog, controller.log, oldRows, rows)
      ensures r.Ok? || r.error.ActorCrashed? ==> Reached(begun, controller.View(), trace)
      ensures r.Ok? ==> !controller.View().IsActive() || env.Over() || methodFailure
      ensures r.Err? ==> trace != [] && (if r.error.ActorCrashed? then trace[|trace| - 1].reviewed.Crash? else r.error.GuardTripped?)
      ensures old(AllStripped()) && HonestFlags(world) ==> r.Ok? || !r.error.GuardTripped?
      ensures Rowed(oldRows, trace, false, rows, calls == maximumActorCalls) && decisions == decided + Executions(trace)
      ensures methodFailure ==>
        old(methodFailure) || calls == maximumActorCalls || TrailingFaults(trace) == MAXIMUM_CONTRACT_RETRIES
      ensures r.Ok? && TrailingFaults(trace) == MAXIMUM_CONTRACT_RETRIES ==> methodFailure
      ensures trace == [] ==> controller.View() == begun
    {
      hide Inv, Balanced, HonestFlags, Stripped, Names.Lawful, Advances, Finished, InRange, Told, Reached, Done, TrailingFaults,
        Reported, CriticsAfter, EnvAfter, Rowed, Executions;
      calls, trace := 0, [];
      var retries, current := 0, proposals;
      NoTurns(proposals);
      while controller.state.value.status == Active && !env.terminated && !env.truncated
        invariant Underway(begun, start, oldLog, oldRows, decided, proposals, trace) && controller.state.Some?
        invariant old(AllStripped()) ==> AllStripped()
        invariant |trace| == calls <= maximumActorCalls
        invariant retries == TrailingFaults(trace) < MAXIMUM_CONTRACT_RETRIES
        invariant current == CriticsAfter(proposals, trace) && methodFailure == old(methodFailure)
        invariant trace == [] ==> controller.View() == begun
        decreases maximumActorCalls - calls
      {
        if calls + 1 > maximumActorCalls {
          BalancedRow(oldLog, controller.log, oldRows, rows, CallLimit);
          AllRowed(oldRows, trace, rows);
          rows := rows + [CallLimit];
          methodFailure := true;
          return Ok(()), calls, trace;
        }
        calls := calls + 1;
        var turn;
        turn, trace := TakeTurn(calls, current, begun, start, oldLog, oldRows, decided, proposals, trace);
        AllRowed(oldRows, trace, rows);
        match turn {
          case Crashed => return Err(ActorCrashed), calls, trace;
          case Tripped(error) => return Err(error), calls, trace;
          case Faulted =>
            retries := retries + 1;
            if retries >= MAXIMUM_CONTRACT_RETRIES {
              methodFailure := true;
              return Ok(()), calls, trace;
            }
          case Stepped =>
            retries := 0;
            current := if env.proposals != [] then env.proposals else current;
        }
        ReachedState(begun, controller.View(), trace);
      }
      AllRowed(oldRows, trace, rows);
      return Ok(()), calls, trace;
    }

    /**
     * Run one recovery.  At most `maximumActorCalls` actor calls are made,
     * each faithful to the frozen step in turn; the audit log advances by
     * exactly the executed, uninterrupted steps; every call is reported; it
     * returns only with the recovery inactive, the episode over, or the method
     * failed; and with stripped tool names the controller's guards never trip.
     */
    method HandleRecovery(proposals: seq<string>, executionId: string)
      returns (r: Result<(), DriverError>, calls: nat, ghost begun: Controller, ghost trace: seq<ActorCall>)
      requires Valid()
      modifies this`env, this`methodFailure, this`decisions, this`rows, controller
      ensures Valid() && |trace| == calls <= maximumActorCalls && env.steps >= old(env.steps)
      ensures (r.Err? && r.error.GuardTripped?) || Balanced(old(controller.log), controller.log, old(rows), rows)
      ensures proposals == [] ==>
        r == Ok(()) && env == old(env) && controller.View() == old(controller.View()) && rows == old(rows)
      ensures proposals != [] ==>
        exists started :: Activates(old(controller.View()), proposals, rules, old(env.steps), executionId, begun, started)
                          && (started.Err? ==> r == Err(ActivationFailed(started.error)))
      ensures Told(world, begun, old(env), proposals, trace) && env == EnvAfter(old(env), trace)
      ensures if trace == [] then controller.View() == begun
              else r.Ok? || r.error.ActorCrashed? ==> Reached(begun, controller.View(), trace)
      ensures r.Ok? && proposals != [] ==> !controller.View().IsActive() || env.Over() || methodFailure
      ensures r.Err? ==>
        || r.error.ActivationFailed? || r.error.GuardTripped? || (trace != [] && trace[|trace| - 1].reviewed.Crash?)
      ensures old(AllStripped()) && HonestFlags(world) ==> r.Ok? || !r.error.GuardTripped?
      ensures decisions == old(decisions) + Executions(trace)
      ensures Rowed(old(rows), trace, proposals != [] && r.Ok? && !begun.IsActive(), rows, calls == maximumActorCalls)
      ensures methodFailure ==>
        || old(methodFailure) || (proposals != [] && !begun.IsActive()) || calls == maximumActorCalls
        || TrailingFaults(trace) == 3
      ensures r.Ok? && TrailingFaults(trace) == 3 ==> methodFailure
    {
      calls, begun, trace := 0, controller.View(), [];
      hide Inv, Balanced, HonestFlags, Stripped, Names.Lawful, Advances, Finished, InRange, Told, Reached, Activates, Done,
        TrailingFaults, Reported, CriticsAfter, EnvAfter, Rowed, Executions;
      BalancedSame(controller.log, controller.log, rows);
      NothingTold(world, begun, env, proposals, rows);
      if proposals == [] {
        return Ok(()), 0, begun, trace;
      }
      var active := Begin(proposals, executionId);
      begun := controller.View();
      NothingTold(world, begun, env, proposals, rows);
      BalancedSame(old(controller.log), controller.log, rows);
      if active.Err? {
        return Err(active.error), 0, begun, trace;
      }
      if !active.value {
        BalancedRow(old(controller.log), controller.log, old(rows), rows, UnmatchedProposal);
        rows := rows + [UnmatchedProposal];
        methodFailure := true;
        return Ok(()), 0, begun, trace;
      }
      ReachedStart(begun);
      r, calls, trace := TakeTurns(begun, env, old(controller.log), old(rows), old(decisions), proposals);
    }
  }

  /** What became of one actor call. */
  datatype Turn = Crashed | Faulted | Stepped | Tripped(error: DriverError)

  lemma NoTurns(proposals: seq<string>)
    ensures TrailingFaults([]) == 0 && CriticsAfter(proposals, []) == proposals
  {
  }

  lemma ReachedState(begun: Controller, c: Controller, trace: seq<ActorCall>)
    requires Reached(begun, c, trace)
    ensures c.state.Some?
  {
  }

  /** What was reported: every call, or that no rule matched, and the call limit when it was reached. */
  predicate Rowed(oldRows: seq<Row>, trace: seq<ActorCall>, unmatched: bool, rows: seq<Row>, atLimit: bool)
  {
    || rows == oldRows + (if unmatched then [UnmatchedProposal] else Reported(trace))
    || (atLimit && rows == oldRows + Reported(trace) + [CallLimit])
  }

  lemma AllRowed(oldRows: seq<Row>, trace: seq<ActorCall>, rows: seq<Row>)
    requires rows == oldRows + Reported(trace)
    ensures Rowed(oldRows, trace, false, rows, false) && Rowed(oldRows, trace, false, rows, true)
    ensures Rowed(oldRows, trace, false, rows + [CallLimit], true)
  {
    hide Reported;
  }

  lemma NothingTold(w: World, begun: Controller, env: Env, proposals: seq<string>, rows: seq<Row>)
    ensures Told(w, begun, env, proposals, []) && EnvAfter(env, []) == env && CriticsAfter(proposals, []) == proposals
    ensures TrailingFaults([]) == 0 && rows + Reported([]) == rows && Executions([]) == 0
    ensures forall atLimit :: Rowed(rows, [], false, rows, atLimit) && Rowed(rows, [], true, rows + [UnmatchedProposal], atLimit)
  {
  }

  lemma EnvSnoc(start: Env, trace: seq<ActorCall>, x: ActorCall)
    ensures EnvAfter(start, trace + [x]) == x.reviewed.env
  {
  }

  lemma NextIsFrozen(begun: Controller, c: Controller, trace: seq<ActorCall>)
    requires Reached(begun, c, trace) && c.IsActive()
    ensures c.rule == begun.rule && begun.rule.Some? && begun.rule.value.steps.Some?
    ensures c.state.value.currentStep == begun.state.value.currentStep + Done(trace) < |begun.rule.value.steps.value|
  {
  }
}
