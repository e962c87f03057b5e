/**
 * The episode-local state of one frozen recovery: deterministic activation,
 * ordered advancement of its steps, and the append-only audit log.
 */
module RecoveryControl {
  import opened Wrappers

  datatype RecoveryStep = RecoveryStep(tool: string, parameters: map<string, string>)

  /** A frozen rule; `steps` is absent when the field is no sequence. */
  datatype RecoveryRule = RecoveryRule(recoveryId: string, triggers: set<string>, steps: Option<seq<RecoveryStep>>)

  datatype Status = Active | Completed

  datatype ExecutionState = ExecutionState(
    executionId: string, bundle: string, recoveryId: string, triggers: set<string>,
    currentStep: nat, status: Status, startedAt: int, lastStep: int, completedInvocations: nat)

  /** Audit rows.  An activation names its rule (by digest in the log, here by the rule itself). */
  datatype AuditEvent =
    | Activated(state: ExecutionState, rule: RecoveryRule)
    | Advanced(prior: ExecutionState, state: ExecutionState, tool: string, horizon: int, noOp: bool)

  datatype Controller = Controller(
    bundle: string, rule: Option<RecoveryRule>, state: Option<ExecutionState>, log: seq<AuditEvent>)
  {
    predicate IsActive() { state.Some? && state.value.status == Active }
  }

  datatype RecoveryError = NoExecutableSteps | NoRecoveryId | Inactive | WrongTool | NoEnvironmentAction

  // ---- Choosing the rule -------------------------------------------------

  /** String order by code points, as Python compares. */
  predicate Before(a: string, b: string)
  {
    b != [] && (a == [] || a[0] < b[0] || (a[0] == b[0] && Before(a[1..], b[1..])))
  }

  lemma {:induction false} BeforeIsTotal(a: string, b: string)
    ensures Before(a, b) || a == b || Before(b, a)
    ensures !(Before(a, b) && (a == b || Before(b, a)))
  {
    if a != [] && b != [] && a[0] == b[0] {
      BeforeIsTotal(a[1..], b[1..]);
      assert a == [a[0]] + a[1..] && b == [b[0]] + b[1..];
    }
  }

  lemma {:induction false} BeforeIsTransitive(a: string, b: string, c: string)
    requires Before(a, b) && Before(b, c)
    ensures Before(a, c)
  {
    if a != [] && b[0] == a[0] && c[0] == b[0] {
      BeforeIsTransitive(a[1..], b[1..], c[1..]);
    }
  }

  function Matching(rules: seq<RecoveryRule>, triggers: set<string>): (r: seq<RecoveryRule>)
    ensures forall x :: x in r <==> x in rules && !(x.triggers !! triggers)
  {
    if rules == [] then []
    else (if rules[0].triggers !! triggers then [] else [rules[0]]) + Matching(rules[1..], triggers)
  }

  /** The head of a stable sort by recovery id. */
  function Least(rules: seq<RecoveryRule>): (r: RecoveryRule)
    requires rules != []
    ensures r in rules
  {
    if |rules| == 1 then rules[0]
    else
      var rest := Least(rules[1..]);
      if Before(rest.recoveryId, rules[0].recoveryId) then rest else rules[0]
  }

  lemma {:induction false} LeastIsLeast(rules: seq<RecoveryRule>)
    requires rules != []
    ensures forall x <- rules :: !Before(x.recoveryId, Least(rules).recoveryId)
  {
    if |rules| == 1 {
      BeforeIsTotal(rules[0].recoveryId, rules[0].recoveryId);
    } else {
      LeastIsLeast(rules[1..]);
      var least, rest := Least(rules).recoveryId, Least(rules[1..]).recoveryId;
      forall x | x in rules ensures !Before(x.recoveryId, least) {
        BeforeIsTotal(x.recoveryId, least);
        if x in rules[1..] {
          if Before(x.recoveryId, least) && least != rest {
            BeforeIsTotal(rest, least);
            BeforeIsTotal(x.recoveryId, rest);
            if Before(rest, x.recoveryId) {
              BeforeIsTransitive(rest, x.recoveryId, least);
            }
          }
        } else {
          BeforeIsTotal(rest, rules[0].recoveryId);
        }
      }
    }
  }

  ghost predicate DistinctRecoveryIds(rules: seq<RecoveryRule>)
  {
    forall x, y | x in rules && y in rules && x.recoveryId == y.recoveryId :: x == y
  }

  /** With distinct recovery ids, the choice depends neither on the order of the rules nor of the proposals. */
  lemma ChoiceIgnoresOrder(rules: seq<RecoveryRule>, shuffled: seq<RecoveryRule>, rows: seq<string>, reordered: seq<string>)
    requires forall x :: x in rules <==> x in shuffled
    requires forall x :: x in rows <==> x in reordered
    requires DistinctRecoveryIds(rules)
    ensures Triggers(rows) == Triggers(reordered)
    ensures Matching(rules, Triggers(rows)) == [] <==> Matching(shuffled, Triggers(reordered)) == []
    ensures Matching(rules, Triggers(rows)) != [] ==>
              Least(Matching(rules, Triggers(rows))) == Least(Matching(shuffled, Triggers(reordered)))
  {
    var a, b := Matching(rules, Triggers(rows)), Matching(shuffled, Triggers(reordered));
    assert Triggers(rows) == Triggers(reordered);
    assert forall x :: x in a <==> x in b;
    assert (a != [] ==> a[0] in b) && (b != [] ==> b[0] in a);
    if a != [] {
      LeastIsLeast(a);
      LeastIsLeast(b);
      BeforeIsTotal(Least(a).recoveryId, Least(b).recoveryId);
    }
  }

  // ---- Transitions -------------------------------------------------------

  /** The distinct non-empty rule ids among the critic's proposals. */
  function Triggers(rows: seq<string>): set<string>
  {
    set id | id in rows && id != ""
  }

  datatype Outcome = Outcome(controller: Controller, changed: bool, error: Option<RecoveryError>)

  function Activation(c: Controller, rows: seq<string>, rules: seq<RecoveryRule>, step: int, executionId: string): Outcome
  {
    var matches := Matching(rules, Triggers(rows));
    if c.IsActive() || matches == [] then Outcome(c, false, None)
    else
      var selected := Least(matches);
      if selected.steps.None? || selected.steps.value == [] then Outcome(c, false, Some(NoExecutableSteps))
      else if selected.recoveryId == "" then Outcome(c, false, Some(NoRecoveryId))
      else
        var s := ExecutionState(executionId, c.bundle, selected.recoveryId, Triggers(rows), 0, Active, step, step, 0);
        Outcome(c.(rule := Some(selected), state := Some(s), log := c.log + [Activated(s, selected)]), true, None)
  }

  /** The rule watches for something the critic proposed. */
  predicate Concerns(rule: RecoveryRule, rows: seq<string>)
  {
    exists id <- rows :: id != "" && id in rule.triggers
  }

  /** A given rule that is concerned, with no concerned rule of a smaller id. */
  ghost predicate FirstConcerned(rules: seq<RecoveryRule>, rows: seq<string>, rule: RecoveryRule)
  {
    && rule in rules && Concerns(rule, rows)
    && forall other <- rules | Concerns(other, rows) :: !Before(other.recoveryId, rule.recoveryId)
  }

  /** The state a recovery starts in. */
  ghost predicate StartsAs(s: ExecutionState, bundle: string, rule: RecoveryRule, rows: seq<string>, step: int, executionId: string)
  {
    && s.executionId == executionId && s.bundle == bundle && s.recoveryId == rule.recoveryId
    && (forall id :: id in s.triggers <==> id in rows && id != "")
    && s.currentStep == 0 && s.completedInvocations == 0 && s.status == Active && s.startedAt == step && s.lastStep == step
  }

  /** What activation may do: nothing while one is active or none is concerned, else start the first concerned rule. */
  ghost predicate Activates(c: Controller, rows: seq<string>, rules: seq<RecoveryRule>, step: int, executionId: string,
                            d: Controller, r: Result<bool, RecoveryError>)
  {
    if c.IsActive() || (forall rule <- rules :: !Concerns(rule, rows)) then d == c && r == Ok(false)
    else
      exists rule :: FirstConcerned(rules, rows, rule) &&
        if rule.steps.None? || rule.steps.value == [] then d == c && r == Err(NoExecutableSteps)
        else if rule.recoveryId == "" then d == c && r == Err(NoRecoveryId)
        else
          && r == Ok(true) && d.bundle == c.bundle && d.rule == Some(rule) && d.state.Some?
          && StartsAs(d.state.value, c.bundle, rule, rows, step, executionId)
          && d.log == c.log + [Activated(d.state.value, rule)]
  }

  function ResultOf(o: Outcome): Result<bool, RecoveryError>
  {
    if o.error.Some? then Err(o.error.value) else Ok(o.changed)
  }

  lemma MatchingConcerns(rules: seq<RecoveryRule>, rows: seq<string>)
    ensures forall rule :: rule in Matching(rules, Triggers(rows)) <==> rule in rules && Concerns(rule, rows)
  {
    forall rule: RecoveryRule ensures !(rule.triggers !! Triggers(rows)) <==> Concerns(rule, rows) {
      if id :| id in rows && id != "" && id in rule.triggers {
        assert id in Triggers(rows);
      }
      if !(rule.triggers !! Triggers(rows)) {
        var id :| id in rule.triggers && id in Triggers(rows);
      }
    }
  }

  lemma ActivationMeans(c: Controller, rows: seq<string>, rules: seq<RecoveryRule>, step: int, executionId: string)
    ensures var o := Activation(c, rows, rules, step, executionId);
      Activates(c, rows, rules, step, executionId, o.controller, ResultOf(o))
  {
    hide Matching, Least, Triggers, Concerns, Before;
    MatchingConcerns(rules, rows);
    var matches := Matching(rules, Triggers(rows));
    if matches != [] {
      LeastIsLeast(matches);
      assert FirstConcerned(rules, rows, Least(matches));
      TriggersOf(rows);
    } else {
      assert forall rule <- rules :: !Concerns(rule, rows);
    }
  }

  lemma TriggersOf(rows: seq<string>)
    ensures forall id :: id in Triggers(rows) <==> id in rows && id != ""
  {
  }

  /** With distinct recovery ids, activation depends neither on the order of the rules nor of the proposals. */
  lemma ActivationIgnoresOrder(c: Controller, rows: seq<string>, reordered: seq<string>, rules: seq<RecoveryRule>,
                               shuffled: seq<RecoveryRule>, step: int, executionId: string)
    requires forall x :: x in rules <==> x in shuffled
    requires forall x :: x in rows <==> x in reordered
    requires DistinctRecoveryIds(rules)
    ensures Activation(c, rows, rules, step, executionId) == Activation(c, reordered, shuffled, step, executionId)
  {
    hide Matching, Least, Triggers;
    ChoiceIgnoresOrder(rules, shuffled, rows, reordered);
  }

  ghost predicate InRange(c: Controller)
  {
    c.IsActive() ==> c.rule.Some? && c.rule.value.steps.Some? && c.state.value.currentStep < |c.rule.value.steps.value|
  }

  function CompleteStep(c: Controller, tool: Option<string>, step: int, horizon: int, noOp: bool): Outcome
    requires InRange(c)
  {
    if !c.IsActive() then Outcome(c, false, Some(Inactive))
    else
      var steps, prior := c.rule.value.steps.value, c.state.value;
      if tool != Some(steps[prior.currentStep].tool) then Outcome(c, false, Some(WrongTool))
      else if horizon < 1 && !noOp then Outcome(c, false, Some(NoEnvironmentAction))
      else
        var complete := prior.currentStep + 1 >= |steps|;
        var s := prior.(currentStep := if complete then prior.currentStep else prior.currentStep + 1,
                        status := if complete then Completed else Active,
                        lastStep := step, completedInvocations := prior.completedInvocations + 1);
        Outcome(Controller(c.bundle, if complete then None else c.rule, Some(s),
                           c.log + [Advanced(prior, s, tool.value, horizon, noOp)]), true, None)
  }

  /**
   * What completing a step may do: refuse, or advance exactly the current
   * frozen step, on to the next one or, after the last, to the end.
   */
  ghost predicate Completes(c: Controller, tool: Option<string>, step: int, horizon: int, noOp: bool, d: Controller,
                            r: Result<bool, RecoveryError>)
    requires InRange(c)
  {
    if !c.IsActive() then d == c && r == Err(Inactive)
    else
      var steps, prior := c.rule.value.steps.value, c.state.value;
      var frozen := steps[prior.currentStep].tool;
      if tool != Some(frozen) then d == c && r == Err(WrongTool)
      else if horizon < 1 && !noOp then d == c && r == Err(NoEnvironmentAction)
      else
        && r == Ok(true) && d.bundle == c.bundle && d.state.Some?
        && d.log == c.log + [Advanced(prior, d.state.value, frozen, horizon, noOp)]
        && var s := d.state.value;
           && s.executionId == prior.executionId && s.bundle == prior.bundle && s.recoveryId == prior.recoveryId
           && s.triggers == prior.triggers && s.startedAt == prior.startedAt && s.lastStep == step
           && s.completedInvocations == prior.completedInvocations + 1
           && (if prior.currentStep + 1 < |steps|
               then s.status == Active && d.rule == c.rule && s.currentStep == prior.currentStep + 1
               else s.status == Completed && d.rule.None? && s.currentStep == prior.currentStep)
  }

  lemma InvInRange(c: Controller)
    requires Inv(c)
    ensures InRange(c)
  {
  }

  lemma CompletionMeans(c: Controller, tool: Option<string>, step: int, horizon: int, noOp: bool)
    requires InRange(c)
    ensures var o := CompleteStep(c, tool, step, horizon, noOp);
      Completes(c, tool, step, horizon, noOp, o.controller, ResultOf(o))
  {
  }

  /** After a chunk: a critic proposal leaves the step where it was; otherwise the step is completed. */
  function AfterChunk(c: Controller, tool: Option<string>, step: int, horizon: int, interrupted: bool): Outcome
    requires InRange(c)
  {
    if interrupted then Outcome(c, false, None) else CompleteStep(c, tool, step, horizon, false)
  }

  // ---- Runs --------------------------------------------------------------

  datatype Call =
    | CallActivate(rows: seq<string>, rules: seq<RecoveryRule>, step: int, executionId: string)
    | CallComplete(tool: Option<string>, step: int, horizon: int, noOp: bool)
    | CallAfterChunk(tool: Option<string>, step: int, horizon: int, interrupted: bool)

  function Apply(c: Controller, call: Call): Controller
    requires InRange(c)
  {
    match call
    case CallActivate(rows, rules, step, id) => Activation(c, rows, rules, step, id).controller
    case CallComplete(tool, step, horizon, noOp) => CompleteStep(c, tool, step, horizon, noOp).controller
    case CallAfterChunk(tool, step, horizon, interrupted) => AfterChunk(c, tool, step, horizon, interrupted).controller
  }

  /** State rebuilt from the log alone; `Err` when the log is not one a controller writes. */
  datatype Replayed = Replayed(rule: Option<RecoveryRule>, state: Option<ExecutionState>)

  function Replay(log: seq<AuditEvent>): Option<Replayed>
  {
    if log == [] then Some(Replayed(None, None))
    else
      var before := Replay(log[..|log| - 1]);
      if before.None? then None
      else
        match log[|log| - 1]
        case Activated(state, rule) => Some(Replayed(Some(rule), Some(state)))
        case Advanced(prior, state, _, _, _) =>
          if before.value.state != Some(prior) then None
          else Some(Replayed(if state.status == Completed then None else before.value.rule, Some(state)))
  }

  /** The tools of the steps advanced since the last activation, and the rule activated then. */
  function Progress(log: seq<AuditEvent>): (Option<RecoveryRule>, seq<string>)
  {
    if log == [] then (None, [])
    else
      match log[|log| - 1]
      case Activated(_, rule) => (Some(rule), [])
      case Advanced(_, _, tool, _, _) =>
        var (rule, tools) := Progress(log[..|log| - 1]);
        (rule, tools + [tool])
  }

  function Tools(steps: seq<RecoveryStep>): (r: seq<string>)
    ensures |r| == |steps| && forall i | 0 <= i < |steps| :: r[i] == steps[i].tool
  {
    seq(|steps|, i requires 0 <= i < |steps| => steps[i].tool)
  }

  /** What every reachable controller satisfies. */
  ghost predicate Inv(c: Controller)
  {
    && Replay(c.log) == Some(Replayed(c.rule, c.state))
    && (c.state.None? <==> c.log == [])
    && InRange(c)
    && (c.state.Some? ==>
          var (rule, tools) := Progress(c.log);
          && rule.Some? && rule.value.steps.Some? && c.state.value.recoveryId == rule.value.recoveryId
          && c.state.value.completedInvocations == |tools|
          && (c.state.value.status == Active ==>
                c.rule == rule && c.state.value.currentStep == |tools| < |rule.value.steps.value|
                && tools == Tools(rule.value.steps.value)[..|tools|])
          && (c.state.value.status == Completed ==> c.rule.None? && tools == Tools(rule.value.steps.value)))
  }

  lemma InvAfterEvent(log: seq<AuditEvent>, event: AuditEvent)
    ensures (log + [event])[..|log|] == log && (log + [event])[|log|] == event
  {
  }

  lemma ActivationReplays(log: seq<AuditEvent>, state: ExecutionState, rule: RecoveryRule)
    requires Replay(log).Some?
    ensures Replay(log + [Activated(state, rule)]) == Some(Replayed(Some(rule), Some(state)))
    ensures Progress(log + [Activated(state, rule)]) == (Some(rule), [])
  {
    InvAfterEvent(log, Activated(state, rule));
  }

  lemma ActivateKeepsInv(c: Controller, rows: seq<string>, rules: seq<RecoveryRule>, step: int, id: string)
    requires Inv(c)
    ensures Inv(Activation(c, rows, rules, step, id).controller)
  {
    hide Matching, Least, Triggers, Replay, Progress, Tools;
    var o := Activation(c, rows, rules, step, id);
    if o.changed {
      ActivationReplays(c.log, o.controller.state.value, o.controller.rule.value);
    }
  }

  lemma CompleteKeepsInv(c: Controller, tool: Option<string>, step: int, horizon: int, noOp: bool)
    requires Inv(c)
    ensures Inv(CompleteStep(c, tool, step, horizon, noOp).controller)
  {
    var o := CompleteStep(c, tool, step, horizon, noOp);
    if o.changed {
      InvAfterEvent(c.log, o.controller.log[|c.log|]);
      var tools, all := Progress(c.log).1, Tools(c.rule.value.steps.value);
      assert tools + [tool.value] == all[..|tools| + 1];
      if |tools| + 1 == |all| {
        assert all[..|tools| + 1] == all;
      }
    }
  }

  lemma StepKeepsInv(c: Controller, call: Call)
    requires Inv(c)
    ensures Inv(Apply(c, call))
  {
    hide Inv;
    match call
    case CallActivate(rows, rules, step, id) => ActivateKeepsInv(c, rows, rules, step, id);
    case CallComplete(tool, step, horizon, noOp) => CompleteKeepsInv(c, tool, step, horizon, noOp);
    case CallAfterChunk(tool, step, horizon, interrupted) =>
      if !interrupted {
        CompleteKeepsInv(c, tool, step, horizon, false);
      }
  }

  ghost predicate Runs(c: Controller, calls: seq<Call>, d: Controller)
    decreases |calls|
  {
    if calls == [] then c == d else InRange(c) && Runs(Apply(c, calls[0]), calls[1..], d)
  }

  function Fresh(bundle: string): Controller
  {
    Controller(bundle, None, None, [])
  }

  lemma FreshInv(bundle: string)
    ensures Inv(Fresh(bundle))
  {
  }

  lemma {:induction false} RunKeepsInv(c: Controller, calls: seq<Call>, d: Controller)
    requires Inv(c) && Runs(c, calls, d)
    ensures Inv(d)
    decreases |calls|
  {
    hide Inv;
    if calls != [] {
      StepKeepsInv(c, calls[0]);
      RunKeepsInv(Apply(c, calls[0]), calls[1..], d);
    }
  }

  lemma {:induction false} NoCallIsStuck(c: Controller, calls: seq<Call>)
    requires Inv(c)
    ensures exists d :: Runs(c, calls, d)
    decreases |calls|
  {
    if calls == [] {
      assert Runs(c, calls, c);
    } else {
      StepKeepsInv(c, calls[0]);
      NoCallIsStuck(Apply(c, calls[0]), calls[1..]);
      var d :| Runs(Apply(c, calls[0]), calls[1..], d);
      assert Runs(c, calls, d);
    }
  }

  /**
   * Over any calls on a fresh controller: the log replays to the state; while
   * active the completed invocations equal the step index, which is in range;
   * and a completed recovery advanced exactly its frozen steps, once each, in order.
   */
  lemma AuditReplays(bundle: string, calls: seq<Call>, d: Controller)
    requires Runs(Fresh(bundle), calls, d)
    ensures Replay(d.log) == Some(Replayed(d.rule, d.state))
    ensures d.IsActive() ==>
      && d.rule.Some? && d.rule.value.steps.Some?
      && d.state.value.completedInvocations == d.state.value.currentStep < |d.rule.value.steps.value|
    ensures d.state.Some? && d.state.value.status == Completed ==>
      && Progress(d.log).0.Some? && Progress(d.log).0.value.steps.Some?
      && Progress(d.log).1 == Tools(Progress(d.log).0.value.steps.value)
  {
    RunKeepsInv(Fresh(bundle), calls, d);
  }

  /** Activation never disturbs active work, and an interrupted chunk never advances it. */
  lemma ActiveWorkIsKept(c: Controller, rows: seq<string>, rules: seq<RecoveryRule>, step: int, id: string,
                         tool: Option<string>, horizon: int)
    requires Inv(c) && c.IsActive()
    ensures Activation(c, rows, rules, step, id) == Outcome(c, false, None)
    ensures AfterChunk(c, tool, step, horizon, true) == Outcome(c, false, None)
    ensures AfterChunk(c, tool, step, horizon, false).changed
            <==> tool == Some(c.rule.value.steps.value[c.state.value.currentStep].tool) && horizon >= 1
  {
  }

  // ---- The controller object ---------------------------------------------

  datatype RecoveryContext = RecoveryContext(execution: ExecutionState, step: RecoveryStep, remainingSteps: nat)

  class RecoveryController {
    const bundle: string
    var rule: Option<RecoveryRule>
    var state: Option<ExecutionState>
    var log: seq<AuditEvent>

    function View(): Controller
      reads this
    {
      Controller(bundle, rule, state, log)
    }

    ghost predicate Valid()
      reads this
    {
      Inv(View())
    }

    constructor (b: string)
      ensures Valid() && View() == Fresh(b)
    {
      bundle, rule, state, log := b, None, None, [];
    }

    method Activate(rows: seq<string>, rules: seq<RecoveryRule>, step: int, executionId: string)
      returns (r: Result<bool, RecoveryError>)
      requires Valid()
      modifies this
      ensures Valid()
      ensures var o := Activation(old(View()), rows, rules, step, executionId);
              View() == o.controller && r == ResultOf(o)
      ensures Activates(old(View()), rows, rules, step, executionId, View(), r)
    {
      ActivateKeepsInv(View(), rows, rules, step, executionId);
      ActivationMeans(View(), rows, rules, step, executionId);
      hide Matching, Least, Triggers, Inv, Activates;
      if state.Some? && state.value.status == Active {
        return Ok(false);
      }
      var triggers := Triggers(rows);
      var matches := Matching(rules, triggers);
      if matches == [] {
        return Ok(false);
      }
      var selected := Least(matches);
      if selected.steps.None? || selected.steps.value == [] {
        return Err(NoExecutableSteps);
      }
      if selected.recoveryId == "" {
        return Err(NoRecoveryId);
      }
      rule := Some(selected);
      state := Some(ExecutionState(executionId, bundle, selected.recoveryId, triggers, 0, Active, step, step, 0));
      log := log + [Activated(state.value, selected)];
      return Ok(true);
    }

    /** The current step of the active recovery. */
    method Context() returns (r: Option<RecoveryContext>)
      requires Valid()
      ensures r.Some? <==> View().IsActive()
      ensures r.Some? ==>
        && r.value.execution == state.value && rule.Some? && rule.value.steps.Some?
        && state.value.currentStep < |rule.value.steps.value|
        && r.value.step == rule.value.steps.value[state.value.currentStep]
        && r.value.remainingSteps == |rule.value.steps.value| - state.value.completedInvocations >= 1
    {
      if state.None? || state.value.status != Active {
        return None;
      }
      var steps := rule.value.steps.value;
      return Some(RecoveryContext(state.value, steps[state.value.currentStep], |steps| - state.value.currentStep));
    }

    method CompleteCurrentStep(tool: Option<string>, step: int, horizon: int, noOp: bool)
      returns (r: Result<ExecutionState, RecoveryError>)
      requires Valid()
      modifies this
      ensures Valid()
      ensures var o := CompleteStep(old(View()), tool, step, horizon, noOp);
              && View() == o.controller
              && (if o.error.Some? then r == Err(o.error.value) else state.Some? && r == Ok(state.value))
      ensures InRange(old(View()))
      ensures Completes(old(View()), tool, step, horizon, noOp, View(), if r.Ok? then Ok(true) else Err(r.error))
    {
      CompleteKeepsInv(View(), tool, step, horizon, noOp);
      CompletionMeans(View(), tool, step, horizon, noOp);
      hide Replay, Progress, Tools, Completes;
      if state.None? || state.value.status != Active {
        return Err(Inactive);
      }
      var steps, prior := rule.value.steps.value, state.value;
      if tool != Some(steps[prior.currentStep].tool) {
        return Err(WrongTool);
      }
      if horizon < 1 && !noOp {
        return Err(NoEnvironmentAction);
      }
      var next := prior.currentStep + 1;
      var complete := next >= |steps|;
      state := Some(prior.(currentStep := if complete then prior.currentStep else next,
                           status := if complete then Completed else Active,
                           lastStep := step, completedInvocations := prior.completedInvocations + 1));
      log := log + [Advanced(prior, state.value, tool.value, horizon, noOp)];
      if complete {
        rule := None;
      }
      return Ok(state.value);
    }

    /** Advance only a fully executed step; an interrupted one stays current. */
    method AdvanceAfterChunk(tool: Option<string>, step: int, horizon: int, proposals: seq<string>)
      returns (r: Result<bool, RecoveryError>)
      requires Valid()
      modifies this
      ensures Valid()
      ensures var o := AfterChunk(old(View()), tool, step, horizon, proposals != []);
              View() == o.controller && r == ResultOf(o)
      ensures InRange(old(View()))
      ensures if proposals != [] then View() == old(View()) && r == Ok(false)
              else Completes(old(View()), tool, step, horizon, false, View(), r)
    {
      InvInRange(View());
      hide Inv, Completes;
      if proposals != [] {
        return Ok(false);
      }
      var advanced := CompleteCurrentStep(tool, step, horizon, false);
      return if advanced.Ok? then Ok(true) else Err(advanced.error);
    }
  }
}
