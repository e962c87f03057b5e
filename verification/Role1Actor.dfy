/**
 * The episode actor: resolves one action boundary by a bounded loop around an
 * untrusted model and untrusted proposal tools.  Only persisted decisions
 * take effect, and an active frozen recovery step cannot be bypassed.
 */
module Role1Actor {
  import opened Wrappers
  import opened PlainValues
  import opened Role1Text
  import opened Role1Agent
  import opened Role1Decisions
  import opened Role1Written
  import opened Role1Store
  import ActionContract

  const VLA_TOOL := "robocasa.vla.groot"

  datatype Binding = Binding(task: string, toolNames: seq<string>, vlaTool: string, candidateTools: set<string>)

  datatype ActorError =
    | OtherTask | NoActions | NoCurrentStep | StepNotAuthorized | BadRecoveryParameters
    | BadProposal | BadEvent | ModelFailed | NotAccepted(error: StoreError)
    | TerminatesRecovery | BypassesRecovery | OutsideAllowList | MustRecover | UnmaterializedRejection
    | BadParameters | ToolFailed | LoopExhausted

  datatype ActorResult = ActorResult(actions: seq<Value>, terminate: bool, reason: string, selectedTool: Option<string>)

  /** Everything one boundary is given. */
  datatype Boundary = Boundary(
    task: string, stepIndex: nat, observation: map<Key, Value>, images: Value, taskState: Value,
    vlaActions: seq<Value>, vlaMetadata: map<Key, Value>, critics: seq<CriticProposal>,
    suggestions: seq<Value>,
    active: Option<Value>,             // the current step of the active recovery
    stage: string)

  /** The untrusted parties and the naming of artifacts; `None` is an exception. */
  datatype Surroundings = Surroundings(
    model: (nat, Role1Event) -> Option<Value>,
    invoke: (nat, string, map<Key, Value>) -> Option<map<Key, Value>>,
    summarize: map<Key, Value> -> Value,
    eventName: nat -> string,
    proposalName: nat -> string,
    artifactName: nat -> string)

  datatype Invocation = Invocation(tool: string, payload: map<Key, Value>, reply: map<Key, Value>)

  /** The events put to the model, its persisted decisions on them, and the tool invocations in between. */
  datatype Trace = Trace(events: seq<Role1Event>, decisions: seq<Role1Effect>, invocations: seq<Invocation>)

  // ---- Frozen recovery ---------------------------------------------------

  function StepTools(t: Text, steps: seq<Value>): set<string>
  {
    if steps == [] then {}
    else
      var step := steps[0];
      (if (step.Dict? || step.Proxy?) && Tool in step.fields && t.strip(t.show(step.fields[Tool])) != ""
       then {t.show(step.fields[Tool])} else {})
      + StepTools(t, steps[1..])
  }

  /** The tools that triggered recovery rules were frozen with. */
  function AuthorizedTools(t: Text, suggestions: seq<Value>): set<string>
  {
    if suggestions == [] then {}
    else
      var rule := suggestions[0];
      (if (rule.Dict? || rule.Proxy?) && Get(rule.fields, Other("steps"), Tuple([])).IsArray()
       then StepTools(t, Get(rule.fields, Other("steps"), Tuple([])).items) else {})
      + AuthorizedTools(t, suggestions[1..])
  }

  /** The frozen step to be executed: its tool, stripped, and its parameters. */
  datatype Required = Required(tool: string, parameters: map<Key, Value>)

  function ReadRequired(t: Text, step: Value, authorized: set<string>): Result<Required, ActorError>
  {
    if !step.Dict? && !step.Proxy? then Err(NoCurrentStep)
    else
      var tool := t.strip(t.show(Get(step.fields, Tool, Str(""))));
      var parameters := Get(step.fields, Parameters, Dict(map[]));
      if tool == "" || tool !in authorized then Err(StepNotAuthorized)
      else if !parameters.Dict? && !parameters.Proxy? then Err(BadRecoveryParameters)
      else Ok(Required(tool, Thaw(parameters).fields))
  }

  function Selectable(names: seq<string>, candidates: set<string>, authorized: set<string>): (r: seq<string>)
    ensures forall x <- r :: x in names && (x in candidates ==> x in authorized)
  {
    if names == [] then []
    else
      (if names[0] !in candidates || names[0] in authorized then [names[0]] else [])
      + Selectable(names[1..], candidates, authorized)
  }

  function AllowList(b: Binding, authorized: set<string>, required: Option<Required>): seq<string>
  {
    if required.None? then Selectable(b.toolNames, b.candidateTools, authorized)
    else if required.value.tool == b.vlaTool then [b.vlaTool]
    else [b.vlaTool, required.value.tool]
  }

  /** Step `j` of a triggered rule names this tool. */
  predicate NamesTool(t: Text, rule: Value, j: int, tool: string)
  {
    && (rule.Dict? || rule.Proxy?)
    && var steps := Get(rule.fields, Other("steps"), Tuple([]));
       && steps.IsArray() && 0 <= j < |steps.items| && StepNames(t, steps.items[j], tool)
  }

  predicate StepNames(t: Text, step: Value, tool: string)
  {
    (step.Dict? || step.Proxy?) && Tool in step.fields && t.show(step.fields[Tool]) == tool && t.strip(tool) != ""
  }

  ghost predicate FrozenIntoRule(t: Text, suggestions: seq<Value>, tool: string)
  {
    exists i, j :: 0 <= i < |suggestions| && NamesTool(t, suggestions[i], j, tool)
  }

  lemma {:induction false} StepToolsMeans(t: Text, steps: seq<Value>, tool: string)
    ensures tool in StepTools(t, steps) <==> exists j :: 0 <= j < |steps| && StepNames(t, steps[j], tool)
    decreases |steps|
  {
    if steps != [] {
      StepToolsMeans(t, steps[1..], tool);
      if j :| 0 <= j < |steps| - 1 && StepNames(t, steps[1..][j], tool) {
        assert StepNames(t, steps[j + 1], tool);
      }
      if j :| 0 < j < |steps| && StepNames(t, steps[j], tool) {
        assert StepNames(t, steps[1..][j - 1], tool);
      }
    }
  }

  lemma RuleToolsMeans(t: Text, rule: Value, tool: string)
    ensures (exists j :: NamesTool(t, rule, j, tool)) <==>
      && (rule.Dict? || rule.Proxy?) && Get(rule.fields, Other("steps"), Tuple([])).IsArray()
      && tool in StepTools(t, Get(rule.fields, Other("steps"), Tuple([])).items)
  {
    hide StepNames, StepTools, Get;
    if (rule.Dict? || rule.Proxy?) && Get(rule.fields, Other("steps"), Tuple([])).IsArray() {
      var items := Get(rule.fields, Other("steps"), Tuple([])).items;
      StepToolsMeans(t, items, tool);
      if j :| 0 <= j < |items| && StepNames(t, items[j], tool) {
        assert NamesTool(t, rule, j, tool);
      }
    }
  }

  /** Exactly the tools frozen into the triggered rules are authorized. */
  lemma {:induction false} AuthorizedMeans(t: Text, suggestions: seq<Value>, tool: string)
    ensures tool in AuthorizedTools(t, suggestions) <==> FrozenIntoRule(t, suggestions, tool)
    decreases |suggestions|
  {
    hide NamesTool, StepTools, Get;
    if suggestions != [] {
      AuthorizedMeans(t, suggestions[1..], tool);
      RuleToolsMeans(t, suggestions[0], tool);
      if i, j :| 0 <= i < |suggestions| - 1 && NamesTool(t, suggestions[1..][i], j, tool) {
        assert NamesTool(t, suggestions[i + 1], j, tool);
      }
      if i, j :| 0 < i < |suggestions| && NamesTool(t, suggestions[i], j, tool) {
        assert NamesTool(t, suggestions[1..][i - 1], j, tool);
      }
    }
  }

  /** The frozen step in force, if a recovery is active and its step is well formed and authorized. */
  function RequiredOf(t: Text, q: Boundary): Option<Required>
  {
    if q.active.None? then None
    else
      match ReadRequired(t, q.active.value, AuthorizedTools(t, q.suggestions))
      case Ok(required) => Some(required)
      case Err(_) => None
  }

  /** It names the stripped tool of the active step, frozen into a triggered rule, with the step's own parameters. */
  lemma RequiredMeans(t: Text, q: Boundary, required: Required)
    ensures RequiredOf(t, q) == Some(required) <==>
      && q.active.Some? && (q.active.value.Dict? || q.active.value.Proxy?)
      && required.tool == t.strip(t.show(Get(q.active.value.fields, Tool, Str("")))) && required.tool != ""
      && FrozenIntoRule(t, q.suggestions, required.tool)
      && var parameters := Get(q.active.value.fields, Parameters, Dict(map[]));
         (parameters.Dict? || parameters.Proxy?) && Thaw(parameters) == Dict(required.parameters)
  {
    hide FrozenIntoRule, AuthorizedTools, Get;
    AuthorizedMeans(t, q.suggestions, required.tool);
    if q.active.Some? && (q.active.value.Dict? || q.active.value.Proxy?) {
      AuthorizedMeans(t, q.suggestions, t.strip(t.show(Get(q.active.value.fields, Tool, Str("")))));
    }
  }

  /** What Role1 may choose from: the VLA and the frozen tool, or the bound tools that need no rule or have one. */
  ghost predicate Offered(t: Text, b: Binding, q: Boundary, tool: string)
  {
    var required := RequiredOf(t, q);
    if required.Some? then tool == b.vlaTool || tool == required.value.tool
    else tool in b.toolNames && (tool in b.candidateTools ==> FrozenIntoRule(t, q.suggestions, tool))
  }

  lemma {:induction false} SelectableMeans(names: seq<string>, candidates: set<string>, authorized: set<string>, tool: string)
    ensures tool in Selectable(names, candidates, authorized) <==>
      tool in names && (tool in candidates ==> tool in authorized)
    decreases |names|
  {
    if names != [] {
      SelectableMeans(names[1..], candidates, authorized, tool);
    }
  }

  lemma AllowListMeans(t: Text, b: Binding, q: Boundary, tool: string)
    ensures tool in AllowList(b, AuthorizedTools(t, q.suggestions), RequiredOf(t, q)) <==> Offered(t, b, q, tool)
  {
    hide RequiredOf, AuthorizedTools, FrozenIntoRule, Selectable;
    AuthorizedMeans(t, q.suggestions, tool);
    SelectableMeans(b.toolNames, b.candidateTools, AuthorizedTools(t, q.suggestions), tool);
  }

  // ---- One decision ------------------------------------------------------

  function ActionsOf(reply: map<Key, Value>): (r: Option<seq<Value>>)
    ensures var many, one := Get(reply, Actions, Null), Get(reply, NestedAction, Null);
      && (many.List? && many.items != [] ==> r == Some(many.items))
      && (!(many.List? && many.items != []) ==> r == if one.IsMapping() then Some([one]) else None)
  {
    var many, one := Get(reply, Actions, Null), Get(reply, NestedAction, Null);
    if many.List? && many.items != [] then Some(many.items)
    else if one.IsMapping() then Some([one])
    else None
  }

  /** What a tool is given when neither the model nor the frozen step says otherwise. */
  predicate IsDefault(q: Boundary, k: Key, v: Value)
  {
    || (k == Observation && v == Dict(q.observation)) || (k == PendingVlaActions && v == List(q.vlaActions))
    || (k == Task && v == Str(q.task)) || (k == StepIndex && v == Int(q.stepIndex))
  }

  /** Model-chosen parameters, overridden by the frozen ones, with defaults for what is still missing. */
  function PayloadFor(q: Boundary, chosen: map<Key, Value>, frozen: map<Key, Value>): (payload: map<Key, Value>)
    ensures forall k | k in frozen :: k in payload && payload[k] == frozen[k]
    ensures forall k | k in chosen && k !in frozen :: k in payload && payload[k] == chosen[k]
    ensures Observation in payload && PendingVlaActions in payload && Task in payload && StepIndex in payload
    ensures forall k | k in payload && k !in chosen && k !in frozen :: IsDefault(q, k, payload[k])
  {
    map[Observation := Dict(q.observation), PendingVlaActions := List(q.vlaActions), Task := Str(q.task),
        StepIndex := Int(q.stepIndex)] + chosen + frozen
  }

  datatype Verdict = Return(result: ActorResult) | Invoke(tool: string) | Refuse(error: ActorError)

  function Weigh(b: Binding, d: Role1Effect, currentTool: string, proposed: Option<seq<Value>>, allowed: seq<string>,
                 required: Option<Required>, vlaActions: seq<Value>): Verdict
  {
    var tool := if d.selectedTool.Some? then d.selectedTool.value else currentTool;
    if d.termination.approved then
      if required.Some? then Refuse(TerminatesRecovery) else Return(ActorResult([], true, d.termination.reason, None))
    else if d.directAction.Some? then
      if required.Some? then Refuse(BypassesRecovery)
      else Return(ActorResult([ActionContract.Serialize(d.directAction.value)], false, "", None))
    else if tool !in allowed then Refuse(OutsideAllowList)
    else if required.Some? && tool != required.value.tool then Refuse(MustRecover)
    else if tool == currentTool && d.disposition == Accept && proposed.Some? then
      Return(ActorResult(proposed.value, false, "", Some(tool)))
    else if tool == VLA_TOOL || tool == b.vlaTool then
      if d.disposition != Accept then Refuse(UnmaterializedRejection)
      else Return(ActorResult(vlaActions, false, "", Some(tool)))
    else Invoke(tool)
  }

  function HistoryRow(d: Role1Effect): Value
  {
    Dict(map[DecisionId := Str(d.decisionId), ActionKind := Str(d.kind.Name()), SelectedTool := OptStr(d.selectedTool),
             Other("persisted_digest") := Str(d.persistedDigest)])
  }

  function HistoryRows(ds: seq<Role1Effect>): seq<Value>
  {
    seq(|ds|, i requires 0 <= i < |ds| => HistoryRow(ds[i]))
  }

  function ProposalFor(t: Text, io: Surroundings, index: nat, tool: string, result: map<Key, Value>)
    : Result<ToolProposal, ContractError>
  {
    MakeToolProposal(t, Str(io.proposalName(index)), Str(tool), io.summarize(result),
                     List([Str("artifact:" + io.artifactName(index))]))
  }

  function ArgumentsFor(io: Surroundings, q: Boundary, index: nat, tool: string, allowed: seq<string>, p: ToolProposal,
                        critics: seq<CriticProposal>, history: seq<Value>): EventArguments
  {
    EventArguments(
      Str(io.eventName(index)), Str(q.task), Int(q.stepIndex), Str(q.stage), Str(tool),
      Strs(["observe", "approach", "engage", "recover", "verify", "closed_loop_execution"]).items,
      Strs(allowed).items, q.images, q.taskState, [p], critics, history)
  }

  function EventFor(t: Text, io: Surroundings, q: Boundary, index: nat, tool: string, allowed: seq<string>,
                    result: map<Key, Value>, critics: seq<CriticProposal>, history: seq<Value>)
    : Result<Role1Event, ActorError>
  {
    match ProposalFor(t, io, index, tool, result)
    case Err(_) => Err(BadProposal)
    case Ok(proposal) =>
      match MakeEvent(t, ArgumentsFor(io, q, index, tool, allowed, proposal, critics, history))
      case Err(_) => Err(BadEvent)
      case Ok(e) => Ok(e)
  }

  /** The event puts up for review exactly one proposal: what this tool gave. */
  predicate Shows(t: Text, io: Surroundings, e: Role1Event, tool: string, result: map<Key, Value>)
  {
    && |e.toolProposals| == 1 && e.toolProposals[0].tool == t.strip(t.show(Str(tool)))
    && PlainJson(io.summarize(result)).Some? && e.toolProposals[0].proposal == Freeze(PlainJson(io.summarize(result)).value)
  }

  /** The first proposal: the VLA chunk and its horizon, under the metadata it came with. */
  function VlaResult(q: Boundary): (r: map<Key, Value>)
    ensures r.Keys == q.vlaMetadata.Keys + {Actions, Other("horizon")}
    ensures forall k | k in q.vlaMetadata :: r[k] == q.vlaMetadata[k]
    ensures Actions !in q.vlaMetadata ==> r[Actions] == List(q.vlaActions)
    ensures Other("horizon") !in q.vlaMetadata ==> r[Other("horizon")] == Int(|q.vlaActions|)
  {
    map[Actions := List(q.vlaActions), Other("horizon") := Int(|q.vlaActions|)] + q.vlaMetadata
  }

  function ToolAt(b: Binding, xs: seq<Invocation>, k: nat): string
    requires k <= |xs|
  {
    if k == 0 then b.vlaTool else xs[k - 1].tool
  }

  function ResultAt(q: Boundary, xs: seq<Invocation>, k: nat): map<Key, Value>
    requires k <= |xs|
  {
    if k == 0 then VlaResult(q) else xs[k - 1].reply
  }

  /** The actions of the current proposal: the VLA chunk, or those of the latest invocation, if it proposed any. */
  function ProposedAt(q: Boundary, xs: seq<Invocation>, k: nat): Option<seq<Value>>
    requires k <= |xs|
  {
    if k == 0 then Some(q.vlaActions) else ActionsOf(xs[k - 1].reply)
  }

  /** The six stages Role1 may name. */
  predicate StagesOf(t: Text, stages: seq<string>)
  {
    && |stages| == 6 && stages[0] == t.strip(t.show(Str("observe"))) && stages[1] == t.strip(t.show(Str("approach")))
    && stages[2] == t.strip(t.show(Str("engage"))) && stages[3] == t.strip(t.show(Str("recover")))
    && stages[4] == t.strip(t.show(Str("verify"))) && stages[5] == t.strip(t.show(Str("closed_loop_execution")))
  }

  /** One earlier decision, as the history of an event tells it. */
  predicate TellsDecision(row: Value, d: Role1Effect)
  {
    && row.Dict? && row.fields.Keys == {DecisionId, ActionKind, SelectedTool, Other("persisted_digest")}
    && row.fields[DecisionId] == Str(d.decisionId) && row.fields[ActionKind] == Str(d.kind.Name())
    && row.fields[SelectedTool] == OptStr(d.selectedTool) && row.fields[Other("persisted_digest")] == Str(d.persistedDigest)
  }

  predicate TellsHistory(history: seq<Value>, earlier: seq<Role1Effect>)
  {
    |history| == |earlier| && forall i | 0 <= i < |history| :: TellsDecision(Thaw(history[i]), earlier[i])
  }

  ghost predicate OffersExactly(t: Text, b: Binding, q: Boundary, tools: seq<string>)
  {
    forall x :: x in tools <==> exists tool :: Offered(t, b, q, tool) && x == t.strip(t.show(Str(tool)))
  }

  /**
   * Event `k` of a boundary: what was proposed last, the boundary's own task,
   * stage, state and images, the earlier decisions, the critics only at first,
   * and exactly the tools that may be chosen.
   */
  ghost predicate Presents(t: Text, io: Surroundings, b: Binding, q: Boundary, e: Role1Event, k: nat, tool: string,
                           result: map<Key, Value>, earlier: seq<Role1Effect>)
  {
    && Shows(t, io, e, tool, result)
    && e.eventId == t.strip(t.show(Str(io.eventName(k)))) && e.task == t.strip(t.show(Str(q.task)))
    && e.stepIndex == q.stepIndex && e.currentStage == Some(q.stage) && e.currentTool == Some(tool)
    && StagesOf(t, e.allowedStages)
    && e.criticProposals == (if k == 0 then q.critics else [])
    && PlainJson(q.images) == Some(Thaw(e.imageReferences)) && PlainJson(q.taskState) == Some(Thaw(e.taskState))
    && TellsHistory(e.history, earlier) && OffersExactly(t, b, q, e.allowedTools)
    && ((forall p <- q.critics :: p.Valid(t)) ==> e.Valid(t))
  }

  lemma {:induction false} StrippedMembers(t: Text, names: seq<string>, xs: seq<string>, x: string)
    requires AllNonempty(t, Strs(names).items) == Ok(xs)
    ensures x in xs <==> exists name :: name in names && x == t.strip(t.show(Str(name)))
  {
    var items := Strs(names).items;
    if name :| name in names && x == t.strip(t.show(Str(name))) {
      var i :| 0 <= i < |names| && names[i] == name;
      assert xs[i] == x;
    }
    if x in xs {
      var i :| 0 <= i < |xs| && xs[i] == x;
      assert names[i] in names;
    }
  }

  lemma OffersListed(t: Text, b: Binding, q: Boundary, allowed: seq<string>, tools: seq<string>)
    requires allowed == AllowList(b, AuthorizedTools(t, q.suggestions), RequiredOf(t, q))
    requires AllNonempty(t, Strs(allowed).items) == Ok(tools)
    ensures OffersExactly(t, b, q, tools)
  {
    hide AllowList, AuthorizedTools, RequiredOf, Offered, AllNonempty;
    forall x ensures x in tools <==> exists tool :: Offered(t, b, q, tool) && x == t.strip(t.show(Str(tool))) {
      StrippedMembers(t, allowed, tools, x);
      if name :| name in allowed && x == t.strip(t.show(Str(name))) {
        AllowListMeans(t, b, q, name);
      }
      if tool :| Offered(t, b, q, tool) && x == t.strip(t.show(Str(tool))) {
        AllowListMeans(t, b, q, tool);
      }
    }
  }

  lemma StagesListed(t: Text, stages: seq<string>)
    requires AllNonempty(t, Strs(["observe", "approach", "engage", "recover", "verify", "closed_loop_execution"]).items) == Ok(stages)
    ensures StagesOf(t, stages)
  {
  }

  lemma HistoryIsTold(ds: seq<Role1Effect>, history: seq<Value>)
    requires PlainJson(List(HistoryRows(ds))).Some? && history == Freeze(PlainJson(List(HistoryRows(ds))).value).items
    ensures TellsHistory(history, ds)
  {
    var rows := HistoryRows(ds);
    forall i | 0 <= i < |ds| ensures |history| == |ds| && TellsDecision(Thaw(history[i]), ds[i]) {
      RowIsPlain(ds[i]);
      PlainJsonOfPlain(rows[i]);
      ThawFreeze(rows[i]);
    }
  }

  lemma RowIsPlain(d: Role1Effect)
    ensures Plain(HistoryRow(d)) && TellsDecision(HistoryRow(d), d)
  {
  }

  /** What a made event takes over from its arguments. */
  lemma MadeEventSays(t: Text, a: EventArguments)
    requires MakeEvent(t, a).Ok?
    ensures var e := MakeEvent(t, a).value;
      && e.eventId == t.strip(t.show(a.eventId)) && e.task == t.strip(t.show(a.task)) && Int(e.stepIndex) == a.stepIndex
      && (a.currentStage.Str? ==> e.currentStage == Some(a.currentStage.s))
      && (a.currentTool.Str? ==> e.currentTool == Some(a.currentTool.s))
      && AllNonempty(t, a.allowedTools) == Ok(e.allowedTools) && AllNonempty(t, a.allowedStages) == Ok(e.allowedStages)
      && e.toolProposals == a.toolProposals && e.criticProposals == a.criticProposals
      && PlainJson(a.imageReferences).Some? && e.imageReferences == Freeze(PlainJson(a.imageReferences).value)
      && PlainJson(a.taskState).Some? && e.taskState == Freeze(PlainJson(a.taskState).value)
      && PlainJson(List(a.history)).Some? && e.history == Freeze(PlainJson(List(a.history)).value).items
  {
    hide AllNonempty, GoodImages, EventBlind, Unique, Role1Event.ProposalIds, Freeze;
  }

  lemma EventPresents(t: Text, io: Surroundings, b: Binding, q: Boundary, index: nat, tool: string, allowed: seq<string>,
                      result: map<Key, Value>, critics: seq<CriticProposal>, earlier: seq<Role1Effect>)
    requires Lawful(t) && allowed == AllowList(b, AuthorizedTools(t, q.suggestions), RequiredOf(t, q))
    requires critics == if index == 0 then q.critics else []
    requires EventFor(t, io, q, index, tool, allowed, result, critics, HistoryRows(earlier)).Ok?
    ensures Presents(t, io, b, q, EventFor(t, io, q, index, tool, allowed, result, critics, HistoryRows(earlier)).value, index,
                     tool, result, earlier)
  {
    hide AllowList, AuthorizedTools, RequiredOf, OffersExactly, TellsHistory, HistoryRows, MakeEvent, MakeToolProposal,
      Role1Event.Valid, CriticProposal.Valid, ToolProposal.Valid, Lawful, Strs, Freeze, Thaw, PlainJson, AllNonempty, StagesOf,
      NamesOf;
    var p := ProposalFor(t, io, index, tool, result).value;
    var a := ArgumentsFor(io, q, index, tool, allowed, p, critics, HistoryRows(earlier));
    var e := MakeEvent(t, a).value;
    MadeEventSays(t, a);
    var evidence := List([Str("artifact:" + io.artifactName(index))]);
    MadeProposalSays(t, Str(io.proposalName(index)), Str(tool), io.summarize(result), evidence);
    OffersListed(t, b, q, allowed, e.allowedTools);
    StagesListed(t, e.allowedStages);
    HistoryIsTold(earlier, e.history);
    ThawFreeze(PlainJson(q.images).value);
    ThawFreeze(PlainJson(q.taskState).value);
    EventIsValid(t, a, p, Str(io.proposalName(index)), Str(tool), io.summarize(result), evidence);
  }

  lemma EventIsValid(t: Text, a: EventArguments, p: ToolProposal, id: Value, tool: Value, proposal: Value, evidence: Value)
    requires Lawful(t) && MakeToolProposal(t, id, tool, proposal, evidence) == Ok(p) && a.toolProposals == [p]
    requires MakeEvent(t, a).Ok?
    ensures (forall c <- a.criticProposals :: c.Valid(t)) ==> MakeEvent(t, a).value.Valid(t)
  {
    hide MakeEvent, MakeToolProposal, Role1Event.Valid, CriticProposal.Valid, ToolProposal.Valid, Lawful;
    MadeToolProposalIsValid(t, id, tool, proposal, evidence);
    if forall c <- a.criticProposals :: c.Valid(t) {
      MadeEventIsValid(t, a);
    }
  }

  lemma MadeProposalSays(t: Text, id: Value, tool: Value, proposal: Value, evidence: Value)
    requires MakeToolProposal(t, id, tool, proposal, evidence).Ok?
    ensures var p := MakeToolProposal(t, id, tool, proposal, evidence).value;
      p.tool == t.strip(t.show(tool)) && PlainJson(proposal).Some? && p.proposal == Freeze(PlainJson(proposal).value)
  {
    hide ReadEvidence, NoControlClaims, SeedBlind, Freeze, PlainJson;
  }

  ghost predicate EventsPresent(t: Text, io: Surroundings, b: Binding, q: Boundary, trace: Trace)
  {
    && |trace.events| <= |trace.invocations| + 1 && |trace.events| <= |trace.decisions|
    && forall k: nat | k < |trace.events| ::
         Presents(t, io, b, q, trace.events[k], k, ToolAt(b, trace.invocations, k), ResultAt(q, trace.invocations, k),
                  trace.decisions[..k])
  }

  /** The k-th model reply was prepared and stored, and the effect carries that decision. */
  ghost predicate Answers(t: Text, catalog: Catalog, files: Files, e: Role1Event, reply: Option<Value>, d: Role1Effect)
    requires Digests(t)
  {
    && Published(t, catalog, files, d) && reply.Some? && d.decisionId in files
    && PreparedAs(t, catalog, e, reply.value, d.decisionId, files[d.decisionId])
    && (e.Valid(t) ==> Carries(d, Prepare(t, catalog, e, reply.value).value.decision,
                               Prepare(t, catalog, e, reply.value).value.digest))
  }

  /** Every decision is the model's reply to its event, persisted. */
  ghost predicate Audited(t: Text, catalog: Catalog, files: Files, io: Surroundings, events: seq<Role1Event>,
                          decisions: seq<Role1Effect>)
    requires Digests(t)
  {
    && |events| == |decisions|
    && forall k: nat | k < |events| :: Answers(t, catalog, files, events[k], io.model(k, events[k]), decisions[k])
  }

  /** Decision `d` asked for exactly this invocation: it approved nothing to return, and chose this offered tool. */
  ghost predicate AskedFor(t: Text, b: Binding, q: Boundary, d: Role1Effect, current: string, proposed: Option<seq<Value>>,
                           tool: string)
  {
    && !d.termination.approved && d.directAction.None? && tool == Chosen(d, current) && Offered(t, b, q, tool)
    && (RequiredOf(t, q).Some? ==> tool == RequiredOf(t, q).value.tool)
    && tool != VLA_TOOL && tool != b.vlaTool && !(tool == current && d.disposition == Accept && proposed.Some?)
  }

  function Chosen(d: Role1Effect, current: string): string
  {
    if d.selectedTool.Some? then d.selectedTool.value else current
  }

  predicate ParametersOf(d: Role1Effect, chosen: map<Key, Value>)
  {
    var modifications := Thaw(d.modifications);
    modifications.Dict? && Get(modifications.fields, Parameters, Dict(map[])) == Dict(chosen)
  }

  /** Frozen parameters first, then those the model chose, then the boundary's own. */
  predicate PaidOut(q: Boundary, frozen: map<Key, Value>, chosen: map<Key, Value>, payload: map<Key, Value>)
  {
    && (forall k | k in frozen :: k in payload && payload[k] == frozen[k])
    && (forall k | k in chosen && k !in frozen :: k in payload && payload[k] == chosen[k])
    && (forall k | k in payload && k !in chosen && k !in frozen :: IsDefault(q, k, payload[k]))
    && Observation in payload && PendingVlaActions in payload && Task in payload && StepIndex in payload
  }

  function FrozenParameters(t: Text, q: Boundary): map<Key, Value>
  {
    if RequiredOf(t, q).Some? then RequiredOf(t, q).value.parameters else map[]
  }

  ghost predicate Invoked(t: Text, io: Surroundings, q: Boundary, d: Role1Effect, k: nat, x: Invocation)
  {
    && io.invoke(k, x.tool, x.payload) == Some(x.reply)
    && exists chosen :: ParametersOf(d, chosen) && PaidOut(q, FrozenParameters(t, q), chosen, x.payload)
  }

  ghost predicate InvocationsFollow(t: Text, io: Surroundings, b: Binding, q: Boundary, trace: Trace)
  {
    && |trace.invocations| <= |trace.decisions|
    && forall k: nat | k < |trace.invocations| ::
         && Invoked(t, io, q, trace.decisions[k], k, trace.invocations[k])
         && AskedFor(t, b, q, trace.decisions[k], ToolAt(b, trace.invocations, k), ProposedAt(q, trace.invocations, k),
                     trace.invocations[k].tool)
  }

  /** Everything that was done so far is accounted for. */
  ghost predicate Sound(t: Text, catalog: Catalog, files: Files, io: Surroundings, b: Binding, q: Boundary, trace: Trace)
    requires Digests(t)
  {
    && Audited(t, catalog, files, io, trace.events, trace.decisions) && EventsPresent(t, io, b, q, trace)
    && InvocationsFollow(t, io, b, q, trace)
  }

  lemma NothingDone(t: Text, catalog: Catalog, files: Files, io: Surroundings, b: Binding, q: Boundary)
    requires Digests(t)
    ensures Sound(t, catalog, files, io, b, q, Trace([], [], []))
  {
  }

  lemma StillSound(t: Text, catalog: Catalog, before: Files, files: Files, io: Surroundings, b: Binding, q: Boundary,
                   trace: Trace)
    requires Digests(t) && Sound(t, catalog, before, io, b, q, trace)
    requires forall id | id in before :: id in files && files[id] == before[id]
    ensures Sound(t, catalog, files, io, b, q, trace)
  {
    hide Published, PreparedAs, EventsPresent, InvocationsFollow, Carries;
    forall k: nat | k < |trace.decisions| ensures Published(t, catalog, files, trace.decisions[k]) {
      assert Answers(t, catalog, before, trace.events[k], io.model(k, trace.events[k]), trace.decisions[k]);
      PublishedStays(t, catalog, before, files, trace.decisions[k]);
    }
  }

  lemma OneMoreAnswer(t: Text, catalog: Catalog, files: Files, io: Surroundings, b: Binding, q: Boundary, trace: Trace,
                      asked: Trace, e: Role1Event, d: Role1Effect)
    requires Digests(t) && Sound(t, catalog, files, io, b, q, trace) && |trace.events| == |trace.invocations|
    requires Answers(t, catalog, files, e, io.model(|trace.events|, e), d)
    requires var n := |trace.events|;
      Presents(t, io, b, q, e, n, ToolAt(b, trace.invocations, n), ResultAt(q, trace.invocations, n), trace.decisions)
    requires asked == trace.(events := trace.events + [e], decisions := trace.decisions + [d])
    ensures Sound(t, catalog, files, io, b, q, asked)
  {
    hide Answers, Presents, Invoked, AskedFor, ToolAt, ResultAt, ProposedAt;
    assert asked.decisions[..|trace.decisions|] == trace.decisions;
    forall k: nat | k < |trace.events| ensures asked.decisions[..k] == trace.decisions[..k] { }
  }

  lemma OneMoreInvocation(t: Text, catalog: Catalog, files: Files, io: Surroundings, b: Binding, q: Boundary, asked: Trace,
                          trace: Trace, x: Invocation)
    requires Digests(t) && Sound(t, catalog, files, io, b, q, asked) && |asked.decisions| == |asked.invocations| + 1
    requires trace == asked.(invocations := asked.invocations + [x])
    requires var n := |asked.invocations|;
      && Invoked(t, io, q, asked.decisions[n], n, x)
      && AskedFor(t, b, q, asked.decisions[n], ToolAt(b, asked.invocations, n), ProposedAt(q, asked.invocations, n), x.tool)
    ensures Sound(t, catalog, files, io, b, q, trace)
  {
    hide Answers, Presents, Invoked, AskedFor, ToolAt, ResultAt, ProposedAt, Audited;
    forall k: nat | k <= |asked.invocations|
      ensures ToolAt(b, trace.invocations, k) == ToolAt(b, asked.invocations, k)
      ensures ResultAt(q, trace.invocations, k) == ResultAt(q, asked.invocations, k)
      ensures ProposedAt(q, trace.invocations, k) == ProposedAt(q, asked.invocations, k)
    {
      SamePast(b, q, asked.invocations, trace.invocations, k);
    }
  }

  lemma SamePast(b: Binding, q: Boundary, xs: seq<Invocation>, ys: seq<Invocation>, k: nat)
    requires xs <= ys && k <= |xs|
    ensures ToolAt(b, xs, k) == ToolAt(b, ys, k) && ResultAt(q, xs, k) == ResultAt(q, ys, k)
    ensures ProposedAt(q, xs, k) == ProposedAt(q, ys, k)
  {
    hide VlaResult, ActionsOf;
  }

  // ---- What a boundary may return ----------------------------------------

  /** The result is what the last persisted decision approves, of what was proposed last. */
  ghost predicate Backed(b: Binding, q: Boundary, trace: Trace, r: ActorResult)
  {
    && |trace.decisions| == |trace.invocations| + 1
    && var n := |trace.invocations|;
       var d, current := trace.decisions[n], ToolAt(b, trace.invocations, n);
       if r.terminate then
         d.termination.approved && r.actions == [] && r.reason == d.termination.reason && r.selectedTool.None?
       else if r.selectedTool.None? then
         !d.termination.approved && d.directAction.Some? && r.actions == [ActionContract.Serialize(d.directAction.value)]
       else
         && !d.termination.approved && d.directAction.None? && d.disposition == Accept
         && r.selectedTool == Some(Chosen(d, current))
         && (if r.selectedTool == Some(current) && ProposedAt(q, trace.invocations, n).Some?
             then Some(r.actions) == ProposedAt(q, trace.invocations, n)
             else r.selectedTool.value in {VLA_TOOL, b.vlaTool} && r.actions == q.vlaActions)
  }

  /** The result comes from the latest invocation of exactly the frozen tool, which got every frozen parameter. */
  ghost predicate Recovers(required: Required, trace: Trace, r: ActorResult)
  {
    && !r.terminate && r.selectedTool == Some(required.tool) && r.actions != []
    && trace.invocations != [] && trace.decisions != []
    && var last := trace.invocations[|trace.invocations| - 1];
       var d := trace.decisions[|trace.decisions| - 1];
       && last.tool == required.tool && ActionsOf(last.reply) == Some(r.actions)
       && (forall k | k in required.parameters :: k in last.payload && last.payload[k] == required.parameters[k])
       && d.disposition == Accept && d.directAction.None? && !d.termination.approved
  }

  /** Why a decision is turned down, or what it lacks to be carried out. */
  ghost predicate TurnsDown(t: Text, b: Binding, q: Boundary, d: Role1Effect, current: string, error: ActorError)
  {
    var tool, required := Chosen(d, current), RequiredOf(t, q);
    match error
    case TerminatesRecovery => required.Some? && d.termination.approved
    case BypassesRecovery => required.Some? && !d.termination.approved && d.directAction.Some?
    case OutsideAllowList => !d.termination.approved && d.directAction.None? && !Offered(t, b, q, tool)
    case MustRecover => !d.termination.approved && d.directAction.None? && required.Some? && tool != required.value.tool
    case UnmaterializedRejection =>
      !d.termination.approved && d.directAction.None? && tool in {VLA_TOOL, b.vlaTool} && d.disposition != Accept
    case _ => false
  }

  /** A decision that made it to the tool, but whose parameters are no object, or whose tool raised. */
  ghost predicate ToolCannotRun(t: Text, io: Surroundings, b: Binding, q: Boundary, trace: Trace, error: ActorError)
  {
    && |trace.decisions| == |trace.invocations| + 1
    && var n := |trace.invocations|;
       var d, tool := trace.decisions[n], Chosen(trace.decisions[n], ToolAt(b, trace.invocations, n));
       && AskedFor(t, b, q, d, ToolAt(b, trace.invocations, n), ProposedAt(q, trace.invocations, n), tool)
       && match error
          case BadParameters => forall chosen :: !ParametersOf(d, chosen)
          case ToolFailed =>
            exists chosen, payload ::
              ParametersOf(d, chosen) && PaidOut(q, FrozenParameters(t, q), chosen, payload) && io.invoke(n, tool, payload).None?
          case _ => false
  }

  /** The model's reply is one that prepares, has its place in the store, and stores nothing that is not read back. */
  predicate Acceptable(t: Text, catalog: Catalog, files: Files, e: Role1Event, raw: Value)
    requires Digests(t)
  {
    var p := Prepare(t, catalog, e, raw);
    && p.Ok? && e.Valid(t) && TextsAreBlind(t, p.value.decision) && (forall x <- e.toolProposals :: !x.proposal.Null?)
    && (p.value.decision.decisionId in files ==> files[p.value.decision.decisionId] == Envelope(e, p.value.decision))
  }

  /** The next event could not be made, or the model gave no acceptable reply to it. */
  ghost predicate NoAnswer(t: Text, catalog: Catalog, files: Files, io: Surroundings, b: Binding, q: Boundary, trace: Trace,
                           error: ActorError)
    requires Digests(t)
  {
    && |trace.decisions| == |trace.invocations|
    && var n := |trace.invocations|;
       var tool, result := ToolAt(b, trace.invocations, n), ResultAt(q, trace.invocations, n);
       match error
       case BadProposal => NoProposal(t, io, n, tool, result)
       case BadEvent => exists a :: Describes(t, io, b, q, n, tool, result, trace.decisions, a) && MakeEvent(t, a).Err?
       case ModelFailed =>
         exists e :: Presents(t, io, b, q, e, n, tool, result, trace.decisions) && io.model(n, e).None?
       case NotAccepted(_) =>
         exists e :: Presents(t, io, b, q, e, n, tool, result, trace.decisions) && io.model(n, e).Some?
                     && !Acceptable(t, catalog, files, e, io.model(n, e).value)
       case _ => false
  }

  /** The summary of the result is no proposal under its name and artifact. */
  predicate NoProposal(t: Text, io: Surroundings, k: nat, tool: string, result: map<Key, Value>)
  {
    MakeToolProposal(t, Str(io.proposalName(k)), Str(tool), io.summarize(result),
                     List([Str("artifact:" + io.artifactName(k))])).Err?
  }

  /** The arguments of event `k`, before they are checked. */
  ghost predicate Describes(t: Text, io: Surroundings, b: Binding, q: Boundary, k: nat, tool: string,
                            result: map<Key, Value>, earlier: seq<Role1Effect>, a: EventArguments)
  {
    && a.eventId == Str(io.eventName(k)) && a.task == Str(q.task) && a.stepIndex == Int(q.stepIndex)
    && a.currentStage == Str(q.stage) && a.currentTool == Str(tool)
    && a.allowedStages == Strs(["observe", "approach", "engage", "recover", "verify", "closed_loop_execution"]).items
    && (forall v :: v in a.allowedTools <==> v.Str? && Offered(t, b, q, v.s))
    && a.imageReferences == q.images && a.taskState == q.taskState
    && |a.toolProposals| == 1 && a.toolProposals[0].tool == t.strip(t.show(Str(tool)))
    && PlainJson(io.summarize(result)).Some?
    && a.toolProposals[0].proposal == Freeze(PlainJson(io.summarize(result)).value)
    && a.criticProposals == (if k == 0 then q.critics else [])
    && |a.history| == |earlier| && forall i | 0 <= i < |earlier| :: TellsDecision(a.history[i], earlier[i])
  }

  /** Why there is no result: the boundary itself, a decision turned down, a tool, the model, or the bound. */
  ghost predicate Explains(t: Text, catalog: Catalog, files: Files, io: Surroundings, b: Binding, q: Boundary, maximum: nat,
                           trace: Trace, error: ActorError)
    requires Digests(t)
  {
    match error
    case OtherTask => q.task != b.task
    case NoActions => q.vlaActions == []
    case NoCurrentStep => q.active.Some? && !q.active.value.Dict? && !q.active.value.Proxy?
    case StepNotAuthorized =>
      && q.active.Some? && (q.active.value.Dict? || q.active.value.Proxy?)
      && var tool := t.strip(t.show(Get(q.active.value.fields, Tool, Str(""))));
         tool == "" || !FrozenIntoRule(t, q.suggestions, tool)
    case BadRecoveryParameters =>
      && q.active.Some? && (q.active.value.Dict? || q.active.value.Proxy?)
      && var parameters := Get(q.active.value.fields, Parameters, Dict(map[])); !parameters.Dict? && !parameters.Proxy?
    case BadProposal | BadEvent | ModelFailed | NotAccepted(_) => NoAnswer(t, catalog, files, io, b, q, trace, error)
    case BadParameters | ToolFailed => ToolCannotRun(t, io, b, q, trace, error)
    case LoopExhausted => |trace.decisions| == |trace.invocations| == maximum
    case _ =>
      && |trace.decisions| == |trace.invocations| + 1
      && TurnsDown(t, b, q, trace.decisions[|trace.invocations|], ToolAt(b, trace.invocations, |trace.invocations|), error)
  }

  lemma ExplainsWhen(t: Text, catalog: Catalog, files: Files, io: Surroundings, b: Binding, q: Boundary, maximum: nat,
                     trace: Trace)
    requires Digests(t)
    ensures q.task != b.task ==> Explains(t, catalog, files, io, b, q, maximum, trace, OtherTask)
    ensures q.vlaActions == [] ==> Explains(t, catalog, files, io, b, q, maximum, trace, NoActions)
    ensures |trace.decisions| == |trace.invocations| == maximum ==>
              Explains(t, catalog, files, io, b, q, maximum, trace, LoopExhausted)
    ensures forall error: ActorError |
              && (error.BadProposal? || error.BadEvent? || error.ModelFailed? || error.NotAccepted?)
              && NoAnswer(t, catalog, files, io, b, q, trace, error) ::
              Explains(t, catalog, files, io, b, q, maximum, trace, error)
    ensures forall error: ActorError | (error.BadParameters? || error.ToolFailed?) && ToolCannotRun(t, io, b, q, trace, error) ::
              Explains(t, catalog, files, io, b, q, maximum, trace, error)
  {
    hide NoAnswer, ToolCannotRun;
  }

  lemma RequiredErrors(t: Text, q: Boundary)
    requires q.active.Some?
    ensures var r := ReadRequired(t, q.active.value, AuthorizedTools(t, q.suggestions));
      && (r.Ok? ==> RequiredOf(t, q) == Some(r.value))
      && (r.Err? ==> RequiredOf(t, q).None?)
    ensures forall catalog, files, io, b, maximum, trace |
              Digests(t) && ReadRequired(t, q.active.value, AuthorizedTools(t, q.suggestions)).Err? ::
              Explains(t, catalog, files, io, b, q, maximum, trace,
                       ReadRequired(t, q.active.value, AuthorizedTools(t, q.suggestions)).error)
  {
    hide FrozenIntoRule, AuthorizedTools, Get;
    if q.active.value.Dict? || q.active.value.Proxy? {
      AuthorizedMeans(t, q.suggestions, t.strip(t.show(Get(q.active.value.fields, Tool, Str("")))));
    }
  }

  /** What weighing a decision comes to: a backed result, a tool it asked for, or a reason to turn it down. */
  lemma WeighedReturn(t: Text, b: Binding, q: Boundary, asked: Trace, allowed: seq<string>)
    requires |asked.decisions| == |asked.invocations| + 1 && q.vlaActions != []
    requires allowed == AllowList(b, AuthorizedTools(t, q.suggestions), RequiredOf(t, q))
    ensures var n := |asked.invocations|;
      var d, current, proposed := asked.decisions[n], ToolAt(b, asked.invocations, n), ProposedAt(q, asked.invocations, n);
      var v := Weigh(b, d, current, proposed, allowed, RequiredOf(t, q), q.vlaActions);
      && (v.Return? ==> Backed(b, q, asked, v.result) && (!v.result.terminate ==> v.result.actions != []))
      && (v.Invoke? ==> AskedFor(t, b, q, d, current, proposed, v.tool))
      && (v.Refuse? ==> TurnsDown(t, b, q, d, current, v.error))
  {
    hide ActionContract.Serialize, AllowList, AuthorizedTools, RequiredOf, Offered, VlaResult;
    var n := |asked.invocations|;
    AllowListMeans(t, b, q, Chosen(asked.decisions[n], ToolAt(b, asked.invocations, n)));
  }

  /** While a frozen step with a tool other than the VLA is active, a backed result is that step's own proposal. */
  lemma BackedRecovers(t: Text, catalog: Catalog, files: Files, io: Surroundings, b: Binding, q: Boundary, trace: Trace,
                       required: Required, r: ActorResult)
    requires Digests(t) && Sound(t, catalog, files, io, b, q, trace) && Backed(b, q, trace, r)
    requires RequiredOf(t, q) == Some(required) && required.tool !in {VLA_TOOL, b.vlaTool}
    requires !r.terminate && r.selectedTool == Some(required.tool) && r.actions != []
    ensures Recovers(required, trace, r)
  {
    hide *;
    LastProposal(b, q, trace, required.tool, r);
    var n := |trace.invocations|;
    SoundInvocation(t, catalog, files, io, b, q, trace, n - 1);
    FrozenReachesTool(t, io, q, trace.decisions[n - 1], n - 1, trace.invocations[n - 1]);
    RecoversWhen(required, trace, r);
  }

  /** A result of a tool other than the VLA is the proposal of its latest invocation, accepted. */
  lemma LastProposal(b: Binding, q: Boundary, trace: Trace, tool: string, r: ActorResult)
    requires Backed(b, q, trace, r) && tool !in {VLA_TOOL, b.vlaTool} && !r.terminate && r.selectedTool == Some(tool)
    ensures trace.invocations != [] && |trace.decisions| == |trace.invocations| + 1
    ensures var n := |trace.invocations|;
      && trace.invocations[n - 1].tool == tool && ActionsOf(trace.invocations[n - 1].reply) == Some(r.actions)
      && trace.decisions[n].disposition == Accept && trace.decisions[n].directAction.None?
      && !trace.decisions[n].termination.approved
  {
    hide ActionsOf, VlaResult, ActionContract.Serialize;
  }

  lemma SoundInvocation(t: Text, catalog: Catalog, files: Files, io: Surroundings, b: Binding, q: Boundary, trace: Trace, k: nat)
    requires Digests(t) && Sound(t, catalog, files, io, b, q, trace) && k < |trace.invocations|
    ensures k < |trace.decisions| && Invoked(t, io, q, trace.decisions[k], k, trace.invocations[k])
  {
    hide Audited, EventsPresent, Invoked, AskedFor, ToolAt, ProposedAt;
  }

  lemma RecoversWhen(required: Required, trace: Trace, r: ActorResult)
    requires !r.terminate && r.selectedTool == Some(required.tool) && r.actions != []
    requires trace.invocations != [] && |trace.decisions| == |trace.invocations| + 1
    requires var n := |trace.invocations|;
      var last, d := trace.invocations[n - 1], trace.decisions[n];
      && last.tool == required.tool && ActionsOf(last.reply) == Some(r.actions)
      && (forall k | k in required.parameters :: k in last.payload && last.payload[k] == required.parameters[k])
      && d.disposition == Accept && d.directAction.None? && !d.termination.approved
    ensures Recovers(required, trace, r)
  {
    hide ActionsOf;
  }

  lemma FrozenReachesTool(t: Text, io: Surroundings, q: Boundary, d: Role1Effect, k: nat, x: Invocation)
    requires Invoked(t, io, q, d, k, x)
    ensures forall key | key in FrozenParameters(t, q) :: key in x.payload && x.payload[key] == FrozenParameters(t, q)[key]
    ensures RequiredOf(t, q).Some? ==> FrozenParameters(t, q) == RequiredOf(t, q).value.parameters
  {
    hide ParametersOf, RequiredOf, IsDefault;
  }

  class Role1EpisodeActor {
    const store: Role1DecisionStore
    const binding: Binding
    const maximum: nat

    ghost predicate Valid()
    {
      Lawful(store.text) && maximum >= 1
    }

    constructor (s: Role1DecisionStore, b: Binding, m: nat)
      requires Lawful(s.text) && m >= 1
      ensures Valid() && store == s && binding == b && maximum == m
    {
      store, binding, maximum := s, b, m;
    }

    /** Put one event to the model; only a persisted, re-validated decision comes back. */
    method Ask(io: Surroundings, index: nat, event: Result<Role1Event, ActorError>) returns (r: Result<Role1Effect, ActorError>)
      requires Valid()
      modifies store`files
      ensures forall id | id in old(store.files) :: id in store.files && store.files[id] == old(store.files)[id]
      ensures Digests(store.text)
      ensures event.Err? ==> r == Err(event.error)
      ensures event.Ok? ==>
        var reply := io.model(index, event.value);
        && (r.Ok? ==> Answers(store.text, store.catalog, store.files, event.value, reply, r.value))
        && (r.Err? ==>
              if reply.None? then r.error == ModelFailed
              else r.error.NotAccepted? && !Acceptable(store.text, store.catalog, store.files, event.value, reply.value))
    {
      hide Published, PreparedAs, Prepare, Role1Event.Valid, TextsAreBlind, Envelope, Carries;
      LawfulDigests(store.text);
      if event.Err? {
        return Err(event.error);
      }
      var raw := io.model(index, event.value);
      if raw.None? {
        return Err(ModelFailed);
      }
      var effect := store.Decide(event.value, raw.value);
      return if effect.Ok? then Ok(effect.value) else Err(NotAccepted(effect.error));
    }

    method InvokeTool(io: Surroundings, q: Boundary, index: nat, tool: string, d: Role1Effect, frozen: map<Key, Value>)
      returns (r: Result<Invocation, ActorError>)
      ensures r.Ok? ==>
        && r.value.tool == tool && io.invoke(index, tool, r.value.payload) == Some(r.value.reply)
        && exists chosen :: ParametersOf(d, chosen) && PaidOut(q, frozen, chosen, r.value.payload)
      ensures r.Err? ==> CannotInvoke(io, q, index, tool, d, frozen, r.error)
    {
      var modifications := Thaw(d.modifications);
      if !modifications.Dict? {
        return Err(BadParameters);
      }
      var parameters := Get(modifications.fields, Parameters, Dict(map[]));
      if !parameters.Dict? {
        return Err(BadParameters);
      }
      assert ParametersOf(d, parameters.fields);
      var payload := PayloadFor(q, parameters.fields, frozen);
      assert PaidOut(q, frozen, parameters.fields, payload);
      var reply := io.invoke(index, tool, payload);
      return if reply.None? then Err(ToolFailed) else Ok(Invocation(tool, payload, reply.value));
    }

    /** Put the current proposal to the model as the next event. */
    method PutForReview(io: Surroundings, q: Boundary, trace: Trace, tool: string, allowed: seq<string>,
                        result: map<Key, Value>, critics: seq<CriticProposal>)
      returns (r: Result<Role1Effect, ActorError>, asked: Trace)
      requires Valid() && Digests(store.text) && Sound(store.text, store.catalog, store.files, io, binding, q, trace)
      requires allowed == AllowList(binding, AuthorizedTools(store.text, q.suggestions), RequiredOf(store.text, q))
      requires |trace.events| == |trace.decisions| == |trace.invocations|
      requires tool == ToolAt(binding, trace.invocations, |trace.invocations|)
      requires result == ResultAt(q, trace.invocations, |trace.invocations|)
      requires critics == if trace.invocations == [] then q.critics else []
      modifies store`files
      ensures forall id | id in old(store.files) :: id in store.files && store.files[id] == old(store.files)[id]
      ensures Sound(store.text, store.catalog, store.files, io, binding, q, asked) && asked.invocations == trace.invocations
      ensures r.Ok? ==> |asked.events| == |trace.events| + 1 && asked.decisions == trace.decisions + [r.value]
      ensures r.Err? ==>
        && asked == trace && (r.error.BadProposal? || r.error.BadEvent? || r.error.ModelFailed? || r.error.NotAccepted?)
        && NoAnswer(store.text, store.catalog, store.files, io, binding, q, trace, r.error)
    {
      hide Sound, EventFor, Presents, Answers, Acceptable, Lawful, Digests, AllowList, AuthorizedTools, RequiredOf, ToolAt,
        ResultAt, HistoryRows, NoAnswer;
      asked := trace;
      var index, history := |trace.events|, HistoryRows(trace.decisions);
      var event := EventFor(store.text, io, q, index, tool, allowed, result, critics, history);
      ghost var before := store.files;
      if event.Ok? {
        EventPresents(store.text, io, binding, q, index, tool, allowed, result, critics, trace.decisions);
      }
      r := Ask(io, index, event);
      StillSound(store.text, store.catalog, before, store.files, io, binding, q, trace);
      if r.Ok? {
        asked := trace.(events := trace.events + [event.value], decisions := trace.decisions + [r.value]);
        OneMoreAnswer(store.text, store.catalog, store.files, io, binding, q, trace, asked, event.value, r.value);
      } else {
        Unanswered(store.text, store.catalog, store.files, io, binding, q, trace, tool, allowed, result, critics, r.error);
      }
    }

    /** Make the invocation the last decision asked for. */
    method FollowUp(io: Surroundings, q: Boundary, asked: Trace, tool: string, frozen: map<Key, Value>)
      returns (r: Result<Invocation, ActorError>, trace: Trace)
      requires Digests(store.text) && Sound(store.text, store.catalog, store.files, io, binding, q, asked)
      requires |asked.decisions| == |asked.invocations| + 1 && frozen == FrozenParameters(store.text, q)
      requires var n := |asked.invocations|;
        AskedFor(store.text, binding, q, asked.decisions[n], ToolAt(binding, asked.invocations, n),
                 ProposedAt(q, asked.invocations, n), tool)
      ensures Sound(store.text, store.catalog, store.files, io, binding, q, trace)
      ensures r.Ok? ==> trace == asked.(invocations := asked.invocations + [r.value]) && r.value.tool == tool
      ensures r.Err? ==>
        && trace == asked && (r.error == BadParameters || r.error == ToolFailed)
        && ToolCannotRun(store.text, io, binding, q, asked, r.error)
    {
      hide Sound, AskedFor, ToolAt, ProposedAt, ParametersOf, PaidOut, FrozenParameters, CannotInvoke, Invoked, ToolCannotRun,
        Digests;
      trace := asked;
      var index := |asked.invocations|;
      r := InvokeTool(io, q, index, tool, asked.decisions[index], frozen);
      if r.Err? {
        CannotRun(store.text, io, binding, q, asked, tool, frozen, r.error);
      } else {
        trace := asked.(invocations := asked.invocations + [r.value]);
        InvokedAs(store.text, io, q, asked.decisions[index], index, frozen, r.value);
        OneMoreInvocation(store.text, store.catalog, store.files, io, binding, q, asked, trace, r.value);
      }
    }

    /**
     * Resolve one boundary.  Every event presents the boundary and what was
     * proposed last; at most `maximum` decisions are made, each the model's
     * reply to its event, persisted; each invocation is one a decision asked
     * for; a result is backed by the last decision; and an error is explained.
     * While a frozen recovery step with a tool other than the VLA is active,
     * nothing but that step's own proposal can be returned.
     */
    method DecideAction(io: Surroundings, q: Boundary) returns (r: Result<ActorResult, ActorError>, trace: Trace)
      requires Valid()
      modifies store`files
      ensures |trace.decisions| <= maximum && |trace.invocations| <= |trace.decisions|
      ensures forall id | id in old(store.files) :: id in store.files && store.files[id] == old(store.files)[id]
      ensures Digests(store.text) && Sound(store.text, store.catalog, store.files, io, binding, q, trace)
      ensures r.Ok? ==> Backed(binding, q, trace, r.value) && (!r.value.terminate ==> r.value.actions != [])
      ensures r.Ok? && q.active.Some? ==>
        && RequiredOf(store.text, q).Some?
        && (RequiredOf(store.text, q).value.tool !in {VLA_TOOL, binding.vlaTool} ==>
              Recovers(RequiredOf(store.text, q).value, trace, r.value))
      ensures r.Err? ==> Explains(store.text, store.catalog, store.files, io, binding, q, maximum, trace, r.error)
    {
      hide Sound, Weigh, Backed, Recovers, Lawful, Digests, ActionsOf, AllowList, AuthorizedTools, RequiredOf, ReadRequired,
        VlaResult, Invoked, AskedFor, TurnsDown, NoAnswer, ToolCannotRun, ParametersOf, PaidOut, FrozenIntoRule, Get, Explains,
        ToolAt, ResultAt, ProposedAt;
      trace := Trace([], [], []);
      LawfulDigests(store.text);
      NothingDone(store.text, store.catalog, store.files, io, binding, q);
      ExplainsWhen(store.text, store.catalog, store.files, io, binding, q, maximum, trace);
      if q.task != binding.task {
        return Err(OtherTask), trace;
      }
      if q.vlaActions == [] {
        return Err(NoActions), trace;
      }
      var authorized := AuthorizedTools(store.text, q.suggestions);
      var required: Option<Required> := None;
      if q.active.Some? {
        RequiredErrors(store.text, q);
        var step := ReadRequired(store.text, q.active.value, authorized);
        if step.Err? {
          return Err(step.error), trace;
        }
        required := Some(step.value);
      }
      NoActiveStep(store.text, q);
      var frozen := if required.Some? then required.value.parameters else map[];
      var allowed := AllowList(binding, authorized, required);
      var currentTool, proposed := binding.vlaTool, Some(q.vlaActions);
      var result := VlaResult(q);
      var critics := q.critics;
      FirstProposal(binding, q);
      for index := 0 to maximum
        invariant |trace.events| == |trace.decisions| == index == |trace.invocations|
        invariant forall id | id in old(store.files) :: id in store.files && store.files[id] == old(store.files)[id]
        invariant Sound(store.text, store.catalog, store.files, io, binding, q, trace)
        invariant currentTool == ToolAt(binding, trace.invocations, index)
        invariant result == ResultAt(q, trace.invocations, index) && proposed == ProposedAt(q, trace.invocations, index)
        invariant critics == if trace.invocations == [] then q.critics else []
      {
        var reviewed, asked := PutForReview(io, q, trace, currentTool, allowed, result, critics);
        ExplainsWhen(store.text, store.catalog, store.files, io, binding, q, maximum, asked);
        if reviewed.Err? {
          return Err(reviewed.error), trace;
        }
        var d := reviewed.value;
        WeighedReturn(store.text, binding, q, asked, allowed);
        var verdict := Weigh(binding, d, currentTool, proposed, allowed, required, q.vlaActions);
        match verdict {
          case Refuse(error) =>
            RefusalExplains(store.text, store.catalog, store.files, io, binding, q, maximum, asked, error);
            return Err(error), asked;
          case Return(answer) =>
            ReturnRecovers(store.text, store.catalog, store.files, io, binding, q, asked, allowed, answer);
            return Ok(answer), asked;
          case Invoke(tool) =>
            var invocation, follow := FollowUp(io, q, asked, tool, frozen);
            if invocation.Err? {
              return Err(invocation.error), asked;
            }
            trace := follow;
            NextProposal(binding, q, asked.invocations, invocation.value);
            currentTool, result := tool, invocation.value.reply;
            proposed := ActionsOf(result);
            critics := [];
        }
      }
      ExplainsWhen(store.text, store.catalog, store.files, io, binding, q, maximum, trace);
      return Err(LoopExhausted), trace;
    }
  }

  lemma FirstProposal(b: Binding, q: Boundary)
    ensures ToolAt(b, [], 0) == b.vlaTool && ResultAt(q, [], 0) == VlaResult(q) && ProposedAt(q, [], 0) == Some(q.vlaActions)
  {
  }

  lemma NextProposal(b: Binding, q: Boundary, xs: seq<Invocation>, x: Invocation)
    ensures var ys := xs + [x];
      ToolAt(b, ys, |ys|) == x.tool && ResultAt(q, ys, |ys|) == x.reply && ProposedAt(q, ys, |ys|) == ActionsOf(x.reply)
  {
  }

  lemma NoActiveStep(t: Text, q: Boundary)
    ensures q.active.None? ==> RequiredOf(t, q).None?
    ensures FrozenParameters(t, q) == if RequiredOf(t, q).Some? then RequiredOf(t, q).value.parameters else map[]
  {
    hide ReadRequired, AuthorizedTools;
  }

  lemma RefusalExplains(t: Text, catalog: Catalog, files: Files, io: Surroundings, b: Binding, q: Boundary, maximum: nat,
                        asked: Trace, error: ActorError)
    requires Digests(t) && |asked.decisions| == |asked.invocations| + 1
    requires TurnsDown(t, b, q, asked.decisions[|asked.invocations|],
                       ToolAt(b, asked.invocations, |asked.invocations|), error)
    ensures Explains(t, catalog, files, io, b, q, maximum, asked, error)
  {
    hide Offered, RequiredOf, ToolAt, NoAnswer, ToolCannotRun;
  }

  lemma ReturnRecovers(t: Text, catalog: Catalog, files: Files, io: Surroundings, b: Binding, q: Boundary, asked: Trace,
                       allowed: seq<string>, r: ActorResult)
    requires Digests(t) && Sound(t, catalog, files, io, b, q, asked) && Backed(b, q, asked, r)
    requires |asked.decisions| == |asked.invocations| + 1 && (!r.terminate ==> r.actions != [])
    requires var n := |asked.invocations|;
      Weigh(b, asked.decisions[n], ToolAt(b, asked.invocations, n), ProposedAt(q, asked.invocations, n), allowed,
            RequiredOf(t, q), q.vlaActions) == Return(r)
    ensures RequiredOf(t, q).Some? && RequiredOf(t, q).value.tool !in {VLA_TOOL, b.vlaTool} ==>
      Recovers(RequiredOf(t, q).value, asked, r)
  {
    hide Sound, Recovers, RequiredOf, ToolAt, ProposedAt, ActionContract.Serialize;
    if RequiredOf(t, q).Some? && RequiredOf(t, q).value.tool !in {VLA_TOOL, b.vlaTool} {
      BackedRecovers(t, catalog, files, io, b, q, asked, RequiredOf(t, q).value, r);
    }
  }

  lemma CannotRun(t: Text, io: Surroundings, b: Binding, q: Boundary, asked: Trace, tool: string, frozen: map<Key, Value>,
                  error: ActorError)
    requires |asked.decisions| == |asked.invocations| + 1 && frozen == FrozenParameters(t, q)
    requires var n := |asked.invocations|;
      && AskedFor(t, b, q, asked.decisions[n], ToolAt(b, asked.invocations, n), ProposedAt(q, asked.invocations, n), tool)
      && CannotInvoke(io, q, n, tool, asked.decisions[n], frozen, error)
    ensures ToolCannotRun(t, io, b, q, asked, error) && (error == BadParameters || error == ToolFailed)
  {
    hide ParametersOf, PaidOut, RequiredOf, Offered, ToolAt, ProposedAt;
  }

  /** Why an invocation fails: the chosen parameters are no object, or the tool raised on exactly its payload. */
  ghost predicate CannotInvoke(io: Surroundings, q: Boundary, k: nat, tool: string, d: Role1Effect, frozen: map<Key, Value>,
                               error: ActorError)
  {
    || (error == BadParameters && forall chosen :: !ParametersOf(d, chosen))
    || (error == ToolFailed
        && exists chosen, payload ::
             ParametersOf(d, chosen) && PaidOut(q, frozen, chosen, payload) && io.invoke(k, tool, payload).None?)
  }

  lemma InvokedAs(t: Text, io: Surroundings, q: Boundary, d: Role1Effect, k: nat, frozen: map<Key, Value>, x: Invocation)
    requires frozen == FrozenParameters(t, q) && io.invoke(k, x.tool, x.payload) == Some(x.reply)
    requires exists chosen :: ParametersOf(d, chosen) && PaidOut(q, frozen, chosen, x.payload)
    ensures Invoked(t, io, q, d, k, x)
  {
    hide ParametersOf, PaidOut, FrozenParameters;
  }

  /** A failed review is one without an event or without an acceptable reply. */
  lemma Unanswered(t: Text, catalog: Catalog, files: Files, io: Surroundings, b: Binding, q: Boundary, trace: Trace,
                   tool: string, allowed: seq<string>, result: map<Key, Value>, critics: seq<CriticProposal>, error: ActorError)
    requires Digests(t) && |trace.decisions| == |trace.invocations|
    requires allowed == AllowList(b, AuthorizedTools(t, q.suggestions), RequiredOf(t, q))
    requires tool == ToolAt(b, trace.invocations, |trace.invocations|)
    requires result == ResultAt(q, trace.invocations, |trace.invocations|)
    requires critics == if trace.invocations == [] then q.critics else []
    requires var n := |trace.invocations|;
      var event := EventFor(t, io, q, n, tool, allowed, result, critics, HistoryRows(trace.decisions));
      if event.Err? then error == event.error
      else
        && Presents(t, io, b, q, event.value, n, tool, result, trace.decisions)
        && (if io.model(n, event.value).None? then error == ModelFailed
            else error.NotAccepted? && !Acceptable(t, catalog, files, event.value, io.model(n, event.value).value))
    ensures error.BadProposal? || error.BadEvent? || error.ModelFailed? || error.NotAccepted?
    ensures NoAnswer(t, catalog, files, io, b, q, trace, error)
  {
    hide Presents, Acceptable, AllowList, AuthorizedTools, ToolAt, ResultAt, MakeEvent, MakeToolProposal, HistoryRows,
      Describes, NoProposal;
    var n := |trace.invocations|;
    var event := EventFor(t, io, q, n, tool, allowed, result, critics, HistoryRows(trace.decisions));
    if event.Err? {
      NoEventCause(t, io, b, q, n, tool, allowed, result, critics, trace.decisions);
    }
  }

  lemma NoEventCause(t: Text, io: Surroundings, b: Binding, q: Boundary, k: nat, tool: string, allowed: seq<string>,
                     result: map<Key, Value>, critics: seq<CriticProposal>, earlier: seq<Role1Effect>)
    requires allowed == AllowList(b, AuthorizedTools(t, q.suggestions), RequiredOf(t, q))
    requires critics == if k == 0 then q.critics else []
    requires EventFor(t, io, q, k, tool, allowed, result, critics, HistoryRows(earlier)).Err?
    ensures var error := EventFor(t, io, q, k, tool, allowed, result, critics, HistoryRows(earlier)).error;
      || (error == BadProposal && NoProposal(t, io, k, tool, result))
      || (error == BadEvent
          && exists a :: Describes(t, io, b, q, k, tool, result, earlier, a) && MakeEvent(t, a).Err?)
  {
    hide AllowList, AuthorizedTools, RequiredOf, MakeEvent, MakeToolProposal, HistoryRows, Describes, PlainJson, Freeze,
      ArgumentsFor;
    var made := ProposalFor(t, io, k, tool, result);
    if made.Ok? {
      MadeProposalSays(t, Str(io.proposalName(k)), Str(tool), io.summarize(result),
                       List([Str("artifact:" + io.artifactName(k))]));
      ArgumentsDescribe(t, io, b, q, k, tool, allowed, result, critics, earlier, made.value);
    }
  }

  lemma ArgumentsDescribe(t: Text, io: Surroundings, b: Binding, q: Boundary, k: nat, tool: string, allowed: seq<string>,
                          result: map<Key, Value>, critics: seq<CriticProposal>, earlier: seq<Role1Effect>, p: ToolProposal)
    requires allowed == AllowList(b, AuthorizedTools(t, q.suggestions), RequiredOf(t, q))
    requires critics == (if k == 0 then q.critics else []) && p.tool == t.strip(t.show(Str(tool)))
    requires PlainJson(io.summarize(result)).Some? && p.proposal == Freeze(PlainJson(io.summarize(result)).value)
    ensures Describes(t, io, b, q, k, tool, result, earlier,
                      ArgumentsFor(io, q, k, tool, allowed, p, critics, HistoryRows(earlier)))
  {
    hide AllowList, AuthorizedTools, RequiredOf, Offered, PlainJson, Freeze, TellsDecision;
    var a := ArgumentsFor(io, q, k, tool, allowed, p, critics, HistoryRows(earlier));
    forall v: Value ensures v in a.allowedTools <==> v.Str? && Offered(t, b, q, v.s) {
      if v.Str? {
        AllowListMeans(t, b, q, v.s);
        if v.s in allowed {
          var i :| 0 <= i < |allowed| && allowed[i] == v.s;
          assert a.allowedTools[i] == v;
        }
      }
    }
    forall i | 0 <= i < |earlier| ensures TellsDecision(a.history[i], earlier[i]) {
      RowIsPlain(earlier[i]);
    }
  }
}
