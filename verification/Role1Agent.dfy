/**
 * The Role1 authority contract: proposals, the seed-blind event, and the
 * validation of one raw model decision against its event.
 */
module Role1Agent {
  import opened Wrappers
  import opened PlainValues
  import opened Role1Text
  import ActionContract

  // ---- Proposals ---------------------------------------------------------

  datatype ToolProposal = ToolProposal(proposalId: string, tool: string, proposal: Value, evidence: seq<string>)
  {
    function ToDict(): Value
    {
      Dict(map[ProposalId := Str(proposalId), Source := Str("tool"), Tool := Str(tool),
               Proposal := Thaw(proposal), Evidence := Strs(evidence),
               ProposalOnly := Bool(true), EnvironmentWrite := Bool(false)])
    }

    predicate Valid(t: Text)
    {
      && Clean(t, proposalId) && Clean(t, tool) && CleanEvidence(t, evidence)
      && Frozen(proposal) && SeedBlind(t, Thaw(proposal)) && NoControlClaims(t, Thaw(proposal), false)
    }
  }

  function MakeToolProposal(t: Text, proposalId: Value, tool: Value, proposal: Value, evidence: Value)
    : (r: Result<ToolProposal, ContractError>)
  {
    var id :- Nonempty(t, proposalId);
    var name :- Nonempty(t, tool);
    var plain := PlainJson(proposal);
    :- Need(plain.Some?, NotPlainJson);
    :- Need(SeedBlind(t, plain.value), LeaksSeed);
    :- Need(NoControlClaims(t, plain.value, false), ControlClaim);
    var cited :- ReadEvidence(t, evidence);
    Ok(ToolProposal(id, name, Freeze(plain.value), cited))
  }

  lemma MadeToolProposalIsValid(t: Text, proposalId: Value, tool: Value, proposal: Value, evidence: Value)
    requires Lawful(t) && MakeToolProposal(t, proposalId, tool, proposal, evidence).Ok?
    ensures MakeToolProposal(t, proposalId, tool, proposal, evidence).value.Valid(t)
  {
    ThawFreeze(PlainJson(proposal).value);
  }

  /** Exactly the reports that become tool proposals, and as which. */
  lemma MakesToolIff(t: Text, proposalId: Value, tool: Value, proposal: Value, evidence: Value, p: ToolProposal)
    ensures MakeToolProposal(t, proposalId, tool, proposal, evidence) == Ok(p) <==>
      && p.proposalId == t.strip(t.show(proposalId)) && p.proposalId != "" && p.tool == t.strip(t.show(tool)) && p.tool != ""
      && Cites(t, evidence, p.evidence)
      && PlainJson(proposal).Some? && p.proposal == Freeze(PlainJson(proposal).value)
      && SeedBlind(t, PlainJson(proposal).value) && NoControlClaims(t, PlainJson(proposal).value, false)
  {
    hide ReadEvidence, Cites, SeedBlind, NoControlClaims, Freeze, PlainJson;
    EvidenceIff(t, evidence, p.evidence);
  }

  function ToolProposalFromPayload(t: Text, v: Value): Result<ToolProposal, ContractError>
  {
    var plain := PlainJson(v);
    :- Need(plain.Some?, NotPlainJson);
    :- Need(plain.value.Dict?, NotAMapping);
    ReadToolProposal(t, plain.value.fields)
  }

  function ReadToolProposal(t: Text, f: map<Key, Value>): Result<ToolProposal, ContractError>
  {
    var source := Get(f, Source, Str("tool"));
    :- Need(source == Str("tool"), BadSource);
    :- Need(Get(f, ProposalOnly, Bool(true)) == Bool(true), NotProposalOnly);
    :- Need(Get(f, EnvironmentWrite, Bool(false)) == Bool(false), NotProposalOnly);
    var tool := Get(f, Tool, Str(""));
    var evidence := Get(f, Evidence, List([Str("tool:" + t.show(tool))]));
    var nested := Get(f, Proposal, Null);
    var rest := f - {ProposalId, Id, Source, Tool, Evidence, ProposalOnly, EnvironmentWrite, Proposal};
    :- Need(nested.Null? || rest == map[], MixedPayload);
    MakeToolProposal(t, Get(f, ProposalId, Get(f, Id, Str(""))), tool, if nested.Null? then Dict(rest) else nested, evidence)
  }

  lemma RemakeToolProposal(t: Text, p: ToolProposal)
    requires Lawful(t) && p.Valid(t)
    ensures MakeToolProposal(t, Str(p.proposalId), Str(p.tool), Thaw(p.proposal), Strs(p.evidence)) == Ok(p)
  {
    FreezeThaw(p.proposal);
    PlainJsonOfPlain(Thaw(p.proposal));
    AllNonemptyOfClean(t, p.evidence, Strs(p.evidence).items);
  }

  lemma ToolProposalDictIsPlain(p: ToolProposal)
    requires Frozen(p.proposal)
    ensures PlainJson(p.ToDict()) == Some(p.ToDict()) && Plain(p.ToDict())
  {
    FreezeThaw(p.proposal);
    var f := p.ToDict().fields;
    assert Plain(f[Proposal]) && Plain(f[Evidence]);
    assert forall k | k in f :: Plain(f[k]);
    PlainJsonOfPlain(p.ToDict());
  }

  /** A tool proposal survives printing and parsing exactly when its payload is not a bare null. */
  lemma ToolProposalRoundTrip(t: Text, p: ToolProposal)
    requires Lawful(t) && p.Valid(t)
    ensures ToolProposalFromPayload(t, p.ToDict()).Ok?
    ensures ToolProposalFromPayload(t, p.ToDict()) == Ok(p) <==> !p.proposal.Null?
  {
    ToolProposalDictIsPlain(p);
    ReadPrintedTool(t, Str(p.proposalId), Str(p.tool), Thaw(p.proposal), Strs(p.evidence));
    RemakeToolProposal(t, p);
    if p.proposal.Null? {
      RemakeEmptyProposal(t, p);
    }
  }

  lemma ReadPrintedTool(t: Text, id: Value, tool: Value, proposal: Value, evidence: Value)
    ensures ReadToolProposal(t, map[ProposalId := id, Source := Str("tool"), Tool := tool, Proposal := proposal,
                                    Evidence := evidence, ProposalOnly := Bool(true), EnvironmentWrite := Bool(false)])
            == MakeToolProposal(t, id, tool, if proposal.Null? then Dict(map[]) else proposal, evidence)
  {
    hide MakeToolProposal;
    var f := map[ProposalId := id, Source := Str("tool"), Tool := tool, Proposal := proposal,
                 Evidence := evidence, ProposalOnly := Bool(true), EnvironmentWrite := Bool(false)];
    assert f - {ProposalId, Id, Source, Tool, Evidence, ProposalOnly, EnvironmentWrite, Proposal} == map[];
  }

  lemma RemakeEmptyProposal(t: Text, p: ToolProposal)
    requires Lawful(t) && p.Valid(t)
    ensures MakeToolProposal(t, Str(p.proposalId), Str(p.tool), Dict(map[]), Strs(p.evidence))
            == Ok(p.(proposal := Proxy(map[])))
  {
    AllNonemptyOfClean(t, p.evidence, Strs(p.evidence).items);
    assert PlainJson(Dict(map[])) == Some(Dict(map[]));
  }

  datatype CriticProposal = CriticProposal(
    proposalId: string, rejectCurrentAction: bool, reason: string, evidence: seq<string>, details: Value)
  {
    function ToDict(): Value
    {
      Dict(map[ProposalId := Str(proposalId), Source := Str("critic"),
               RejectCurrentAction := Bool(rejectCurrentAction), Reason := Str(reason),
               Evidence := Strs(evidence), Details := Thaw(details), ProposalOnly := Bool(true),
               ActionAuthority := Str(CRITIC_AUTHORITY), EnvironmentWrite := Bool(false)])
    }

    predicate Valid(t: Text)
    {
      && Clean(t, proposalId) && Clean(t, reason) && CleanEvidence(t, evidence)
      && Frozen(details) && SeedBlind(t, Thaw(details)) && NoControlClaims(t, Thaw(details), true)
    }
  }

  function MakeCriticProposal(t: Text, proposalId: Value, reject: Value, reason: Value, evidence: Value, details: Value)
    : Result<CriticProposal, ContractError>
  {
    var id :- Nonempty(t, proposalId);
    :- Need(reject.Bool?, BadReject);
    var why :- Nonempty(t, reason);
    var cited :- ReadEvidence(t, evidence);
    var plain := PlainJson(details);
    :- Need(plain.Some?, NotPlainJson);
    :- Need(SeedBlind(t, plain.value), LeaksSeed);
    :- Need(NoControlClaims(t, plain.value, true), ControlClaim);
    Ok(CriticProposal(id, reject.b, why, cited, Freeze(plain.value)))
  }

  lemma MadeCriticProposalIsValid(t: Text, proposalId: Value, reject: Value, reason: Value, evidence: Value, details: Value)
    requires Lawful(t) && MakeCriticProposal(t, proposalId, reject, reason, evidence, details).Ok?
    ensures MakeCriticProposal(t, proposalId, reject, reason, evidence, details).value.Valid(t)
  {
    ThawFreeze(PlainJson(details).value);
  }

  /** Exactly the reports that become critic proposals, and as which. */
  lemma MakesCriticIff(t: Text, proposalId: Value, reject: Value, reason: Value, evidence: Value, details: Value,
                       p: CriticProposal)
    ensures MakeCriticProposal(t, proposalId, reject, reason, evidence, details) == Ok(p) <==>
      && p.proposalId == t.strip(t.show(proposalId)) && p.proposalId != ""
      && p.reason == t.strip(t.show(reason)) && p.reason != "" && reject == Bool(p.rejectCurrentAction)
      && Cites(t, evidence, p.evidence)
      && PlainJson(details).Some? && p.details == Freeze(PlainJson(details).value)
      && SeedBlind(t, PlainJson(details).value) && NoControlClaims(t, PlainJson(details).value, true)
  {
    hide ReadEvidence, Cites, SeedBlind, NoControlClaims, Freeze, PlainJson;
    EvidenceIff(t, evidence, p.evidence);
  }

  function CriticProposalFromPayload(t: Text, v: Value): Result<CriticProposal, ContractError>
  {
    var plain := PlainJson(v);
    :- Need(plain.Some?, NotPlainJson);
    :- Need(plain.value.Dict?, NotAMapping);
    ReadCriticProposal(t, plain.value.fields)
  }

  function ReadCriticProposal(t: Text, f: map<Key, Value>): Result<CriticProposal, ContractError>
  {
    var source := Get(f, Source, Str("critic"));
    :- Need(source == Str("critic"), BadSource);
    var reason := Get(f, Reason, Str(""));
    var evidence := Get(f, Evidence, List([Str(t.show(reason))]));
    :- Need(Get(f, ProposalOnly, Bool(true)) == Bool(true), NotProposalOnly);
    :- Need(Get(f, EnvironmentWrite, Bool(false)) == Bool(false), NotProposalOnly);
    :- Need(Get(f, ActionAuthority, Str(CRITIC_AUTHORITY)) == Str(CRITIC_AUTHORITY), BadAuthority);
    MakeCriticProposal(t, Get(f, ProposalId, Get(f, Id, Str(""))), Get(f, RejectCurrentAction, Null), reason, evidence,
                       if Details in f then f[Details]
                       else Dict(f - {ProposalId, Id, Source, RejectCurrentAction, Reason, Evidence, ProposalOnly,
                                      EnvironmentWrite, ActionAuthority}))
  }

  lemma RemakeCriticProposal(t: Text, p: CriticProposal)
    requires Lawful(t) && p.Valid(t)
    ensures MakeCriticProposal(t, Str(p.proposalId), Bool(p.rejectCurrentAction), Str(p.reason),
                               Strs(p.evidence), Thaw(p.details)) == Ok(p)
  {
    FreezeThaw(p.details);
    PlainJsonOfPlain(Thaw(p.details));
    AllNonemptyOfClean(t, p.evidence, Strs(p.evidence).items);
  }

  lemma CriticProposalDictIsPlain(p: CriticProposal)
    requires Frozen(p.details)
    ensures PlainJson(p.ToDict()) == Some(p.ToDict()) && Plain(p.ToDict())
  {
    FreezeThaw(p.details);
    var f := p.ToDict().fields;
    assert Plain(f[Details]) && Plain(f[Evidence]);
    assert forall k | k in f :: Plain(f[k]);
    PlainJsonOfPlain(p.ToDict());
  }

  lemma CriticProposalRoundTrip(t: Text, p: CriticProposal)
    requires Lawful(t) && p.Valid(t)
    ensures CriticProposalFromPayload(t, p.ToDict()) == Ok(p)
  {
    CriticProposalDictIsPlain(p);
    ReadPrintedCritic(t, Str(p.proposalId), Bool(p.rejectCurrentAction), Str(p.reason), Strs(p.evidence), Thaw(p.details));
    RemakeCriticProposal(t, p);
  }

  lemma ReadPrintedCritic(t: Text, id: Value, reject: Value, reason: Value, evidence: Value, details: Value)
    ensures ReadCriticProposal(t, map[ProposalId := id, Source := Str("critic"), RejectCurrentAction := reject,
                                      Reason := reason, Evidence := evidence, Details := details,
                                      ProposalOnly := Bool(true), ActionAuthority := Str(CRITIC_AUTHORITY),
                                      EnvironmentWrite := Bool(false)])
            == MakeCriticProposal(t, id, reject, reason, evidence, details)
  {
    hide MakeCriticProposal;
  }

  // ---- Events ------------------------------------------------------------

  function ToolDicts(ps: seq<ToolProposal>): (r: seq<Value>)
    ensures |r| == |ps| && forall i | 0 <= i < |ps| :: r[i] == ps[i].ToDict()
  {
    seq(|ps|, i requires 0 <= i < |ps| => ps[i].ToDict())
  }

  function CriticDicts(ps: seq<CriticProposal>): (r: seq<Value>)
    ensures |r| == |ps| && forall i | 0 <= i < |ps| :: r[i] == ps[i].ToDict()
  {
    seq(|ps|, i requires 0 <= i < |ps| => ps[i].ToDict())
  }

  function ThawAll(items: seq<Value>): (r: seq<Value>)
    ensures |r| == |items| && forall i | 0 <= i < |items| :: r[i] == Thaw(items[i])
  {
    seq(|items|, i requires 0 <= i < |items| => Thaw(items[i]))
  }

  datatype Role1Event = Role1Event(
    eventId: string, task: string, stepIndex: nat,
    currentStage: Option<string>, currentTool: Option<string>,
    allowedStages: seq<string>, allowedTools: seq<string>,
    imageReferences: Value, taskState: Value,
    toolProposals: seq<ToolProposal>, criticProposals: seq<CriticProposal>,
    history: seq<Value>)
  {
    function ProposalIds(): (ids: seq<string>)
      ensures |ids| == |toolProposals| + |criticProposals|
    {
      seq(|toolProposals|, i requires 0 <= i < |toolProposals| => toolProposals[i].proposalId)
      + seq(|criticProposals|, i requires 0 <= i < |criticProposals| => criticProposals[i].proposalId)
    }

    function ToDict(): Value
    {
      Dict(EventFields(PrintedArguments(this, toolProposals), ToolDicts(toolProposals), CriticDicts(criticProposals)))
    }

    predicate Valid(t: Text)
    {
      && Clean(t, eventId) && Clean(t, task)
      && allowedStages != [] && Unique(allowedStages) && (forall x <- allowedStages :: Clean(t, x))
      && Unique(allowedTools) && (forall x <- allowedTools :: Clean(t, x))
      && (currentStage.Some? ==> currentStage.value in allowedStages)
      && (currentTool.Some? ==> currentTool.value in allowedTools)
      && Frozen(imageReferences) && GoodImages(t, Thaw(imageReferences))
      && Frozen(taskState) && (forall x <- history :: Frozen(x))
      && EventBlind(t, eventId, task, Thaw(imageReferences), Thaw(taskState),
                    ThawAll(history))
      && (forall p <- toolProposals :: p.Valid(t) && p.tool in allowedTools)
      && (forall p <- criticProposals :: p.Valid(t))
      && Unique(ProposalIds())
    }
  }

  function PrintedArguments(e: Role1Event, tools: seq<ToolProposal>): EventArguments
  {
    EventArguments(Str(e.eventId), Str(e.task), Int(e.stepIndex), OptStr(e.currentStage), OptStr(e.currentTool),
                   Strs(e.allowedStages).items, Strs(e.allowedTools).items,
                   Thaw(e.imageReferences), Thaw(e.taskState), tools, e.criticProposals,
                   ThawAll(e.history))
  }

  /** The printed fields of an event: who and where, then what it carries. */
  function EventFields(a: EventArguments, toolItems: seq<Value>, criticItems: seq<Value>): map<Key, Value>
  {
    HeaderFields(a) + ContextFields(a, toolItems, criticItems)
  }

  function HeaderFields(a: EventArguments): map<Key, Value>
  {
    map[EventId := a.eventId, Task := a.task, StepIndex := a.stepIndex, CurrentStage := a.currentStage,
        CurrentTool := a.currentTool, AllowedStages := List(a.allowedStages)]
  }

  function ContextFields(a: EventArguments, toolItems: seq<Value>, criticItems: seq<Value>): map<Key, Value>
  {
    map[AllowedTools := List(a.allowedTools), ImageReferences := a.imageReferences, TaskState := a.taskState,
        ToolProposals := List(toolItems), CriticProposals := List(criticItems), History := List(a.history)]
  }

  function OptStr(s: Option<string>): Value
  {
    if s.None? then Null else Str(s.value)
  }

  predicate GoodImages(t: Text, v: Value)
  {
    v.Dict? && forall k | k in v.fields ::
      t.strip(t.keyText(k)) != "" && v.fields[k].Str? && t.strip(v.fields[k].s) != ""
  }

  predicate EventBlind(t: Text, eventId: string, task: string, images: Value, state: Value, history: seq<Value>)
  {
    !t.forbiddenText(eventId) && !t.forbiddenText(task) && SeedBlind(t, images) && SeedBlind(t, state)
    && SeedBlind(t, List(history))
  }

  datatype EventArguments = EventArguments(
    eventId: Value, task: Value, stepIndex: Value, currentStage: Value, currentTool: Value,
    allowedStages: seq<Value>, allowedTools: seq<Value>, imageReferences: Value, taskState: Value,
    toolProposals: seq<ToolProposal>, criticProposals: seq<CriticProposal>, history: seq<Value>)

  /** An optional name: null, or a string among the allowed ones. */
  function ReadCurrent(v: Value, allowed: seq<string>, e: ContractError): Result<Option<string>, ContractError>
  {
    if v.Null? then Ok(None)
    else if v.Str? && v.s in allowed then Ok(Some(v.s))
    else Err(e)
  }

  datatype Header = Header(eventId: string, task: string, stepIndex: nat, stage: Option<string>, tool: Option<string>,
                           stages: seq<string>, tools: seq<string>)

  function ReadHeader(t: Text, a: EventArguments): Result<Header, ContractError>
  {
    var eventId :- Nonempty(t, a.eventId);
    var task :- Nonempty(t, a.task);
    :- Need(a.stepIndex.Int? && a.stepIndex.n >= 0, BadStepIndex);
    var stages :- AllNonempty(t, a.allowedStages);
    var tools :- AllNonempty(t, a.allowedTools);
    :- Need(stages != [] && Unique(stages), BadStages);
    :- Need(Unique(tools), BadTools);
    var stage :- ReadCurrent(a.currentStage, stages, StageNotAllowed);
    var tool :- ReadCurrent(a.currentTool, tools, ToolNotAllowed);
    Ok(Header(eventId, task, a.stepIndex.n, stage, tool, stages, tools))
  }

  datatype Context = Context(images: Value, state: Value, history: seq<Value>)

  function ReadContext(t: Text, eventId: string, task: string, images: Value, state: Value, history: seq<Value>)
    : Result<Context, ContractError>
  {
    var i, s, h := PlainJson(images), PlainJson(state), PlainJson(List(history));
    :- Need(i.Some? && s.Some? && h.Some?, NotPlainJson);
    :- Need(GoodImages(t, i.value), BadImages);
    :- Need(EventBlind(t, eventId, task, i.value, s.value, h.value.items), LeaksSeed);
    Ok(Context(Freeze(i.value), Freeze(s.value), Freeze(h.value).items))
  }

  function MakeEvent(t: Text, a: EventArguments): Result<Role1Event, ContractError>
  {
    var h :- ReadHeader(t, a);
    var c :- ReadContext(t, h.eventId, h.task, a.imageReferences, a.taskState, a.history);
    var e := Role1Event(h.eventId, h.task, h.stepIndex, h.stage, h.tool, h.stages, h.tools,
                        c.images, c.state, a.toolProposals, a.criticProposals, c.history);
    :- Need(Unique(e.ProposalIds()), DuplicateProposals);
    :- Need(forall p <- a.toolProposals :: p.tool in h.tools, ForeignTool);
    Ok(e)
  }

  /** An optional name among the allowed ones. */
  predicate Among(v: Value, allowed: seq<string>, current: Option<string>)
  {
    if v.Null? then current.None? else v.Str? && v.s in allowed && current == Some(v.s)
  }

  /** What an event says of its arguments, field by field, and what the contract asks of it. */
  predicate EventSays(t: Text, a: EventArguments, e: Role1Event)
  {
    var images, state, history := PlainJson(a.imageReferences), PlainJson(a.taskState), PlainJson(List(a.history));
    && e.eventId == t.strip(t.show(a.eventId)) && e.eventId != "" && e.task == t.strip(t.show(a.task)) && e.task != ""
    && a.stepIndex == Int(e.stepIndex)
    && NamesOf(t, a.allowedStages, e.allowedStages) && e.allowedStages != [] && Unique(e.allowedStages)
    && NamesOf(t, a.allowedTools, e.allowedTools) && Unique(e.allowedTools)
    && Among(a.currentStage, e.allowedStages, e.currentStage) && Among(a.currentTool, e.allowedTools, e.currentTool)
    && images.Some? && state.Some? && history.Some? && e.imageReferences == Freeze(images.value)
    && e.taskState == Freeze(state.value) && e.history == Freeze(history.value).items
    && GoodImages(t, images.value) && EventBlind(t, e.eventId, e.task, images.value, state.value, history.value.items)
    && e.toolProposals == a.toolProposals && e.criticProposals == a.criticProposals
    && Unique(e.ProposalIds()) && forall p <- a.toolProposals :: p.tool in e.allowedTools
  }

  lemma HeaderIff(t: Text, a: EventArguments, h: Header)
    ensures ReadHeader(t, a) == Ok(h) <==>
      && h.eventId == t.strip(t.show(a.eventId)) && h.eventId != "" && h.task == t.strip(t.show(a.task)) && h.task != ""
      && a.stepIndex == Int(h.stepIndex)
      && NamesOf(t, a.allowedStages, h.stages) && h.stages != [] && Unique(h.stages)
      && NamesOf(t, a.allowedTools, h.tools) && Unique(h.tools)
      && Among(a.currentStage, h.stages, h.stage) && Among(a.currentTool, h.tools, h.tool)
  {
    hide AllNonempty, NamesOf, Unique;
    AllNonemptyIff(t, a.allowedStages, h.stages);
    AllNonemptyIff(t, a.allowedTools, h.tools);
  }

  lemma CleanNames(t: Text, items: seq<Value>, xs: seq<string>)
    requires Lawful(t) && NamesOf(t, items, xs)
    ensures forall x <- xs :: Clean(t, x)
  {
  }

  /** Exactly the arguments that become events, and as which. */
  lemma MakesEventIff(t: Text, a: EventArguments, e: Role1Event)
    ensures MakeEvent(t, a) == Ok(e) <==> EventSays(t, a, e)
  {
    hide ReadHeader, NamesOf, Unique, Among, PlainJson, Freeze, GoodImages, EventBlind, Role1Event.ProposalIds;
    HeaderIff(t, a, Header(e.eventId, e.task, e.stepIndex, e.currentStage, e.currentTool, e.allowedStages, e.allowedTools));
    if MakeEvent(t, a).Ok? {
      HeaderIff(t, a, ReadHeader(t, a).value);
    }
  }

  lemma MadeEventIsValid(t: Text, a: EventArguments)
    requires Lawful(t) && MakeEvent(t, a).Ok?
    requires (forall p <- a.toolProposals :: p.Valid(t)) && (forall p <- a.criticProposals :: p.Valid(t))
    ensures MakeEvent(t, a).value.Valid(t)
  {
    hide MakeEvent, EventBlind, GoodImages, Freeze, Role1Event.ProposalIds, ToolProposal.Valid, CriticProposal.Valid;
    var e := MakeEvent(t, a).value;
    MakesEventIff(t, a, e);
    CleanNames(t, a.allowedStages, e.allowedStages);
    CleanNames(t, a.allowedTools, e.allowedTools);
    ThawFreeze(PlainJson(a.imageReferences).value);
    ThawFreeze(PlainJson(a.taskState).value);
    var history := PlainJson(List(a.history)).value;
    ThawFreeze(history);
    assert ThawAll(e.history) == history.items;
  }

  predicate EventKey(k: Key)
  {
    k.EventId? || k.Task? || k.StepIndex? || k.CurrentStage? || k.CurrentTool? || k.AllowedStages? || k.AllowedTools?
    || k.ImageReferences? || k.TaskState? || k.ToolProposals? || k.CriticProposals? || k.History?
  }

  function ParseAll<T>(parse: Value -> Result<T, ContractError>, items: seq<Value>): (r: Result<seq<T>, ContractError>)
    ensures r.Ok? ==> |r.value| == |items| && forall i | 0 <= i < |items| :: parse(items[i]) == Ok(r.value[i])
    ensures r.Err? ==> exists i | 0 <= i < |items| :: parse(items[i]).Err?
  {
    if items == [] then Ok([])
    else
      match parse(items[0])
      case Err(e) => Err(e)
      case Ok(head) =>
        match ParseAll(parse, items[1..])
        case Err(e) =>
          assert exists i | 0 <= i < |items| - 1 :: parse(items[1..][i]).Err?;
          Err(e)
        case Ok(tail) => Ok([head] + tail)
  }

  function ToolParser(t: Text): Value -> Result<ToolProposal, ContractError>
  {
    v => ToolProposalFromPayload(t, v)
  }

  function CriticParser(t: Text): Value -> Result<CriticProposal, ContractError>
  {
    v => CriticProposalFromPayload(t, v)
  }

  function ParseTools(t: Text, items: seq<Value>): Result<seq<ToolProposal>, ContractError>
  {
    ParseAll(ToolParser(t), items)
  }

  function ParseCritics(t: Text, items: seq<Value>): Result<seq<CriticProposal>, ContractError>
  {
    ParseAll(CriticParser(t), items)
  }

  function Items(f: map<Key, Value>, k: Key): Result<seq<Value>, ContractError>
  {
    if k !in f then Ok([]) else if f[k].IsArray() then Ok(f[k].items) else Err(NotAnArray)
  }

  function EventFromPayload(t: Text, v: Value): Result<Role1Event, ContractError>
  {
    var plain := PlainJson(v);
    :- Need(plain.Some?, NotPlainJson);
    :- Need(plain.value.Dict?, NotAMapping);
    ReadEvent(t, plain.value.fields)
  }

  function ReadEvent(t: Text, f: map<Key, Value>): Result<Role1Event, ContractError>
  {
    var a :- ReadArguments(t, f);
    MakeEvent(t, a)
  }

  function ReadArguments(t: Text, f: map<Key, Value>): Result<EventArguments, ContractError>
  {
    var known := forall k | k in f :: EventKey(k);
    :- Need(known, UnknownFields);
    var stages :- Items(f, AllowedStages);
    var allowed :- Items(f, AllowedTools);
    var toolItems :- Items(f, ToolProposals);
    var criticItems :- Items(f, CriticProposals);
    var history :- Items(f, History);
    var tools :- ParseTools(t, toolItems);
    var critics :- ParseCritics(t, criticItems);
    Ok(EventArguments(Get(f, EventId, Str("")), Get(f, Task, Str("")), Get(f, StepIndex, Int(-1)),
                      Get(f, CurrentStage, Null), Get(f, CurrentTool, Null), stages, allowed,
                      Get(f, ImageReferences, Dict(map[])), Get(f, TaskState, Dict(map[])),
                      tools, critics, history))
  }

  // ---- Events survive printing and parsing -------------------------------

  lemma ParseAllGives<T>(parse: Value -> Result<T, ContractError>, xs: seq<T>, items: seq<Value>)
    requires |items| == |xs| && forall i | 0 <= i < |xs| :: parse(items[i]).Ok?
    ensures ParseAll(parse, items).Ok?
    ensures ParseAll(parse, items) == Ok(xs) <==> forall i | 0 <= i < |xs| :: parse(items[i]) == Ok(xs[i])
  {
    var r := ParseAll(parse, items).value;
    assert r == xs <==> forall i | 0 <= i < |xs| :: r[i] == xs[i];
  }

  lemma PrintedToolParses(t: Text, p: ToolProposal)
    requires Lawful(t) && p.Valid(t)
    ensures ToolParser(t)(p.ToDict()).Ok?
    ensures ToolParser(t)(p.ToDict()) == Ok(p) <==> !p.proposal.Null?
  {
    ToolProposalRoundTrip(t, p);
  }

  lemma PrintedCriticParses(t: Text, p: CriticProposal)
    requires Lawful(t) && p.Valid(t)
    ensures CriticParser(t)(p.ToDict()) == Ok(p)
  {
    CriticProposalRoundTrip(t, p);
  }

  lemma ParsePrintedTools(t: Text, tools: seq<ToolProposal>)
    requires Lawful(t) && forall p <- tools :: p.Valid(t)
    ensures ParseTools(t, ToolDicts(tools)).Ok?
    ensures ParseTools(t, ToolDicts(tools)) == Ok(tools) <==> forall p <- tools :: !p.proposal.Null?
  {
    forall p | p in tools { PrintedToolParses(t, p); }
    ParseAllGives(ToolParser(t), tools, ToolDicts(tools));
  }

  lemma ParsePrintedCritics(t: Text, critics: seq<CriticProposal>)
    requires Lawful(t) && forall p <- critics :: p.Valid(t)
    ensures ParseCritics(t, CriticDicts(critics)) == Ok(critics)
  {
    forall p | p in critics { PrintedCriticParses(t, p); }
    ParseAllGives(CriticParser(t), critics, CriticDicts(critics));
  }

  lemma PlainProposals(tools: seq<ToolProposal>, critics: seq<CriticProposal>)
    requires (forall p <- tools :: Frozen(p.proposal)) && (forall p <- critics :: Frozen(p.details))
    ensures Plain(List(ToolDicts(tools)))
    ensures Plain(List(CriticDicts(critics)))
  {
    forall p | p in tools { ToolProposalDictIsPlain(p); }
    forall p | p in critics { CriticProposalDictIsPlain(p); }
  }

  lemma EventFieldsArePlain(e: Role1Event)
    requires Frozen(e.imageReferences) && Frozen(e.taskState) && (forall x <- e.history :: Frozen(x))
    requires (forall p <- e.toolProposals :: Frozen(p.proposal)) && (forall p <- e.criticProposals :: Frozen(p.details))
    ensures Plain(e.ToDict())
  {
    hide HeaderFields, ContextFields, EventKey, HeaderKey, ToolDicts, CriticDicts, ThawAll, Strs, OptStr, Thaw;
    FreezeThaw(e.imageReferences);
    FreezeThaw(e.taskState);
    PlainHistory(e.history);
    PlainProposals(e.toolProposals, e.criticProposals);
    var a := PrintedArguments(e, e.toolProposals);
    PlainNames(e);
    PlainEventFields(a, ToolDicts(e.toolProposals), CriticDicts(e.criticProposals));
  }

  lemma PlainNames(e: Role1Event)
    ensures Plain(OptStr(e.currentStage)) && Plain(OptStr(e.currentTool))
    ensures Plain(List(Strs(e.allowedStages).items)) && Plain(List(Strs(e.allowedTools).items))
  {
  }

  lemma PlainEventFields(a: EventArguments, toolItems: seq<Value>, criticItems: seq<Value>)
    requires Plain(a.eventId) && Plain(a.task) && Plain(a.stepIndex) && Plain(a.currentStage) && Plain(a.currentTool)
    requires Plain(List(a.allowedStages)) && Plain(List(a.allowedTools)) && Plain(a.imageReferences) && Plain(a.taskState)
    requires Plain(List(toolItems)) && Plain(List(criticItems)) && Plain(List(a.history))
    ensures Plain(Dict(EventFields(a, toolItems, criticItems)))
  {
    hide HeaderFields, ContextFields, Plain;
    var plain := v => Plain(v);
    PlainHeader(HeaderFields(a), a, plain);
    PlainContext(ContextFields(a, toolItems, criticItems), a, toolItems, criticItems, plain);
    AllPlain(HeaderFields(a), plain);
    AllPlain(ContextFields(a, toolItems, criticItems), plain);
    MergePlain(HeaderFields(a), ContextFields(a, toolItems, criticItems));
  }

  lemma PlainHeader(f: map<Key, Value>, a: EventArguments, p: Value -> bool)
    requires f == HeaderFields(a)
    requires p(a.eventId) && p(a.task) && p(a.stepIndex) && p(a.currentStage) && p(a.currentTool) && p(List(a.allowedStages))
    ensures forall k | k in f :: p(f[k])
  {
    hide HeaderFields;
    HeaderLookups(f, a);
  }

  lemma PlainContext(f: map<Key, Value>, a: EventArguments, toolItems: seq<Value>, criticItems: seq<Value>, p: Value -> bool)
    requires f == ContextFields(a, toolItems, criticItems)
    requires p(List(a.allowedTools)) && p(a.imageReferences) && p(a.taskState)
    requires p(List(toolItems)) && p(List(criticItems)) && p(List(a.history))
    ensures forall k | k in f :: p(f[k])
  {
    hide ContextFields;
    ContextLookups(f, a, toolItems, criticItems);
  }

  lemma AllPlain(f: map<Key, Value>, plain: Value -> bool)
    requires plain == (v => Plain(v))
    ensures Plain(Dict(f)) <==> forall k | k in f :: plain(f[k])
  {
  }

  lemma MergePlain(f: map<Key, Value>, g: map<Key, Value>)
    requires Plain(Dict(f)) && Plain(Dict(g))
    ensures Plain(Dict(f + g))
  {
    forall k | k in f + g ensures Plain((f + g)[k]) { }
  }

  lemma EventDictIsPlain(t: Text, e: Role1Event)
    requires e.Valid(t)
    ensures Plain(e.ToDict()) && PlainJson(e.ToDict()) == Some(e.ToDict())
  {
    EventFieldsArePlain(e);
    PlainJsonOfPlain(e.ToDict());
  }

  lemma PlainHistory(history: seq<Value>)
    requires forall x <- history :: Frozen(x)
    ensures var items := ThawAll(history);
            Plain(List(items)) && PlainJson(List(items)) == Some(List(items)) && Freeze(List(items)) == Tuple(history)
  {
    var items := ThawAll(history);
    forall i | 0 <= i < |history| ensures Freeze(items[i]) == history[i] && Plain(items[i]) {
      FreezeThaw(history[i]);
    }
    PlainJsonOfPlain(List(items));
    assert Freeze(List(items)).items == history;
  }

  lemma RereadHeader(t: Text, a: EventArguments, h: Header)
    requires Nonempty(t, a.eventId) == Ok(h.eventId) && Nonempty(t, a.task) == Ok(h.task)
    requires a.stepIndex == Int(h.stepIndex)
    requires a.currentStage == OptStr(h.stage) && a.currentTool == OptStr(h.tool)
    requires AllNonempty(t, a.allowedStages) == Ok(h.stages) && AllNonempty(t, a.allowedTools) == Ok(h.tools)
    requires h.stages != [] && Unique(h.stages) && Unique(h.tools)
    requires (h.stage.Some? ==> h.stage.value in h.stages) && (h.tool.Some? ==> h.tool.value in h.tools)
    ensures ReadHeader(t, a) == Ok(h)
  {
    hide Nonempty, AllNonempty, Unique;
  }

  lemma RereadContext(t: Text, eventId: string, task: string, images: Value, state: Value, history: seq<Value>,
                      thawed: seq<Value>)
    requires Frozen(images) && Frozen(state) && (forall x <- history :: Frozen(x))
    requires thawed == ThawAll(history)
    requires GoodImages(t, Thaw(images)) && EventBlind(t, eventId, task, Thaw(images), Thaw(state), thawed)
    ensures ReadContext(t, eventId, task, Thaw(images), Thaw(state), thawed) == Ok(Context(images, state, history))
  {
    FreezeThaw(images);
    FreezeThaw(state);
    PlainJsonOfPlain(Thaw(images));
    PlainJsonOfPlain(Thaw(state));
    PlainHistory(history);
  }

  lemma RemakeEvent(t: Text, e: Role1Event)
    requires Lawful(t) && e.Valid(t)
    ensures MakeEvent(t, PrintedArguments(e, e.toolProposals)) == Ok(e)
  {
    var a := PrintedArguments(e, e.toolProposals);
    var h := Header(e.eventId, e.task, e.stepIndex, e.currentStage, e.currentTool, e.allowedStages, e.allowedTools);
    assert ReadHeader(t, a) == Ok(h) by {
      AllNonemptyOfClean(t, e.allowedStages, Strs(e.allowedStages).items);
      AllNonemptyOfClean(t, e.allowedTools, Strs(e.allowedTools).items);
      RereadHeader(t, a, h);
    }
    RereadContext(t, e.eventId, e.task, e.imageReferences, e.taskState, e.history, a.history);
    AssembleEvent(t, a, h, e);
  }

  lemma AssembleEvent(t: Text, a: EventArguments, h: Header, e: Role1Event)
    requires ReadHeader(t, a) == Ok(h)
    requires h == Header(e.eventId, e.task, e.stepIndex, e.currentStage, e.currentTool, e.allowedStages, e.allowedTools)
    requires ReadContext(t, h.eventId, h.task, a.imageReferences, a.taskState, a.history)
             == Ok(Context(e.imageReferences, e.taskState, e.history))
    requires a.toolProposals == e.toolProposals && a.criticProposals == e.criticProposals
    requires Unique(e.ProposalIds()) && forall p <- e.toolProposals :: p.tool in e.allowedTools
    ensures MakeEvent(t, a) == Ok(e)
  {
  }

  lemma MadeEventKeepsTools(t: Text, a: EventArguments)
    ensures MakeEvent(t, a).Ok? ==> MakeEvent(t, a).value.toolProposals == a.toolProposals
  {
  }

  lemma ReadPrintedEvent(t: Text, f: map<Key, Value>, a: EventArguments, toolItems: seq<Value>, criticItems: seq<Value>)
    requires ParseTools(t, toolItems) == Ok(a.toolProposals)
    requires ParseCritics(t, criticItems) == Ok(a.criticProposals)
    requires forall k | k in f :: EventKey(k)
    requires Items(f, ToolProposals) == Ok(toolItems) && Items(f, CriticProposals) == Ok(criticItems)
    requires Items(f, AllowedStages) == Ok(a.allowedStages) && Items(f, AllowedTools) == Ok(a.allowedTools)
    requires Items(f, History) == Ok(a.history)
    requires Get(f, EventId, Str("")) == a.eventId && Get(f, Task, Str("")) == a.task
    requires Get(f, StepIndex, Int(-1)) == a.stepIndex
    requires Get(f, CurrentStage, Null) == a.currentStage && Get(f, CurrentTool, Null) == a.currentTool
    requires Get(f, ImageReferences, Dict(map[])) == a.imageReferences
    requires Get(f, TaskState, Dict(map[])) == a.taskState
    ensures ReadArguments(t, f) == Ok(a)
  {
  }

  predicate HeaderKey(k: Key)
  {
    k.EventId? || k.Task? || k.StepIndex? || k.CurrentStage? || k.CurrentTool? || k.AllowedStages?
  }

  lemma HeaderLookups(f: map<Key, Value>, a: EventArguments)
    requires f == HeaderFields(a)
    ensures forall k | k in f :: HeaderKey(k)
    ensures EventId in f && f[EventId] == a.eventId && Task in f && f[Task] == a.task
    ensures StepIndex in f && f[StepIndex] == a.stepIndex && CurrentStage in f && f[CurrentStage] == a.currentStage
    ensures CurrentTool in f && f[CurrentTool] == a.currentTool
    ensures AllowedStages in f && f[AllowedStages] == List(a.allowedStages)
  {
  }

  lemma ContextLookups(f: map<Key, Value>, a: EventArguments, toolItems: seq<Value>, criticItems: seq<Value>)
    requires f == ContextFields(a, toolItems, criticItems)
    ensures forall k | k in f :: EventKey(k) && !HeaderKey(k)
    ensures AllowedTools in f && f[AllowedTools] == List(a.allowedTools)
    ensures ImageReferences in f && f[ImageReferences] == a.imageReferences && TaskState in f && f[TaskState] == a.taskState
    ensures ToolProposals in f && f[ToolProposals] == List(toolItems)
    ensures CriticProposals in f && f[CriticProposals] == List(criticItems)
    ensures History in f && f[History] == List(a.history)
  {
  }

  lemma EventFieldLookups(f: map<Key, Value>, a: EventArguments, toolItems: seq<Value>, criticItems: seq<Value>)
    requires f == EventFields(a, toolItems, criticItems)
    ensures forall k | k in f :: EventKey(k)
    ensures Items(f, ToolProposals) == Ok(toolItems) && Items(f, CriticProposals) == Ok(criticItems)
    ensures Items(f, AllowedStages) == Ok(a.allowedStages) && Items(f, AllowedTools) == Ok(a.allowedTools)
    ensures Items(f, History) == Ok(a.history)
    ensures Get(f, EventId, Str("")) == a.eventId && Get(f, Task, Str("")) == a.task
    ensures Get(f, StepIndex, Int(-1)) == a.stepIndex
    ensures Get(f, CurrentStage, Null) == a.currentStage && Get(f, CurrentTool, Null) == a.currentTool
    ensures Get(f, ImageReferences, Dict(map[])) == a.imageReferences
    ensures Get(f, TaskState, Dict(map[])) == a.taskState
  {
    hide HeaderFields, ContextFields;
    HeaderLookups(HeaderFields(a), a);
    ContextLookups(ContextFields(a, toolItems, criticItems), a, toolItems, criticItems);
  }

  lemma ReadPrintedArguments(t: Text, e: Role1Event, tools: seq<ToolProposal>)
    requires ParseTools(t, ToolDicts(e.toolProposals)) == Ok(tools)
    requires ParseCritics(t, CriticDicts(e.criticProposals)) == Ok(e.criticProposals)
    ensures ReadArguments(t, e.ToDict().fields) == Ok(PrintedArguments(e, tools))
  {
    hide EventFields, ParseTools, ParseCritics, ToolDicts, CriticDicts, ThawAll, Strs, OptStr, Thaw, EventKey, Items, Get,
      ReadArguments;
    var f, a := e.ToDict().fields, PrintedArguments(e, tools);
    EventFieldLookups(f, PrintedArguments(e, e.toolProposals), ToolDicts(e.toolProposals), CriticDicts(e.criticProposals));
    ReadPrintedEvent(t, f, a, ToolDicts(e.toolProposals), CriticDicts(e.criticProposals));
  }

  /** An event survives exactly when none of its tool proposals is a bare null. */
  lemma EventRoundTrip(t: Text, e: Role1Event)
    requires Lawful(t) && e.Valid(t)
    ensures EventFromPayload(t, e.ToDict()) == Ok(e) <==> forall p <- e.toolProposals :: !p.proposal.Null?
  {
    ParsePrintedTools(t, e.toolProposals);
    ParsePrintedCritics(t, e.criticProposals);
    var tools := ParseTools(t, ToolDicts(e.toolProposals)).value;
    ReadPrintedArguments(t, e, tools);
    RemakeEvent(t, e);
    MadeEventKeepsTools(t, PrintedArguments(e, tools));
    EventDictReads(t, e, PrintedArguments(e, tools));
  }

  lemma EventDictReads(t: Text, e: Role1Event, a: EventArguments)
    requires e.Valid(t) && ReadArguments(t, e.ToDict().fields) == Ok(a)
    ensures EventFromPayload(t, e.ToDict()) == MakeEvent(t, a)
  {
    EventDictIsPlain(t, e);
  }
}
