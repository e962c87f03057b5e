/**
 * Validation of one raw model decision against its event, and the printed form
 * a decision is stored in.
 */
module Role1Decisions {
  import opened Wrappers
  import opened PlainValues
  import opened Role1Text
  import opened Role1Agent
  import ActionContract

  const ROLE1_AUTHORITY := "role1_high_level_agent"
  const FROZEN_ALTERNATIVE := "frozen_recovery_alternative"
  const DIGEST_PREFIX: nat := 24

  datatype ToolSpec = ToolSpec(capabilities: seq<string>, proposalOnly: bool)
  {
    predicate ReadOnly()
    {
      forall c <- capabilities :: "perception." <= c || "geometry." <= c || "verification." <= c
    }
  }

  type Catalog = map<string, ToolSpec>

  datatype TerminationDecision = TerminationDecision(approved: bool, reason: string)
  {
    function ToDict(): Value
    {
      Dict(map[Approved := Bool(approved), Reason := Str(reason)])
    }

    predicate Valid(t: Text)
    {
      if approved then t.strip(reason) != "" else reason == ""
    }
  }

  /** A validated decision.  A direct command is kept in canonical form and printed as its stable JSON. */
  datatype Role1Decision = Role1Decision(
    decisionId: string, eventId: string, disposition: Disposition, kind: Kind,
    selectedStage: Option<string>, selectedTool: Option<string>,
    directAction: Option<ActionContract.Action>, termination: TerminationDecision,
    evidence: seq<string>, confidence: real, rationale: string,
    proposalIds: seq<string>, modifications: Value)
  {
    /** The fields a model may write itself. */
    function ModelFields(): map<Key, Value>
    {
      SelectionFields(Str(decisionId), Str(eventId), Str(disposition.Name()), Str(kind.Name()),
                      OptStr(selectedStage), OptStr(selectedTool))
      + ContentFields(PrintedAction(directAction), termination.ToDict(), Strs(evidence), Float(confidence),
                      Str(rationale), Strs(proposalIds), Thaw(modifications))
    }

    function Fields(): map<Key, Value>
    {
      ModelFields() + FixedFields()
    }

    function ToDict(): Value
    {
      Dict(Fields())
    }

    /** What the generated identity hashes: everything but the identity and the fixed authority fields. */
    function Normalized(): Value
    {
      Dict(ModelFields() - {DecisionId})
    }
  }

  function PrintedAction(a: Option<ActionContract.Action>): Value
  {
    if a.None? then Null else ActionContract.Serialize(a.value)
  }

  function SelectionFields(id: Value, event: Value, disposition: Value, kind: Value, stage: Value, tool: Value)
    : map<Key, Value>
  {
    map[DecisionId := id, EventId := event, ProposalDisposition := disposition, ActionKind := kind,
        SelectedStage := stage, SelectedTool := tool]
  }

  function ContentFields(action: Value, termination: Value, evidence: Value, confidence: Value, rationale: Value,
                         ids: Value, modifications: Value): map<Key, Value>
  {
    map[DirectAction := action, Termination := termination, Evidence := evidence, Confidence := confidence,
        Rationale := rationale, ProposalIds := ids, Modifications := modifications]
  }

  function FixedFields(): map<Key, Value>
  {
    map[Authority := Str(ROLE1_AUTHORITY), ToolAuthority := Str(TOOL_AUTHORITY),
        CriticActionAuthority := Str(CRITIC_AUTHORITY), EnvironmentWrite := Bool(false)]
  }

  /** A printed decision without the fields the model may not write. */
  function WithoutFixed(f: map<Key, Value>): map<Key, Value>
  {
    f - {Authority, ToolAuthority, CriticActionAuthority, EnvironmentWrite}
  }

  // ---- Reading one decision ----------------------------------------------

  predicate SelectionKey(k: Key)
  {
    k.DecisionId? || k.EventId? || k.ProposalDisposition? || k.ActionKind? || k.SelectedStage? || k.SelectedTool?
  }

  predicate ContentKey(k: Key)
  {
    k.DirectAction? || k.Termination? || k.Evidence? || k.Confidence? || k.Rationale? || k.ProposalIds?
    || k.Modifications?
  }

  predicate DecisionKey(k: Key)
  {
    SelectionKey(k) || ContentKey(k) || k.Intent? || k.EvidenceUsed?
  }

  function ReadDisposition(s: string): Option<Disposition>
  {
    if s == "accept" then Some(Accept)
    else if s == "reject" then Some(Reject)
    else if s == "modify" then Some(Modify)
    else None
  }

  function ReadKind(s: string): Option<Kind>
  {
    if s == "continue" then Some(Continue)
    else if s == "switch" || s == "switch_tool" then Some(Switch)
    else if s == "recover" then Some(Recover)
    else if s == "restage" then Some(Restage)
    else if s == "regenerate" || s == "regenerate_grasp" then Some(Regenerate)
    else if s == "replace" || s == "execute_action" then Some(Replace)
    else if s == "terminate" || s == "terminate_episode" then Some(Terminate)
    else None
  }

  datatype Heading = Heading(disposition: Disposition, kind: Kind)

  function ReadHeading(t: Text, e: Role1Event, f: map<Key, Value>): Result<Heading, ContractError>
  {
    var eventId := t.show(Get(f, EventId, Str(e.eventId)));
    :- Need(eventId == e.eventId, WrongEvent);
    var disposition := ReadDisposition(t.show(Get(f, ProposalDisposition, Str(""))));
    :- Need(disposition.Some?, BadDisposition);
    var rawKind := Get(f, ActionKind, Get(f, Intent, Str("")));
    :- Need(ActionKind in f && Intent in f ==> f[ActionKind] == f[Intent], KindsDisagree);
    var kind := ReadKind(t.show(rawKind));
    :- Need(kind.Some?, BadKind);
    Ok(Heading(disposition.value, kind.value))
  }

  datatype Choice = Choice(stage: Option<string>, tool: Option<string>)

  /** An optional name; testing an array or a mapping for membership in a set is an error in Python. */
  function ReadName(t: Text, v: Value): Result<Option<string>, ContractError>
  {
    if v.IsArray() || v.IsMapping() then Err(Unhashable)
    else if v.Null? || v == Str("") then Ok(None)
    else Ok(Some(t.show(v)))
  }

  function ReadChoice(t: Text, catalog: Catalog, e: Role1Event, f: map<Key, Value>): Result<Choice, ContractError>
  {
    var stage :- ReadName(t, Get(f, SelectedStage, Null));
    var tool :- ReadName(t, Get(f, SelectedTool, Null));
    :- Need(stage.Some? ==> stage.value in e.allowedStages, StageNotAllowed);
    :- Need(tool.Some? ==> tool.value in e.allowedTools, ToolNotAllowed);
    :- Need(tool.Some? ==> tool.value in catalog, ToolNotInCatalog);
    :- Need(tool.Some? ==> catalog[tool.value].proposalOnly || catalog[tool.value].ReadOnly(), ToolNotProposalOnly);
    Ok(Choice(stage, tool))
  }

  function ReadCited(t: Text, e: Role1Event, f: map<Key, Value>): Result<seq<string>, ContractError>
  {
    var raw := Get(f, ProposalIds, Strs(e.ProposalIds()));
    :- Need(raw.IsArray(), NotAnArray);
    var ids :- AllNonempty(t, raw.items);
    :- Need(Unique(ids), DuplicateIds);
    :- Need(forall id <- ids :: id in e.ProposalIds(), UnknownProposals);
    :- Need(e.ProposalIds() != [] ==> ids != [], NoReview);
    Ok(ids)
  }

  predicate BareComponents(f: map<Key, Value>)
  {
    && EndEffectorPosition in f && EndEffectorRotation in f && GripperClose in f && BaseMotion in f && ControlMode in f
    && forall k | k in f ::
         k.EndEffectorPosition? || k.EndEffectorRotation? || k.GripperClose? || k.BaseMotion? || k.ControlMode?
  }

  predicate PrefixedComponents(f: map<Key, Value>)
  {
    && ActionEndEffectorPosition in f && ActionEndEffectorRotation in f && ActionGripperClose in f
    && ActionBaseMotion in f && ActionControlMode in f
    && forall k | k in f :: k.ActionEndEffectorPosition? || k.ActionEndEffectorRotation? || k.ActionGripperClose?
                            || k.ActionBaseMotion? || k.ActionControlMode?
  }

  function ReadAction(v: Value): (r: Result<Option<ActionContract.Action>, ContractError>)
    ensures r.Ok? && r.value.Some? ==> ActionContract.InBounds(r.value.value)
  {
    if v.Null? then Ok(None)
    else if !v.Dict? || !(BareComponents(v.fields) || PrefixedComponents(v.fields)) then Err(BadDirectAction)
    else
      var action := ActionContract.CanonicalAction(v, ActionContract.UNIT_SCALE);
      if action.None? then Err(BadDirectAction) else Ok(action)
  }

  function ReadTermination(t: Text, v: Value): (r: Result<TerminationDecision, ContractError>)
    ensures r.Ok? ==> r.value.Valid(t)
  {
    var exact := v.Dict? && Approved in v.fields && Reason in v.fields;
    :- Need(exact, BadTermination);
    :- Need(forall k | k in v.fields :: k.Approved? || k.Reason?, BadTermination);
    :- Need(v.fields[Approved].Bool?, BadTermination);
    var termination := TerminationDecision(v.fields[Approved].b, t.show(v.fields[Reason]));
    :- Need(termination.Valid(t), BadTermination);
    Ok(termination)
  }

  datatype Effects = Effects(
    action: Option<ActionContract.Action>, termination: TerminationDecision, modifications: Value)

  function ReadEffects(t: Text, f: map<Key, Value>): Result<Effects, ContractError>
  {
    var action :- ReadAction(Get(f, DirectAction, Null));
    var termination :- ReadTermination(t, Get(f, Termination, TerminationDecision(false, "").ToDict()));
    var modifications := Get(f, Modifications, Dict(map[]));
    :- Need(NoControlClaims(t, modifications, false), ControlClaim);
    Ok(Effects(action, termination, modifications))
  }

  predicate DispositionAllows(disposition: Disposition, kind: Kind, modified: bool)
  {
    match disposition
    case Accept => !modified
    case Modify => modified || kind != Continue
    case Reject => kind != Continue
  }

  predicate Keeps(choice: Option<string>, current: Option<string>)
  {
    choice.None? || choice == current
  }

  predicate Changes(choice: Option<string>, current: Option<string>)
  {
    choice.Some? && choice != current
  }

  predicate KindAllows(e: Role1Event, kind: Kind, c: Choice, direct: bool)
  {
    match kind
    case Continue => Keeps(c.stage, e.currentStage) && Keeps(c.tool, e.currentTool) && !direct
    case Switch => Changes(c.tool, e.currentTool) && Keeps(c.stage, e.currentStage) && !direct
    case Restage => Changes(c.stage, e.currentStage) && Changes(c.tool, e.currentTool) && !direct
    case Regenerate => c.tool.Some? && Keeps(c.stage, e.currentStage) && !direct
    case Recover | Replace => c.tool.Some? != direct
    case Terminate => c.tool.None? && !direct
  }

  predicate RulesAllow(e: Role1Event, h: Heading, c: Choice, x: Effects)
  {
    && DispositionAllows(h.disposition, h.kind, x.modifications.Truthy())
    && KindAllows(e, h.kind, c, x.action.Some?)
    && (h.kind == Terminate <==> x.termination.approved)
  }

  predicate CitesRejection(e: Role1Event, ids: seq<string>)
  {
    exists p <- e.criticProposals :: p.rejectCurrentAction && p.proposalId in ids
  }

  predicate CitesFrozenAlternative(e: Role1Event, ids: seq<string>)
  {
    exists p <- e.toolProposals :: p.proposalId in ids && p.proposal.Proxy?
                                   && Get(p.proposal.fields, ProposalRole, Null) == Str(FROZEN_ALTERNATIVE)
  }

  function CheckCritics(e: Role1Event, h: Heading, ids: seq<string>): Outcome<ContractError>
  {
    if !(forall p <- e.toolProposals | p.proposalId in ids :: p.proposal.Proxy?) then Fail(NoSuchMethod)
    else if CitesRejection(e, ids) && h == Heading(Accept, Continue) && !CitesFrozenAlternative(e, ids)
    then Fail(RuleViolated)
    else Pass
  }

  datatype Account = Account(evidence: seq<string>, confidence: real, rationale: string)

  function ReadConfidence(v: Value): Result<real, ContractError>
  {
    match v
    case Int(n) => if 0 <= n <= 1 then Ok(n as real) else Err(BadConfidence)
    case Float(r) => if 0.0 <= r <= 1.0 then Ok(r) else Err(BadConfidence)
    case _ => Err(BadConfidence)
  }

  function ReadAccount(t: Text, f: map<Key, Value>): Result<Account, ContractError>
  {
    var evidence :- ReadEvidence(t, Get(f, Evidence, Get(f, EvidenceUsed, Tuple([]))));
    var confidence :- ReadConfidence(Get(f, Confidence, Null));
    var rationale :- Nonempty(t, Get(f, Rationale, Str("")));
    Ok(Account(evidence, confidence, rationale))
  }

  function ReadDecisionId(t: Text, v: Value, normalized: Value): Result<string, ContractError>
    requires |t.sha256(normalized)| >= DIGEST_PREFIX
  {
    var id := t.strip(t.show(v));
    if id == "" then Ok(GENERATED_PREFIX + t.sha256(normalized)[..DIGEST_PREFIX])
    else if LegalId(id) then Ok(id)
    else Err(BadDecisionId)
  }

  function Compose(id: string, e: Role1Event, h: Heading, c: Choice, ids: seq<string>, x: Effects, a: Account)
    : Role1Decision
  {
    Role1Decision(id, e.eventId, h.disposition, h.kind, c.stage, c.tool, x.action, x.termination,
                  a.evidence, a.confidence, a.rationale, ids, Freeze(x.modifications))
  }

  ghost predicate Digests(t: Text)
  {
    forall v :: |t.sha256(v)| == 64 && Hex(t.sha256(v))
  }

  /** The parts of a decision in the order they are read; the first refusal wins. */
  function Assemble(t: Text, e: Role1Event, id: Value, heading: Result<Heading, ContractError>,
                    choice: Result<Choice, ContractError>, cited: Result<seq<string>, ContractError>,
                    effects: Result<Effects, ContractError>, account: Result<Account, ContractError>)
    : Result<Role1Decision, ContractError>
    requires Digests(t)
  {
    var h :- heading;
    var c :- choice;
    var ids :- cited;
    var x :- effects;
    :- Need(RulesAllow(e, h, c, x), RuleViolated);
    :- CheckCritics(e, h, ids);
    var a :- account;
    var decisionId :- ReadDecisionId(t, id, Compose("", e, h, c, ids, x, a).Normalized());
    Ok(Compose(decisionId, e, h, c, ids, x, a))
  }

  function ReadDecision(t: Text, catalog: Catalog, e: Role1Event, f: map<Key, Value>): Result<Role1Decision, ContractError>
    requires Digests(t)
  {
    var known := forall k | k in f :: DecisionKey(k);
    :- Need(known, UnknownFields);
    Assemble(t, e, Get(f, DecisionId, Str("")), ReadHeading(t, e, f), ReadChoice(t, catalog, e, f), ReadCited(t, e, f),
             ReadEffects(t, f), ReadAccount(t, f))
  }

  function Validate(t: Text, catalog: Catalog, e: Role1Event, raw: Value): Result<Role1Decision, ContractError>
    requires Digests(t)
  {
    var plain := PlainJson(raw);
    :- Need(plain.Some?, NotPlainJson);
    :- Need(SeedBlind(t, plain.value), LeaksSeed);
    :- Need(plain.value.Dict?, NotAMapping);
    ReadDecision(t, catalog, e, plain.value.fields)
  }

  // ---- What an accepted decision is --------------------------------------

  predicate ToolIsProposalOnly(catalog: Catalog, tool: string)
  {
    tool in catalog && (catalog[tool].proposalOnly || catalog[tool].ReadOnly())
  }

  /** Everything the contract promises about a decision on an event, whoever wrote it. */
  predicate Authorized(t: Text, catalog: Catalog, e: Role1Event, d: Role1Decision)
  {
    && d.eventId == e.eventId && LegalId(d.decisionId)
    && (d.selectedStage.Some? ==> d.selectedStage.value in e.allowedStages)
    && (d.selectedTool.Some? ==> d.selectedTool.value in e.allowedTools && ToolIsProposalOnly(catalog, d.selectedTool.value))
    && Unique(d.proposalIds) && (forall id <- d.proposalIds :: id in e.ProposalIds())
    && (e.ProposalIds() != [] ==> d.proposalIds != [])
    && (d.directAction.Some? ==> ActionContract.InBounds(d.directAction.value))
    && d.termination.Valid(t)
    && Frozen(d.modifications) && NoControlClaims(t, Thaw(d.modifications), false)
    && RulesAllow(e, Heading(d.disposition, d.kind), Choice(d.selectedStage, d.selectedTool), PrintedEffects(d))
    && CheckCritics(e, Heading(d.disposition, d.kind), d.proposalIds).Pass?
    && CleanEvidence(t, d.evidence) && 0.0 <= d.confidence <= 1.0 && Clean(t, d.rationale)
  }

  function PrintedEffects(d: Role1Decision): Effects
  {
    Effects(d.directAction, d.termination, Thaw(d.modifications))
  }

  predicate NamesAreBlind(t: Text, names: seq<string>)
  {
    forall x <- names :: !t.forbiddenText(x)
  }

  /** The texts a decision stores in place of what the model or the event gave. */
  predicate TextsAreBlind(t: Text, d: Role1Decision)
  {
    && NamesAreBlind(t, d.proposalIds) && NamesAreBlind(t, d.evidence)
    && !t.forbiddenText(d.rationale) && !t.forbiddenText(d.termination.reason)
  }

  lemma WithoutFixedFields(d: Role1Decision)
    ensures WithoutFixed(d.Fields()) == d.ModelFields()
  {
    PrintedLookups(d);
    FixedFieldsDrop(d.ModelFields());
  }

  lemma FixedFieldsDrop(f: map<Key, Value>)
    requires forall k | k in f :: SelectionKey(k) || ContentKey(k)
    ensures WithoutFixed(f + FixedFields()) == f
  {
  }

  lemma DecisionIsBlind(t: Text, d: Role1Decision)
    requires Lawful(t)
    ensures SeedBlind(t, Dict(d.ModelFields())) <==>
      && NamesAreBlind(t, [d.decisionId, d.eventId, d.termination.reason, d.rationale])
      && (d.selectedStage.Some? ==> !t.forbiddenText(d.selectedStage.value))
      && (d.selectedTool.Some? ==> !t.forbiddenText(d.selectedTool.value))
      && NamesAreBlind(t, d.evidence) && NamesAreBlind(t, d.proposalIds) && SeedBlind(t, Thaw(d.modifications))
  {
    hide Role1Decision.ModelFields, PrintedAction, Strs, Thaw, TerminationDecision.ToDict, SelectionKey, ContentKey,
      OptStr, Lawful, SeedBlind, NamesAreBlind, Disposition.Name, Kind.Name;
    ActionIsBlind(t, d.directAction);
    StrsBlind(t, d.evidence);
    StrsBlind(t, d.proposalIds);
    TerminationBlind(t, d.termination);
    ScalarsBlind(t, d);
    PrintedLookups(d);
    var blind := v => SeedBlind(t, v);
    FieldsAreBlind(t, d.ModelFields(), blind);
    EveryField(d.ModelFields(), blind);
    FourNames(t, d.decisionId, d.eventId, d.termination.reason, d.rationale);
  }

  lemma ScalarsBlind(t: Text, d: Role1Decision)
    requires Lawful(t)
    ensures SeedBlind(t, Str(d.decisionId)) == !t.forbiddenText(d.decisionId)
    ensures SeedBlind(t, Str(d.eventId)) == !t.forbiddenText(d.eventId)
    ensures SeedBlind(t, Str(d.rationale)) == !t.forbiddenText(d.rationale)
    ensures SeedBlind(t, Str(d.disposition.Name())) && SeedBlind(t, Str(d.kind.Name())) && SeedBlind(t, Float(d.confidence))
    ensures SeedBlind(t, OptStr(d.selectedStage)) == (d.selectedStage.Some? ==> !t.forbiddenText(d.selectedStage.value))
    ensures SeedBlind(t, OptStr(d.selectedTool)) == (d.selectedTool.Some? ==> !t.forbiddenText(d.selectedTool.value))
  {
  }

  lemma FieldsAreBlind(t: Text, f: map<Key, Value>, blind: Value -> bool)
    requires Lawful(t) && blind == (v => SeedBlind(t, v))
    requires forall k | k in f :: SelectionKey(k) || ContentKey(k)
    ensures SeedBlind(t, Dict(f)) <==> forall k | k in f :: blind(f[k])
  {
  }

  lemma EveryField(f: map<Key, Value>, p: Value -> bool)
    requires forall k | k in f :: SelectionKey(k) || ContentKey(k)
    requires DecisionId in f && EventId in f && ProposalDisposition in f && ActionKind in f && SelectedStage in f
    requires SelectedTool in f && DirectAction in f && Termination in f && Evidence in f && Confidence in f
    requires Rationale in f && ProposalIds in f && Modifications in f
    ensures (forall k | k in f :: p(f[k])) <==>
      && p(f[DecisionId]) && p(f[EventId]) && p(f[ProposalDisposition]) && p(f[ActionKind]) && p(f[SelectedStage])
      && p(f[SelectedTool]) && p(f[DirectAction]) && p(f[Termination]) && p(f[Evidence]) && p(f[Confidence])
      && p(f[Rationale]) && p(f[ProposalIds]) && p(f[Modifications])
  {
  }

  lemma FourNames(t: Text, a: string, b: string, c: string, d: string)
    ensures NamesAreBlind(t, [a, b, c, d]) <==>
            !t.forbiddenText(a) && !t.forbiddenText(b) && !t.forbiddenText(c) && !t.forbiddenText(d)
  {
    assert forall x :: x in [a, b, c, d] <==> x == a || x == b || x == c || x == d;
  }

  lemma StrsBlind(t: Text, xs: seq<string>)
    ensures SeedBlind(t, Strs(xs)) <==> NamesAreBlind(t, xs)
  {
    if NamesAreBlind(t, xs) {
      assert SeedBlind(t, Strs(xs));
    }
    if SeedBlind(t, Strs(xs)) {
      forall i | 0 <= i < |xs| ensures !t.forbiddenText(xs[i]) {
        assert SeedBlind(t, Strs(xs).items[i]);
      }
    }
  }

  lemma TerminationBlind(t: Text, d: TerminationDecision)
    requires Lawful(t)
    ensures SeedBlind(t, d.ToDict()) <==> !t.forbiddenText(d.reason)
  {
    var f := d.ToDict().fields;
    assert f[Reason] == Str(d.reason) && f[Approved] == Bool(d.approved);
  }

  lemma ActionIsBlind(t: Text, a: Option<ActionContract.Action>)
    requires Lawful(t)
    ensures SeedBlind(t, PrintedAction(a))
  {
    if a.Some? {
      forall xs: seq<real> ensures SeedBlind(t, ActionContract.Floats(xs)) { }
    }
  }

  predicate Has(f: map<Key, Value>, k: Key, v: Value)
  {
    k in f && f[k] == v
  }

  lemma SelectionLookups(f: map<Key, Value>, id: Value, event: Value, disposition: Value, kind: Value, stage: Value,
                         tool: Value)
    requires f == SelectionFields(id, event, disposition, kind, stage, tool)
    ensures forall k | k in f :: SelectionKey(k)
    ensures Has(f, DecisionId, id) && Has(f, EventId, event)
    ensures Has(f, ProposalDisposition, disposition) && Has(f, ActionKind, kind)
    ensures Has(f, SelectedStage, stage) && Has(f, SelectedTool, tool)
  {
  }

  lemma ContentLookups(f: map<Key, Value>, action: Value, termination: Value, evidence: Value, confidence: Value,
                       rationale: Value, ids: Value, modifications: Value)
    requires f == ContentFields(action, termination, evidence, confidence, rationale, ids, modifications)
    ensures forall k | k in f :: ContentKey(k)
    ensures Has(f, DirectAction, action) && Has(f, Termination, termination)
    ensures Has(f, Evidence, evidence) && Has(f, Confidence, confidence)
    ensures Has(f, Rationale, rationale) && Has(f, ProposalIds, ids) && Has(f, Modifications, modifications)
  {
  }

  /** `f` holds exactly the printed model fields of `d`. */
  predicate Prints(f: map<Key, Value>, d: Role1Decision)
  {
    && (forall k | k in f :: SelectionKey(k) || ContentKey(k))
    && Has(f, DecisionId, Str(d.decisionId)) && Has(f, EventId, Str(d.eventId))
    && Has(f, ProposalDisposition, Str(d.disposition.Name())) && Has(f, ActionKind, Str(d.kind.Name()))
    && Has(f, SelectedStage, OptStr(d.selectedStage)) && Has(f, SelectedTool, OptStr(d.selectedTool))
    && Has(f, DirectAction, PrintedAction(d.directAction)) && Has(f, Termination, d.termination.ToDict())
    && Has(f, Evidence, Strs(d.evidence)) && Has(f, Confidence, Float(d.confidence))
    && Has(f, Rationale, Str(d.rationale)) && Has(f, ProposalIds, Strs(d.proposalIds))
    && Has(f, Modifications, Thaw(d.modifications))
  }

  lemma Lookups(f: map<Key, Value>, id: Value, event: Value, disposition: Value, kind: Value, stage: Value, tool: Value,
                action: Value, termination: Value, evidence: Value, confidence: Value, rationale: Value, ids: Value,
                modifications: Value)
    requires f == SelectionFields(id, event, disposition, kind, stage, tool)
                  + ContentFields(action, termination, evidence, confidence, rationale, ids, modifications)
    ensures forall k | k in f :: SelectionKey(k) || ContentKey(k)
    ensures Has(f, DecisionId, id) && Has(f, EventId, event)
    ensures Has(f, ProposalDisposition, disposition) && Has(f, ActionKind, kind)
    ensures Has(f, SelectedStage, stage) && Has(f, SelectedTool, tool)
    ensures Has(f, DirectAction, action) && Has(f, Termination, termination)
    ensures Has(f, Evidence, evidence) && Has(f, Confidence, confidence)
    ensures Has(f, Rationale, rationale) && Has(f, ProposalIds, ids) && Has(f, Modifications, modifications)
  {
    hide SelectionFields, ContentFields, SelectionKey, ContentKey;
    var selection := SelectionFields(id, event, disposition, kind, stage, tool);
    var content := ContentFields(action, termination, evidence, confidence, rationale, ids, modifications);
    SelectionLookups(selection, id, event, disposition, kind, stage, tool);
    ContentLookups(content, action, termination, evidence, confidence, rationale, ids, modifications);
    MergeFields(selection, content);
  }

  lemma MergeFields(f: map<Key, Value>, g: map<Key, Value>)
    requires (forall k | k in f :: SelectionKey(k)) && (forall k | k in g :: ContentKey(k))
    ensures forall k | k in f + g :: SelectionKey(k) || ContentKey(k)
    ensures forall k | k in f :: Has(f + g, k, f[k])
    ensures forall k | k in g :: Has(f + g, k, g[k])
  {
  }

  lemma PrintedLookups(d: Role1Decision)
    ensures Prints(d.ModelFields(), d)
  {
    hide SelectionFields, ContentFields, PrintedAction, OptStr, Strs, Thaw, TerminationDecision.ToDict, Disposition.Name,
      Kind.Name, SelectionKey, ContentKey;
    Lookups(d.ModelFields(), Str(d.decisionId), Str(d.eventId), Str(d.disposition.Name()), Str(d.kind.Name()),
            OptStr(d.selectedStage), OptStr(d.selectedTool), PrintedAction(d.directAction), d.termination.ToDict(),
            Strs(d.evidence), Float(d.confidence), Str(d.rationale), Strs(d.proposalIds), Thaw(d.modifications));
  }

  // ---- Every accepted decision is authorized -----------------------------

  /** Every listed value prints as one piece of text. */
  predicate Scalars(v: Value)
  {
    v.IsArray() ==> forall i | 0 <= i < |v.items| :: Scalar(v.items[i])
  }

  lemma ReadStringsAreClean(t: Text, items: seq<Value>, xs: seq<string>)
    requires Lawful(t) && AllNonempty(t, items) == Ok(xs)
    ensures forall x <- xs :: Clean(t, x)
    ensures (forall i | 0 <= i < |items| :: Scalar(items[i]) && SeedBlind(t, items[i])) ==> NamesAreBlind(t, xs)
  {
    forall i | 0 <= i < |xs| ensures Clean(t, xs[i]) {
      assert xs[i] == t.strip(t.show(items[i]));
    }
    if forall i | 0 <= i < |items| :: Scalar(items[i]) && SeedBlind(t, items[i]) {
      forall i | 0 <= i < |xs| ensures !t.forbiddenText(xs[i]) {
        ShownIsBlind(t, items[i]);
      }
    }
  }

  lemma ShownIsBlind(t: Text, v: Value)
    requires Lawful(t) && Scalar(v) && SeedBlind(t, v)
    ensures !t.forbiddenText(t.show(v)) && !t.forbiddenText(t.strip(t.show(v)))
  {
    if v.Str? {
      assert t.show(Str(v.s)) == v.s;
    } else {
      assert v.Null? || v.Bool? || v.Int? || v.Float?;
    }
  }

  lemma PlainField(t: Text, f: map<Key, Value>, k: Key, default: Value)
    requires Plain(Dict(f)) && SeedBlind(t, Dict(f)) && Plain(default) && SeedBlind(t, default)
    ensures Plain(Get(f, k, default)) && SeedBlind(t, Get(f, k, default))
  {
  }

  lemma ChoiceIsBlind(t: Text, catalog: Catalog, e: Role1Event, f: map<Key, Value>)
    requires Lawful(t) && Plain(Dict(f)) && SeedBlind(t, Dict(f))
    requires ReadChoice(t, catalog, e, f).Ok?
    ensures var c := ReadChoice(t, catalog, e, f).value;
      && (c.stage.Some? ==> !t.forbiddenText(c.stage.value) && c.stage.value in e.allowedStages)
      && (c.tool.Some? ==> !t.forbiddenText(c.tool.value) && c.tool.value in e.allowedTools
                           && ToolIsProposalOnly(catalog, c.tool.value))
  {
    PlainField(t, f, SelectedStage, Null);
    PlainField(t, f, SelectedTool, Null);
    NameIsBlind(t, Get(f, SelectedStage, Null));
    NameIsBlind(t, Get(f, SelectedTool, Null));
  }

  lemma NameIsBlind(t: Text, v: Value)
    requires Lawful(t) && Plain(v) && SeedBlind(t, v) && ReadName(t, v).Ok?
    ensures ReadName(t, v).value.Some? ==> !t.forbiddenText(ReadName(t, v).value.value)
  {
    assert Scalar(v);
    ShownIsBlind(t, v);
  }

  lemma EffectsAreBlind(t: Text, f: map<Key, Value>)
    requires Lawful(t) && Plain(Dict(f)) && SeedBlind(t, Dict(f))
    requires ReadEffects(t, f).Ok?
    ensures var x := ReadEffects(t, f).value;
      && Plain(x.modifications) && SeedBlind(t, x.modifications) && NoControlClaims(t, x.modifications, false)
      && x.termination.Valid(t)
      && (x.action.Some? ==> ActionContract.InBounds(x.action.value))
  {
    PlainField(t, f, Modifications, Dict(map[]));
  }

  /** A termination reason given as one piece of text stays seed-blind. */
  lemma ReasonIsBlind(t: Text, f: map<Key, Value>)
    requires Lawful(t) && Plain(Dict(f)) && SeedBlind(t, Dict(f))
    requires ReadEffects(t, f).Ok?
    requires Termination in f && f[Termination].Dict? && Reason in f[Termination].fields ==> Scalar(f[Termination].fields[Reason])
    ensures !t.forbiddenText(ReadEffects(t, f).value.termination.reason)
  {
    if Termination in f {
      var v := f[Termination];
      assert v.Dict? && Reason in v.fields && SeedBlind(t, v.fields[Reason]);
      ShownIsBlind(t, v.fields[Reason]);
    } else {
      UnsetTermination(t);
    }
  }

  lemma UnsetTermination(t: Text)
    requires Lawful(t)
    ensures !t.forbiddenText("")
    ensures ReadTermination(t, TerminationDecision(false, "").ToDict()) == Ok(TerminationDecision(false, ""))
  {
    assert t.show(Str("")) == "";
  }

  lemma AccountIsBlind(t: Text, f: map<Key, Value>)
    requires Lawful(t) && Plain(Dict(f)) && SeedBlind(t, Dict(f))
    requires ReadAccount(t, f).Ok?
    ensures var a := ReadAccount(t, f).value;
      CleanEvidence(t, a.evidence) && 0.0 <= a.confidence <= 1.0 && Clean(t, a.rationale)
    ensures Scalar(Get(f, Rationale, Str(""))) ==> !t.forbiddenText(ReadAccount(t, f).value.rationale)
    ensures Scalars(Get(f, Evidence, Get(f, EvidenceUsed, Tuple([])))) ==> NamesAreBlind(t, ReadAccount(t, f).value.evidence)
  {
    PlainField(t, f, Rationale, Str(""));
    if Scalar(Get(f, Rationale, Str(""))) {
      ShownIsBlind(t, Get(f, Rationale, Str("")));
    }
    var v := Get(f, Evidence, Get(f, EvidenceUsed, Tuple([])));
    if Evidence in f || EvidenceUsed in f {
      PlainField(t, f, Evidence, Null);
      PlainField(t, f, EvidenceUsed, Null);
      assert Plain(v) && SeedBlind(t, v);
    }
    ReadStringsAreClean(t, v.items, ReadAccount(t, f).value.evidence);
  }

  lemma CitedAreClean(t: Text, e: Role1Event, f: map<Key, Value>)
    requires Lawful(t) && Plain(Dict(f)) && SeedBlind(t, Dict(f))
    requires ReadCited(t, e, f).Ok?
    ensures ProposalIds in f && Scalars(f[ProposalIds]) ==> NamesAreBlind(t, ReadCited(t, e, f).value)
  {
    if ProposalIds in f && Scalars(f[ProposalIds]) {
      PlainField(t, f, ProposalIds, Null);
      ReadStringsAreClean(t, f[ProposalIds].items, ReadCited(t, e, f).value);
    }
  }

  lemma GeneratedIdIsLegal(t: Text, normalized: Value)
    requires Lawful(t)
    ensures var id := GENERATED_PREFIX + t.sha256(normalized)[..DIGEST_PREFIX]; LegalId(id) && !t.forbiddenText(id)
  {
    var digest := t.sha256(normalized)[..DIGEST_PREFIX];
    assert Hex(digest);
    var id := GENERATED_PREFIX + digest;
    forall i | 0 <= i < |id| ensures Alphanumeric(id[i]) || id[i] in "._-" {
      if i < |GENERATED_PREFIX| {
        assert id[i] == GENERATED_PREFIX[i];
      } else {
        assert id[i] == digest[i - |GENERATED_PREFIX|];
      }
    }
  }

  lemma DecisionIdIsLegal(t: Text, v: Value, normalized: Value)
    requires Lawful(t) && Plain(v) && SeedBlind(t, v) && ReadDecisionId(t, v, normalized).Ok?
    ensures var id := ReadDecisionId(t, v, normalized).value; LegalId(id) && !t.forbiddenText(id)
  {
    GeneratedIdIsLegal(t, normalized);
    IdIsScalar(t, v, normalized);
    ShownIsBlind(t, v);
  }

  lemma IdIsScalar(t: Text, v: Value, normalized: Value)
    requires Lawful(t) && Plain(v) && ReadDecisionId(t, v, normalized).Ok?
    ensures Scalar(v)
  {
  }

  lemma ComposedIsAuthorized(t: Text, catalog: Catalog, e: Role1Event, id: string, h: Heading, c: Choice,
                             ids: seq<string>, x: Effects, a: Account)
    requires LegalId(id) && Plain(x.modifications)
    requires c.stage.Some? ==> c.stage.value in e.allowedStages
    requires c.tool.Some? ==> c.tool.value in e.allowedTools && ToolIsProposalOnly(catalog, c.tool.value)
    requires Unique(ids) && (forall id <- ids :: id in e.ProposalIds()) && (e.ProposalIds() != [] ==> ids != [])
    requires x.action.Some? ==> ActionContract.InBounds(x.action.value)
    requires x.termination.Valid(t) && NoControlClaims(t, x.modifications, false)
    requires RulesAllow(e, h, c, x) && CheckCritics(e, h, ids).Pass?
    requires CleanEvidence(t, a.evidence) && 0.0 <= a.confidence <= 1.0 && Clean(t, a.rationale)
    ensures Authorized(t, catalog, e, Compose(id, e, h, c, ids, x, a))
    ensures Thaw(Compose(id, e, h, c, ids, x, a).modifications) == x.modifications
  {
    ThawFreeze(x.modifications);
  }

  /**
   * Soundness: whatever the model wrote, an accepted decision is authorized,
   * and its printed form passes the seed check exactly when its stored texts
   * do.  They may not: proposal ids taken over from the event were never
   * checked, and an object given for a text is checked part by part but stored
   * as its printed whole.
   */
  lemma AcceptedIsAuthorized(t: Text, catalog: Catalog, e: Role1Event, raw: Value)
    requires Lawful(t) && e.Valid(t) && Validate(t, catalog, e, raw).Ok?
    ensures var d := Validate(t, catalog, e, raw).value;
      && Authorized(t, catalog, e, d)
      && (SeedBlind(t, Dict(d.ModelFields())) <==> TextsAreBlind(t, d))
  {
    var f := PlainJson(raw).value.fields;
    AcceptedParts(t, catalog, e, f);
    EventNameIsBlind(t, e);
    var c, ids := ReadChoice(t, catalog, e, f).value, ReadCited(t, e, f).value;
    var x, a := ReadEffects(t, f).value, ReadAccount(t, f).value;
    PartsAreBlind(t, catalog, e, f);
    ComposedIsBlind(t, Validate(t, catalog, e, raw).value, c, x);
  }

  lemma EventNameIsBlind(t: Text, e: Role1Event)
    requires e.Valid(t)
    ensures !t.forbiddenText(e.eventId)
  {
  }

  lemma AssembledShape(t: Text, e: Role1Event, id: Value, h: Heading, c: Choice, ids: seq<string>, x: Effects, a: Account)
    requires Digests(t) && Assemble(t, e, id, Ok(h), Ok(c), Ok(ids), Ok(x), Ok(a)).Ok?
    ensures RulesAllow(e, h, c, x) && CheckCritics(e, h, ids).Pass?
    ensures var d := Assemble(t, e, id, Ok(h), Ok(c), Ok(ids), Ok(x), Ok(a)).value;
      && d == Compose(d.decisionId, e, h, c, ids, x, a)
      && ReadDecisionId(t, id, Compose("", e, h, c, ids, x, a).Normalized()) == Ok(d.decisionId)
  {
  }

  lemma AssembledParts(t: Text, e: Role1Event, id: Value, heading: Result<Heading, ContractError>,
                       choice: Result<Choice, ContractError>, cited: Result<seq<string>, ContractError>,
                       effects: Result<Effects, ContractError>, account: Result<Account, ContractError>)
    requires Digests(t) && Assemble(t, e, id, heading, choice, cited, effects, account).Ok?
    ensures heading.Ok? && choice.Ok? && cited.Ok? && effects.Ok? && account.Ok?
  {
  }

  lemma AssembledId(t: Text, id: Value, normalized: Value, read: string)
    requires Lawful(t) && Plain(id) && SeedBlind(t, id) && ReadDecisionId(t, id, normalized) == Ok(read)
    ensures LegalId(read) && !t.forbiddenText(read)
  {
    DecisionIdIsLegal(t, id, normalized);
  }

  lemma CitedExist(t: Text, e: Role1Event, f: map<Key, Value>)
    requires ReadCited(t, e, f).Ok?
    ensures var ids := ReadCited(t, e, f).value;
      Unique(ids) && (forall id <- ids :: id in e.ProposalIds()) && (e.ProposalIds() != [] ==> ids != [])
  {
  }

  lemma AcceptedParts(t: Text, catalog: Catalog, e: Role1Event, f: map<Key, Value>)
    requires Lawful(t) && ReadDecision(t, catalog, e, f).Ok?
    requires Plain(Dict(f)) && SeedBlind(t, Dict(f))
    ensures ReadHeading(t, e, f).Ok? && ReadChoice(t, catalog, e, f).Ok? && ReadCited(t, e, f).Ok?
    ensures ReadEffects(t, f).Ok? && ReadAccount(t, f).Ok?
    ensures var d := ReadDecision(t, catalog, e, f).value;
      && d == Compose(d.decisionId, e, ReadHeading(t, e, f).value, ReadChoice(t, catalog, e, f).value,
                      ReadCited(t, e, f).value, ReadEffects(t, f).value, ReadAccount(t, f).value)
      && LegalId(d.decisionId) && !t.forbiddenText(d.decisionId)
      && Authorized(t, catalog, e, d)
  {
    var h, c, ids := ReadHeading(t, e, f), ReadChoice(t, catalog, e, f), ReadCited(t, e, f);
    var x, a := ReadEffects(t, f), ReadAccount(t, f);
    PlainField(t, f, DecisionId, Str(""));
    var id := Get(f, DecisionId, Str(""));
    AssembledParts(t, e, id, h, c, ids, x, a);
    AssembledShape(t, e, id, h.value, c.value, ids.value, x.value, a.value);
    AssembledId(t, id, Compose("", e, h.value, c.value, ids.value, x.value, a.value).Normalized(),
                ReadDecision(t, catalog, e, f).value.decisionId);
    PartsAreBlind(t, catalog, e, f);
    CitedExist(t, e, f);
    ComposedIsAuthorized(t, catalog, e, ReadDecision(t, catalog, e, f).value.decisionId, h.value, c.value, ids.value,
                         x.value, a.value);
  }

  lemma PartsAreBlind(t: Text, catalog: Catalog, e: Role1Event, f: map<Key, Value>)
    requires Lawful(t) && Plain(Dict(f)) && SeedBlind(t, Dict(f))
    requires ReadChoice(t, catalog, e, f).Ok? && ReadEffects(t, f).Ok? && ReadAccount(t, f).Ok?
    ensures var c := ReadChoice(t, catalog, e, f).value;
      && (c.stage.Some? ==> !t.forbiddenText(c.stage.value) && c.stage.value in e.allowedStages)
      && (c.tool.Some? ==> !t.forbiddenText(c.tool.value) && c.tool.value in e.allowedTools
                           && ToolIsProposalOnly(catalog, c.tool.value))
    ensures var x := ReadEffects(t, f).value;
      && Plain(x.modifications) && SeedBlind(t, x.modifications) && NoControlClaims(t, x.modifications, false)
      && x.termination.Valid(t)
      && (x.action.Some? ==> ActionContract.InBounds(x.action.value))
    ensures var a := ReadAccount(t, f).value;
      CleanEvidence(t, a.evidence) && 0.0 <= a.confidence <= 1.0 && Clean(t, a.rationale)
  {
    ChoiceIsBlind(t, catalog, e, f);
    EffectsAreBlind(t, f);
    AccountIsBlind(t, f);
  }

  lemma ComposedIsBlind(t: Text, d: Role1Decision, c: Choice, x: Effects)
    requires Lawful(t) && !t.forbiddenText(d.decisionId) && !t.forbiddenText(d.eventId)
    requires d.selectedStage == c.stage && d.selectedTool == c.tool && d.modifications == Freeze(x.modifications)
    requires c.stage.Some? ==> !t.forbiddenText(c.stage.value)
    requires c.tool.Some? ==> !t.forbiddenText(c.tool.value)
    requires Plain(x.modifications) && SeedBlind(t, x.modifications)
    ensures SeedBlind(t, Dict(d.ModelFields())) <==> TextsAreBlind(t, d)
  {
    ThawFreeze(x.modifications);
    DecisionIsBlind(t, d);
    FourNames(t, d.decisionId, d.eventId, d.termination.reason, d.rationale);
  }

  // ---- Every authorized decision is accepted -----------------------------

  lemma RereadHeading(t: Text, e: Role1Event, f: map<Key, Value>, h: Heading)
    requires Lawful(t) && Intent !in f && Has(f, EventId, Str(e.eventId))
    requires Has(f, ProposalDisposition, Str(h.disposition.Name())) && Has(f, ActionKind, Str(h.kind.Name()))
    ensures ReadHeading(t, e, f) == Ok(h)
  {
    NamesReadBack(h);
  }

  lemma NamesReadBack(h: Heading)
    ensures ReadDisposition(h.disposition.Name()) == Some(h.disposition)
    ensures ReadKind(h.kind.Name()) == Some(h.kind)
  {
    match h.disposition { case Accept => case Reject => case Modify => }
    match h.kind {
      case Continue =>
      case Switch =>
      case Recover =>
      case Restage =>
      case Regenerate =>
      case Replace =>
      case Terminate =>
    }
  }

  lemma RereadChoice(t: Text, catalog: Catalog, e: Role1Event, f: map<Key, Value>, c: Choice)
    requires Lawful(t) && Has(f, SelectedStage, OptStr(c.stage)) && Has(f, SelectedTool, OptStr(c.tool))
    requires c.stage.Some? ==> c.stage.value in e.allowedStages && c.stage.value != ""
    requires c.tool.Some? ==> c.tool.value in e.allowedTools && c.tool.value != "" && ToolIsProposalOnly(catalog, c.tool.value)
    ensures ReadChoice(t, catalog, e, f) == Ok(c)
  {
  }

  lemma RereadCited(t: Text, e: Role1Event, f: map<Key, Value>, ids: seq<string>)
    requires Lawful(t) && Has(f, ProposalIds, Strs(ids)) && (forall id <- ids :: Clean(t, id))
    requires Unique(ids) && (forall id <- ids :: id in e.ProposalIds()) && (e.ProposalIds() != [] ==> ids != [])
    ensures ReadCited(t, e, f) == Ok(ids)
  {
    AllNonemptyOfClean(t, ids, Strs(ids).items);
  }

  lemma RereadAction(a: Option<ActionContract.Action>)
    requires a.Some? ==> ActionContract.InBounds(a.value)
    ensures ReadAction(PrintedAction(a)) == Ok(a)
  {
    if a.Some? {
      ActionContract.CanonicalOfSerialized(a.value);
      SerializedIsPrefixed(a.value);
    }
  }

  lemma SerializedIsPrefixed(a: ActionContract.Action)
    ensures PrefixedComponents(ActionContract.Serialize(a).fields)
  {
  }

  lemma RereadTermination(t: Text, d: TerminationDecision)
    requires Lawful(t) && d.Valid(t)
    ensures ReadTermination(t, d.ToDict()) == Ok(d)
  {
    assert t.show(Str(d.reason)) == d.reason;
  }

  lemma RereadEffects(t: Text, f: map<Key, Value>, x: Effects)
    requires Lawful(t) && Has(f, DirectAction, PrintedAction(x.action)) && Has(f, Termination, x.termination.ToDict())
    requires Has(f, Modifications, x.modifications)
    requires x.action.Some? ==> ActionContract.InBounds(x.action.value)
    requires x.termination.Valid(t) && NoControlClaims(t, x.modifications, false)
    ensures ReadEffects(t, f) == Ok(x)
  {
    RereadAction(x.action);
    RereadTermination(t, x.termination);
  }

  lemma RereadAccount(t: Text, f: map<Key, Value>, a: Account)
    requires Lawful(t) && Has(f, Evidence, Strs(a.evidence)) && Has(f, Confidence, Float(a.confidence))
    requires Has(f, Rationale, Str(a.rationale))
    requires CleanEvidence(t, a.evidence) && 0.0 <= a.confidence <= 1.0 && Clean(t, a.rationale)
    ensures ReadAccount(t, f) == Ok(a)
  {
    AllNonemptyOfClean(t, a.evidence, Strs(a.evidence).items);
  }

  lemma Reassemble(t: Text, e: Role1Event, d: Role1Decision, h: Heading, c: Choice, ids: seq<string>, x: Effects,
                   a: Account)
    requires Lawful(t) && RulesAllow(e, h, c, x) && CheckCritics(e, h, ids).Pass?
    requires LegalId(d.decisionId) && d == Compose(d.decisionId, e, h, c, ids, x, a)
    ensures Assemble(t, e, Str(d.decisionId), Ok(h), Ok(c), Ok(ids), Ok(x), Ok(a)) == Ok(d)
  {
    assert t.strip(t.show(Str(d.decisionId))) == d.decisionId;
  }

  lemma CitedIdsAreClean(t: Text, e: Role1Event)
    requires e.Valid(t)
    ensures forall id <- e.ProposalIds() :: Clean(t, id)
  {
    forall id | id in e.ProposalIds() ensures Clean(t, id) {
      var i :| 0 <= i < |e.ProposalIds()| && e.ProposalIds()[i] == id;
      if i < |e.toolProposals| {
        assert e.toolProposals[i].Valid(t);
      } else {
        assert e.criticProposals[i - |e.toolProposals|].Valid(t);
      }
    }
  }

  lemma DecisionFieldsArePlain(d: Role1Decision)
    requires Frozen(d.modifications)
    ensures Plain(Dict(d.ModelFields())) && PlainJson(Dict(d.ModelFields())) == Some(Dict(d.ModelFields()))
  {
    hide Role1Decision.ModelFields, Thaw, PrintedAction, OptStr, Strs, TerminationDecision.ToDict, SelectionKey, ContentKey;
    var plain := v => Plain(v);
    PrintedLookups(d);
    PartsArePlain(d, plain);
    EveryField(d.ModelFields(), plain);
    FieldsArePlain(d.ModelFields(), plain);
    PlainJsonOfPlain(Dict(d.ModelFields()));
  }

  lemma FieldsArePlain(f: map<Key, Value>, plain: Value -> bool)
    requires plain == (v => Plain(v))
    ensures Plain(Dict(f)) <==> forall k | k in f :: plain(f[k])
  {
  }

  lemma PartsArePlain(d: Role1Decision, plain: Value -> bool)
    requires Frozen(d.modifications) && plain == (v => Plain(v))
    ensures plain(OptStr(d.selectedStage)) && plain(OptStr(d.selectedTool)) && plain(PrintedAction(d.directAction))
    ensures plain(d.termination.ToDict()) && plain(Strs(d.evidence)) && plain(Strs(d.proposalIds))
    ensures plain(Thaw(d.modifications)) && plain(Float(d.confidence)) && forall s :: plain(Str(s))
  {
    FreezeThaw(d.modifications);
    ActionIsPlain(d.directAction);
    TerminationIsPlain(d.termination);
    StrsArePlain(d.evidence);
    StrsArePlain(d.proposalIds);
  }

  lemma TerminationIsPlain(d: TerminationDecision)
    ensures Plain(d.ToDict())
  {
    var f := d.ToDict().fields;
    assert f[Reason] == Str(d.reason) && f[Approved] == Bool(d.approved);
  }

  lemma StrsArePlain(xs: seq<string>)
    ensures Plain(Strs(xs))
  {
    forall i | 0 <= i < |xs| ensures Plain(Strs(xs).items[i]) { }
  }

  lemma ActionIsPlain(a: Option<ActionContract.Action>)
    ensures Plain(PrintedAction(a))
  {
    if a.Some? {
      forall xs: seq<real> ensures Plain(ActionContract.Floats(xs)) { }
    }
  }

  lemma ReadAuthorized(t: Text, catalog: Catalog, e: Role1Event, d: Role1Decision)
    requires Lawful(t) && e.Valid(t) && Authorized(t, catalog, e, d)
    ensures ReadDecision(t, catalog, e, d.ModelFields()) == Ok(d)
  {
    PrintedLookups(d);
    CitedIdsAreClean(t, e);
    AllowedAreClean(t, e);
    ReadPrints(t, catalog, e, d, d.ModelFields());
  }

  lemma ReadPrints(t: Text, catalog: Catalog, e: Role1Event, d: Role1Decision, f: map<Key, Value>)
    requires Lawful(t) && Authorized(t, catalog, e, d) && Prints(f, d)
    requires "" !in e.allowedStages && "" !in e.allowedTools && forall id <- e.ProposalIds() :: Clean(t, id)
    ensures ReadDecision(t, catalog, e, f) == Ok(d)
  {
    hide *;
    LawfulDigests(t);
    PrintsDecisionKeys(f, d);
    ReadAuthorizedParts(t, catalog, e, d, f);
    RecomposeAuthorized(t, catalog, e, d);
    AssembleRead(t, catalog, e, f, d, Ok(Heading(d.disposition, d.kind)), Ok(Choice(d.selectedStage, d.selectedTool)),
                 Ok(d.proposalIds), Ok(PrintedEffects(d)), Ok(Account(d.evidence, d.confidence, d.rationale)));
  }

  lemma LawfulDigests(t: Text)
    requires Lawful(t)
    ensures Digests(t)
  {
  }

  lemma PrintsDecisionKeys(f: map<Key, Value>, d: Role1Decision)
    requires Prints(f, d)
    ensures (forall k | k in f :: DecisionKey(k)) && Has(f, DecisionId, Str(d.decisionId))
  {
    hide SelectionKey, ContentKey, Has;
  }

  lemma AssembleRead(t: Text, catalog: Catalog, e: Role1Event, f: map<Key, Value>, d: Role1Decision,
                     heading: Result<Heading, ContractError>, choice: Result<Choice, ContractError>,
                     cited: Result<seq<string>, ContractError>, effects: Result<Effects, ContractError>,
                     account: Result<Account, ContractError>)
    requires Digests(t) && (forall k | k in f :: DecisionKey(k)) && Has(f, DecisionId, Str(d.decisionId))
    requires ReadHeading(t, e, f) == heading && ReadChoice(t, catalog, e, f) == choice && ReadCited(t, e, f) == cited
    requires ReadEffects(t, f) == effects && ReadAccount(t, f) == account
    requires Assemble(t, e, Str(d.decisionId), heading, choice, cited, effects, account) == Ok(d)
    ensures ReadDecision(t, catalog, e, f) == Ok(d)
  {
  }

  lemma ReadAuthorizedParts(t: Text, catalog: Catalog, e: Role1Event, d: Role1Decision, f: map<Key, Value>)
    requires Lawful(t) && Authorized(t, catalog, e, d) && Prints(f, d)
    requires "" !in e.allowedStages && "" !in e.allowedTools && forall id <- e.ProposalIds() :: Clean(t, id)
    ensures ReadHeading(t, e, f) == Ok(Heading(d.disposition, d.kind))
    ensures ReadChoice(t, catalog, e, f) == Ok(Choice(d.selectedStage, d.selectedTool))
    ensures ReadCited(t, e, f) == Ok(d.proposalIds) && ReadEffects(t, f) == Ok(PrintedEffects(d))
    ensures ReadAccount(t, f) == Ok(Account(d.evidence, d.confidence, d.rationale))
  {
    hide *;
    AuthorizedFacts(t, catalog, e, d);
    PrintsFacts(f, d);
    ReadPrinted(t, catalog, e, f, Heading(d.disposition, d.kind), Choice(d.selectedStage, d.selectedTool), d.proposalIds,
                PrintedEffects(d), Account(d.evidence, d.confidence, d.rationale));
  }

  /** What reading back needs to know about an authorized decision. */
  lemma AuthorizedFacts(t: Text, catalog: Catalog, e: Role1Event, d: Role1Decision)
    requires Authorized(t, catalog, e, d)
    requires "" !in e.allowedStages && "" !in e.allowedTools && forall id <- e.ProposalIds() :: Clean(t, id)
    ensures var c, x := Choice(d.selectedStage, d.selectedTool), PrintedEffects(d);
      && d.eventId == e.eventId
      && (c.stage.Some? ==> c.stage.value in e.allowedStages && c.stage.value != "")
      && (c.tool.Some? ==> c.tool.value in e.allowedTools && c.tool.value != "" && ToolIsProposalOnly(catalog, c.tool.value))
      && (forall id <- d.proposalIds :: Clean(t, id))
      && Unique(d.proposalIds) && (forall id <- d.proposalIds :: id in e.ProposalIds())
      && (e.ProposalIds() != [] ==> d.proposalIds != [])
      && (x.action.Some? ==> ActionContract.InBounds(x.action.value))
      && x.termination.Valid(t) && NoControlClaims(t, x.modifications, false)
      && CleanEvidence(t, d.evidence) && 0.0 <= d.confidence <= 1.0 && Clean(t, d.rationale)
  {
    hide NoControlClaims, RulesAllow, CheckCritics, Thaw, Clean, CleanEvidence, Unique, LegalId, ToolIsProposalOnly,
      ActionContract.InBounds, TerminationDecision.Valid, Frozen;
  }

  lemma PrintsFacts(f: map<Key, Value>, d: Role1Decision)
    requires Prints(f, d)
    ensures Intent !in f && Has(f, EventId, Str(d.eventId))
    ensures Has(f, ProposalDisposition, Str(d.disposition.Name())) && Has(f, ActionKind, Str(d.kind.Name()))
    ensures Has(f, SelectedStage, OptStr(d.selectedStage)) && Has(f, SelectedTool, OptStr(d.selectedTool))
    ensures Has(f, DirectAction, PrintedAction(PrintedEffects(d).action))
    ensures Has(f, Termination, PrintedEffects(d).termination.ToDict())
    ensures Has(f, Modifications, PrintedEffects(d).modifications)
    ensures Has(f, Evidence, Strs(d.evidence)) && Has(f, Confidence, Float(d.confidence))
    ensures Has(f, Rationale, Str(d.rationale)) && Has(f, ProposalIds, Strs(d.proposalIds))
  {
    hide Has, OptStr, PrintedAction, TerminationDecision.ToDict, Strs, Thaw, Disposition.Name, Kind.Name;
  }

  lemma AllowedAreClean(t: Text, e: Role1Event)
    requires e.Valid(t)
    ensures "" !in e.allowedStages && "" !in e.allowedTools
  {
  }

  lemma RecomposeAuthorized(t: Text, catalog: Catalog, e: Role1Event, d: Role1Decision)
    requires Lawful(t) && Authorized(t, catalog, e, d)
    ensures Assemble(t, e, Str(d.decisionId), Ok(Heading(d.disposition, d.kind)),
                     Ok(Choice(d.selectedStage, d.selectedTool)), Ok(d.proposalIds), Ok(PrintedEffects(d)),
                     Ok(Account(d.evidence, d.confidence, d.rationale))) == Ok(d)
  {
    FreezeThaw(d.modifications);
    Reassemble(t, e, d, Heading(d.disposition, d.kind), Choice(d.selectedStage, d.selectedTool), d.proposalIds,
               PrintedEffects(d), Account(d.evidence, d.confidence, d.rationale));
  }

  lemma ReadPrinted(t: Text, catalog: Catalog, e: Role1Event, f: map<Key, Value>, h: Heading, c: Choice,
                    ids: seq<string>, x: Effects, a: Account)
    requires Lawful(t) && Intent !in f && Has(f, EventId, Str(e.eventId))
    requires Has(f, ProposalDisposition, Str(h.disposition.Name())) && Has(f, ActionKind, Str(h.kind.Name()))
    requires Has(f, SelectedStage, OptStr(c.stage)) && Has(f, SelectedTool, OptStr(c.tool))
    requires c.stage.Some? ==> c.stage.value in e.allowedStages && c.stage.value != ""
    requires c.tool.Some? ==> c.tool.value in e.allowedTools && c.tool.value != "" && ToolIsProposalOnly(catalog, c.tool.value)
    requires Has(f, ProposalIds, Strs(ids)) && (forall id <- ids :: Clean(t, id))
    requires Unique(ids) && (forall id <- ids :: id in e.ProposalIds()) && (e.ProposalIds() != [] ==> ids != [])
    requires Has(f, DirectAction, PrintedAction(x.action)) && Has(f, Termination, x.termination.ToDict())
    requires Has(f, Modifications, x.modifications)
    requires x.action.Some? ==> ActionContract.InBounds(x.action.value)
    requires x.termination.Valid(t) && NoControlClaims(t, x.modifications, false)
    requires Has(f, Evidence, Strs(a.evidence)) && Has(f, Confidence, Float(a.confidence))
    requires Has(f, Rationale, Str(a.rationale))
    requires CleanEvidence(t, a.evidence) && 0.0 <= a.confidence <= 1.0 && Clean(t, a.rationale)
    ensures ReadHeading(t, e, f) == Ok(h) && ReadChoice(t, catalog, e, f) == Ok(c) && ReadCited(t, e, f) == Ok(ids)
    ensures ReadEffects(t, f) == Ok(x) && ReadAccount(t, f) == Ok(a)
  {
    RereadHeading(t, e, f, h);
    RereadChoice(t, catalog, e, f, c);
    RereadCited(t, e, f, ids);
    RereadEffects(t, f, x);
    RereadAccount(t, f, a);
  }

  /** Completeness: an authorized decision is accepted from its own printed fields, unless they leak a seed. */
  lemma AuthorizedIsAccepted(t: Text, catalog: Catalog, e: Role1Event, d: Role1Decision)
    requires Lawful(t) && e.Valid(t) && Authorized(t, catalog, e, d)
    ensures Validate(t, catalog, e, Dict(WithoutFixed(d.Fields())))
            == if SeedBlind(t, Dict(d.ModelFields())) then Ok(d) else Err(LeaksSeed)
  {
    hide Role1Decision.ModelFields, ReadDecision, Lawful, RulesAllow, CheckCritics, NoControlClaims;
    WithoutFixedFields(d);
    DecisionFieldsArePlain(d);
    ReadAuthorized(t, catalog, e, d);
  }

  /** A decision re-validates to itself exactly when the texts it stores are seed-blind. */
  lemma DecisionRoundTrip(t: Text, catalog: Catalog, e: Role1Event, raw: Value)
    requires Lawful(t) && e.Valid(t) && Validate(t, catalog, e, raw).Ok?
    ensures var d := Validate(t, catalog, e, raw).value;
      Validate(t, catalog, e, Dict(WithoutFixed(d.Fields()))) == Ok(d) <==> TextsAreBlind(t, d)
  {
    AcceptedIsAuthorized(t, catalog, e, raw);
    AuthorizedIsAccepted(t, catalog, e, Validate(t, catalog, e, raw).value);
  }

  /** The proposals are listed, and every text of the raw decision is given as one piece of text. */
  predicate GivesTexts(f: map<Key, Value>)
  {
    && ProposalIds in f && Scalars(f[ProposalIds]) && Scalars(Get(f, Evidence, Get(f, EvidenceUsed, Tuple([]))))
    && Scalar(Get(f, Rationale, Str("")))
    && (Termination in f && f[Termination].Dict? && Reason in f[Termination].fields ==> Scalar(f[Termination].fields[Reason]))
  }

  /** When the model lists the proposals itself and gives texts as texts, the round trip never fails. */
  lemma GivenTextsAreBlind(t: Text, catalog: Catalog, e: Role1Event, raw: Value)
    requires Lawful(t) && e.Valid(t) && Validate(t, catalog, e, raw).Ok?
    requires GivesTexts(PlainJson(raw).value.fields)
    ensures TextsAreBlind(t, Validate(t, catalog, e, raw).value)
  {
    hide TextsAreBlind, Lawful, GivesTexts;
    ReadTextsAreBlind(t, catalog, e, PlainJson(raw).value.fields);
  }

  lemma ReadTextsAreBlind(t: Text, catalog: Catalog, e: Role1Event, f: map<Key, Value>)
    requires Lawful(t) && Plain(Dict(f)) && SeedBlind(t, Dict(f)) && GivesTexts(f)
    requires ReadDecision(t, catalog, e, f).Ok?
    ensures TextsAreBlind(t, ReadDecision(t, catalog, e, f).value)
  {
    AcceptedParts(t, catalog, e, f);
    CitedAreClean(t, e, f);
    ReasonIsBlind(t, f);
    AccountIsBlind(t, f);
  }

  /** What no accepted decision can do. */
  lemma AuthorityLimits(t: Text, catalog: Catalog, e: Role1Event, raw: Value)
    requires Lawful(t) && e.Valid(t) && Validate(t, catalog, e, raw).Ok?
    ensures var d := Validate(t, catalog, e, raw).value;
      && (d.termination.approved <==> d.kind == Terminate)
      && (d.selectedTool.None? || d.directAction.None?)
      && (d.directAction.Some? ==> d.kind == Recover || d.kind == Replace)
      && (d.kind == Continue ==> d.disposition != Reject && d.directAction.None?
                                 && (d.selectedTool.Some? ==> d.selectedTool == e.currentTool))
      && (d.disposition == Accept ==> !Thaw(d.modifications).Truthy())
      && (forall p <- e.criticProposals ::
            p.rejectCurrentAction && p.proposalId in d.proposalIds && d.disposition == Accept && d.kind == Continue
            ==> CitesFrozenAlternative(e, d.proposalIds))
  {
    hide Lawful, Validate, NoControlClaims, LegalId, CleanEvidence;
    AcceptedIsAuthorized(t, catalog, e, raw);
  }

  // ---- Where the round trip fails ----------------------------------------

  /** The two raw decisions differ in the listed ids and the rationale at most. */
  ghost predicate Agree(f: map<Key, Value>, g: map<Key, Value>)
  {
    forall k: Key | !k.ProposalIds? && !k.Rationale? :: (k in f <==> k in g) && (k in f ==> f[k] == g[k])
  }

  lemma SameFields(f: map<Key, Value>, g: map<Key, Value>, k: Key, v: Value)
    requires Agree(f, g) && !k.ProposalIds? && !k.Rationale?
    ensures Get(f, k, v) == Get(g, k, v) && (k in f <==> k in g) && (k in f ==> f[k] == g[k])
  {
  }

  lemma SameHeading(t: Text, e: Role1Event, f: map<Key, Value>, g: map<Key, Value>)
    requires Agree(f, g)
    ensures ReadHeading(t, e, f) == ReadHeading(t, e, g)
  {
    hide ReadKind, ReadDisposition, Get, Agree;
    SameFields(f, g, EventId, Str(e.eventId));
    SameFields(f, g, ProposalDisposition, Str(""));
    SameFields(f, g, Intent, Str(""));
    SameFields(f, g, ActionKind, Get(f, Intent, Str("")));
  }

  lemma SameChoice(t: Text, catalog: Catalog, e: Role1Event, f: map<Key, Value>, g: map<Key, Value>)
    requires Agree(f, g)
    ensures ReadChoice(t, catalog, e, f) == ReadChoice(t, catalog, e, g)
  {
    hide ReadName, Get, Agree;
    SameFields(f, g, SelectedStage, Null);
    SameFields(f, g, SelectedTool, Null);
  }

  lemma SameEffects(t: Text, f: map<Key, Value>, g: map<Key, Value>)
    requires Agree(f, g)
    ensures ReadEffects(t, f) == ReadEffects(t, g)
  {
    hide ReadAction, ReadTermination, NoControlClaims, Get, Agree;
    SameFields(f, g, DirectAction, Null);
    SameFields(f, g, Termination, TerminationDecision(false, "").ToDict());
    SameFields(f, g, Modifications, Dict(map[]));
  }

  lemma SameKeys(f: map<Key, Value>, g: map<Key, Value>)
    requires Agree(f, g)
    ensures (forall k | k in f :: DecisionKey(k)) <==> (forall k | k in g :: DecisionKey(k))
    ensures Get(f, DecisionId, Str("")) == Get(g, DecisionId, Str(""))
  {
    forall k | k in f && k !in g ensures DecisionKey(k) { }
    forall k | k in g && k !in f ensures DecisionKey(k) { }
  }

  /** The account but for the rationale. */
  lemma SameAccount(t: Text, f: map<Key, Value>, g: map<Key, Value>)
    requires Agree(f, g)
    requires Nonempty(t, Get(f, Rationale, Str(""))) == Nonempty(t, Get(g, Rationale, Str("")))
    ensures ReadAccount(t, f) == ReadAccount(t, g)
  {
    hide ReadEvidence, ReadConfidence, Nonempty, Get, Agree;
    SameFields(f, g, EvidenceUsed, Tuple([]));
    SameFields(f, g, Evidence, Get(f, EvidenceUsed, Tuple([])));
    SameFields(f, g, Confidence, Null);
  }

  /** Decisions differing in the listed ids or the rationale read the same when that field does. */
  lemma SameDecision(t: Text, catalog: Catalog, e: Role1Event, f: map<Key, Value>, g: map<Key, Value>)
    requires Digests(t) && Agree(f, g)
    requires ReadCited(t, e, f) == ReadCited(t, e, g)
    requires Nonempty(t, Get(f, Rationale, Str(""))) == Nonempty(t, Get(g, Rationale, Str("")))
    ensures ReadDecision(t, catalog, e, f) == ReadDecision(t, catalog, e, g)
  {
    hide ReadHeading, ReadChoice, ReadCited, ReadEffects, ReadAccount, Assemble, Agree;
    SameHeading(t, e, f, g);
    SameChoice(t, catalog, e, f, g);
    SameEffects(t, f, g);
    SameAccount(t, f, g);
    SameKeys(f, g);
  }

  lemma OmittedIdsCited(t: Text, e: Role1Event, f: map<Key, Value>)
    requires Has(f, ProposalIds, Strs(e.ProposalIds()))
    ensures ReadCited(t, e, f - {ProposalIds}) == ReadCited(t, e, f)
  {
    hide AllNonempty, Unique, Strs;
  }

  /** Leaving the cited proposals out cites all of the event's, unchecked. */
  lemma OmittedIds(t: Text, catalog: Catalog, e: Role1Event, f: map<Key, Value>)
    requires Digests(t) && Has(f, ProposalIds, Strs(e.ProposalIds()))
    ensures ReadDecision(t, catalog, e, f - {ProposalIds}) == ReadDecision(t, catalog, e, f)
  {
    hide ReadDecision, ReadCited, Nonempty;
    OmittedIdsCited(t, e, f);
    SameDecision(t, catalog, e, f, f - {ProposalIds});
  }

  lemma OmittedIdsAreBlind(t: Text, d: Role1Decision)
    requires Lawful(t) && NamesAreBlind(t, [d.decisionId, d.eventId, d.termination.reason, d.rationale])
    requires d.selectedStage.None? && d.selectedTool.None?
    requires NamesAreBlind(t, d.evidence) && SeedBlind(t, Thaw(d.modifications))
    ensures SeedBlind(t, Dict(d.ModelFields() - {ProposalIds}))
  {
    hide Role1Decision.ModelFields, NamesAreBlind;
    var cleared := d.(proposalIds := []);
    assert NamesAreBlind(t, []) by { NothingToLeak(t); }
    DecisionIsBlind(t, cleared);
    SameWithoutIds(d, cleared);
    FewerFieldsAreBlind(t, cleared.ModelFields());
  }

  lemma NothingToLeak(t: Text)
    ensures NamesAreBlind(t, [])
  {
  }

  lemma SameWithoutIds(d: Role1Decision, c: Role1Decision)
    requires c == d.(proposalIds := [])
    ensures c.ModelFields() - {ProposalIds} == d.ModelFields() - {ProposalIds}
  {
    hide PrintedAction, OptStr, Thaw, TerminationDecision.ToDict, Disposition.Name, Kind.Name;
  }

  lemma FewerFieldsAreBlind(t: Text, f: map<Key, Value>)
    requires SeedBlind(t, Dict(f))
    ensures SeedBlind(t, Dict(f - {ProposalIds}))
  {
  }

  function ExampleEvent(id: string): Role1Event
  {
    Role1Event("ok", "ok", 0, None, None, ["ok"], [], Proxy(map[]), Proxy(map[]), [],
               [CriticProposal(id, false, "ok", ["ok"], Proxy(map[]))], [])
  }

  function ExampleDecision(id: string): Role1Decision
  {
    Role1Decision("ok", "ok", Accept, Continue, None, None, None, TerminationDecision(false, ""), ["ok"], 0.5, "ok",
                  [id], Proxy(map[]))
  }

  lemma ExampleIsAuthorized(t: Text, catalog: Catalog, id: string)
    requires Lawful(t) && Clean(t, id) && !t.forbiddenText("ok")
    ensures ExampleEvent(id).Valid(t) && ExampleEvent(id).ProposalIds() == [id]
    ensures Authorized(t, catalog, ExampleEvent(id), ExampleDecision(id))
  {
    assert LegalId("ok");
    assert Clean(t, "ok");
  }

  /**
   * A concrete failure: a critic proposal whose id reads like a seed is
   * accepted when the model leaves the cited ids out, and the stored decision
   * is then refused when it is read back.
   */
  lemma UncheckedIdIsNotReadBack(t: Text, catalog: Catalog, id: string)
    requires Lawful(t) && Clean(t, id) && t.forbiddenText(id) && !t.forbiddenText("ok")
    ensures var e, d := ExampleEvent(id), ExampleDecision(id);
      && e.Valid(t)
      && Validate(t, catalog, e, Dict(d.ModelFields() - {ProposalIds})) == Ok(d)
      && Validate(t, catalog, e, Dict(WithoutFixed(d.Fields()))) == Err(LeaksSeed)
  {
    hide Role1Decision.ModelFields, Role1Event.Valid, Authorized, Lawful, ReadDecision, NamesAreBlind, Role1Decision.Fields;
    var e, d := ExampleEvent(id), ExampleDecision(id);
    ExampleIsAuthorized(t, catalog, id);
    ExampleIsBlind(t, id);
    AuthorizedIsAccepted(t, catalog, e, d);
    DecisionIsBlind(t, d);
    LawfulDigests(t);
    ReadAuthorized(t, catalog, e, d);
    PrintedLookups(d);
    OmittedIds(t, catalog, e, d.ModelFields());
    OmittedIdsAreBlind(t, d);
    DecisionFieldsArePlain(d);
    FewerFieldsArePlain(d.ModelFields());
  }

  lemma ReplacedRationale(t: Text, catalog: Catalog, e: Role1Event, f: map<Key, Value>, v: Value)
    requires Digests(t) && Rationale in f && Nonempty(t, v) == Nonempty(t, f[Rationale])
    ensures ReadDecision(t, catalog, e, f[Rationale := v]) == ReadDecision(t, catalog, e, f)
  {
    hide ReadDecision, AllNonempty, Unique, Strs, Nonempty;
    SameDecision(t, catalog, e, f, f[Rationale := v]);
  }

  lemma ReplacedFieldIsPlainAndBlind(t: Text, f: map<Key, Value>, v: Value)
    requires Plain(Dict(f)) && SeedBlind(t, Dict(f)) && Plain(v) && SeedBlind(t, v) && !t.forbiddenKey(Rationale)
    ensures var g := Dict(f[Rationale := v]); PlainJson(g) == Some(g) && SeedBlind(t, g)
  {
    PlainJsonOfPlain(Dict(f[Rationale := v]));
  }

  /**
   * Another concrete failure: a seed-blind object given for the rationale is
   * stored as its printed text, which may read like a seed when it is read back.
   */
  lemma ObjectRationaleIsNotReadBack(t: Text, catalog: Catalog, v: Value)
    requires Lawful(t) && !t.forbiddenText("ok") && Plain(v) && SeedBlind(t, v)
    requires t.strip(t.show(v)) != "" && t.forbiddenText(t.strip(t.show(v)))
    ensures var e, d := ExampleEvent("ok"), ExampleDecision("ok").(rationale := t.strip(t.show(v)));
      && e.Valid(t)
      && Validate(t, catalog, e, Dict(ExampleDecision("ok").ModelFields()[Rationale := v])) == Ok(d)
      && Validate(t, catalog, e, Dict(WithoutFixed(d.Fields()))) == Err(LeaksSeed)
  {
    hide *;
    var e, plain := ExampleEvent("ok"), ExampleDecision("ok");
    var d := plain.(rationale := t.strip(t.show(v)));
    OkIsClean(t, v);
    ExampleIsAuthorized(t, catalog, "ok");
    OtherRationaleIsAuthorized(t, catalog, e, plain, d);
    ExampleIsBlindBut(t, d);
    LeakyTextIsRefused(t, catalog, e, d);
    ReadAuthorized(t, catalog, e, d);
    ObjectIsAccepted(t, catalog, e, plain, d, v);
  }

  lemma LeakyTextIsRefused(t: Text, catalog: Catalog, e: Role1Event, d: Role1Decision)
    requires Lawful(t) && e.Valid(t) && Authorized(t, catalog, e, d)
    requires !NamesAreBlind(t, [d.decisionId, d.eventId, d.termination.reason, d.rationale])
    ensures Digests(t) && Validate(t, catalog, e, Dict(WithoutFixed(d.Fields()))) == Err(LeaksSeed)
  {
    hide *;
    LawfulDigests(t);
    DecisionIsBlind(t, d);
    AuthorizedIsAccepted(t, catalog, e, d);
  }

  lemma ObjectIsAccepted(t: Text, catalog: Catalog, e: Role1Event, plain: Role1Decision, d: Role1Decision, v: Value)
    requires Lawful(t) && Digests(t) && Plain(v) && SeedBlind(t, v) && !t.forbiddenKey(Rationale)
    requires plain == d.(rationale := plain.rationale) && Nonempty(t, v) == Nonempty(t, Str(d.rationale))
    requires Frozen(plain.modifications) && SeedBlind(t, Dict(plain.ModelFields()))
    requires ReadDecision(t, catalog, e, d.ModelFields()) == Ok(d)
    ensures Validate(t, catalog, e, Dict(plain.ModelFields()[Rationale := v])) == Ok(d)
  {
    hide *;
    var f := d.ModelFields();
    SameButRationale(d, plain, v);
    ReplacedRationale(t, catalog, e, f, v);
    DecisionFieldsArePlain(plain);
    ReplacedFieldIsPlainAndBlind(t, plain.ModelFields(), v);
    AcceptedFields(t, catalog, e, f[Rationale := v]);
  }

  lemma AcceptedFields(t: Text, catalog: Catalog, e: Role1Event, f: map<Key, Value>)
    requires Digests(t) && PlainJson(Dict(f)) == Some(Dict(f)) && SeedBlind(t, Dict(f))
    ensures Validate(t, catalog, e, Dict(f)) == ReadDecision(t, catalog, e, f)
  {
    hide ReadDecision;
  }

  lemma OkIsClean(t: Text, v: Value)
    requires Lawful(t) && t.strip(t.show(v)) != ""
    ensures Digests(t) && Clean(t, "ok") && Clean(t, t.strip(t.show(v))) && !t.forbiddenKey(Rationale)
    ensures Nonempty(t, v) == Nonempty(t, Str(t.strip(t.show(v))))
  {
    assert LegalId("ok");
  }

  lemma SameButRationale(c: Role1Decision, d: Role1Decision, v: Value)
    requires d == c.(rationale := d.rationale)
    ensures var f := c.ModelFields();
      Rationale in f && f[Rationale] == Str(c.rationale) && d.ModelFields()[Rationale := v] == f[Rationale := v]
  {
    hide PrintedAction, OptStr, Thaw, TerminationDecision.ToDict, Disposition.Name, Kind.Name, Strs;
  }

  lemma OtherRationaleIsAuthorized(t: Text, catalog: Catalog, e: Role1Event, c: Role1Decision, d: Role1Decision)
    requires Authorized(t, catalog, e, c) && d == c.(rationale := d.rationale) && Clean(t, d.rationale)
    ensures Authorized(t, catalog, e, d)
  {
    hide RulesAllow, CheckCritics, NoControlClaims, CleanEvidence, LegalId, Unique, Frozen, Thaw;
  }

  lemma ExampleIsBlindBut(t: Text, d: Role1Decision)
    requires Lawful(t) && !t.forbiddenText("ok") && d == ExampleDecision("ok").(rationale := d.rationale)
    requires t.forbiddenText(d.rationale)
    ensures !NamesAreBlind(t, [d.decisionId, d.eventId, d.termination.reason, d.rationale])
    ensures Frozen(ExampleDecision("ok").modifications) && SeedBlind(t, Dict(ExampleDecision("ok").ModelFields()))
  {
    hide Role1Decision.ModelFields;
    assert d.rationale in [d.decisionId, d.eventId, d.termination.reason, d.rationale];
    DecisionIsBlind(t, ExampleDecision("ok"));
  }

  lemma FewerFieldsArePlain(f: map<Key, Value>)
    requires Plain(Dict(f))
    ensures PlainJson(Dict(f - {ProposalIds})) == Some(Dict(f - {ProposalIds}))
  {
    PlainJsonOfPlain(Dict(f - {ProposalIds}));
  }

  lemma ExampleIsBlind(t: Text, id: string)
    requires Lawful(t) && !t.forbiddenText("ok") && t.forbiddenText(id)
    ensures var d := ExampleDecision(id);
      && NamesAreBlind(t, [d.decisionId, d.eventId, d.termination.reason, d.rationale])
      && NamesAreBlind(t, d.evidence) && SeedBlind(t, Thaw(d.modifications)) && Frozen(d.modifications)
      && !NamesAreBlind(t, d.proposalIds)
  {
    assert id in [id];
  }
}
