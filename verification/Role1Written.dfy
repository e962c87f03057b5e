/**
 * What a raw decision says, read field by field, and the theorem that the
 * validator accepts exactly the decisions that are said and authorized.
 */
module Role1Written {
  import opened Wrappers
  import opened PlainValues
  import opened Role1Text
  import opened Role1Agent
  import opened Role1Decisions
  import ActionContract

  /** The names and aliases of the action kinds. */
  predicate Means(text: string, kind: Kind)
  {
    match kind
    case Continue => text == "continue"
    case Switch => text == "switch" || text == "switch_tool"
    case Recover => text == "recover"
    case Restage => text == "restage"
    case Regenerate => text == "regenerate" || text == "regenerate_grasp"
    case Replace => text == "replace" || text == "execute_action"
    case Terminate => text == "terminate" || text == "terminate_episode"
  }

  predicate SaysHeading(t: Text, e: Role1Event, f: map<Key, Value>, h: Heading)
  {
    && t.show(Get(f, EventId, Str(e.eventId))) == e.eventId
    && t.show(Get(f, ProposalDisposition, Str(""))) == h.disposition.Name()
    && Means(t.show(Get(f, ActionKind, Get(f, Intent, Str("")))), h.kind)
    && (ActionKind in f && Intent in f ==> f[ActionKind] == f[Intent])
  }

  /** A name, or nothing when null or empty. */
  predicate SaysName(t: Text, v: Value, name: Option<string>)
  {
    !v.IsArray() && !v.IsMapping() && name == if v.Null? || v == Str("") then None else Some(t.show(v))
  }

  /** The stripped texts of an array, none of them empty. */
  predicate SaysTexts(t: Text, v: Value, xs: seq<string>)
  {
    v.IsArray() && TextsOf(t, v.items, xs)
  }

  predicate TextsOf(t: Text, items: seq<Value>, xs: seq<string>)
  {
    |xs| == |items| && forall i | 0 <= i < |xs| :: xs[i] == t.strip(t.show(items[i])) && xs[i] != ""
  }

  predicate SaysCited(t: Text, e: Role1Event, f: map<Key, Value>, ids: seq<string>)
  {
    SaysTexts(t, Get(f, ProposalIds, Strs(e.ProposalIds())), ids)
  }

  /** A direct command with exactly the five components, in canonical form. */
  predicate SaysAction(v: Value, a: Option<ActionContract.Action>)
  {
    if v.Null? then a.None?
    else
      && v.Dict? && (BareComponents(v.fields) || PrefixedComponents(v.fields))
      && a.Some? && ActionContract.CanonicalAction(v, ActionContract.UNIT_SCALE) == a
  }

  predicate SaysTermination(t: Text, v: Value, d: TerminationDecision)
  {
    && v.Dict? && (forall k | k in v.fields :: k.Approved? || k.Reason?) && Approved in v.fields && Reason in v.fields
    && v.fields[Approved] == Bool(d.approved) && d.reason == t.show(v.fields[Reason])
  }

  predicate SaysEffects(t: Text, f: map<Key, Value>, x: Effects)
  {
    && SaysAction(Get(f, DirectAction, Null), x.action)
    && SaysTermination(t, Get(f, Termination, TerminationDecision(false, "").ToDict()), x.termination)
    && x.modifications == Get(f, Modifications, Dict(map[]))
  }

  predicate SaysNumber(v: Value, r: real)
  {
    v == Float(r) || (v.Int? && v.n as real == r)
  }

  predicate SaysAccount(t: Text, f: map<Key, Value>, a: Account)
  {
    && SaysTexts(t, Get(f, Evidence, Get(f, EvidenceUsed, Tuple([]))), a.evidence)
    && SaysNumber(Get(f, Confidence, Null), a.confidence)
    && a.rationale == t.strip(t.show(Get(f, Rationale, Str(""))))
  }

  /** The identity the model gave, or one made from everything else that is stored. */
  predicate SaysId(t: Text, v: Value, id: string, normalized: Value)
    requires Digests(t)
  {
    var given := t.strip(t.show(v));
    id == if given != "" then given else GENERATED_PREFIX + t.sha256(normalized)[..DIGEST_PREFIX]
  }

  /** The raw fields say this decision, and nothing else. */
  predicate Says(t: Text, e: Role1Event, f: map<Key, Value>, d: Role1Decision)
    requires Digests(t)
  {
    && (forall k | k in f :: DecisionKey(k)) && d.eventId == e.eventId
    && SaysHeading(t, e, f, Heading(d.disposition, d.kind))
    && SaysName(t, Get(f, SelectedStage, Null), d.selectedStage) && SaysName(t, Get(f, SelectedTool, Null), d.selectedTool)
    && SaysCited(t, e, f, d.proposalIds) && SaysEffects(t, f, PrintedEffects(d))
    && SaysAccount(t, f, Account(d.evidence, d.confidence, d.rationale))
    && SaysId(t, Get(f, DecisionId, Str("")), d.decisionId, d.Normalized())
  }

  // ---- Part by part ------------------------------------------------------

  lemma KindIff(text: string, kind: Kind)
    ensures ReadKind(text) == Some(kind) <==> Means(text, kind)
  {
  }

  lemma DispositionIff(text: string, d: Disposition)
    ensures ReadDisposition(text) == Some(d) <==> text == d.Name()
  {
  }

  lemma HeadingIff(t: Text, e: Role1Event, f: map<Key, Value>, h: Heading)
    ensures ReadHeading(t, e, f) == Ok(h) <==> SaysHeading(t, e, f, h)
  {
    hide ReadKind, ReadDisposition, Means, Disposition.Name, Get;
    KindIff(t.show(Get(f, ActionKind, Get(f, Intent, Str("")))), h.kind);
    DispositionIff(t.show(Get(f, ProposalDisposition, Str(""))), h.disposition);
  }

  lemma ChoiceIff(t: Text, catalog: Catalog, e: Role1Event, f: map<Key, Value>, c: Choice)
    ensures ReadChoice(t, catalog, e, f) == Ok(c) <==>
      && SaysName(t, Get(f, SelectedStage, Null), c.stage) && SaysName(t, Get(f, SelectedTool, Null), c.tool)
      && (c.stage.Some? ==> c.stage.value in e.allowedStages)
      && (c.tool.Some? ==> c.tool.value in e.allowedTools && ToolIsProposalOnly(catalog, c.tool.value))
  {
    hide ToolSpec.ReadOnly, Get;
  }

  lemma {:induction false} TextsIff(t: Text, items: seq<Value>, xs: seq<string>)
    ensures AllNonempty(t, items) == Ok(xs) <==> TextsOf(t, items, xs)
    decreases |items|
  {
    if items != [] && xs != [] {
      TextsIff(t, items[1..], xs[1..]);
      assert xs == [xs[0]] + xs[1..];
      if TextsOf(t, items, xs) {
        assert TextsOf(t, items[1..], xs[1..]);
      }
      if AllNonempty(t, items) == Ok(xs) {
        assert AllNonempty(t, items[1..]) == Ok(xs[1..]);
      }
    }
  }

  lemma CitedIff(t: Text, e: Role1Event, f: map<Key, Value>, ids: seq<string>)
    ensures ReadCited(t, e, f) == Ok(ids) <==>
      && SaysCited(t, e, f, ids) && Unique(ids) && (forall id <- ids :: id in e.ProposalIds())
      && (e.ProposalIds() != [] ==> ids != [])
  {
    hide AllNonempty, TextsOf, Unique, Strs, Get;
    var raw := Get(f, ProposalIds, Strs(e.ProposalIds()));
    if raw.IsArray() {
      TextsIff(t, raw.items, ids);
    }
  }

  lemma ActionIff(v: Value, a: Option<ActionContract.Action>)
    ensures ReadAction(v) == Ok(a) <==> SaysAction(v, a)
  {
    hide ActionContract.CanonicalAction, BareComponents, PrefixedComponents;
  }

  lemma TerminationIff(t: Text, v: Value, d: TerminationDecision)
    ensures ReadTermination(t, v) == Ok(d) <==> SaysTermination(t, v, d) && d.Valid(t)
  {
  }

  lemma EffectsIff(t: Text, f: map<Key, Value>, x: Effects)
    ensures ReadEffects(t, f) == Ok(x) <==>
      SaysEffects(t, f, x) && x.termination.Valid(t) && NoControlClaims(t, x.modifications, false)
  {
    hide ReadAction, ReadTermination, SaysAction, SaysTermination, NoControlClaims, Get, TerminationDecision.Valid,
      TerminationDecision.ToDict;
    ActionIff(Get(f, DirectAction, Null), x.action);
    TerminationIff(t, Get(f, Termination, TerminationDecision(false, "").ToDict()), x.termination);
  }

  lemma NumberIff(v: Value, r: real)
    ensures ReadConfidence(v) == Ok(r) <==> SaysNumber(v, r) && 0.0 <= r <= 1.0
  {
  }

  lemma AccountIff(t: Text, f: map<Key, Value>, a: Account)
    ensures ReadAccount(t, f) == Ok(a) <==>
      SaysAccount(t, f, a) && 1 <= |a.evidence| <= 32 && 0.0 <= a.confidence <= 1.0 && a.rationale != ""
  {
    hide AllNonempty, TextsOf, ReadConfidence, SaysNumber, Get;
    var v := Get(f, Evidence, Get(f, EvidenceUsed, Tuple([])));
    if v.IsArray() {
      TextsIff(t, v.items, a.evidence);
    }
    NumberIff(Get(f, Confidence, Null), a.confidence);
  }

  lemma IdIff(t: Text, v: Value, id: string, normalized: Value)
    requires Lawful(t) && Digests(t)
    ensures ReadDecisionId(t, v, normalized) == Ok(id) <==> SaysId(t, v, id, normalized) && LegalId(id)
  {
    hide LegalId;
    GeneratedIdIsLegal(t, normalized);
  }

  // ---- The whole decision ------------------------------------------------

  lemma SameNormalized(d: Role1Decision, other: string)
    ensures d.(decisionId := other).Normalized() == d.Normalized()
  {
    hide PrintedAction, OptStr, Strs, Thaw, TerminationDecision.ToDict, Disposition.Name, Kind.Name, SelectionFields,
      ContentFields;
    var event, disposition, kind := Str(d.eventId), Str(d.disposition.Name()), Str(d.kind.Name());
    var stage, tool := OptStr(d.selectedStage), OptStr(d.selectedTool);
    var content := ContentFields(PrintedAction(d.directAction), d.termination.ToDict(), Strs(d.evidence), Float(d.confidence),
                                 Str(d.rationale), Strs(d.proposalIds), Thaw(d.modifications));
    SameButIdentity(Str(d.decisionId), Str(other), event, disposition, kind, stage, tool);
    WithoutIdentity(SelectionFields(Str(d.decisionId), event, disposition, kind, stage, tool),
                    SelectionFields(Str(other), event, disposition, kind, stage, tool), content);
  }

  lemma SameButIdentity(a: Value, b: Value, event: Value, disposition: Value, kind: Value, stage: Value, tool: Value)
    ensures SelectionFields(a, event, disposition, kind, stage, tool) - {DecisionId}
            == SelectionFields(b, event, disposition, kind, stage, tool) - {DecisionId}
  {
  }

  lemma WithoutIdentity(f: map<Key, Value>, g: map<Key, Value>, c: map<Key, Value>)
    requires f - {DecisionId} == g - {DecisionId}
    ensures (f + c) - {DecisionId} == (g + c) - {DecisionId}
  {
    var x, y := (f + c) - {DecisionId}, (g + c) - {DecisionId};
    forall k: Key ensures (k in x <==> k in y) && (k in x ==> x[k] == y[k]) {
      assert k != DecisionId ==> (k in f - {DecisionId} <==> k in f) && (k in g - {DecisionId} <==> k in g);
    }
  }

  /** The parts of an authorized decision that is said are read as said. */
  lemma SaidIsRead(t: Text, catalog: Catalog, e: Role1Event, f: map<Key, Value>, d: Role1Decision)
    requires Lawful(t) && Digests(t) && Says(t, e, f, d) && Authorized(t, catalog, e, d)
    ensures ReadHeading(t, e, f) == Ok(Heading(d.disposition, d.kind))
    ensures ReadChoice(t, catalog, e, f) == Ok(Choice(d.selectedStage, d.selectedTool))
    ensures ReadCited(t, e, f) == Ok(d.proposalIds) && ReadEffects(t, f) == Ok(PrintedEffects(d))
    ensures ReadAccount(t, f) == Ok(Account(d.evidence, d.confidence, d.rationale))
  {
    hide ReadHeading, ReadChoice, ReadCited, ReadEffects, ReadAccount, SaysHeading, SaysName, SaysCited, SaysEffects,
      SaysAccount, SaysId, RulesAllow, CheckCritics, NoControlClaims, LegalId, Thaw, Frozen, Unique, ToolIsProposalOnly,
      ActionContract.InBounds, TerminationDecision.Valid, DecisionKey, Role1Decision.Normalized, Get, Lawful, Digests;
    HeadingIff(t, e, f, Heading(d.disposition, d.kind));
    ChoiceIff(t, catalog, e, f, Choice(d.selectedStage, d.selectedTool));
    CitedIff(t, e, f, d.proposalIds);
    EffectsIff(t, f, PrintedEffects(d));
    AccountIff(t, f, Account(d.evidence, d.confidence, d.rationale));
  }

  lemma SaidIsAccepted(t: Text, catalog: Catalog, e: Role1Event, f: map<Key, Value>, d: Role1Decision)
    requires Lawful(t) && Digests(t) && Says(t, e, f, d) && Authorized(t, catalog, e, d)
    ensures ReadDecision(t, catalog, e, f) == Ok(d)
  {
    hide *;
    SaidIsRead(t, catalog, e, f, d);
    AuthorizedComposes(t, catalog, e, f, d);
    AssembleSaid(t, catalog, e, f, d, Heading(d.disposition, d.kind), Choice(d.selectedStage, d.selectedTool), d.proposalIds,
                 PrintedEffects(d), Account(d.evidence, d.confidence, d.rationale));
  }

  lemma AuthorizedComposes(t: Text, catalog: Catalog, e: Role1Event, f: map<Key, Value>, d: Role1Decision)
    requires Lawful(t) && Digests(t) && Says(t, e, f, d) && Authorized(t, catalog, e, d)
    ensures var h, c, x, a := Heading(d.disposition, d.kind), Choice(d.selectedStage, d.selectedTool), PrintedEffects(d),
                              Account(d.evidence, d.confidence, d.rationale);
      && (forall k | k in f :: DecisionKey(k))
      && RulesAllow(e, h, c, x) && CheckCritics(e, h, d.proposalIds).Pass?
      && d == Compose(d.decisionId, e, h, c, d.proposalIds, x, a)
      && ReadDecisionId(t, Get(f, DecisionId, Str("")), Compose("", e, h, c, d.proposalIds, x, a).Normalized())
         == Ok(d.decisionId)
  {
    hide SaysHeading, SaysName, SaysCited, SaysEffects, SaysAccount, SaysId, RulesAllow, CheckCritics, NoControlClaims,
      LegalId, CleanEvidence, Unique, ToolIsProposalOnly, ActionContract.InBounds, TerminationDecision.Valid, DecisionKey,
      Role1Decision.Normalized, Get, Lawful, Digests, ReadDecisionId;
    FreezeThaw(d.modifications);
    SameNormalized(d, "");
    IdIff(t, Get(f, DecisionId, Str("")), d.decisionId, d.Normalized());
  }

  lemma AssembleSaid(t: Text, catalog: Catalog, e: Role1Event, f: map<Key, Value>, d: Role1Decision, h: Heading, c: Choice,
                     ids: seq<string>, x: Effects, a: Account)
    requires Digests(t) && (forall k | k in f :: DecisionKey(k))
    requires ReadHeading(t, e, f) == Ok(h) && ReadChoice(t, catalog, e, f) == Ok(c) && ReadCited(t, e, f) == Ok(ids)
    requires ReadEffects(t, f) == Ok(x) && ReadAccount(t, f) == Ok(a)
    requires RulesAllow(e, h, c, x) && CheckCritics(e, h, ids).Pass? && d == Compose(d.decisionId, e, h, c, ids, x, a)
    requires ReadDecisionId(t, Get(f, DecisionId, Str("")), Compose("", e, h, c, ids, x, a).Normalized()) == Ok(d.decisionId)
    ensures ReadDecision(t, catalog, e, f) == Ok(d)
  {
    hide ReadHeading, ReadChoice, ReadCited, ReadEffects, ReadAccount, RulesAllow, CheckCritics, ReadDecisionId, DecisionKey,
      Role1Decision.Normalized, Get;
  }

  /** An accepted decision is the one that was said. */
  lemma AcceptedIsSaid(t: Text, catalog: Catalog, e: Role1Event, f: map<Key, Value>, d: Role1Decision)
    requires Lawful(t) && Digests(t) && Plain(Dict(f)) && SeedBlind(t, Dict(f)) && ReadDecision(t, catalog, e, f) == Ok(d)
    ensures Says(t, e, f, d) && Authorized(t, catalog, e, d)
  {
    hide *;
    AcceptedParts(t, catalog, e, f);
    AcceptedPlain(t, f);
    var h, c, ids := ReadHeading(t, e, f).value, ReadChoice(t, catalog, e, f).value, ReadCited(t, e, f).value;
    var x, a := ReadEffects(t, f).value, ReadAccount(t, f).value;
    HeadingIff(t, e, f, h);
    ChoiceIff(t, catalog, e, f, c);
    CitedIff(t, e, f, ids);
    EffectsIff(t, f, x);
    AccountIff(t, f, a);
    PlainEffects(t, f, x);
    ReadId(t, catalog, e, f, d, h, c, ids, x, a);
    IdIff(t, Get(f, DecisionId, Str("")), d.decisionId, d.Normalized());
    ComposedSays(t, e, f, d, h, c, ids, x, a);
  }

  lemma AcceptedPlain(t: Text, f: map<Key, Value>)
    requires Plain(Dict(f)) && SeedBlind(t, Dict(f))
    ensures Plain(Get(f, Modifications, Dict(map[])))
  {
  }

  lemma PlainEffects(t: Text, f: map<Key, Value>, x: Effects)
    requires SaysEffects(t, f, x) && Plain(Get(f, Modifications, Dict(map[])))
    ensures Thaw(Freeze(x.modifications)) == x.modifications
  {
    hide SaysAction, SaysTermination, Get;
    ThawFreeze(x.modifications);
  }

  lemma ReadId(t: Text, catalog: Catalog, e: Role1Event, f: map<Key, Value>, d: Role1Decision, h: Heading, c: Choice,
               ids: seq<string>, x: Effects, a: Account)
    requires Lawful(t) && Digests(t) && ReadDecision(t, catalog, e, f) == Ok(d)
    requires ReadHeading(t, e, f) == Ok(h) && ReadChoice(t, catalog, e, f) == Ok(c) && ReadCited(t, e, f) == Ok(ids)
    requires ReadEffects(t, f) == Ok(x) && ReadAccount(t, f) == Ok(a)
    ensures (forall k | k in f :: DecisionKey(k)) && d == Compose(d.decisionId, e, h, c, ids, x, a)
    ensures ReadDecisionId(t, Get(f, DecisionId, Str("")), d.Normalized()) == Ok(d.decisionId)
  {
    hide ReadHeading, ReadChoice, ReadCited, ReadEffects, ReadAccount, RulesAllow, CheckCritics, ReadDecisionId, DecisionKey,
      Role1Decision.Normalized, Get;
    SameNormalized(d, "");
  }

  lemma ComposedSays(t: Text, e: Role1Event, f: map<Key, Value>, d: Role1Decision, h: Heading, c: Choice, ids: seq<string>,
                     x: Effects, a: Account)
    requires Digests(t) && (forall k | k in f :: DecisionKey(k)) && d == Compose(d.decisionId, e, h, c, ids, x, a)
    requires Thaw(Freeze(x.modifications)) == x.modifications
    requires SaysHeading(t, e, f, h) && SaysCited(t, e, f, ids) && SaysEffects(t, f, x) && SaysAccount(t, f, a)
    requires SaysName(t, Get(f, SelectedStage, Null), c.stage) && SaysName(t, Get(f, SelectedTool, Null), c.tool)
    requires SaysId(t, Get(f, DecisionId, Str("")), d.decisionId, d.Normalized())
    ensures Says(t, e, f, d)
  {
    hide SaysHeading, SaysName, SaysCited, SaysEffects, SaysAccount, SaysId, DecisionKey, Role1Decision.Normalized, Get;
  }

  /**
   * The validator accepts exactly what is plain, seed-blind, said and
   * authorized: no raw decision is accepted as anything it does not say, and
   * none that says an authorized decision is refused.
   */
  lemma ValidatesIff(t: Text, catalog: Catalog, e: Role1Event, raw: Value, d: Role1Decision)
    requires Lawful(t) && Digests(t)
    ensures Validate(t, catalog, e, raw) == Ok(d) <==>
      && PlainJson(raw).Some? && PlainJson(raw).value.Dict? && SeedBlind(t, PlainJson(raw).value)
      && Says(t, e, PlainJson(raw).value.fields, d) && Authorized(t, catalog, e, d)
  {
    hide *;
    if PlainJson(raw).Some? && PlainJson(raw).value.Dict? && SeedBlind(t, PlainJson(raw).value) {
      var f := PlainJson(raw).value.fields;
      ValidateReads(t, catalog, e, raw);
      PlainIsPlain(raw);
      if ReadDecision(t, catalog, e, f) == Ok(d) {
        AcceptedIsSaid(t, catalog, e, f, d);
      }
      if Says(t, e, f, d) && Authorized(t, catalog, e, d) {
        SaidIsAccepted(t, catalog, e, f, d);
      }
    } else {
      NotRead(t, catalog, e, raw);
    }
  }

  lemma PlainIsPlain(raw: Value)
    requires PlainJson(raw).Some? && PlainJson(raw).value.Dict?
    ensures Plain(Dict(PlainJson(raw).value.fields))
    ensures Dict(PlainJson(raw).value.fields) == PlainJson(raw).value
  {
  }

  lemma ValidateReads(t: Text, catalog: Catalog, e: Role1Event, raw: Value)
    requires Digests(t) && PlainJson(raw).Some? && PlainJson(raw).value.Dict? && SeedBlind(t, PlainJson(raw).value)
    ensures Validate(t, catalog, e, raw) == ReadDecision(t, catalog, e, PlainJson(raw).value.fields)
  {
    hide ReadDecision, PlainJson, SeedBlind;
  }

  lemma NotRead(t: Text, catalog: Catalog, e: Role1Event, raw: Value)
    requires Digests(t)
    requires !(PlainJson(raw).Some? && PlainJson(raw).value.Dict? && SeedBlind(t, PlainJson(raw).value))
    ensures Validate(t, catalog, e, raw).Err?
  {
    hide ReadDecision, PlainJson, SeedBlind;
  }

  // ---- Printed fields say one decision -----------------------------------

  lemma PrintedTexts(t: Text, xs: seq<string>, ys: seq<string>)
    requires Lawful(t) && (forall x <- xs :: Clean(t, x)) && SaysTexts(t, Strs(xs), ys)
    ensures ys == xs
  {
    forall i | 0 <= i < |xs| ensures ys[i] == xs[i] {
      assert Clean(t, xs[i]);
    }
  }

  lemma PrintedName(t: Text, x: Option<string>, y: Option<string>)
    requires Lawful(t) && x != Some("") && SaysName(t, OptStr(x), y)
    ensures y == x
  {
  }

  lemma PrintedNames(h: Heading, g: Heading)
    requires h.disposition.Name() == g.disposition.Name() && Means(h.kind.Name(), g.kind)
    ensures g == h
  {
    NamesReadBack(h);
    KindIff(h.kind.Name(), g.kind);
    DispositionIff(h.disposition.Name(), g.disposition);
  }

  lemma PrintedHeading(t: Text, e: Role1Event, f: map<Key, Value>, d: Role1Decision, g: Heading)
    requires Lawful(t) && Prints(f, d) && SaysHeading(t, e, f, g)
    ensures g == Heading(d.disposition, d.kind) && e.eventId == d.eventId
  {
    hide Disposition.Name, Kind.Name, Means;
    PrintedNames(Heading(d.disposition, d.kind), g);
  }

  lemma PrintedEffectsOnly(t: Text, f: map<Key, Value>, d: Role1Decision, x: Effects)
    requires Lawful(t) && Prints(f, d) && SaysEffects(t, f, x)
    requires d.directAction.Some? ==> ActionContract.InBounds(d.directAction.value)
    ensures x == PrintedEffects(d)
  {
    hide Thaw, ActionContract.CanonicalAction, BareComponents, PrefixedComponents, ReadTermination, SelectionKey, ContentKey;
    RereadAction(d.directAction);
    ActionIff(PrintedAction(d.directAction), d.directAction);
    ActionIff(PrintedAction(d.directAction), x.action);
    assert t.show(Str(d.termination.reason)) == d.termination.reason;
  }

  lemma PrintedAccountOnly(t: Text, f: map<Key, Value>, d: Role1Decision, a: Account)
    requires Lawful(t) && Prints(f, d) && SaysAccount(t, f, a) && CleanEvidence(t, d.evidence) && Clean(t, d.rationale)
    ensures a == Account(d.evidence, d.confidence, d.rationale)
  {
    hide SelectionKey, ContentKey;
    PrintedTexts(t, d.evidence, a.evidence);
    assert t.show(Str(d.rationale)) == d.rationale;
  }

  /** Whatever event they are read against, the printed fields of an authorized decision are read as that decision. */
  lemma PrintedSaysOnly(t: Text, catalog: Catalog, e: Role1Event, d: Role1Decision, other: Role1Event, read: Role1Decision)
    requires Lawful(t) && Digests(t) && e.Valid(t) && Authorized(t, catalog, e, d)
    requires Says(t, other, d.ModelFields(), read) && Frozen(read.modifications)
    ensures read == d
  {
    hide *;
    var f := d.ModelFields();
    PrintedLookups(d);
    CitedIdsAreClean(t, e);
    AllowedAreClean(t, e);
    AuthorizedIsPrintable(t, catalog, e, d);
    SaysParts(t, other, f, read);
    PrintedHeading(t, other, f, d, Heading(read.disposition, read.kind));
    PrintsParts(t, other, f, d);
    PrintedName(t, d.selectedStage, read.selectedStage);
    PrintedName(t, d.selectedTool, read.selectedTool);
    PrintedTexts(t, d.proposalIds, read.proposalIds);
    PrintedEffectsOnly(t, f, d, PrintedEffects(read));
    PrintedAccountOnly(t, f, d, Account(read.evidence, read.confidence, read.rationale));
    PrintedId(t, d.decisionId, read.decisionId, read.Normalized());
    SameParts(d, read);
  }

  lemma SaysParts(t: Text, e: Role1Event, f: map<Key, Value>, d: Role1Decision)
    requires Digests(t) && Says(t, e, f, d)
    ensures d.eventId == e.eventId && SaysHeading(t, e, f, Heading(d.disposition, d.kind))
    ensures SaysName(t, Get(f, SelectedStage, Null), d.selectedStage) && SaysName(t, Get(f, SelectedTool, Null), d.selectedTool)
    ensures SaysTexts(t, Get(f, ProposalIds, Strs(e.ProposalIds())), d.proposalIds) && SaysEffects(t, f, PrintedEffects(d))
    ensures SaysAccount(t, f, Account(d.evidence, d.confidence, d.rationale))
    ensures SaysId(t, Get(f, DecisionId, Str("")), d.decisionId, d.Normalized())
  {
    hide SaysHeading, SaysName, SaysTexts, SaysEffects, SaysAccount, SaysId, DecisionKey, Role1Decision.Normalized, Get;
  }

  lemma PrintsParts(t: Text, e: Role1Event, f: map<Key, Value>, d: Role1Decision)
    requires Prints(f, d)
    ensures Get(f, SelectedStage, Null) == OptStr(d.selectedStage) && Get(f, SelectedTool, Null) == OptStr(d.selectedTool)
    ensures Get(f, ProposalIds, Strs(e.ProposalIds())) == Strs(d.proposalIds)
    ensures Get(f, DecisionId, Str("")) == Str(d.decisionId)
  {
    hide SelectionKey, ContentKey, OptStr, Strs;
  }

  lemma AuthorizedIsPrintable(t: Text, catalog: Catalog, e: Role1Event, d: Role1Decision)
    requires Authorized(t, catalog, e, d)
    requires "" !in e.allowedStages && "" !in e.allowedTools && forall id <- e.ProposalIds() :: Clean(t, id)
    ensures d.selectedStage != Some("") && d.selectedTool != Some("") && (forall id <- d.proposalIds :: Clean(t, id))
    ensures d.directAction.Some? ==> ActionContract.InBounds(d.directAction.value)
    ensures CleanEvidence(t, d.evidence) && Clean(t, d.rationale) && LegalId(d.decisionId) && Frozen(d.modifications)
  {
    hide RulesAllow, CheckCritics, NoControlClaims, Clean, CleanEvidence, Unique, LegalId, ToolIsProposalOnly,
      ActionContract.InBounds, TerminationDecision.Valid, Frozen;
  }

  lemma PrintedId(t: Text, id: string, read: string, normalized: Value)
    requires Lawful(t) && Digests(t) && LegalId(id) && SaysId(t, Str(id), read, normalized)
    ensures read == id
  {
    assert t.strip(t.show(Str(id))) == id;
  }

  lemma SameParts(d: Role1Decision, read: Role1Decision)
    requires Frozen(d.modifications) && Frozen(read.modifications) && PrintedEffects(read) == PrintedEffects(d)
    requires Heading(read.disposition, read.kind) == Heading(d.disposition, d.kind) && read.eventId == d.eventId
    requires read.selectedStage == d.selectedStage && read.selectedTool == d.selectedTool && read.proposalIds == d.proposalIds
    requires Account(read.evidence, read.confidence, read.rationale) == Account(d.evidence, d.confidence, d.rationale)
    requires read.decisionId == d.decisionId
    ensures read == d
  {
    hide Thaw, Frozen;
    FreezeThaw(d.modifications);
    FreezeThaw(read.modifications);
  }

  // ---- The rules, as the model is told them ------------------------------

  /** What the system contract forbids a decision of each kind. */
  predicate Forbidden(e: Role1Event, d: Role1Decision)
  {
    var sameTool, sameStage := d.selectedTool == e.currentTool, d.selectedStage == e.currentStage;
    var modified := Thaw(d.modifications).Truthy();
    // only terminate may approve termination, and it must
    || (d.termination.approved != (d.kind == Terminate))
    // accepting changes nothing, and rejecting or modifying changes something
    || (d.disposition == Accept && modified)
    || (d.disposition == Modify && !modified && d.kind == Continue)
    || (d.disposition == Reject && d.kind == Continue)
    // a command only where one is asked for, and then no tool beside it
    || (d.directAction.Some? && d.kind != Recover && d.kind != Replace)
    || ((d.kind == Recover || d.kind == Replace) && d.selectedTool.Some? == d.directAction.Some?)
    || (d.kind == Terminate && d.selectedTool.Some?)
    // keeping and changing the tool
    || (d.kind == Continue && d.selectedTool.Some? && !sameTool)
    || ((d.kind == Switch || d.kind == Restage) && (d.selectedTool.None? || sameTool))
    || (d.kind == Regenerate && d.selectedTool.None?)
    // keeping and changing the stage
    || ((d.kind == Continue || d.kind == Switch || d.kind == Regenerate) && d.selectedStage.Some? && !sameStage)
    || (d.kind == Restage && (d.selectedStage.None? || sameStage))
    // a cited rejection is not waved through without an executable alternative
    || (d.disposition == Accept && d.kind == Continue && !CitesFrozenAlternative(e, d.proposalIds)
        && exists p <- e.criticProposals :: p.rejectCurrentAction && p.proposalId in d.proposalIds)
  }

  /** No accepted decision is forbidden, and the rules forbid nothing else. */
  lemma RulesForbidExactly(e: Role1Event, d: Role1Decision)
    requires forall p <- e.toolProposals | p.proposalId in d.proposalIds :: p.proposal.Proxy?
    ensures var h := Heading(d.disposition, d.kind);
      RulesAllow(e, h, Choice(d.selectedStage, d.selectedTool), PrintedEffects(d)) && CheckCritics(e, h, d.proposalIds).Pass?
      <==> !Forbidden(e, d)
  {
    hide CitesFrozenAlternative, Thaw, Value.Truthy;
  }
}
