/**
 * The persistence gate: a decision takes effect only through an immutable,
 * idempotently written artifact that re-validates when it is read back.
 */
module Role1Store {
  import opened Wrappers
  import opened PlainValues
  import opened Role1Text
  import opened Role1Agent
  import opened Role1Decisions
  import opened Role1Written
  import ActionContract

  datatype StoreError =
    | UnknownTools | Contract(error: ContractError)
    | AlreadyDifferent | DigestMismatch
    | NoIdentity | EscapesStore | NotPersisted | InvalidEnvelope | InvalidAuthority | FailedValidation | OtherIdentity
    | ChangedSincePublication

  datatype Pending = Pending(event: Role1Event, decision: Role1Decision, envelope: Value, digest: string)

  datatype Persisted = Persisted(digest: string, event: Role1Event, decision: Role1Decision)

  datatype Role1Effect = Role1Effect(
    decisionId: string, eventId: string, disposition: Disposition, kind: Kind,
    selectedStage: Option<string>, selectedTool: Option<string>, directAction: Option<ActionContract.Action>,
    termination: TerminationDecision, modifications: Value, persistedDigest: string)

  /** Artifacts by decision id, as the JSON they hold. */
  type Files = map<string, Value>

  function EnvelopeFields(event: Value, decision: Value): map<Key, Value>
  {
    map[SchemaVersion := Int(1), Authority := Str(ROLE1_AUTHORITY), Event := event, Decision := decision]
  }

  function Envelope(e: Role1Event, d: Role1Decision): Value
  {
    Dict(EnvelopeFields(e.ToDict(), d.ToDict()))
  }

  function Prepare(t: Text, catalog: Catalog, e: Role1Event, raw: Value): Result<Pending, StoreError>
    requires Digests(t)
  {
    var known := forall tool <- e.allowedTools :: tool in catalog;
    if !known then Err(UnknownTools)
    else
      match Validate(t, catalog, e, raw)
      case Err(error) => Err(Contract(error))
      case Ok(d) => Ok(Pending(e, d, Freeze(Envelope(e, d)), t.sha256(Envelope(e, d))))
  }

  datatype Write = Write(files: Files, result: Result<Persisted, StoreError>)

  /** Publish without overwriting: existing content must be identical. */
  function Persist(t: Text, files: Files, p: Pending): Write
  {
    var id, content := p.decision.decisionId, Thaw(p.envelope);
    if id in files && files[id] != content then Write(files, Err(AlreadyDifferent))
    else
      Write(files[id := content],
            if t.sha256(content) != p.digest then Err(DigestMismatch) else Ok(Persisted(p.digest, p.event, p.decision)))
  }

  function Load(t: Text, catalog: Catalog, files: Files, decisionId: string): Result<Persisted, StoreError>
    requires Digests(t)
  {
    var id := t.strip(decisionId);
    if id == "" then Err(NoIdentity)
    else if '/' in id then Err(EscapesStore)
    else if id !in files then Err(NotPersisted)
    else
      var content := files[id];
      if !content.Dict? || Get(content.fields, SchemaVersion, Null) != Int(1) then Err(InvalidEnvelope)
      else if Get(content.fields, Authority, Null) != Str(ROLE1_AUTHORITY) then Err(InvalidAuthority)
      else
        match Revalidate(t, catalog, content.fields)
        case Err(_) => Err(FailedValidation)
        case Ok((e, d)) => if d.decisionId != id then Err(OtherIdentity) else Ok(Persisted(t.sha256(content), e, d))
  }

  function Revalidate(t: Text, catalog: Catalog, f: map<Key, Value>): Result<(Role1Event, Role1Decision), ContractError>
    requires Digests(t)
  {
    var event := Get(f, Event, Null);
    var e :- EventFromPayload(t, event);
    var decision := Get(f, Decision, Null);
    :- Need(decision.Dict?, NotAMapping);
    var d :- Validate(t, catalog, e, Dict(WithoutFixed(decision.fields)));
    Ok((e, d))
  }

  /** The effect is what the decision says, under the digest of its artifact. */
  predicate Carries(x: Role1Effect, d: Role1Decision, digest: string)
  {
    && x.decisionId == d.decisionId && x.eventId == d.eventId && x.disposition == d.disposition && x.kind == d.kind
    && x.selectedStage == d.selectedStage && x.selectedTool == d.selectedTool && x.directAction == d.directAction
    && x.termination == d.termination && x.modifications == d.modifications && x.persistedDigest == digest
  }

  function Effect(p: Persisted): (x: Role1Effect)
    ensures Carries(x, p.decision, p.digest)
  {
    var d := p.decision;
    Role1Effect(d.decisionId, d.eventId, d.disposition, d.kind, d.selectedStage, d.selectedTool, d.directAction,
                d.termination, d.modifications, p.digest)
  }

  /** Activation by identity, or by an earlier published artifact whose digest must still match. */
  function Activate(t: Text, catalog: Catalog, files: Files, id: string, published: Option<string>)
    : Result<Role1Effect, StoreError>
    requires Digests(t)
  {
    match Load(t, catalog, files, id)
    case Err(error) => Err(error)
    case Ok(verified) =>
      if published.Some? && published.value != verified.digest then Err(ChangedSincePublication) else Ok(Effect(verified))
  }

  /** The artifact an effect came from is in the store and still says the same. */
  predicate Published(t: Text, catalog: Catalog, files: Files, effect: Role1Effect)
    requires Digests(t)
  {
    Activate(t, catalog, files, effect.decisionId, Some(effect.persistedDigest)) == Ok(effect)
  }

  predicate PreparedAs(t: Text, catalog: Catalog, e: Role1Event, raw: Value, id: string, content: Value)
    requires Digests(t)
  {
    var p := Prepare(t, catalog, e, raw);
    p.Ok? && p.value.decision.decisionId == id && Thaw(p.value.envelope) == content
  }

  /** A decision is prepared exactly when the event's tools are all known and it is accepted. */
  lemma PreparesIff(t: Text, catalog: Catalog, e: Role1Event, raw: Value, p: Pending)
    requires Digests(t)
    ensures Prepare(t, catalog, e, raw) == Ok(p) <==>
      && (forall tool <- e.allowedTools :: tool in catalog) && Validate(t, catalog, e, raw) == Ok(p.decision)
      && p.event == e && p.envelope == Freeze(Envelope(e, p.decision)) && p.digest == t.sha256(Envelope(e, p.decision))
  {
    hide Validate, Freeze, Role1Event.ToDict, Role1Decision.ToDict, EnvelopeFields;
  }

  /** An artifact is loaded exactly when it is a whole, current envelope whose parts re-validate under its own name. */
  lemma LoadsIff(t: Text, catalog: Catalog, files: Files, decisionId: string, p: Persisted)
    requires Digests(t)
    ensures Load(t, catalog, files, decisionId) == Ok(p) <==>
      var id := t.strip(decisionId);
      && id != "" && '/' !in id && id in files && files[id].Dict?
      && Has(files[id].fields, SchemaVersion, Int(1)) && Has(files[id].fields, Authority, Str(ROLE1_AUTHORITY))
      && EventFromPayload(t, Get(files[id].fields, Event, Null)) == Ok(p.event)
      && Get(files[id].fields, Decision, Null).Dict?
      && Validate(t, catalog, p.event, Dict(WithoutFixed(Get(files[id].fields, Decision, Null).fields))) == Ok(p.decision)
      && p.decision.decisionId == id && p.digest == t.sha256(files[id])
  {
    hide Validate, EventFromPayload, WithoutFixed;
  }

  // ---- What was persisted is what is loaded ------------------------------

  lemma EnvelopeLookups(event: Value, decision: Value)
    ensures var f := EnvelopeFields(event, decision);
      && Get(f, SchemaVersion, Null) == Int(1) && Get(f, Authority, Null) == Str(ROLE1_AUTHORITY)
      && Get(f, Event, Null) == event && Get(f, Decision, Null) == decision
  {
  }

  lemma EnvelopeIsPlain(event: Value, decision: Value)
    requires Plain(event) && Plain(decision)
    ensures Plain(Dict(EnvelopeFields(event, decision)))
  {
  }

  lemma DecisionDictIsPlain(d: Role1Decision)
    requires Frozen(d.modifications)
    ensures Plain(d.ToDict())
  {
    hide Role1Decision.ModelFields;
    DecisionFieldsArePlain(d);
    FixedFieldsArePlain(d.ModelFields());
  }

  lemma FixedFieldsArePlain(f: map<Key, Value>)
    requires Plain(Dict(f))
    ensures Plain(Dict(f + FixedFields()))
  {
    forall k | k in f + FixedFields() ensures Plain((f + FixedFields())[k]) { }
  }

  lemma ThawedEnvelope(t: Text, catalog: Catalog, e: Role1Event, raw: Value)
    requires Lawful(t) && e.Valid(t) && Validate(t, catalog, e, raw).Ok?
    ensures var d := Validate(t, catalog, e, raw).value; Thaw(Freeze(Envelope(e, d))) == Envelope(e, d)
  {
    hide Validate, Role1Event.Valid, Role1Event.ToDict, Role1Decision.ToDict, EnvelopeFields, Lawful;
    LawfulDigests(t);
    AcceptedIsAuthorized(t, catalog, e, raw);
    var d := Validate(t, catalog, e, raw).value;
    AuthorizedIsFrozen(t, catalog, e, d);
    DecisionDictIsPlain(d);
    EventDictIsPlain(t, e);
    EnvelopeIsPlain(e.ToDict(), d.ToDict());
    ThawFreeze(Envelope(e, d));
  }

  lemma AuthorizedIsFrozen(t: Text, catalog: Catalog, e: Role1Event, d: Role1Decision)
    requires Authorized(t, catalog, e, d)
    ensures Frozen(d.modifications) && LegalId(d.decisionId)
  {
    hide RulesAllow, CheckCritics, NoControlClaims, CleanEvidence, LegalId;
  }

  lemma LegalIdStaysInStore(t: Text, id: string)
    requires Lawful(t) && LegalId(id)
    ensures t.strip(id) == id && id != "" && '/' !in id
  {
  }

  /** Reading an intact envelope back. */
  lemma RevalidateEnvelope(t: Text, catalog: Catalog, e: Role1Event, raw: Value)
    requires Lawful(t) && e.Valid(t) && Validate(t, catalog, e, raw).Ok?
    ensures var d := Validate(t, catalog, e, raw).value;
      Revalidate(t, catalog, EnvelopeFields(e.ToDict(), d.ToDict())) == Ok((e, d))
      <==> TextsAreBlind(t, d) && forall p <- e.toolProposals :: !p.proposal.Null?
  {
    hide Validate, Role1Event.Valid, Role1Event.ToDict, Role1Decision.Fields, EnvelopeFields, Lawful, EventFromPayload,
      WithoutFixed, TextsAreBlind;
    LawfulDigests(t);
    var d := Validate(t, catalog, e, raw).value;
    EnvelopeLookups(e.ToDict(), d.ToDict());
    EventRoundTrip(t, e);
    DecisionRoundTrip(t, catalog, e, raw);
  }

  /**
   * The persistence theorem: what `Prepare` accepted and `Persist` published
   * loads back as the same event, decision and digest, exactly when the texts
   * the decision stores are seed-blind and no tool proposal is a bare null.
   */
  lemma PersistedReloads(t: Text, catalog: Catalog, files: Files, e: Role1Event, raw: Value)
    requires Lawful(t) && e.Valid(t) && Prepare(t, catalog, e, raw).Ok?
    requires Persist(t, files, Prepare(t, catalog, e, raw).value).result.Ok?
    ensures var Write(after, Ok(published)) := Persist(t, files, Prepare(t, catalog, e, raw).value);
      var d := Prepare(t, catalog, e, raw).value.decision;
      && published.event == e && published.decision == d
      && (Load(t, catalog, after, d.decisionId) == Ok(published)
          <==> TextsAreBlind(t, d) && forall p <- e.toolProposals :: !p.proposal.Null?)
  {
    hide Validate, Role1Event.Valid, Role1Event.ToDict, Role1Decision.ToDict, EnvelopeFields, Lawful, Revalidate,
      TextsAreBlind, Authorized;
    LawfulDigests(t);
    var d := Validate(t, catalog, e, raw).value;
    ThawedEnvelope(t, catalog, e, raw);
    RevalidateEnvelope(t, catalog, e, raw);
    EnvelopeLookups(e.ToDict(), d.ToDict());
    AcceptedIsAuthorized(t, catalog, e, raw);
    AuthorizedIsFrozen(t, catalog, e, d);
    LegalIdStaysInStore(t, d.decisionId);
  }

  /**
   * When the model lists the proposals it reviewed, gives its texts as texts,
   * and every tool proposal carries a payload, nothing can go wrong.
   */
  lemma CompleteDecisionReloads(t: Text, catalog: Catalog, files: Files, e: Role1Event, raw: Value)
    requires Lawful(t) && e.Valid(t) && Prepare(t, catalog, e, raw).Ok?
    requires Persist(t, files, Prepare(t, catalog, e, raw).value).result.Ok?
    requires GivesTexts(PlainJson(raw).value.fields)
    requires forall p <- e.toolProposals :: !p.proposal.Null?
    ensures var Write(after, Ok(published)) := Persist(t, files, Prepare(t, catalog, e, raw).value);
      Load(t, catalog, after, published.decision.decisionId) == Ok(published)
  {
    hide Validate, Role1Event.Valid, Role1Event.ToDict, Role1Decision.ToDict, EnvelopeFields, Lawful, Load,
      TextsAreBlind;
    LawfulDigests(t);
    PersistedReloads(t, catalog, files, e, raw);
    GivenTextsAreBlind(t, catalog, e, raw);
  }

  /** Whatever is loaded back under a prepared decision's name from its own envelope is that decision. */
  lemma LoadedIsPrepared(t: Text, catalog: Catalog, files: Files, e: Role1Event, raw: Value, loaded: Persisted)
    requires Lawful(t) && Digests(t) && e.Valid(t) && Prepare(t, catalog, e, raw).Ok?
    requires var p := Prepare(t, catalog, e, raw).value;
      && p.decision.decisionId in files && files[p.decision.decisionId] == Thaw(p.envelope)
      && Load(t, catalog, files, p.decision.decisionId) == Ok(loaded)
    ensures loaded.decision == Prepare(t, catalog, e, raw).value.decision
  {
    hide *;
    var p := Prepare(t, catalog, e, raw).value;
    var d, id := p.decision, p.decision.decisionId;
    PreparesIff(t, catalog, e, raw, p);
    AcceptedIsAuthorized(t, catalog, e, raw);
    AuthorizedIsFrozen(t, catalog, e, d);
    LegalIdStaysInStore(t, id);
    ThawedEnvelope(t, catalog, e, raw);
    LoadsIff(t, catalog, files, id, loaded);
    EnvelopeLookups(e.ToDict(), d.ToDict());
    EnvelopeShape(e, d);
    WithoutFixedFields(d);
    ReadsAs(t, catalog, loaded.event, d, loaded.decision);
    PrintedSaysOnly(t, catalog, e, d, loaded.event, loaded.decision);
  }

  lemma EnvelopeShape(e: Role1Event, d: Role1Decision)
    ensures Envelope(e, d) == Dict(EnvelopeFields(e.ToDict(), d.ToDict())) && d.ToDict() == Dict(d.Fields())
  {
  }

  lemma ReadsAs(t: Text, catalog: Catalog, e: Role1Event, d: Role1Decision, read: Role1Decision)
    requires Lawful(t) && Digests(t) && Frozen(d.modifications)
    requires Validate(t, catalog, e, Dict(d.ModelFields())) == Ok(read)
    ensures Says(t, e, d.ModelFields(), read) && Frozen(read.modifications)
  {
    hide *;
    DecisionFieldsArePlain(d);
    ValidatesIff(t, catalog, e, Dict(d.ModelFields()), read);
    AuthorizedIsFrozen(t, catalog, e, read);
  }

  // ---- Artifacts are immutable -------------------------------------------

  /** Publishing a decision to a store that already holds it, or nothing under its id, always works. */
  lemma PublishingIsIdempotent(t: Text, catalog: Catalog, files: Files, e: Role1Event, raw: Value)
    requires Lawful(t) && e.Valid(t) && Prepare(t, catalog, e, raw).Ok?
    ensures var p := Prepare(t, catalog, e, raw).value;
      && (Persist(t, files, p).result.Ok?
          <==> (p.decision.decisionId in files ==> files[p.decision.decisionId] == Envelope(e, p.decision)))
      && (Persist(t, files, p).result.Ok? ==> Persist(t, Persist(t, files, p).files, p) == Persist(t, files, p))
  {
    hide Validate, Role1Event.Valid, Role1Event.ToDict, Role1Decision.ToDict, EnvelopeFields, Lawful, Authorized;
    ThawedEnvelope(t, catalog, e, raw);
    LawfulDigests(t);
    var p := Prepare(t, catalog, e, raw).value;
    var after := Persist(t, files, p).files;
    if p.decision.decisionId in after {
      assert after[p.decision.decisionId := after[p.decision.decisionId]] == after;
    }
  }

  function PersistAll(t: Text, files: Files, ps: seq<Pending>): Files
    decreases |ps|
  {
    if ps == [] then files else PersistAll(t, Persist(t, files, ps[0]).files, ps[1..])
  }

  /** No sequence of later writes, successful or refused, changes or removes a published artifact. */
  lemma {:induction false} ArtifactsAreImmutable(t: Text, files: Files, ps: seq<Pending>)
    ensures forall id | id in files :: id in PersistAll(t, files, ps) && PersistAll(t, files, ps)[id] == files[id]
    decreases |ps|
  {
    if ps != [] {
      ArtifactsAreImmutable(t, Persist(t, files, ps[0]).files, ps[1..]);
    }
  }

  /** So an activation that once succeeded keeps giving the same effect. */
  lemma ActivationIsStable(t: Text, catalog: Catalog, files: Files, ps: seq<Pending>, id: string, published: Option<string>)
    requires Digests(t) && Activate(t, catalog, files, id, published).Ok?
    ensures Activate(t, catalog, PersistAll(t, files, ps), id, published) == Activate(t, catalog, files, id, published)
  {
    hide Revalidate;
    ArtifactsAreImmutable(t, files, ps);
  }

  lemma PublishedStays(t: Text, catalog: Catalog, files: Files, later: Files, effect: Role1Effect)
    requires Digests(t) && Published(t, catalog, files, effect)
    requires forall id | id in files :: id in later && later[id] == files[id]
    ensures Published(t, catalog, later, effect)
  {
    hide Revalidate;
  }

  lemma ActivatedIsPublished(t: Text, catalog: Catalog, files: Files, id: string, published: Option<string>)
    requires Lawful(t) && Activate(t, catalog, files, id, published).Ok?
    ensures Published(t, catalog, files, Activate(t, catalog, files, id, published).value)
  {
    hide Revalidate;
    assert t.strip(t.strip(id)) == t.strip(id);
  }

  lemma ActivatedIdIsLegal(t: Text, catalog: Catalog, files: Files, id: string, published: Option<string>)
    requires Digests(t) && Activate(t, catalog, files, id, published).Ok?
    ensures Activate(t, catalog, files, id, published).value.decisionId == t.strip(id)
  {
    hide Revalidate;
  }

  lemma AcceptedIdIsLegal(t: Text, catalog: Catalog, e: Role1Event, raw: Value)
    requires Lawful(t) && Prepare(t, catalog, e, raw).Ok?
    ensures var id := Prepare(t, catalog, e, raw).value.decision.decisionId; t.strip(id) == id
  {
    hide Validate;
    ValidatedIdIsLegal(t, catalog, e, raw);
  }

  lemma ValidatedIdIsLegal(t: Text, catalog: Catalog, e: Role1Event, raw: Value)
    requires Lawful(t) && Validate(t, catalog, e, raw).Ok?
    ensures LegalId(Validate(t, catalog, e, raw).value.decisionId)
  {
    var f := PlainJson(raw).value.fields;
    AcceptedParts(t, catalog, e, f);
  }

  /** Nothing takes effect that is not in the store. */
  lemma NoEffectUnlessPersisted(t: Text, catalog: Catalog, files: Files, id: string, published: Option<string>)
    requires Digests(t) && Activate(t, catalog, files, id, published).Ok?
    ensures var effect := Activate(t, catalog, files, id, published).value;
      && effect.decisionId in files && effect.persistedDigest == t.sha256(files[effect.decisionId])
      && (published.Some? ==> published.value == effect.persistedDigest)
  {
    hide Revalidate;
  }

  /** What publishing a prepared decision and activating it at once come to. */
  lemma DecideOutcome(t: Text, catalog: Catalog, files: Files, e: Role1Event, raw: Value)
    requires Lawful(t) && Digests(t) && e.Valid(t) && Prepare(t, catalog, e, raw).Ok?
    ensures var p := Prepare(t, catalog, e, raw).value;
      var d, w := p.decision, Persist(t, files, p);
      var conflict := d.decisionId in files && files[d.decisionId] != Envelope(e, d);
      && (conflict ==> w == Write(files, Err(AlreadyDifferent)))
      && (!conflict ==>
            && w.files == files[d.decisionId := Envelope(e, d)] && w.result == Ok(Persisted(p.digest, e, d))
            && var x := Activate(t, catalog, w.files, d.decisionId, Some(p.digest));
               && (x.Ok? ==> Carries(x.value, d, p.digest))
               && (TextsAreBlind(t, d) && (forall y <- e.toolProposals :: !y.proposal.Null?) ==> x.Ok?))
  {
    hide *;
    var p := Prepare(t, catalog, e, raw).value;
    var d, w := p.decision, Persist(t, files, p);
    PreparesIff(t, catalog, e, raw, p);
    ThawedEnvelope(t, catalog, e, raw);
    PersistShape(t, files, p);
    if w.result.Ok? {
      PersistedReloads(t, catalog, files, e, raw);
      var after := w.files;
      if Activate(t, catalog, after, d.decisionId, Some(p.digest)).Ok? {
        ActivateLoads(t, catalog, after, d.decisionId, Some(p.digest));
        LoadedIsPrepared(t, catalog, after, e, raw, Load(t, catalog, after, d.decisionId).value);
        LoadsIff(t, catalog, after, d.decisionId, Load(t, catalog, after, d.decisionId).value);
      }
      ActivatesIff(t, catalog, after, d.decisionId, p.digest);
    }
  }

  lemma PersistShape(t: Text, files: Files, p: Pending)
    ensures var id, content, w := p.decision.decisionId, Thaw(p.envelope), Persist(t, files, p);
      if id in files && files[id] != content then w == Write(files, Err(AlreadyDifferent))
      else w.files == files[id := content]
           && (t.sha256(content) == p.digest ==> w.result == Ok(Persisted(p.digest, p.event, p.decision)))
  {
  }

  lemma ActivateLoads(t: Text, catalog: Catalog, files: Files, id: string, published: Option<string>)
    requires Digests(t) && Activate(t, catalog, files, id, published).Ok?
    ensures Load(t, catalog, files, id).Ok?
    ensures var p := Load(t, catalog, files, id).value; Carries(Activate(t, catalog, files, id, published).value, p.decision, p.digest)
    ensures published.Some? ==> published.value == Load(t, catalog, files, id).value.digest
  {
    hide Load, Carries;
  }

  lemma ActivatesIff(t: Text, catalog: Catalog, files: Files, id: string, digest: string)
    requires Digests(t)
    ensures Activate(t, catalog, files, id, Some(digest)).Ok? <==>
      Load(t, catalog, files, id).Ok? && Load(t, catalog, files, id).value.digest == digest
  {
    hide Load;
  }

  // ---- The store object --------------------------------------------------

  class Role1DecisionStore {
    const text: Text
    const catalog: Catalog
    var files: Files

    ghost predicate Valid()
    {
      Lawful(text)
    }

    constructor (t: Text, c: Catalog)
      requires Lawful(t)
      ensures Valid() && text == t && catalog == c && files == map[]
    {
      text, catalog, files := t, c, map[];
    }

    method Publish(p: Pending) returns (r: Result<Persisted, StoreError>)
      modifies this`files
      ensures Write(files, r) == Persist(text, old(files), p)
    {
      var id, content := p.decision.decisionId, Thaw(p.envelope);
      if id in files {
        if files[id] != content {
          return Err(AlreadyDifferent);
        }
        assert files[id := content] == files;
      } else {
        files := files[id := content];
      }
      if text.sha256(content) != p.digest {
        return Err(DigestMismatch);
      }
      return Ok(Persisted(p.digest, p.event, p.decision));
    }

    /** Prepare, publish and activate one decision: the only way to an effect. */
    method Decide(e: Role1Event, raw: Value) returns (r: Result<Role1Effect, StoreError>)
      requires Valid()
      modifies this`files
      ensures forall id | id in old(files) :: id in files && files[id] == old(files)[id]
      ensures Digests(text)
      ensures r.Ok? ==>
        && Prepare(text, catalog, e, raw).Ok?
        && r.value.decisionId in files && r.value.persistedDigest == text.sha256(files[r.value.decisionId])
        && r.value.persistedDigest == Prepare(text, catalog, e, raw).value.digest
        && Published(text, catalog, files, r.value)
        && PreparedAs(text, catalog, e, raw, r.value.decisionId, files[r.value.decisionId])
        && (e.Valid(text) ==>
              Carries(r.value, Prepare(text, catalog, e, raw).value.decision, Prepare(text, catalog, e, raw).value.digest))
      ensures Prepare(text, catalog, e, raw).Err? ==> files == old(files) && r.Err?
      ensures Prepare(text, catalog, e, raw).Ok? && e.Valid(text) ==>
        var p := Prepare(text, catalog, e, raw).value;
        var id := p.decision.decisionId;
        if id in old(files) && old(files)[id] != Envelope(e, p.decision) then r == Err(AlreadyDifferent) && files == old(files)
        else
          && files == old(files)[id := Envelope(e, p.decision)]
          && (TextsAreBlind(text, p.decision) && (forall x <- e.toolProposals :: !x.proposal.Null?) ==> r.Ok?)
    {
      hide Validate, Revalidate, Load, Role1Event.Valid, Envelope, TextsAreBlind, Carries;
      LawfulDigests(text);
      ghost var before := files;
      var prepared := Prepare(text, catalog, e, raw);
      if prepared.Err? {
        return Err(prepared.error);
      }
      var published := Publish(prepared.value);
      if e.Valid(text) {
        DecideOutcome(text, catalog, before, e, raw);
      }
      if published.Err? {
        return Err(published.error);
      }
      r := Activate(text, catalog, files, published.value.decision.decisionId, Some(published.value.digest));
      if r.Ok? {
        var id := published.value.decision.decisionId;
        ActivatedIsPublished(text, catalog, files, id, Some(published.value.digest));
        assert PreparedAs(text, catalog, e, raw, id, files[id]);
        ActivatedIdIsLegal(text, catalog, files, id, Some(published.value.digest));
        AcceptedIdIsLegal(text, catalog, e, raw);
      }
    }
  }
}
