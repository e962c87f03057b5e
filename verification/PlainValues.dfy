/**
 * Python data as the Role1 contract handles it: raw values, the plain JSON
 * subset, and the frozen form (read-only mappings and tuples) kept in events
 * and decisions.
 */
module PlainValues {
  import opened Wrappers

  /**
   * The string keys of mappings.  The names the contract itself uses are
   * constructors; any other key is spelled out.
   */
  datatype Key =
    // commands
    | NestedAction | EndEffectorPosition | EndEffectorRotation | GripperClose | BaseMotion | ControlMode
    | ActionEndEffectorPosition | ActionEndEffectorRotation | ActionGripperClose | ActionBaseMotion | ActionControlMode
    // proposals
    | ProposalId | Id | Source | Tool | Proposal | Evidence | ProposalOnly | EnvironmentWrite | ProposalRole
    | RejectCurrentAction | Reason | Details | ActionAuthority
    // events
    | EventId | Task | StepIndex | CurrentStage | CurrentTool | AllowedStages | AllowedTools
    | ImageReferences | TaskState | ToolProposals | CriticProposals | History
    // decisions
    | DecisionId | Authority | ProposalDisposition | ActionKind | Intent | SelectedStage | SelectedTool
    | DirectAction | Termination | Approved | EvidenceUsed | Confidence | Rationale | ProposalIds
    | Modifications | Parameters | ToolAuthority | CriticActionAuthority
    // persisted envelopes
    | SchemaVersion | Event | Decision
    // claims a proposal may not make
    | Execute | Executed | Apply | Applied | TerminationRequired | ReplacementAction | Recovery
    // tool payloads
    | Observation | PendingVlaActions | Actions
    | Other(name: string)

  datatype Value =
    | Null
    | Bool(b: bool)
    | Int(n: int)
    | Float(r: real)
    | NonFinite
    | Str(s: string)
    | List(items: seq<Value>)
    | Tuple(items: seq<Value>)
    | Dict(fields: map<Key, Value>)
    | Proxy(fields: map<Key, Value>)    // MappingProxyType
    | OddKeys                              // a mapping with a key that is no string
    | Opaque                               // any other object
  {
    predicate IsMapping() { Dict? || Proxy? || OddKeys? }

    predicate IsArray() { List? || Tuple? }

    /** Python truth of a plain value. */
    predicate Truthy()
    {
      match this
      case Null => false
      case Bool(b) => b
      case Int(n) => n != 0
      case Float(r) => r != 0.0
      case Str(s) => s != ""
      case List(items) => items != []
      case Tuple(items) => items != []
      case Dict(fields) => fields != map[]
      case Proxy(fields) => fields != map[]
      case _ => true
    }
  }

  datatype PlainError = NonStringKey | NotFinite | NotSerializable

  /** What `json` writes and reads back unchanged. */
  predicate Plain(v: Value)
  {
    match v
    case List(items) => forall i | 0 <= i < |items| :: Plain(items[i])
    case Dict(fields) => forall k | k in fields :: Plain(fields[k])
    case Null | Bool(_) | Int(_) | Float(_) | Str(_) => true
    case _ => false
  }

  predicate Frozen(v: Value)
  {
    match v
    case Tuple(items) => forall i | 0 <= i < |items| :: Frozen(items[i])
    case Proxy(fields) => forall k | k in fields :: Frozen(fields[k])
    case Null | Bool(_) | Int(_) | Float(_) | Str(_) => true
    case _ => false
  }

  /** Deep copy of JSON data; `None` when some part is not JSON. */
  function PlainJson(v: Value): (r: Option<Value>)
    ensures r.Some? ==> Plain(r.value)
  {
    match v
    case Dict(fields) =>
      if forall k | k in fields :: PlainJson(fields[k]).Some?
      then Some(Dict(map k | k in fields :: PlainJson(fields[k]).value)) else None
    case Proxy(fields) =>
      if forall k | k in fields :: PlainJson(fields[k]).Some?
      then Some(Dict(map k | k in fields :: PlainJson(fields[k]).value)) else None
    case List(items) =>
      if forall i | 0 <= i < |items| :: PlainJson(items[i]).Some?
      then Some(List(seq(|items|, i requires 0 <= i < |items| => PlainJson(items[i]).value))) else None
    case Tuple(items) =>
      if forall i | 0 <= i < |items| :: PlainJson(items[i]).Some?
      then Some(List(seq(|items|, i requires 0 <= i < |items| => PlainJson(items[i]).value))) else None
    case Null | Bool(_) | Int(_) | Float(_) | Str(_) => Some(v)
    case NonFinite | OddKeys | Opaque => None
  }

  function Freeze(v: Value): (r: Value)
  {
    match v
    case Dict(fields) => Proxy(map k | k in fields :: Freeze(fields[k]))
    case Proxy(fields) => Proxy(map k | k in fields :: Freeze(fields[k]))
    case List(items) => Tuple(seq(|items|, i requires 0 <= i < |items| => Freeze(items[i])))
    case _ => v
  }

  function Thaw(v: Value): (r: Value)
  {
    match v
    case Dict(fields) => Dict(map k | k in fields :: Thaw(fields[k]))
    case Proxy(fields) => Dict(map k | k in fields :: Thaw(fields[k]))
    case Tuple(items) => List(seq(|items|, i requires 0 <= i < |items| => Thaw(items[i])))
    case _ => v
  }

  /** Freezing loses nothing: thawing restores the plain value, and the frozen form re-normalizes to it. */
  lemma {:induction false} ThawFreeze(v: Value)
    requires Plain(v)
    ensures Thaw(Freeze(v)) == v && Frozen(Freeze(v))
  {
    match v
    case List(items) =>
      forall i | 0 <= i < |items| { ThawFreeze(items[i]); }
      assert Thaw(Freeze(v)).items == items;
    case Dict(fields) =>
      forall k | k in fields { ThawFreeze(fields[k]); }
      assert Thaw(Freeze(v)).fields == fields;
    case _ =>
  }

  lemma {:induction false} PlainJsonOfPlain(v: Value)
    requires Plain(v)
    ensures PlainJson(v) == Some(v)
  {
    match v
    case List(items) =>
      forall i | 0 <= i < |items| { PlainJsonOfPlain(items[i]); }
      assert PlainJson(v).value.items == items;
    case Dict(fields) =>
      forall k | k in fields { PlainJsonOfPlain(fields[k]); }
      assert PlainJson(v).value.fields == fields;
    case _ =>
  }

  lemma {:induction false} PlainJsonOfFrozen(v: Value)
    requires Plain(v)
    ensures PlainJson(Freeze(v)) == Some(v)
  {
    match v
    case List(items) =>
      forall i | 0 <= i < |items| { PlainJsonOfFrozen(items[i]); }
      assert PlainJson(Freeze(v)).value.items == items;
    case Dict(fields) =>
      forall k | k in fields { PlainJsonOfFrozen(fields[k]); }
      assert PlainJson(Freeze(v)).value.fields == fields;
    case _ =>
  }

  lemma {:induction false} FreezeThaw(v: Value)
    requires Frozen(v)
    ensures Freeze(Thaw(v)) == v && Plain(Thaw(v))
  {
    match v
    case Tuple(items) =>
      forall i | 0 <= i < |items| { FreezeThaw(items[i]); }
      assert Freeze(Thaw(v)).items == items;
    case Proxy(fields) =>
      forall k | k in fields { FreezeThaw(fields[k]); }
      assert Freeze(Thaw(v)).fields == fields;
    case _ =>
  }

  /** `mapping.get(key, default)`. */
  function Get(fields: map<Key, Value>, key: Key, default: Value): Value
  {
    if key in fields then fields[key] else default
  }
}
