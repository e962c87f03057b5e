/**
 * The text operations the Role1 contract leans on (stripping, `str`, the
 * seed-blindness patterns, the canonical hash), as one parameter, with the few
 * laws about them that the proofs use.
 */
module Role1Text {
  import opened Wrappers
  import opened PlainValues

  datatype Text = Text(
    strip: string -> string,
    show: Value -> string,            // Python's `str`
    lower: Key -> Key,                // a key in lower case
    keyText: Key -> string,
    forbiddenText: string -> bool,    // seed, RNG or future-schedule text
    forbiddenKey: Key -> bool,
    sha256: Value -> string)          // hash of the canonical JSON form

  datatype ContractError =
    | NotPlainJson | NotAMapping | NotAnArray | UnknownFields | LeaksSeed | EmptyText | BadEvidence
    | ControlClaim | BadSource | NotProposalOnly | MixedPayload | BadReject | BadAuthority
    | BadStepIndex | BadStages | BadTools | BadImages | DuplicateProposals | ForeignTool
    | WrongEvent | BadDisposition | BadKind | KindsDisagree | Unhashable | StageNotAllowed | ToolNotAllowed
    | ToolNotInCatalog | ToolNotProposalOnly | DuplicateIds | UnknownProposals | NoReview | BadDirectAction
    | BadTermination | RuleViolated | NoSuchMethod | BadConfidence | BadDecisionId

  datatype Disposition = Accept | Reject | Modify
  {
    function Name(): string
    {
      match this
      case Accept => "accept"
      case Reject => "reject"
      case Modify => "modify"
    }
  }

  datatype Kind = Continue | Switch | Recover | Restage | Regenerate | Replace | Terminate
  {
    function Name(): string
    {
      match this
      case Continue => "continue"
      case Switch => "switch"
      case Recover => "recover"
      case Restage => "restage"
      case Regenerate => "regenerate"
      case Replace => "replace"
      case Terminate => "terminate"
    }
  }

  predicate SeedBlind(t: Text, v: Value)
  {
    match v
    case Dict(fields) => forall k | k in fields :: !t.forbiddenKey(k) && SeedBlind(t, fields[k])
    case List(items) => forall i | 0 <= i < |items| :: SeedBlind(t, items[i])
    case Str(s) => !t.forbiddenText(s)
    case _ => true
  }

  /** Legal artifact names: a letter or digit, then at most 127 letters, digits, dots, underscores and dashes. */
  predicate LegalId(s: string)
  {
    1 <= |s| <= 128 && Alphanumeric(s[0]) && forall i | 0 <= i < |s| :: Alphanumeric(s[i]) || s[i] in "._-"
  }

  predicate Alphanumeric(c: char)
  {
    'A' <= c <= 'Z' || 'a' <= c <= 'z' || '0' <= c <= '9'
  }

  predicate Hex(s: string)
  {
    forall i | 0 <= i < |s| :: '0' <= s[i] <= '9' || 'a' <= s[i] <= 'f'
  }

  const GENERATED_PREFIX := "role1-"

  /** How Python prints a list or a dictionary. */
  predicate Bracketed(s: string)
  {
    s != "" && (s[0] == '[' || s[0] == '{')
  }

  /** Values that print as one piece of text; the text of a list or a dictionary mixes its parts. */
  predicate Scalar(v: Value)
  {
    v.Null? || v.Bool? || v.Int? || v.Float? || v.Str?
  }

  ghost predicate Lawful(t: Text)
  {
    && (forall s {:trigger t.strip(t.strip(s))} :: t.strip(t.strip(s)) == t.strip(s))
    && (forall s {:trigger LegalId(s), t.strip(s)} | LegalId(s) :: t.strip(s) == s)
    && (forall s {:trigger t.forbiddenText(t.strip(s))} :: t.forbiddenText(t.strip(s)) ==> t.forbiddenText(s))
    && (forall s {:trigger t.show(Str(s))} :: t.show(Str(s)) == s) && !t.forbiddenText("")
    && (forall v: Value {:trigger t.forbiddenText(t.show(v))} | v.Null? || v.Bool? || v.Int? || v.Float? :: !t.forbiddenText(t.show(v)))
    && (forall v: Value {:trigger t.strip(t.show(v))} | v.List? || v.Dict? :: Bracketed(t.strip(t.show(v))))
    && (forall k: Key | !k.Other? :: !t.forbiddenKey(k))
    && (forall v :: |t.sha256(v)| == 64 && Hex(t.sha256(v)))
    && (forall s | Hex(s) :: !t.forbiddenText(GENERATED_PREFIX + s))
    && (forall d: Disposition :: !t.forbiddenText(d.Name()))
    && (forall k: Kind :: !t.forbiddenText(k.Name()))
  }

  const SEED_OBJECT: Value := Dict(map[Other("seed7") := Int(1)])

  function ExampleText(): Text
  {
    Text(s => s, (v: Value) => match v case Str(s) => s case List(_) => "[]" case Dict(_) => "{'seed7': 1}" case _ => "value",
         k => k, k => "key", s => s == "seed=1" || s == "{'seed7': 1}", k => false, v => seq(64, _ => '0'))
  }

  /** The laws are consistent, with some text forbidden, and with a seed-blind object that prints as such text. */
  lemma LawsAreConsistent()
    ensures var t := ExampleText();
      && Lawful(t) && t.forbiddenText("seed=1") && !t.forbiddenText("ok")
      && Plain(SEED_OBJECT) && SeedBlind(t, SEED_OBJECT) && t.forbiddenText(t.show(SEED_OBJECT))
  {
    var t := ExampleText();
    forall v ensures |t.sha256(v)| == 64 && Hex(t.sha256(v)) { }
    forall s | Hex(s) ensures !t.forbiddenText(GENERATED_PREFIX + s) {
      assert (GENERATED_PREFIX + s)[0] == 'r';
    }
    forall d: Disposition ensures !t.forbiddenText(d.Name()) {
      assert d.Name()[0] != 's' && d.Name()[0] != '{';
    }
    forall k: Kind ensures !t.forbiddenText(k.Name()) {
      assert k.Name()[0] != '{' && (k.Name()[1] != 'e' || k.Name()[0] != 's');
    }
    forall v: Value | v.Null? || v.Bool? || v.Int? || v.Float? ensures !t.forbiddenText(t.show(v)) {
      assert t.show(v)[0] == 'v';
    }
  }

  /** `str(value).strip()`, refused when nothing is left. */
  function Nonempty(t: Text, v: Value): Result<string, ContractError>
  {
    var s := t.strip(t.show(v));
    if s == "" then Err(EmptyText) else Ok(s)
  }

  predicate Clean(t: Text, s: string)
  {
    s != "" && t.strip(s) == s
  }

  function Strs(xs: seq<string>): (r: Value)
    ensures r.List? && |r.items| == |xs| && forall i | 0 <= i < |xs| :: r.items[i] == Str(xs[i])
  {
    List(seq(|xs|, i requires 0 <= i < |xs| => Str(xs[i])))
  }

  function AllNonempty(t: Text, items: seq<Value>): (r: Result<seq<string>, ContractError>)
    ensures r.Ok? ==> |r.value| == |items|
    ensures r.Ok? ==> forall i | 0 <= i < |items| ::
              r.value[i] == t.strip(t.show(items[i])) && r.value[i] != ""
  {
    if items == [] then Ok([])
    else
      var head :- Nonempty(t, items[0]);
      var tail :- AllNonempty(t, items[1..]);
      Ok([head] + tail)
  }

  lemma {:induction false} AllNonemptyOfClean(t: Text, xs: seq<string>, items: seq<Value>)
    requires Lawful(t) && forall x <- xs :: Clean(t, x)
    requires |items| == |xs| && forall i | 0 <= i < |xs| :: items[i] == Str(xs[i])
    ensures AllNonempty(t, items) == Ok(xs)
  {
    if xs != [] {
      assert items[0] == Str(xs[0]);
      assert Clean(t, xs[0]);
      assert [xs[0]] + xs[1..] == xs;
      AllNonemptyOfClean(t, xs[1..], items[1..]);
    }
  }

  function ReadEvidence(t: Text, v: Value): (r: Result<seq<string>, ContractError>)
    ensures r.Ok? ==> 1 <= |r.value| <= 32
  {
    var items :- if v.IsArray() then Ok(v.items) else Err(NotAnArray);
    var xs :- AllNonempty(t, items);
    :- Need(1 <= |xs| <= 32, BadEvidence);
    Ok(xs)
  }

  /** The stripped texts of raw values, none of them empty. */
  predicate NamesOf(t: Text, items: seq<Value>, xs: seq<string>)
  {
    |items| == |xs| && forall i | 0 <= i < |xs| :: xs[i] == t.strip(t.show(items[i])) && xs[i] != ""
  }

  lemma {:induction false} AllNonemptyIff(t: Text, items: seq<Value>, xs: seq<string>)
    ensures AllNonempty(t, items) == Ok(xs) <==> NamesOf(t, items, xs)
  {
    if items != [] && xs != [] {
      AllNonemptyIff(t, items[1..], xs[1..]);
      assert xs == [xs[0]] + xs[1..];
    }
  }

  predicate Cites(t: Text, v: Value, xs: seq<string>)
  {
    v.IsArray() && 1 <= |xs| <= 32 && NamesOf(t, v.items, xs)
  }

  lemma EvidenceIff(t: Text, v: Value, xs: seq<string>)
    ensures ReadEvidence(t, v) == Ok(xs) <==> Cites(t, v, xs)
  {
    hide AllNonempty, NamesOf;
    if v.IsArray() {
      AllNonemptyIff(t, v.items, xs);
    }
  }

  predicate CleanEvidence(t: Text, xs: seq<string>)
  {
    1 <= |xs| <= 32 && forall x <- xs :: Clean(t, x)
  }

  predicate Unique(xs: seq<string>)
  {
    forall i, j | 0 <= i < j < |xs| :: xs[i] != xs[j]
  }

  /** Keys by which a tool (or critic) proposal would claim control, compared in lower case. */
  predicate ControlKey(k: Key, critic: bool)
  {
    k in {Execute, Executed, Apply, Applied, EnvironmentWrite, Termination, TerminationRequired, SelectedStage, SelectedTool}
    || (critic && k in {NestedAction, DirectAction, ReplacementAction, Recovery})
  }

  const TOOL_AUTHORITY := "proposal_only"
  const CRITIC_AUTHORITY := "reject_current_action_only"

  predicate NoControlClaims(t: Text, v: Value, critic: bool)
  {
    match v
    case Dict(fields) =>
      forall k | k in fields ::
        if ControlKey(t.lower(k), critic) then t.lower(k) == EnvironmentWrite && fields[k] == Bool(false)
        else
          && (t.lower(k) in {Authority, ActionAuthority} ==>
                fields[k] == Str(if critic then CRITIC_AUTHORITY else TOOL_AUTHORITY))
          && NoControlClaims(t, fields[k], critic)
    case List(items) => forall i | 0 <= i < |items| :: NoControlClaims(t, items[i], critic)
    case _ => true
  }
}
