/**
 * The write registry of one environment process: envelope parsing, admission,
 * settlement of the operation's outcome, and the bounded cache of terminal
 * results.  The value-level functions specify the class at the end.
 */
module OperationProtocol {
  import opened Wrappers

  const RESET := "/reset"
  const OK_STATUS: nat := 200
  const SERVER_ERROR_STATUS: nat := 500

  datatype WriteEnvelope = WriteEnvelope(
    requestId: string,
    sessionId: string,
    bindingToken: string,
    episodeId: string,
    operationSeq: nat,
    payloadSha256: string)

  // ---- Envelope parsing ------------------------------------------------

  datatype RawSequence = RawInt(n: int) | RawBool(b: bool) | RawOther

  datatype RawOperation = RawOperation(
    requestId: string,
    sessionId: string,
    bindingToken: string,
    episodeId: string,
    operationSeq: RawSequence,
    payloadSha256: string)

  /** A request body: its semantic content (everything but the envelope) and the raw envelope, if any. */
  datatype Payload = Payload(content: string, operation: Option<RawOperation>)

  datatype Refusal =
    | MissingEnvelope
    | InvalidIdentifier
    | InvalidDigest
    | InvalidSequence
    | DigestMismatch
    | ConflictingContent
    | StaleToken
    | BindingLost
    | OtherSession
    | ResetCannotRelease
    | ResetSequenceNotZero
    | EpisodeAlreadyReset
    | EpisodeMismatch
    | SequenceOutOfOrder

  predicate IdentifierChar(c: char)
  {
    'A' <= c <= 'Z' || 'a' <= c <= 'z' || '0' <= c <= '9' || c in "_.:-"
  }

  predicate ValidIdentifier(s: string)
  {
    8 <= |s| <= 128 && forall i | 0 <= i < |s| :: IdentifierChar(s[i])
  }

  predicate ValidDigest(s: string)
  {
    |s| == 64 && forall i | 0 <= i < |s| :: '0' <= s[i] <= '9' || 'a' <= s[i] <= 'f'
  }

  function Parse(payload: Payload, sha256: string -> string): (r: Result<WriteEnvelope, Refusal>)
    ensures r.Ok? ==>
      && payload.operation.Some?
      && ValidIdentifier(r.value.requestId) && ValidIdentifier(r.value.sessionId)
      && ValidIdentifier(r.value.bindingToken) && ValidIdentifier(r.value.episodeId)
      && r.value.payloadSha256 == sha256(payload.content)
  {
    if payload.operation.None? then Err(MissingEnvelope) else
    var raw := payload.operation.value;
    :- Need(ValidIdentifier(raw.requestId) && ValidIdentifier(raw.sessionId)
            && ValidIdentifier(raw.bindingToken) && ValidIdentifier(raw.episodeId), InvalidIdentifier);
    :- Need(ValidDigest(raw.payloadSha256), InvalidDigest);
    :- Need(raw.operationSeq.RawInt? && raw.operationSeq.n >= 0, InvalidSequence);
    :- Need(raw.payloadSha256 == sha256(payload.content), DigestMismatch);
    Ok(WriteEnvelope(raw.requestId, raw.sessionId, raw.bindingToken, raw.episodeId,
                     raw.operationSeq.n, raw.payloadSha256))
  }

  /** How a client writes an envelope into a request body. */
  function Printed(e: WriteEnvelope): RawOperation
  {
    RawOperation(e.requestId, e.sessionId, e.bindingToken, e.episodeId, RawInt(e.operationSeq), e.payloadSha256)
  }

  /** Accepted exactly when it is a printed envelope with legal identifiers and the digest of the content around it. */
  lemma ParsesIff(payload: Payload, sha256: string -> string, e: WriteEnvelope)
    ensures Parse(payload, sha256) == Ok(e) <==>
      && payload.operation == Some(Printed(e))
      && ValidIdentifier(e.requestId) && ValidIdentifier(e.sessionId)
      && ValidIdentifier(e.bindingToken) && ValidIdentifier(e.episodeId)
      && ValidDigest(e.payloadSha256) && e.payloadSha256 == sha256(payload.content)
  {
    if payload.operation.Some? {
      assert payload.operation.value.operationSeq.RawInt? ==>
          payload.operation.value.operationSeq == RawInt(payload.operation.value.operationSeq.n);
    }
  }

  // ---- Registry state --------------------------------------------------

  datatype WriteOutcome = Committed | Rejected | OutcomeUnknown

  datatype Body =
    | Value(value: string)
    | ReleasedValue(value: string, releasedGeneration: nat)
    | Failure(error: string, detail: string)

  datatype WriteResult = WriteResult(
    status: nat,
    body: Body,
    envelope: WriteEnvelope,
    outcome: WriteOutcome,
    sideEffectApplied: bool)

  /** One terminal result as the cache files it: under its request id, with endpoint and digest. */
  datatype Entry = Entry(endpoint: string, result: WriteResult) {
    function Envelope(): WriteEnvelope { result.envelope }
    function Id(): string { result.envelope.requestId }
    predicate IsReset() { endpoint == RESET }
    predicate CommittedReset() { IsReset() && result.outcome == Committed }
    predicate CommittedWrite() { !IsReset() && result.outcome == Committed }
    predicate AppliedWrite() { !IsReset() && result.sideEffectApplied }
  }

  datatype Registry = Registry(
    maximum: nat,
    bindingToken: string,
    generation: nat,
    session: Option<string>,
    episode: Option<string>,
    nextSequence: nat,
    lost: bool,
    cache: seq<Entry>)

  function Lookup(cache: seq<Entry>, id: string): (r: Option<Entry>)
    ensures r.None? <==> forall i | 0 <= i < |cache| :: cache[i].Id() != id
    ensures r.Some? ==> r.value in cache && r.value.Id() == id
  {
    if cache == [] then None
    else if cache[0].Id() == id then Some(cache[0])
    else Lookup(cache[1..], id)
  }

  function Without(cache: seq<Entry>, id: string): (r: seq<Entry>)
    ensures |r| <= |cache|
  {
    if cache == [] then []
    else (if cache[0].Id() == id then [] else [cache[0]]) + Without(cache[1..], id)
  }

  function LastN<T>(s: seq<T>, n: nat): seq<T>
  {
    if |s| <= n then s else s[|s| - n..]
  }

  /** Insert at the end (moving an existing key there), then drop the oldest entries. */
  function Remember(cache: seq<Entry>, maximum: nat, entry: Entry): seq<Entry>
  {
    LastN(Without(cache, entry.Id()) + [entry], maximum)
  }

  // ---- Admission and settlement ----------------------------------------

  datatype Admission = Cached(result: WriteResult) | Refused(reason: Refusal) | Run

  function CheckOrder(r: Registry, endpoint: string, e: WriteEnvelope, release: bool): Outcome<Refusal>
  {
    if release && endpoint == RESET then Fail(ResetCannotRelease)
    else if endpoint == RESET then
      if e.operationSeq != 0 then Fail(ResetSequenceNotZero)
      else if r.episode == Some(e.episodeId) then Fail(EpisodeAlreadyReset)
      else Pass
    else
      if r.episode != Some(e.episodeId) then Fail(EpisodeMismatch)
      else if e.operationSeq != r.nextSequence then Fail(SequenceOutOfOrder)
      else Pass
  }

  /** Everything before the operation runs.  A free registry is bound before the order checks. */
  function Admit(r: Registry, endpoint: string, e: WriteEnvelope, release: bool): (Registry, Admission)
  {
    var cached := Lookup(r.cache, e.requestId);
    if cached.Some? then
      if cached.value.endpoint != endpoint || cached.value.Envelope().payloadSha256 != e.payloadSha256
      then (r, Refused(ConflictingContent))
      else (r, Cached(cached.value.result))
    else if e.bindingToken != r.bindingToken then (r, Refused(StaleToken))
    else if r.lost then (r, Refused(BindingLost))
    else if r.session.Some? && r.session != Some(e.sessionId) then (r, Refused(OtherSession))
    else
      var bound := r.(session := Some(e.sessionId));
      match CheckOrder(bound, endpoint, e, release)
      case Fail(reason) => (bound, Refused(reason))
      case Pass => (bound, Run)
  }

  /** What the operation did: its value or exception, and whether the side-effect marker moved. */
  datatype OperationRun =
    | Returned(value: string)
    | Raised(error: string, detail: string, markerMoved: bool)

  function Settle(r: Registry, endpoint: string, e: WriteEnvelope, release: bool,
                  run: OperationRun, newToken: string): (Registry, Entry)
  {
    match run
    case Raised(error, detail, markerMoved) =>
      var sideEffect := endpoint == RESET || markerMoved;
      var entry := Entry(endpoint, WriteResult(SERVER_ERROR_STATUS, Failure(error, detail), e,
                                               if sideEffect then OutcomeUnknown else Rejected, sideEffect));
      (r.(cache := Remember(r.cache, r.maximum, entry), lost := r.lost || sideEffect), entry)
    case Returned(value) =>
      var advanced := if endpoint == RESET
                      then r.(episode := Some(e.episodeId), nextSequence := 1)
                      else r.(nextSequence := r.nextSequence + 1);
      var settled := if release
                     then advanced.(generation := r.generation + 1, session := None, episode := None,
                                    nextSequence := 0, lost := false, bindingToken := newToken)
                     else advanced;
      var body := if release then ReleasedValue(value, r.generation) else Value(value);
      var entry := Entry(endpoint, WriteResult(OK_STATUS, body, e, Committed, true));
      (settled.(cache := Remember(r.cache, r.maximum, entry)), entry)
  }

  /** One parsed request together with what its operation would do and the token a release would draw. */
  datatype Call = Call(endpoint: string, envelope: WriteEnvelope, release: bool,
                       run: OperationRun, newToken: string)

  datatype Reply = Done(result: WriteResult) | Conflict(reason: Refusal)

  datatype Executed = Executed(registry: Registry, reply: Reply, ran: Option<Entry>)

  function Execute(r: Registry, c: Call): Executed
  {
    var (admitted, admission) := Admit(r, c.endpoint, c.envelope, c.release);
    match admission
    case Cached(result) => Executed(admitted, Done(result), None)
    case Refused(reason) => Executed(admitted, Conflict(reason), None)
    case Run =>
      var (settled, entry) := Settle(admitted, c.endpoint, c.envelope, c.release, c.run, c.newToken);
      Executed(settled, Done(entry.result), Some(entry))
  }

  lemma {:induction false} LookupFirst(cache: seq<Entry>, id: string, i: nat)
    requires i < |cache| && cache[i].Id() == id
    requires forall j | 0 <= j < i :: cache[j].Id() != id
    ensures Lookup(cache, id) == Some(cache[i])
  {
    if i > 0 {
      LookupFirst(cache[1..], id, i - 1);
    }
  }

  lemma {:induction false} WithoutAt(cache: seq<Entry>, id: string, i: nat)
    requires i < |cache| && cache[i].Id() == id
    requires forall j | 0 <= j < |cache| && j != i :: cache[j].Id() != id
    ensures Without(cache, id) == cache[..i] + cache[i + 1..]
  {
    if i == 0 {
      WithoutAbsent(cache[1..], id);
    } else {
      WithoutAt(cache[1..], id, i - 1);
      assert cache[..i] + cache[i + 1..] == [cache[0]] + (cache[1..][..i - 1] + cache[1..][i..]);
    }
  }

  lemma {:induction false} WithoutAbsent(cache: seq<Entry>, id: string)
    requires forall j | 0 <= j < |cache| :: cache[j].Id() != id
    ensures Without(cache, id) == cache
  {
    if cache != [] {
      WithoutAbsent(cache[1..], id);
    }
  }

  ghost predicate DistinctIds(entries: seq<Entry>)
  {
    forall i, j | 0 <= i < j < |entries| :: entries[i].Id() != entries[j].Id()
  }

  lemma {:induction false} WithoutKeepsDistinct(cache: seq<Entry>, id: string)
    requires DistinctIds(cache)
    ensures DistinctIds(Without(cache, id))
    ensures forall x <- Without(cache, id) :: x in cache && x.Id() != id
  {
    if cache != [] {
      WithoutKeepsDistinct(cache[1..], id);
    }
  }

  lemma RememberKeepsDistinct(cache: seq<Entry>, maximum: nat, entry: Entry)
    requires DistinctIds(cache)
    ensures DistinctIds(Remember(cache, maximum, entry))
  {
    WithoutKeepsDistinct(cache, entry.Id());
    var kept := Without(cache, entry.Id());
    var full := kept + [entry];
    forall i, j | 0 <= i < j < |full| ensures full[i].Id() != full[j].Id() {
      assert full[i] in kept;
    }
  }

  /** The registry object.  Its ordered dictionary of results is a sequence with distinct keys. */
  class IdempotentWriteRegistry {
    const maximumCachedResults: nat
    const sha256: string -> string
    var bindingToken: string
    var generation: nat
    var sessionId: Option<string>
    var episodeId: Option<string>
    var nextSequence: nat
    var lost: bool
    var cache: seq<Entry>

    ghost predicate Valid()
      reads this
    {
      maximumCachedResults >= 1 && DistinctIds(cache)
    }

    function State(): Registry
      reads this
    {
      Registry(maximumCachedResults, bindingToken, generation, sessionId, episodeId,
               nextSequence, lost, cache)
    }

    constructor (maximum: nat, token: string, digest: string -> string)
      requires maximum >= 1
      ensures Valid() && sha256 == digest
      ensures State() == Registry(maximum, token, 0, None, None, 0, false, [])
    {
      maximumCachedResults, sha256, bindingToken := maximum, digest, token;
      generation, sessionId, episodeId, nextSequence, lost, cache := 0, None, None, 0, false, [];
    }

    method FindCached(id: string) returns (index: int)
      requires Valid()
      ensures index < 0 <==> Lookup(cache, id).None?
      ensures 0 <= index ==> index < |cache| && cache[index].Id() == id && Lookup(cache, id) == Some(cache[index])
    {
      index := 0;
      while index < |cache|
        invariant 0 <= index <= |cache|
        invariant forall j | 0 <= j < index :: cache[j].Id() != id
      {
        if cache[index].Id() == id {
          LookupFirst(cache, id, index);
          return;
        }
        index := index + 1;
      }
      index := -1;
    }

    method EvictOldest()
      modifies this`cache
      ensures cache == LastN(old(cache), maximumCachedResults)
    {
      ghost var full := cache;
      while |cache| > maximumCachedResults
        invariant |cache| <= |full| && cache == full[|full| - |cache|..]
        invariant |full| > maximumCachedResults ==> |cache| >= maximumCachedResults
        invariant |full| <= maximumCachedResults ==> |cache| == |full|
      {
        cache := cache[1..];
      }
    }

    method CacheResult(entry: Entry)
      requires Valid()
      modifies this`cache
      ensures Valid()
      ensures cache == Remember(old(cache), maximumCachedResults, entry)
    {
      RememberKeepsDistinct(cache, maximumCachedResults, entry);
      var index := FindCached(entry.Id());
      if index >= 0 {
        WithoutAt(cache, entry.Id(), index);
        cache := cache[..index] + cache[index + 1..];
      } else {
        WithoutAbsent(cache, entry.Id());
      }
      cache := cache + [entry];
      EvictOldest();
    }

    method TryAdmit(endpoint: string, e: WriteEnvelope, release: bool) returns (admission: Admission)
      requires Valid()
      modifies this`sessionId
      ensures Valid()
      ensures (State(), admission) == Admit(old(State()), endpoint, e, release)
    {
      var index := FindCached(e.requestId);
      if index >= 0 {
        var cached := cache[index];
        if cached.endpoint != endpoint || cached.Envelope().payloadSha256 != e.payloadSha256 {
          return Refused(ConflictingContent);
        }
        return Cached(cached.result);
      }
      if e.bindingToken != bindingToken {
        return Refused(StaleToken);
      }
      if lost {
        return Refused(BindingLost);
      }
      if sessionId.None? {
        sessionId := Some(e.sessionId);
      } else if e.sessionId != sessionId.value {
        return Refused(OtherSession);
      }
      var isReset := endpoint == RESET;
      if release && isReset {
        return Refused(ResetCannotRelease);
      }
      if isReset {
        if e.operationSeq != 0 {
          return Refused(ResetSequenceNotZero);
        }
        if episodeId == Some(e.episodeId) {
          return Refused(EpisodeAlreadyReset);
        }
      } else {
        if episodeId != Some(e.episodeId) {
          return Refused(EpisodeMismatch);
        }
        if e.operationSeq != nextSequence {
          return Refused(SequenceOutOfOrder);
        }
      }
      return Run;
    }

    method Conclude(endpoint: string, e: WriteEnvelope, release: bool, run: OperationRun, newToken: string)
      returns (result: WriteResult)
      requires Valid()
      modifies this
      ensures Valid()
      ensures (State(), Entry(endpoint, result)) == Settle(old(State()), endpoint, e, release, run, newToken)
    {
      match run {
        case Raised(error, detail, markerMoved) =>
          var sideEffect := endpoint == RESET || markerMoved;
          result := WriteResult(SERVER_ERROR_STATUS, Failure(error, detail), e,
                                if sideEffect then OutcomeUnknown else Rejected, sideEffect);
          CacheResult(Entry(endpoint, result));
          if sideEffect {
            lost := true;
          }
        case Returned(value) =>
          if endpoint == RESET {
            episodeId := Some(e.episodeId);
            nextSequence := 1;
          } else {
            nextSequence := nextSequence + 1;
          }
          var body := Value(value);
          if release {
            body := ReleasedValue(value, generation);
            generation := generation + 1;
            sessionId := None;
            episodeId := None;
            nextSequence := 0;
            lost := false;
            bindingToken := newToken;
          }
          result := WriteResult(OK_STATUS, body, e, Committed, true);
          CacheResult(Entry(endpoint, result));
      }
    }

    /** One write under the registry lock; `run` is what the operation does if it is reached at all. */
    method ExecuteWrite(endpoint: string, payload: Payload, release: bool, run: OperationRun, newToken: string)
      returns (reply: Reply)
      requires Valid()
      modifies this
      ensures Valid()
      ensures match Parse(payload, sha256)
              case Err(reason) => reply == Conflict(reason) && State() == old(State())
              case Ok(e) =>
                var x := Execute(old(State()), Call(endpoint, e, release, run, newToken));
                State() == x.registry && reply == x.reply
    {
      var parsed := Parse(payload, sha256);
      if parsed.Err? {
        return Conflict(parsed.error);
      }
      var admission := TryAdmit(endpoint, parsed.value, release);
      match admission {
        case Cached(result) => return Done(result);
        case Refused(reason) => return Conflict(reason);
        case Run =>
          var result := Conclude(endpoint, parsed.value, release, run, newToken);
          return Done(result);
      }
    }
  }
}
