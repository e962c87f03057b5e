/**
 * The retrying client of the write protocol.  `Issue` and `Hear` are its two
 * kinds of step; the class runs them to completion inside one blocking call.
 */
module EnvClient {
  import opened Wrappers
  import opened OperationProtocol

  const RELEASE := "/release"

  datatype WriteKind = StartEpisode | Ordinary(path: string) | ReleaseBinding {
    predicate WellFormed()
    {
      Ordinary? ==> path != RESET && path != RELEASE
    }

    function Endpoint(): string
    {
      match this
      case StartEpisode => RESET
      case Ordinary(path) => path
      case ReleaseBinding => RELEASE
    }
  }

  /** A request on the wire. */
  datatype Message = Message(endpoint: string, envelope: WriteEnvelope)

  datatype Waiting = Waiting(message: Message, kind: WriteKind, attempt: nat)

  datatype Client = Client(
    sessionId: string,
    bindingToken: Option<string>,
    episodeId: Option<string>,
    nextOperationSeq: nat,
    outcomeUnknown: bool,
    waiting: Option<Waiting>)

  /** What one HTTP attempt yields; an error response carries the outcome of its body, if it has one. */
  datatype Attempt = TimedOut | HttpError(outcome: Option<WriteOutcome>) | Answered(result: WriteResult)

  function AttemptOf(reply: Reply): Attempt
  {
    match reply
    case Conflict(_) => HttpError(None)
    case Done(result) => if result.status == OK_STATUS then Answered(result) else HttpError(Some(result.outcome))
  }

  datatype ClientError = ReleaseAfterUnknown | NoBindingToken | ResetFirst | RequestFailed | UnrelatedResult | NotCommitted | NotReleased

  function CanIssue(c: Client, kind: WriteKind): Outcome<ClientError>
  {
    if kind.ReleaseBinding? && c.outcomeUnknown then Fail(ReleaseAfterUnknown)
    else if c.bindingToken.None? then Fail(NoBindingToken)
    else if !kind.StartEpisode? && c.episodeId.None? then Fail(ResetFirst)
    else Pass
  }

  function Issue(c: Client, kind: WriteKind, requestId: string, newEpisodeId: string, digest: string): Client
    requires CanIssue(c, kind).Pass?
  {
    var envelope :=
      if kind.StartEpisode?
      then WriteEnvelope(requestId, c.sessionId, c.bindingToken.value, newEpisodeId, 0, digest)
      else WriteEnvelope(requestId, c.sessionId, c.bindingToken.value, c.episodeId.value, c.nextOperationSeq, digest);
    c.(waiting := Some(Waiting(Message(kind.Endpoint(), envelope), kind, 1)))
  }

  /** The error, if any, with which a successful HTTP response is still turned down. */
  function Judge(w: Waiting, result: WriteResult): Outcome<ClientError>
  {
    if result.envelope.requestId != w.message.envelope.requestId then Fail(UnrelatedResult)
    else if result.outcome != Committed then Fail(NotCommitted)
    else if w.kind.ReleaseBinding? && !result.body.ReleasedValue? then Fail(NotReleased)
    else Pass
  }

  function Hear(c: Client, attempt: Attempt, newSessionId: string): Client
    requires c.waiting.Some?
  {
    var w := c.waiting.value;
    match attempt
    case TimedOut =>
      if w.attempt < 2 then c.(waiting := Some(w.(attempt := w.attempt + 1)))
      else c.(waiting := None, outcomeUnknown := true)
    case HttpError(outcome) =>
      c.(waiting := None, outcomeUnknown := c.outcomeUnknown || outcome == Some(OutcomeUnknown))
    case Answered(result) =>
      if Judge(w, result).Fail? then c.(waiting := None)
      else
        match w.kind
        case StartEpisode =>
          c.(waiting := None, episodeId := Some(w.message.envelope.episodeId), nextOperationSeq := 1,
             outcomeUnknown := false)
        case ReleaseBinding =>
          c.(waiting := None, sessionId := newSessionId, bindingToken := None, episodeId := None,
             nextOperationSeq := 0)
        case Ordinary(_) =>
          c.(waiting := None, nextOperationSeq := c.nextOperationSeq + 1)
  }

  /** At most two attempts, the second only after a timeout. */
  function Resolve(c: Client, transport: (nat, Message) -> Attempt, newSessionId: string): Client
    requires c.waiting.Some?
  {
    var m := c.waiting.value.message;
    var c1 := Hear(c, transport(0, m), newSessionId);
    if c1.waiting.None? then c1 else Hear(c1, transport(1, m), newSessionId)
  }

  /** The answer a write ends up with: the first, or the second after a timeout. */
  function Answer(transport: (nat, Message) -> Attempt, m: Message): Option<WriteResult>
  {
    if transport(0, m).Answered? then Some(transport(0, m).result)
    else if transport(0, m).TimedOut? && transport(1, m).Answered? then Some(transport(1, m).result)
    else None
  }

  /** What a write reports: the committed answer to its own request, or why there is none. */
  function Verdict(w: Waiting, answer: Option<WriteResult>): Result<WriteResult, ClientError>
  {
    if answer.None? then Err(RequestFailed)
    else
      match Judge(w, answer.value)
      case Pass => Ok(answer.value)
      case Fail(error) => Err(error)
  }

  /** A write reports success exactly for the committed answer to its own request, with the generation when it released. */
  lemma VerdictIff(w: Waiting, answer: Option<WriteResult>, result: WriteResult)
    ensures Verdict(w, answer) == Ok(result) <==>
      && answer == Some(result) && result.envelope.requestId == w.message.envelope.requestId
      && result.outcome == Committed && (w.kind.ReleaseBinding? ==> result.body.ReleasedValue?)
    ensures Verdict(w, answer) == Err(RequestFailed) <==> answer.None?
  {
  }

  predicate TurnsUnknown(transport: (nat, Message) -> Attempt, m: Message)
  {
    || transport(0, m) == HttpError(Some(OutcomeUnknown))
    || (transport(0, m).TimedOut? && (transport(1, m).TimedOut? || transport(1, m) == HttpError(Some(OutcomeUnknown))))
  }

  /** What a committed write of each kind does to the client. */
  function Advanced(c: Client, kind: WriteKind, episode: string, newSessionId: string): Client
  {
    match kind
    case StartEpisode => c.(episodeId := Some(episode), nextOperationSeq := 1, outcomeUnknown := false)
    case ReleaseBinding => c.(sessionId := newSessionId, bindingToken := None, episodeId := None, nextOperationSeq := 0)
    case Ordinary(_) => c.(nextOperationSeq := c.nextOperationSeq + 1)
  }

  lemma ResolveInOneStep(c: Client, transport: (nat, Message) -> Attempt, newSessionId: string)
    requires c.waiting.Some? && c.waiting.value.attempt == 1
    ensures var w := c.waiting.value;
      var answer := Answer(transport, w.message);
      var heard := c.(waiting := None, outcomeUnknown := c.outcomeUnknown || TurnsUnknown(transport, w.message));
      Resolve(c, transport, newSessionId)
      == if answer.Some? && Judge(w, answer.value).Pass?
         then Advanced(heard, w.kind, w.message.envelope.episodeId, newSessionId) else heard
  {
  }

  class RoboCasaEnvClient {
    var sessionId: string
    var bindingToken: Option<string>
    var episodeId: Option<string>
    var nextOperationSeq: nat
    var outcomeUnknown: bool

    function State(): Client
      reads this
    {
      Client(sessionId, bindingToken, episodeId, nextOperationSeq, outcomeUnknown, None)
    }

    constructor (session: string)
      ensures State() == Client(session, None, None, 0, false, None)
    {
      sessionId, bindingToken, episodeId, nextOperationSeq, outcomeUnknown := session, None, None, 0, false;
    }

    method Request(m: Message, transport: (nat, Message) -> Attempt) returns (response: Option<WriteResult>)
      modifies this`outcomeUnknown
      ensures response == Answer(transport, m)
      ensures outcomeUnknown == (old(outcomeUnknown) || TurnsUnknown(transport, m))
    {
      var attempts := 2;
      for attempt := 0 to attempts
        invariant attempt > 0 ==> transport(0, m).TimedOut?
        invariant attempt > 1 ==> transport(1, m).TimedOut?
        invariant outcomeUnknown == (old(outcomeUnknown) || attempt == 2)
      {
        match transport(attempt, m) {
          case Answered(result) => return Some(result);
          case HttpError(outcome) =>
            if outcome == Some(OutcomeUnknown) {
              outcomeUnknown := true;
            }
            return None;
          case TimedOut =>
            if attempt + 1 == attempts {
              outcomeUnknown := true;
            }
        }
      }
      return None;
    }

    /** One blocking write: bind on demand, send with one retry, judge the answer, advance. */
    method Write(kind: WriteKind, health: Option<string>, requestId: string, newEpisodeId: string, digest: string,
                 transport: (nat, Message) -> Attempt, newSessionId: string)
      returns (r: Result<WriteResult, ClientError>)
      requires kind.WellFormed()
      modifies this
      ensures var bound := if old(bindingToken).None? && !(kind.ReleaseBinding? && old(outcomeUnknown))
                           then old(State()).(bindingToken := health) else old(State());
              match CanIssue(bound, kind)
              case Fail(error) => r == Err(error) && State() == bound
              case Pass =>
                var issued := Issue(bound, kind, requestId, newEpisodeId, digest);
                var w := issued.waiting.value;
                State() == Resolve(issued, transport, newSessionId) && r == Verdict(w, Answer(transport, w.message))
    {
      hide Hear, Resolve, Answer, TurnsUnknown, Advanced;
      if kind.ReleaseBinding? && outcomeUnknown {
        return Err(ReleaseAfterUnknown);
      }
      if bindingToken.None? {
        bindingToken := health;
        if bindingToken.None? {
          return Err(NoBindingToken);
        }
      }
      var episode, sequence := newEpisodeId, 0;
      if !kind.StartEpisode? {
        if episodeId.None? {
          return Err(ResetFirst);
        }
        episode, sequence := episodeId.value, nextOperationSeq;
      }
      ghost var issued := Issue(State(), kind, requestId, newEpisodeId, digest);
      ResolveInOneStep(issued, transport, newSessionId);
      var envelope := WriteEnvelope(requestId, sessionId, bindingToken.value, episode, sequence, digest);
      var response := Request(Message(kind.Endpoint(), envelope), transport);
      if response.None? {
        return Err(RequestFailed);
      }
      var result := response.value;
      if result.envelope.requestId != requestId {
        return Err(UnrelatedResult);
      }
      if result.outcome != Committed {
        return Err(NotCommitted);
      }
      if kind.ReleaseBinding? && !result.body.ReleasedValue? {
        return Err(NotReleased);
      }
      AdvanceFor(kind, episode, newSessionId);
      return Ok(result);
    }

    method AdvanceFor(kind: WriteKind, episode: string, newSession: string)
      modifies this
      ensures State() == Advanced(old(State()), kind, episode, newSession)
    {
      match kind {
        case StartEpisode =>
          episodeId := Some(episode);
          nextOperationSeq := 1;
          outcomeUnknown := false;
        case ReleaseBinding =>
          sessionId := newSession;
          bindingToken := None;
          episodeId := None;
          nextOperationSeq := 0;
        case Ordinary(_) =>
          nextOperationSeq := nextOperationSeq + 1;
      }
    }
  }
}
