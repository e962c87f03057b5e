/**
 * Whole runs of the write registry, for arbitrary (even hostile) sequences of
 * calls.  A history pairs the registry with the log of every terminal result
 * it ever produced, evicted ones included: one log entry is one execution of
 * an operation.
 */
module RegistryRuns {
  import opened Wrappers
  import opened OperationProtocol

  datatype History = History(registry: Registry, log: seq<Entry>)

  function Start(maximum: nat, token: string): History
  {
    History(Registry(maximum, token, 0, None, None, 0, false, []), [])
  }

  function After(h: History, c: Call): History
  {
    var x := Execute(h.registry, c);
    History(x.registry, if x.ran.Some? then h.log + [x.ran.value] else h.log)
  }

  function RunAll(h: History, calls: seq<Call>): History
  {
    if calls == [] then h
    else After(RunAll(h, calls[..|calls| - 1]), calls[|calls| - 1])
  }

  function TokenOf(x: Entry): string { x.Envelope().bindingToken }

  function EpisodeOf(x: Entry): string { x.Envelope().episodeId }

  /** The token a call would draw on release was never used before. */
  ghost predicate FreshToken(h: History, c: Call)
  {
    c.newToken != h.registry.bindingToken && forall x <- h.log :: TokenOf(x) != c.newToken
  }

  ghost predicate FreshTokens(h: History, calls: seq<Call>)
  {
    calls == [] ||
    (FreshTokens(h, calls[..|calls| - 1]) && FreshToken(RunAll(h, calls[..|calls| - 1]), calls[|calls| - 1]))
  }

  ghost predicate Logged(h: History, id: string)
  {
    exists i :: 0 <= i < |h.log| && h.log[i].Id() == id
  }

  /** A request id that was answered and then evicted is not delivered again. */
  ghost predicate NotEvicted(h: History, c: Call)
  {
    Logged(h, c.envelope.requestId) ==> Lookup(h.registry.cache, c.envelope.requestId).Some?
  }

  ghost predicate NoEvictedRedelivery(h: History, calls: seq<Call>)
  {
    calls == [] ||
    (NoEvictedRedelivery(h, calls[..|calls| - 1]) && NotEvicted(RunAll(h, calls[..|calls| - 1]), calls[|calls| - 1]))
  }

  // ---- The bounded cache refines the full history -----------------------

  ghost predicate CacheInv(h: History)
  {
    && h.registry.maximum >= 1
    && h.registry.cache == LastN(h.log, h.registry.maximum)
    && DistinctIds(h.registry.cache)
  }

  lemma LastNAppend<T>(s: seq<T>, n: nat, x: T)
    requires n >= 1
    ensures LastN(LastN(s, n) + [x], n) == LastN(s + [x], n)
  {
  }

  /** What running an operation does to the cache, and that nothing else touches it. */
  lemma CacheStep(r: Registry, c: Call)
    ensures var x := Execute(r, c);
            && x.registry.maximum == r.maximum
            && (x.ran.None? ==> x.registry.cache == r.cache)
            && (x.ran.Some? ==>
                  && x.ran.value.Envelope() == c.envelope
                  && Lookup(r.cache, c.envelope.requestId).None?
                  && x.registry.cache == Remember(r.cache, r.maximum, x.ran.value))
  {
  }

  lemma CacheInvStep(h: History, c: Call)
    requires CacheInv(h)
    ensures CacheInv(After(h, c))
    ensures After(h, c).registry.maximum == h.registry.maximum
  {
    CacheStep(h.registry, c);
    var x := Execute(h.registry, c);
    if x.ran.Some? {
      RememberFresh(h.registry.cache, h.registry.maximum, x.ran.value);
      LastNAppend(h.log, h.registry.maximum, x.ran.value);
    }
  }

  lemma RememberFresh(cache: seq<Entry>, maximum: nat, entry: Entry)
    requires Lookup(cache, entry.Id()).None? && DistinctIds(cache)
    ensures Remember(cache, maximum, entry) == LastN(cache + [entry], maximum)
    ensures DistinctIds(Remember(cache, maximum, entry))
  {
    WithoutAbsent(cache, entry.Id());
    RememberKeepsDistinct(cache, maximum, entry);
  }

  lemma {:induction false} CacheIsRecentHistory(maximum: nat, token: string, calls: seq<Call>)
    requires maximum >= 1
    ensures var h := RunAll(Start(maximum, token), calls);
            && h.registry.cache == LastN(h.log, maximum)
            && DistinctIds(h.registry.cache)
            && CacheInv(h) && h.registry.maximum == maximum
  {
    if calls != [] {
      CacheIsRecentHistory(maximum, token, calls[..|calls| - 1]);
      CacheInvStep(RunAll(Start(maximum, token), calls[..|calls| - 1]), calls[|calls| - 1]);
    }
  }

  // ---- Exactly once while no evicted id comes back -----------------------

  lemma {:induction false} OneRunPerRequestId(maximum: nat, token: string, calls: seq<Call>)
    requires maximum >= 1 && NoEvictedRedelivery(Start(maximum, token), calls)
    ensures DistinctIds(RunAll(Start(maximum, token), calls).log)
  {
    if calls != [] {
      OneRunPerRequestId(maximum, token, calls[..|calls| - 1]);
    }
  }

  /** The k-th call repeats an id already answered: nothing runs, and equal content gets that very answer. */
  lemma RedeliveryIsAnsweredIdentically(maximum: nat, token: string, calls: seq<Call>, k: nat, i: nat)
    requires maximum >= 1 && k < |calls|
    requires NoEvictedRedelivery(Start(maximum, token), calls[..k])
    requires NotEvicted(RunAll(Start(maximum, token), calls[..k]), calls[k])
    requires i < |RunAll(Start(maximum, token), calls[..k]).log|
    requires RunAll(Start(maximum, token), calls[..k]).log[i].Id() == calls[k].envelope.requestId
    ensures var h := RunAll(Start(maximum, token), calls[..k]);
            var c := calls[k];
            var x := Execute(h.registry, c);
            && x.ran.None? && x.registry == h.registry
            && x.reply == if h.log[i].endpoint == c.endpoint
                             && h.log[i].Envelope().payloadSha256 == c.envelope.payloadSha256
                          then Done(h.log[i].result) else Conflict(ConflictingContent)
  {
    var h := RunAll(Start(maximum, token), calls[..k]);
    OneRunPerRequestId(maximum, token, calls[..k]);
    CacheIsRecentHistory(maximum, token, calls[..k]);
    var hit := Lookup(h.registry.cache, calls[k].envelope.requestId).value;
    assert hit in h.log;
    var j :| 0 <= j < |h.log| && h.log[j] == hit;
    assert j == i;
  }

  // ---- Answers and state mean what was done ------------------------------

  /** The calls whose operation was executed, in order. */
  function Performed(h: History, calls: seq<Call>): seq<Call>
  {
    if calls == [] then []
    else
      var front, c := calls[..|calls| - 1], calls[|calls| - 1];
      Performed(h, front) + (if |RunAll(h, calls).log| > |RunAll(h, front).log| then [c] else [])
  }

  predicate Releases(c: Call)
  {
    c.release && c.run.Returned?
  }

  function ReleaseCount(calls: seq<Call>): nat
  {
    if calls == [] then 0
    else ReleaseCount(calls[..|calls| - 1]) + (if Releases(calls[|calls| - 1]) then 1 else 0)
  }

  /**
   * The answer to an executed call: its value, or its error and what it may
   * have done to the robot; `generation` counts the releases before it.
   */
  predicate Reports(result: WriteResult, c: Call, generation: nat)
  {
    && result.envelope == c.envelope
    && match c.run
       case Returned(value) =>
         && result.status == 200 && result.outcome == Committed && result.sideEffectApplied
         && (if c.release then result.body == ReleasedValue(value, generation) else result.body == Value(value))
       case Raised(error, detail, markerMoved) =>
         && result.status == 500 && result.body == Failure(error, detail)
         && (result.sideEffectApplied <==> c.endpoint == RESET || markerMoved)
         && result.outcome == if c.endpoint == RESET || markerMoved then OutcomeUnknown else Rejected
  }

  /** Every logged result reports the call that was executed for it. */
  ghost predicate LogIsTrue(h: History, performed: seq<Call>)
  {
    && |h.log| == |performed| && h.registry.generation == ReleaseCount(performed)
    && forall i | 0 <= i < |h.log| ::
         h.log[i].endpoint == performed[i].endpoint && Reports(h.log[i].result, performed[i], ReleaseCount(performed[..i]))
  }

  lemma ReportStep(r: Registry, c: Call)
    ensures var x := Execute(r, c);
      && (x.ran.None? ==> x.registry.generation == r.generation)
      && (x.ran.Some? ==>
            && x.reply == Done(x.ran.value.result) && x.ran.value.endpoint == c.endpoint
            && Reports(x.ran.value.result, c, r.generation)
            && x.registry.generation == r.generation + (if Releases(c) then 1 else 0))
  {
  }

  lemma PerformedSnoc(h: History, calls: seq<Call>, c: Call)
    ensures RunAll(h, calls + [c]) == After(RunAll(h, calls), c)
    ensures Performed(h, calls + [c])
            == Performed(h, calls) + (if Execute(RunAll(h, calls).registry, c).ran.Some? then [c] else [])
  {
    hide Execute;
    RunSnoc(h, calls, c);
    assert (calls + [c])[..|calls|] == calls;
  }

  lemma {:induction false} LogTellsTheTruth(maximum: nat, token: string, calls: seq<Call>)
    ensures LogIsTrue(RunAll(Start(maximum, token), calls), Performed(Start(maximum, token), calls))
  {
    hide Execute, Reports, After;
    if calls != [] {
      var front, c := calls[..|calls| - 1], calls[|calls| - 1];
      assert front + [c] == calls;
      LogTellsTheTruth(maximum, token, front);
      PerformedSnoc(Start(maximum, token), front, c);
      var h, performed := RunAll(Start(maximum, token), front), Performed(Start(maximum, token), front);
      TruthGrows(h, performed, c);
      assert performed + [] == performed;
    }
  }

  lemma TruthGrows(h: History, performed: seq<Call>, c: Call)
    requires LogIsTrue(h, performed)
    ensures LogIsTrue(After(h, c), if Execute(h.registry, c).ran.Some? then performed + [c] else performed)
  {
    hide Execute, Reports, ReleaseCount;
    ReportStep(h.registry, c);
    if Execute(h.registry, c).ran.Some? {
      var more, log := performed + [c], After(h, c).log;
      ReleasesSnoc(performed, c);
      forall i | 0 <= i < |more|
        ensures log[i].endpoint == more[i].endpoint && Reports(log[i].result, more[i], ReleaseCount(more[..i]))
      {
        if i < |performed| {
          assert more[..i] == performed[..i] && log[i] == h.log[i];
        } else {
          assert more[..i] == performed;
        }
      }
    }
  }

  lemma ReleasesSnoc(calls: seq<Call>, c: Call)
    ensures ReleaseCount(calls + [c]) == ReleaseCount(calls) + (if Releases(c) then 1 else 0)
  {
    assert (calls + [c])[..|calls|] == calls;
  }

  /**
   * Every answer ever given, at first delivery or from the cache, is that of
   * one executed call with the same id, endpoint and content, and reports
   * exactly what that call did.
   */
  lemma EveryAnswerIsTrue(maximum: nat, token: string, calls: seq<Call>, c: Call) returns (i: nat)
    requires maximum >= 1 && Execute(RunAll(Start(maximum, token), calls).registry, c).reply.Done?
    ensures var performed := Performed(Start(maximum, token), calls + [c]);
      var x := Execute(RunAll(Start(maximum, token), calls).registry, c);
      && i < |performed| && Reports(x.reply.result, performed[i], ReleaseCount(performed[..i]))
      && performed[i].envelope.requestId == c.envelope.requestId && performed[i].endpoint == c.endpoint
      && performed[i].envelope.payloadSha256 == c.envelope.payloadSha256
      && (x.ran.Some? ==> i == |performed| - 1 && performed[i] == c)
  {
    hide *;
    var h := RunAll(Start(maximum, token), calls);
    var performed := Performed(Start(maximum, token), calls);
    PerformedSnoc(Start(maximum, token), calls, c);
    LogTellsTheTruth(maximum, token, calls);
    ReportStep(h.registry, c);
    if Execute(h.registry, c).ran.Some? {
      i := |performed|;
      assert (performed + [c])[..i] == performed;
      GenerationCounts(h, performed);
    } else {
      CacheIsRecentHistory(maximum, token, calls);
      i := RecentIsLogged(h, c);
      TruthAt(h, performed, i);
      assert performed + [] == performed;
    }
  }

  lemma GenerationCounts(h: History, performed: seq<Call>)
    requires LogIsTrue(h, performed)
    ensures h.registry.generation == ReleaseCount(performed)
  {
  }

  /** A cached answer is logged. */
  lemma RecentIsLogged(h: History, c: Call) returns (i: nat)
    requires CacheInv(h) && Execute(h.registry, c).ran.None? && Execute(h.registry, c).reply.Done?
    ensures i < |h.log| && h.log[i].result.envelope.requestId == c.envelope.requestId && h.log[i].endpoint == c.endpoint
    ensures h.log[i].result.envelope.payloadSha256 == c.envelope.payloadSha256
    ensures Execute(h.registry, c).reply.result == h.log[i].result
  {
    hide DistinctIds;
    var hit := Lookup(h.registry.cache, c.envelope.requestId).value;
    assert hit in h.log;
    i :| 0 <= i < |h.log| && h.log[i] == hit;
  }

  lemma TruthAt(h: History, performed: seq<Call>, i: nat)
    requires LogIsTrue(h, performed) && i < |h.log|
    ensures i < |performed| && performed[i].endpoint == h.log[i].endpoint && performed[i].envelope == h.log[i].result.envelope
    ensures Reports(h.log[i].result, performed[i], ReleaseCount(performed[..i]))
  {
  }

  /** The episode the log leaves active: that of the last committed reset, unless released since. */
  function ActiveEpisodeOf(log: seq<Entry>): Option<string>
  {
    if log == [] then None
    else
      var last := log[|log| - 1];
      if last.CommittedReset() then Some(EpisodeOf(last))
      else if last.result.outcome == Committed && last.result.body.ReleasedValue? then None
      else ActiveEpisodeOf(log[..|log| - 1])
  }

  function TokenAfter(token: string, performed: seq<Call>): string
  {
    if performed == [] then token
    else if Releases(performed[|performed| - 1]) then performed[|performed| - 1].newToken
    else TokenAfter(token, performed[..|performed| - 1])
  }

  /** An uncached request of the current binding, which is not lost: it binds a free registry even if refused later. */
  predicate Binds(r: Registry, c: Call)
  {
    Lookup(r.cache, c.envelope.requestId).None? && c.envelope.bindingToken == r.bindingToken && !r.lost
  }

  /** The session of the first binding request since the last release. */
  function SessionAfter(h: History, calls: seq<Call>): Option<string>
  {
    if calls == [] then None
    else
      var front, c := calls[..|calls| - 1], calls[|calls| - 1];
      if Releases(c) && |RunAll(h, calls).log| > |RunAll(h, front).log| then None
      else if SessionAfter(h, front).Some? then SessionAfter(h, front)
      else if Binds(RunAll(h, front).registry, c) then Some(c.envelope.sessionId)
      else None
  }

  /** The whole state of the registry, read off what was logged and called. */
  ghost predicate StateIs(h: History, token: string, performed: seq<Call>, session: Option<string>)
  {
    var r := h.registry;
    && r.episode == ActiveEpisodeOf(h.log)
    && r.nextSequence == (if r.episode.None? then 0 else 1 + WritesSinceReset(h.log))
    && (r.lost <==> h.log != [] && h.log[|h.log| - 1].result.outcome == OutcomeUnknown)
    && r.bindingToken == TokenAfter(token, performed)
    && r.session == session
  }

  lemma StateStep(h: History, token: string, performed: seq<Call>, session: Option<string>, c: Call)
    requires StateIs(h, token, performed, session)
    ensures var ran := Execute(h.registry, c).ran.Some?;
      StateIs(After(h, c), token, if ran then performed + [c] else performed,
              if Releases(c) && ran then None else if session.Some? then session
              else if Binds(h.registry, c) then Some(c.envelope.sessionId) else None)
  {
    var x := Execute(h.registry, c);
    if x.ran.Some? {
      WritesSinceResetAppend(h.log, x.ran.value);
      assert (h.log + [x.ran.value])[..|h.log|] == h.log;
      assert (performed + [c])[..|performed|] == performed;
    }
  }

  /** Over any calls the state is the one the log and the calls say. */
  lemma {:induction false} StateMeansTheLog(maximum: nat, token: string, calls: seq<Call>)
    ensures var h := Start(maximum, token);
      StateIs(RunAll(h, calls), token, Performed(h, calls), SessionAfter(h, calls))
  {
    hide Execute, After, StateIs, Binds, Releases;
    var h := Start(maximum, token);
    if calls == [] {
      StartState(maximum, token);
    } else {
      var front, c := calls[..|calls| - 1], calls[|calls| - 1];
      assert front + [c] == calls;
      StateMeansTheLog(maximum, token, front);
      PerformedSnoc(h, front, c);
      LogGrowsIff(RunAll(h, front), c);
      StateStep(RunAll(h, front), token, Performed(h, front), SessionAfter(h, front), c);
      assert Performed(h, front) + [] == Performed(h, front);
    }
  }

  lemma StartState(maximum: nat, token: string)
    ensures StateIs(Start(maximum, token), token, [], None)
  {
  }

  lemma LogGrowsIff(h: History, c: Call)
    ensures |After(h, c).log| > |h.log| <==> Execute(h.registry, c).ran.Some?
  {
  }

  /** The reason of a refusal holds of the request. */
  predicate Applies(r: Registry, c: Call, reason: Refusal)
  {
    var e, hit := c.envelope, Lookup(r.cache, c.envelope.requestId);
    match reason
    case ConflictingContent => hit.Some? && (hit.value.endpoint != c.endpoint || hit.value.Envelope().payloadSha256 != e.payloadSha256)
    case StaleToken => hit.None? && e.bindingToken != r.bindingToken
    case BindingLost => hit.None? && e.bindingToken == r.bindingToken && r.lost
    case OtherSession => Binds(r, c) && r.session.Some? && r.session != Some(e.sessionId)
    case ResetCannotRelease => Binds(r, c) && c.endpoint == RESET && c.release
    case ResetSequenceNotZero => Binds(r, c) && c.endpoint == RESET && e.operationSeq != 0
    case EpisodeAlreadyReset => Binds(r, c) && c.endpoint == RESET && r.episode == Some(e.episodeId)
    case EpisodeMismatch => Binds(r, c) && c.endpoint != RESET && r.episode != Some(e.episodeId)
    case SequenceOutOfOrder =>
      Binds(r, c) && c.endpoint != RESET && r.episode == Some(e.episodeId) && e.operationSeq != r.nextSequence
    case _ => false
  }

  /** A request runs exactly when nothing speaks against it, and a refusal names something that does and only binds. */
  lemma RunsUnlessRefused(r: Registry, c: Call)
    ensures var x := Execute(r, c);
      && (x.ran.Some? <==> Lookup(r.cache, c.envelope.requestId).None? && forall reason :: !Applies(r, c, reason))
      && (x.reply.Conflict? ==>
            && Applies(r, c, x.reply.reason)
            && x.registry == if Binds(r, c) && r.session.None? then r.(session := Some(c.envelope.sessionId)) else r)
  {
    var hit := Lookup(r.cache, c.envelope.requestId);
    if Execute(r, c).ran.None? && hit.None? {
      assert Applies(r, c, Execute(r, c).reply.reason);
    }
  }

  // ---- Writes are applied at most once, even with evictions --------------

  /** No two committed resets of one binding name the same episode. */
  ghost predicate DistinctResets(log: seq<Entry>)
  {
    forall i, j | 0 <= i < j < |log| && log[i].CommittedReset() && log[j].CommittedReset()
                  && TokenOf(log[i]) == TokenOf(log[j]) ::
      EpisodeOf(log[i]) != EpisodeOf(log[j])
  }

  predicate SameSlot(x: Entry, y: Entry)
  {
    TokenOf(x) == TokenOf(y) && EpisodeOf(x) == EpisodeOf(y)
    && x.Envelope().operationSeq == y.Envelope().operationSeq
  }

  ghost predicate WritesAppliedOnce(log: seq<Entry>)
  {
    forall i, j | 0 <= i < j < |log| && log[i].AppliedWrite() && log[j].AppliedWrite() ::
      !SameSlot(log[i], log[j])
  }

  ghost predicate ResetBefore(log: seq<Entry>, bound: nat, token: string, episode: string)
  {
    exists j :: 0 <= j < bound && j < |log| && log[j].CommittedReset()
                && TokenOf(log[j]) == token && EpisodeOf(log[j]) == episode
  }

  ghost predicate BindingInv(h: History)
  {
    var r := h.registry;
    && (forall x <- h.log :: TokenOf(x) == r.bindingToken ==> r.session == Some(x.Envelope().sessionId))
    && (forall x <- h.log :: x.CommittedReset() ==> x.Envelope().operationSeq == 0)
    && (r.episode.Some? ==> ResetBefore(h.log, |h.log|, r.bindingToken, r.episode.value))
    && (forall i | 0 <= i < |h.log| && !h.log[i].IsReset() ::
          ResetBefore(h.log, i, TokenOf(h.log[i]), EpisodeOf(h.log[i])))
    && (DistinctResets(h.log) && !r.lost ==>
          forall x <- h.log | x.AppliedWrite() && TokenOf(x) == r.bindingToken && r.episode == Some(EpisodeOf(x)) ::
            x.Envelope().operationSeq < r.nextSequence)
    && (DistinctResets(h.log) ==> WritesAppliedOnce(h.log))
  }

  lemma ResetBeforeGrows(log: seq<Entry>, more: seq<Entry>, bound: nat, token: string, episode: string)
    requires ResetBefore(log, bound, token, episode)
    ensures ResetBefore(log + more, bound, token, episode)
  {
    var j :| 0 <= j < bound && j < |log| && log[j].CommittedReset()
             && TokenOf(log[j]) == token && EpisodeOf(log[j]) == episode;
    assert (log + more)[j] == log[j];
  }

  lemma DistinctResetsPrefix(log: seq<Entry>, x: Entry)
    requires DistinctResets(log + [x])
    ensures DistinctResets(log)
  {
    assert forall i | 0 <= i < |log| :: (log + [x])[i] == log[i];
  }

  lemma BindingInvStep(h: History, c: Call)
    requires BindingInv(h) && FreshToken(h, c)
    ensures BindingInv(After(h, c))
  {
    hide ResetBefore, DistinctResets, WritesAppliedOnce, Settle, Admit;
    var x := Execute(h.registry, c);
    if x.ran.Some? {
      var e := x.ran.value;
      var g := After(h, c);
      assert g.log == h.log + [e];
      SessionsStayBound(h, c, e, g);
      WritesHaveResets(h, c, e);
      EpisodeHasItsReset(h, c, e, g);
      if DistinctResets(g.log) {
        DistinctResetsPrefix(h.log, e);
        NewWriteTakesANewSlot(h, c, e);
        if !g.registry.lost {
          SequenceStaysAhead(h, c, e, g);
        }
      }
    } else {
      UnrunKeepsBinding(h, c);
    }
  }

  lemma UnrunKeepsBinding(h: History, c: Call)
    requires BindingInv(h) && Execute(h.registry, c).ran.None?
    ensures BindingInv(After(h, c))
  {
    hide ResetBefore, DistinctResets, WritesAppliedOnce;
  }

  lemma SessionsStayBound(h: History, c: Call, e: Entry, g: History)
    requires BindingInv(h) && FreshToken(h, c) && Execute(h.registry, c).ran == Some(e) && g == After(h, c)
    ensures g.log == h.log + [e]
    ensures forall x <- g.log :: TokenOf(x) == g.registry.bindingToken ==> g.registry.session == Some(x.Envelope().sessionId)
    ensures forall x <- g.log :: x.CommittedReset() ==> x.Envelope().operationSeq == 0
  {
    hide ResetBefore, DistinctResets, WritesAppliedOnce;
  }

  lemma WritesHaveResets(h: History, c: Call, e: Entry)
    requires BindingInv(h) && Execute(h.registry, c).ran == Some(e)
    ensures var log := h.log + [e];
      forall i | 0 <= i < |log| && !log[i].IsReset() :: ResetBefore(log, i, TokenOf(log[i]), EpisodeOf(log[i]))
  {
    hide DistinctResets, WritesAppliedOnce;
    var log := h.log + [e];
    forall i | 0 <= i < |log| && !log[i].IsReset()
      ensures ResetBefore(log, i, TokenOf(log[i]), EpisodeOf(log[i]))
    {
      ResetBeforeGrows(h.log, [e], i, TokenOf(log[i]), EpisodeOf(log[i]));
    }
  }

  lemma EpisodeHasItsReset(h: History, c: Call, e: Entry, g: History)
    requires BindingInv(h) && Execute(h.registry, c).ran == Some(e) && g == After(h, c)
    ensures g.registry.episode.Some? ==>
              ResetBefore(g.log, |g.log|, g.registry.bindingToken, g.registry.episode.value)
  {
    if g.registry.episode.Some? {
      if e.CommittedReset() {
        assert g.log[|h.log|] == e;
      } else {
        ResetBeforeGrows(h.log, [e], |h.log|, h.registry.bindingToken, h.registry.episode.value);
      }
    }
  }

  lemma NewWriteTakesANewSlot(h: History, c: Call, e: Entry)
    requires BindingInv(h) && DistinctResets(h.log)
    requires Execute(h.registry, c).ran == Some(e)
    ensures WritesAppliedOnce(h.log + [e])
  {
    var log := h.log + [e];
    forall i, j | 0 <= i < j < |log| && log[i].AppliedWrite() && log[j].AppliedWrite()
      ensures !SameSlot(log[i], log[j])
    {
      assert log[i] in h.log;
    }
  }

  lemma SequenceStaysAhead(h: History, c: Call, e: Entry, g: History)
    requires BindingInv(h) && FreshToken(h, c) && Execute(h.registry, c).ran == Some(e)
    requires g == After(h, c) && DistinctResets(g.log) && DistinctResets(h.log) && !g.registry.lost
    ensures forall x <- g.log | x.AppliedWrite() && TokenOf(x) == g.registry.bindingToken
                                && g.registry.episode == Some(EpisodeOf(x)) ::
              x.Envelope().operationSeq < g.registry.nextSequence
  {
    forall x | x in g.log && x.AppliedWrite() && TokenOf(x) == g.registry.bindingToken
               && g.registry.episode == Some(EpisodeOf(x))
      ensures x.Envelope().operationSeq < g.registry.nextSequence
    {
      if x in h.log && e.CommittedReset() {
        var i :| 0 <= i < |h.log| && h.log[i] == x;
        ResetOpensANewEpisode(h.log, e, i);
      }
    }
  }

  lemma ResetOpensANewEpisode(log: seq<Entry>, e: Entry, i: nat)
    requires DistinctResets(log + [e]) && e.CommittedReset()
    requires i < |log| && ResetBefore(log, i, TokenOf(log[i]), EpisodeOf(log[i]))
    ensures TokenOf(log[i]) != TokenOf(e) || EpisodeOf(log[i]) != EpisodeOf(e)
  {
    var j :| 0 <= j < i && log[j].CommittedReset()
             && TokenOf(log[j]) == TokenOf(log[i]) && EpisodeOf(log[j]) == EpisodeOf(log[i]);
    assert (log + [e])[j] == log[j] && (log + [e])[|log|] == e;
  }

  lemma {:induction false} BindingInvHolds(maximum: nat, token: string, calls: seq<Call>)
    requires FreshTokens(Start(maximum, token), calls)
    ensures BindingInv(RunAll(Start(maximum, token), calls))
  {
    if calls != [] {
      BindingInvHolds(maximum, token, calls[..|calls| - 1]);
      BindingInvStep(RunAll(Start(maximum, token), calls[..|calls| - 1]), calls[|calls| - 1]);
    }
  }

  /** Main result: one slot of one episode of one binding is written at most once, however calls repeat. */
  lemma AppliedAtMostOnce(maximum: nat, token: string, calls: seq<Call>)
    requires FreshTokens(Start(maximum, token), calls)
    requires DistinctResets(RunAll(Start(maximum, token), calls).log)
    ensures WritesAppliedOnce(RunAll(Start(maximum, token), calls).log)
  {
    BindingInvHolds(maximum, token, calls);
  }

  /** A request already committed is repeated verbatim. */
  predicate Repeats(c: Call, x: Entry)
  {
    c.endpoint == x.endpoint && c.envelope == x.Envelope()
    && c.release == x.result.body.ReleasedValue?
  }

  /**
   * When a committed request runs again: exactly when it was evicted from the
   * cache and the binding is unbroken, and then a reset while another episode
   * is active, but another write only when its episode was reset once more
   * and has come back to its sequence number.
   */
  lemma CommittedRequestRunsAgainIff(maximum: nat, token: string, calls: seq<Call>, c: Call, i: nat)
    requires FreshTokens(Start(maximum, token), calls)
    requires i < |RunAll(Start(maximum, token), calls).log|
    requires RunAll(Start(maximum, token), calls).log[i].result.outcome == Committed
    requires Repeats(c, RunAll(Start(maximum, token), calls).log[i])
    ensures var h := RunAll(Start(maximum, token), calls);
            && (Execute(h.registry, c).ran.Some? <==>
                  && Lookup(h.registry.cache, c.envelope.requestId).None?
                  && h.registry.bindingToken == c.envelope.bindingToken
                  && !h.registry.lost
                  && if c.endpoint == RESET then h.registry.episode != Some(c.envelope.episodeId)
                     else h.registry.episode == Some(c.envelope.episodeId)
                          && h.registry.nextSequence == c.envelope.operationSeq)
            && (Execute(h.registry, c).ran.Some? && DistinctResets(h.log) ==> c.endpoint == RESET)
  {
    hide RunAll, FreshTokens, Settle, DistinctResets;
    var h := RunAll(Start(maximum, token), calls);
    BindingInvHolds(maximum, token, calls);
    CommittedShape(maximum, token, calls);
    var x := h.log[i];
    assert x in h.log;
  }

  lemma {:induction false} CommittedShape(maximum: nat, token: string, calls: seq<Call>)
    ensures forall x <- RunAll(Start(maximum, token), calls).log | x.result.outcome == Committed ::
              && x.result.sideEffectApplied
              && (x.IsReset() ==> x.result.body.Value?)
  {
    if calls != [] {
      CommittedShape(maximum, token, calls[..|calls| - 1]);
    }
  }

  // ---- LOST is absorbing, release fences, and sequence counting ----------

  lemma {:induction false} LostForever(h: History, calls: seq<Call>)
    requires h.registry.lost
    ensures RunAll(h, calls) == h
    ensures forall c: Call :: Execute(h.registry, c).ran.None?
              && (Execute(h.registry, c).reply.Done? ==>
                    Lookup(h.registry.cache, c.envelope.requestId).Some?
                    && Execute(h.registry, c).reply.result == Lookup(h.registry.cache, c.envelope.requestId).value.result)
  {
    if calls != [] {
      LostForever(h, calls[..|calls| - 1]);
    }
  }

  lemma TokenStep(r: Registry, c: Call)
    ensures var x := Execute(r, c);
            && (x.registry.bindingToken == r.bindingToken || x.registry.bindingToken == c.newToken)
            && (x.ran.Some? && c.release && c.run.Returned? ==>
                  && x.registry.bindingToken == c.newToken
                  && x.ran.value.Envelope() == c.envelope
                  && c.envelope.bindingToken == r.bindingToken)
  {
  }

  lemma {:induction false} TokenRetired(h: History, calls: seq<Call>, token: string, i: nat)
    requires FreshTokens(h, calls)
    requires token != h.registry.bindingToken && i < |h.log| && TokenOf(h.log[i]) == token
    ensures var g := RunAll(h, calls);
            g.registry.bindingToken != token && h.log <= g.log
  {
    if calls != [] {
      TokenRetired(h, calls[..|calls| - 1], token, i);
      var g := RunAll(h, calls[..|calls| - 1]);
      assert g.log[i] in g.log;
      TokenStep(g.registry, calls[|calls| - 1]);
    }
  }

  lemma OldTokenIsInert(r: Registry, d: Call)
    requires d.envelope.bindingToken != r.bindingToken
    ensures var x := Execute(r, d);
            && x.registry == r && x.ran.None?
            && (Lookup(r.cache, d.envelope.requestId).None? ==> x.reply == Conflict(StaleToken))
  {
  }

  /** After a committed release, every later request under the old token is answered from the cache or refused. */
  lemma ReleaseFences(maximum: nat, token: string, before: seq<Call>, c: Call, later: seq<Call>, d: Call)
    requires FreshTokens(Start(maximum, token), before)
    requires FreshToken(RunAll(Start(maximum, token), before), c)
    requires c.release && c.run.Returned?
    requires Execute(RunAll(Start(maximum, token), before).registry, c).ran.Some?
    requires FreshTokens(After(RunAll(Start(maximum, token), before), c), later)
    requires d.envelope.bindingToken == c.envelope.bindingToken
    ensures var g := RunAll(After(RunAll(Start(maximum, token), before), c), later);
            var x := Execute(g.registry, d);
            && x.registry == g.registry && x.ran.None?
            && (Lookup(g.registry.cache, d.envelope.requestId).None? ==> x.reply == Conflict(StaleToken))
  {
    var h := RunAll(Start(maximum, token), before);
    TokenStep(h.registry, c);
    var g := After(h, c);
    assert g.log[|h.log|].Envelope() == c.envelope;
    TokenRetired(g, later, c.envelope.bindingToken, |h.log|);
    OldTokenIsInert(RunAll(g, later).registry, d);
  }

  function WritesSinceReset(log: seq<Entry>): nat
  {
    if log == [] || log[|log| - 1].CommittedReset() then 0
    else WritesSinceReset(log[..|log| - 1]) + (if log[|log| - 1].CommittedWrite() then 1 else 0)
  }

  lemma WritesSinceResetAppend(log: seq<Entry>, x: Entry)
    ensures WritesSinceReset(log + [x]) ==
      if x.CommittedReset() then 0 else WritesSinceReset(log) + (if x.CommittedWrite() then 1 else 0)
  {
    assert (log + [x])[..|log|] == log;
  }

  lemma SequenceStep(r: Registry, c: Call)
    ensures var x := Execute(r, c);
            x.registry.episode.Some? ==>
              if x.ran.None? then x.registry.episode == r.episode && x.registry.nextSequence == r.nextSequence
              else if x.ran.value.CommittedReset() then x.registry.nextSequence == 1
              else r.episode.Some?
                   && x.registry.nextSequence == r.nextSequence + (if x.ran.value.CommittedWrite() then 1 else 0)
  {
  }

  lemma {:induction false} SequenceCountsWrites(maximum: nat, token: string, calls: seq<Call>)
    ensures var h := RunAll(Start(maximum, token), calls);
            h.registry.episode.Some? ==> h.registry.nextSequence == 1 + WritesSinceReset(h.log)
  {
    if calls != [] {
      SequenceCountsWrites(maximum, token, calls[..|calls| - 1]);
      var h := RunAll(Start(maximum, token), calls[..|calls| - 1]);
      SequenceStep(h.registry, calls[|calls| - 1]);
      var x := Execute(h.registry, calls[|calls| - 1]);
      if x.ran.Some? {
        WritesSinceResetAppend(h.log, x.ran.value);
      }
    }
  }

  // ---- The hypothesis on resets is needed --------------------------------

  function Reset(token: string, id: string, episode: string): Call
  {
    Call(RESET, WriteEnvelope(id, "session-a", token, episode, 0, ""), false, Returned(""), token + "'")
  }

  function Chunk(token: string): Call
  {
    Call("/execute_chunk", WriteEnvelope("request-c", "session-a", token, "episode-1", 1, ""),
         false, Returned(""), token + "'")
  }

  function Committing(c: Call): Entry
  {
    Entry(c.endpoint, WriteResult(OK_STATUS, Value(""), c.envelope, Committed, true))
  }

  function ActiveEpisode(token: string, episode: string, next: nat, last: Entry): Registry
  {
    Registry(1, token, 0, Some("session-a"), Some(episode), next, false, [last])
  }

  lemma GrowByReset(h: History, calls: seq<Call>, token: string, id: string, episode: string)
    requires var g := RunAll(h, calls).registry;
             && g.maximum == 1 && g.bindingToken == token && g.generation == 0 && !g.lost
             && g.session in {None, Some("session-a")} && g.episode != Some(episode)
             && Lookup(g.cache, id).None? && DistinctIds(g.cache)
    ensures var e := Committing(Reset(token, id, episode));
            RunAll(h, calls + [Reset(token, id, episode)]) ==
              History(ActiveEpisode(token, episode, 1, e), RunAll(h, calls).log + [e])
  {
    RunSnoc(h, calls, Reset(token, id, episode));
    RememberFresh(RunAll(h, calls).registry.cache, 1, Committing(Reset(token, id, episode)));
  }

  lemma GrowByChunk(h: History, calls: seq<Call>, token: string, last: Entry)
    requires RunAll(h, calls).registry == ActiveEpisode(token, "episode-1", 1, last) && last.Id() != "request-c"
    ensures var e := Committing(Chunk(token));
            RunAll(h, calls + [Chunk(token)]) ==
              History(ActiveEpisode(token, "episode-1", 2, e), RunAll(h, calls).log + [e])
  {
    RunSnoc(h, calls, Chunk(token));
    RememberFresh([last], 1, Committing(Chunk(token)));
  }

  lemma RunSnoc(h: History, calls: seq<Call>, c: Call)
    ensures RunAll(h, calls + [c]) == After(RunAll(h, calls), c)
  {
    assert (calls + [c])[..|calls|] == calls;
  }

  /** With one cache slot, delayed duplicates of an evicted reset and its chunk drive the robot twice. */
  lemma EvictedResetReplaysAWrite(token: string)
    ensures var r1, chunk, r2 := Reset(token, "request-1", "episode-1"), Chunk(token), Reset(token, "request-2", "episode-2");
            var h := RunAll(Start(1, token), [] + [r1] + [chunk] + [r2] + [r1] + [chunk]);
            |h.log| == 5 && h.log[1] == h.log[4] && h.log[1].AppliedWrite() && !WritesAppliedOnce(h.log)
  {
    var r1, chunk, r2 := Reset(token, "request-1", "episode-1"), Chunk(token), Reset(token, "request-2", "episode-2");
    var h := Start(1, token);
    assert RunAll(h, []) == h;
    hide RunAll, WritesAppliedOnce;
    GrowByReset(h, [], token, "request-1", "episode-1");
    GrowByChunk(h, [] + [r1], token, Committing(r1));
    GrowByReset(h, [] + [r1] + [chunk], token, "request-2", "episode-2");
    GrowByReset(h, [] + [r1] + [chunk] + [r2], token, "request-1", "episode-1");
    GrowByChunk(h, [] + [r1] + [chunk] + [r2] + [r1], token, Committing(r1));
    TwiceTheSameWrite(RunAll(h, [] + [r1] + [chunk] + [r2] + [r1] + [chunk]).log, Committing(chunk));
  }

  lemma TwiceTheSameWrite(log: seq<Entry>, x: Entry)
    requires |log| == 5 && log[1] == x && log[4] == x && x.AppliedWrite()
    ensures !WritesAppliedOnce(log)
  {
    assert SameSlot(log[1], log[4]);
  }
}
