/**
 * One client, the registry, a network that loses, delays and duplicates, and
 * other parties that may send anything not carrying this client's own fresh
 * ids.  A run is any sequence of enabled steps.
 */
module WriteSystem {
  import opened Wrappers
  import opened OperationProtocol
  import opened RegistryRuns
  import opened EnvClient

  datatype System = System(
    server: History,
    client: Client,
    sent: set<Message>,                    // the network may deliver any of these, any number of times
    replies: set<(Message, Reply)>,        // answers produced so far
    own: set<string>,                      // request and episode ids this client drew
    foreign: set<string>,                  // such ids other parties used
    seen: seq<WriteEnvelope>)              // writes seen committed in the client's current episode

  datatype Step =
    | Learn(token: string)
    | Send(kind: WriteKind, requestId: string, newEpisodeId: string, digest: string)
    | Deliver(message: Message, run: OperationRun, newToken: string)
    | Foreign(call: Call)
    | Timeout
    | Busy
    | Receive(reply: Reply, newSessionId: string)

  function CallOf(m: Message, run: OperationRun, newToken: string): Call
  {
    Call(m.endpoint, m.envelope, m.endpoint == RELEASE, run, newToken)
  }

  ghost predicate Enabled(s: System, step: Step)
  {
    match step
    case Learn(_) => s.client.waiting.None? && s.client.bindingToken.None?
    case Send(kind, requestId, newEpisodeId, _) =>
      && s.client.waiting.None? && kind.WellFormed() && CanIssue(s.client, kind).Pass?
      && requestId !in s.own + s.foreign && newEpisodeId !in s.own + s.foreign && requestId != newEpisodeId
    case Deliver(m, run, newToken) =>
      // An evicted reset is not delivered again; evicted ordinary writes may be.
      m in s.sent && (m.endpoint == RESET ==> NotEvicted(s.server, CallOf(m, run, newToken)))
    case Foreign(call) =>
      call.envelope.requestId !in s.own && call.envelope.episodeId !in s.own
    case Timeout => s.client.waiting.Some?
    case Busy => s.client.waiting.Some?
    case Receive(reply, _) => s.client.waiting.Some? && (s.client.waiting.value.message, reply) in s.replies
  }

  function Accepted(c: Client, attempt: Attempt): bool
  {
    c.waiting.Some? && attempt.Answered? && Judge(c.waiting.value, attempt.result).Pass?
  }

  function Next(s: System, step: Step): System
    requires Enabled(s, step)
  {
    match step
    case Learn(token) => s.(client := s.client.(bindingToken := Some(token)))
    case Send(kind, requestId, newEpisodeId, digest) =>
      var c := Issue(s.client, kind, requestId, newEpisodeId, digest);
      s.(client := c, sent := s.sent + {c.waiting.value.message}, own := s.own + {requestId, newEpisodeId})
    case Deliver(m, run, newToken) =>
      var call := CallOf(m, run, newToken);
      s.(server := After(s.server, call), replies := s.replies + {(m, Execute(s.server.registry, call).reply)})
    case Foreign(call) =>
      s.(server := After(s.server, call), foreign := s.foreign + {call.envelope.requestId, call.envelope.episodeId})
    case Timeout => s.(client := Hear(s.client, TimedOut, ""))
    case Busy => s.(client := Hear(s.client, HttpError(None), ""))
    case Receive(reply, newSessionId) =>
      var w := s.client.waiting.value;
      s.(client := Hear(s.client, AttemptOf(reply), newSessionId),
         seen := if !Accepted(s.client, AttemptOf(reply)) then s.seen
                 else if w.kind.StartEpisode? then []
                 else s.seen + [w.message.envelope])
  }

  ghost predicate Runs(s: System, steps: seq<Step>, t: System)
    decreases |steps|
  {
    if steps == [] then s == t
    else Enabled(s, steps[0]) && Runs(Next(s, steps[0]), steps[1..], t)
  }

  function Initial(maximum: nat, token: string, session: string): System
  {
    System(Start(maximum, token), Client(session, None, None, 0, false, None), {}, {}, {}, {}, [])
  }

  /** The non-reset writes committed for one episode, in commit order. */
  function Commits(log: seq<Entry>, episode: string): seq<WriteEnvelope>
  {
    if log == [] then []
    else
      var last := log[|log| - 1];
      Commits(log[..|log| - 1], episode)
      + (if last.CommittedWrite() && EpisodeOf(last) == episode then [last.Envelope()] else [])
  }

  function MessageOf(x: Entry): Message { Message(x.endpoint, x.Envelope()) }

  // ---- Invariants --------------------------------------------------------

  ghost predicate NetworkInv(s: System)
  {
    && s.own !! s.foreign
    && (forall m <- s.sent :: m.envelope.requestId in s.own && m.envelope.episodeId in s.own)
    && (forall m, n | m in s.sent && n in s.sent && m.envelope.requestId == n.envelope.requestId :: m == n)
    && (forall m, n | m in s.sent && n in s.sent && m.endpoint == RESET && n.endpoint == RESET
                      && m.envelope.episodeId == n.envelope.episodeId :: m == n)
  }

  ghost predicate LogInv(s: System)
  {
    && CacheInv(s.server)
    && (s.server.registry.episode.Some? ==> s.server.registry.episode.value in s.own + s.foreign)
    && (forall x <- s.server.log ::
          MessageOf(x) in s.sent || (x.Id() in s.foreign && EpisodeOf(x) in s.foreign))
    && (forall p <- s.replies :: p.0 in s.sent &&
          (p.1.Done? ==> p.1.result.envelope == p.0.envelope && Entry(p.0.endpoint, p.1.result) in s.server.log))
  }

  ghost predicate HasReset(log: seq<Entry>, episode: string)
  {
    exists x :: x in log && x.CommittedReset() && EpisodeOf(x) == episode
  }

  predicate InOrder(writes: seq<WriteEnvelope>)
  {
    forall i | 0 <= i < |writes| :: writes[i].operationSeq == i + 1
  }

  ghost predicate EpisodeInv(h: History, episode: string)
  {
    && InOrder(Commits(h.log, episode))
    && (h.registry.episode == Some(episode) ==> h.registry.nextSequence == |Commits(h.log, episode)| + 1)
    && (!HasReset(h.log, episode) ==> Commits(h.log, episode) == [] && h.registry.episode != Some(episode))
  }

  ghost predicate ServerInv(s: System)
  {
    forall episode <- s.own :: EpisodeInv(s.server, episode)
  }

  ghost predicate ClientInv(s: System)
  {
    && (s.client.episodeId.Some? ==>
          var episode := s.client.episodeId.value;
          && episode in s.own
          && s.client.nextOperationSeq == |s.seen| + 1
          && s.seen <= Commits(s.server.log, episode)
          && forall m <- s.sent | m.endpoint != RESET && m.envelope.episodeId == episode ::
               m.envelope.operationSeq <= s.client.nextOperationSeq)
    && (s.client.waiting.Some? ==>
          var w := s.client.waiting.value;
          && w.message in s.sent && w.kind.WellFormed() && w.message.endpoint == w.kind.Endpoint()
          && (w.kind.StartEpisode? ==>
                forall m <- s.sent | m.endpoint != RESET :: m.envelope.episodeId != w.message.envelope.episodeId)
          && (!w.kind.StartEpisode? ==>
                s.client.episodeId == Some(w.message.envelope.episodeId)
                && w.message.envelope.operationSeq == s.client.nextOperationSeq))
  }

  ghost predicate Inv(s: System)
  {
    NetworkInv(s) && LogInv(s) && ServerInv(s) && ClientInv(s)
  }

  // ---- Facts about Commits -----------------------------------------------

  lemma CommitsAppend(log: seq<Entry>, x: Entry, episode: string)
    ensures Commits(log + [x], episode) ==
      Commits(log, episode) + (if x.CommittedWrite() && EpisodeOf(x) == episode then [x.Envelope()] else [])
  {
    assert (log + [x])[..|log|] == log;
  }

  lemma {:induction false} CommitIsLogged(log: seq<Entry>, episode: string, i: nat) returns (x: Entry)
    requires i < |Commits(log, episode)|
    ensures x in log && x.CommittedWrite() && EpisodeOf(x) == episode && x.Envelope() == Commits(log, episode)[i]
  {
    var front := log[..|log| - 1];
    if i < |Commits(front, episode)| {
      x := CommitIsLogged(front, episode, i);
    } else {
      x := log[|log| - 1];
    }
  }

  lemma {:induction false} LoggedIsCommit(log: seq<Entry>, x: Entry) returns (i: nat)
    requires x in log && x.CommittedWrite()
    ensures i < |Commits(log, EpisodeOf(x))| && Commits(log, EpisodeOf(x))[i] == x.Envelope()
  {
    var last := |log| - 1;
    if log[last] == x {
      i := |Commits(log[..last], EpisodeOf(x))|;
    } else {
      i := LoggedIsCommit(log[..last], x);
    }
  }

  // ---- Server steps ------------------------------------------------------

  /** How one executed operation moves the sequencing state of the registry. */
  lemma RanShape(r: Registry, c: Call)
    requires Execute(r, c).ran.Some?
    ensures var x := Execute(r, c);
            var e := x.ran.value;
            && e.endpoint == c.endpoint && e.Envelope() == c.envelope && x.reply == Done(e.result)
            && (e.CommittedReset() ==> x.registry.episode == Some(c.envelope.episodeId) && x.registry.nextSequence == 1)
            && (e.CommittedWrite() ==>
                  && r.episode == Some(c.envelope.episodeId) && r.nextSequence == c.envelope.operationSeq
                  && (x.registry.episode == None
                      || (x.registry.episode == r.episode && x.registry.nextSequence == r.nextSequence + 1)))
            && (e.result.outcome != Committed ==>
                  x.registry.episode == r.episode && x.registry.nextSequence == r.nextSequence)
  {
  }

  lemma IdleShape(r: Registry, c: Call)
    requires Execute(r, c).ran.None?
    ensures var x := Execute(r, c);
            && x.registry.episode == r.episode && x.registry.nextSequence == r.nextSequence
            && (x.reply.Done? ==>
                  var hit := Lookup(r.cache, c.envelope.requestId);
                  && hit.Some? && hit.value.endpoint == c.endpoint && x.reply.result == hit.value.result)
  {
  }

  lemma HasResetGrows(log: seq<Entry>, x: Entry, episode: string)
    requires HasReset(log, episode)
    ensures HasReset(log + [x], episode)
  {
    var y :| y in log && y.CommittedReset() && EpisodeOf(y) == episode;
    assert y in log + [x];
  }

  /** Appending one result keeps an episode in order, provided it is not a second reset of that episode. */
  lemma EpisodeInvAppend(h: History, g: History, e: Entry, episode: string)
    requires EpisodeInv(h, episode) && g.log == h.log + [e]
    requires HasReset(h.log, episode) ==> !(e.CommittedReset() && EpisodeOf(e) == episode)
    requires e.CommittedReset() ==>
               g.registry.episode == Some(EpisodeOf(e)) && g.registry.nextSequence == 1
    requires e.CommittedWrite() ==>
               && h.registry.episode == Some(EpisodeOf(e)) && h.registry.nextSequence == e.Envelope().operationSeq
               && (g.registry.episode == None
                   || (g.registry.episode == h.registry.episode && g.registry.nextSequence == h.registry.nextSequence + 1))
    requires e.result.outcome != Committed ==>
               g.registry.episode == h.registry.episode && g.registry.nextSequence == h.registry.nextSequence
    ensures EpisodeInv(g, episode) && Commits(h.log, episode) <= Commits(g.log, episode)
  {
    CommitsAppend(h.log, e, episode);
    if HasReset(h.log, episode) {
      HasResetGrows(h.log, e, episode);
    } else if e.CommittedReset() && EpisodeOf(e) == episode {
      assert e in g.log;
    }
  }

  lemma EpisodeInvStep(h: History, c: Call, episode: string)
    requires EpisodeInv(h, episode)
    requires HasReset(h.log, episode) && Execute(h.registry, c).ran.Some? ==>
               !(c.endpoint == RESET && c.envelope.episodeId == episode)
    ensures EpisodeInv(After(h, c), episode)
    ensures Commits(h.log, episode) <= Commits(After(h, c).log, episode)
  {
    var x := Execute(h.registry, c);
    if x.ran.Some? {
      RanShape(h.registry, c);
      EpisodeInvAppend(h, After(h, c), x.ran.value, episode);
    } else {
      IdleShape(h.registry, c);
    }
  }

  lemma DeliverKeepsServer(s: System, m: Message, run: OperationRun, newToken: string)
    requires Inv(s) && Enabled(s, Deliver(m, run, newToken))
    ensures ServerInv(Next(s, Deliver(m, run, newToken)))
    ensures forall episode <- s.own ::
              Commits(s.server.log, episode) <= Commits(Next(s, Deliver(m, run, newToken)).server.log, episode)
  {
    hide EpisodeInv, Commits, CacheInv, ClientInv;
    var c := CallOf(m, run, newToken);
    forall episode | episode in s.own
      ensures EpisodeInv(After(s.server, c), episode)
      ensures Commits(s.server.log, episode) <= Commits(After(s.server, c).log, episode)
    {
      if HasReset(s.server.log, episode) && m.endpoint == RESET && m.envelope.episodeId == episode {
        var x :| x in s.server.log && x.CommittedReset() && EpisodeOf(x) == episode;
        assert MessageOf(x) == m;
        var i :| 0 <= i < |s.server.log| && s.server.log[i] == x;
        assert Logged(s.server, c.envelope.requestId);
      }
      EpisodeInvStep(s.server, c, episode);
    }
  }

  lemma DeliverKeepsLog(s: System, m: Message, run: OperationRun, newToken: string)
    requires Inv(s) && Enabled(s, Deliver(m, run, newToken))
    ensures LogInv(Next(s, Deliver(m, run, newToken)))
  {
    var c := CallOf(m, run, newToken);
    var x := Execute(s.server.registry, c);
    CacheInvStep(s.server, c);
    if x.ran.Some? {
      RanShape(s.server.registry, c);
      assert x.ran.value == Entry(m.endpoint, x.reply.result);
    } else {
      IdleShape(s.server.registry, c);
      if x.reply.Done? {
        var hit := Lookup(s.server.registry.cache, m.envelope.requestId).value;
        assert hit in s.server.log;
        assert MessageOf(hit) == m;
        assert hit == Entry(m.endpoint, x.reply.result);
      }
    }
  }

  lemma ForeignKeepsServer(s: System, c: Call)
    requires Inv(s) && Enabled(s, Foreign(c))
    ensures ServerInv(Next(s, Foreign(c)))
    ensures forall episode <- s.own ::
              Commits(s.server.log, episode) <= Commits(After(s.server, c).log, episode)
  {
    forall episode | episode in s.own
      ensures EpisodeInv(After(s.server, c), episode)
      ensures Commits(s.server.log, episode) <= Commits(After(s.server, c).log, episode)
    {
      EpisodeInvStep(s.server, c, episode);
    }
  }

  lemma EpisodeStep(r: Registry, c: Call)
    ensures Execute(r, c).registry.episode in {r.episode, Some(c.envelope.episodeId), None}
  {
  }

  lemma ForeignKeepsLog(s: System, c: Call)
    requires Inv(s) && Enabled(s, Foreign(c))
    ensures LogInv(Next(s, Foreign(c)))
  {
    CacheInvStep(s.server, c);
    EpisodeStep(s.server.registry, c);
    if Execute(s.server.registry, c).ran.Some? {
      RanShape(s.server.registry, c);
    }
  }

  // ---- Client steps ------------------------------------------------------

  lemma SendKeepsClientInv(s: System, step: Step)
    requires Inv(s) && step.Send? && Enabled(s, step)
    ensures ClientInv(Next(s, step))
  {
  }

  lemma SendKeepsNetworkInv(s: System, step: Step)
    requires Inv(s) && step.Send? && Enabled(s, step)
    ensures NetworkInv(Next(s, step)) && LogInv(Next(s, step))
  {
  }

  lemma SendKeepsInv(s: System, step: Step)
    requires Inv(s) && step.Send? && Enabled(s, step)
    ensures Inv(Next(s, step))
  {
    SendKeepsClientInv(s, step);
    SendKeepsNetworkInv(s, step);
    var t := Next(s, step);
    forall episode | episode in t.own
      ensures EpisodeInv(t.server, episode)
    {
      if episode !in s.own {
        NewIdHasNoHistory(s, episode);
      }
    }
  }

  lemma NewIdHasNoHistory(s: System, id: string)
    requires NetworkInv(s) && LogInv(s) && id !in s.own && id !in s.foreign
    requires s.server.registry.episode != Some(id)
    ensures EpisodeInv(s.server, id)
  {
    if Commits(s.server.log, id) != [] {
      var x := CommitIsLogged(s.server.log, id, 0);
    }
  }

  /** A committed answer to an ordinary write is the server's next commit after those already seen. */
  lemma AcceptedIsNextCommit(s: System, reply: Reply)
    requires Inv(s) && s.client.waiting.Some? && !s.client.waiting.value.kind.StartEpisode?
    requires (s.client.waiting.value.message, reply) in s.replies
    requires Accepted(s.client, AttemptOf(reply))
    ensures var commits := Commits(s.server.log, s.client.episodeId.value);
            |s.seen| < |commits| && commits[|s.seen|] == s.client.waiting.value.message.envelope
  {
    hide Commits, NetworkInv, LogInv, InOrder;
    var m := s.client.waiting.value.message;
    var x := Entry(m.endpoint, reply.result);
    AcceptedIsLogged(s, reply);
    var i := LoggedIsCommit(s.server.log, x);
    CommitPosition(s.server, EpisodeOf(x), i);
  }

  lemma AcceptedIsLogged(s: System, reply: Reply)
    requires LogInv(s) && ClientInv(s) && s.client.waiting.Some? && !s.client.waiting.value.kind.StartEpisode?
    requires (s.client.waiting.value.message, reply) in s.replies
    requires Accepted(s.client, AttemptOf(reply))
    ensures var m := s.client.waiting.value.message;
            var x := Entry(m.endpoint, reply.result);
            x in s.server.log && x.CommittedWrite() && x.Envelope() == m.envelope
  {
    hide CacheInv, Commits;
  }

  lemma CommitPosition(h: History, episode: string, i: nat)
    requires EpisodeInv(h, episode) && i < |Commits(h.log, episode)|
    ensures Commits(h.log, episode)[i].operationSeq == i + 1
  {
  }

  lemma UnacceptedKeepsInv(s: System, attempt: Attempt, newSessionId: string)
    requires Inv(s) && s.client.waiting.Some? && !Accepted(s.client, attempt)
    ensures Inv(s.(client := Hear(s.client, attempt, newSessionId)))
  {
  }

  lemma AcceptedResetKeepsClientInv(s: System, t: System, reply: Reply, newSessionId: string)
    requires Inv(s) && Enabled(s, Receive(reply, newSessionId)) && Accepted(s.client, AttemptOf(reply))
    requires t == Next(s, Receive(reply, newSessionId)) && s.client.waiting.value.kind.StartEpisode?
    ensures ClientInv(t)
  {
  }

  lemma AcceptedWriteKeepsClientInv(s: System, t: System, reply: Reply, newSessionId: string)
    requires Inv(s) && Enabled(s, Receive(reply, newSessionId)) && Accepted(s.client, AttemptOf(reply))
    requires t == Next(s, Receive(reply, newSessionId)) && !s.client.waiting.value.kind.StartEpisode?
    ensures ClientInv(t)
  {
    AcceptedIsNextCommit(s, reply);
    AcceptedWriteShape(s, reply, newSessionId);
    ExtendSeen(s, t);
  }

  lemma AcceptedWriteShape(s: System, reply: Reply, newSessionId: string)
    requires Inv(s) && Enabled(s, Receive(reply, newSessionId)) && Accepted(s.client, AttemptOf(reply))
    requires !s.client.waiting.value.kind.StartEpisode?
    ensures var t := Next(s, Receive(reply, newSessionId));
            && t.server == s.server && t.sent == s.sent && t.own == s.own && t.client.waiting.None?
            && t.seen == s.seen + [s.client.waiting.value.message.envelope]
            && (t.client.episodeId.None? ||
                (t.client.episodeId == s.client.episodeId
                 && t.client.nextOperationSeq == s.client.nextOperationSeq + 1))
  {
  }

  lemma ExtendSeen(s: System, t: System)
    requires ClientInv(s) && s.client.waiting.Some? && s.client.episodeId.Some?
    requires t.server == s.server && t.sent == s.sent && t.own == s.own && t.client.waiting.None?
    requires t.seen == s.seen + [s.client.waiting.value.message.envelope]
    requires t.client.episodeId.Some? ==>
               && t.client.episodeId == s.client.episodeId
               && t.client.nextOperationSeq == s.client.nextOperationSeq + 1
    requires var commits := Commits(s.server.log, s.client.episodeId.value);
             |s.seen| < |commits| && commits[|s.seen|] == s.client.waiting.value.message.envelope
    ensures ClientInv(t)
  {
    hide Commits;
  }

  lemma ReceiveKeepsInv(s: System, reply: Reply, newSessionId: string)
    requires Inv(s) && Enabled(s, Receive(reply, newSessionId))
    ensures Inv(Next(s, Receive(reply, newSessionId)))
  {
    if Accepted(s.client, AttemptOf(reply)) {
      var t := Next(s, Receive(reply, newSessionId));
      if s.client.waiting.value.kind.StartEpisode? {
        AcceptedResetKeepsClientInv(s, t, reply, newSessionId);
      } else {
        AcceptedWriteKeepsClientInv(s, t, reply, newSessionId);
      }
    } else {
      UnacceptedKeepsInv(s, AttemptOf(reply), newSessionId);
    }
  }

  lemma DeliverKeepsInv(s: System, m: Message, run: OperationRun, newToken: string)
    requires Inv(s) && Enabled(s, Deliver(m, run, newToken))
    ensures Inv(Next(s, Deliver(m, run, newToken)))
  {
    DeliverKeepsServer(s, m, run, newToken);
    DeliverKeepsLog(s, m, run, newToken);
  }

  lemma ForeignKeepsInv(s: System, call: Call)
    requires Inv(s) && Enabled(s, Foreign(call))
    ensures Inv(Next(s, Foreign(call)))
  {
    ForeignKeepsServer(s, call);
    ForeignKeepsLog(s, call);
  }

  lemma StepKeepsInv(s: System, step: Step)
    requires Inv(s) && Enabled(s, step)
    ensures Inv(Next(s, step))
  {
    match step
    case Learn(_) =>
    case Send(_, _, _, _) => SendKeepsInv(s, step);
    case Deliver(m, run, newToken) => DeliverKeepsInv(s, m, run, newToken);
    case Foreign(call) => ForeignKeepsInv(s, call);
    case Timeout => UnacceptedKeepsInv(s, TimedOut, "");
    case Busy => UnacceptedKeepsInv(s, HttpError(None), "");
    case Receive(reply, newSessionId) => ReceiveKeepsInv(s, reply, newSessionId);
  }

  lemma {:induction false} RunKeepsInv(s: System, steps: seq<Step>, t: System)
    requires Inv(s) && Runs(s, steps, t)
    ensures Inv(t)
    decreases |steps|
  {
    if steps != [] {
      StepKeepsInv(s, steps[0]);
      RunKeepsInv(Next(s, steps[0]), steps[1..], t);
    }
  }

  // ---- Main results ------------------------------------------------------

  /**
   * In every run, what the client saw committed in its episode is a prefix of
   * what the server committed there, which holds at most one more.
   */
  lemma SeenIsPrefixOfCommitted(maximum: nat, token: string, session: string, steps: seq<Step>, t: System)
    requires maximum >= 1 && Runs(Initial(maximum, token, session), steps, t)
    requires t.client.episodeId.Some?
    ensures var committed := Commits(t.server.log, t.client.episodeId.value);
            && t.seen <= committed && |committed| <= |t.seen| + 1
            && InOrder(committed)
            && (t.server.registry.episode == t.client.episodeId ==>
                  0 <= t.server.registry.nextSequence - t.client.nextOperationSeq <= 1)
  {
    RunKeepsInv(Initial(maximum, token, session), steps, t);
    AtMostOneAhead(t);
  }

  lemma AtMostOneAhead(s: System)
    requires Inv(s) && s.client.episodeId.Some?
    ensures |Commits(s.server.log, s.client.episodeId.value)| <= |s.seen| + 1
    ensures EpisodeInv(s.server, s.client.episodeId.value)
  {
    var episode := s.client.episodeId.value;
    var commits := Commits(s.server.log, episode);
    if |commits| > |s.seen| + 1 {
      var x := CommitIsLogged(s.server.log, episode, |s.seen| + 1);
    }
  }

  /** The server is one write ahead in the client's episode and the client is not waiting for that write. */
  ghost predicate Ahead(s: System, episode: string, n: nat)
  {
    var commits := Commits(s.server.log, episode);
    && s.client.episodeId == Some(episode) && |s.seen| == n && |commits| > n
    && (s.client.waiting.Some? ==> s.client.waiting.value.message.envelope != commits[n])
  }

  predicate HearsReset(s: System, step: Step)
  {
    step.Receive? && Accepted(s.client, AttemptOf(step.reply)) && s.client.waiting.value.kind.StartEpisode?
  }

  ghost predicate NoResetHeard(s: System, steps: seq<Step>)
    decreases |steps|
  {
    steps != [] && Enabled(s, steps[0]) ==>
      !HearsReset(s, steps[0]) && NoResetHeard(Next(s, steps[0]), steps[1..])
  }

  lemma AheadStep(s: System, step: Step, episode: string, n: nat)
    requires Inv(s) && Enabled(s, step) && Ahead(s, episode, n) && !HearsReset(s, step)
    ensures Ahead(Next(s, step), episode, n)
  {
    match step
    case Receive(reply, _) =>
      if Accepted(s.client, AttemptOf(reply)) {
        AcceptedIsNextCommit(s, reply);
      }
    case Deliver(m, run, newToken) => DeliverKeepsServer(s, m, run, newToken);
    case Foreign(call) => ForeignKeepsServer(s, call);
    case Send(_, requestId, _, _) =>
      var x := CommitIsLogged(s.server.log, episode, n);
      assert MessageOf(x) in s.sent;
    case _ =>
  }

  /** Once the gap is open and the lost write is no longer awaited, nothing but a committed reset moves the client. */
  lemma {:induction false} OnlyAResetUnblocks(s: System, steps: seq<Step>, t: System, episode: string, n: nat)
    requires Inv(s) && Ahead(s, episode, n) && Runs(s, steps, t) && NoResetHeard(s, steps)
    ensures Ahead(t, episode, n) && t.client.nextOperationSeq == n + 1
    decreases |steps|
  {
    if steps != [] {
      AheadStep(s, steps[0], episode, n);
      StepKeepsInv(s, steps[0]);
      OnlyAResetUnblocks(Next(s, steps[0]), steps[1..], t, episode, n);
    }
  }

  lemma GapNeedsReset(maximum: nat, token: string, session: string, before: seq<Step>, s: System,
                      steps: seq<Step>, t: System)
    requires maximum >= 1 && Runs(Initial(maximum, token, session), before, s)
    requires s.client.waiting.None? && s.client.episodeId.Some? && s.server.registry.episode == s.client.episodeId
    requires s.server.registry.nextSequence == s.client.nextOperationSeq + 1
    requires Runs(s, steps, t) && NoResetHeard(s, steps)
    ensures t.seen == s.seen && t.client.episodeId == s.client.episodeId
    ensures t.client.nextOperationSeq == s.client.nextOperationSeq
  {
    RunKeepsInv(Initial(maximum, token, session), before, s);
    var episode := s.client.episodeId.value;
    assert EpisodeInv(s.server, episode);
    OnlyAResetUnblocks(s, steps, t, episode, |s.seen|);
    RunKeepsInv(s, steps, t);
    SeenNeverShrinks(s, steps, t);
  }

  lemma {:induction false} SeenNeverShrinks(s: System, steps: seq<Step>, t: System)
    requires Runs(s, steps, t) && NoResetHeard(s, steps)
    ensures s.seen <= t.seen
    decreases |steps|
  {
    if steps != [] {
      SeenNeverShrinks(Next(s, steps[0]), steps[1..], t);
    }
  }

  // ---- Progress ----------------------------------------------------------

  /** The client knows the current token, and the registry is free or bound to it, and not lost. */
  predicate Welcome(s: System)
  {
    && s.client.bindingToken == Some(s.server.registry.bindingToken) && !s.server.registry.lost
    && (s.server.registry.session.Some? ==> s.server.registry.session == Some(s.client.sessionId))
  }

  /** Both are in the same episode, at the same sequence number. */
  predicate InStep(s: System)
  {
    && s.client.episodeId.Some? && s.server.registry.episode == s.client.episodeId
    && s.server.registry.nextSequence == s.client.nextOperationSeq
  }

  /** What the client just sent, what the server made of it, and what the client made of the answer. */
  datatype Exchange = Exchange(sent: System, message: Message, delivered: System, reply: Reply, heard: System)

  function Exchanged(s: System, send: Step, run: OperationRun, newToken: string, newSessionId: string): Exchange
    requires Enabled(s, send) && send.Send?
  {
    var sent := Next(s, send);
    var m := sent.client.waiting.value.message;
    var call := CallOf(m, run, newToken);
    var reply := Execute(sent.server.registry, call).reply;
    var delivered := sent.(server := After(sent.server, call), replies := sent.replies + {(m, reply)});
    Exchange(sent, m, delivered, reply, delivered.(client := Hear(delivered.client, AttemptOf(reply), newSessionId)))
  }

  /** The steps of an exchange are steps of the system. */
  lemma ExchangeIsARun(s: System, send: Step, run: OperationRun, newToken: string, newSessionId: string)
    requires Inv(s) && send.Send? && Enabled(s, send)
    ensures var x := Exchanged(s, send, run, newToken, newSessionId);
      && Enabled(x.sent, Deliver(x.message, run, newToken))
      && x.delivered == Next(x.sent, Deliver(x.message, run, newToken))
      && Enabled(x.delivered, Receive(x.reply, newSessionId))
      && Next(x.delivered, Receive(x.reply, newSessionId)).client == x.heard.client
      && x.heard.server == x.delivered.server
  {
    hide Execute, After, Hear;
    NewRequestIsUnknown(s, send.requestId);
  }

  lemma NewRequestIsUnknown(s: System, id: string)
    requires NetworkInv(s) && LogInv(s) && id !in s.own + s.foreign
    ensures Lookup(s.server.registry.cache, id).None? && !Logged(s.server, id)
  {
    assert forall x <- s.server.log :: x.Id() != id;
  }

  /**
   * An operation that returned advances client and server together: a reset
   * leaves both at the start of its episode, a write one further in it, and a
   * release leaves a free registry and an unbound client.  After one that
   * raised the client stays, and knows when the outcome is unknown.
   */
  predicate AdvanceTogether(s: System, send: Step, run: OperationRun, newToken: string, newSessionId: string, heard: System)
    requires send.Send?
  {
    && heard.client.waiting.None?
    && (run.Returned? ==>
          match send.kind
          case StartEpisode =>
            && Welcome(heard) && InStep(heard) && heard.client.episodeId == Some(send.newEpisodeId)
            && heard.client.nextOperationSeq == 1 && !heard.client.outcomeUnknown
          case Ordinary(_) =>
            && Welcome(heard) && InStep(heard) && heard.client.episodeId == s.client.episodeId
            && heard.client.nextOperationSeq == s.client.nextOperationSeq + 1
            && heard.client.outcomeUnknown == s.client.outcomeUnknown
          case ReleaseBinding =>
            && heard.client == Client(newSessionId, None, None, 0, s.client.outcomeUnknown, None)
            && heard.server.registry.session.None? && heard.server.registry.episode.None?
            && heard.server.registry.bindingToken == newToken && !heard.server.registry.lost)
    && (run.Raised? ==>
          var unknown := send.kind.StartEpisode? || run.markerMoved;
          && heard.client == s.client.(outcomeUnknown := s.client.outcomeUnknown || unknown)
          && (heard.server.registry.lost <==> unknown)
          && (!unknown ==> Welcome(heard) && (InStep(s) ==> InStep(heard))))
  }

  predicate CarriesClient(s: System, send: Step, m: Message)
    requires send.Send?
  {
    && m.endpoint == send.kind.Endpoint() && m.envelope.requestId == send.requestId
    && m.envelope.payloadSha256 == send.digest && m.envelope.sessionId == s.client.sessionId
    && Some(m.envelope.bindingToken) == s.client.bindingToken
  }

  /** Progress: a welcome client's reset, or its next write when in step, runs when delivered, and is followed up. */
  lemma SentRequestRuns(s: System, send: Step, run: OperationRun, newToken: string, newSessionId: string)
    requires Inv(s) && send.Send? && Enabled(s, send) && Welcome(s)
    requires !send.kind.StartEpisode? ==> InStep(s)
    ensures var x := Exchanged(s, send, run, newToken, newSessionId);
      && CarriesClient(s, send, x.message)
      && Execute(s.server.registry, CallOf(x.message, run, newToken)).ran.Some?
      && AdvanceTogether(s, send, run, newToken, newSessionId, x.heard)
  {
    hide *;
    NewSendIsAdmitted(s, send);
    match send.kind
    case StartEpisode => ResetFollowsThrough(s, send, run, newToken, newSessionId);
    case Ordinary(_) => WriteFollowsThrough(s, send, run, newToken, newSessionId);
    case ReleaseBinding => ReleaseFollowsThrough(s, send, run, newToken, newSessionId);
  }

  /** Nothing speaks against the request. */
  predicate Admissible(s: System, send: Step)
    requires Enabled(s, send) && send.Send?
  {
    && Welcome(s) && Lookup(s.server.registry.cache, send.requestId).None?
    && (if send.kind.StartEpisode? then s.server.registry.episode != Some(send.newEpisodeId) else InStep(s))
  }

  lemma NewSendIsAdmitted(s: System, send: Step)
    requires Inv(s) && send.Send? && Enabled(s, send) && Welcome(s)
    requires !send.kind.StartEpisode? ==> InStep(s)
    ensures Admissible(s, send)
  {
    hide CacheInv, ServerInv, ClientInv;
    NewRequestIsUnknown(s, send.requestId);
  }

  lemma ResetFollowsThrough(s: System, send: Step, run: OperationRun, newToken: string, newSessionId: string)
    requires send.Send? && Enabled(s, send) && Admissible(s, send) && send.kind.StartEpisode?
    ensures var x := Exchanged(s, send, run, newToken, newSessionId);
      && CarriesClient(s, send, x.message)
      && Execute(s.server.registry, CallOf(x.message, run, newToken)).ran.Some?
      && AdvanceTogether(s, send, run, newToken, newSessionId, x.heard)
  {
    hide Remember;
  }

  lemma WriteFollowsThrough(s: System, send: Step, run: OperationRun, newToken: string, newSessionId: string)
    requires send.Send? && Enabled(s, send) && Admissible(s, send) && send.kind.Ordinary?
    ensures var x := Exchanged(s, send, run, newToken, newSessionId);
      && CarriesClient(s, send, x.message)
      && Execute(s.server.registry, CallOf(x.message, run, newToken)).ran.Some?
      && AdvanceTogether(s, send, run, newToken, newSessionId, x.heard)
  {
    hide Remember;
  }

  lemma ReleaseFollowsThrough(s: System, send: Step, run: OperationRun, newToken: string, newSessionId: string)
    requires send.Send? && Enabled(s, send) && Admissible(s, send) && send.kind.ReleaseBinding?
    ensures var x := Exchanged(s, send, run, newToken, newSessionId);
      && CarriesClient(s, send, x.message)
      && Execute(s.server.registry, CallOf(x.message, run, newToken)).ran.Some?
      && AdvanceTogether(s, send, run, newToken, newSessionId, x.heard)
  {
    hide Remember;
  }

  /** The request of a client with legal ids and the digest of its content is accepted by the server's parser. */
  lemma SentRequestParses(s: System, send: Step, content: string, sha256: string -> string)
    requires send.Send? && Enabled(s, send) && send.digest == sha256(content) && ValidDigest(send.digest)
    requires ValidIdentifier(send.requestId) && ValidIdentifier(s.client.sessionId)
    requires ValidIdentifier(s.client.bindingToken.value)
    requires if send.kind.StartEpisode? then ValidIdentifier(send.newEpisodeId) else ValidIdentifier(s.client.episodeId.value)
    ensures var e := Next(s, send).client.waiting.value.message.envelope;
      Parse(Payload(content, Some(Printed(e))), sha256) == Ok(e)
  {
    var e := Next(s, send).client.waiting.value.message.envelope;
    ParsesIff(Payload(content, Some(Printed(e))), sha256, e);
  }

  // ---- When a client holds its outcome for unknown -----------------------

  /** The client hears a second timeout, or that the outcome of its write is unknown. */
  predicate GoesUnknown(s: System, step: Step)
    requires s.client.waiting.Some?
  {
    || (step.Timeout? && s.client.waiting.value.attempt >= 2)
    || (step.Receive? && step.reply.Done? && step.reply.result.status != OK_STATUS
        && step.reply.result.outcome == OutcomeUnknown)
  }

  /** Whether that happened since a reset was last heard to be committed. */
  ghost predicate UnknownSince(s: System, steps: seq<Step>, unknown: bool)
    decreases |steps|
  {
    if steps == [] || !Enabled(s, steps[0]) then unknown
    else
      UnknownSince(Next(s, steps[0]), steps[1..],
                   !HearsReset(s, steps[0]) && (unknown || (s.client.waiting.Some? && GoesUnknown(s, steps[0]))))
  }

  lemma UnknownStep(s: System, step: Step)
    requires Enabled(s, step)
    ensures Next(s, step).client.outcomeUnknown
            <==> !HearsReset(s, step) && (s.client.outcomeUnknown || (s.client.waiting.Some? && GoesUnknown(s, step)))
  {
  }

  /** A client holds its outcome for unknown, and so refuses to release, exactly then. */
  lemma {:induction false} UnknownMeans(s: System, steps: seq<Step>, t: System)
    requires Runs(s, steps, t)
    ensures t.client.outcomeUnknown <==> UnknownSince(s, steps, s.client.outcomeUnknown)
    ensures t.client.outcomeUnknown ==> CanIssue(t.client, ReleaseBinding).Fail?
    decreases |steps|
  {
    hide Next, GoesUnknown, HearsReset;
    if steps != [] {
      UnknownStep(s, steps[0]);
      UnknownMeans(Next(s, steps[0]), steps[1..], t);
    }
  }
}
