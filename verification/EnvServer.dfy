/** Routing of chunk requests through the write registry into the session, with the side-effect marker. */
module EnvServer {
  import opened Wrappers
  import opened OperationProtocol
  import ActionContract
  import PlainValues
  import Session = SessionCore

  const EXECUTE_CHUNK := "/execute_chunk"

  datatype Marker = Marker(hasEnvironment: bool, stepIndex: nat, observed: bool)

  function MarkerOf(s: Session.Session): Marker
  {
    Marker(s.hasEnvironment, s.stepIndex, s.observation.Some?)
  }

  /** How results and errors are rendered into response bodies. */
  datatype Rendering = Rendering(value: Session.ChunkRun -> string, name: Session.SessionError -> string,
                                 detail: Session.SessionError -> string)

  function RunOf(before: Session.Session, run: Session.ChunkRun, out: Rendering): OperationRun
  {
    if run.error.None? then Returned(out.value(run))
    else Raised(out.name(run.error.value), out.detail(run.error.value), MarkerOf(run.session) != MarkerOf(before))
  }

  datatype Server = Server(registry: Registry, session: Session.Session)

  datatype Posted = Posted(server: Server, reply: Reply, ran: Option<Entry>)

  function PostChunk(w: Session.World, srv: Server, e: WriteEnvelope, q: Session.ChunkRequest, out: Rendering): Posted
  {
    var run := Session.Chunk(w, srv.session, q);
    var x := Execute(srv.registry, Call(EXECUTE_CHUNK, e, false, RunOf(srv.session, run, out), ""));
    Posted(Server(x.registry, if x.ran.Some? then run.session else srv.session), x.reply, x.ran)
  }

  // ---- Outcome honesty ---------------------------------------------------

  lemma {:induction false} OneStepLeavesNoTrace(w: Session.World, s: Session.Session, raw: PlainValues.Value)
    requires s.critic.Some?
    ensures var t := Session.PlayOne(w, s, raw).session;
      t.stepIndex == s.stepIndex ==> t == s.(played := t.played)
  {
    hide ActionContract.CanonicalAction;
  }

  lemma {:induction false} PlayLeavesNoTrace(w: Session.World, s: Session.Session, interrupt: bool, actions: seq<PlainValues.Value>)
    requires s.critic.Some?
    ensures var t := Session.Play(w, s, interrupt, actions).session;
      t.stepIndex == s.stepIndex ==> t == s.(played := t.played)
    decreases |actions|
  {
    hide Session.PlayOne;
    if actions != [] {
      OneStepLeavesNoTrace(w, s, actions[0]);
      Session.OneStepShape(w, s, actions[0]);
      var one := Session.PlayOne(w, s, actions[0]);
      if !one.Stops(interrupt) {
        Session.PlayKeepsSetup(w, one.session, interrupt, actions[1..]);
      }
    }
  }

  /** A chunk that moved no step index left the observation, the flags and the latch as they were. */
  lemma UnmovedChunkLeavesNoTrace(w: Session.World, s: Session.Session, q: Session.ChunkRequest)
    ensures var t := Session.Chunk(w, s, q).session;
      && (MarkerOf(t) == MarkerOf(s) <==> t.stepIndex == s.stepIndex)
      && (t.stepIndex == s.stepIndex ==> t == s.(played := t.played, critic := t.critic, evaluated := t.evaluated))
  {
    var ready := Session.Configure(w, s, q.rules);
    if s.hasEnvironment && s.observation.Some? && ready.Ok? {
      PlayLeavesNoTrace(w, ready.value, q.interrupt, q.actions);
      Session.PlayKeepsSetup(w, ready.value, q.interrupt, q.actions);
    }
  }

  /** The entry answers this request with what the run gave: its value, or its error and detail. */
  predicate Tells(entry: Entry, endpoint: string, e: WriteEnvelope, run: OperationRun)
  {
    && entry.endpoint == endpoint && entry.result.envelope == e
    && (run.Returned? ==> entry.result.status == 200 && entry.result.body == Value(run.value))
    && (run.Raised? ==> entry.result.status == 500 && entry.result.body == Failure(run.error, run.detail))
  }

  lemma RaisedShape(r: Registry, c: Call)
    requires Execute(r, c).ran.Some? && c.endpoint == EXECUTE_CHUNK && !c.release
    ensures var x := Execute(r, c); var outcome := x.ran.value.result.outcome;
      && !r.lost
      && (outcome == Committed <==> c.run.Returned?)
      && (outcome == OutcomeUnknown <==> c.run.Raised? && c.run.markerMoved)
      && (x.registry.lost <==> outcome == OutcomeUnknown)
      && (outcome == Rejected ==> x.registry == r.(session := Some(c.envelope.sessionId), cache := x.registry.cache))
      && (outcome == Rejected ==> Admit(r, c.endpoint, c.envelope, false).1 == Run)
      && x.reply == Done(x.ran.value.result) && Tells(x.ran.value, c.endpoint, c.envelope, c.run)
  {
  }

  /**
   * Outcome honesty.  When a chunk that ran raises, the answer is
   * OUTCOME_UNKNOWN and the binding is lost exactly when some simulator step
   * returned during it; otherwise it is REJECTED and the episode is untouched.
   * The answer carries the report of the chunk, or the error it broke off with.
   */
  lemma HonestOutcome(w: Session.World, srv: Server, e: WriteEnvelope, q: Session.ChunkRequest, out: Rendering)
    requires Session.Tracks(w, srv.session)
    requires PostChunk(w, srv, e, q, out).ran.Some?
    ensures var p := PostChunk(w, srv, e, q, out);
      var run := Session.Chunk(w, srv.session, q);
      var outcome := p.ran.value.result.outcome;
      var moved := Session.StepsReturned(w, p.server.session.played) > Session.StepsReturned(w, srv.session.played);
      && (outcome == Committed <==> run.error.None?)
      && (run.error.Some? ==> (outcome == OutcomeUnknown <==> moved) && (outcome == Rejected <==> !moved))
      && (p.server.registry.lost <==> run.error.Some? && moved)
      && p.server.session == run.session && p.reply == Done(p.ran.value.result)
      && (run.error.None? ==> Tells(p.ran.value, "/execute_chunk", e, Returned(out.value(run))))
      && (run.error.Some? ==>
            Tells(p.ran.value, "/execute_chunk", e,
                  Raised(out.name(run.error.value), out.detail(run.error.value), moved)))
      && (outcome == Rejected ==>
            && p.server.registry.nextSequence == srv.registry.nextSequence
            && p.server.registry.episode == srv.registry.episode
            && p.server.session == srv.session.(played := run.session.played, critic := run.session.critic,
                                                evaluated := run.session.evaluated))
  {
    hide Session.Chunk, Execute;
    var run := Session.Chunk(w, srv.session, q);
    RaisedShape(srv.registry, Call(EXECUTE_CHUNK, e, false, RunOf(srv.session, run, out), ""));
    UnmovedChunkLeavesNoTrace(w, srv.session, q);
    ChunkTracks(w, srv.session, q);
  }

  /** A chunk that did not run touched neither the session nor the log of terminal results. */
  lemma UnrunChunkTouchesNothing(w: Session.World, srv: Server, e: WriteEnvelope, q: Session.ChunkRequest, out: Rendering)
    ensures var p := PostChunk(w, srv, e, q, out);
      p.ran.None? ==>
        && p.server.session == srv.session
        && p.server.registry == srv.registry.(session := p.server.registry.session)
        && (p.reply.Done? ==> exists entry :: entry in srv.registry.cache && entry.result == p.reply.result
                                              && entry.Id() == e.requestId)
  {
    var hit := Lookup(srv.registry.cache, e.requestId);
    if hit.Some? {
      assert hit.value in srv.registry.cache;
    }
  }

  lemma ChunkTracks(w: Session.World, s: Session.Session, q: Session.ChunkRequest)
    requires Session.Tracks(w, s)
    ensures var t := Session.Chunk(w, s, q).session;
      Session.StepsReturned(w, t.played) == t.stepIndex && s.stepIndex <= t.stepIndex
  {
    hide Session.Play;
    var t := Session.Chunk(w, s, q).session;
    Session.ChunksTrack(w, s, [q]);
    assert Session.RunChunks(w, t, [][..]) == t;
    assert [q][1..] == [];
    var ready := Session.Configure(w, s, q.rules);
    if ready.Ok? {
      Session.PlayKeepsSetup(w, ready.value, q.interrupt, q.actions);
    }
  }

  /** After a rejection the same slot is still usable: a fresh request for it runs. */
  lemma RejectedSlotIsReusable(w: Session.World, srv: Server, e: WriteEnvelope, q: Session.ChunkRequest, out: Rendering,
                               retry: WriteEnvelope)
    requires PostChunk(w, srv, e, q, out).ran.Some?
    requires PostChunk(w, srv, e, q, out).ran.value.result.outcome == Rejected
    requires Lookup(PostChunk(w, srv, e, q, out).server.registry.cache, retry.requestId).None?
    requires retry.sessionId == e.sessionId && retry.bindingToken == e.bindingToken
    requires retry.episodeId == e.episodeId && retry.operationSeq == e.operationSeq
    ensures Admit(PostChunk(w, srv, e, q, out).server.registry, EXECUTE_CHUNK, retry, false).1 == Run
  {
    hide Session.Chunk, Execute;
    var run := Session.Chunk(w, srv.session, q);
    RaisedShape(srv.registry, Call(EXECUTE_CHUNK, e, false, RunOf(srv.session, run, out), ""));
  }

  // ---- The server object -------------------------------------------------

  class EnvironmentServer {
    const registry: IdempotentWriteRegistry
    const session: Session.RoboCasaSession

    ghost predicate Valid()
      reads this, registry
    {
      registry.Valid()
    }

    function State(): Server
      reads this, registry, session
    {
      Server(registry.State(), session.State())
    }

    constructor (r: IdempotentWriteRegistry, s: Session.RoboCasaSession)
      requires r.Valid()
      ensures Valid() && registry == r && session == s
    {
      registry, session := r, s;
    }

    method PostExecuteChunk(w: Session.World, payload: Payload, q: Session.ChunkRequest, out: Rendering)
      returns (reply: Reply)
      requires Valid()
      modifies registry, session
      ensures Valid()
      ensures match Parse(payload, registry.sha256)
              case Err(reason) => reply == Conflict(reason) && State() == old(State())
              case Ok(e) => var p := PostChunk(w, old(State()), e, q, out); State() == p.server && reply == p.reply
    {
      hide Session.Chunk;
      var parsed := Parse(payload, registry.sha256);
      if parsed.Err? {
        return Conflict(parsed.error);
      }
      var admission := registry.TryAdmit(EXECUTE_CHUNK, parsed.value, false);
      match admission {
        case Cached(result) => return Done(result);
        case Refused(reason) => return Conflict(reason);
        case Run =>
          var before := session.State();
          var run := session.ExecuteChunk(w, q);
          var result := registry.Conclude(EXECUTE_CHUNK, parsed.value, false, RunOf(before, run, out), "");
          return Done(result);
      }
    }
  }
}
