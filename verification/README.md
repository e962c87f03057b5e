# A verified model of the robot-rollout control plane

Dafny model of the parts of the repository that decide who may act on a robot
episode, and when: the idempotent write protocol between a client and one
simulator process, the Role1 decision contract with its persistence gate, the
frozen-recovery machinery around an untrusted model, and the bounded motion
programs and trackers.  Verify everything with `dafny verify dfyconfig.toml`.

How the model is laid out:

- **Write protocol.**  `OperationProtocol` is the server registry (envelope
  parsing, admission, settlement, bounded result cache): value-level functions
  specify the class `IdempotentWriteRegistry`.  `RegistryRuns` states what holds
  over whole runs of calls.  `EnvClient` is the retrying client.  `WriteSystem`
  puts one client, one registry, a network that loses, delays and duplicates,
  and other parties into one step system.  `SessionCore` is the owner of the
  simulator, `EnvServer` the routing of chunk requests with the side-effect
  marker.
- **Role1 contract.**  `PlainValues` is Python data with its plain and frozen
  forms, `ActionContract` the canonical robot command, `Role1Text` the string
  operations with the laws that are assumed of them (`LawsAreConsistent` shows
  that they can be met), `Role1Agent` proposals and events, `Role1Decision`
  validation, `Role1Written` exactly which raw decisions are accepted as which,
  `Role1Store` the write-once store.
- **Recovery.**  `Role1Actor` is the bounded decision loop, `RecoveryController`
  the state machine of one frozen recovery, `RecoveryDriver` the LIBERO actor and
  the loop around it, `ActorVisible` the removal of private geometry.
- **Environment, motion and trackers.**  `LiberoEnv` is the LIBERO facade, its
  client and the audit ledger; `LiberoPrimitives` the motion programs and
  `ShortRelease` one run of them;
  `GpuGate` the per-GPU token gate; `CriticHistory` and `SlideDishwasher` the
  trackers.

Models, tools, critics, simulators and the network are arbitrary: they appear
as functions of everything they were given so far (or as parameters of a step),
so every theorem holds for each of their behaviours.  `hide` statements only
withhold definitions from a proof that does not need them.

## Where the code and its promises differ

- Some stored texts are never seed-checked before the decision is stored, but
  are when it is read back: a proposal id taken over from the event (the model
  left `proposal_ids` out), and the printed form of a list or object given for
  the rationale, the termination reason, an evidence entry or a cited id, whose
  parts are checked one by one.  `Role1Store.PersistedReloads` gives the exact
  condition, `Role1Decisions.UncheckedIdIsNotReadBack` and
  `Role1Decisions.ObjectRationaleIsNotReadBack` concrete cases.  A tool proposal
  whose payload is a bare null prints and parses to an empty payload
  (`Role1Agent.ToolProposalRoundTrip`).
- An evicted `/reset` that is delivered again runs again, and a committed write
  can then be applied twice: `RegistryRuns.EvictedResetReplaysAWrite` is a concrete
  run, `RegistryRuns.CommittedRequestRunsAgainIff` says exactly when.
- `GpuOperationGate.acquire` opens the token file after taking the process-local
  lock and before the block that frees it, and that block frees the local lock
  last, so a failing open, unlock or close leaks it: `GpuGate.ExitsFreeTheLocksIff`
  and `GpuGate.FailedOpenLeaks`.
- The recovery actor strips the frozen tool name and the controller does not:
  `RecoveryDriver.GuardTripsIff` says when its guard trips,
  `RecoveryDriver.PaddedToolTripsGuard` shows it trip.
- A segmented move that the critic interrupts at a waypoint in between counts as
  reached, so pick and place goes on and may release short of the target:
  `LiberoPrimitives.ReachedIsAtTargetIff` is the exact condition,
  `ShortRelease.ReleasesShortOfTarget` a concrete run.
- The comment in `run_evolution_rollout.py` that a contract fault cannot have
  mutated the environment is right about steps (`RecoveryDriver.FaultsDoNotStep`).

## Model

| member | source | states |
|---|---|---|
| `OperationProtocol.Parse` | robots/robocasa/operation_protocol.py:48-72 | an accepted envelope has four legal identifiers and the digest of the semantic payload |
| `OperationProtocol.ParsesIff` | robots/robocasa/operation_protocol.py:48-72 | an envelope is accepted exactly when the body carries its printed form, with legal identifiers and the digest of the content around it |
| `OperationProtocol.IdempotentWriteRegistry.FindCached` | robots/robocasa/operation_protocol.py:172-180 | the cached result under a request id is found exactly when there is one |
| `OperationProtocol.IdempotentWriteRegistry.CacheResult` | robots/robocasa/operation_protocol.py:147-157 | the new result goes to the end, an old one under the same id goes away, and only the newest entries up to the bound stay |
| `OperationProtocol.RememberKeepsDistinct` | robots/robocasa/operation_protocol.py:147-157 | the cache never holds two results under one request id |
| `OperationProtocol.IdempotentWriteRegistry.TryAdmit` | robots/robocasa/operation_protocol.py:172-206 | cache before token, token before LOST, LOST before session, and a free registry is bound before the order checks can refuse |
| `OperationProtocol.IdempotentWriteRegistry.Conclude` | robots/robocasa/operation_protocol.py:208-255 | how a returned or raised operation moves sequence, episode, LOST, binding and cache, and what is answered |
| `OperationProtocol.IdempotentWriteRegistry.ExecuteWrite` | robots/robocasa/operation_protocol.py:159-255 | one locked write is exactly the specified transition, and a malformed request changes nothing |
| `RegistryRuns.CacheIsRecentHistory` | robots/robocasa/operation_protocol.py:147-157 | after any run the cache is exactly the last results of the whole terminal log, with distinct request ids |
| `RegistryRuns.OneRunPerRequestId` | robots/robocasa/operation_protocol.py:172-180 | while no evicted id is redelivered, no request id runs twice |
| `RegistryRuns.RedeliveryIsAnsweredIdentically` | robots/robocasa/operation_protocol.py:172-180 | a redelivery with the same endpoint and digest gets the logged terminal result and changes nothing |
| `RegistryRuns.EveryAnswerIsTrue` | robots/robocasa/operation_protocol.py:170-255 | over any run, every terminal answer, first or repeated, tells what one performed operation of the same endpoint and digest did: status 200 and its value, with the number of earlier releases when it released, or status 500 with its error and detail, and whether a side effect happened |
| `RegistryRuns.RunsUnlessRefused` | robots/robocasa/operation_protocol.py:170-206 | over any run, an operation runs exactly when the request is new, carries the current token in an unbroken binding of its own or no session, and is a reset of another episode at 0 or a write of the active one at its next number; every refusal names a true reason |
| `RegistryRuns.StateMeansTheLog` | robots/robocasa/operation_protocol.py:208-255 | over any run, episode, next sequence, LOST, token, generation and session are what the terminal log says |
| `RegistryRuns.AppliedAtMostOnce` | robots/robocasa/operation_protocol.py:181-206 | even with evictions, no slot of an episode is applied twice when committed resets name distinct episodes and tokens are fresh |
| `RegistryRuns.CommittedRequestRunsAgainIff` | robots/robocasa/operation_protocol.py:181-206 | a committed request runs again exactly when evicted in an unbroken binding, as a reset while another episode is active or as a write whose episode was reset again and is back at its sequence number; with distinct resets only the former |
| `RegistryRuns.EvictedResetReplaysAWrite` | robots/robocasa/operation_protocol.py:193-199 | a concrete run in which a redelivered evicted reset leads to the same write being applied twice |
| `RegistryRuns.LostForever` | robots/robocasa/operation_protocol.py:181-184 | once the binding is lost no operation ever runs again and the registry never changes |
| `RegistryRuns.ReleaseFences` | robots/robocasa/operation_protocol.py:236-246 | after a committed release every uncached request of the old token is refused, in every later state |
| `RegistryRuns.SequenceCountsWrites` | robots/robocasa/operation_protocol.py:229-234 | while an episode is active the next sequence is one plus the ordinary commits since its reset |
| `EnvClient.RoboCasaEnvClient.Request` | robots/robocasa/env_client.py:25-77 | the message is sent at most twice, the second time only after a timeout; which answer is returned, and exactly when the outcome becomes unknown |
| `EnvClient.RoboCasaEnvClient.Write` | robots/robocasa/env_client.py:91-145 | one blocking write sends its own envelope and advances exactly on a committed answer; it reports that answer, or which check turned it down |
| `EnvClient.VerdictIff` | robots/robocasa/env_client.py:124-145 | success is reported exactly for a committed answer to the very request, and for a release only when the answer confirms it |
| `WriteSystem.StepKeepsInv` | robots/robocasa/env_client.py:91-145 | every send, delivery, loss, duplicate, foreign call and answer keeps the invariant that ties client, network and server together |
| `WriteSystem.SeenIsPrefixOfCommitted` | robots/robocasa/operation_protocol.py:170-255 | what the client saw committed in its episode is, in order, a prefix of what the server committed there |
| `WriteSystem.AtMostOneAhead` | robots/robocasa/operation_protocol.py:200-206 | in one episode the server is at most one sequence number ahead of the client |
| `WriteSystem.OnlyAResetUnblocks` | robots/robocasa/env_client.py:91-145 | once one ahead, it stays ahead and the client sees no further commit until it hears a reset |
| `WriteSystem.GapNeedsReset` | robots/robocasa/env_client.py:53-77 | after a write whose answer never came, only a reset lets the client write again |
| `WriteSystem.SentRequestRuns` | robots/robocasa/env_client.py:91-145 | progress: from any state of the invariant in which the client holds the token of an unbroken binding that is free or its own, a new reset, or when both are at the same number of the same episode a new write or release, runs when delivered; hearing that it returned leaves both in step, one episode or write further, a release leaves the client unbound under its new session |
| `WriteSystem.SentRequestParses` | robots/robocasa/env_client.py:108-123 | the request as printed by the client is accepted by the parser of the server |
| `WriteSystem.UnknownMeans` | robots/robocasa/env_client.py:53-77 | over any steps the client holds the outcome for unknown exactly when, since its last committed reset, a write timed out twice or was answered as unknown |
| `SessionCore.RoboCasaSession.Reset` | robots/robocasa/session_core.py:381-414 | the state a healthy reset leaves |
| `SessionCore.RoboCasaSession.StepOnce` | robots/robocasa/session_core.py:483-575 | one action: command check, simulator step, health, latch, recording and critic, with every failure point |
| `SessionCore.RoboCasaSession.ExecuteChunk` | robots/robocasa/session_core.py:462-599 | the chunk loop with its refusals and stop conditions is the specified run |
| `SessionCore.ChunkSplits` | robots/robocasa/session_core.py:462-599 | executing A++B is executing A, then B when A ended on no stop condition and no error, and A alone otherwise |
| `SessionCore.StepIndicesAreConsecutive` | robots/robocasa/session_core.py:509-513 | step records are numbered consecutively, one per executed step |
| `SessionCore.SuccessLatchIsExact` | robots/robocasa/session_core.py:521-524 | over any chunks since a reset the latch holds exactly when some observation was an official success, and the first step is the least such index |
| `SessionCore.ReportsTell` | robots/robocasa/session_core.py:483-599 | after any chunks since a reset, a further chunk reports one record per step with the frame, reward and flags of the simulator reply to exactly the action asked for, the critic proposals on it, and ends exactly at the first stop condition or where something failed, which the error names |
| `SessionCore.FieldsAreTheLastReply` | robots/robocasa/session_core.py:509-524 | after any chunks since a reset, failed ones included, observation, reward and flags are those of the last step that returned, the episode is truncated at its step limit, and no step is asked for once it is over |
| `SessionCore.ChunkRunsIffReady` | robots/robocasa/session_core.py:462-482 | a chunk runs exactly when the episode is open, has actions and keeps its rules; otherwise it is refused for a true reason with nothing done |
| `EnvServer.EnvironmentServer.PostExecuteChunk` | robots/robocasa/env_server.py:151-190 | a chunk request runs only when admitted, and the marker decides how a failure settles |
| `EnvServer.UnmovedChunkLeavesNoTrace` | robots/robocasa/session_core.py:483-520 | a chunk that moved no step index left observation, flags and latch alone |
| `EnvServer.HonestOutcome` | robots/robocasa/operation_protocol.py:208-255 | a raised chunk is OUTCOME_UNKNOWN and loses the binding exactly when some simulator step returned, and is otherwise REJECTED with the sequence unmoved; the answer carries the report of the chunk, or the error it broke off with |
| `EnvServer.UnrunChunkTouchesNothing` | robots/robocasa/operation_protocol.py:172-206 | a chunk that is refused or answered from the cache touches neither the session nor the terminal results |
| `PlainValues.ThawFreeze` | robots/robocasa/role1_agent.py:148-163 | thawing a frozen plain value gives it back |
| `PlainValues.FreezeThaw` | robots/robocasa/role1_agent.py:148-163 | freezing a thawed frozen value gives it back, and the thawed form is plain JSON |
| `PlainValues.PlainJsonOfFrozen` | robots/robocasa/role1_agent.py:127-145 | normalizing a frozen value restores the plain one |
| `ActionContract.CanonicalAction` | robots/robocasa/action_contract.py:95-167 | every accepted command is within its bounds, whatever the scale |
| `ActionContract.CanonicalIff` | robots/robocasa/action_contract.py:61-167 | at unit scale a raw command is accepted as a given command exactly when it is in bounds and says it: by bare or prefixed names, at the top or nested, with zeros for what is missing, or as twelve numbers in a row |
| `ActionContract.ScaledCommand` | robots/robocasa/action_contract.py:120-167 | a scaled command is the unit one with position, rotation, planar base, yaw and torso each multiplied by their own scale and clipped; gripper and mode are never scaled |
| `ActionContract.CanonicalOfSerialized` | robots/robocasa/action_contract.py:95-177 | the serialized form of a command reads back as that command and serializes to itself |
| `Role1Agent.MadeToolProposalIsValid` | robots/robocasa/role1_agent.py:240-249 | whatever a tool reports, an accepted proposal is clean, frozen, seed-blind and claims no control |
| `Role1Agent.MakesToolIff` | robots/robocasa/role1_agent.py:240-249 | exactly which reports of a tool become proposals, and as which |
| `Role1Agent.ToolProposalRoundTrip` | robots/robocasa/role1_agent.py:252-285 | a tool proposal parses back from its printed form exactly when its payload is not a bare null |
| `Role1Agent.MadeCriticProposalIsValid` | robots/robocasa/role1_agent.py:298-309 | the same for critic proposals and their stricter control claims |
| `Role1Agent.MakesCriticIff` | robots/robocasa/role1_agent.py:298-309 | exactly which reports of a critic become proposals, and as which |
| `Role1Agent.CriticProposalRoundTrip` | robots/robocasa/role1_agent.py:312-349 | every critic proposal parses back from its printed form |
| `Role1Agent.MadeEventIsValid` | robots/robocasa/role1_agent.py:369-422 | an accepted event meets every rule of the event contract |
| `Role1Agent.MakesEventIff` | robots/robocasa/role1_agent.py:369-422 | exactly which arguments become an event, and as which, field by field |
| `Role1Agent.EventRoundTrip` | robots/robocasa/role1_agent.py:431-485 | an event parses back from its printed form exactly when none of its tool proposals is a bare null |
| `Role1Decisions.AcceptedIsAuthorized` | robots/robocasa/role1_agent.py:569-785 | every accepted decision, whoever wrote it, obeys the contract; its printed form is seed-blind exactly when the texts it stores are |
| `Role1Decisions.AuthorizedIsAccepted` | robots/robocasa/role1_agent.py:569-785 | completeness: every authorized decision is accepted from its printed fields, unless they leak a seed |
| `Role1Decisions.DecisionRoundTrip` | robots/robocasa/role1_agent.py:527-548 | an accepted decision re-validates to itself exactly when its cited ids, evidence, rationale and termination reason are free of forbidden text |
| `Role1Decisions.GivenTextsAreBlind` | robots/robocasa/role1_agent.py:640-654 | they always are when the model lists the proposals and gives its texts as plain scalars |
| `Role1Decisions.UncheckedIdIsNotReadBack` | robots/robocasa/role1_agent.py:640-654 | a concrete event and decision that are accepted and then refused on reading back |
| `Role1Decisions.ObjectRationaleIsNotReadBack` | robots/robocasa/role1_agent.py:743-750 | a seed-blind object given for the rationale is accepted, stored as its printed text, and refused when read back |
| `Role1Decisions.AuthorityLimits` | robots/robocasa/role1_agent.py:670-741 | what no accepted decision can do: end without terminate, carry a tool and an action, reject and continue, accept with changes, accept past a critic without a frozen alternative |
| `Role1Written.ValidatesIff` | robots/robocasa/role1_agent.py:569-785 | exact acceptance: a raw decision is accepted as a given one exactly when it is plain and seed-blind, says it field by field (aliases, defaults and inherited ids included) and the contract authorizes it |
| `Role1Written.RulesForbidExactly` | robots/robocasa/role1_agent.py:670-741 | the authority rules of the validator refuse exactly the listed combinations, and nothing else |
| `Role1Written.PrintedSaysOnly` | robots/robocasa/role1_agent.py:527-548 | a printed decision says that decision and no other |
| `Role1Store.PersistedReloads` | robots/robocasa/role1_agent.py:837-905 | what was prepared and persisted loads back as the same event, decision and digest exactly when the texts the decision stores are seed-blind and no tool payload is a bare null |
| `Role1Store.PreparesIff` | robots/robocasa/role1_agent.py:837-853 | preparation succeeds exactly for a decision the validator accepts on that event, and the artifact carries both |
| `Role1Store.LoadsIff` | robots/robocasa/role1_agent.py:871-905 | an artifact loads exactly when it is an envelope of this schema whose event parses and whose decision is accepted on it |
| `Role1Store.LoadedIsPrepared` | robots/robocasa/role1_agent.py:837-929 | what takes effect from a prepared artifact is the prepared decision, field by field |
| `Role1Store.CompleteDecisionReloads` | robots/robocasa/role1_agent.py:837-905 | with listed proposals, texts given as scalars and payloads present, loading never fails |
| `Role1Store.PublishingIsIdempotent` | zetta/evolution/jsonio.py:45-77 | publishing succeeds exactly when the name is free or holds the same content, and doing it again changes nothing |
| `Role1Store.ArtifactsAreImmutable` | zetta/evolution/jsonio.py:45-77 | no sequence of later writes changes or removes a published artifact |
| `Role1Store.ActivationIsStable` | robots/robocasa/role1_agent.py:907-929 | an activation that once succeeded gives the same effect after any later writes |
| `Role1Store.NoEffectUnlessPersisted` | robots/robocasa/role1_agent.py:907-929 | an effect always comes from a stored artifact with the reported digest |
| `Role1Store.Role1DecisionStore.Publish` | robots/robocasa/role1_agent.py:855-869 | the write-once store after one publication |
| `Role1Store.Role1DecisionStore.Decide` | robots/robocasa/role1_agent.py:1366-1381 | an effect is returned only after its decision was prepared, published and re-validated, and otherwise which of the three failed |
| `Role1Actor.PayloadFor` | robots/robocasa/role1_actor.py:404-412 | frozen parameters override what the model chose, what it chose overrides the defaults, and nothing else is passed |
| `Role1Actor.Role1EpisodeActor.InvokeTool` | robots/robocasa/role1_actor.py:404-420 | the tool gets every frozen parameter unchanged |
| `Role1Actor.WeighedReturn` | robots/robocasa/role1_actor.py:337-402 | whatever a decision lets through is the actions, termination or tool that this decision and the frozen step back |
| `Role1Actor.RequiredMeans` | robots/robocasa/role1_actor.py:138-261 | a frozen step is in force exactly when the active step names, stripped, a tool frozen into a triggered rule and has parameters, and it is that tool with those parameters |
| `Role1Actor.AllowListMeans` | robots/robocasa/role1_actor.py:248-276 | the tools offered are exactly the VLA and the frozen tool while a step is in force, and otherwise the bound tools that are not candidate-only or are frozen into a triggered rule |
| `Role1Actor.EventPresents` | robots/robocasa/role1_actor.py:280-336 | each event put to the model presents the boundary: proposal, critics, task, stage, state, images, history and tools |
| `Role1Actor.Role1EpisodeActor.DecideAction` | robots/robocasa/role1_actor.py:214-436 | at most the maximum number of decisions; each event shows the proposal made last, the critics (only at first), the task, stage, state, images and history of the boundary and exactly the tools that may be chosen; each decision is the one persisted for that event; each tool call follows from its decision; the result is backed by the last decision and every error has a true cause; an active frozen step with another tool than the VLA cannot be terminated, bypassed or answered by the VLA |
| `RecoveryControl.ActivationIgnoresOrder` | robots/robocasa/recovery_controller.py:63-120 | with distinct recovery ids the whole outcome of an activation (state, log, error) depends on the order of neither rules nor proposals |
| `RecoveryControl.ActivationMeans` | robots/robocasa/recovery_controller.py:63-120 | an activation starts, from the first step, a given rule that watches for one of the proposals and has the smallest id of all that do; it does nothing while one is active or none is concerned, and refuses rules without steps or id |
| `RecoveryControl.CompletionMeans` | robots/robocasa/recovery_controller.py:139-179 | a completion refuses, or records and advances exactly the current frozen step, to the next or, after the last, to the end |
| `RecoveryControl.RecoveryController.Activate` | robots/robocasa/recovery_controller.py:63-120 | activation installs the concerned rule of the smallest id with its refusals, leaving active work alone |
| `RecoveryControl.RecoveryController.Context` | robots/robocasa/recovery_controller.py:122-137 | there is a context exactly while active, with the current frozen step and at least one step remaining |
| `RecoveryControl.RecoveryController.CompleteCurrentStep` | robots/robocasa/recovery_controller.py:139-179 | one advance, with its three guards, keeping the invariant |
| `RecoveryControl.RecoveryController.AdvanceAfterChunk` | robots/robocasa/run_rollout.py:270-299 | an interrupted chunk advances nothing; an uninterrupted one completes the step |
| `RecoveryControl.AuditReplays` | robots/robocasa/recovery_controller.py:51-179 | over any calls the log replays to the state, completed invocations equal the step index while active, and a completed recovery advanced exactly its frozen steps in order |
| `RecoveryDriver.NamesAreInverse` | robots/libero/tool_catalog.py:40-54 | the public and the short tool name determine each other |
| `RecoveryDriver.ExecutedStep` | robots/libero/role1_recovery.py:286-357 | an executed step reports the stripped frozen tool and a real action or a verified no-op |
| `RecoveryDriver.GuardTripsIff` | robots/libero/role1_recovery.py:169-171 | the controller's guard trips on an executed step exactly when the frozen tool name carries blanks |
| `RecoveryDriver.PaddedToolTripsGuard` | robots/robocasa/recovery_controller.py:147-154 | a concrete step with a blank behind its frozen tool name is executed and then refused |
| `RecoveryDriver.StepIsFaithful` | robots/libero/role1_recovery.py:156-357 | one actor call runs the primitive exactly when its tool is allowed and exists and the model approved, and then the frozen tool with the frozen parameters, unchanged but for those a modification replaces; otherwise nothing happens |
| `RecoveryDriver.Driver.HandleRecovery` | robots/libero/run_evolution_rollout.py:706-821 | bounded actor calls, each faithful to the current frozen step and given the rows that triggered it; the log advances by exactly the executed, uninterrupted steps; the rows are those of the calls; return only when inactive, over or failed; no guard trips on stripped names |
| `ActorVisible.SanitizedIsPublic` | robots/libero/role1_recovery.py:52-63 | nothing private is reachable in what the actor shows |
| `ActorVisible.SanitizeChangesIff` | robots/libero/role1_recovery.py:52-63 | plain JSON is changed exactly when something private is reachable in it |
| `ActorVisible.SanitizeKeepsPublicPaths` | robots/libero/role1_recovery.py:52-63 | exactly the paths through no private field survive, and each leads to what it led to |
| `LiberoEnv.LiberoEnvFacade.StepEnv` | robots/libero/env_server.py:232-269 | one step of the facade, refused once the episode is done |
| `LiberoEnv.LiberoEnvFacade.PlainChunk` | robots/libero/env_server.py:362-443 | a plain chunk stops at the first terminal signal and traces every step |
| `LiberoEnv.LiberoEnvFacade.CriticChunk` | robots/libero/env_server.py:279-355 | a critic chunk, with its rule fingerprint check and optional interruption |
| `LiberoEnv.PlainChunkTells` | robots/libero/env_server.py:362-443 | a plain chunk is refused when done or empty; otherwise one reply and one row per action, with the reward, flags and features of the simulator reply to exactly that action, ending at the first terminal reply or where the worker failed |
| `LiberoEnv.CriticChunkTells` | robots/libero/env_server.py:271-355 | the same for a critic chunk, with the critic proposals on every step, its rules taken on or compared, and the end at the first terminal reply or, when interrupting, the first proposal |
| `LiberoEnv.CriticChunkIsPlainChunk` | robots/libero/env_server.py:279-443 | without interruption a critic chunk drives exactly the trajectory of the plain chunk, errors included |
| `LiberoEnv.InterruptedChunkIsPlainPrefix` | robots/libero/env_server.py:279-443 | with interruption it drives the plain trajectory of the prefix ending at the first proposing step |
| `LiberoEnv.LiberoEnvClient.Chunk` | robots/libero/env_client.py:77-133 | the client's counters move only when a call returned, by what it returned |
| `LiberoEnv.ClientMirrorsServer` | robots/libero/env_client.py:54-133 | over any failure-free calls the client mirrors the step count and done flag of the server, and is terminated or truncated exactly when some simulator step came back so |
| `LiberoEnv.AuditLedger.FlushFrom` | robots/libero/run_evolution_rollout.py:512-526 | a flush appends every new row to both ledgers and remembers the largest step |
| `LiberoEnv.AuditLedger.FlushAuditTrace` | robots/libero/run_evolution_rollout.py:490-526 | the ledgers after one flush of the server's trace |
| `LiberoEnv.LedgerIsExact` | robots/libero/run_evolution_rollout.py:490-526 | over failure-free chunk calls and flushes since a reset these are the rows of steps 1 to the last audited step, and after a flush to the step count |
| `LiberoEnv.LedgerHoldsTheTrace` | robots/libero/run_evolution_rollout.py:490-526 | over any calls, bare steps and failing calls included, and flushes, the ledgers hold exactly the traced rows up to the last audited step, once each and in order; a flush completes them and flushing again adds nothing |
| `LiberoPrimitives.Primitives.MovePose` | robots/libero/tools.py:1103-1175 | a servo move issues at most its budget of commands with one gripper value, each given short of the goal and moving and turning from where the arm is towards it, none after a terminal state, and ends early only there or at the goal |
| `LiberoPrimitives.Primitives.HoldGripper` | robots/libero/tools.py:2005-2060 | exactly the given number of gripper commands that move nothing, unless something terminal comes first |
| `LiberoPrimitives.Primitives.SweepOnce` | robots/libero/tools.py:1819-1915 | a sweep pushes along the planned tangent, in the sense left by one reversal per window of three pushes that diverged, at most three; stays in its budget, ends early only when terminal or satisfied, and reports whether the joint responded to any push |
| `LiberoPrimitives.PushMeans` | robots/libero/tools.py:1846-1880 | a push moves exactly one sweep step along the tangent, in its sense, and 2 cm or 1 mm down |
| `LiberoPrimitives.Primitives.Recontact` | robots/libero/tools.py:1935-1985 | re-contact lifts away, returns above the fixture, presses and settles, each towards the plan of its moment and none after anything terminal; at most 108 moves and the settling commands |
| `LiberoPrimitives.Primitives.SemanticJointInteract` | robots/libero/tools.py:1726-2003 | refusals without a command; otherwise a direct sweep, a recontact exactly when the joint neither responded nor is at its goal, and the rest of the sweep, with a truthful report; no command after a terminal state |
| `LiberoPrimitives.InteractedBounds` | robots/libero/tools.py:1819-2003 | any such interaction sweeps at most its steps, at most twelve of them before a recontact, reverses at most six times and at most once per three pushes, and takes at most 108 moves and the settling commands more |
| `LiberoPrimitives.WaypointsAreBounded` | robots/libero/tools.py:2227-2243 | waypoints end at the target, are at most the segment bound apart, and are as few as possible |
| `LiberoPrimitives.Primitives.Move` | robots/libero/tools.py:2206-2256 | a move servos, at the given orientation, towards its waypoints one after the other, each leg in the step budget and ended at its waypoint with nothing terminal before the next begins; it stops early only when terminal or not reached |
| `LiberoPrimitives.ReachedIsAtTargetIff` | robots/libero/tools.py:2206-2260 | a move that counts as reached is at its target exactly when it consumed all its waypoints; it does unless it is segmented and something terminal, such as a critic interruption, falls on a waypoint in between |
| `LiberoPrimitives.Primitives.Pick` | robots/libero/tools.py:2340-2454 | with the gripper open, straight up, above the grasp position and down to it, each after the one before was reached; then closing in place until retention was read often enough in a row, the budget is spent or something is terminal; why it failed, if it did |
| `LiberoPrimitives.Primitives.Transport` | robots/libero/tools.py:2455-2588 | the gripper stays closed throughout; lift, clearance, carry and lowering run in this order, each after the one before was reached with the object retained, towards the target as seen after the lift |
| `LiberoPrimitives.ReleasedWasCarried` | robots/libero/tools.py:2455-2588 | a run that releases passed both retention checks, and was at its lift and carry positions exactly as far as those moves were complete, and at its place position when that one was |
| `LiberoPrimitives.CarriedToTheTarget` | robots/libero/tools.py:2335-2588 | an object that keeps the offset it is grasped at is lifted straight up and brought to the carrying and then the placing height above the target, whether it was picked or held already |
| `LiberoPrimitives.Primitives.PrivilegedPickPlace` | robots/libero/tools.py:2062-2605 | what refuses a run, and otherwise its phases: the pick unless the object is held, the carry, and the release; the commanded gripper is open, closed, open; the last opening is at most twelve commands and only after retention was confirmed after lift and after carry; a run that releases did grasp, lift, carry and place at the planned positions, except where a segmented move was cut short |
| `ShortRelease.ReleasesShortOfTarget` | robots/libero/tools.py:2206-2605 | a concrete segmented run, interrupted between waypoints, that releases the object 0.1 short of its target |
| `GpuGate.TokensAreExclusive` | robots/robocasa/gpu_gate.py:51-85 | over any interleaving of threads and processes a token has at most one holder |
| `GpuGate.AtMostSlotsInside` | robots/robocasa/gpu_gate.py:51-85 | at most `slots` threads are inside |
| `GpuGate.TimeoutAfterFullScan` | robots/robocasa/gpu_gate.py:62-88 | a timeout follows a full scan that tried every token exactly once and found each busy |
| `GpuGate.GetsFirstFree` | robots/robocasa/gpu_gate.py:51-85 | progress: left alone with calls that succeed, a thread that scans from any state gets inside with the first token left that nobody holds, and changes nothing else |
| `GpuGate.GivesUpIfNoneFree` | robots/robocasa/gpu_gate.py:62-88 | with every token left held it can time out, having changed nothing |
| `GpuGate.ExitsFreeTheLocksIff` | robots/robocasa/gpu_gate.py:67-83 | once all threads have left, no local lock is held exactly when no token file failed to open, unlock or close, and a file lock only through a file that could not be unlocked |
| `GpuGate.LeakedTokenIsLost` | robots/robocasa/gpu_gate.py:67-83 | a leaked local lock keeps its process from that token for good |
| `GpuGate.FailedOpenLeaks` | robots/robocasa/gpu_gate.py:67-70 | a concrete run that leaks a local lock |
| `CriticHistory.FeaturesMeanTheTrace` | robots/libero/privileged_sensors.py:1145-1201 | a reading has features exactly when it has a grasp feature: flags, stage and progress are the facts of the trace up to it |
| `CriticHistory.StageIsMonotone` | robots/libero/privileged_sensors.py:1164-1176 | the stage never falls except from the success stage |
| `CriticHistory.ProgressTelescopes` | robots/libero/privileged_sensors.py:1180-1201 | reported target progress sums to the first distance minus the last, whatever gaps the readings have |
| `CriticHistory.EpisodeHistory.Observe` | robots/libero/privileged_sensors.py:1145-1201 | one reading updates the history and yields its features |
| `CriticHistory.DescendsFrom` | robots/libero/privileged_sensors.py:576-590 | the walk to the root decides exactly whether a body is at or below an ancestor, and fails exactly when it leaves the parent table first; without a table only the body itself counts |
| `SlideDishwasher.ProgressMeaning` | robots/robocasa/slide_dishwasher_program.py:153-178 | cumulative progress is the sum of all gains, the window is the last at most eight of them, and coupling holds exactly when some reading with contact had enough progress behind it |
| `SlideDishwasher.ProgressIsMonotone` | robots/robocasa/slide_dishwasher_program.py:153-178 | cumulative progress never falls, covers the net drop of the residual, and coupling is sticky |
| `SlideDishwasher.SlideDishwasherProgramState.AfterActionObserved` | robots/robocasa/slide_dishwasher_program.py:153-217 | the memory after one observation and what is proposed at a chunk boundary |
| `SlideDishwasher.ReviewMeaning` | robots/robocasa/slide_dishwasher_program.py:123-178 | over any readings since a reset, a pending command is put up for review exactly when it pulls back, enough progress lay behind some reading with contact, and the last reading stalled; the proposal carries the projection and the tool epoch |
| `SlideDishwasher.AdviceMeaning` | robots/robocasa/slide_dishwasher_program.py:153-217 | over any readings since a reset, at the end of a chunk with a coupled tool the handoff is proposed exactly when at most 4 cm remain, and stagnation exactly when not and the last six readings made less than 8 mm; nothing else is |
| `SlideDishwasher.GuardRaisesProjection` | robots/robocasa/slide_dishwasher_program.py:56-78 | the guard stays in bounds, never lowers the projection on the success axis, and reaches exactly the minimum if and only if no clip bites |
| `SlideDishwasher.GuardTerminalSuffix` | robots/robocasa/slide_dishwasher_program.py:37-78 | a suffix is guarded action by action along the normalized success direction, or refused exactly for an empty suffix, a missing or degenerate direction or an invalid action |
| `SlideDishwasher.AxisIsUnit` | robots/robocasa/slide_dishwasher_program.py:37-47 | the normalized direction has length one and points along the reading |

## Left out

- HTTP, sockets, RPC framing, thread pools, the in-flight bound of the HTTP server, subprocesses and leases: a request is a message that is sent, delivered any number of times, or lost.
- Payload digests, tokens, uuids and SHA-256 are abstract values; fresh ids and tokens are distinct by assumption of the step systems.
- Strings: stripping, `str`, lower case and the seed-blindness patterns are parameters with the laws of `Role1Text.Lawful`; Unicode and regular-expression detail is not modelled.
- Numeric text given where a number is expected in an action, and strings or mappings given where an array is expected in a proposal, are refused in the model; the code converts some of them.
- OperationProtocol.Parse: the digest function is a parameter, so canonical JSON encoding of the payload is not modelled.
- SessionCore.RoboCasaSession.Reset: covers a healthy reset only; a raising reset is an operation outcome, which the registry always treats as unknown.
- SessionCore.RoboCasaSession.ExecuteChunk: without the task program (a chunk that asks for it is refused); images, video and latency records are not modelled, and a request is already split into its fields.
- Role1Store.Role1DecisionStore.Publish: the store is a write-once map; hard links, fsync and concurrent publishers are not modelled.
- Role1Actor.Role1EpisodeActor.DecideAction: the critic proposals, task state and image references of a boundary are inputs; the audit file of each tool result is not modelled.
- RecoveryDriver.Driver.HandleRecovery: suppression of the triggering rules, heartbeats and the actor's audit files are not modelled; tool names of the frozen bundle are read as strings.
- LiberoEnv.LiberoEnvFacade.CriticChunk: feature extraction and the critic are oracles that do not raise; observations are not copied or encoded.
- LiberoPrimitives.Primitives.MovePose: `move_to` is the same servo without orientation; rounding of reported positions is not modelled, and distances are compared squared.
- LiberoPrimitives.Primitives.PrivilegedPickPlace: may go on after a critic interruption when the move was reached, as the code does; the returned dictionary is reduced to its status and the moves made with the object held.
- Exceptions of the environment RPC inside a motion primitive end it in the code; the model's steps always return.
- GpuGate.TimeoutAfterFullScan: lock operations are atomic steps of a transition system; wall-clock time is a choice of the `Deadline` step, all gates share one slot count, and threads are not killed inside `acquire`.
- SlideDishwasher.GuardTerminalSuffix: the length of the success direction is an input, required to be its square root; the program does not compute it.
- Floating-point rounding: coordinates, distances and confidences are reals.
- `move_to` with a yaw target, `rotate_wrist`, `rotate_pitch`, the graspgen and curobo tools, the VLA chunk loop and the base-assisted push: further bounded loops of the same shape.
- The temporal critic's own rules, the tool runtime, prompts, dashboards and the rollout gateway.
