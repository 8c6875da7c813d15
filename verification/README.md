# Bamep: a verified model

Bamep runs destructive and data-moving actions on Endpoints. A Server keeps Jobs, their
steps and the Attempts made for them; an Agent executes one action at a time; the two talk
over a network that may drop, delay, reorder and duplicate. Chunks of an Artifact travel on
a separate data plane, Endpoints authenticate with rotating credentials, and every
data-plane request carries a signed proof. The project models these parts in Dafny and proves
what every run of them keeps.

* **The action protocol.** `Workflow`, `Evidence` and `Dispatch` hold the Server's decisions
  as functions of the locked rows. `ActionAgent` holds the Agent: a class whose handlers
  update its record in place, each proved equal to a function on its state. `Protocol` puts
  one Job, the Agent and the network together as a transition system. The network is the
  set of all messages ever sent, so any of them may arrive at any time, any number of times
  or never; other Jobs that share the Agent appear as steps of the environment.
  `ServerInvariant` and `SystemInvariant` hold the inductive invariant, `ProtocolTheorems`
  what follows from it for every run, and `ProtocolProgress` which runs exist: one that
  completes any Job, one that settles an uncertain Attempt.
* **The chunked transfer.** `ChunkManifest` and `DataPlane` are the receiving side,
  `TransferSource` the source and its chunk plan, `Delivery` one request under every fate of
  a connection, `TransferAgent` the Agent's run with its loops, `TransferTheorems` what holds
  of one run and of any sequence of runs. SHA-256 is an arbitrary function `hash`; no theorem
  assumes it free of collisions unless it says so. `TransferOutcome` joins a transfer Attempt
  with its Artifact: the Server's decisions on both, in every run of an arbitrary Agent.
* **Mixed Jobs.** `MixedJob` puts the two parts together: one Job whose steps are destructive
  actions and transfers in any mix, an Agent with both participants, the network and the data
  plane. `MixedInvariant` holds the inductive invariant, `MixedTheorems` what follows for every
  run, `MixedProgress` that every mix can succeed.
* **Credentials.** `Credentials` is the chain of one Endpoint, `Endpoints` the registry with
  boot contexts and routing, `EndpointTheorems` what holds in every run of it.
* **Byte formats and time.** `Base64Url`, `WireCredential`, `Transcripts`, `Assertion` and
  `Replay`.

## What is assumed

* Each decision is one atomic step on freshly locked rows; each Agent handler is one step.
* The Agent does not lose its record of actions.
* Freshly drawn identifiers (UUIDs, lookup identifiers) were never used before.
* Message identifiers, event identifiers and time stamps of events are not modelled.

## Where the code and its documentation differ

* The replay cache's documentation says that every proof that can still pass the freshness test
  is in the cache, by construction. Freshness reads the clock in whole milliseconds and
  eviction at its full resolution, so in the last fresh millisecond, but for its first
  instant, the proof is fresh and its entry gone (`Replay.DeadlineFallsShort`). On a clock that
  never goes back a proof is approved again exactly there: `Replay.LastMillisecondReplays` and
  `Replay.ReplayWindowIff`.
* It also says that moving the clock backwards never makes a replay easier.
  `Replay.DisorderReplays` gives two runs in which readings that reach the cache out of order
  do. A clock set back is one cause; concurrent requests are another, since each reads the
  clock before it waits for its durable state. `Replay.ReplayCauses` shows that there is no
  third way, whatever else was presented in between, and `Replay.ReplayIff` says exactly when.
* A step's order is a cast of its position to 32 bits with a sign. `Workflow.WorkflowOrderIff`
  shows that positions and orders agree exactly up to 2^31 steps; runs start from such Jobs.
* A `CancelAck` that reports an action as already completed ends a Cancelling Job from any
  Attempt that has ended. `ServerInvariant.CancelAckSafeIff` shows that this is harmless
  exactly when the action is not an ended Attempt's, and `ProtocolProgress.EarlierAckIsReachable`
  that every Job of two steps can reach a state where it would not be;
  `ProtocolTheorems.OnlyActiveAttemptsChange` shows that no such report is ever sent.
* A run may be resumed with the same identity after any suspension, but once the Artifact is
  Verified or Failed, resume discovery is denied: `TransferTheorems.FinalArtifactIsSilent`.
  If the reply to the verifying seal is lost, no later run learns the result
  (`TransferTheorems.LostReplyStrands`), and the Attempt stays open until it is closed as
  Indeterminate (`TransferOutcome.LostReplyStrandsAttempt`).
* The architecture notes say that workflow success cannot precede Verified. A transfer result
  is indeed checked against the Artifact, but a status report of success is not:
  `TransferOutcome.StatusOvertakesVerification` is a run that ends Succeeded with nothing
  stored, and `TransferOutcome.SuccessIsVerifiedIff` says exactly which runs keep the promise.
* A failed or cancelled transfer Attempt never leaves its Artifact Incomplete, as promised. A
  rejected or closed one does, for good: `TransferOutcome.EndsUnfinishedIff` and
  `TransferOutcome.UnfinishedForever`.
* A transfer of 2^32 or more chunks can never be verified: `TransferTheorems.ClearRunVerifies`.

## Model

| member | source | states |
|---|---|---|
| `Workflow.WorkflowOrderIff` | crates/domain/src/job.rs:187-205 | a created workflow is ordered by position if and only if it has at most 2^31 steps; beyond that a later step sorts before the first |
| `Workflow.StepByIdentity` | crates/domain/src/action_evidence.rs:291-302 | with distinct identities, finding a step finds the one at its position and replacing it changes that position only |
| `Dispatch.DestructiveGateIff` | crates/domain/src/final_dispatch.rs:216-294 | the destructive gate opens exactly when scheduling and all seven preconditions hold of a step with an intent; every later refusal puts the step back to Pending, and nothing else |
| `Dispatch.TransferGateIff` | crates/domain/src/transfer_dispatch.rs:170-252 | the transfer gate opens exactly for a schedulable step without an intent and a correlated Transfer no other Attempt owns, and binds it |
| `ActionAgent.SimulatedActionAgent.constructor` | crates/simulator/src/action.rs:142-147 | a new Agent knows no action |
| `ActionAgent.SimulatedActionAgent.Configure` | crates/simulator/src/action.rs:155-161 | sets the scenario of one action and changes nothing else |
| `ActionAgent.SimulatedActionAgent.ConfigureCancelBehavior` | crates/simulator/src/action.rs:169-175 | sets the cancel behaviour of one action and changes nothing else |
| `ActionAgent.SimulatedActionAgent.HandleDispatch` | crates/simulator/src/action.rs:195-277 | new record and messages of a dispatch, first or repeated, equal the specification the protocol runs on |
| `ActionAgent.SimulatedActionAgent.RejectAndRecord` | crates/simulator/src/action.rs:431-447 | a refusal is recorded with its content and answered with its code |
| `ActionAgent.SimulatedActionAgent.RunConfiguredScenario` | crates/simulator/src/action.rs:278-335 | an active action runs to exactly its progress ticks and one result; any other action does not run |
| `ActionAgent.SimulatedActionAgent.HandleCancel` | crates/simulator/src/action.rs:349-400 | record and acknowledgement of a cancellation in every local state |
| `ActionAgent.SimulatedActionAgent.HandleStatusQuery` | crates/simulator/src/action.rs:414-429 | the report says what the record says; a rejected action is reported as unknown |
| `ServerInvariant.ReceiveKeeps` | crates/domain/src/action_evidence.rs:96-289 | applying evidence keeps steps, Attempts, Job state, event log and releases in agreement, unless it reports an earlier action of a Cancelling Job as already completed, which `ServerInvariant.EvidenceSafeIff` decides |
| `ServerInvariant.EvidenceSafeIff` | crates/domain/src/cancellation.rs:165-245 | evidence of any kind keeps the invariant if and only if it is not an already-completed report about an ended Attempt of a Cancelling Job |
| `ServerInvariant.CancelAckSafeIff` | crates/domain/src/cancellation.rs:165-245 | a cancel acknowledgement keeps the invariant if and only if it is not an already-completed report about an ended Attempt of a Cancelling Job |
| `ServerInvariant.EarlierAckAbandons` | crates/domain/src/cancellation.rs:195-221 | such a report ends the Job while its current Attempt is still active |
| `ServerInvariant.CancelEffect` | crates/domain/src/cancellation.rs:79-131 | cancelling a running Job asks exactly its active Attempt to stop, or ends the Job at once when there is none |
| `ServerInvariant.CancelKeeps` | crates/domain/src/cancellation.rs:79-131 | cancelling keeps the invariant, in any Job state |
| `ServerInvariant.CloseKeeps` | crates/domain/src/reconciliation.rs:365-432 | the operator's closure keeps the invariant, whether it applies or not |
| `ServerInvariant.UncertainKeeps` | crates/domain/src/reconciliation.rs:52-62 | losing sight of any set of Attempts keeps the invariant |
| `ServerInvariant.AdmitKeeps` | crates/domain/src/job.rs:274-292 | admission keeps the invariant |
| `ServerInvariant.IntentIff` | crates/domain/src/job.rs:223-242 | an intent is recorded exactly for a pending step of the named Job that has none |
| `ServerInvariant.AuthorizeIntentKeeps` | crates/domain/src/job.rs:223-242 | recording a destructive intent keeps the invariant |
| `ServerInvariant.CurrentStep` | crates/domain/src/job.rs:319-344 | the only step that passes the eligibility check is the one after the last Attempt |
| `ServerInvariant.EligibleIff` | crates/domain/src/job.rs:319-344 | eligibility is granted if and only if the Job is running and the step is the pending one after a row of successes |
| `ServerInvariant.SatisfyKeeps` | crates/domain/src/job.rs:319-344 | marking a step eligible keeps the invariant |
| `ServerInvariant.DestructiveKeeps` | crates/domain/src/final_dispatch.rs:216-294 | the destructive gate, open or closed, keeps the invariant |
| `ServerInvariant.TransferKeeps` | crates/domain/src/transfer_dispatch.rs:170-252 | the transfer gate, open or closed, keeps the invariant, including that no Transfer is bound twice |
| `SystemInvariant.DecisionAgrees` | crates/domain/src/reconciliation.rs:116-170 | evidence the Agent really gave moves an Attempt to a state that agrees with the Agent's record |
| `SystemInvariant.NextKeeps` | crates/server/src/ports.rs:780-789 | every step of Server, Agent, network and environment keeps the whole invariant and rewrites nothing that is final |
| `SystemInvariant.RunKeeps` | crates/server/src/ports.rs:780-789 | so does every run |
| `ProtocolTheorems.WorkflowShape` | crates/domain/src/job.rs:187-344 | in every run the steps are a Succeeded prefix, at most one other step, then Pending steps; an active Attempt exists exactly when that step is Dispatching; Cancelling implies one |
| `ProtocolTheorems.Agreement` | crates/simulator/src/action.rs:195-429 | no action runs twice; an Attempt that succeeded, failed, was cancelled or rejected matches the Agent's one final record, now and ever after; cancelled and rejected actions never run |
| `ProtocolTheorems.EvidenceSettles` | crates/domain/src/action_evidence.rs:96-158 | in every run a sent message ends an active Attempt if and only if it is conclusive; the Attempt then ends as the Agent's record says, and the Job goes on, succeeds, fails or is cancelled accordingly |
| `ProtocolTheorems.EndedJobsStay` | crates/domain/src/action_evidence.rs:237-289 | once a Job has ended, no later step changes its state, Attempts, log or releases |
| `ProtocolTheorems.ReleasedOnce` | crates/domain/src/action_evidence.rs:53-58 | the reservation of every ended Attempt is released exactly once, and of no other |
| `ProtocolTheorems.OnlyActiveAttemptsChange` | crates/domain/src/cancellation.rs:195-221 | no message that was ever sent changes an ended Attempt, so completing a cancellation from one never happens |
| `ProtocolTheorems.RowsDetermineLog` | crates/domain/src/action_evidence.rs:169-289 | the log holds every event exactly as often as the rows say: one start, one matching end, one failure per failed step, one closure per indeterminate Attempt |
| `ProtocolTheorems.DispatchedOnce` | crates/domain/src/final_dispatch.rs:216-294 | steps are dispatched in order, each at most once, through the gate their intent calls for |
| `ProtocolTheorems.NothingIsRewritten` | crates/domain/src/transfer.rs:182-196 | intents, bound Transfers, payloads, ended Attempts and events are final from the moment they are set |
| `ProtocolTheorems.LostRejection` | crates/simulator/src/action.rs:414-429 | an uncertain Attempt whose action the Agent rejected, or has yet to see and can only reject, is moved by no run that does not close it |
| `ProtocolTheorems.ClosureEnds` | crates/domain/src/reconciliation.rs:365-432 | closure ends it as Indeterminate, and the Job as Failed or Cancelled |
| `ProtocolTheorems.CanAlwaysEnd` | crates/domain/src/cancellation.rs:79-131 | from every reachable state the operator can end the Job without hearing from the Agent |
| `ProtocolProgress.EveryWorkflowCanSucceed` | crates/domain/src/action_evidence.rs:237-289 | from every new Job there is a run that authorizes, dispatches, executes and reports each step and ends the Job Succeeded |
| `ProtocolProgress.SettlesIff` | crates/domain/src/reconciliation.rs:116-170 | in every reachable state an uncertain Attempt can still be ended by evidence if and only if the Agent has not rejected its action and, not having seen it, would not refuse its payload |
| `ProtocolProgress.EarlierAckIsReachable` | crates/domain/src/cancellation.rs:195-221 | every Job of two or more steps has a run to a Cancelling state with an ended first Attempt, where a completion report about it would end the Job under its running Attempt |
| `ProtocolProgress.LostRejectionIsReachable` | crates/simulator/src/action.rs:414-447 | every Job has a run to an uncertain first Attempt whose action the Agent has rejected |
| `ChunkManifest.Pigeonhole` | crates/domain/src/chunk_manifest.rs:325-332 | n recorded indices that miss none below n are exactly 0..n |
| `ChunkManifest.SealIff` | crates/domain/src/chunk_manifest.rs:310-341 | an open manifest can be sealed with a count if and only if its indices are exactly 0..count |
| `ChunkManifest.CallsKeep` | crates/domain/src/chunk_manifest.rs:244-341 | over any calls identities only grow and keep their first value, a sealed manifest is contiguous, and sealing is final |
| `ChunkManifest.FirstOfferWins` | crates/domain/src/chunk_manifest.rs:244-277 | an open manifest holds for each index what it had, or else the first valid offer |
| `ChunkManifest.OrderDoesNotMatter` | crates/domain/src/chunk_manifest.rs:244-277 | conflict-free calls give the same manifest in any order and with any repetition |
| `DataPlane.PutKeeps` | crates/server/src/application/mod.rs:3241-3355 | an upload keeps held chunks, identities and stored bytes consistent and only ever adds to them |
| `DataPlane.SealKeeps` | crates/server/src/application/mod.rs:3415-3647 | a seal keeps the store consistent; Verified means the stored chunks hash to the declared digest, Failed that they do not |
| `DataPlane.GateMatchesManifest` | crates/domain/src/transfer_authorization.rs:695-721 | while Incomplete the gate denies an upload exactly when recording it would be refused as not continuable |
| `DataPlane.PendingDeniesNothing` | crates/domain/src/transfer_authorization.rs:695-721 | the uploads denied while verification is pending could not have changed manifest or held set |
| `DataPlane.VerifiedMeans` | crates/domain/src/artifact.rs:118-165 | a Verified Artifact is sealed over exactly 0..chunk_count and every index is held with bytes of its recorded digest |
| `TransferSource.InMemoryIsFaithful` | crates/simulator/src/transfer_source.rs:98-110 | for every length and chunk size the chunks are well sized and together give the bytes back |
| `TransferSource.MutateChunk` | crates/simulator/src/transfer_source.rs:81-90 | overwrites exactly the bytes of one chunk, in place |
| `TransferSource.ChangedDiffers` | crates/simulator/src/transfer_source.rs:81-90 | the overwriting changes every byte |
| `TransferSource.MutationIsLocal` | crates/simulator/src/transfer_source.rs:81-110 | so a mutation changes its own chunk, if there is one, and no other |
| `TransferSource.BuildChunkPlan` | crates/simulator/src/transfer_action.rs:810-838 | yields the digest and size of every chunk and the digest of the whole, or the first ill-sized chunk |
| `TransferSource.CompleteIff` | crates/simulator/src/transfer_action.rs:631-640 | held bytes equal the source length exactly when every chunk is held |
| `Delivery.PutOverFaithful` | crates/simulator/src/data_plane.rs:104-130 | an upload over any connection keeps a store that only saw this source, and with the true bytes it is never contradicted |
| `Delivery.SealFaithful` | crates/worker/src/storage/full_artifact.rs:184-245 | once all chunks are held the seal is denied or verified; an uncorrupted store cannot fail verification |
| `TransferAgent.ReconcileHeld` | crates/simulator/src/transfer_action.rs:616-630 | accepts what the Server holds exactly when the source still reproduces all of it |
| `TransferAgent.UploadNext` | crates/simulator/src/transfer_action.rs:643-713 | one turn of the upload loop skips a held chunk, or sends it and moves held set, progress and outcome as specified |
| `TransferAgent.UploadMissing` | crates/simulator/src/transfer_action.rs:641-714 | the upload loop computes what its specification says, for every network |
| `TransferAgent.Run` | crates/simulator/src/transfer_action.rs:548-753 | a whole run computes what its specification says, for every source, option and network |
| `TransferTheorems.RunNeverRewrites` | crates/simulator/src/transfer_action.rs:548-753 | no run of any source rewrites a recorded identity or stored bytes, or reopens a sealed manifest or final Artifact |
| `TransferTheorems.RunsAgree` | crates/simulator/src/transfer_action.rs:548-753 | over an unchanged source and without corruption a run never fails a chunk or the Artifact, and is abandoned only after a garbled reply or an ended Attempt |
| `TransferTheorems.VerifiedRun` | crates/simulator/src/transfer_action.rs:716-752 | a run reports Verified only if the Server committed it and the stored chunks hash to the digest of the source |
| `TransferTheorems.VerifiedIsTheSource` | crates/simulator/src/transfer_action.rs:548-753 | without corruption the held chunks then are the source itself, whatever the hash function |
| `TransferTheorems.VerifiedUnlessCollision` | crates/simulator/src/transfer_action.rs:847-853 | with corruption allowed the same holds of a source without a second preimage |
| `TransferTheorems.ProgressIsHeld` | crates/simulator/src/transfer_action.rs:631-714 | progress only grows, is always the size of the held chunks, and is the source length exactly when all are held; the hook fires only after a new chunk and before the last |
| `TransferTheorems.MutationIsCaught` | crates/simulator/src/transfer_action.rs:616-630 | a source that no longer reproduces a held chunk fails closed and changes nothing |
| `TransferTheorems.FinalArtifactIsSilent` | crates/domain/src/transfer_authorization.rs:695-721 | after Verified or Failed every run changes nothing and ends without a result |
| `TransferTheorems.FinalForever` | crates/domain/src/transfer_authorization.rs:695-721 | so does every sequence of later runs, over any networks and with any options |
| `TransferTheorems.LostSealReply` | crates/simulator/src/transfer_action.rs:716-752 | a run whose requests all get through but for the reply to its seal suspends with every byte held and leaves the Artifact Verified |
| `TransferTheorems.LostReplyStrands` | crates/simulator/src/transfer_action.rs:716-752 | no run after it reports a verified transfer or changes anything |
| `TransferTheorems.ClearRunVerifies` | crates/server/src/application/mod.rs:3497-3502 | on a clear connection a run is verified if and only if the Artifact is not final and has fewer than 2^32 chunks; otherwise it suspends and leaves it as unfinished or final as before |
| `TransferTheorems.SessionsAgree` | crates/simulator/src/transfer_action.rs:548-753 | any sequence of suspended and resumed runs agrees with the source, and every interrupted run adds a chunk, whatever is corrupted; an uncorrupted run fails no chunk, and without any corruption the Artifact does not fail either |
| `TransferTheorems.TransferDelivers` | crates/simulator/src/transfer_action.rs:548-753 | from a new transfer any sequence of runs is interrupted by its hook at most chunk_count - 1 times; without corruption it never fails verification, and the Server holds the bytes whenever it is Verified |
| `TransferTheorems.VerifiedInEveryHistory` | crates/domain/src/artifact.rs:118-165 | after any runs of any sources a Verified Artifact is sealed over exactly 0..chunk_count, each index held with bytes of its recorded digest, all together of the sealed digest |
| `TransferOutcome.ReportIff` | crates/server/src/application/mod.rs:1649-2004 | a report about a transfer does to the workflow exactly what it would do about any action, except that a result the Artifact does not bear out does nothing; the Artifact is given up exactly when an unfinished one's Attempt fails or is cancelled |
| `TransferOutcome.NextKeeps` | crates/server/src/application/mod.rs:1387-2004 | whatever the Agent sends, every step keeps the binding and the store consistent, seals nothing before the action was accepted, leaves no failed or cancelled Attempt with an Incomplete Artifact, and rewrites nothing that is final |
| `TransferOutcome.RunKeeps` | crates/server/src/application/mod.rs:1387-2004 | so does every run |
| `TransferOutcome.SuccessIsVerifiedIff` | crates/server/src/adapters/agent_gateway.rs:855-973 | through a whole run the Attempt is Succeeded only with a Verified Artifact if and only if no status report of success reaches it, uncertain, while the Artifact is not Verified |
| `TransferOutcome.StatusOvertakesVerification` | crates/server/src/adapters/agent_gateway.rs:926-941 | from any dispatched transfer, a lost connection and such a report end it Succeeded with an Incomplete Artifact and nothing stored |
| `TransferOutcome.FailureSettlesArtifact` | crates/server/src/application/mod.rs:1688-1713 | in every run from dispatch, an Attempt that failed or was cancelled has no Incomplete Artifact |
| `TransferOutcome.EndsUnfinishedIff` | crates/server/src/application/mod.rs:1762-2004 | a step that ends an Attempt leaves an Incomplete Artifact so if and only if it rejects, closes or believes a status report of success |
| `TransferOutcome.UnfinishedForever` | crates/server/src/application/mod.rs:4146-4152 | such an Artifact is never continued or given up afterwards |
| `TransferOutcome.SuccessDelivers` | crates/server/src/application/mod.rs:1649-1713 | end to end: a transfer Attempt of uncorrupted runs over one source that succeeds, other than by such a report, has delivered its bytes |
| `TransferOutcome.TransferCanSucceed` | crates/server/src/application/mod.rs:1649-1713 | and it can: accepted, run once on a clear connection and reported, the Attempt of any bytes in fewer than 2^32 chunks ends Succeeded with the bytes Verified |
| `TransferOutcome.VerifiedEndsIff` | crates/server/src/application/mod.rs:1688-1713 | with a Verified Artifact an open Attempt is ended exactly by its own verified result, its closure, an acknowledged cancellation or a conclusive status report |
| `TransferOutcome.Stranded` | crates/simulator/src/transfer_action.rs:458-753 | once the Artifact is Verified without a verified result under way, no Agent ends the Attempt whose results are those of its runs and whose other reports are inconclusive, as the transfer Agent's are |
| `TransferOutcome.LostReplyStrandsAttempt` | crates/simulator/src/transfer_action.rs:716-752 | from dispatch, a run that loses the reply to its verifying seal leaves the Attempt open through everything the transfer Agent does until it is closed |
| `TransferOutcome.ClosureEndsStranded` | crates/server/src/application/mod.rs:2525-2593 | closing it ends it as Indeterminate, and the Job as failed or cancelled, although the Artifact is Verified |
| `MixedJob.ParseCode` | crates/server/src/application/mod.rs:190-231 | a result code is read as a result exactly when it is that result's printed code |
| `MixedInvariant.AcceptParts` | crates/simulator/src/transfer_action.rs:472-533 | the transfer participant answers a dispatch, first or repeated, without ever contradicting itself or touching a destructive action |
| `MixedInvariant.ReceiveMixed` | crates/server/src/adapters/agent_gateway.rs:614-973 | evidence, routed by whether a Transfer is bound to its Attempt, keeps rows, records, messages and Artifacts in agreement |
| `MixedInvariant.MixedNextKeeps` | crates/server/src/adapters/agent_gateway.rs:614-973 | so does every step of the Server, both participants, the network and the data plane, and it rewrites nothing that is final |
| `MixedInvariant.MixedRunKeeps` | crates/server/src/adapters/agent_gateway.rs:614-973 | and every run |
| `MixedTheorems.MixedShape` | crates/domain/src/job.rs:187-344 | in every run of a mixed Job the steps keep the shape of `ProtocolTheorems.WorkflowShape` |
| `MixedTheorems.MixedAgreement` | crates/simulator/src/transfer_action.rs:458-753 | now and ever after, a destructive Attempt agrees with the Agent's one record of its action, and a transfer Attempt with its Artifact: Succeeded only with the bytes of its source Verified, Failed only with a failing result and no Incomplete Artifact, never rejected or cancelled |
| `MixedTheorems.SucceededMeansDone` | crates/domain/src/action_evidence.rs:237-289 | a Job that succeeds has run every destructive action exactly once, with success, and holds the bytes of every transfer |
| `MixedProgress.EveryMixCanSucceed` | crates/domain/src/transfer_dispatch.rs:170-252 | whichever steps are to destroy and whichever to move which bytes, there is a run in which each does so and the Job succeeds |
| `Credentials.ActiveIff` | crates/domain/src/credential.rs:189-200 | a chain counts as active exactly while some credential would still be accepted |
| `Credentials.NoLockOut` | crates/domain/src/credential.rs:279-331 | after any reconnects, with any replies lost, what the Agent holds is accepted exactly until its own expiry unless revoked |
| `Credentials.LostRepliesChangeNothing` | crates/domain/src/credential.rs:279-331 | while replies are lost the same slot with the same expiry answers for the Agent's credential |
| `EndpointTheorems.NextKeeps` | crates/server/src/adapters/postgres/credential_redemption_repository.rs:66-200 | every issue, redemption, revocation and evidence step keeps chains, lookups, contexts and history in agreement |
| `EndpointTheorems.FirstRedemptionIff` | crates/domain/src/transitions.rs:119-300 | an enrollment credential on an unresolved context is redeemed exactly with the right secret, before the context expires, and unless it belongs to a revoked Endpoint |
| `EndpointTheorems.ReconnectRecovers` | crates/domain/src/transitions.rs:119-219 | the credential last authenticated with, and the one issued for it, are accepted again exactly until their own expiry unless revoked; the boot context's expiry plays no part |
| `EndpointTheorems.RedemptionRetires` | crates/domain/src/credential.rs:296-328 | a successful redemption retires every credential of the old chain but the presented one |
| `EndpointTheorems.NoResurrection` | crates/domain/src/credential.rs:279-331 | a retired credential never authenticates again, in any run |
| `EndpointTheorems.RevocationIsFinal` | crates/domain/src/transitions.rs:260-290 | in every later state no presented credential, at any time, authenticates as a revoked Endpoint; its chain stays as it was, through rotation or reboot |
| `EndpointTheorems.ContextsEstablishOnce` | crates/domain/src/boot_context.rs:160-169 | each boot context establishes at most one chain, and one exactly when it is resolved |
| `EndpointTheorems.EvidenceIff` | crates/domain/src/transitions.rs:68-86 | evidence establishes trust exactly when its nonce is the current boot's |
| `EndpointTheorems.TrustNeedsEvidence` | crates/domain/src/transitions.rs:68-86 | trusted bootstrap is established exactly when evidence with the current nonce was accepted since the last boot |
| `Base64Url.DecodeIff` | crates/domain/src/chunk_manifest.rs:79-104 | a text decodes to bytes if and only if it is their encoding |
| `Base64Url.EncodeLength` | crates/domain/src/transfer_authorization.rs:243-245 | an encoding of n bytes has (4n + 2) / 3 characters |
| `Base64Url.EncodeAlphabet` | crates/domain/src/transfer_authorization.rs:131-133 | an encoding stays in the canonical alphabet and never contains a dot |
| `Base64Url.WireLengths` | crates/trusted-bootstrap/src/assertion.rs:12-28 | 16, 32, 64 and 197 bytes take 22, 43, 86 and 263 characters |
| `Base64Url.ParseWireIff` | crates/domain/src/transfer_authorization.rs:217-235 | the strict parsers accept exactly the printed values, and their last two checks cannot fail |
| `Base64Url.ParseDigestIff` | crates/domain/src/chunk_manifest.rs:92-104 | a digest parses if and only if it is printed canonically |
| `WireCredential.SplitJoin` | crates/domain/src/presented_credential.rs:294-300 | splitting undoes joining for parts without a dot |
| `WireCredential.ParseIff` | crates/domain/src/presented_credential.rs:281-315 | a wire value parses to a credential if and only if it is its printed form |
| `WireCredential.ToWireIsInjective` | crates/domain/src/presented_credential.rs:281-288 | different credentials print differently |
| `Transcripts.ServerProofTranscript` | crates/domain/src/transfer_authorization.rs:489-523 | the Server's builder writes exactly the 137-byte transcript |
| `Transcripts.AgentProofTranscript` | crates/simulator/src/transfer_authorization.rs:411-443 | the Agent's builder writes the same bytes |
| `Transcripts.TranscriptIsInjective` | crates/domain/src/transfer_authorization.rs:489-523 | equal transcripts come from equal capability and request fields |
| `Assertion.BuildTranscriptV1` | crates/trusted-bootstrap/src/assertion.rs:152-165 | fields copied to fixed offsets make the 133-byte transcript |
| `Assertion.FromSignedTranscript` | crates/trusted-bootstrap/src/assertion.rs:138-146 | an assertion is transcript and signature, 197 bytes |
| `Assertion.HeaderIff` | crates/trusted-bootstrap/src/assertion.rs:83-96 | the header check accepts exactly the V1 header |
| `Assertion.ParseCarrierIff` | crates/trusted-bootstrap/src/assertion.rs:62-81 | a carrier is accepted if and only if it encodes a V1 transcript with a signature, whose fields the accessors return |
| `Replay.ReplayCache.constructor` | crates/server/src/runtime/replay_cache.rs:119-124 | a cache holds at least one entry |
| `Replay.ReplayCache.TryInsert` | crates/server/src/runtime/replay_cache.rs:148-168 | evicts, checks and inserts as specified and never exceeds its capacity |
| `Replay.DeadlineFallsShort` | crates/domain/src/transfer_authorization.rs:734-772 | a proof is fresh until 999999 ns past its cache deadline, the deadline is at most 150000 ms after acceptance, and exactly the instants in between are fresh but uncovered |
| `Replay.NoReplay` | crates/server/src/runtime/replay_cache.rs:148-168 | under readings that never go back no proof is approved twice outside those instants, whatever else is presented |
| `Replay.ReplayWindowIff` | crates/server/src/runtime/replay_cache.rs:148-168 | under such readings an approved proof is approved again if and only if the instant is uncovered and the cache has room |
| `Replay.LastMillisecondReplays` | crates/server/src/application/mod.rs:4062-4205 | a concrete proof approved at 0 and again at 120000.5 ms, with nothing in between |
| `Replay.ApprovalsHaveALast` | crates/server/src/runtime/replay_cache.rs:148-168 | every run that approves an identifier has a last request that did, so the next row leaves no run out |
| `Replay.ReplayIff` | crates/server/src/runtime/replay_cache.rs:148-168 | in any order of readings and after any run, a proof whose identifier was approved before is approved again exactly when it is fresh, the cache has room, and it or a fresh request since the last approval was served past that approval's deadline |
| `Replay.OrderedReplayIff` | crates/server/src/runtime/replay_cache.rs:148-168 | when readings do not go back, exactly when it is fresh, past the deadline of the last approval, and the cache has room, also among several proofs under one identifier |
| `Replay.ReplayCauses` | crates/server/src/runtime/replay_cache.rs:148-168 | whatever is presented in between, a second approval is at an uncovered instant, or a fresh request past the deadline reached the cache before this reading from behind it |
| `Replay.DisorderReplays` | crates/server/src/runtime/replay_cache.rs:23-38 | two concrete runs in which a proof is approved twice after readings came out of order, one of them with a refused replay in between |

## Left out

- PostgreSQL adapters, lock order and asynchronous traits: a decision is one atomic step here.
- TLS, WebSocket, HTTP and handshake plumbing, JSON encoding, process control and the web client.
- Ed25519, SHA-256 and random generation: an arbitrary function, and identifiers assumed fresh.
- Loss of the Agent's record of actions: agreement and at-most-once execution do not hold without it.
- The Agent's run releases its lock between reading and writing its record: claims are for one handler at a time.
- The one-active-Job rule per Endpoint, enforced by a database constraint.
- Identity approval and retirement, inventory revisions and hardware confidence: they only appear as facts the destructive gate reads.
- The text form of identifiers in a transfer's parameters: they are numbers in `MixedJob`, and the schema is otherwise checked field by field.
- In `MixedJob` the transfer participant always reads one unchanged source and corrupts nothing; changed sources and corruption are covered by `TransferTheorems` and `TransferOutcome`.
- In `TransferOutcome` the rest of the Job is free to change at any time; cancellation requests and later steps are such changes.
- The moment a Worker finalizes a body relative to the end of the Attempt: in `TransferOutcome` it counts as finalized when its request was authorized.
- Answers of the transfer participant to cancellations and status queries: it has none in this repository. In `MixedJob` such messages are answered by the other participant, which does not know the action.
- The identity guards at the start of a transfer run: caller errors that end it before any request.
- The wire form of digests inside the transfer model: digests travel as bytes there, and `Base64Url.ParseDigestIff` covers the form.
- The check that the 32 bytes of a proof key are a point of its curve: `Base64Url.ParseWireIff` is about the text of a key.
- Conversion of a replay deadline to a calendar instant, which saturates far outside any real clock.
- Timing of the Worker's batch mode and its instrumentation.
- The deterministic pattern generator for test sources.
