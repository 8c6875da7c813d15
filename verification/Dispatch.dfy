/** The two gates that turn an eligible JobStep into a dispatched Attempt, and the
    Transfer that the non-destructive gate binds. */
module Dispatch {
  import opened Workflow

  // ---------------------------------------------------------------------
  // Destructive gate
  // ---------------------------------------------------------------------

  datatype HardwareConfidence = Consistent | LoweredConfidence | HardwareConflict

  /** The facts about the Endpoint that the destructive gate re-reads. */
  datatype GateFacts = GateFacts(
    identityEnrolled: bool,
    credentialActive: bool,
    agentPresent: bool,
    currentRevision: Option<Uuid>,
    currentFingerprint: Option<string>,
    confidence: HardwareConfidence,
    trustedBootstrapEstablished: bool)

  datatype Rejection =
    | NoSuchStep
    | NotPreconditionsSatisfied
    | StepIsDestructive
    | TransferCorrelationMismatch
    | JobIsNotRunning
    | NotCurrentStep
    | ExistingActiveAttempt
    | NoDestructiveIntent
    | IdentityNotEnrolled
    | CredentialNotActive
    | AgentNotPresent
    | StaleInventory
    | TargetMismatch
    | ConfidenceNotConsistent
    | BootstrapNotEstablished
    | TransferAlreadyBound

  /** A structural denial reverts nothing; a revalidation failure sends the step back to Pending. */
  datatype Denial = Denial(rejection: Rejection, pendingStep: Option<JobStep>)

  function Structural(rejection: Rejection): Denial {
    Denial(rejection, None)
  }

  function Revalidation(rejection: Rejection, step: JobStep): Denial {
    Denial(rejection, Some(step.(state := StepPending)))
  }

  datatype Commitment = Commitment(step: JobStep, attempt: Attempt)

  function EvaluateDestructiveDispatch(
    job: Job, stepId: Uuid, existingActive: bool, facts: GateFacts, attemptId: Uuid, actionId: Uuid)
    : Result<Commitment, Denial>
  {
    match FindStep(job.steps, stepId)
    case None => Err(Structural(NoSuchStep))
    case Some(step) =>
      if !step.state.PreconditionsSatisfied? then Err(Structural(NotPreconditionsSatisfied))
      else if !job.state.Running? then Err(Revalidation(JobIsNotRunning, step))
      else if !EarlierStepsSucceeded(job.steps, step.order) then Err(Revalidation(NotCurrentStep, step))
      else if existingActive then Err(Revalidation(ExistingActiveAttempt, step))
      else if step.intent.None? then Err(Revalidation(NoDestructiveIntent, step))
      else if !facts.identityEnrolled then Err(Revalidation(IdentityNotEnrolled, step))
      else if !facts.credentialActive then Err(Revalidation(CredentialNotActive, step))
      else if !facts.agentPresent then Err(Revalidation(AgentNotPresent, step))
      else if facts.currentRevision != Some(step.intent.value.revision) then Err(Revalidation(StaleInventory, step))
      else if facts.currentFingerprint != Some(step.intent.value.fingerprint) then Err(Revalidation(TargetMismatch, step))
      else if !facts.confidence.Consistent? then Err(Revalidation(ConfidenceNotConsistent, step))
      else if !facts.trustedBootstrapEstablished then Err(Revalidation(BootstrapNotEstablished, step))
      else Ok(Commitment(step.(state := Dispatching), Attempt(attemptId, step.id, actionId, Dispatched)))
  }

  /** The seven Endpoint preconditions of a destructive operation, stated without the gate. */
  ghost predicate DestructivePreconditions(facts: GateFacts, intent: DestructiveIntent) {
    && facts.identityEnrolled
    && facts.credentialActive
    && facts.agentPresent
    && facts.currentRevision == Some(intent.revision)
    && facts.currentFingerprint == Some(intent.fingerprint)
    && facts.confidence == Consistent
    && facts.trustedBootstrapEstablished
  }

  /** What scheduling alone demands of a candidate step, for either gate. */
  ghost predicate Schedulable(job: Job, step: JobStep, existingActive: bool) {
    && step.state.PreconditionsSatisfied?
    && job.state.Running?
    && (forall s :: s in job.steps && s.order < step.order ==> s.state.StepSucceeded?)
    && !existingActive
  }

  /** The gate opens exactly when scheduling and all seven preconditions hold of a step
      with an intent; otherwise it reverts an eligible step to Pending and nothing else. */
  lemma DestructiveGateIff(
    job: Job, stepId: Uuid, existingActive: bool, facts: GateFacts, attemptId: Uuid, actionId: Uuid)
    ensures var found := FindStep(job.steps, stepId);
            var r := EvaluateDestructiveDispatch(job, stepId, existingActive, facts, attemptId, actionId);
            && (r.Ok? <==> && found.Some?
                           && Schedulable(job, found.value, existingActive)
                           && found.value.intent.Some?
                           && DestructivePreconditions(facts, found.value.intent.value))
            && (r.Ok? ==> && r.value.step == found.value.(state := Dispatching)
                          && r.value.attempt == Attempt(attemptId, stepId, actionId, Dispatched))
            && (r.Err? ==>
                  r.error.pendingStep ==
                  if found.Some? && found.value.state.PreconditionsSatisfied?
                  then Some(found.value.(state := StepPending)) else None)
  {
  }

  // ---------------------------------------------------------------------
  // Transfers and the non-destructive gate
  // ---------------------------------------------------------------------

  datatype Transfer = Transfer(
    id: Uuid,
    endpointId: Uuid,
    jobId: Uuid,
    jobStepId: Uuid,
    artifactId: Uuid,
    chunkSize: nat,
    attemptId: Option<Uuid>)

  datatype BindingError = WrongJobStep | ConflictingRebind

  function BindAttempt(transfer: Transfer, attempt: Attempt): Result<Transfer, BindingError> {
    if attempt.jobStepId != transfer.jobStepId then Err(WrongJobStep)
    else if transfer.attemptId.Some? && transfer.attemptId.value != attempt.id then Err(ConflictingRebind)
    else Ok(transfer.(attemptId := Some(attempt.id)))
  }

  datatype TransferCommitment = TransferCommitment(step: JobStep, attempt: Attempt, transfer: Transfer)

  function EvaluateTransferDispatch(
    job: Job, stepId: Uuid, existingActive: bool, transfer: Transfer, attemptId: Uuid, actionId: Uuid)
    : Result<TransferCommitment, Denial>
  {
    match FindStep(job.steps, stepId)
    case None => Err(Structural(NoSuchStep))
    case Some(step) =>
      if !step.state.PreconditionsSatisfied? then Err(Structural(NotPreconditionsSatisfied))
      else if step.intent.Some? then Err(Structural(StepIsDestructive))
      else if transfer.jobId != job.id || transfer.jobStepId != stepId || transfer.endpointId != job.endpointId then
        Err(Structural(TransferCorrelationMismatch))
      else if !job.state.Running? then Err(Revalidation(JobIsNotRunning, step))
      else if !EarlierStepsSucceeded(job.steps, step.order) then Err(Revalidation(NotCurrentStep, step))
      else if existingActive then Err(Revalidation(ExistingActiveAttempt, step))
      else
        var attempt := Attempt(attemptId, step.id, actionId, Dispatched);
        match BindAttempt(transfer, attempt)
        case Ok(bound) => Ok(TransferCommitment(step.(state := Dispatching), attempt, bound))
        case Err(ConflictingRebind) => Err(Revalidation(TransferAlreadyBound, step))
        case Err(WrongJobStep) => Err(Structural(TransferCorrelationMismatch))
  }

  ghost predicate Correlated(transfer: Transfer, job: Job, stepId: Uuid) {
    transfer.jobId == job.id && transfer.jobStepId == stepId && transfer.endpointId == job.endpointId
  }

  /** The transfer gate opens exactly for a schedulable step without an intent and a
      correlated Transfer no other Attempt owns. */
  lemma TransferGateIff(
    job: Job, stepId: Uuid, existingActive: bool, transfer: Transfer, attemptId: Uuid, actionId: Uuid)
    ensures var found := FindStep(job.steps, stepId);
            var r := EvaluateTransferDispatch(job, stepId, existingActive, transfer, attemptId, actionId);
            && (r.Ok? <==> && found.Some?
                           && Schedulable(job, found.value, existingActive)
                           && found.value.intent.None?
                           && Correlated(transfer, job, stepId)
                           && (transfer.attemptId.None? || transfer.attemptId == Some(attemptId)))
            && (r.Ok? ==> && r.value.step == found.value.(state := Dispatching)
                          && r.value.attempt == Attempt(attemptId, stepId, actionId, Dispatched)
                          && r.value.transfer == transfer.(attemptId := Some(attemptId)))
            && (r.Err? ==>
                  r.error.pendingStep ==
                  if && found.Some? && found.value.state.PreconditionsSatisfied?
                     && found.value.intent.None? && Correlated(transfer, job, stepId)
                  then Some(found.value.(state := StepPending)) else None)
  {
  }
}
