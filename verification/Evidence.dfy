/** What the Server decides on evidence about one dispatched Attempt: normal action
    evidence, cancellation, status reports and the operator's closure. Every decision
    is a function of the freshly locked Job, JobStep and Attempt. */
module Evidence {
  import opened Workflow

  /** The durable result of one decision. `terminal` tells the caller to release the
      Attempt's reservation. */
  datatype Applied = Applied(
    attempt: Attempt,
    step: JobStep,
    job: Job,
    events: seq<DomainEvent>,
    terminal: bool)

  datatype Outcome = Apply(applied: Applied) | NoOp | Conflict

  /** The Attempt moves, everything else stays. */
  function Advance(job: Job, step: JobStep, attempt: Attempt, state: AttemptState): Applied {
    Applied(attempt.(state := state), step, job, [], false)
  }

  // ---------------------------------------------------------------------
  // Terminal consequences
  // ---------------------------------------------------------------------

  predicate EveryStepSucceeded(steps: seq<JobStep>) {
    forall s :: s in steps ==> s.state.StepSucceeded?
  }

  function TerminalSuccess(job: Job, step: JobStep, attempt: Attempt): Applied {
    var succeeded := step.(state := StepSucceeded);
    var steps := ReplaceStep(job.steps, succeeded);
    var (state, events) :=
      if job.state.Cancelling? then
        (Cancelled, [JobCancelled(job.id, job.endpointId)])
      else if EveryStepSucceeded(steps) then
        (Succeeded, [JobSucceeded(job.id, job.endpointId)])
      else
        (Running, []);
    Applied(attempt.(state := AttemptSucceeded), succeeded,
            job.(state := state, steps := steps), events, true)
  }

  /** How a Job ends when its current step ends without success. */
  function EndWithoutSuccess(job: Job, step: JobStep): (Job, DomainEvent) {
    var ended := job.(steps := ReplaceStep(job.steps, step));
    if job.state.Cancelling? then
      (ended.(state := Cancelled), JobCancelled(job.id, job.endpointId))
    else
      (ended.(state := Failed), JobFailed(job.id, job.endpointId))
  }

  function TerminalFailure(
    job: Job, step: JobStep, attempt: Attempt, state: AttemptState, reason: FailureReason): Applied
  {
    var failed := step.(state := StepFailed, failureReason := Some(reason));
    var (ended, event) := EndWithoutSuccess(job, failed);
    Applied(attempt.(state := state), failed, ended,
            [JobStepFailed(job.id, job.endpointId, failed.id), event], true)
  }

  function CancelTerminal(job: Job, step: JobStep, attempt: Attempt): Applied {
    var cancelled := step.(state := StepCancelled);
    Applied(attempt.(state := AttemptCancelled), cancelled,
            job.(state := Cancelled, steps := ReplaceStep(job.steps, cancelled)),
            [JobCancelled(job.id, job.endpointId)], true)
  }

  /** Ends a Cancelling Job from an Attempt that had already ended on its own. */
  function CompleteCancellationNow(job: Job, step: JobStep, attempt: Attempt): Applied {
    Applied(attempt, step, job.(state := Cancelled), [JobCancelled(job.id, job.endpointId)], true)
  }

  // ---------------------------------------------------------------------
  // Normal action evidence
  // ---------------------------------------------------------------------

  datatype ActionEvidence = AckAccepted | AckRejected | ResultSucceeded | ResultFailed

  function ApplyActionEvidence(job: Job, step: JobStep, attempt: Attempt, evidence: ActionEvidence): Outcome {
    match evidence
    case AckAccepted =>
      if attempt.state.Dispatched? then Apply(Advance(job, step, attempt, InProgress)) else NoOp
    case AckRejected =>
      (match attempt.state
       case Dispatched => Apply(TerminalFailure(job, step, attempt, Rejected, DispatchRejected))
       case Rejected => NoOp
       case _ => Conflict)
    case ResultSucceeded =>
      (match attempt.state
       case Dispatched | InProgress => Apply(TerminalSuccess(job, step, attempt))
       case AttemptSucceeded => NoOp
       case _ => Conflict)
    case ResultFailed =>
      (match attempt.state
       case Dispatched | InProgress => Apply(TerminalFailure(job, step, attempt, AttemptFailed, ExecutionFailed))
       case AttemptFailed => NoOp
       case _ => Conflict)
  }

  // ---------------------------------------------------------------------
  // Cancellation
  // ---------------------------------------------------------------------

  datatype CancellationRequest =
    | EnteredCancelling(job: Job, attemptId: Uuid, actionId: Uuid)
    | CompletedImmediately(job: Job, event: DomainEvent)
    | AlreadyCancelling
    | AlreadyTerminal

  datatype CancellationError = CancellationNotEligible

  function RequestCancellation(job: Job, active: Option<Attempt>): Result<CancellationRequest, CancellationError> {
    match job.state
    case Running =>
      (match active
       case Some(attempt) => Ok(EnteredCancelling(job.(state := Cancelling), attempt.id, attempt.actionId))
       case None => Ok(CompletedImmediately(job.(state := Cancelled), JobCancelled(job.id, job.endpointId))))
    case Cancelling => Ok(AlreadyCancelling)
    case Succeeded | Failed | Cancelled => Ok(AlreadyTerminal)
    case Pending => Err(CancellationNotEligible)
  }

  datatype CancelAckEvidence = AckCancelled | AckAlreadyCompleted | AckCannotCancel | AckUnknown

  function ApplyCancelAck(job: Job, step: JobStep, attempt: Attempt, evidence: CancelAckEvidence): Outcome {
    if !job.state.Cancelling? then NoOp
    else match evidence
      case AckCancelled =>
        if Active(attempt.state) then Apply(CancelTerminal(job, step, attempt)) else NoOp
      case AckAlreadyCompleted =>
        (match attempt.state
         case Dispatched | InProgress => Apply(Advance(job, step, attempt, AwaitingReconciliation))
         case AwaitingReconciliation => NoOp
         case _ => Apply(CompleteCancellationNow(job, step, attempt)))
      case AckCannotCancel => NoOp
      case AckUnknown =>
        (match attempt.state
         case Dispatched | InProgress => Apply(Advance(job, step, attempt, AwaitingReconciliation))
         case _ => NoOp)
  }

  // ---------------------------------------------------------------------
  // Reconciliation
  // ---------------------------------------------------------------------

  function MarkAwaitingReconciliation(attempt: Attempt): Option<Attempt> {
    match attempt.state
    case Dispatched | InProgress => Some(attempt.(state := AwaitingReconciliation))
    case _ => None
  }

  datatype StatusEvidence =
    | StatusAccepted
    | StatusRunning
    | StatusSucceeded
    | StatusFailed
    | StatusCancelled
    | StatusUnknown

  function ApplyStatusReport(job: Job, step: JobStep, attempt: Attempt, evidence: StatusEvidence): Outcome {
    if !attempt.state.AwaitingReconciliation? then NoOp
    else match evidence
      case StatusAccepted | StatusRunning => Apply(Advance(job, step, attempt, InProgress))
      case StatusSucceeded => Apply(TerminalSuccess(job, step, attempt))
      case StatusFailed => Apply(TerminalFailure(job, step, attempt, AttemptFailed, ExecutionFailed))
      case StatusCancelled =>
        if job.state.Cancelling? then Apply(CancelTerminal(job, step, attempt)) else NoOp
      case StatusUnknown => NoOp
  }

  datatype CloseOutcome = Closed(applied: Applied) | AlreadyIndeterminate | CloseNotEligible

  function CloseIndeterminate(job: Job, step: JobStep, attempt: Attempt): CloseOutcome {
    match attempt.state
    case AwaitingReconciliation =>
      var failed := step.(state := StepFailed, failureReason := Some(ReconciliationIndeterminate));
      var (ended, event) := EndWithoutSuccess(job, failed);
      Closed(Applied(attempt.(state := Indeterminate), failed, ended,
                     [AttemptIndeterminate(job.id, job.endpointId, failed.id, attempt.id),
                      JobStepFailed(job.id, job.endpointId, failed.id),
                      event], true))
    case Indeterminate => AlreadyIndeterminate
    case _ => CloseNotEligible
  }
}
