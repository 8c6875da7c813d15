/** Jobs, JobSteps, Attempts and the events their transitions emit, with the
    decisions that create a workflow and move it up to dispatch. */
module Workflow {

  type Uuid = nat

  datatype Option<+T> = None | Some(value: T)
  datatype Result<+T, +E> = Ok(value: T) | Err(error: E)

  datatype JobState = Pending | Running | Cancelling | Succeeded | Failed | Cancelled

  datatype StepState =
    | StepPending
    | PreconditionsSatisfied
    | Dispatching
    | StepSucceeded
    | StepFailed
    | StepCancelled

  datatype FailureReason = DispatchRejected | ExecutionFailed | ReconciliationIndeterminate

  datatype DestructiveIntent = DestructiveIntent(revision: Uuid, fingerprint: string)

  datatype JobStep = JobStep(
    id: Uuid,
    jobId: Uuid,
    order: int,
    state: StepState,
    intent: Option<DestructiveIntent>,
    failureReason: Option<FailureReason>)

  datatype Job = Job(id: Uuid, endpointId: Uuid, state: JobState, steps: seq<JobStep>)

  predicate TerminalJob(state: JobState) {
    state.Succeeded? || state.Failed? || state.Cancelled?
  }

  datatype AttemptState =
    | Dispatched
    | InProgress
    | AwaitingReconciliation
    | AttemptSucceeded
    | AttemptFailed
    | AttemptCancelled
    | Rejected
    | Indeterminate

  datatype Attempt = Attempt(id: Uuid, jobStepId: Uuid, actionId: Uuid, state: AttemptState)

  /** The states in which an Attempt still occupies its JobStep. */
  predicate Active(state: AttemptState) {
    state.Dispatched? || state.InProgress? || state.AwaitingReconciliation?
  }

  /** Events carry the correlation their source counterparts carry; the random
      event id and the time stamp are left out. */
  datatype DomainEvent =
    | JobStarted(jobId: Uuid, endpointId: Uuid)
    | JobSucceeded(jobId: Uuid, endpointId: Uuid)
    | JobFailed(jobId: Uuid, endpointId: Uuid)
    | JobCancelled(jobId: Uuid, endpointId: Uuid)
    | JobStepFailed(jobId: Uuid, endpointId: Uuid, stepId: Uuid)
    | AttemptIndeterminate(jobId: Uuid, endpointId: Uuid, stepId: Uuid, attemptId: Uuid)

  // ---------------------------------------------------------------------
  // Step lists
  // ---------------------------------------------------------------------

  ghost predicate DistinctSteps(steps: seq<JobStep>) {
    forall i, j :: 0 <= i < j < |steps| ==> steps[i].id != steps[j].id
  }

  function ReplaceStep(steps: seq<JobStep>, updated: JobStep): seq<JobStep> {
    seq(|steps|, i requires 0 <= i < |steps| => if steps[i].id == updated.id then updated else steps[i])
  }

  /** The first step with the given identity. */
  function FindStep(steps: seq<JobStep>, id: Uuid): (found: Option<JobStep>)
    ensures found.Some? ==> found.value in steps && found.value.id == id
    ensures found.None? ==> forall s :: s in steps ==> s.id != id
  {
    if steps == [] then None
    else if steps[0].id == id then Some(steps[0])
    else FindStep(steps[1..], id)
  }

  predicate EarlierStepsSucceeded(steps: seq<JobStep>, order: int) {
    forall s :: s in steps && s.order < order ==> s.state.StepSucceeded?
  }

  /** With distinct identities, looking a step up by its identity finds it and
      replacing it is a point update. */
  lemma StepByIdentity(steps: seq<JobStep>, k: nat, updated: JobStep)
    requires DistinctSteps(steps) && k < |steps|
    requires updated.id == steps[k].id
    ensures FindStep(steps, updated.id) == Some(steps[k])
    ensures ReplaceStep(steps, updated) == steps[k := updated]
  {
  }

  // ---------------------------------------------------------------------
  // Creation, admission, authorization, eligibility
  // ---------------------------------------------------------------------

  const TWO_TO_THE_31 := 0x8000_0000
  const TWO_TO_THE_32 := 0x1_0000_0000

  /** The cast of a step position to a signed 32-bit order. */
  function AsI32(n: nat): int {
    var low := n % TWO_TO_THE_32;
    if low < TWO_TO_THE_31 then low else low - TWO_TO_THE_32
  }

  datatype EmptyWorkflow = EmptyWorkflow

  /** A new workflow; `stepIds` are the freshly drawn JobStep identities, one per step. */
  function CreateWorkflow(endpointId: Uuid, jobId: Uuid, stepIds: seq<Uuid>): Result<Job, EmptyWorkflow> {
    if stepIds == [] then
      Err(EmptyWorkflow)
    else
      Ok(Job(jobId, endpointId, Pending,
             seq(|stepIds|, i requires 0 <= i < |stepIds| =>
               JobStep(stepIds[i], jobId, AsI32(i), StepPending, None, None))))
  }

  ghost predicate StrictlyOrdered(steps: seq<JobStep>) {
    forall i, j :: 0 <= i < j < |steps| ==> steps[i].order < steps[j].order
  }

  /** Positions and orders agree exactly up to 2^31 steps: past that the cast wraps and
      a later step sorts before the first one. */
  lemma WorkflowOrderIff(endpointId: Uuid, jobId: Uuid, stepIds: seq<Uuid>)
    requires stepIds != []
    ensures var job := CreateWorkflow(endpointId, jobId, stepIds).value;
            && (StrictlyOrdered(job.steps) <==> |stepIds| <= TWO_TO_THE_31)
            && (|stepIds| <= TWO_TO_THE_31 ==> forall i :: 0 <= i < |stepIds| ==> job.steps[i].order == i)
            && (|stepIds| > TWO_TO_THE_31 ==> job.steps[TWO_TO_THE_31].order < job.steps[0].order)
  {
    var job := CreateWorkflow(endpointId, jobId, stepIds).value;
    if |stepIds| > TWO_TO_THE_31 {
      assert job.steps[TWO_TO_THE_31].order == AsI32(TWO_TO_THE_31) == -TWO_TO_THE_31;
      assert job.steps[0].order == AsI32(0) == 0;
    }
  }

  datatype IntentError = WrongJob | IntentNotEligible | AlreadyAuthorized

  function AuthorizeDestructiveIntent(step: JobStep, jobId: Uuid, revision: Uuid, fingerprint: string)
    : Result<DestructiveIntent, IntentError>
  {
    if step.jobId != jobId then Err(WrongJob)
    else if !step.state.StepPending? then Err(IntentNotEligible)
    else if step.intent.Some? then Err(AlreadyAuthorized)
    else Ok(DestructiveIntent(revision, fingerprint))
  }

  datatype AdmissionError = NotPending

  function AdmitJob(job: Job): Result<(Job, DomainEvent), AdmissionError> {
    if !job.state.Pending? then Err(NotPending)
    else Ok((job.(state := Running), JobStarted(job.id, job.endpointId)))
  }

  datatype EligibilityError = JobNotRunning | StepNotFound | NotCurrent

  function SatisfyPreliminaryPreconditions(job: Job, stepId: Uuid): Result<JobStep, EligibilityError> {
    if !job.state.Running? then Err(JobNotRunning)
    else match FindStep(job.steps, stepId)
      case None => Err(StepNotFound)
      case Some(candidate) =>
        if !candidate.state.StepPending? then Err(NotCurrent)
        else if !EarlierStepsSucceeded(job.steps, candidate.order) then Err(NotCurrent)
        else Ok(candidate.(state := PreconditionsSatisfied))
  }
}
