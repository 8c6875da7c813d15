/** What every Server decision keeps true of one Job's rows. */
module ServerInvariant {
  import opened Workflow
  import opened Evidence
  import opened Dispatch
  import opened ActionAgent
  import opened Protocol

  /** The workflow's identities and orders, fixed at creation. */
  ghost predicate Skeleton(job: Job) {
    && |job.steps| > 0
    && DistinctSteps(job.steps)
    && forall i :: 0 <= i < |job.steps| ==> job.steps[i].jobId == job.id && job.steps[i].order == i
  }

  /** The JobStep state and failure reason that go with an Attempt state. */
  function StepStateFor(state: AttemptState): (StepState, Option<FailureReason>) {
    match state
    case Dispatched => (Dispatching, None)
    case InProgress => (Dispatching, None)
    case AwaitingReconciliation => (Dispatching, None)
    case AttemptSucceeded => (StepSucceeded, None)
    case AttemptFailed => (StepFailed, Some(ExecutionFailed))
    case AttemptCancelled => (StepCancelled, None)
    case Rejected => (StepFailed, Some(DispatchRejected))
    case Indeterminate => (StepFailed, Some(ReconciliationIndeterminate))
  }

  ghost predicate Mirrors(step: JobStep, attempt: Attempt) {
    attempt.jobStepId == step.id && (step.state, step.failureReason) == StepStateFor(attempt.state)
  }

  /** Whether the Attempts so far leave room for another one. */
  predicate Advanced(attempts: seq<Attempt>) {
    attempts == [] || attempts[|attempts| - 1].state.AttemptSucceeded?
  }

  ghost predicate Untouched(job: Job, attempts: seq<Attempt>, i: nat)
    requires i < |job.steps|
  {
    && job.steps[i].failureReason.None?
    && (job.steps[i].state.StepPending?
        || (i == |attempts| && job.steps[i].state.PreconditionsSatisfied? && Advanced(attempts)))
  }

  /** The i-th Attempt is the only Attempt of the i-th step, every Attempt but the last
      succeeded, and later steps have not been dispatched. */
  ghost predicate Linear(job: Job, attempts: seq<Attempt>) {
    && |attempts| <= |job.steps|
    && (forall i :: 0 <= i < |attempts| ==> Mirrors(job.steps[i], attempts[i]))
    && (forall i :: 0 <= i < |attempts| - 1 ==> attempts[i].state.AttemptSucceeded?)
    && (forall i :: |attempts| <= i < |job.steps| ==> Untouched(job, attempts, i))
  }

  predicate LastActive(attempts: seq<Attempt>) {
    attempts != [] && Active(attempts[|attempts| - 1].state)
  }

  predicate LastUnsuccessful(attempts: seq<Attempt>) {
    attempts != [] && !Active(attempts[|attempts| - 1].state) && !attempts[|attempts| - 1].state.AttemptSucceeded?
  }

  ghost predicate StateAgrees(job: Job, attempts: seq<Attempt>) {
    match job.state
    case Pending => attempts == [] && forall i :: 0 <= i < |job.steps| ==> job.steps[i].state.StepPending?
    case Running => LastActive(attempts) || (Advanced(attempts) && |attempts| < |job.steps|)
    case Cancelling => LastActive(attempts)
    case Succeeded => Advanced(attempts) && |attempts| == |job.steps|
    case Failed => LastUnsuccessful(attempts)
    case Cancelled => !LastActive(attempts)
  }

  function StartEvents(job: Job): seq<DomainEvent> {
    if job.state.Pending? then [] else [JobStarted(job.id, job.endpointId)]
  }

  function ClosureEvents(job: Job, attempts: seq<Attempt>): seq<DomainEvent> {
    if attempts != [] && attempts[|attempts| - 1].state.Indeterminate? then
      [AttemptIndeterminate(job.id, job.endpointId, attempts[|attempts| - 1].jobStepId, attempts[|attempts| - 1].id)]
    else []
  }

  function FailureEvents(job: Job, attempts: seq<Attempt>): seq<DomainEvent> {
    if LastUnsuccessful(attempts) && !attempts[|attempts| - 1].state.AttemptCancelled? then
      [JobStepFailed(job.id, job.endpointId, attempts[|attempts| - 1].jobStepId)]
    else []
  }

  function EndEvents(job: Job): seq<DomainEvent> {
    match job.state
    case Succeeded => [JobSucceeded(job.id, job.endpointId)]
    case Failed => [JobFailed(job.id, job.endpointId)]
    case Cancelled => [JobCancelled(job.id, job.endpointId)]
    case _ => []
  }

  /** The one event log that goes with a Job and its Attempts. */
  function ExpectedLog(job: Job, attempts: seq<Attempt>): seq<DomainEvent> {
    StartEvents(job) + ClosureEvents(job, attempts) + FailureEvents(job, attempts) + EndEvents(job)
  }

  /** The Attempts that have ended, in order. */
  function Ended(attempts: seq<Attempt>): seq<Uuid> {
    var n := if LastActive(attempts) then |attempts| - 1 else |attempts|;
    seq(n, i requires 0 <= i < n => attempts[i].id)
  }

  ghost predicate DistinctAttempts(attempts: seq<Attempt>) {
    forall i, j :: 0 <= i < j < |attempts| ==>
      attempts[i].id != attempts[j].id && attempts[i].actionId != attempts[j].actionId
  }

  /** A Transfer dispatched with this content is bound to this Attempt. */
  ghost predicate Binds(transfer: Transfer, attempt: Attempt, payload: DispatchContent) {
    && transfer.attemptId == Some(attempt.id)
    && transfer.jobStepId == attempt.jobStepId
    && payload == TransferContent(transfer)
  }

  /** A step with a destructive intent went through the destructive gate, any other step
      through the transfer gate. */
  ghost predicate RightPath(s: Server, k: nat)
    requires k < |s.attempts| && |s.attempts| == |s.payloads| && |s.attempts| <= |s.job.steps|
  {
    if s.job.steps[k].intent.Some? then
      s.payloads[k] == SIMULATED_CONTENT
    else
      exists t :: t in s.transfers && Binds(s.transfers[t], s.attempts[k], s.payloads[k])
  }

  ghost predicate Bindings(s: Server) {
    && (forall t :: t in s.transfers ==> s.transfers[t].id == t)
    && (forall t :: t in s.transfers && s.transfers[t].attemptId.Some? ==>
         exists k :: 0 <= k < |s.attempts| && s.attempts[k].id == s.transfers[t].attemptId.value)
    && (forall t, u :: t in s.transfers && u in s.transfers && t != u && s.transfers[t].attemptId.Some? ==>
         s.transfers[t].attemptId != s.transfers[u].attemptId)
  }

  ghost predicate Dispatches(s: Server) {
    && |s.attempts| == |s.payloads| && |s.attempts| <= |s.job.steps|
    && (forall k :: 0 <= k < |s.attempts| ==> RightPath(s, k))
    && Bindings(s)
  }

  ghost predicate ServerInv(s: Server) {
    && Skeleton(s.job)
    && DistinctAttempts(s.attempts)
    && Linear(s.job, s.attempts)
    && StateAgrees(s.job, s.attempts)
    && s.events == ExpectedLog(s.job, s.attempts)
    && s.released == Ended(s.attempts)
    && Dispatches(s)
  }

  // ---------------------------------------------------------------------
  // Small facts
  // ---------------------------------------------------------------------

  lemma ActiveIsLast(s: Server, k: nat)
    requires ServerInv(s) && k < |s.attempts| && Active(s.attempts[k].state)
    ensures k == |s.attempts| - 1
    ensures s.job.steps[k].state.Dispatching? && s.job.steps[k].failureReason.None?
    ensures s.job.state.Running? || s.job.state.Cancelling?
    ensures FindStep(s.job.steps, s.attempts[k].jobStepId) == Some(s.job.steps[k])
  {
  }

  lemma AttemptByAction(attempts: seq<Attempt>, k: nat)
    requires DistinctAttempts(attempts) && k < |attempts|
    ensures FindAttempt(attempts, attempts[k].actionId) == Some(k)
  {
  }

  /** Changing only what an Attempt's state says keeps its dispatch record. */
  lemma DispatchesKept(s: Server, s': Server)
    requires Dispatches(s)
    requires |s'.attempts| == |s.attempts| && s'.payloads == s.payloads && s'.transfers == s.transfers
    requires |s'.job.steps| == |s.job.steps|
    requires forall i :: 0 <= i < |s.attempts| ==> s'.job.steps[i].intent == s.job.steps[i].intent
    requires forall i :: 0 <= i < |s.attempts| ==>
               s'.attempts[i].id == s.attempts[i].id && s'.attempts[i].jobStepId == s.attempts[i].jobStepId
    ensures Dispatches(s')
  {
    forall k | 0 <= k < |s'.attempts| ensures RightPath(s', k) {
      assert RightPath(s, k);
      if s.job.steps[k].intent.None? {
        var t :| t in s.transfers && Binds(s.transfers[t], s.attempts[k], s.payloads[k]);
        assert Binds(s'.transfers[t], s'.attempts[k], s'.payloads[k]);
      }
    }
    forall t | t in s'.transfers && s'.transfers[t].attemptId.Some?
      ensures exists k :: 0 <= k < |s'.attempts| && s'.attempts[k].id == s'.transfers[t].attemptId.value
    {
      var k :| 0 <= k < |s.attempts| && s.attempts[k].id == s.transfers[t].attemptId.value;
      assert s'.attempts[k].id == s'.transfers[t].attemptId.value;
    }
  }

  // ---------------------------------------------------------------------
  // Decisions about the active Attempt
  // ---------------------------------------------------------------------

  /** A decision that ends or advances the current Attempt keeps the invariant when it
      moves Attempt, step, Job, log and release together. */
  lemma CommitKeeps(s: Server, applied: Applied)
    requires ServerInv(s) && LastActive(s.attempts)
    requires var k := |s.attempts| - 1;
             && applied.attempt == s.attempts[k].(state := applied.attempt.state)
             && applied.step.id == s.job.steps[k].id && applied.step.jobId == s.job.steps[k].jobId
             && applied.step.order == s.job.steps[k].order && applied.step.intent == s.job.steps[k].intent
             && Mirrors(applied.step, applied.attempt)
             && applied.job.id == s.job.id && applied.job.endpointId == s.job.endpointId
             && applied.job.steps == s.job.steps[k := applied.step]
             && (applied.terminal <==> !Active(applied.attempt.state))
             && StateAgrees(applied.job, s.attempts[k := applied.attempt])
             && s.events + applied.events == ExpectedLog(applied.job, s.attempts[k := applied.attempt])
    ensures ServerInv(Commit(s, |s.attempts| - 1, applied))
  {
    var k := |s.attempts| - 1;
    var s' := Commit(s, k, applied);
    assert Skeleton(s'.job);
    forall i | |s'.attempts| <= i < |s'.job.steps| ensures Untouched(s'.job, s'.attempts, i) {
      assert Untouched(s.job, s.attempts, i);
    }
    forall i | 0 <= i < |s'.attempts| ensures Mirrors(s'.job.steps[i], s'.attempts[i]) {
      assert i != k ==> Mirrors(s.job.steps[i], s.attempts[i]);
    }
    DispatchesKept(s, s');
    assert s'.released == Ended(s'.attempts);
  }

  lemma AdvanceKeeps(s: Server, state: AttemptState)
    requires ServerInv(s) && LastActive(s.attempts) && Active(state)
    ensures var k := |s.attempts| - 1;
            ServerInv(Commit(s, k, Advance(s.job, s.job.steps[k], s.attempts[k], state)))
  {
    var k := |s.attempts| - 1;
    ActiveIsLast(s, k);
    assert Mirrors(s.job.steps[k], s.attempts[k]);
    CommitKeeps(s, Advance(s.job, s.job.steps[k], s.attempts[k], state));
  }

  /** Success of the active step completes the workflow exactly when it is the last one. */
  lemma LastStepIff(s: Server, k: nat)
    requires ServerInv(s) && k < |s.attempts| && Active(s.attempts[k].state)
    ensures EveryStepSucceeded(ReplaceStep(s.job.steps, s.job.steps[k].(state := StepSucceeded))) <==>
            k == |s.job.steps| - 1
  {
    ActiveIsLast(s, k);
    StepByIdentity(s.job.steps, k, s.job.steps[k].(state := StepSucceeded));
    var steps := s.job.steps[k := s.job.steps[k].(state := StepSucceeded)];
    if k + 1 < |steps| {
      assert Untouched(s.job, s.attempts, k + 1);
      assert steps[k + 1] in steps && !steps[k + 1].state.StepSucceeded?;
    }
    forall i | 0 <= i < k ensures steps[i].state.StepSucceeded? {
      assert Mirrors(s.job.steps[i], s.attempts[i]);
    }
  }

  lemma SuccessKeeps(s: Server)
    requires ServerInv(s) && LastActive(s.attempts)
    ensures var k := |s.attempts| - 1;
            ServerInv(Commit(s, k, TerminalSuccess(s.job, s.job.steps[k], s.attempts[k])))
  {
    var k := |s.attempts| - 1;
    ActiveIsLast(s, k);
    LastStepIff(s, k);
    var applied := TerminalSuccess(s.job, s.job.steps[k], s.attempts[k]);
    StepByIdentity(s.job.steps, k, applied.step);
    assert Mirrors(s.job.steps[k], s.attempts[k]);
    CommitKeeps(s, applied);
  }

  lemma FailureKeeps(s: Server, state: AttemptState, reason: FailureReason)
    requires ServerInv(s) && LastActive(s.attempts)
    requires StepStateFor(state) == (StepFailed, Some(reason)) && !state.Indeterminate?
    ensures var k := |s.attempts| - 1;
            ServerInv(Commit(s, k, TerminalFailure(s.job, s.job.steps[k], s.attempts[k], state, reason)))
  {
    var k := |s.attempts| - 1;
    ActiveIsLast(s, k);
    var applied := TerminalFailure(s.job, s.job.steps[k], s.attempts[k], state, reason);
    StepByIdentity(s.job.steps, k, applied.step);
    assert Mirrors(s.job.steps[k], s.attempts[k]);
    CommitKeeps(s, applied);
  }

  lemma CancelTerminalKeeps(s: Server)
    requires ServerInv(s) && LastActive(s.attempts)
    ensures var k := |s.attempts| - 1;
            ServerInv(Commit(s, k, CancelTerminal(s.job, s.job.steps[k], s.attempts[k])))
  {
    var k := |s.attempts| - 1;
    ActiveIsLast(s, k);
    var applied := CancelTerminal(s.job, s.job.steps[k], s.attempts[k]);
    StepByIdentity(s.job.steps, k, applied.step);
    assert Mirrors(s.job.steps[k], s.attempts[k]);
    CommitKeeps(s, applied);
  }

  lemma CloseKeeps(s: Server, k: nat)
    requires ServerInv(s) && k < |s.attempts|
    ensures ServerInv(Close(s, k))
  {
    if s.attempts[k].state.AwaitingReconciliation? {
      ActiveIsLast(s, k);
      var applied := CloseIndeterminate(s.job, s.job.steps[k], s.attempts[k]).applied;
      StepByIdentity(s.job.steps, k, applied.step);
      assert Mirrors(s.job.steps[k], s.attempts[k]);
      CommitKeeps(s, applied);
    }
  }

  /** Evidence never touches an Attempt that has ended, except that a Cancelling Job is
      completed from one reported as already completed. */
  lemma DecisionNeedsActive(m: Message, job: Job, step: JobStep, attempt: Attempt)
    requires Decide(m, job, step, attempt).Apply?
    ensures || Active(attempt.state)
            || (m.CancelAck? && m.cancelOutcome.AckAlreadyCompleted? && job.state.Cancelling?)
  {
  }

  /** How evidence can move an active Attempt, by the state it moves it to. */
  predicate MovedBy(job: Job, step: JobStep, attempt: Attempt, a: Applied) {
    match a.attempt.state
    case AttemptSucceeded => a == TerminalSuccess(job, step, attempt)
    case AttemptFailed => a == TerminalFailure(job, step, attempt, AttemptFailed, ExecutionFailed)
    case Rejected => a == TerminalFailure(job, step, attempt, Rejected, DispatchRejected)
    case AttemptCancelled => a == CancelTerminal(job, step, attempt)
    case Indeterminate => false
    case state => a == Advance(job, step, attempt, state)
  }

  lemma DecisionCases(m: Message, job: Job, step: JobStep, attempt: Attempt)
    requires Active(attempt.state) && Decide(m, job, step, attempt).Apply?
    ensures MovedBy(job, step, attempt, Decide(m, job, step, attempt).applied)
  {
  }

  /** Evidence about an owned action is decided on its own step and Attempt. */
  lemma ReceiveAt(s: Server, m: Message, k: nat)
    requires DistinctSteps(s.job.steps) && Linear(s.job, s.attempts)
    requires FindAttempt(s.attempts, m.actionId) == Some(k)
    ensures var decision := Decide(m, s.job, s.job.steps[k], s.attempts[k]);
            Receive(s, m) == if decision.Apply? then Commit(s, k, decision.applied) else s
  {
  }

  /** Evidence keeps the invariant, whatever it says, unless it is a report that an
      Attempt before the current one had already completed while the Job is Cancelling. */
  lemma ReceiveKeeps(s: Server, m: Message)
    requires ServerInv(s)
    requires m.CancelAck? && m.cancelOutcome.AckAlreadyCompleted? && s.job.state.Cancelling? ==>
               m.actionId == s.attempts[|s.attempts| - 1].actionId
    ensures ServerInv(Receive(s, m))
  {
    var found := FindAttempt(s.attempts, m.actionId);
    if found.Some? {
      var k := found.value;
      ReceiveAt(s, m, k);
      if Decide(m, s.job, s.job.steps[k], s.attempts[k]).Apply? {
        DecisionNeedsActive(m, s.job, s.job.steps[k], s.attempts[k]);
        assert Active(s.attempts[k].state);
        ActiveDecisionKeeps(s, m, k);
      }
    }
  }

  lemma MoveKeeps(s: Server, applied: Applied)
    requires ServerInv(s) && LastActive(s.attempts)
    requires var k := |s.attempts| - 1; k < |s.job.steps| && MovedBy(s.job, s.job.steps[k], s.attempts[k], applied)
    ensures ServerInv(Commit(s, |s.attempts| - 1, applied))
  {
    var state := applied.attempt.state;
    if state.AttemptSucceeded? {
      SuccessKeeps(s);
    } else if state.AttemptFailed? {
      FailureKeeps(s, AttemptFailed, ExecutionFailed);
    } else if state.Rejected? {
      FailureKeeps(s, Rejected, DispatchRejected);
    } else if state.AttemptCancelled? {
      CancelTerminalKeeps(s);
    } else {
      AdvanceKeeps(s, state);
    }
  }

  lemma ActiveDecisionKeeps(s: Server, m: Message, k: nat)
    requires ServerInv(s) && k < |s.attempts| && Active(s.attempts[k].state)
    requires Decide(m, s.job, s.job.steps[k], s.attempts[k]).Apply?
    ensures ServerInv(Commit(s, k, Decide(m, s.job, s.job.steps[k], s.attempts[k]).applied))
  {
    ActiveIsLast(s, k);
    DecisionCases(m, s.job, s.job.steps[k], s.attempts[k]);
    MoveKeeps(s, Decide(m, s.job, s.job.steps[k], s.attempts[k]).applied);
  }

  /** Exactly when an unsolicited acknowledgement is harmless: a Cancelling Job that is
      told an already ended Attempt had completed gives up its active Attempt. */
  lemma CancelAckSafeIff(s: Server, actionId: Uuid, outcome: CancelAckEvidence)
    requires ServerInv(s)
    ensures ServerInv(Receive(s, CancelAck(actionId, outcome))) <==>
            !(&& s.job.state.Cancelling? && outcome.AckAlreadyCompleted?
              && exists k :: 0 <= k < |s.attempts| && s.attempts[k].actionId == actionId
                             && !Active(s.attempts[k].state))
  {
    var m := CancelAck(actionId, outcome);
    var found := FindAttempt(s.attempts, actionId);
    if found.None? {
      assert Receive(s, m) == s;
    } else {
      var k := found.value;
      AttemptByAction(s.attempts, k);
      if s.job.state.Cancelling? && outcome.AckAlreadyCompleted? {
        if Active(s.attempts[k].state) {
          ActiveIsLast(s, k);
          ReceiveKeeps(s, m);
        } else {
          EarlierAckAbandons(s, k);
        }
      } else {
        ReceiveKeeps(s, m);
      }
    }
  }

  /** So for evidence of any kind: nothing else breaks the invariant. */
  lemma EvidenceSafeIff(s: Server, m: Message)
    requires ServerInv(s)
    ensures ServerInv(Receive(s, m)) <==>
            !(&& m.CancelAck? && m.cancelOutcome.AckAlreadyCompleted? && s.job.state.Cancelling?
              && exists k :: 0 <= k < |s.attempts| && s.attempts[k].actionId == m.actionId
                             && !Active(s.attempts[k].state))
  {
    if m.CancelAck? {
      CancelAckSafeIff(s, m.actionId, m.cancelOutcome);
    } else {
      ReceiveKeeps(s, m);
    }
  }

  /** The Job ends Cancelled while its current Attempt is still running. */
  lemma EarlierAckAbandons(s: Server, k: nat)
    requires ServerInv(s) && s.job.state.Cancelling?
    requires k < |s.attempts| && !Active(s.attempts[k].state)
    ensures var s' := Receive(s, CancelAck(s.attempts[k].actionId, AckAlreadyCompleted));
            s'.job.state.Cancelled? && LastActive(s'.attempts) && !StateAgrees(s'.job, s'.attempts)
  {
    AttemptByAction(s.attempts, k);
    var m := CancelAck(s.attempts[k].actionId, AckAlreadyCompleted);
    ReceiveAt(s, m, k);
    assert Receive(s, m).attempts == s.attempts;
  }

  // ---------------------------------------------------------------------
  // The other Server steps
  // ---------------------------------------------------------------------

  lemma JobStateKeeps(s: Server, state: JobState, events: seq<DomainEvent>)
    requires ServerInv(s) && s.job.state != state
    requires StateAgrees(s.job.(state := state), s.attempts)
    requires s.events + events == ExpectedLog(s.job.(state := state), s.attempts)
    ensures ServerInv(s.(job := s.job.(state := state), events := s.events + events))
  {
    var s' := s.(job := s.job.(state := state), events := s.events + events);
    forall i | |s'.attempts| <= i < |s'.job.steps| ensures Untouched(s'.job, s'.attempts, i) {
      assert Untouched(s.job, s.attempts, i);
    }
    DispatchesKept(s, s');
  }

  lemma AdmitKeeps(s: Server)
    requires ServerInv(s)
    ensures ServerInv(Admit(s))
  {
    if s.job.state.Pending? {
      JobStateKeeps(s, Running, [JobStarted(s.job.id, s.job.endpointId)]);
    }
  }

  lemma UntouchedStep(job: Job, attempts: seq<Attempt>, k: nat, step: JobStep)
    requires Skeleton(job) && Linear(job, attempts) && StateAgrees(job, attempts)
    requires |attempts| <= k < |job.steps|
    requires step.id == job.steps[k].id && step.jobId == job.id && step.order == k
    requires Untouched(job.(steps := job.steps[k := step]), attempts, k)
    requires job.state.Pending? ==> step.state.StepPending?
    ensures var job' := job.(steps := job.steps[k := step]);
            Skeleton(job') && Linear(job', attempts) && StateAgrees(job', attempts)
  {
    var job' := job.(steps := job.steps[k := step]);
    forall i | |attempts| <= i < |job.steps| ensures Untouched(job', attempts, i) {
      assert i != k ==> Untouched(job, attempts, i);
    }
  }

  /** Rewriting an undispatched step keeps the invariant. */
  lemma PersistUntouchedKeeps(s: Server, k: nat, step: JobStep)
    requires ServerInv(s) && |s.attempts| <= k < |s.job.steps|
    requires step.id == s.job.steps[k].id && step.jobId == s.job.id && step.order == k
    requires Untouched(s.job.(steps := s.job.steps[k := step]), s.attempts, k)
    requires s.job.state.Pending? ==> step.state.StepPending?
    ensures ServerInv(PersistStep(s, step))
  {
    StepByIdentity(s.job.steps, k, step);
    UntouchedStep(s.job, s.attempts, k, step);
    DispatchesKept(s, PersistStep(s, step));
  }

  lemma AuthorizeIntentKeeps(s: Server, stepId: Uuid, jobId: Uuid, intent: DestructiveIntent)
    requires ServerInv(s)
    ensures ServerInv(AuthorizeIntent(s, stepId, jobId, intent))
  {
    var found := FindStep(s.job.steps, stepId);
    if found.Some? && AuthorizeDestructiveIntent(found.value, jobId, intent.revision, intent.fingerprint).Ok? {
      var k :| 0 <= k < |s.job.steps| && s.job.steps[k] == found.value;
      PendingIsUndispatched(s, k);
      PersistUntouchedKeeps(s, k, found.value.(intent := Some(intent)));
    }
  }

  lemma PendingIsUndispatched(s: Server, k: nat)
    requires ServerInv(s) && k < |s.job.steps|
    requires s.job.steps[k].state.StepPending? || s.job.steps[k].state.PreconditionsSatisfied?
    ensures |s.attempts| <= k && Untouched(s.job, s.attempts, k)
  {
  }

  /** A pending step whose predecessors all succeeded is the next one to dispatch. */
  lemma CurrentStep(s: Server, k: nat)
    requires ServerInv(s) && k < |s.job.steps|
    requires s.job.steps[k].state.StepPending? || s.job.steps[k].state.PreconditionsSatisfied?
    requires EarlierStepsSucceeded(s.job.steps, s.job.steps[k].order)
    ensures k == |s.attempts| && Advanced(s.attempts) && Untouched(s.job, s.attempts, k)
  {
    PendingIsUndispatched(s, k);
    var n := |s.attempts|;
    assert n < k ==> s.job.steps[n] in s.job.steps && Untouched(s.job, s.attempts, n);
    assert n > 0 ==> Mirrors(s.job.steps[n - 1], s.attempts[n - 1]) && s.job.steps[n - 1] in s.job.steps;
  }

  lemma SatisfyKeeps(s: Server, stepId: Uuid)
    requires ServerInv(s)
    ensures ServerInv(Satisfy(s, stepId))
  {
    var result := SatisfyPreliminaryPreconditions(s.job, stepId);
    if result.Ok? {
      var found := FindStep(s.job.steps, stepId).value;
      var k :| 0 <= k < |s.job.steps| && s.job.steps[k] == found;
      CurrentStep(s, k);
      PersistUntouchedKeeps(s, k, result.value);
    }
  }

  /** Exactly the next step after a row of successes is eligible. */
  lemma EligibleIff(s: Server, stepId: Uuid)
    requires ServerInv(s)
    ensures SatisfyPreliminaryPreconditions(s.job, stepId).Ok? <==>
            && s.job.state.Running? && Advanced(s.attempts) && |s.attempts| < |s.job.steps|
            && s.job.steps[|s.attempts|].id == stepId && s.job.steps[|s.attempts|].state.StepPending?
  {
    var n := |s.attempts|;
    if SatisfyPreliminaryPreconditions(s.job, stepId).Ok? {
      var k :| 0 <= k < |s.job.steps| && s.job.steps[k] == FindStep(s.job.steps, stepId).value;
      CurrentStep(s, k);
    }
    if n < |s.job.steps| && s.job.steps[n].id == stepId && Advanced(s.attempts) {
      StepByIdentity(s.job.steps, n, s.job.steps[n]);
      forall i | 0 <= i < n ensures s.job.steps[i].state.StepSucceeded? {
        assert Mirrors(s.job.steps[i], s.attempts[i]);
      }
      assert EarlierStepsSucceeded(s.job.steps, n);
    }
  }

  /** An intent is recorded exactly for a pending step of the named Job that has none. */
  lemma IntentIff(s: Server, k: nat, jobId: Uuid, intent: DestructiveIntent)
    requires ServerInv(s) && k < |s.job.steps|
    ensures var step := s.job.steps[k];
            AuthorizeIntent(s, step.id, jobId, intent) ==
            if jobId == s.job.id && step.state.StepPending? && step.intent.None? then
              s.(job := s.job.(steps := s.job.steps[k := step.(intent := Some(intent))]))
            else s
  {
    StepByIdentity(s.job.steps, k, s.job.steps[k]);
    StepByIdentity(s.job.steps, k, s.job.steps[k].(intent := Some(intent)));
  }

  /** A revalidation failure puts the step back, which keeps the invariant in any Job state. */
  lemma RevertKeeps(s: Server, k: nat)
    requires ServerInv(s) && k < |s.job.steps| && s.job.steps[k].state.PreconditionsSatisfied?
    ensures ServerInv(PersistStep(s, s.job.steps[k].(state := StepPending)))
  {
    PendingIsUndispatched(s, k);
    PersistUntouchedKeeps(s, k, s.job.steps[k].(state := StepPending));
  }

  /** Committing a fresh Attempt for the current step. */
  lemma PersistAttemptKeeps(
    s: Server, k: nat, attemptId: Uuid, actionId: Uuid, payload: DispatchContent, transfers: map<Uuid, Transfer>)
    requires ServerInv(s) && k < |s.job.steps| && s.job.state.Running?
    requires k == |s.attempts| && Advanced(s.attempts)
    requires forall i :: 0 <= i < |s.attempts| ==>
               s.attempts[i].id != attemptId && s.attempts[i].actionId != actionId
    requires var step := s.job.steps[k].(state := Dispatching);
             var attempt := Attempt(attemptId, step.id, actionId, Dispatched);
             Dispatches(PersistAttempt(s, step, attempt, payload).(transfers := transfers))
    ensures var step := s.job.steps[k].(state := Dispatching);
            var attempt := Attempt(attemptId, step.id, actionId, Dispatched);
            ServerInv(PersistAttempt(s, step, attempt, payload).(transfers := transfers))
  {
    var step := s.job.steps[k].(state := Dispatching);
    var attempt := Attempt(attemptId, step.id, actionId, Dispatched);
    StepByIdentity(s.job.steps, k, step);
    NewAttempt(s.job, s.attempts, step, attempt);
    assert s.released == Ended(s.attempts + [attempt]);
  }

  lemma NewAttempt(job: Job, attempts: seq<Attempt>, step: JobStep, attempt: Attempt)
    requires Skeleton(job) && Linear(job, attempts) && job.state.Running? && Advanced(attempts)
    requires |attempts| < |job.steps| && step == job.steps[|attempts|].(state := Dispatching)
    requires attempt.state.Dispatched? && attempt.jobStepId == step.id
    ensures var job' := job.(steps := job.steps[|attempts| := step]);
            && Skeleton(job') && Linear(job', attempts + [attempt]) && StateAgrees(job', attempts + [attempt])
            && ExpectedLog(job', attempts + [attempt]) == ExpectedLog(job, attempts)
  {
    var job', attempts' := job.(steps := job.steps[|attempts| := step]), attempts + [attempt];
    assert Untouched(job, attempts, |attempts|);
    forall i | |attempts'| <= i < |job'.steps| ensures Untouched(job', attempts', i) {
      assert Untouched(job, attempts, i);
    }
    forall i | 0 <= i < |attempts'| ensures Mirrors(job'.steps[i], attempts'[i]) {
      assert i < |attempts| ==> Mirrors(job.steps[i], attempts[i]);
    }
  }

  ghost predicate FreshFor(s: Server, attemptId: Uuid, actionId: Uuid) {
    && (forall i :: 0 <= i < |s.attempts| ==> s.attempts[i].id != attemptId && s.attempts[i].actionId != actionId)
    && (forall t :: t in s.transfers ==> s.transfers[t].attemptId != Some(attemptId))
  }

  lemma DestructiveKeeps(s: Server, stepId: Uuid, facts: GateFacts, attemptId: Uuid, actionId: Uuid)
    requires ServerInv(s) && FreshFor(s, attemptId, actionId)
    ensures ServerInv(DispatchDestructive(s, stepId, facts, attemptId, actionId).0)
  {
    var existing := HasActiveAttempt(s.attempts, stepId);
    DestructiveGateIff(s.job, stepId, existing, facts, attemptId, actionId);
    var result := EvaluateDestructiveDispatch(s.job, stepId, existing, facts, attemptId, actionId);
    var found := FindStep(s.job.steps, stepId);
    if found.Some? && found.value.state.PreconditionsSatisfied? {
      var k :| 0 <= k < |s.job.steps| && s.job.steps[k] == found.value;
      if result.Ok? {
        CommitDestructive(s, k, attemptId, actionId);
      } else {
        RevertKeeps(s, k);
      }
    }
  }

  lemma CommitDestructive(s: Server, k: nat, attemptId: Uuid, actionId: Uuid)
    requires ServerInv(s) && FreshFor(s, attemptId, actionId)
    requires k < |s.job.steps| && Schedulable(s.job, s.job.steps[k], false) && s.job.steps[k].intent.Some?
    ensures var step := s.job.steps[k].(state := Dispatching);
            var attempt := Attempt(attemptId, step.id, actionId, Dispatched);
            ServerInv(PersistAttempt(s, step, attempt, SIMULATED_CONTENT))
  {
    CurrentStep(s, k);
    var step := s.job.steps[k].(state := Dispatching);
    var attempt := Attempt(attemptId, step.id, actionId, Dispatched);
    StepByIdentity(s.job.steps, k, step);
    var s' := PersistAttempt(s, step, attempt, SIMULATED_CONTENT);
    BindingsGrow(s, s');
    AppendDispatch(s, s', k);
    PersistAttemptKeeps(s, k, attemptId, actionId, SIMULATED_CONTENT, s.transfers);
  }

  lemma BindingsGrow(s: Server, s': Server)
    requires Bindings(s) && s'.transfers == s.transfers && s.attempts <= s'.attempts
    ensures Bindings(s')
  {
  }

  lemma BindingsAdd(s: Server, s': Server, transferId: Uuid, attempt: Attempt)
    requires Bindings(s) && FreshFor(s, attempt.id, attempt.actionId) && transferId in s.transfers
    requires s'.attempts == s.attempts + [attempt]
    requires s'.transfers == s.transfers[transferId := s.transfers[transferId].(attemptId := Some(attempt.id))]
    ensures Bindings(s')
  {
    forall t | t in s'.transfers && s'.transfers[t].attemptId.Some?
      ensures exists i :: 0 <= i < |s'.attempts| && s'.attempts[i].id == s'.transfers[t].attemptId.value
    {
      if t == transferId {
        assert s'.attempts[|s.attempts|].id == s'.transfers[t].attemptId.value;
      } else {
        var i :| 0 <= i < |s.attempts| && s.attempts[i].id == s.transfers[t].attemptId.value;
        assert s'.attempts[i].id == s'.transfers[t].attemptId.value;
      }
    }
  }

  /** Appending a rightly dispatched Attempt keeps the dispatch record. */
  lemma AppendDispatch(s: Server, s': Server, k: nat)
    requires Dispatches(s) && k == |s.attempts| < |s.job.steps|
    requires |s'.attempts| == k + 1 && s'.attempts[..k] == s.attempts
    requires |s'.payloads| == k + 1 && s'.payloads[..k] == s.payloads
    requires |s'.job.steps| == |s.job.steps|
    requires forall i :: 0 <= i < |s.job.steps| ==> s'.job.steps[i].intent == s.job.steps[i].intent
    requires s'.transfers.Keys == s.transfers.Keys
    requires forall t :: t in s.transfers && s.transfers[t].attemptId.Some? ==> s'.transfers[t] == s.transfers[t]
    requires RightPath(s', k) && Bindings(s')
    ensures Dispatches(s')
  {
    forall i | 0 <= i < |s'.attempts| ensures RightPath(s', i) {
      if i < k {
        assert RightPath(s, i);
        assert s'.attempts[i] == s'.attempts[..k][i] && s'.payloads[i] == s'.payloads[..k][i];
        if s.job.steps[i].intent.None? {
          var t :| t in s.transfers && Binds(s.transfers[t], s.attempts[i], s.payloads[i]);
          assert Binds(s'.transfers[t], s'.attempts[i], s'.payloads[i]);
        }
      }
    }
  }

  lemma TransferKeeps(s: Server, stepId: Uuid, transferId: Uuid, attemptId: Uuid, actionId: Uuid)
    requires ServerInv(s) && FreshFor(s, attemptId, actionId) && transferId in s.transfers
    ensures ServerInv(DispatchTransfer(s, stepId, transferId, attemptId, actionId).0)
  {
    var existing := HasActiveAttempt(s.attempts, stepId);
    TransferGateIff(s.job, stepId, existing, s.transfers[transferId], attemptId, actionId);
    var result := EvaluateTransferDispatch(s.job, stepId, existing, s.transfers[transferId], attemptId, actionId);
    var found := FindStep(s.job.steps, stepId);
    if found.Some? && found.value.state.PreconditionsSatisfied? {
      var k :| 0 <= k < |s.job.steps| && s.job.steps[k] == found.value;
      if result.Ok? {
        CommitTransfer(s, k, transferId, attemptId, actionId);
      } else {
        RevertKeeps(s, k);
      }
    }
  }

  lemma CommitTransfer(s: Server, k: nat, transferId: Uuid, attemptId: Uuid, actionId: Uuid)
    requires ServerInv(s) && FreshFor(s, attemptId, actionId) && transferId in s.transfers
    requires k < |s.job.steps| && Schedulable(s.job, s.job.steps[k], false) && s.job.steps[k].intent.None?
    requires s.transfers[transferId].attemptId.None? && s.transfers[transferId].jobStepId == s.job.steps[k].id
    ensures var step := s.job.steps[k].(state := Dispatching);
            var attempt := Attempt(attemptId, step.id, actionId, Dispatched);
            var bound := s.transfers[transferId].(attemptId := Some(attemptId));
            ServerInv(PersistAttempt(s, step, attempt, TransferContent(bound))
                        .(transfers := s.transfers[transferId := bound]))
  {
    CurrentStep(s, k);
    RecordTransfer(s, k, transferId, attemptId, actionId);
    var bound := s.transfers[transferId].(attemptId := Some(attemptId));
    PersistAttemptKeeps(s, k, attemptId, actionId, TransferContent(bound), s.transfers[transferId := bound]);
  }

  lemma RecordTransfer(s: Server, k: nat, transferId: Uuid, attemptId: Uuid, actionId: Uuid)
    requires Dispatches(s) && DistinctSteps(s.job.steps)
    requires FreshFor(s, attemptId, actionId) && transferId in s.transfers
    requires k == |s.attempts| < |s.job.steps| && s.job.steps[k].intent.None?
    requires s.transfers[transferId].attemptId.None? && s.transfers[transferId].jobStepId == s.job.steps[k].id
    ensures var step := s.job.steps[k].(state := Dispatching);
            var attempt := Attempt(attemptId, step.id, actionId, Dispatched);
            var bound := s.transfers[transferId].(attemptId := Some(attemptId));
            Dispatches(PersistAttempt(s, step, attempt, TransferContent(bound))
                         .(transfers := s.transfers[transferId := bound]))
  {
    var step := s.job.steps[k].(state := Dispatching);
    var attempt := Attempt(attemptId, step.id, actionId, Dispatched);
    var bound := s.transfers[transferId].(attemptId := Some(attemptId));
    var s' := PersistAttempt(s, step, attempt, TransferContent(bound))
      .(transfers := s.transfers[transferId := bound]);
    StepByIdentity(s.job.steps, k, step);
    assert Binds(s'.transfers[transferId], s'.attempts[k], s'.payloads[k]);
    BindingsAdd(s, s', transferId, attempt);
    AppendDispatch(s, s', k);
  }

  /** With no active Attempt before the last one, a running Job asks exactly its last
      Attempt to stop, or ends at once when that is not active. */
  lemma CancelEffect(s: Server)
    requires forall i :: 0 <= i < |s.attempts| - 1 ==> !Active(s.attempts[i].state)
    ensures AtMostOneActive(s.attempts)
    ensures Cancel(s) ==
            if !s.job.state.Running? then (s, {})
            else if LastActive(s.attempts) then
              (s.(job := s.job.(state := Cancelling)), {CancelAction(s.attempts[|s.attempts| - 1].actionId)})
            else
              (s.(job := s.job.(state := Cancelled),
                  events := s.events + [JobCancelled(s.job.id, s.job.endpointId)]), {})
  {
  }

  lemma CancelKeeps(s: Server)
    requires ServerInv(s)
    ensures ServerInv(Cancel(s).0)
    ensures AtMostOneActive(s.attempts)
  {
    CancelEffect(s);
    if s.job.state.Running? {
      if LastActive(s.attempts) {
        assert s.events + [] == s.events;
        JobStateKeeps(s, Cancelling, []);
      } else {
        JobStateKeeps(s, Cancelled, [JobCancelled(s.job.id, s.job.endpointId)]);
      }
    }
  }

  /** Making Attempts uncertain changes nothing but the state of active ones. */
  lemma UncertainKeeps(s: Server, attempts: seq<Attempt>)
    requires ServerInv(s) && |attempts| == |s.attempts|
    requires forall i :: 0 <= i < |attempts| ==>
               attempts[i] == s.attempts[i] || attempts[i] == Uncertain(s.attempts[i])
    ensures ServerInv(s.(attempts := attempts))
  {
    var s' := s.(attempts := attempts);
    forall i | |s'.attempts| <= i < |s'.job.steps| ensures Untouched(s'.job, s'.attempts, i) {
      assert Untouched(s.job, s.attempts, i);
    }
    forall i | 0 <= i < |s'.attempts| ensures Mirrors(s'.job.steps[i], s'.attempts[i]) {
      assert Mirrors(s.job.steps[i], s.attempts[i]);
    }
    DispatchesKept(s, s');
  }
}
