/** What holds of one Job in every run of Server, Agent and network. */
module ProtocolTheorems {
  import opened Workflow
  import opened Evidence
  import opened Dispatch
  import opened ActionAgent
  import opened Protocol
  import opened ServerInvariant
  import opened SystemInvariant

  lemma Reached(s: System, run: seq<Step>)
    requires Initial(s) && ValidRun(s, run)
    ensures SystemInv(Exec(s, run))
  {
    InitialHolds(s);
    RunKeeps(s, run);
  }

  // ---------------------------------------------------------------------
  // Workflow shape
  // ---------------------------------------------------------------------

  /** Succeeded steps, then at most one that is under way or ended otherwise, then Pending
      steps; Attempts are active exactly for the step that is Dispatching. */
  ghost predicate Shape(job: Job, attempts: seq<Attempt>, p: nat) {
    && p <= |job.steps|
    && (forall i :: 0 <= i < p ==> job.steps[i].state.StepSucceeded?)
    && (forall i :: p < i < |job.steps| ==> job.steps[i].state.StepPending?)
    && (forall t :: t in attempts && Active(t.state) ==>
          p < |job.steps| && job.steps[p].state.Dispatching? && t.jobStepId == job.steps[p].id)
    && (p < |job.steps| && job.steps[p].state.Dispatching? ==>
          exists t :: t in attempts && Active(t.state) && t.jobStepId == job.steps[p].id)
    && (job.state.Cancelling? ==> p < |job.steps| && job.steps[p].state.Dispatching?)
    && (job.state.Succeeded? <==> p == |job.steps| && !job.state.Cancelled?)
  }

  ghost predicate Shaped(s: Server) {
    exists p :: Shape(s.job, s.attempts, p)
  }

  lemma WorkflowShape(s: System, run: seq<Step>)
    requires Initial(s) && ValidRun(s, run)
    ensures Shaped(Exec(s, run).server)
  {
    Reached(s, run);
    ShapeHolds(Exec(s, run).server);
  }

  lemma ShapeHolds(s: Server)
    requires ServerInv(s)
    ensures Shaped(s)
  {
    var n := |s.attempts|;
    var p := if Advanced(s.attempts) then n else n - 1;
    forall i | 0 <= i < p ensures s.job.steps[i].state.StepSucceeded? {
      assert Mirrors(s.job.steps[i], s.attempts[i]);
    }
    forall i | p < i < |s.job.steps| ensures s.job.steps[i].state.StepPending? {
      assert Untouched(s.job, s.attempts, i);
    }
    if n > 0 {
      assert Mirrors(s.job.steps[n - 1], s.attempts[n - 1]);
      assert s.attempts[n - 1] in s.attempts;
    }
    if p == n < |s.job.steps| {
      assert Untouched(s.job, s.attempts, p);
    }
    assert Shape(s.job, s.attempts, p);
  }

  // ---------------------------------------------------------------------
  // Agreement
  // ---------------------------------------------------------------------

  /** The Agent's record of an action and how often it ran, for an Attempt in this state. */
  predicate Matches(state: AttemptState, record: Option<LocalState>, runs: nat) {
    && runs <= 1
    && (state.AttemptSucceeded? ==> Completed(record, OutcomeSucceeded) && runs == 1)
    && (state.AttemptFailed? ==> Completed(record, OutcomeFailed) && runs == 1)
    && (state.AttemptCancelled? ==> record.Some? && record.value.CancelledAction? && runs == 0)
    && (state.Rejected? ==> record.Some? && record.value.RejectedAction? && runs == 0)
  }

  /** An Attempt that ended by evidence matches the Agent's record of its action, now and
      however the run goes on: no action runs twice, and one that was cancelled or
      rejected never runs. */
  lemma Agreement(s: System, run: seq<Step>, more: seq<Step>, k: nat)
    requires Initial(s) && ValidRun(s, run) && ValidRun(Exec(s, run), more)
    requires k < |Exec(s, run).server.attempts|
    ensures var attempt := Exec(s, run).server.attempts[k];
            var later := Exec(Exec(s, run), more);
            var record, runs := Record(later.agent, attempt.actionId), later.executed[attempt.actionId];
            Matches(attempt.state, record, runs)
  {
    Reached(s, run);
    var now := Exec(s, run);
    RunKeeps(now, more);
    assert SameAttempt(now.server.attempts[k], Exec(now, more).server.attempts[k]);
    AgreedNow(Exec(now, more), k);
  }

  lemma AgreedNow(s: System, k: nat)
    requires SystemInv(s) && k < |s.server.attempts|
    ensures var attempt := s.server.attempts[k];
            var record, runs := Record(s.agent, attempt.actionId), s.executed[attempt.actionId];
            && runs == (if record.Some? && record.value.CompletedAction? then 1 else 0)
            && Agrees(attempt.state, record)
  {
    assert Linked(s, k);
  }

  /** The messages that settle an active Attempt. */
  predicate Conclusive(m: Message, attempt: AttemptState, job: JobState) {
    match m
    case ActionResult(_, outcome, _) => !attempt.AwaitingReconciliation?
    case ActionAck(_, accepted, _) => !accepted && attempt.Dispatched?
    case CancelAck(_, outcome) => outcome.AckCancelled? && job.Cancelling?
    case StatusReport(_, known) =>
      && attempt.AwaitingReconciliation?
      && (known.StatusSucceeded? || known.StatusFailed? || (known.StatusCancelled? && job.Cancelling?))
    case _ => false
  }

  /** How an Attempt ends that learns the Agent's final record. */
  function FinalState(record: LocalState): AttemptState {
    match record
    case ActiveAction(_) => InProgress
    case CompletedAction(_, outcome, _) => if outcome.OutcomeSucceeded? then AttemptSucceeded else AttemptFailed
    case RejectedAction(_, _) => Rejected
    case CancelledAction(_) => AttemptCancelled
  }

  /** How the Job goes on from there. */
  function JobAfter(job: JobState, attempt: AttemptState, lastStep: bool): JobState {
    if job.Cancelling? then Cancelled
    else if !attempt.AttemptSucceeded? then Failed
    else if lastStep then Succeeded
    else Running
  }

  /** In every run, a message that was really sent settles an active Attempt exactly when it
      is conclusive; the Attempt then ends as the Agent's record says, and the Job goes on,
      ends or is cancelled accordingly. */
  lemma EvidenceSettles(s: System, run: seq<Step>, m: Message, k: nat)
    requires Initial(s) && ValidRun(s, run) && m in Exec(s, run).net
    requires k < |Exec(s, run).server.attempts|
    requires var t := Exec(s, run).server.attempts[k]; t.actionId == m.actionId && Active(t.state)
    ensures var e := Exec(s, run);
            var before, after := e.server.attempts[k].state, Receive(e.server, m);
            var record := Record(e.agent, m.actionId);
            && |after.attempts| == |e.server.attempts|
            && (!Active(after.attempts[k].state) <==> Conclusive(m, before, e.server.job.state))
            && (Conclusive(m, before, e.server.job.state) ==>
                  && record.Some? && after.attempts[k].state == FinalState(record.value)
                  && after.job.state ==
                     JobAfter(e.server.job.state, FinalState(record.value), k == |e.server.job.steps| - 1))
  {
    Reached(s, run);
    SettlesNow(Exec(s, run), m, k);
  }

  lemma SettlesNow(e: System, m: Message, k: nat)
    requires SystemInv(e) && m in e.net && k < |e.server.attempts|
    requires e.server.attempts[k].actionId == m.actionId && Active(e.server.attempts[k].state)
    ensures var before, after := e.server.attempts[k].state, Receive(e.server, m);
            var record := Record(e.agent, m.actionId);
            && |after.attempts| == |e.server.attempts|
            && (!Active(after.attempts[k].state) <==> Conclusive(m, before, e.server.job.state))
            && (Conclusive(m, before, e.server.job.state) ==>
                  && record.Some? && after.attempts[k].state == FinalState(record.value)
                  && after.job.state ==
                     JobAfter(e.server.job.state, FinalState(record.value), k == |e.server.job.steps| - 1))
  {
    AttemptByAction(e.server.attempts, k);
    ActiveIsLast(e.server, k);
    ReceiveAt(e.server, m, k);
    assert Linked(e, k);
    Settles(m, e.server.job, e.server.job.steps[k], e.server.attempts[k], Record(e.agent, m.actionId));
    LastStepIff(e.server, k);
  }

  lemma Settles(m: Message, job: Job, step: JobStep, attempt: Attempt, record: Option<LocalState>)
    requires Active(attempt.state) && Witnessed(m, record) && Agrees(attempt.state, record)
    requires record.Some? && record.value.CompletedAction? ==> !record.value.outcome.OutcomeCancelled?
    requires job.state.Running? || job.state.Cancelling?
    ensures var decision := Decide(m, job, step, attempt);
            && (Conclusive(m, attempt.state, job.state) <==>
                  decision.Apply? && !Active(decision.applied.attempt.state))
            && (Conclusive(m, attempt.state, job.state) ==>
                  && record.Some? && decision.applied.attempt.state == FinalState(record.value)
                  && decision.applied.job.state ==
                     JobAfter(job.state, FinalState(record.value),
                              EveryStepSucceeded(ReplaceStep(job.steps, step.(state := StepSucceeded)))))
  {
  }

  // ---------------------------------------------------------------------
  // Ended Jobs
  // ---------------------------------------------------------------------

  /** Nothing that can still arrive changes an ended Job, its Attempts, its log or its releases. */
  lemma EndedJobsStay(s: System, run: seq<Step>, more: seq<Step>)
    requires Initial(s) && ValidRun(s, run) && ValidRun(Exec(s, run), more)
    requires TerminalJob(Exec(s, run).server.job.state)
    ensures var now, later := Exec(s, run).server, Exec(Exec(s, run), more).server;
            && later.job.state == now.job.state && later.attempts == now.attempts
            && later.events == now.events && later.released == now.released
  {
    Reached(s, run);
    RunKeeps(Exec(s, run), more);
    EndedRowsStay(Exec(s, run).server, Exec(Exec(s, run), more).server);
  }

  lemma EndedRowsStay(now: Server, later: Server)
    requires ServerInv(now) && ServerInv(later) && Grows(now, later) && TerminalJob(now.job.state)
    ensures later.job.state == now.job.state && later.attempts == now.attempts
    ensures later.events == now.events && later.released == now.released
  {
    forall i | 0 <= i < |now.attempts| ensures later.attempts[i] == now.attempts[i] {
      assert SameAttempt(now.attempts[i], later.attempts[i]) && !Active(now.attempts[i].state);
    }
    assert later.attempts == now.attempts;
  }

  /** Every ended Attempt was released exactly once, and no other. */
  lemma ReleasedOnce(s: System, run: seq<Step>, attemptId: Uuid)
    requires Initial(s) && ValidRun(s, run)
    ensures var e := Exec(s, run).server;
            multiset(e.released)[attemptId] ==
            if exists t :: t in e.attempts && t.id == attemptId && !Active(t.state) then 1 else 0
  {
    Reached(s, run);
    ReleasedByRows(Exec(s, run).server, attemptId);
  }

  lemma ReleasedByRows(s: Server, attemptId: Uuid)
    requires ServerInv(s)
    ensures multiset(s.released)[attemptId] ==
            if exists t :: t in s.attempts && t.id == attemptId && !Active(t.state) then 1 else 0
  {
    EndedIds(s);
    CountReleased(s, attemptId);
  }

  lemma CountReleased(s: Server, attemptId: Uuid)
    requires forall i, j :: 0 <= i < j < |s.released| ==> s.released[i] != s.released[j]
    requires forall k :: 0 <= k < |s.attempts| ==>
               (Active(s.attempts[k].state) <==> |s.released| <= k)
               && (k < |s.released| ==> s.released[k] == s.attempts[k].id)
    requires |s.released| <= |s.attempts|
    ensures multiset(s.released)[attemptId] ==
            if exists t :: t in s.attempts && t.id == attemptId && !Active(t.state) then 1 else 0
  {
    CountDistinct(s.released, attemptId);
    if attemptId in s.released {
      var k :| 0 <= k < |s.released| && s.released[k] == attemptId;
      assert s.attempts[k] in s.attempts && s.attempts[k].id == attemptId;
    }
  }

  lemma EndedIds(s: Server)
    requires ServerInv(s)
    ensures forall i, j :: 0 <= i < j < |s.released| ==> s.released[i] != s.released[j]
    ensures forall k :: 0 <= k < |s.attempts| ==>
              (Active(s.attempts[k].state) <==> |s.released| <= k)
              && (k < |s.released| ==> s.released[k] == s.attempts[k].id)
    ensures |s.released| <= |s.attempts|
  {
  }

  lemma {:induction false} CountDistinct(s: seq<Uuid>, x: Uuid)
    requires forall i, j :: 0 <= i < j < |s| ==> s[i] != s[j]
    ensures multiset(s)[x] == if x in s then 1 else 0
  {
    if s != [] {
      assert s == [s[0]] + s[1..];
      CountDistinct(s[1..], x);
    }
  }

  /** Evidence that can really arrive is applied to active Attempts only, so completing a
      cancellation from an Attempt that had ended on its own never happens. */
  lemma OnlyActiveAttemptsChange(s: System, run: seq<Step>, m: Message)
    requires Initial(s) && ValidRun(s, run) && m in Exec(s, run).net
    ensures var e := Exec(s, run).server;
            match FindAttempt(e.attempts, m.actionId)
            case None => Receive(e, m) == e
            case Some(k) => Active(e.attempts[k].state) || Receive(e, m) == e
  {
    Reached(s, run);
    var e := Exec(s, run);
    var found := FindAttempt(e.server.attempts, m.actionId);
    if found.Some? && !Active(e.server.attempts[found.value].state) {
      assert Linked(e, found.value);
      EndedIgnores(e.server, m, found.value);
    }
  }

  // ---------------------------------------------------------------------
  // The event log
  // ---------------------------------------------------------------------

  /** The event a Job in this state ended with. */
  function EndingEvent(job: Job): Option<DomainEvent> {
    match job.state
    case Succeeded => Some(JobSucceeded(job.id, job.endpointId))
    case Failed => Some(JobFailed(job.id, job.endpointId))
    case Cancelled => Some(JobCancelled(job.id, job.endpointId))
    case _ => None
  }

  /** How often an event belongs in the log, read off the Job and its Attempts. */
  ghost function Occurrences(s: Server, e: DomainEvent): nat {
    match e
    case JobStarted(job, endpoint) =>
      if (job, endpoint) == (s.job.id, s.job.endpointId) && !s.job.state.Pending? then 1 else 0
    case JobSucceeded(_, _) => if EndingEvent(s.job) == Some(e) then 1 else 0
    case JobFailed(_, _) => if EndingEvent(s.job) == Some(e) then 1 else 0
    case JobCancelled(_, _) => if EndingEvent(s.job) == Some(e) then 1 else 0
    case JobStepFailed(job, endpoint, step) =>
      if && (job, endpoint) == (s.job.id, s.job.endpointId)
         && HasFailed(s.job, step) then 1 else 0
    case AttemptIndeterminate(job, endpoint, step, attempt) =>
      if && (job, endpoint) == (s.job.id, s.job.endpointId)
         && Attempted(s, step, attempt) then 1 else 0
  }

  ghost predicate HasFailed(job: Job, step: Uuid) {
    exists x :: x in job.steps && x.id == step && x.state.StepFailed?
  }

  ghost predicate Attempted(s: Server, step: Uuid, attempt: Uuid) {
    exists t :: t in s.attempts && t.id == attempt && t.jobStepId == step && t.state.Indeterminate?
  }

  /** The log holds every event exactly as often as the Job's rows say: one start, one end
      of the matching kind, one failure per failed step, one closure per indeterminate Attempt. */
  lemma RowsDetermineLog(s: System, run: seq<Step>, e: DomainEvent)
    requires Initial(s) && ValidRun(s, run)
    ensures Count(Exec(s, run).server.events, e) == Occurrences(Exec(s, run).server, e)
  {
    Reached(s, run);
    LogCounts(Exec(s, run).server, e);
  }

  lemma FailedStep(s: Server, step: Uuid)
    requires ServerInv(s)
    ensures HasFailed(s.job, step) <==>
            && LastUnsuccessful(s.attempts) && !s.attempts[|s.attempts| - 1].state.AttemptCancelled?
            && s.attempts[|s.attempts| - 1].jobStepId == step
  {
    var n := |s.attempts|;
    forall i | 0 <= i < |s.job.steps| && s.job.steps[i].state.StepFailed?
      ensures i == n - 1
    {
      assert i < n ==> Mirrors(s.job.steps[i], s.attempts[i]);
      assert i >= n ==> Untouched(s.job, s.attempts, i);
    }
    if n > 0 {
      assert Mirrors(s.job.steps[n - 1], s.attempts[n - 1]);
      assert s.job.steps[n - 1] in s.job.steps;
    }
  }

  lemma IndeterminateAttempt(s: Server, step: Uuid, attempt: Uuid)
    requires ServerInv(s)
    ensures Attempted(s, step, attempt) <==>
            && s.attempts != [] && s.attempts[|s.attempts| - 1].state.Indeterminate?
            && s.attempts[|s.attempts| - 1].jobStepId == step && s.attempts[|s.attempts| - 1].id == attempt
  {
  }

  lemma LogCounts(s: Server, e: DomainEvent)
    requires ServerInv(s)
    ensures Count(s.events, e) == Occurrences(s, e)
  {
    if e.JobStepFailed? {
      FailedStep(s, e.stepId);
      FailuresCounted(s.job, s.attempts, e);
    } else if e.AttemptIndeterminate? {
      IndeterminateAttempt(s, e.stepId, e.attemptId);
      ClosuresCounted(s.job, s.attempts, e);
    } else {
      EndsCounted(s.job, s.attempts, e);
    }
  }

  lemma FailuresCounted(job: Job, attempts: seq<Attempt>, e: DomainEvent)
    requires e.JobStepFailed?
    ensures Count(ExpectedLog(job, attempts), e) ==
            if && (e.jobId, e.endpointId) == (job.id, job.endpointId) && LastUnsuccessful(attempts)
               && !attempts[|attempts| - 1].state.AttemptCancelled?
               && attempts[|attempts| - 1].jobStepId == e.stepId then 1 else 0
  {
    CountParts(StartEvents(job), ClosureEvents(job, attempts), FailureEvents(job, attempts), EndEvents(job), e);
    PartCounts(job, attempts, e);
  }

  lemma ClosuresCounted(job: Job, attempts: seq<Attempt>, e: DomainEvent)
    requires e.AttemptIndeterminate?
    ensures Count(ExpectedLog(job, attempts), e) ==
            if && (e.jobId, e.endpointId) == (job.id, job.endpointId)
               && attempts != [] && attempts[|attempts| - 1].state.Indeterminate?
               && attempts[|attempts| - 1].jobStepId == e.stepId
               && attempts[|attempts| - 1].id == e.attemptId then 1 else 0
  {
    CountParts(StartEvents(job), ClosureEvents(job, attempts), FailureEvents(job, attempts), EndEvents(job), e);
    PartCounts(job, attempts, e);
  }

  lemma EndsCounted(job: Job, attempts: seq<Attempt>, e: DomainEvent)
    requires !e.JobStepFailed? && !e.AttemptIndeterminate?
    ensures Count(ExpectedLog(job, attempts), e) ==
            if e.JobStarted? then
              (if (e.jobId, e.endpointId) == (job.id, job.endpointId) && !job.state.Pending? then 1 else 0)
            else (if EndingEvent(job) == Some(e) then 1 else 0)
  {
    CountParts(StartEvents(job), ClosureEvents(job, attempts), FailureEvents(job, attempts), EndEvents(job), e);
    PartCounts(job, attempts, e);
  }

  /** How often an event is in a log. */
  function Count(log: seq<DomainEvent>, e: DomainEvent): nat {
    if log == [] then 0 else Count(log[..|log| - 1], e) + (if log[|log| - 1] == e then 1 else 0)
  }

  lemma {:induction false} CountAppend(a: seq<DomainEvent>, b: seq<DomainEvent>, e: DomainEvent)
    ensures Count(a + b, e) == Count(a, e) + Count(b, e)
  {
    if b == [] {
      assert a + b == a;
    } else {
      CountAppend(a, b[..|b| - 1], e);
      assert (a + b)[..|a + b| - 1] == a + b[..|b| - 1];
    }
  }

  lemma CountParts(a: seq<DomainEvent>, b: seq<DomainEvent>, c: seq<DomainEvent>, d: seq<DomainEvent>, e: DomainEvent)
    ensures Count(a + b + c + d, e) == Count(a, e) + Count(b, e) + Count(c, e) + Count(d, e)
  {
    CountAppend(a + b + c, d, e);
    CountAppend(a + b, c, e);
    CountAppend(a, b, e);
  }

  /** Each part of the log holds one event or none. */
  lemma PartCounts(job: Job, attempts: seq<Attempt>, e: DomainEvent)
    ensures Count(StartEvents(job), e) ==
            if e == JobStarted(job.id, job.endpointId) && !job.state.Pending? then 1 else 0
    ensures Count(ClosureEvents(job, attempts), e) ==
            if ClosureEvents(job, attempts) != [] && e == ClosureEvents(job, attempts)[0] then 1 else 0
    ensures Count(FailureEvents(job, attempts), e) ==
            if FailureEvents(job, attempts) != [] && e == FailureEvents(job, attempts)[0] then 1 else 0
    ensures Count(EndEvents(job), e) == if EndingEvent(job) == Some(e) then 1 else 0
  {
  }

  // ---------------------------------------------------------------------
  // Dispatch
  // ---------------------------------------------------------------------

  /** Steps are dispatched in order, each at most once, through the gate their intent calls
      for, and a Transfer is bound to the Attempt of its own step. */
  lemma DispatchedOnce(s: System, run: seq<Step>)
    requires Initial(s) && ValidRun(s, run)
    ensures var e := Exec(s, run).server;
            && |e.attempts| == |e.payloads| <= |e.job.steps|
            && (forall i :: 0 <= i < |e.attempts| ==> e.attempts[i].jobStepId == e.job.steps[i].id)
            && StrictlyOrdered(e.job.steps) && DistinctSteps(e.job.steps)
            && (forall i :: 0 <= i < |e.attempts| ==> RightPath(e, i))
  {
    Reached(s, run);
    var e := Exec(s, run).server;
    forall i | 0 <= i < |e.attempts| ensures e.attempts[i].jobStepId == e.job.steps[i].id {
      assert Mirrors(e.job.steps[i], e.attempts[i]);
    }
  }

  /** An intent, a bound Transfer, a dispatched payload, an ended Attempt and a logged
      event are final. */
  lemma NothingIsRewritten(s: System, run: seq<Step>, more: seq<Step>)
    requires Initial(s) && ValidRun(s, run) && ValidRun(Exec(s, run), more)
    ensures Grows(Exec(s, run).server, Exec(Exec(s, run), more).server)
  {
    Reached(s, run);
    RunKeeps(Exec(s, run), more);
  }

  // ---------------------------------------------------------------------
  // Rejections learned too late
  // ---------------------------------------------------------------------

  /** The Agent has rejected the action or, not having seen it yet, can only reject it. */
  predicate Refused(record: Option<LocalState>, payload: DispatchContent) {
    if record.Some? then record.value.RejectedAction? else ContentRefusal(payload).Some?
  }

  ghost predicate StuckOnRejection(s: System, k: nat) {
    && SystemInv(s)
    && k < |s.server.attempts|
    && s.server.attempts[k].state.AwaitingReconciliation?
    && Refused(Record(s.agent, s.server.attempts[k].actionId), s.server.payloads[k])
  }

  lemma StuckMoves(s: System, k: nat, step: Step)
    requires StuckOnRejection(s, k) && Enabled(s, step) && step != CloseStep(k)
    ensures var s' := Next(s, step);
            && k < |s'.server.attempts| && s'.server.attempts[k] == s.server.attempts[k]
            && Refused(Record(s'.agent, s.server.attempts[k].actionId), s.server.payloads[k])
  {
    if Quiet(step) {
      StuckQuiet(s, k, step);
    } else if step.ServerReceives? {
      StuckReceive(s, k, step.m);
    } else if step.CloseStep? {
      StuckClose(s.server, k, step.k);
    } else {
      StuckElsewhere(s, k, step);
    }
  }

  lemma StuckQuiet(s: System, k: nat, step: Step)
    requires StuckOnRejection(s, k) && Enabled(s, step) && Quiet(step)
    ensures Next(s, step).server == s.server
    ensures Refused(Record(Next(s, step).agent, s.server.attempts[k].actionId), s.server.payloads[k])
  {
    assert Linked(s, k);
    QuietLinks(s, k, step);
    RefusalEvolves(s, Next(s, step), k);
  }

  lemma RefusalEvolves(s: System, s': System, k: nat)
    requires k < |s.server.attempts| && |s.server.attempts| == |s.server.payloads| && Linked(s, k)
    requires AgentStep(s, s', s.server.attempts[k].actionId)
    requires Refused(Record(s.agent, s.server.attempts[k].actionId), s.server.payloads[k])
    ensures Refused(Record(s'.agent, s.server.attempts[k].actionId), s.server.payloads[k])
  {
  }

  /** No step but the operator's closure moves an uncertain Attempt whose action is refused. */
  lemma StuckStep(s: System, k: nat, step: Step)
    requires StuckOnRejection(s, k) && Enabled(s, step) && step != CloseStep(k)
    ensures StuckOnRejection(Next(s, step), k)
    ensures Next(s, step).server.attempts[k] == s.server.attempts[k]
  {
    StuckMoves(s, k, step);
    NextKeeps(s, step);
  }

  lemma StuckReceive(s: System, k: nat, m: Message)
    requires StuckOnRejection(s, k) && m in s.net
    ensures Receive(s.server, m).attempts == s.server.attempts
  {
    var found := FindAttempt(s.server.attempts, m.actionId);
    ActiveIsLast(s.server, k);
    assert Linked(s, k);
    if found.Some? {
      assert Linked(s, found.value);
      if found.value == k {
        ReceiveAt(s.server, m, k);
      } else {
        EndedIgnores(s.server, m, found.value);
      }
    }
  }

  lemma StuckClose(s: Server, k: nat, j: nat)
    requires k < |s.attempts| && j < |s.attempts| && j != k
    ensures Close(s, j).attempts[k] == s.attempts[k]
  {
  }

  lemma StuckElsewhere(s: System, k: nat, step: Step)
    requires k < |s.server.attempts| && s.server.attempts[k].state.AwaitingReconciliation?
    requires Enabled(s, step) && !Quiet(step) && !step.ServerReceives? && !step.CloseStep?
    ensures var s' := Next(s, step);
            s'.agent == s.agent && k < |s'.server.attempts| && s'.server.attempts[k] == s.server.attempts[k]
  {
  }

  lemma {:induction false} LostRejection(s: System, k: nat, run: seq<Step>)
    requires StuckOnRejection(s, k) && ValidRun(s, run) && CloseStep(k) !in run
    ensures StuckOnRejection(Exec(s, run), k)
    ensures Exec(s, run).server.attempts[k] == s.server.attempts[k]
    decreases |run|
  {
    if run != [] {
      StuckStep(s, k, run[0]);
      LostRejection(Next(s, run[0]), k, run[1..]);
    }
  }

  /** Closure does end it, as Indeterminate, and ends the Job with it. */
  lemma ClosureEnds(s: System, k: nat)
    requires SystemInv(s) && k < |s.server.attempts| && s.server.attempts[k].state.AwaitingReconciliation?
    ensures var s' := Next(s, CloseStep(k)).server;
            && s'.attempts[k] == s.server.attempts[k].(state := Indeterminate)
            && s'.job.state == (if s.server.job.state.Cancelling? then Cancelled else Failed)
  {
    ActiveIsLast(s.server, k);
  }

  // ---------------------------------------------------------------------
  // No dead ends
  // ---------------------------------------------------------------------

  /** Ways to end a Job that need nothing from the Agent. */
  function EndingSteps(s: Server): seq<Step> {
    match s.job.state
    case Pending => [AdmitStep, CancelStep]
    case Running =>
      if LastActive(s.attempts) then
        [CancelStep, LoseConnectionStep(s.attempts[|s.attempts| - 1].actionId), CloseStep(|s.attempts| - 1)]
      else [CancelStep]
    case Cancelling =>
      if s.attempts == [] then []
      else [LoseConnectionStep(s.attempts[|s.attempts| - 1].actionId), CloseStep(|s.attempts| - 1)]
    case _ => []
  }

  /** From every reachable state the operator can end the Job without hearing from the Agent. */
  lemma CanAlwaysEnd(s: System, run: seq<Step>)
    requires Initial(s) && ValidRun(s, run)
    ensures var e := Exec(s, run);
            && ValidRun(e, EndingSteps(e.server))
            && TerminalJob(Exec(e, EndingSteps(e.server)).server.job.state)
  {
    Reached(s, run);
    EndsFrom(Exec(s, run));
  }

  lemma EndsFrom(s: System)
    requires SystemInv(s)
    ensures ValidRun(s, EndingSteps(s.server))
    ensures TerminalJob(Exec(s, EndingSteps(s.server)).server.job.state)
  {
    match s.server.job.state {
      case Pending =>
        NextKeeps(s, AdmitStep);
        CancelEndsIdle(Next(s, AdmitStep));
        TwoSteps(s, AdmitStep, CancelStep);
      case Running =>
        if LastActive(s.server.attempts) {
          CancelMarks(s);
          NextKeeps(s, CancelStep);
          var t := Next(s, CancelStep);
          CancellingEnds(t);
          assert EndingSteps(s.server) == [CancelStep] + EndingSteps(t.server);
          Prepend(s, CancelStep, EndingSteps(t.server));
        } else {
          CancelEndsIdle(s);
          Prepend(s, CancelStep, []);
          assert EndingSteps(s.server) == [CancelStep] + [];
        }
      case Cancelling => CancellingEnds(s);
      case _ =>
    }
  }

  lemma Prepend(s: System, step: Step, rest: seq<Step>)
    requires Enabled(s, step) && ValidRun(Next(s, step), rest)
    ensures ValidRun(s, [step] + rest) && Exec(s, [step] + rest) == Exec(Next(s, step), rest)
  {
  }

  lemma TwoSteps(s: System, first: Step, second: Step)
    requires Enabled(s, first) && Enabled(Next(s, first), second)
    ensures ValidRun(s, [first, second]) && Exec(s, [first, second]) == Next(Next(s, first), second)
  {
    Prepend(Next(s, first), second, []);
    assert [second] == [second] + [] && [first, second] == [first] + [second];
    Prepend(s, first, [second]);
  }

  lemma CancelEndsIdle(s: System)
    requires SystemInv(s) && s.server.job.state.Running? && !LastActive(s.server.attempts)
    ensures Next(s, CancelStep).server.job.state.Cancelled?
  {
    CancelEffect(s.server);
  }

  lemma CancelMarks(s: System)
    requires SystemInv(s) && s.server.job.state.Running? && LastActive(s.server.attempts)
    ensures Next(s, CancelStep).server == s.server.(job := s.server.job.(state := Cancelling))
  {
  }

  lemma CancellingEnds(s: System)
    requires SystemInv(s) && s.server.job.state.Cancelling?
    ensures ValidRun(s, EndingSteps(s.server))
    ensures Exec(s, EndingSteps(s.server)).server.job.state.Cancelled?
  {
    var k := |s.server.attempts| - 1;
    var lose := LoseConnectionStep(s.server.attempts[k].actionId);
    AttemptByAction(s.server.attempts, k);
    NextKeeps(s, lose);
    ClosureEnds(Next(s, lose), k);
    TwoSteps(s, lose, CloseStep(k));
  }
}
