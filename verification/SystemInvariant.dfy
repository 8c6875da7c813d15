/** What every step of Server, Agent and network keeps: the Server's rows, the Agent's
    record and the messages in between tell one story about every dispatched action. */
module SystemInvariant {
  import opened Workflow
  import opened Evidence
  import opened Dispatch
  import opened ActionAgent
  import opened Protocol
  import opened ServerInvariant

  // ---------------------------------------------------------------------
  // One action
  // ---------------------------------------------------------------------

  function Record(agent: AgentState, actionId: Uuid): Option<LocalState> {
    if actionId in agent.local then Some(agent.local[actionId]) else None
  }

  /** How the Agent's record of an action may change. */
  predicate Evolves(before: Option<LocalState>, after: Option<LocalState>) {
    || before == after
    || before.None?
    || (&& before.value.ActiveAction? && after.Some? && after.value.content == before.value.content
        && (after.value.CompletedAction? || after.value.CancelledAction?))
  }

  predicate Completed(record: Option<LocalState>, outcome: ResultOutcome) {
    record.Some? && record.value.CompletedAction? && record.value.outcome == outcome
  }

  /** What a message from the Agent says about its record of the action. */
  predicate Witnessed(m: Message, record: Option<LocalState>) {
    match m
    case ActionAck(_, accepted, _) => record.Some? && (record.value.RejectedAction? <==> !accepted)
    case ActionProgress(_, _) => record.Some? && record.value.CompletedAction?
    case ActionResult(_, outcome, _) => Completed(record, outcome)
    case CancelAck(_, AckCancelled) => record.Some? && record.value.CancelledAction?
    case CancelAck(_, AckAlreadyCompleted) =>
      record.Some? && (record.value.CompletedAction? || record.value.RejectedAction?)
    case StatusReport(_, StatusAccepted) => false
    case StatusReport(_, StatusRunning) => record.Some? && !record.value.RejectedAction?
    case StatusReport(_, StatusSucceeded) => Completed(record, OutcomeSucceeded)
    case StatusReport(_, StatusFailed) => Completed(record, OutcomeFailed)
    case StatusReport(_, StatusCancelled) => record.Some? && record.value.CancelledAction?
    case _ => true
  }

  /** What the state of an Attempt says about the Agent's record of its action. */
  predicate Agrees(state: AttemptState, record: Option<LocalState>) {
    match state
    case InProgress => record.Some? && !record.value.RejectedAction?
    case AttemptSucceeded => Completed(record, OutcomeSucceeded)
    case AttemptFailed => Completed(record, OutcomeFailed)
    case AttemptCancelled => record.Some? && record.value.CancelledAction?
    case Rejected => record.Some? && record.value.RejectedAction?
    case Dispatched | AwaitingReconciliation | Indeterminate => true
  }

  /** Everything known about the action of one Attempt: `last` tells whether it is the
      Job's last Attempt. */
  ghost predicate Link(
    net: set<Message>, record: Option<LocalState>, runs: nat,
    attempt: Attempt, payload: DispatchContent, last: bool, job: JobState)
  {
    var a := attempt.actionId;
    && (forall m :: m in net && m.actionId == a ==> Witnessed(m, record))
    && ActionDispatch(a, payload) in net
    && (forall m :: m in net && m.actionId == a && m.ActionDispatch? ==> m.content == payload)
    && (forall m :: m in net && m.actionId == a && m.CancelAck? ==> CancelAction(a) in net)
    && (CancelAction(a) in net ==> last && (job.Cancelling? || job.Cancelled?))
    && (record.Some? ==> record.value.content == payload)
    && (record.Some? && record.value.CancelledAction? ==> CancelAction(a) in net)
    && (record.Some? && record.value.CompletedAction? ==> !record.value.outcome.OutcomeCancelled?)
    && runs == (if record.Some? && record.value.CompletedAction? then 1 else 0)
    && Agrees(attempt.state, record)
  }

  ghost predicate Linked(s: System, k: nat)
    requires k < |s.server.attempts| && |s.server.attempts| == |s.server.payloads|
  {
    var t := s.server.attempts[k];
    Link(s.net, Record(s.agent, t.actionId), s.executed[t.actionId], t, s.server.payloads[k],
         k == |s.server.attempts| - 1, s.server.job.state)
  }

  ghost predicate Links(s: System) {
    && |s.server.attempts| == |s.server.payloads|
    && forall k :: 0 <= k < |s.server.attempts| ==> Linked(s, k)
  }

  ghost predicate SystemInv(s: System) {
    ServerInv(s.server) && Links(s)
  }

  /** Evidence the Agent really gave leads the Attempt to a state that agrees with it. */
  lemma DecisionAgrees(m: Message, job: Job, step: JobStep, attempt: Attempt, record: Option<LocalState>)
    requires Witnessed(m, record) && Agrees(attempt.state, record)
    requires Decide(m, job, step, attempt).Apply?
    ensures Agrees(Decide(m, job, step, attempt).applied.attempt.state, record)
  {
  }

  // ---------------------------------------------------------------------
  // What only grows
  // ---------------------------------------------------------------------

  predicate Later(before: JobState, after: JobState) {
    match before
    case Pending => true
    case Running => !after.Pending?
    case Cancelling => after.Cancelling? || after.Cancelled?
    case Succeeded | Failed | Cancelled => after == before
  }

  predicate SameStep(before: JobStep, after: JobStep) {
    && after.id == before.id && after.jobId == before.jobId && after.order == before.order
    && (before.intent.Some? ==> after.intent == before.intent)
  }

  predicate SameAttempt(before: Attempt, after: Attempt) {
    && after == before.(state := after.state)
    && (Active(before.state) || after.state == before.state)
  }

  /** Rows are never lost: ended Attempts, set intents, bound Transfers, logged events
      and ended Jobs stay as they are. */
  ghost predicate Grows(s: Server, s': Server) {
    && s'.job.id == s.job.id && s'.job.endpointId == s.job.endpointId
    && Later(s.job.state, s'.job.state)
    && |s'.job.steps| == |s.job.steps|
    && (forall i :: 0 <= i < |s.job.steps| ==> SameStep(s.job.steps[i], s'.job.steps[i]))
    && |s.attempts| <= |s'.attempts|
    && (forall i :: 0 <= i < |s.attempts| ==> SameAttempt(s.attempts[i], s'.attempts[i]))
    && (|s.attempts| < |s'.attempts| ==> s.job.state.Pending? || s.job.state.Running?)
    && s.payloads <= s'.payloads
    && s.events <= s'.events
    && s.released <= s'.released
    && (forall t :: t in s.transfers ==>
          t in s'.transfers && (s.transfers[t].attemptId.Some? ==> s'.transfers[t] == s.transfers[t]))
  }

  lemma GrowsTransitive(a: Server, b: Server, c: Server)
    requires Grows(a, b) && Grows(b, c)
    ensures Grows(a, c)
  {
  }

  /** A decision about one Attempt that touches nothing else. */
  ghost predicate Local(job: Job, step: JobStep, attempt: Attempt, applied: Applied) {
    && applied.attempt == attempt.(state := applied.attempt.state)
    && SameStep(step, applied.step)
    && applied.job == job.(state := applied.job.state, steps := applied.job.steps)
    && (applied.job.steps == job.steps || applied.job.steps == ReplaceStep(job.steps, applied.step))
    && Later(job.state, applied.job.state)
  }

  lemma DecisionLocal(m: Message, job: Job, step: JobStep, attempt: Attempt)
    requires job.state.Running? || job.state.Cancelling?
    requires Decide(m, job, step, attempt).Apply?
    ensures Local(job, step, attempt, Decide(m, job, step, attempt).applied)
  {
  }

  lemma AppliedGrows(s: Server, k: nat, applied: Applied)
    requires DistinctSteps(s.job.steps) && k < |s.attempts| <= |s.job.steps| && Active(s.attempts[k].state)
    requires Local(s.job, s.job.steps[k], s.attempts[k], applied)
    ensures Grows(s, Commit(s, k, applied))
  {
  }

  lemma ReceiveGrows(s: Server, m: Message)
    requires ServerInv(s)
    requires m.CancelAck? && m.cancelOutcome.AckAlreadyCompleted? && s.job.state.Cancelling? ==>
               m.actionId == s.attempts[|s.attempts| - 1].actionId
    ensures Grows(s, Receive(s, m))
  {
    var found := FindAttempt(s.attempts, m.actionId);
    if found.Some? {
      var k := found.value;
      if Active(s.attempts[k].state) {
        ActiveIsLast(s, k);
        if Decide(m, s.job, s.job.steps[k], s.attempts[k]).Apply? {
          DecisionLocal(m, s.job, s.job.steps[k], s.attempts[k]);
          AppliedGrows(s, k, Decide(m, s.job, s.job.steps[k], s.attempts[k]).applied);
        }
      } else {
        EndedIgnores(s, m, k);
      }
    }
  }

  /** An ended Attempt is changed by no evidence. */
  lemma EndedIgnores(s: Server, m: Message, k: nat)
    requires ServerInv(s) && FindAttempt(s.attempts, m.actionId) == Some(k)
    requires !Active(s.attempts[k].state)
    requires m.CancelAck? && m.cancelOutcome.AckAlreadyCompleted? ==> !s.job.state.Cancelling?
    ensures Receive(s, m) == s
  {
    ReceiveAt(s, m, k);
    assert !Decide(m, s.job, s.job.steps[k], s.attempts[k]).Apply?;
  }

  lemma CloseGrows(s: Server, k: nat)
    requires ServerInv(s) && k < |s.attempts|
    ensures Grows(s, Close(s, k))
  {
    if s.attempts[k].state.AwaitingReconciliation? {
      ActiveIsLast(s, k);
      AppliedGrows(s, k, CloseIndeterminate(s.job, s.job.steps[k], s.attempts[k]).applied);
    }
  }

  /** Rewriting a step that was found by its identity. */
  lemma PersistStepGrows(s: Server, stepId: Uuid, step: JobStep)
    requires DistinctSteps(s.job.steps)
    requires FindStep(s.job.steps, stepId).Some? && SameStep(FindStep(s.job.steps, stepId).value, step)
    ensures Grows(s, PersistStep(s, step))
  {
  }

  lemma PersistAttemptGrows(s: Server, stepId: Uuid, step: JobStep, attempt: Attempt, payload: DispatchContent)
    requires DistinctSteps(s.job.steps) && s.job.state.Running?
    requires FindStep(s.job.steps, stepId).Some? && SameStep(FindStep(s.job.steps, stepId).value, step)
    ensures Grows(s, PersistAttempt(s, step, attempt, payload))
  {
  }

  lemma DestructiveGrows(s: Server, stepId: Uuid, facts: GateFacts, attemptId: Uuid, actionId: Uuid)
    requires DistinctSteps(s.job.steps)
    ensures Grows(s, DispatchDestructive(s, stepId, facts, attemptId, actionId).0)
  {
    var existing := HasActiveAttempt(s.attempts, stepId);
    DestructiveGateIff(s.job, stepId, existing, facts, attemptId, actionId);
    var r := EvaluateDestructiveDispatch(s.job, stepId, existing, facts, attemptId, actionId);
    if r.Ok? {
      PersistAttemptGrows(s, stepId, r.value.step, r.value.attempt, SIMULATED_CONTENT);
    } else if r.error.pendingStep.Some? {
      PersistStepGrows(s, stepId, r.error.pendingStep.value);
    }
  }

  lemma TransferGrows(s: Server, stepId: Uuid, transferId: Uuid, attemptId: Uuid, actionId: Uuid)
    requires DistinctSteps(s.job.steps) && transferId in s.transfers
    requires s.transfers[transferId].attemptId != Some(attemptId)
    ensures Grows(s, DispatchTransfer(s, stepId, transferId, attemptId, actionId).0)
  {
    var existing := HasActiveAttempt(s.attempts, stepId);
    TransferGateIff(s.job, stepId, existing, s.transfers[transferId], attemptId, actionId);
    var r := EvaluateTransferDispatch(s.job, stepId, existing, s.transfers[transferId], attemptId, actionId);
    if r.Ok? {
      PersistAttemptGrows(s, stepId, r.value.step, r.value.attempt, TransferContent(r.value.transfer));
    } else if r.error.pendingStep.Some? {
      PersistStepGrows(s, stepId, r.error.pendingStep.value);
    }
  }

  // ---------------------------------------------------------------------
  // Links across steps
  // ---------------------------------------------------------------------

  /** A Server decision that sends nothing and dispatches nothing. */
  lemma ServerStepKeeps(s: System, server: Server)
    requires Links(s) && Grows(s.server, server)
    requires |server.attempts| == |s.server.attempts| && server.payloads == s.server.payloads
    requires forall k :: 0 <= k < |server.attempts| ==>
               || server.attempts[k] == s.server.attempts[k]
               || Agrees(server.attempts[k].state, Record(s.agent, server.attempts[k].actionId))
    ensures Links(s.(server := server))
  {
    forall k | 0 <= k < |server.attempts| ensures Linked(s.(server := server), k) {
      assert Linked(s, k);
      ServerStepLinked(s, server, k);
    }
  }

  lemma ServerStepLinked(s: System, server: Server, k: nat)
    requires Grows(s.server, server)
    requires k < |server.attempts| == |s.server.attempts| == |s.server.payloads| && Linked(s, k)
    requires server.payloads == s.server.payloads
    requires || server.attempts[k] == s.server.attempts[k]
             || Agrees(server.attempts[k].state, Record(s.agent, server.attempts[k].actionId))
    ensures Linked(s.(server := server), k)
  {
    assert SameAttempt(s.server.attempts[k], server.attempts[k]);
  }

  /** A step that leaves the Server alone, for one action: the record evolves, new
      messages bear witness of it, and runs are counted. */
  ghost predicate AgentStep(s: System, s': System, a: Uuid) {
    var before, after := Record(s.agent, a), Record(s'.agent, a);
    && Evolves(before, after)
    && (forall m :: m in s'.net && m !in s.net && m.actionId == a ==>
          && Witnessed(m, after) && !m.ActionDispatch? && !m.CancelAction?
          && (m.CancelAck? ==> CancelAction(a) in s.net))
    && (before.None? && after.Some? ==>
          (after.value.ActiveAction? || after.value.RejectedAction?)
          && (after.value.ActiveAction? ==> ContentRefusal(after.value.content).None?)
          && ActionDispatch(a, after.value.content) in s.net)
    && (after.Some? && after.value.CancelledAction? && before != after ==> CancelAction(a) in s.net)
    && (after.Some? && after.value.CompletedAction? && before != after ==> !after.value.outcome.OutcomeCancelled?)
    && s'.executed[a] ==
       s.executed[a] + (if after.Some? && after.value.CompletedAction? && before != after then 1 else 0)
  }

  lemma AgentStepKeeps(s: System, s': System)
    requires Links(s) && s'.server == s.server && s.net <= s'.net
    requires forall k :: 0 <= k < |s.server.attempts| ==> AgentStep(s, s', s.server.attempts[k].actionId)
    ensures Links(s')
  {
    forall k | 0 <= k < |s.server.attempts| ensures Linked(s', k) {
      LinkEvolves(s, s', k);
    }
  }

  lemma LinkEvolves(s: System, s': System, k: nat)
    requires k < |s.server.attempts| && |s.server.attempts| == |s.server.payloads| && Linked(s, k)
    requires s'.server == s.server && s.net <= s'.net && AgentStep(s, s', s.server.attempts[k].actionId)
    ensures Linked(s', k)
  {
  }

  /** Agent steps about another action leave this one alone. */
  lemma OtherAction(s: System, s': System, a: Uuid)
    requires Record(s'.agent, a) == Record(s.agent, a) && s'.executed[a] == s.executed[a]
    requires forall m :: m in s'.net && m !in s.net ==> m.actionId != a
    ensures AgentStep(s, s', a)
  {
  }

  lemma DispatchLinks(s: System, k: nat, content: DispatchContent)
    requires k < |s.server.attempts| && |s.server.attempts| == |s.server.payloads| && Linked(s, k)
    requires Enabled(s, AgentReceives(ActionDispatch(s.server.attempts[k].actionId, content)))
    ensures var a := s.server.attempts[k].actionId;
            AgentStep(s, Next(s, AgentReceives(ActionDispatch(a, content))), a)
  {
    var a := s.server.attempts[k].actionId;
    var (after, sent) := OnDispatch(s.agent, a, content);
    var s' := Next(s, AgentReceives(ActionDispatch(a, content)));
    assert |sent| == 1 && forall m :: m in s'.net && m !in s.net ==> m == sent[0];
    assert s'.agent == after;
  }

  lemma CancelLinks(s: System, k: nat)
    requires k < |s.server.attempts| && |s.server.attempts| == |s.server.payloads| && Linked(s, k)
    requires Enabled(s, AgentReceives(CancelAction(s.server.attempts[k].actionId)))
    ensures var a := s.server.attempts[k].actionId;
            AgentStep(s, Next(s, AgentReceives(CancelAction(a))), a)
  {
    var a := s.server.attempts[k].actionId;
    var (after, sent) := OnCancel(s.agent, a);
    var s' := Next(s, AgentReceives(CancelAction(a)));
    assert s'.agent == after && s'.net == s.net + {sent};
  }

  lemma QueryLinks(s: System, k: nat)
    requires k < |s.server.attempts| && |s.server.attempts| == |s.server.payloads| && Linked(s, k)
    requires Enabled(s, AgentReceives(StatusQuery(s.server.attempts[k].actionId)))
    ensures var a := s.server.attempts[k].actionId;
            AgentStep(s, Next(s, AgentReceives(StatusQuery(a))), a)
  {
  }

  lemma DeliverLinks(s: System, k: nat, m: Message)
    requires k < |s.server.attempts| && |s.server.attempts| == |s.server.payloads| && Linked(s, k)
    requires Enabled(s, AgentReceives(m))
    ensures AgentStep(s, Next(s, AgentReceives(m)), s.server.attempts[k].actionId)
  {
    var a := s.server.attempts[k].actionId;
    if m.actionId != a || !(m.ActionDispatch? || m.CancelAction? || m.StatusQuery?) {
      DeliverOther(s, m, a);
    } else if m.ActionDispatch? {
      DispatchLinks(s, k, m.content);
    } else if m.CancelAction? {
      CancelLinks(s, k);
    } else {
      QueryLinks(s, k);
    }
  }

  lemma DeliverOther(s: System, m: Message, a: Uuid)
    requires Enabled(s, AgentReceives(m))
    requires m.actionId != a || !(m.ActionDispatch? || m.CancelAction? || m.StatusQuery?)
    ensures AgentStep(s, Next(s, AgentReceives(m)), a)
  {
    var s' := Next(s, AgentReceives(m));
    var (after, sent) := Deliver(s.agent, m);
    assert forall x :: x in sent ==> x.actionId == m.actionId;
    OtherAction(s, s', a);
  }

  lemma RunLinks(s: System, k: nat, actionId: Uuid)
    requires k < |s.server.attempts| && |s.server.attempts| == |s.server.payloads| && Linked(s, k)
    requires Enabled(s, AgentRuns(actionId))
    ensures AgentStep(s, Next(s, AgentRuns(actionId)), s.server.attempts[k].actionId)
  {
  }

  lemma ReceiveStep(s: System, m: Message)
    requires SystemInv(s) && m in s.net
    ensures SystemInv(s.(server := Receive(s.server, m)))
    ensures Grows(s.server, Receive(s.server, m))
  {
    var found := FindAttempt(s.server.attempts, m.actionId);
    if found.None? {
      GrowsReflexive(s.server);
    } else {
      AckIsForLast(s, m, found.value);
      ReceiveServer(s.server, m);
      ReceiveLinks(s, m, found.value);
    }
  }

  /** A cancel acknowledgement is about the Job's last Attempt. */
  lemma AckIsForLast(s: System, m: Message, k: nat)
    requires Links(s) && m in s.net && k < |s.server.attempts| && s.server.attempts[k].actionId == m.actionId
    ensures m.CancelAck? ==> k == |s.server.attempts| - 1
  {
    assert Linked(s, k);
  }

  lemma ReceiveLinks(s: System, m: Message, k: nat)
    requires Links(s) && DistinctSteps(s.server.job.steps) && Linear(s.server.job, s.server.attempts)
    requires m in s.net && FindAttempt(s.server.attempts, m.actionId) == Some(k)
    requires Grows(s.server, Receive(s.server, m))
    ensures Links(s.(server := Receive(s.server, m)))
  {
    assert Linked(s, k);
    ReceiveAgrees(s, m, k);
    ServerStepKeeps(s, Receive(s.server, m));
  }

  lemma GrowsReflexive(s: Server)
    ensures Grows(s, s)
  {
  }

  lemma ReceiveServer(s: Server, m: Message)
    requires ServerInv(s)
    requires m.CancelAck? && m.cancelOutcome.AckAlreadyCompleted? && s.job.state.Cancelling? ==>
               m.actionId == s.attempts[|s.attempts| - 1].actionId
    ensures ServerInv(Receive(s, m)) && Grows(s, Receive(s, m))
  {
    ReceiveKeeps(s, m);
    ReceiveGrows(s, m);
  }

  lemma ReceiveAgrees(s: System, m: Message, k: nat)
    requires DistinctSteps(s.server.job.steps) && Linear(s.server.job, s.server.attempts)
    requires |s.server.attempts| == |s.server.payloads|
    requires m in s.net && FindAttempt(s.server.attempts, m.actionId) == Some(k) && Linked(s, k)
    ensures var server := Receive(s.server, m);
            && |server.attempts| == |s.server.attempts| && server.payloads == s.server.payloads
            && forall i :: 0 <= i < |server.attempts| ==>
                 || server.attempts[i] == s.server.attempts[i]
                 || Agrees(server.attempts[i].state, Record(s.agent, server.attempts[i].actionId))
  {
    var decision := Decide(m, s.server.job, s.server.job.steps[k], s.server.attempts[k]);
    ReceiveAt(s.server, m, k);
    if decision.Apply? {
      DecisionAgrees(m, s.server.job, s.server.job.steps[k], s.server.attempts[k], Record(s.agent, m.actionId));
    }
  }

  /** A freshly dispatched Attempt: its action is new to everyone. */
  lemma AttemptStepKeeps(s: System, server: Server, attempt: Attempt, payload: DispatchContent)
    requires Links(s) && Fresh(s, attempt.id, attempt.actionId) && attempt.state.Dispatched?
    requires server.job.state == s.server.job.state == Running
    requires server.attempts == s.server.attempts + [attempt] && server.payloads == s.server.payloads + [payload]
    ensures Links(s.(server := server, net := s.net + {ActionDispatch(attempt.actionId, payload)}))
  {
    var s' := s.(server := server, net := s.net + {ActionDispatch(attempt.actionId, payload)});
    forall k | 0 <= k < |server.attempts| ensures Linked(s', k) {
      if k < |s.server.attempts| {
        assert Linked(s, k);
        AttemptStepLinked(s, server, attempt, payload, k);
      }
    }
  }

  lemma AttemptStepLinked(s: System, server: Server, attempt: Attempt, payload: DispatchContent, k: nat)
    requires k < |s.server.attempts| == |s.server.payloads| && Linked(s, k)
    requires Fresh(s, attempt.id, attempt.actionId)
    requires server.job.state == s.server.job.state == Running
    requires server.attempts == s.server.attempts + [attempt] && server.payloads == s.server.payloads + [payload]
    ensures Linked(s.(server := server, net := s.net + {ActionDispatch(attempt.actionId, payload)}), k)
  {
    assert Owns(s.server, s.server.attempts[k].actionId);
  }

  lemma FreshRows(s: System, attemptId: Uuid, actionId: Uuid)
    requires Fresh(s, attemptId, actionId)
    ensures FreshFor(s.server, attemptId, actionId)
  {
  }

  /** A gate either commits one new Attempt and sends its dispatch, or changes no Attempt. */
  ghost predicate OneDispatch(s: Server, s': Server, sent: set<Message>, attemptId: Uuid, actionId: Uuid) {
    if sent == {} then
      s'.attempts == s.attempts && s'.payloads == s.payloads
    else
      && s.job.state.Running? && s'.job.state.Running?
      && |s'.attempts| == |s'.payloads| == |s.attempts| + 1
      && var last := |s.attempts|;
      && s'.attempts == s.attempts + [s'.attempts[last]] && s'.payloads == s.payloads + [s'.payloads[last]]
      && s'.attempts[last].id == attemptId && s'.attempts[last].actionId == actionId
      && s'.attempts[last].state.Dispatched?
      && sent == {ActionDispatch(actionId, s'.payloads[last])}
  }

  lemma TransferShape(s: Server, stepId: Uuid, transferId: Uuid, attemptId: Uuid, actionId: Uuid)
    requires transferId in s.transfers && |s.attempts| == |s.payloads|
    ensures var (s', sent) := DispatchTransfer(s, stepId, transferId, attemptId, actionId);
            OneDispatch(s, s', sent, attemptId, actionId)
  {
  }

  lemma DestructiveShape(s: Server, stepId: Uuid, facts: GateFacts, attemptId: Uuid, actionId: Uuid)
    requires |s.attempts| == |s.payloads|
    ensures var (s', sent) := DispatchDestructive(s, stepId, facts, attemptId, actionId);
            OneDispatch(s, s', sent, attemptId, actionId)
  {
  }

  lemma DestructiveServer(s: Server, stepId: Uuid, facts: GateFacts, attemptId: Uuid, actionId: Uuid)
    requires ServerInv(s) && FreshFor(s, attemptId, actionId)
    ensures var (s', sent) := DispatchDestructive(s, stepId, facts, attemptId, actionId);
            ServerInv(s') && Grows(s, s') && OneDispatch(s, s', sent, attemptId, actionId)
  {
    DestructiveKeeps(s, stepId, facts, attemptId, actionId);
    DestructiveGrows(s, stepId, facts, attemptId, actionId);
    DestructiveShape(s, stepId, facts, attemptId, actionId);
  }

  lemma TransferServer(s: Server, stepId: Uuid, transferId: Uuid, attemptId: Uuid, actionId: Uuid)
    requires ServerInv(s) && FreshFor(s, attemptId, actionId) && transferId in s.transfers
    ensures var (s', sent) := DispatchTransfer(s, stepId, transferId, attemptId, actionId);
            ServerInv(s') && Grows(s, s') && OneDispatch(s, s', sent, attemptId, actionId)
  {
    TransferKeeps(s, stepId, transferId, attemptId, actionId);
    TransferGrows(s, stepId, transferId, attemptId, actionId);
    TransferShape(s, stepId, transferId, attemptId, actionId);
  }

  lemma GateStepKeeps(s: System, server: Server, sent: set<Message>, attemptId: Uuid, actionId: Uuid)
    requires Links(s) && Fresh(s, attemptId, actionId) && Grows(s.server, server)
    requires OneDispatch(s.server, server, sent, attemptId, actionId)
    ensures Links(s.(server := server, net := s.net + sent))
  {
    if sent == {} {
      ServerStepKeeps(s, server);
      assert s.net + sent == s.net;
    } else {
      var last := |server.attempts| - 1;
      AttemptStepKeeps(s, server, server.attempts[last], server.payloads[last]);
    }
  }

  lemma DestructiveStepKeeps(s: System, stepId: Uuid, facts: GateFacts, attemptId: Uuid, actionId: Uuid)
    requires SystemInv(s) && Fresh(s, attemptId, actionId)
    ensures var (server, sent) := DispatchDestructive(s.server, stepId, facts, attemptId, actionId);
            SystemInv(s.(server := server, net := s.net + sent)) && Grows(s.server, server)
  {
    FreshRows(s, attemptId, actionId);
    DestructiveServer(s.server, stepId, facts, attemptId, actionId);
    var (server, sent) := DispatchDestructive(s.server, stepId, facts, attemptId, actionId);
    GateStepKeeps(s, server, sent, attemptId, actionId);
  }

  lemma TransferStepKeeps(s: System, stepId: Uuid, transferId: Uuid, attemptId: Uuid, actionId: Uuid)
    requires SystemInv(s) && Fresh(s, attemptId, actionId) && transferId in s.server.transfers
    ensures var (server, sent) := DispatchTransfer(s.server, stepId, transferId, attemptId, actionId);
            SystemInv(s.(server := server, net := s.net + sent)) && Grows(s.server, server)
  {
    FreshRows(s, attemptId, actionId);
    TransferServer(s.server, stepId, transferId, attemptId, actionId);
    var (server, sent) := DispatchTransfer(s.server, stepId, transferId, attemptId, actionId);
    GateStepKeeps(s, server, sent, attemptId, actionId);
  }

  lemma CancelStepKeeps(s: System)
    requires SystemInv(s)
    ensures AtMostOneActive(s.server.attempts)
    ensures var (server, sent) := Cancel(s.server);
            SystemInv(s.(server := server, net := s.net + sent)) && Grows(s.server, server)
  {
    CancelKeeps(s.server);
    CancelEffect(s.server);
    var (server, sent) := Cancel(s.server);
    CancelGrows(s.server);
    var s' := s.(server := server, net := s.net + sent);
    forall k | 0 <= k < |s.server.attempts| ensures Linked(s', k) {
      CancelLinked(s, k, server.job.state, sent);
    }
  }

  lemma CancelGrows(s: Server)
    requires forall i :: 0 <= i < |s.attempts| - 1 ==> !Active(s.attempts[i].state)
    ensures Grows(s, Cancel(s).0)
  {
  }

  lemma CancelLinked(s: System, k: nat, state: JobState, sent: set<Message>)
    requires k < |s.server.attempts| && |s.server.attempts| == |s.server.payloads| && Linked(s, k)
    requires DistinctAttempts(s.server.attempts) && Later(s.server.job.state, state)
    requires sent != {} ==> state.Cancelling? && sent == {CancelAction(s.server.attempts[|s.server.attempts| - 1].actionId)}
    ensures Linked(s.(server := s.server.(job := s.server.job.(state := state)), net := s.net + sent), k)
  {
  }

  lemma UncertainStepKeeps(s: System, attempts: seq<Attempt>)
    requires SystemInv(s) && |attempts| == |s.server.attempts|
    requires forall i :: 0 <= i < |attempts| ==>
               attempts[i] == s.server.attempts[i] || attempts[i] == Uncertain(s.server.attempts[i])
    ensures SystemInv(s.(server := s.server.(attempts := attempts)))
    ensures Grows(s.server, s.server.(attempts := attempts))
  {
    UncertainKeeps(s.server, attempts);
    UncertainGrows(s.server, attempts);
    ServerStepKeeps(s, s.server.(attempts := attempts));
  }

  lemma UncertainGrows(s: Server, attempts: seq<Attempt>)
    requires |attempts| == |s.attempts|
    requires forall i :: 0 <= i < |attempts| ==>
               attempts[i] == s.attempts[i] || attempts[i] == Uncertain(s.attempts[i])
    ensures Grows(s, s.(attempts := attempts))
    ensures forall i :: 0 <= i < |attempts| ==>
              attempts[i] == s.attempts[i] || attempts[i].state.AwaitingReconciliation?
  {
  }

  lemma CloseShape(s: Server, k: nat)
    requires k < |s.attempts|
    ensures var s' := Close(s, k);
            && |s'.attempts| == |s.attempts| && s'.payloads == s.payloads
            && forall i :: 0 <= i < |s.attempts| ==>
                 s'.attempts[i] == s.attempts[i] || s'.attempts[i].state.Indeterminate?
  {
  }

  lemma CloseStepKeeps(s: System, k: nat)
    requires SystemInv(s) && k < |s.server.attempts|
    ensures SystemInv(s.(server := Close(s.server, k)))
    ensures Grows(s.server, Close(s.server, k))
  {
    CloseKeeps(s.server, k);
    CloseGrows(s.server, k);
    CloseShape(s.server, k);
    ServerStepKeeps(s, Close(s.server, k));
  }

  lemma CreateTransferKeeps(s: Server, transfer: Transfer)
    requires ServerInv(s) && transfer.id !in s.transfers && transfer.attemptId.None?
    ensures ServerInv(s.(transfers := s.transfers[transfer.id := transfer]))
  {
    CreateTransferRecord(s, transfer);
  }

  lemma CreateTransferRecord(s: Server, transfer: Transfer)
    requires Dispatches(s) && transfer.id !in s.transfers && transfer.attemptId.None?
    ensures Dispatches(s.(transfers := s.transfers[transfer.id := transfer]))
  {
    var s' := s.(transfers := s.transfers[transfer.id := transfer]);
    forall k | 0 <= k < |s'.attempts| ensures RightPath(s', k) {
      assert RightPath(s, k);
      if s.job.steps[k].intent.None? {
        var t :| t in s.transfers && Binds(s.transfers[t], s.attempts[k], s.payloads[k]);
        assert Binds(s'.transfers[t], s'.attempts[k], s'.payloads[k]);
      }
    }
  }

  lemma AuthorizeStepKeeps(s: System, stepId: Uuid, jobId: Uuid, intent: DestructiveIntent)
    requires SystemInv(s)
    ensures SystemInv(s.(server := AuthorizeIntent(s.server, stepId, jobId, intent)))
    ensures Grows(s.server, AuthorizeIntent(s.server, stepId, jobId, intent))
  {
    AuthorizeIntentKeeps(s.server, stepId, jobId, intent);
    AuthorizeGrows(s.server, stepId, jobId, intent);
    ServerStepKeeps(s, AuthorizeIntent(s.server, stepId, jobId, intent));
  }

  lemma SatisfyStepKeeps(s: System, stepId: Uuid)
    requires SystemInv(s)
    ensures SystemInv(s.(server := Satisfy(s.server, stepId)))
    ensures Grows(s.server, Satisfy(s.server, stepId))
  {
    SatisfyKeeps(s.server, stepId);
    SatisfyGrows(s.server, stepId);
    ServerStepKeeps(s, Satisfy(s.server, stepId));
  }

  lemma AdmitStepKeeps(s: System)
    requires SystemInv(s)
    ensures SystemInv(s.(server := Admit(s.server)))
    ensures Grows(s.server, Admit(s.server))
  {
    AdmitKeeps(s.server);
    AdmitGrows(s.server);
    ServerStepKeeps(s, Admit(s.server));
  }

  lemma AdmitGrows(s: Server)
    ensures Grows(s, Admit(s))
    ensures Admit(s).attempts == s.attempts && Admit(s).payloads == s.payloads
  {
  }

  lemma CreateTransferStepKeeps(s: System, transfer: Transfer)
    requires SystemInv(s) && transfer.id !in s.server.transfers && transfer.attemptId.None?
    ensures var server := s.server.(transfers := s.server.transfers[transfer.id := transfer]);
            SystemInv(s.(server := server)) && Grows(s.server, server)
  {
    CreateTransferKeeps(s.server, transfer);
    ServerStepKeeps(s, s.server.(transfers := s.server.transfers[transfer.id := transfer]));
  }

  lemma AuthorizeGrows(s: Server, stepId: Uuid, jobId: Uuid, intent: DestructiveIntent)
    requires DistinctSteps(s.job.steps)
    ensures Grows(s, AuthorizeIntent(s, stepId, jobId, intent))
  {
  }

  lemma SatisfyGrows(s: Server, stepId: Uuid)
    requires DistinctSteps(s.job.steps)
    ensures Grows(s, Satisfy(s, stepId))
  {
  }

  /** The steps that leave the Server alone. */
  predicate Quiet(step: Step) {
    || step.QueryStatusStep? || step.AgentReceives? || step.AgentRuns?
    || step.ConfigureScenario? || step.ConfigureCancel? || step.EnvironmentStep?
  }

  lemma QuietLinks(s: System, k: nat, step: Step)
    requires k < |s.server.attempts| && |s.server.attempts| == |s.server.payloads| && Linked(s, k)
    requires Enabled(s, step) && Quiet(step)
    ensures AgentStep(s, Next(s, step), s.server.attempts[k].actionId)
  {
    match step {
      case AgentReceives(m) => DeliverLinks(s, k, m);
      case AgentRuns(actionId) => RunLinks(s, k, actionId);
      case EnvironmentStep(messages, agent, executed) =>
        assert Owns(s.server, s.server.attempts[k].actionId);
      case _ =>
    }
  }

  lemma QuietKeeps(s: System, step: Step)
    requires SystemInv(s) && Enabled(s, step) && Quiet(step)
    ensures SystemInv(Next(s, step))
    ensures Next(s, step).server == s.server && Grows(s.server, Next(s, step).server)
  {
    GrowsReflexive(s.server);
    forall k | 0 <= k < |s.server.attempts|
      ensures AgentStep(s, Next(s, step), s.server.attempts[k].actionId)
    {
      assert Linked(s, k);
      QuietLinks(s, k, step);
    }
    AgentStepKeeps(s, Next(s, step));
  }

  // ---------------------------------------------------------------------
  // Every step, every run
  // ---------------------------------------------------------------------

  /** The Server steps that send. */
  predicate Sends(step: Step) {
    step.DestructiveStep? || step.TransferStep? || step.CancelStep?
  }

  lemma SendingKeeps(s: System, step: Step)
    requires SystemInv(s) && Enabled(s, step) && Sends(step)
    ensures SystemInv(Next(s, step)) && Grows(s.server, Next(s, step).server)
  {
    match step {
      case DestructiveStep(stepId, facts, attemptId, actionId) =>
        DestructiveStepKeeps(s, stepId, facts, attemptId, actionId);
      case TransferStep(stepId, transferId, attemptId, actionId) =>
        TransferStepKeeps(s, stepId, transferId, attemptId, actionId);
      case CancelStep => CancelStepKeeps(s);
    }
  }

  lemma DecidingKeeps(s: System, step: Step)
    requires SystemInv(s) && Enabled(s, step) && !Sends(step) && !Quiet(step)
    ensures SystemInv(Next(s, step)) && Grows(s.server, Next(s, step).server)
  {
    match step {
      case AdmitStep => AdmitStepKeeps(s);
      case AuthorizeStep(stepId, jobId, intent) => AuthorizeStepKeeps(s, stepId, jobId, intent);
      case SatisfyStep(stepId) => SatisfyStepKeeps(s, stepId);
      case CreateTransferStep(transfer) => CreateTransferStepKeeps(s, transfer);
      case LoseConnectionStep(actionId) => UncertainStepKeeps(s, LoseConnection(s.server, actionId).attempts);
      case RestartStep => UncertainStepKeeps(s, Restart(s.server).attempts);
      case CloseStep(k) => CloseStepKeeps(s, k);
      case ServerReceives(m) => ReceiveStep(s, m);
    }
  }

  /** Every step of Server, Agent, network and environment keeps the invariant and loses nothing. */
  lemma NextKeeps(s: System, step: Step)
    requires SystemInv(s) && Enabled(s, step)
    ensures SystemInv(Next(s, step)) && Grows(s.server, Next(s, step).server)
  {
    if Quiet(step) {
      QuietKeeps(s, step);
    } else if Sends(step) {
      SendingKeeps(s, step);
    } else {
      DecidingKeeps(s, step);
    }
  }

  lemma InitialHolds(s: System)
    requires Initial(s)
    ensures SystemInv(s)
  {
    var stepIds: seq<Uuid> :|
      && (forall i, j :: 0 <= i < j < |stepIds| ==> stepIds[i] != stepIds[j])
      && 0 < |stepIds| <= TWO_TO_THE_31
      && Ok(s.server.job) == CreateWorkflow(s.server.job.endpointId, s.server.job.id, stepIds);
    CreatedJob(s.server.job, stepIds);
    InitialServer(s.server);
  }

  lemma CreatedJob(job: Job, stepIds: seq<Uuid>)
    requires forall i, j :: 0 <= i < j < |stepIds| ==> stepIds[i] != stepIds[j]
    requires 0 < |stepIds| <= TWO_TO_THE_31
    requires Ok(job) == CreateWorkflow(job.endpointId, job.id, stepIds)
    ensures Skeleton(job) && job.state.Pending?
    ensures forall i :: 0 <= i < |job.steps| ==> job.steps[i].state.StepPending? && job.steps[i].failureReason.None?
  {
  }

  lemma InitialServer(s: Server)
    requires Skeleton(s.job) && s.job.state.Pending?
    requires forall i :: 0 <= i < |s.job.steps| ==>
               s.job.steps[i].state.StepPending? && s.job.steps[i].failureReason.None?
    requires s.attempts == [] && s.payloads == [] && s.transfers == map[] && s.events == [] && s.released == []
    ensures ServerInv(s)
  {
  }

  lemma {:induction false} RunKeeps(s: System, run: seq<Step>)
    requires SystemInv(s) && ValidRun(s, run)
    ensures SystemInv(Exec(s, run))
    ensures Grows(s.server, Exec(s, run).server)
    decreases |run|
  {
    if run != [] {
      NextKeeps(s, run[0]);
      RunKeeps(Next(s, run[0]), run[1..]);
      GrowsTransitive(s.server, Next(s, run[0]).server, Exec(s, run).server);
    }
  }
}
