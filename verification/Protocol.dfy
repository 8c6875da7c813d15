/** One Job run by the Server and the Agent over a network that may drop, delay,
    reorder and duplicate messages. The network is the set of all messages ever sent:
    any of them may be delivered at any time, any number of times, or never. Other Jobs
    share the network and the Agent; they appear as steps of the environment. */
module Protocol {
  import opened Workflow
  import opened Evidence
  import opened Dispatch
  import opened ActionAgent

  /** The durable rows of one Job. `attempts` and `payloads` are in commitment order: a
      payload is the content of the ActionDispatch sent for its Attempt. `released` lists
      the Attempts for which a decision asked its caller to release the reservation. */
  datatype Server = Server(
    job: Job,
    attempts: seq<Attempt>,
    payloads: seq<DispatchContent>,
    transfers: map<Uuid, Transfer>,
    events: seq<DomainEvent>,
    released: seq<Uuid>)

  /** `executed` counts how often the Agent ran each action. */
  datatype System = System(server: Server, agent: AgentState, net: set<Message>, executed: multiset<Uuid>)

  // ---------------------------------------------------------------------
  // Server steps: lock, decide, persist
  // ---------------------------------------------------------------------

  function FindAttempt(attempts: seq<Attempt>, actionId: Uuid): (found: Option<nat>)
    ensures found.Some? ==> found.value < |attempts| && attempts[found.value].actionId == actionId
    ensures found.None? ==> forall i :: 0 <= i < |attempts| ==> attempts[i].actionId != actionId
  {
    if attempts == [] then None
    else if attempts[|attempts| - 1].actionId == actionId then Some(|attempts| - 1)
    else FindAttempt(attempts[..|attempts| - 1], actionId)
  }

  function Commit(s: Server, k: nat, applied: Applied): Server
    requires k < |s.attempts|
  {
    s.(job := applied.job,
       attempts := s.attempts[k := applied.attempt],
       events := s.events + applied.events,
       released := if applied.terminal then s.released + [applied.attempt.id] else s.released)
  }

  /** The decision a message from the Agent leads to. */
  function Decide(m: Message, job: Job, step: JobStep, attempt: Attempt): Outcome {
    match m
    case ActionAck(_, accepted, _) =>
      ApplyActionEvidence(job, step, attempt, if accepted then AckAccepted else AckRejected)
    case ActionResult(_, OutcomeSucceeded, _) => ApplyActionEvidence(job, step, attempt, ResultSucceeded)
    case ActionResult(_, OutcomeFailed, _) => ApplyActionEvidence(job, step, attempt, ResultFailed)
    case CancelAck(_, outcome) => ApplyCancelAck(job, step, attempt, outcome)
    case StatusReport(_, known) => ApplyStatusReport(job, step, attempt, known)
    case _ => NoOp
  }

  /** Evidence about an action that is not this Job's is refused as unknown. */
  function Receive(s: Server, m: Message): Server {
    match FindAttempt(s.attempts, m.actionId)
    case None => s
    case Some(k) =>
      match FindStep(s.job.steps, s.attempts[k].jobStepId)
      case None => s
      case Some(step) =>
        match Decide(m, s.job, step, s.attempts[k])
        case Apply(applied) => Commit(s, k, applied)
        case _ => s
  }

  function Close(s: Server, k: nat): Server
    requires k < |s.attempts|
  {
    match FindStep(s.job.steps, s.attempts[k].jobStepId)
    case None => s
    case Some(step) =>
      match CloseIndeterminate(s.job, step, s.attempts[k])
      case Closed(applied) => Commit(s, k, applied)
      case _ => s
  }

  function Admit(s: Server): Server {
    match AdmitJob(s.job)
    case Ok((job, event)) => s.(job := job, events := s.events + [event])
    case Err(_) => s
  }

  function PersistStep(s: Server, step: JobStep): Server {
    s.(job := s.job.(steps := ReplaceStep(s.job.steps, step)))
  }

  function AuthorizeIntent(s: Server, stepId: Uuid, jobId: Uuid, intent: DestructiveIntent): Server {
    match FindStep(s.job.steps, stepId)
    case None => s
    case Some(step) =>
      match AuthorizeDestructiveIntent(step, jobId, intent.revision, intent.fingerprint)
      case Ok(granted) => PersistStep(s, step.(intent := Some(granted)))
      case Err(_) => s
  }

  function Satisfy(s: Server, stepId: Uuid): Server {
    match SatisfyPreliminaryPreconditions(s.job, stepId)
    case Ok(step) => PersistStep(s, step)
    case Err(_) => s
  }

  predicate HasActiveAttempt(attempts: seq<Attempt>, stepId: Uuid) {
    exists i :: 0 <= i < |attempts| && attempts[i].jobStepId == stepId && Active(attempts[i].state)
  }

  function PersistDenial(s: Server, denial: Denial): Server {
    match denial.pendingStep
    case Some(step) => PersistStep(s, step)
    case None => s
  }

  function PersistAttempt(s: Server, step: JobStep, attempt: Attempt, payload: DispatchContent): Server {
    PersistStep(s, step).(attempts := s.attempts + [attempt], payloads := s.payloads + [payload])
  }

  const SIMULATED_CONTENT := DispatchContent(SIMULATED_ACTION_TYPE, ACTION_VERSION, map[])

  function TransferContent(transfer: Transfer): DispatchContent {
    DispatchContent(TRANSFER_ACTION_TYPE, ACTION_VERSION,
      map["transfer_id" := Number(transfer.id),
          "artifact_id" := Number(transfer.artifactId),
          "direction" := Text("agent_to_server"),
          "digest_algorithm" := Text("sha256"),
          "chunk_size" := Number(transfer.chunkSize)])
  }

  function DispatchDestructive(s: Server, stepId: Uuid, facts: GateFacts, attemptId: Uuid, actionId: Uuid)
    : (Server, set<Message>)
  {
    match EvaluateDestructiveDispatch(
      s.job, stepId, HasActiveAttempt(s.attempts, stepId), facts, attemptId, actionId)
    case Ok(c) => (PersistAttempt(s, c.step, c.attempt, SIMULATED_CONTENT),
                   {ActionDispatch(actionId, SIMULATED_CONTENT)})
    case Err(denial) => (PersistDenial(s, denial), {})
  }

  function DispatchTransfer(s: Server, stepId: Uuid, transferId: Uuid, attemptId: Uuid, actionId: Uuid)
    : (Server, set<Message>)
    requires transferId in s.transfers
  {
    match EvaluateTransferDispatch(
      s.job, stepId, HasActiveAttempt(s.attempts, stepId), s.transfers[transferId], attemptId, actionId)
    case Ok(c) =>
      var payload := TransferContent(c.transfer);
      (PersistAttempt(s, c.step, c.attempt, payload).(transfers := s.transfers[transferId := c.transfer]),
       {ActionDispatch(actionId, payload)})
    case Err(denial) => (PersistDenial(s, denial), {})
  }

  ghost predicate AtMostOneActive(attempts: seq<Attempt>) {
    forall i, j :: 0 <= i < j < |attempts| ==> !Active(attempts[i].state) || !Active(attempts[j].state)
  }

  function FindActive(attempts: seq<Attempt>): (found: Option<Attempt>)
    ensures found.Some? ==> found.value in attempts && Active(found.value.state)
    ensures found.None? ==> forall t :: t in attempts ==> !Active(t.state)
  {
    if attempts == [] then None
    else if Active(attempts[|attempts| - 1].state) then Some(attempts[|attempts| - 1])
    else FindActive(attempts[..|attempts| - 1])
  }

  /** CancelAction is sent only for the Attempt that was active when the Job entered Cancelling. */
  function Cancel(s: Server): (Server, set<Message>) {
    match RequestCancellation(s.job, FindActive(s.attempts))
    case Ok(EnteredCancelling(job, _, actionId)) => (s.(job := job), {CancelAction(actionId)})
    case Ok(CompletedImmediately(job, event)) => (s.(job := job, events := s.events + [event]), {})
    case _ => (s, {})
  }

  function Uncertain(attempt: Attempt): Attempt {
    match MarkAwaitingReconciliation(attempt)
    case Some(marked) => marked
    case None => attempt
  }

  /** The session that carried `actionId` ended. */
  function LoseConnection(s: Server, actionId: Uuid): Server {
    match FindAttempt(s.attempts, actionId)
    case None => s
    case Some(k) => s.(attempts := s.attempts[k := Uncertain(s.attempts[k])])
  }

  /** Every Attempt that was running when the Server stopped becomes uncertain. */
  function Restart(s: Server): Server {
    s.(attempts := seq(|s.attempts|, i requires 0 <= i < |s.attempts| => Uncertain(s.attempts[i])))
  }

  // ---------------------------------------------------------------------
  // System steps
  // ---------------------------------------------------------------------

  datatype Step =
    | AdmitStep
    | AuthorizeStep(stepId: Uuid, jobId: Uuid, intent: DestructiveIntent)
    | SatisfyStep(stepId: Uuid)
    | CreateTransferStep(transfer: Transfer)
    | DestructiveStep(stepId: Uuid, facts: GateFacts, attemptId: Uuid, actionId: Uuid)
    | TransferStep(stepId: Uuid, transferId: Uuid, attemptId: Uuid, actionId: Uuid)
    | CancelStep
    | LoseConnectionStep(actionId: Uuid)
    | RestartStep
    | QueryStatusStep(k: nat)
    | CloseStep(k: nat)
    | ServerReceives(m: Message)
    | AgentReceives(m: Message)
    | AgentRuns(actionId: Uuid)
    | ConfigureScenario(actionId: Uuid, scenario: Scenario)
    | ConfigureCancel(actionId: Uuid, behavior: CancelBehavior)
    | EnvironmentStep(messages: set<Message>, agent: AgentState, executed: multiset<Uuid>)

  ghost predicate Owns(s: Server, actionId: Uuid) {
    exists k :: 0 <= k < |s.attempts| && s.attempts[k].actionId == actionId
  }

  /** Freshly drawn identities were never used before, by this Job or any other. */
  ghost predicate Fresh(s: System, attemptId: Uuid, actionId: Uuid) {
    && (forall k :: 0 <= k < |s.server.attempts| ==> s.server.attempts[k].id != attemptId)
    && (forall t :: t in s.server.transfers ==> s.server.transfers[t].attemptId != Some(attemptId))
    && !Owns(s.server, actionId)
    && (forall m :: m in s.net ==> m.actionId != actionId)
    && actionId !in s.agent.local
    && s.executed[actionId] == 0
  }

  /** The environment leaves this Job's actions alone. */
  ghost predicate Foreign(s: System, messages: set<Message>, agent: AgentState, executed: multiset<Uuid>) {
    && (forall m :: m in messages ==> !Owns(s.server, m.actionId))
    && (forall k :: 0 <= k < |s.server.attempts| ==>
         var a := s.server.attempts[k].actionId;
         && (a in agent.local <==> a in s.agent.local)
         && (a in agent.local ==> agent.local[a] == s.agent.local[a])
         && executed[a] == s.executed[a])
  }

  ghost predicate Enabled(s: System, step: Step) {
    match step
    case CreateTransferStep(transfer) =>
      && transfer.id !in s.server.transfers
      && transfer.attemptId.None?
      && transfer.jobId == s.server.job.id && transfer.endpointId == s.server.job.endpointId
      && FindStep(s.server.job.steps, transfer.jobStepId).Some?
    case DestructiveStep(_, _, attemptId, actionId) => Fresh(s, attemptId, actionId)
    case TransferStep(_, transferId, attemptId, actionId) =>
      transferId in s.server.transfers && Fresh(s, attemptId, actionId)
    case QueryStatusStep(k) => k < |s.server.attempts| && s.server.attempts[k].state.AwaitingReconciliation?
    case CloseStep(k) => k < |s.server.attempts|
    case ServerReceives(m) => m in s.net
    case AgentReceives(m) =>
      m in s.net && (m.ActionDispatch? ==> DispatchDefined(s.agent, m.actionId, m.content))
    case AgentRuns(actionId) => RunDefined(s.agent, actionId)
    case EnvironmentStep(messages, agent, executed) => Foreign(s, messages, agent, executed)
    case _ => true
  }

  function Deliver(agent: AgentState, m: Message): (AgentState, set<Message>)
    requires m.ActionDispatch? ==> DispatchDefined(agent, m.actionId, m.content)
  {
    match m
    case ActionDispatch(actionId, content) =>
      var (after, sent) := OnDispatch(agent, actionId, content);
      (after, set x | x in sent)
    case CancelAction(actionId) =>
      var (after, sent) := OnCancel(agent, actionId);
      (after, {sent})
    case StatusQuery(actionId) => (agent, {OnStatusQuery(agent, actionId)})
    case _ => (agent, {})
  }

  ghost function Next(s: System, step: Step): System
    requires Enabled(s, step)
  {
    match step
    case AdmitStep => s.(server := Admit(s.server))
    case AuthorizeStep(stepId, jobId, intent) => s.(server := AuthorizeIntent(s.server, stepId, jobId, intent))
    case SatisfyStep(stepId) => s.(server := Satisfy(s.server, stepId))
    case CreateTransferStep(transfer) =>
      s.(server := s.server.(transfers := s.server.transfers[transfer.id := transfer]))
    case DestructiveStep(stepId, facts, attemptId, actionId) =>
      var (server, sent) := DispatchDestructive(s.server, stepId, facts, attemptId, actionId);
      s.(server := server, net := s.net + sent)
    case TransferStep(stepId, transferId, attemptId, actionId) =>
      var (server, sent) := DispatchTransfer(s.server, stepId, transferId, attemptId, actionId);
      s.(server := server, net := s.net + sent)
    case CancelStep =>
      // More than one active Attempt is refused as a broken invariant.
      if AtMostOneActive(s.server.attempts) then
        var (server, sent) := Cancel(s.server);
        s.(server := server, net := s.net + sent)
      else s
    case LoseConnectionStep(actionId) => s.(server := LoseConnection(s.server, actionId))
    case RestartStep => s.(server := Restart(s.server))
    case QueryStatusStep(k) => s.(net := s.net + {StatusQuery(s.server.attempts[k].actionId)})
    case CloseStep(k) => s.(server := Close(s.server, k))
    case ServerReceives(m) => s.(server := Receive(s.server, m))
    case AgentReceives(m) =>
      var (agent, sent) := Deliver(s.agent, m);
      s.(agent := agent, net := s.net + sent)
    case AgentRuns(actionId) =>
      (match OnRun(s.agent, actionId)
       case Some((agent, sent)) =>
         s.(agent := agent, net := s.net + (set x | x in sent), executed := s.executed + multiset{actionId})
       case None => s)
    case ConfigureScenario(actionId, scenario) =>
      s.(agent := s.agent.(scenarios := s.agent.scenarios[actionId := scenario]))
    case ConfigureCancel(actionId, behavior) =>
      s.(agent := s.agent.(cancelBehaviors := s.agent.cancelBehaviors[actionId := behavior]))
    case EnvironmentStep(messages, agent, executed) =>
      s.(agent := agent, net := s.net + messages, executed := executed)
  }

  /** A Job as created, before anything was sent; the Agent, the network and other Jobs'
      actions are arbitrary. */
  ghost predicate Initial(s: System) {
    && s.server.attempts == [] && s.server.payloads == [] && s.server.transfers == map[]
    && s.server.events == [] && s.server.released == []
    && exists stepIds: seq<Uuid> ::
         && (forall i, j :: 0 <= i < j < |stepIds| ==> stepIds[i] != stepIds[j])
         && 0 < |stepIds| <= TWO_TO_THE_31
         && Ok(s.server.job) == CreateWorkflow(s.server.job.endpointId, s.server.job.id, stepIds)
  }

  ghost predicate ValidRun(s: System, run: seq<Step>)
    decreases |run|
  {
    run == [] || (Enabled(s, run[0]) && ValidRun(Next(s, run[0]), run[1..]))
  }

  ghost function Exec(s: System, run: seq<Step>): System
    requires ValidRun(s, run)
    decreases |run|
  {
    if run == [] then s else Exec(Next(s, run[0]), run[1..])
  }
}
