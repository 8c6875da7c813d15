/** The Agent side of the action protocol: the messages both sides exchange and the
    Agent's local record of every action it has been asked to run. */
module ActionAgent {
  import opened Workflow
  import opened Evidence

  datatype Value = Number(n: nat) | Text(s: string)

  datatype DispatchContent = DispatchContent(actionType: string, version: string, parameters: map<string, Value>)

  datatype ResultOutcome = OutcomeSucceeded | OutcomeFailed | OutcomeCancelled

  /** Protocol messages without their random message id. */
  datatype Message =
    | ActionDispatch(actionId: Uuid, content: DispatchContent)
    | CancelAction(actionId: Uuid)
    | StatusQuery(actionId: Uuid)
    | ActionAck(actionId: Uuid, accepted: bool, code: string)
    | ActionProgress(actionId: Uuid, percent: nat)
    | ActionResult(actionId: Uuid, outcome: ResultOutcome, code: string)
    | CancelAck(actionId: Uuid, cancelOutcome: CancelAckEvidence)
    | StatusReport(actionId: Uuid, known: StatusEvidence)

  const SIMULATED_ACTION_TYPE := "bamep.m1.simulated-execution"
  const TRANSFER_ACTION_TYPE := "bamep.m1.data-plane-transfer"
  const ACTION_VERSION := "1"

  datatype Scenario = AcceptThenSucceed | AcceptThenFail | Reject

  datatype CancelBehavior = Cancellable | CannotCancel

  /** One local record per known action, with what distinguishes the evidence a
      duplicate re-emits. */
  datatype LocalState =
    | ActiveAction(content: DispatchContent)
    | CompletedAction(content: DispatchContent, outcome: ResultOutcome, code: string)
    | RejectedAction(content: DispatchContent, code: string)
    | CancelledAction(content: DispatchContent)

  datatype AgentState = AgentState(
    scenarios: map<Uuid, Scenario>,
    defaultScenario: Option<Scenario>,
    cancelBehaviors: map<Uuid, CancelBehavior>,
    defaultCancelBehavior: CancelBehavior,
    local: map<Uuid, LocalState>)

  function ScenarioFor(agent: AgentState, actionId: Uuid): Option<Scenario> {
    if actionId in agent.scenarios then Some(agent.scenarios[actionId]) else agent.defaultScenario
  }

  function CancelBehaviorFor(agent: AgentState, actionId: Uuid): CancelBehavior {
    if actionId in agent.cancelBehaviors then agent.cancelBehaviors[actionId] else agent.defaultCancelBehavior
  }

  /** Why a first dispatch is refused without looking at the scenario. */
  function ContentRefusal(content: DispatchContent): Option<string> {
    if content.actionType != SIMULATED_ACTION_TYPE then Some("UNSUPPORTED_ACTION")
    else if content.version != ACTION_VERSION then Some("UNSUPPORTED_ACTION_VERSION")
    else if content.parameters != map[] then Some("INVALID_PARAMETERS")
    else None
  }

  /** A scenario must be configured before a supported action is dispatched for the first time. */
  predicate DispatchDefined(agent: AgentState, actionId: Uuid, content: DispatchContent) {
    actionId in agent.local || ContentRefusal(content).Some? || ScenarioFor(agent, actionId).Some?
  }

  function Refuse(agent: AgentState, actionId: Uuid, content: DispatchContent, code: string)
    : (AgentState, seq<Message>)
  {
    (agent.(local := agent.local[actionId := RejectedAction(content, code)]), [ActionAck(actionId, false, code)])
  }

  function OnDispatch(agent: AgentState, actionId: Uuid, content: DispatchContent): (AgentState, seq<Message>)
    requires DispatchDefined(agent, actionId, content)
  {
    if actionId in agent.local then
      var existing := agent.local[actionId];
      if existing.content != content then
        (agent, [ActionAck(actionId, false, "INVALID_PARAMETERS")])
      else match existing
        case ActiveAction(_) => (agent, [ActionAck(actionId, true, "")])
        case RejectedAction(_, code) => (agent, [ActionAck(actionId, false, code)])
        case CancelledAction(_) => (agent, [ActionAck(actionId, true, "")])
        case CompletedAction(_, outcome, code) => (agent, [ActionResult(actionId, outcome, code)])
    else match ContentRefusal(content)
      case Some(code) => Refuse(agent, actionId, content, code)
      case None =>
        if ScenarioFor(agent, actionId) == Some(Reject) then
          Refuse(agent, actionId, content, "ACTION_NOT_AVAILABLE")
        else
          (agent.(local := agent.local[actionId := ActiveAction(content)]), [ActionAck(actionId, true, "")])
  }

  /** Running an Active action needs a scenario that still accepts it. */
  predicate RunDefined(agent: AgentState, actionId: Uuid) {
    actionId in agent.local && agent.local[actionId].ActiveAction? ==>
      ScenarioFor(agent, actionId).Some? && ScenarioFor(agent, actionId) != Some(Reject)
  }

  function ProgressMessages(actionId: Uuid, percents: seq<nat>): seq<Message> {
    seq(|percents|, i requires 0 <= i < |percents| => ActionProgress(actionId, percents[i]))
  }

  /** Progress ticks, outcome and detail code of one execution. */
  function ScenarioRun(scenario: Scenario): (seq<nat>, ResultOutcome, string) {
    if scenario.AcceptThenSucceed? then ([0, 50, 100], OutcomeSucceeded, "SIMULATED_COMPLETION")
    else ([0, 50], OutcomeFailed, "SIMULATED_FAILURE")
  }

  function OnRun(agent: AgentState, actionId: Uuid): Option<(AgentState, seq<Message>)>
    requires RunDefined(agent, actionId)
  {
    if actionId in agent.local && agent.local[actionId].ActiveAction? then
      var (percents, outcome, code) := ScenarioRun(ScenarioFor(agent, actionId).value);
      var completed := CompletedAction(agent.local[actionId].content, outcome, code);
      Some((agent.(local := agent.local[actionId := completed]),
            ProgressMessages(actionId, percents) + [ActionResult(actionId, outcome, code)]))
    else
      None
  }

  function OnCancel(agent: AgentState, actionId: Uuid): (AgentState, Message) {
    if actionId !in agent.local then
      (agent, CancelAck(actionId, AckUnknown))
    else match agent.local[actionId]
      case CompletedAction(_, _, _) => (agent, CancelAck(actionId, AckAlreadyCompleted))
      case RejectedAction(_, _) => (agent, CancelAck(actionId, AckAlreadyCompleted))
      case CancelledAction(_) => (agent, CancelAck(actionId, AckCancelled))
      case ActiveAction(content) =>
        if CancelBehaviorFor(agent, actionId).CannotCancel? then
          (agent, CancelAck(actionId, AckCannotCancel))
        else
          (agent.(local := agent.local[actionId := CancelledAction(content)]), CancelAck(actionId, AckCancelled))
  }

  function OnStatusQuery(agent: AgentState, actionId: Uuid): Message {
    if actionId !in agent.local then
      StatusReport(actionId, StatusUnknown)
    else match agent.local[actionId]
      case ActiveAction(_) => StatusReport(actionId, StatusRunning)
      case CompletedAction(_, OutcomeSucceeded, _) => StatusReport(actionId, StatusSucceeded)
      case CompletedAction(_, OutcomeFailed, _) => StatusReport(actionId, StatusFailed)
      case CompletedAction(_, OutcomeCancelled, _) => StatusReport(actionId, StatusCancelled)
      case CancelledAction(_) => StatusReport(actionId, StatusCancelled)
      case RejectedAction(_, _) => StatusReport(actionId, StatusUnknown)
  }

  /** The Simulated Agent: handlers update its record in place. */
  class SimulatedActionAgent {
    var scenarios: map<Uuid, Scenario>
    var defaultScenario: Option<Scenario>
    var cancelBehaviors: map<Uuid, CancelBehavior>
    var defaultCancelBehavior: CancelBehavior
    var state: map<Uuid, LocalState>

    ghost function View(): AgentState
      reads this
    {
      AgentState(scenarios, defaultScenario, cancelBehaviors, defaultCancelBehavior, state)
    }

    constructor ()
      ensures View() == AgentState(map[], None, map[], Cancellable, map[])
    {
      scenarios, defaultScenario := map[], None;
      cancelBehaviors, defaultCancelBehavior := map[], Cancellable;
      state := map[];
    }

    method Configure(actionId: Uuid, scenario: Scenario)
      modifies this`scenarios
      ensures View() == old(View()).(scenarios := old(scenarios)[actionId := scenario])
    {
      scenarios := scenarios[actionId := scenario];
    }

    method ConfigureCancelBehavior(actionId: Uuid, behavior: CancelBehavior)
      modifies this`cancelBehaviors
      ensures View() == old(View()).(cancelBehaviors := old(cancelBehaviors)[actionId := behavior])
    {
      cancelBehaviors := cancelBehaviors[actionId := behavior];
    }

    method RejectAndRecord(actionId: Uuid, content: DispatchContent, code: string) returns (messages: seq<Message>)
      modifies this`state
      ensures (View(), messages) == Refuse(old(View()), actionId, content, code)
    {
      state := state[actionId := RejectedAction(content, code)];
      messages := [ActionAck(actionId, false, code)];
    }

    method HandleDispatch(actionId: Uuid, content: DispatchContent) returns (messages: seq<Message>)
      requires DispatchDefined(View(), actionId, content)
      modifies this`state
      ensures (View(), messages) == OnDispatch(old(View()), actionId, content)
    {
      if actionId in state {
        var existing := state[actionId];
        if existing.content != content {
          return [ActionAck(actionId, false, "INVALID_PARAMETERS")];
        }
        match existing
        case ActiveAction(_) => return [ActionAck(actionId, true, "")];
        case CancelledAction(_) => return [ActionAck(actionId, true, "")];
        case RejectedAction(_, code) => return [ActionAck(actionId, false, code)];
        case CompletedAction(_, outcome, code) => return [ActionResult(actionId, outcome, code)];
      }
      if content.actionType != SIMULATED_ACTION_TYPE {
        messages := RejectAndRecord(actionId, content, "UNSUPPORTED_ACTION");
        return;
      }
      if content.version != ACTION_VERSION {
        messages := RejectAndRecord(actionId, content, "UNSUPPORTED_ACTION_VERSION");
        return;
      }
      if content.parameters != map[] {
        messages := RejectAndRecord(actionId, content, "INVALID_PARAMETERS");
        return;
      }
      var scenario := if actionId in scenarios then scenarios[actionId] else defaultScenario.value;
      if scenario == Reject {
        messages := RejectAndRecord(actionId, content, "ACTION_NOT_AVAILABLE");
        return;
      }
      state := state[actionId := ActiveAction(content)];
      messages := [ActionAck(actionId, true, "")];
    }

    method RunConfiguredScenario(actionId: Uuid) returns (messages: Option<seq<Message>>)
      requires RunDefined(View(), actionId)
      modifies this`state
      ensures match OnRun(old(View()), actionId)
              case None => messages == None && View() == old(View())
              case Some((after, sent)) => messages == Some(sent) && View() == after
    {
      if actionId !in state || !state[actionId].ActiveAction? {
        return None;
      }
      var content := state[actionId].content;
      var scenario := if actionId in scenarios then scenarios[actionId] else defaultScenario.value;
      var percents: seq<nat>, outcome, code := [0, 50], OutcomeFailed, "SIMULATED_FAILURE";
      if scenario == AcceptThenSucceed {
        percents, outcome, code := [0, 50, 100], OutcomeSucceeded, "SIMULATED_COMPLETION";
      }
      var sent: seq<Message> := [];
      for i := 0 to |percents|
        invariant sent == ProgressMessages(actionId, percents)[..i]
      {
        sent := sent + [ActionProgress(actionId, percents[i])];
      }
      assert sent == ProgressMessages(actionId, percents);
      state := state[actionId := CompletedAction(content, outcome, code)];
      messages := Some(sent + [ActionResult(actionId, outcome, code)]);
    }

    method HandleCancel(actionId: Uuid) returns (cancelAck: Message)
      modifies this`state
      ensures (View(), cancelAck) == OnCancel(old(View()), actionId)
    {
      if actionId !in state {
        return CancelAck(actionId, AckUnknown);
      }
      match state[actionId]
      case CompletedAction(_, _, _) => return CancelAck(actionId, AckAlreadyCompleted);
      case RejectedAction(_, _) => return CancelAck(actionId, AckAlreadyCompleted);
      case CancelledAction(_) => return CancelAck(actionId, AckCancelled);
      case ActiveAction(content) =>
        var behavior := if actionId in cancelBehaviors then cancelBehaviors[actionId] else defaultCancelBehavior;
        if behavior.CannotCancel? {
          return CancelAck(actionId, AckCannotCancel);
        }
        state := state[actionId := CancelledAction(content)];
        cancelAck := CancelAck(actionId, AckCancelled);
    }

    method HandleStatusQuery(actionId: Uuid) returns (report: Message)
      ensures report == OnStatusQuery(View(), actionId)
    {
      if actionId !in state {
        return StatusReport(actionId, StatusUnknown);
      }
      match state[actionId]
      case ActiveAction(_) => return StatusReport(actionId, StatusRunning);
      case CompletedAction(_, OutcomeSucceeded, _) => return StatusReport(actionId, StatusSucceeded);
      case CompletedAction(_, OutcomeFailed, _) => return StatusReport(actionId, StatusFailed);
      case CompletedAction(_, OutcomeCancelled, _) => return StatusReport(actionId, StatusCancelled);
      case CancelledAction(_) => return StatusReport(actionId, StatusCancelled);
      case RejectedAction(_, _) => return StatusReport(actionId, StatusUnknown);
    }
  }
}
