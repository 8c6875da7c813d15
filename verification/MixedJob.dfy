/** One Job whose steps are destructive actions and transfers in any mix: the Server, the
    two participants of one Agent, the network and the data plane together. */
module MixedJob {
  import opened Workflow
  import opened Evidence
  import opened Bytes
  import opened ActionAgent
  import opened Protocol
  import opened ChunkManifest
  import opened DataPlane
  import opened TransferSource
  import opened Delivery
  import opened TransferAgent
  import opened TransferTheorems
  import Dispatch
  import T = TransferOutcome

  /** What the transfer participant remembers of an action: content and answer. */
  datatype TransferRecord = TransferRecord(content: DispatchContent, accepted: bool)

  /** `sys` holds the Server, the simulated-execution participant and the network; `accepted`
      are the transfer participant's records. Stores and sources go by Transfer. */
  datatype Mixed = Mixed(
    sys: System,
    accepted: map<Uuid, TransferRecord>,
    stores: map<Uuid, Store>,
    sources: map<Uuid, seq<byte>>)

  // ---------------------------------------------------------------------
  // The transfer participant
  // ---------------------------------------------------------------------

  predicate IsTransfer(content: DispatchContent) {
    content.actionType == TRANSFER_ACTION_TYPE
  }

  /** The closed parameter schema of a transfer. */
  predicate Acceptable(content: DispatchContent) {
    && IsTransfer(content) && content.version == ACTION_VERSION
    && var p := content.parameters;
    && p.Keys == {"transfer_id", "artifact_id", "direction", "digest_algorithm", "chunk_size"}
    && p["transfer_id"].Number? && p["artifact_id"].Number?
    && p["direction"] == Text("agent_to_server") && p["digest_algorithm"] == Text("sha256")
    && p["chunk_size"].Number? && 0 < p["chunk_size"].n < 0x1_0000_0000
  }

  /** A known action is answered as it was, unless its content has changed. */
  function OnTransferDispatch(accepted: map<Uuid, TransferRecord>, actionId: Uuid, content: DispatchContent)
    : (map<Uuid, TransferRecord>, Message)
  {
    if actionId in accepted then
      if accepted[actionId].content != content then (accepted, ActionAck(actionId, false, "INVALID_PARAMETERS"))
      else (accepted, ActionAck(actionId, accepted[actionId].accepted, ""))
    else
      (accepted[actionId := TransferRecord(content, Acceptable(content))],
       ActionAck(actionId, Acceptable(content), ""))
  }

  function Code(result: TransferResult): string {
    match result
    case TransferVerified => "TRANSFER_VERIFIED"
    case ArtifactVerificationFailed => "ARTIFACT_VERIFICATION_FAILED"
    case ChunkVerificationFailed => "CHUNK_VERIFICATION_FAILED"
    case TransferAbandoned => "TRANSFER_ABANDONED"
  }

  function ParseCode(code: string): (result: Option<TransferResult>)
    ensures forall x: TransferResult :: result == Some(x) <==> code == Code(x)
  {
    if code == Code(TransferVerified) then Some(TransferVerified)
    else if code == Code(ArtifactVerificationFailed) then Some(ArtifactVerificationFailed)
    else if code == Code(ChunkVerificationFailed) then Some(ChunkVerificationFailed)
    else if code == Code(TransferAbandoned) then Some(TransferAbandoned)
    else None
  }

  function ResultMessage(actionId: Uuid, result: TransferResult): Message {
    ActionResult(actionId, if result.TransferVerified? then OutcomeSucceeded else OutcomeFailed, Code(result))
  }

  // ---------------------------------------------------------------------
  // The Server
  // ---------------------------------------------------------------------

  predicate Owner(s: Server, k: nat, t: Uuid) {
    k < |s.attempts| && t in s.transfers && s.transfers[t].attemptId == Some(s.attempts[k].id)
  }

  /** An action is a transfer if a Transfer is bound to its Attempt. */
  ghost function TransferOf(s: Server, k: nat): (t: Option<Uuid>)
    ensures t.Some? ==> Owner(s, k, t.value)
    ensures t.None? ==> forall u :: !Owner(s, k, u)
  {
    if exists u :: Owner(s, k, u) then
      var u :| Owner(s, k, u);
      Some(u)
    else None
  }

  /** Evidence as the transfer path reads it. The Agent's results name the Artifact that its
      dispatch named. */
  function AsReport(x: Message, artifactId: Uuid): Option<T.Report> {
    match x
    case ActionAck(_, accepted, _) => Some(T.AckReport(accepted))
    case ActionResult(_, outcome, code) =>
      (match ParseCode(code)
       case Some(result) => Some(T.ResultReport(outcome, result, artifactId))
       case None => None)
    case CancelAck(_, answer) => Some(T.CancelReport(answer))
    case StatusReport(_, known) => Some(T.StateReport(known))
    case _ => None
  }

  function RowsAt(m: Mixed, k: nat, t: Uuid): T.Rows
    requires Owner(m.sys.server, k, t) && t in m.stores && k < |m.sys.server.job.steps|
  {
    var s := m.sys.server;
    T.Rows(s.job, s.job.steps[k], s.attempts[k], s.transfers[t], m.stores[t])
  }

  function WithServer(m: Mixed, server: Server): Mixed {
    m.(sys := m.sys.(server := server))
  }

  function Believed(m: Mixed, k: nat, t: Uuid, applied: Applied, failArtifact: bool): Mixed
    requires k < |m.sys.server.attempts| && t in m.stores
  {
    WithServer(m, Commit(m.sys.server, k, applied)).(
      stores := if failArtifact then m.stores[t := Abandon(m.stores[t])] else m.stores)
  }

  /** Evidence about a transfer is decided with its Artifact. The Attempt's step is the one at
      its position. */
  function ReceiveTransfer(m: Mixed, x: Message, k: nat, t: Uuid): Mixed
    requires Owner(m.sys.server, k, t) && t in m.stores && k < |m.sys.server.job.steps|
  {
    match AsReport(x, m.sys.server.transfers[t].artifactId)
    case None => m
    case Some(report) =>
      match T.DecideReport(RowsAt(m, k, t), report)
      case Persist(applied, failArtifact) => Believed(m, k, t, applied, failArtifact)
      case _ => m
  }

  /** Any other evidence is decided as before. */
  ghost function MixedReceive(m: Mixed, x: Message): Mixed {
    var s := m.sys.server;
    match FindAttempt(s.attempts, x.actionId)
    case None => m
    case Some(k) =>
      match TransferOf(s, k)
      case None => WithServer(m, Receive(s, x))
      case Some(t) => if t in m.stores && k < |s.job.steps| then ReceiveTransfer(m, x, k, t) else m
  }

  // ---------------------------------------------------------------------
  // Steps
  // ---------------------------------------------------------------------

  datatype MixedStep =
    | Plain(step: Step)
    | Create(transfer: Dispatch.Transfer, bytes: seq<byte>)
    | Accept(actionId: Uuid, content: DispatchContent)
    | Perform(k: nat, t: Uuid, options: Options, net: Network)
    | Verify(t: Uuid)

  /** A run of an accepted transfer. */
  ghost predicate MayRun(m: Mixed, k: nat, t: Uuid, options: Options, net: Network) {
    && Owner(m.sys.server, k, t) && k < |m.sys.server.job.steps| && t in m.stores && t in m.sources
    && 0 < m.sys.server.transfers[t].chunkSize < 0x1_0000_0000
    && var a := m.sys.server.attempts[k].actionId;
    && a in m.accepted && m.accepted[a].accepted
    && options.corruptChunk.None? && forall q :: !net(q).abandoned
  }

  /** The Agent's host hands a dispatch to the participant of its action type; it runs a
      transfer only after accepting it, from one unchanged source. */
  ghost predicate MixedEnabled(m: Mixed, step: MixedStep) {
    match step
    case Plain(step) =>
      && Enabled(m.sys, step) && !step.CreateTransferStep?
      && (step.AgentReceives? && step.m.ActionDispatch? ==> !IsTransfer(step.m.content))
    case Create(transfer, _) =>
      Enabled(m.sys, CreateTransferStep(transfer)) && 0 < transfer.chunkSize < 0x1_0000_0000
    case Accept(actionId, content) => ActionDispatch(actionId, content) in m.sys.net && IsTransfer(content)
    case Perform(k, t, options, net) => MayRun(m, k, t, options, net)
    case Verify(t) => t in m.sys.server.transfers && t in m.stores
  }

  ghost function RunOf(m: Mixed, t: Uuid, options: Options, net: Network): T.Step
    requires t in m.sys.server.transfers && t in m.sources && m.sys.server.transfers[t].chunkSize < 0x1_0000_0000
  {
    T.RunStep(InMemory(m.sources[t]), m.sys.server.transfers[t].chunkSize, options, net)
  }

  function Created(m: Mixed, transfer: Dispatch.Transfer, bytes: seq<byte>): Mixed
    requires transfer.chunkSize < 0x1_0000_0000
  {
    WithServer(m, m.sys.server.(transfers := m.sys.server.transfers[transfer.id := transfer])).(
      stores := m.stores[transfer.id := NewStore(transfer.artifactId, transfer.chunkSize)],
      sources := m.sources[transfer.id := bytes])
  }

  function Accepting(m: Mixed, actionId: Uuid, content: DispatchContent): Mixed {
    var (accepted, ack) := OnTransferDispatch(m.accepted, actionId, content);
    m.(accepted := accepted, sys := m.sys.(net := m.sys.net + {ack}))
  }

  function Results(actionId: Uuid, result: Option<TransferResult>): set<Message> {
    match result
    case Some(result) => {ResultMessage(actionId, result)}
    case None => {}
  }

  /** The store of one transfer moves on, and the Agent sends. */
  ghost function Advancing(m: Mixed, t: Uuid, store: Store, sent: set<Message>): Mixed {
    m.(sys := m.sys.(net := m.sys.net + sent), stores := m.stores[t := store])
  }

  ghost function MixedNext(hash: seq<byte> -> Digest, m: Mixed, step: MixedStep): Mixed
    requires MixedEnabled(m, step)
  {
    match step
    case Plain(step) => if step.ServerReceives? then MixedReceive(m, step.m) else m.(sys := Next(m.sys, step))
    case Create(transfer, bytes) => Created(m, transfer, bytes)
    case Accept(actionId, content) => Accepting(m, actionId, content)
    case Perform(k, t, options, net) =>
      var r, run := RowsAt(m, k, t), RunOf(m, t, options, net);
      Advancing(m, t, T.Next(hash, r, run).store, Results(r.attempt.actionId, T.RunResult(hash, r, run)))
    case Verify(t) => Advancing(m, t, CompleteSeal(hash, m.stores[t]).0, {})
  }

  /** The transfer participant knows only actions it was sent. */
  ghost predicate Known(m: Mixed) {
    forall a :: a in m.accepted ==> ActionDispatch(a, m.accepted[a].content) in m.sys.net
  }

  ghost predicate MixedInitial(m: Mixed) {
    Initial(m.sys) && Known(m) && m.stores == map[] && m.sources == map[]
  }

  ghost predicate ValidMixedRun(hash: seq<byte> -> Digest, m: Mixed, run: seq<MixedStep>)
    decreases |run|
  {
    run == [] || (MixedEnabled(m, run[0]) && ValidMixedRun(hash, MixedNext(hash, m, run[0]), run[1..]))
  }

  ghost function MixedExec(hash: seq<byte> -> Digest, m: Mixed, run: seq<MixedStep>): Mixed
    requires ValidMixedRun(hash, m, run)
    decreases |run|
  {
    if run == [] then m else MixedExec(hash, MixedNext(hash, m, run[0]), run[1..])
  }
}
