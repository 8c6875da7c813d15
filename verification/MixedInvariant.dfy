/** What every step of a mixed Job keeps: the workflow's rows, the record of every destructive
    action, and for every transfer its messages, its Attempt and its Artifact. */
module MixedInvariant {
  import opened Workflow
  import opened Evidence
  import opened Bytes
  import opened ActionAgent
  import opened Protocol
  import opened ServerInvariant
  import opened SystemInvariant
  import opened ChunkManifest
  import opened DataPlane
  import opened TransferSource
  import opened Delivery
  import opened TransferAgent
  import opened TransferTheorems
  import opened MixedJob
  import Dispatch
  import T = TransferOutcome

  // ---------------------------------------------------------------------
  // The invariant
  // ---------------------------------------------------------------------

  /** A bound Transfer is what its Attempt was dispatched for. */
  ghost predicate Kinds(s: Server) {
    && |s.attempts| == |s.payloads|
    && forall k: nat, t :: Owner(s, k, t) ==> s.payloads[k] == TransferContent(s.transfers[t])
  }

  /** What the Agent may have said about a transfer it knows or does not know. */
  predicate Plausible(x: Message, known: bool) {
    match x
    case ActionAck(_, accepted, _) => known && accepted
    case ActionResult(_, _, _) => known && exists result :: x == ResultMessage(x.actionId, result)
    case CancelAck(_, answer) => answer.AckUnknown?
    case StatusReport(_, state) => state.StatusUnknown?
    case _ => true
  }

  /** What the state of a transfer Attempt says about the Agent's messages. */
  ghost predicate Fits(state: AttemptState, known: bool, net: set<Message>, actionId: Uuid) {
    match state
    case InProgress => known
    case AttemptSucceeded => ResultMessage(actionId, TransferVerified) in net
    case AttemptFailed =>
      exists result: TransferResult :: !result.TransferVerified? && ResultMessage(actionId, result) in net
    case AttemptCancelled => false
    case Rejected => false
    case Dispatched | AwaitingReconciliation | Indeterminate => true
  }

  /** The messages about the action of a transfer Attempt. */
  ghost predicate TransferLink(
    net: set<Message>, agent: AgentState, accepted: map<Uuid, TransferRecord>, attempt: Attempt, payload: DispatchContent)
  {
    var a := attempt.actionId;
    && a !in agent.local
    && ActionDispatch(a, payload) in net
    && (forall x :: x in net && x.actionId == a && x.ActionDispatch? ==> x.content == payload)
    && (a in accepted ==> accepted[a] == TransferRecord(payload, true))
    && (forall x :: x in net && x.actionId == a ==> Plausible(x, a in accepted))
    && Fits(attempt.state, a in accepted, net, a)
  }

  /** A Transfer's store holds nothing but its source, and nothing before it is bound. */
  ghost predicate Stored(hash: seq<byte> -> Digest, m: Mixed, t: Uuid)
    requires t in m.sys.server.transfers
  {
    var transfer := m.sys.server.transfers[t];
    && t in m.stores && t in m.sources
    && 0 < transfer.chunkSize < 0x1_0000_0000
    && m.stores[t].manifest.artifactId == transfer.artifactId
    && Faithful(hash, InMemory(m.sources[t]), transfer.chunkSize, true, m.stores[t])
    && (transfer.attemptId.None? ==> m.stores[t] == NewStore(transfer.artifactId, transfer.chunkSize))
  }

  /** A transfer Attempt with its messages and its Artifact. */
  ghost predicate TransferLinked(hash: seq<byte> -> Digest, m: Mixed, k: nat, t: Uuid)
    requires Owner(m.sys.server, k, t) && k < |m.sys.server.payloads| && k < |m.sys.server.job.steps|
  {
    && t in m.stores
    && TransferLink(m.sys.net, m.sys.agent, m.accepted, m.sys.server.attempts[k], m.sys.server.payloads[k])
    && T.Inv(hash, RowsAt(m, k, t))
    && (ResultMessage(m.sys.server.attempts[k].actionId, TransferVerified) in m.sys.net ==>
          m.stores[t].artifact.Verified?)
  }

  /** A destructive Attempt is as in a Job without transfers. */
  ghost predicate SimulatedLinked(m: Mixed, k: nat)
    requires k < |m.sys.server.attempts| == |m.sys.server.payloads|
  {
    Linked(m.sys, k) && m.sys.server.attempts[k].actionId !in m.accepted
  }

  predicate Sized(s: Server) {
    |s.attempts| == |s.payloads| <= |s.job.steps|
  }

  ghost predicate AllStored(hash: seq<byte> -> Digest, m: Mixed) {
    forall t :: t in m.sys.server.transfers ==> Stored(hash, m, t)
  }

  ghost predicate AllSimulated(m: Mixed)
    requires Sized(m.sys.server)
  {
    forall k :: 0 <= k < |m.sys.server.attempts| && !IsTransfer(m.sys.server.payloads[k]) ==> SimulatedLinked(m, k)
  }

  ghost predicate AllTransfers(hash: seq<byte> -> Digest, m: Mixed)
    requires Sized(m.sys.server)
  {
    forall k: nat, t :: Owner(m.sys.server, k, t) ==> TransferLinked(hash, m, k, t)
  }

  /** Everything but the rows themselves. */
  ghost predicate Parts(hash: seq<byte> -> Digest, m: Mixed) {
    && Sized(m.sys.server) && Kinds(m.sys.server) && Known(m)
    && AllStored(hash, m) && AllSimulated(m) && AllTransfers(hash, m)
  }

  ghost predicate MixedInv(hash: seq<byte> -> Digest, m: Mixed) {
    ServerInv(m.sys.server) && Parts(hash, m)
  }

  lemma KindOf(s: Server, k: nat)
    requires ServerInv(s) && Kinds(s) && k < |s.attempts|
    ensures IsTransfer(s.payloads[k]) <==> TransferOf(s, k).Some?
  {
    assert RightPath(s, k);
    if IsTransfer(s.payloads[k]) {
      var t :| t in s.transfers && Binds(s.transfers[t], s.attempts[k], s.payloads[k]);
      assert Owner(s, k, t);
    }
  }

  // ---------------------------------------------------------------------
  // A transfer that a step is not about
  // ---------------------------------------------------------------------

  /** The messages of a step about an action are answers of an Agent that does not know it, or
      the Server's own. */
  ghost predicate Quietly(net: set<Message>, net': set<Message>, a: Uuid) {
    && net <= net'
    && forall x :: x in net' && x !in net && x.actionId == a ==>
         !x.ActionDispatch? && !x.ActionResult? && !x.ActionAck? && Plausible(x, false)
  }

  predicate Unsure(before: Attempt, after: Attempt) {
    || after == before
    || after == before.(state := AwaitingReconciliation)
    || after == before.(state := Indeterminate)
  }

  lemma TransferStays(hash: seq<byte> -> Digest, m: Mixed, m': Mixed, k: nat, t: Uuid)
    requires Owner(m.sys.server, k, t) && k < |m.sys.server.payloads| && k < |m.sys.server.job.steps|
    requires Owner(m'.sys.server, k, t) && k < |m'.sys.server.payloads| && k < |m'.sys.server.job.steps|
    requires TransferLinked(hash, m, k, t)
    requires m'.sys.server.payloads[k] == m.sys.server.payloads[k]
    requires m'.sys.server.transfers[t] == m.sys.server.transfers[t]
    requires Unsure(m.sys.server.attempts[k], m'.sys.server.attempts[k])
    requires t in m'.stores && m'.stores[t] == m.stores[t]
    requires m'.accepted == m.accepted
    requires m.sys.server.attempts[k].actionId !in m'.sys.agent.local
    requires Quietly(m.sys.net, m'.sys.net, m.sys.server.attempts[k].actionId)
    ensures TransferLinked(hash, m', k, t)
  {
  }

  // ---------------------------------------------------------------------
  // Decisions that send nothing
  // ---------------------------------------------------------------------

  /** The Attempts are still the same ones, though some may have become uncertain. */
  ghost predicate SameRows(s: Server, s': Server) {
    && Sized(s') && |s'.attempts| == |s.attempts| && s'.payloads == s.payloads && s'.transfers == s.transfers
    && forall k :: 0 <= k < |s.attempts| ==> Unsure(s.attempts[k], s'.attempts[k])
  }

  lemma SimulatedMoveOn(m: Mixed, server: Server)
    requires Sized(m.sys.server) && AllSimulated(m)
    requires Grows(m.sys.server, server) && SameRows(m.sys.server, server)
    ensures AllSimulated(WithServer(m, server))
  {
    forall k | 0 <= k < |server.attempts| && !IsTransfer(server.payloads[k])
      ensures SimulatedLinked(WithServer(m, server), k)
    {
      assert SimulatedLinked(m, k);
      ServerStepLinked(m.sys, server, k);
    }
  }

  lemma TransfersMoveOn(hash: seq<byte> -> Digest, m: Mixed, server: Server)
    requires Sized(m.sys.server) && AllTransfers(hash, m) && SameRows(m.sys.server, server)
    ensures AllTransfers(hash, WithServer(m, server))
  {
    forall k: nat, t | Owner(server, k, t) ensures TransferLinked(hash, WithServer(m, server), k, t) {
      assert Owner(m.sys.server, k, t) && TransferLinked(hash, m, k, t);
      TransferStays(hash, m, WithServer(m, server), k, t);
    }
  }

  lemma KindsMoveOn(s: Server, s': Server)
    requires Kinds(s) && SameRows(s, s')
    ensures Kinds(s')
  {
    forall k: nat, t | Owner(s', k, t) ensures s'.payloads[k] == TransferContent(s'.transfers[t]) {
      assert Owner(s, k, t);
    }
  }

  lemma StoredStays(hash: seq<byte> -> Digest, m: Mixed, m': Mixed)
    requires AllStored(hash, m) && m'.sys.server.transfers == m.sys.server.transfers
    requires m'.stores == m.stores && m'.sources == m.sources
    ensures AllStored(hash, m')
  {
    forall t | t in m'.sys.server.transfers ensures Stored(hash, m', t) {
      assert Stored(hash, m, t);
    }
  }

  lemma RowsMoveOn(hash: seq<byte> -> Digest, m: Mixed, server: Server)
    requires MixedInv(hash, m) && ServerInv(server)
    requires Grows(m.sys.server, server) && SameRows(m.sys.server, server)
    ensures MixedInv(hash, WithServer(m, server))
  {
    KindsMoveOn(m.sys.server, server);
    StoredStays(hash, m, WithServer(m, server));
    SimulatedMoveOn(m, server);
    TransfersMoveOn(hash, m, server);
  }

  /** The steps of the Server that send nothing and are no evidence. */
  predicate Decides(step: Step) {
    || step.AdmitStep? || step.AuthorizeStep? || step.SatisfyStep?
    || step.LoseConnectionStep? || step.RestartStep? || step.CloseStep?
  }

  lemma UncertainRows(s: Server, attempts: seq<Attempt>)
    requires ServerInv(s) && |attempts| == |s.attempts|
    requires forall i :: 0 <= i < |attempts| ==>
               attempts[i] == s.attempts[i] || attempts[i] == Uncertain(s.attempts[i])
    ensures ServerInv(s.(attempts := attempts)) && Grows(s, s.(attempts := attempts))
  {
    UncertainKeeps(s, attempts);
    UncertainGrows(s, attempts);
  }

  lemma DecidedRows(s: System, step: Step)
    requires ServerInv(s.server) && Enabled(s, step) && Decides(step)
    ensures var s' := Next(s, step);
            && s' == s.(server := s'.server) && ServerInv(s'.server) && Grows(s.server, s'.server)
  {
    match step {
      case AdmitStep =>
        AdmitKeeps(s.server);
        AdmitGrows(s.server);
      case AuthorizeStep(stepId, jobId, intent) =>
        AuthorizeIntentKeeps(s.server, stepId, jobId, intent);
        AuthorizeGrows(s.server, stepId, jobId, intent);
      case SatisfyStep(stepId) =>
        SatisfyKeeps(s.server, stepId);
        SatisfyGrows(s.server, stepId);
      case LoseConnectionStep(actionId) =>
        UncertainRows(s.server, LoseConnection(s.server, actionId).attempts);
      case RestartStep =>
        UncertainRows(s.server, Restart(s.server).attempts);
      case CloseStep(k) =>
        CloseKeeps(s.server, k);
        CloseGrows(s.server, k);
    }
  }

  lemma DecidedShape(s: System, step: Step)
    requires Enabled(s, step) && Decides(step) && Sized(s.server)
    ensures SameRows(s.server, Next(s, step).server)
  {
  }

  lemma DecidesKeeps(hash: seq<byte> -> Digest, m: Mixed, step: Step)
    requires MixedInv(hash, m) && Enabled(m.sys, step) && Decides(step)
    ensures MixedInv(hash, m.(sys := Next(m.sys, step))) && Grows(m.sys.server, Next(m.sys, step).server)
  {
    DecidedRows(m.sys, step);
    DecidedShape(m.sys, step);
    RowsMoveOn(hash, m, Next(m.sys, step).server);
  }

  // ---------------------------------------------------------------------
  // The simulated-execution participant and the environment
  // ---------------------------------------------------------------------

  /** A step of the other participant says nothing of substance about a transfer. */
  lemma QuietAbout(s: System, step: Step, k: nat)
    requires k < |s.server.attempts| && s.server.attempts[k].actionId !in s.agent.local
    requires Enabled(s, step) && Quiet(step)
    requires step.AgentReceives? && step.m.ActionDispatch? ==> step.m.actionId != s.server.attempts[k].actionId
    ensures var s', a := Next(s, step), s.server.attempts[k].actionId;
            a !in s'.agent.local && Quietly(s.net, s'.net, a)
  {
    assert Owns(s.server, s.server.attempts[k].actionId);
    match step {
      case AgentReceives(x) => DeliverAbout(s, x, s.server.attempts[k].actionId);
      case AgentRuns(actionId) => RunAbout(s, actionId, s.server.attempts[k].actionId);
      case _ =>
    }
  }

  lemma DeliverAbout(s: System, x: Message, a: Uuid)
    requires Enabled(s, AgentReceives(x)) && a !in s.agent.local
    requires x.ActionDispatch? ==> x.actionId != a
    ensures var s' := Next(s, AgentReceives(x));
            a !in s'.agent.local && Quietly(s.net, s'.net, a)
  {
    if x.actionId != a {
      var (after, sent) := Deliver(s.agent, x);
      assert forall y :: y in sent ==> y.actionId == x.actionId;
    }
  }

  lemma RunAbout(s: System, actionId: Uuid, a: Uuid)
    requires Enabled(s, AgentRuns(actionId)) && a !in s.agent.local
    ensures var s' := Next(s, AgentRuns(actionId));
            a !in s'.agent.local && Quietly(s.net, s'.net, a)
  {
  }

  lemma QuietTransfers(hash: seq<byte> -> Digest, m: Mixed, step: Step)
    requires Sized(m.sys.server) && Kinds(m.sys.server) && AllTransfers(hash, m)
    requires MixedEnabled(m, Plain(step)) && Quiet(step) && Next(m.sys, step).server == m.sys.server
    ensures AllTransfers(hash, m.(sys := Next(m.sys, step)))
  {
    var m' := m.(sys := Next(m.sys, step));
    forall k: nat, t | Owner(m'.sys.server, k, t) ensures TransferLinked(hash, m', k, t) {
      assert Owner(m.sys.server, k, t) && TransferLinked(hash, m, k, t);
      QuietAbout(m.sys, step, k);
      TransferStays(hash, m, m', k, t);
    }
  }

  lemma QuietSimulated(m: Mixed, step: Step)
    requires Sized(m.sys.server) && AllSimulated(m)
    requires Enabled(m.sys, step) && Quiet(step) && Next(m.sys, step).server == m.sys.server
    ensures AllSimulated(m.(sys := Next(m.sys, step)))
  {
    var s' := Next(m.sys, step);
    forall k | 0 <= k < |s'.server.attempts| && !IsTransfer(s'.server.payloads[k])
      ensures SimulatedLinked(m.(sys := s'), k)
    {
      assert SimulatedLinked(m, k);
      QuietLinks(m.sys, k, step);
      QuietNet(m.sys, step);
      LinkEvolves(m.sys, s', k);
    }
  }

  lemma QuietNet(s: System, step: Step)
    requires Enabled(s, step) && Quiet(step)
    ensures Next(s, step).server == s.server && s.net <= Next(s, step).net
  {
  }

  lemma QuietStepKeeps(hash: seq<byte> -> Digest, m: Mixed, step: Step)
    requires MixedInv(hash, m) && MixedEnabled(m, Plain(step)) && Quiet(step)
    ensures MixedInv(hash, m.(sys := Next(m.sys, step)))
    ensures Next(m.sys, step).server == m.sys.server
  {
    QuietNet(m.sys, step);
    StoredStays(hash, m, m.(sys := Next(m.sys, step)));
    QuietTransfers(hash, m, step);
    QuietSimulated(m, step);
  }

  // ---------------------------------------------------------------------
  // Cancellation
  // ---------------------------------------------------------------------

  lemma CancelRows(s: Server)
    requires ServerInv(s)
    ensures var (server, sent) := Cancel(s);
            && ServerInv(server) && Grows(s, server) && SameRows(s, server) && (forall x :: x in sent ==> x.CancelAction?)
            && server == s.(job := s.job.(state := server.job.state), events := server.events)
            && (sent != {} ==> && server.job.state.Cancelling? && s.attempts != []
                               && sent == {CancelAction(s.attempts[|s.attempts| - 1].actionId)})
    ensures AtMostOneActive(s.attempts)
  {
    CancelKeeps(s);
    CancelEffect(s);
    CancelGrows(s);
  }

  lemma CancelStepMixed(hash: seq<byte> -> Digest, m: Mixed)
    requires MixedInv(hash, m)
    ensures AtMostOneActive(m.sys.server.attempts)
    ensures var (server, sent) := Cancel(m.sys.server);
            MixedInv(hash, m.(sys := m.sys.(server := server, net := m.sys.net + sent))) && Grows(m.sys.server, server)
  {
    CancelRows(m.sys.server);
    var (server, sent) := Cancel(m.sys.server);
    KindsMoveOn(m.sys.server, server);
    StoredStays(hash, m, m.(sys := m.sys.(server := server, net := m.sys.net + sent)));
    CancelSimulated(m, server, sent);
    CancelTransfers(hash, m, server, sent);
  }

  lemma CancelSimulated(m: Mixed, server: Server, sent: set<Message>)
    requires Sized(m.sys.server) && AllSimulated(m) && DistinctAttempts(m.sys.server.attempts)
    requires server == m.sys.server.(job := m.sys.server.job.(state := server.job.state), events := server.events)
    requires Later(m.sys.server.job.state, server.job.state)
    requires sent != {} ==> && server.job.state.Cancelling? && m.sys.server.attempts != []
                            && sent == {CancelAction(server.attempts[|server.attempts| - 1].actionId)}
    ensures AllSimulated(m.(sys := m.sys.(server := server, net := m.sys.net + sent)))
  {
    var m' := m.(sys := m.sys.(server := server, net := m.sys.net + sent));
    forall k | 0 <= k < |server.attempts| && !IsTransfer(server.payloads[k]) ensures SimulatedLinked(m', k) {
      assert SimulatedLinked(m, k);
      CancelLinked(m.sys, k, server.job.state, sent);
    }
  }

  lemma CancelTransfers(hash: seq<byte> -> Digest, m: Mixed, server: Server, sent: set<Message>)
    requires Sized(m.sys.server) && AllTransfers(hash, m) && SameRows(m.sys.server, server)
    requires forall x :: x in sent ==> x.CancelAction?
    ensures AllTransfers(hash, m.(sys := m.sys.(server := server, net := m.sys.net + sent)))
  {
    var m' := m.(sys := m.sys.(server := server, net := m.sys.net + sent));
    forall k: nat, t | Owner(server, k, t) ensures TransferLinked(hash, m', k, t) {
      assert Owner(m.sys.server, k, t) && TransferLinked(hash, m, k, t);
      TransferStays(hash, m, m', k, t);
    }
  }

  // ---------------------------------------------------------------------
  // Dispatch
  // ---------------------------------------------------------------------

  /** One more Attempt with its payload, and nothing else about the Attempts. */
  ghost predicate OneMore(s: Server, s': Server, attempt: Attempt, payload: DispatchContent) {
    && Sized(s') && s'.attempts == s.attempts + [attempt] && s'.payloads == s.payloads + [payload]
    && attempt.state.Dispatched? && s.job.state == s'.job.state == Running
  }

  function Dispatching(m: Mixed, server: Server, attempt: Attempt, payload: DispatchContent): Mixed {
    m.(sys := m.sys.(server := server, net := m.sys.net + {ActionDispatch(attempt.actionId, payload)}))
  }

  lemma DispatchSimulated(m: Mixed, server: Server, attempt: Attempt, payload: DispatchContent)
    requires Sized(m.sys.server) && AllSimulated(m) && OneMore(m.sys.server, server, attempt, payload)
    requires Fresh(m.sys, attempt.id, attempt.actionId) && attempt.actionId !in m.accepted
    ensures AllSimulated(Dispatching(m, server, attempt, payload))
  {
    var m' := Dispatching(m, server, attempt, payload);
    forall k | 0 <= k < |server.attempts| && !IsTransfer(server.payloads[k]) ensures SimulatedLinked(m', k) {
      if k < |m.sys.server.attempts| {
        assert SimulatedLinked(m, k);
        AttemptStepLinked(m.sys, server, attempt, payload, k);
      }
    }
  }

  lemma DispatchTransfers(
    hash: seq<byte> -> Digest, m: Mixed, server: Server, attempt: Attempt, payload: DispatchContent, k: nat, t: Uuid)
    requires Sized(m.sys.server) && AllTransfers(hash, m) && OneMore(m.sys.server, server, attempt, payload)
    requires Fresh(m.sys, attempt.id, attempt.actionId)
    requires Owner(m.sys.server, k, t) && t in server.transfers && server.transfers[t] == m.sys.server.transfers[t]
    ensures Owner(server, k, t) && TransferLinked(hash, Dispatching(m, server, attempt, payload), k, t)
  {
    assert TransferLinked(hash, m, k, t) && Owns(m.sys.server, m.sys.server.attempts[k].actionId);
    TransferStays(hash, m, Dispatching(m, server, attempt, payload), k, t);
  }

  lemma DestructiveMixed(hash: seq<byte> -> Digest, m: Mixed, server: Server, attempt: Attempt)
    requires MixedInv(hash, m) && ServerInv(server) && OneMore(m.sys.server, server, attempt, SIMULATED_CONTENT)
    requires server.transfers == m.sys.server.transfers
    requires Fresh(m.sys, attempt.id, attempt.actionId) && attempt.actionId !in m.accepted
    ensures MixedInv(hash, Dispatching(m, server, attempt, SIMULATED_CONTENT))
  {
    var m' := Dispatching(m, server, attempt, SIMULATED_CONTENT);
    forall k: nat, t | Owner(server, k, t)
      ensures Owner(m.sys.server, k, t) && server.payloads[k] == TransferContent(server.transfers[t])
    {
      assert k < |m.sys.server.attempts|;
      assert Owner(m.sys.server, k, t);
    }
    StoredStays(hash, m, m');
    DispatchSimulated(m, server, attempt, SIMULATED_CONTENT);
    forall k: nat, t | Owner(server, k, t) ensures TransferLinked(hash, m', k, t) {
      DispatchTransfers(hash, m, server, attempt, SIMULATED_CONTENT, k, t);
    }
  }

  /** The new Attempt takes a Transfer that no other Attempt owns. */
  ghost predicate TakesTransfer(m: Mixed, server: Server, attempt: Attempt, t: Uuid) {
    && t in m.sys.server.transfers && m.sys.server.transfers[t].attemptId.None?
    && var bound := m.sys.server.transfers[t].(attemptId := Some(attempt.id));
    && server.transfers == m.sys.server.transfers[t := bound]
    && OneMore(m.sys.server, server, attempt, TransferContent(bound))
    && Fresh(m.sys, attempt.id, attempt.actionId) && attempt.actionId !in m.accepted
  }

  lemma OwnersAfter(m: Mixed, server: Server, attempt: Attempt, t: Uuid, k: nat, u: Uuid)
    requires TakesTransfer(m, server, attempt, t) && Owner(server, k, u)
    ensures (k, u) == (|m.sys.server.attempts|, t) || (u != t && Owner(m.sys.server, k, u))
  {
    if k < |m.sys.server.attempts| {
      assert server.attempts[k] == m.sys.server.attempts[k];
    }
  }

  lemma TakenKinds(m: Mixed, server: Server, attempt: Attempt, t: Uuid)
    requires Kinds(m.sys.server) && TakesTransfer(m, server, attempt, t)
    ensures Kinds(server)
  {
    forall k: nat, u | Owner(server, k, u) ensures server.payloads[k] == TransferContent(server.transfers[u]) {
      OwnersAfter(m, server, attempt, t, k, u);
    }
  }

  lemma TakenStored(hash: seq<byte> -> Digest, m: Mixed, m': Mixed, attempt: Attempt, t: Uuid)
    requires AllStored(hash, m) && TakesTransfer(m, m'.sys.server, attempt, t)
    requires m'.stores == m.stores && m'.sources == m.sources
    ensures AllStored(hash, m')
  {
    forall u | u in m'.sys.server.transfers ensures Stored(hash, m', u) {
      assert Stored(hash, m, u);
    }
  }

  lemma TakenTransfers(hash: seq<byte> -> Digest, m: Mixed, server: Server, attempt: Attempt, t: Uuid)
    requires Sized(m.sys.server) && AllTransfers(hash, m) && AllStored(hash, m)
    requires TakesTransfer(m, server, attempt, t)
    ensures AllTransfers(hash, Dispatching(m, server, attempt, TransferContent(server.transfers[t])))
  {
    var payload := TransferContent(server.transfers[t]);
    var m' := Dispatching(m, server, attempt, payload);
    TakenStored(hash, m, m', attempt, t);
    forall k: nat, u | Owner(server, k, u) ensures TransferLinked(hash, m', k, u) {
      OwnersAfter(m, server, attempt, t, k, u);
      if u == t {
        assert Stored(hash, m, t) && Stored(hash, m', t);
        NewTransferLinked(hash, m, m', k, t);
      } else {
        DispatchTransfers(hash, m, server, attempt, payload, k, u);
      }
    }
  }

  lemma TransferMixed(hash: seq<byte> -> Digest, m: Mixed, server: Server, attempt: Attempt, t: Uuid)
    requires MixedInv(hash, m) && ServerInv(server) && TakesTransfer(m, server, attempt, t)
    ensures MixedInv(hash, Dispatching(m, server, attempt, TransferContent(server.transfers[t])))
  {
    var payload := TransferContent(server.transfers[t]);
    TakenKinds(m, server, attempt, t);
    TakenStored(hash, m, Dispatching(m, server, attempt, payload), attempt, t);
    DispatchSimulated(m, server, attempt, payload);
    TakenTransfers(hash, m, server, attempt, t);
  }

  lemma NewTransferLinked(hash: seq<byte> -> Digest, m: Mixed, m': Mixed, k: nat, t: Uuid)
    requires Owner(m'.sys.server, k, t) && Sized(m'.sys.server) && m'.sys.server.attempts[k].state.Dispatched?
    requires Stored(hash, m', t) && t in m.sys.server.transfers && m.sys.server.transfers[t].attemptId.None?
    requires m'.sys.server.transfers[t] == m.sys.server.transfers[t].(attemptId := m'.sys.server.transfers[t].attemptId)
    requires Stored(hash, m, t) && m'.stores == m.stores && m'.sys.agent == m.sys.agent && m'.accepted == m.accepted
    requires var a := m'.sys.server.attempts[k].actionId;
             && Fresh(m.sys, m'.sys.server.attempts[k].id, a) && a !in m.accepted
             && m'.sys.net == m.sys.net + {ActionDispatch(a, m'.sys.server.payloads[k])}
    ensures TransferLinked(hash, m', k, t)
  {
  }

  lemma FreshHere(m: Mixed, attemptId: Uuid, actionId: Uuid)
    requires Known(m) && Fresh(m.sys, attemptId, actionId)
    ensures actionId !in m.accepted
  {
  }

  lemma DestructiveRows(s: Server, stepId: Uuid, facts: Dispatch.GateFacts, attemptId: Uuid, actionId: Uuid)
    requires ServerInv(s) && FreshFor(s, attemptId, actionId)
    ensures var (server, sent) := DispatchDestructive(s, stepId, facts, attemptId, actionId);
            && ServerInv(server) && Grows(s, server) && server.transfers == s.transfers
            && if sent == {} then SameRows(s, server) else
               && |server.attempts| == |s.attempts| + 1
               && var attempt := server.attempts[|s.attempts|];
               && attempt.id == attemptId && attempt.actionId == actionId
               && OneMore(s, server, attempt, SIMULATED_CONTENT)
               && sent == {ActionDispatch(actionId, SIMULATED_CONTENT)}
  {
    DestructiveServer(s, stepId, facts, attemptId, actionId);
  }

  lemma DestructiveStepMixed(
    hash: seq<byte> -> Digest, m: Mixed, stepId: Uuid, facts: Dispatch.GateFacts, attemptId: Uuid, actionId: Uuid)
    requires MixedInv(hash, m) && Fresh(m.sys, attemptId, actionId)
    ensures var (server, sent) := DispatchDestructive(m.sys.server, stepId, facts, attemptId, actionId);
            && MixedInv(hash, m.(sys := m.sys.(server := server, net := m.sys.net + sent)))
            && Grows(m.sys.server, server)
  {
    FreshRows(m.sys, attemptId, actionId);
    FreshHere(m, attemptId, actionId);
    DestructiveRows(m.sys.server, stepId, facts, attemptId, actionId);
    var (server, sent) := DispatchDestructive(m.sys.server, stepId, facts, attemptId, actionId);
    if sent == {} {
      assert m.sys.net + sent == m.sys.net;
      RowsMoveOn(hash, m, server);
    } else {
      DestructiveMixed(hash, m, server, server.attempts[|m.sys.server.attempts|]);
    }
  }

  lemma TransferStepMixed(
    hash: seq<byte> -> Digest, m: Mixed, stepId: Uuid, t: Uuid, attemptId: Uuid, actionId: Uuid)
    requires MixedInv(hash, m) && Fresh(m.sys, attemptId, actionId)
    requires t in m.sys.server.transfers
    ensures var (server, sent) := DispatchTransfer(m.sys.server, stepId, t, attemptId, actionId);
            && MixedInv(hash, m.(sys := m.sys.(server := server, net := m.sys.net + sent)))
            && Grows(m.sys.server, server)
  {
    FreshRows(m.sys, attemptId, actionId);
    FreshHere(m, attemptId, actionId);
    TransferRows(m.sys.server, stepId, t, attemptId, actionId);
    var (server, sent) := DispatchTransfer(m.sys.server, stepId, t, attemptId, actionId);
    if sent == {} {
      TransferDenied(m.sys.server, stepId, t, attemptId, actionId);
      assert m.sys.net + sent == m.sys.net;
      RowsMoveOn(hash, m, server);
    } else {
      TakesIt(m, stepId, t, attemptId, actionId);
      TransferMixed(hash, m, server, server.attempts[|m.sys.server.attempts|], t);
    }
  }

  lemma TransferRows(s: Server, stepId: Uuid, t: Uuid, attemptId: Uuid, actionId: Uuid)
    requires ServerInv(s) && FreshFor(s, attemptId, actionId) && t in s.transfers
    ensures var server := DispatchTransfer(s, stepId, t, attemptId, actionId).0;
            ServerInv(server) && Sized(server) && Grows(s, server)
  {
    TransferServer(s, stepId, t, attemptId, actionId);
  }

  lemma TransferDenied(s: Server, stepId: Uuid, t: Uuid, attemptId: Uuid, actionId: Uuid)
    requires Sized(s) && t in s.transfers && DispatchTransfer(s, stepId, t, attemptId, actionId).1 == {}
    requires Sized(DispatchTransfer(s, stepId, t, attemptId, actionId).0)
    ensures SameRows(s, DispatchTransfer(s, stepId, t, attemptId, actionId).0)
  {
  }

  lemma TakesIt(m: Mixed, stepId: Uuid, t: Uuid, attemptId: Uuid, actionId: Uuid)
    requires Sized(m.sys.server) && Fresh(m.sys, attemptId, actionId) && actionId !in m.accepted
    requires t in m.sys.server.transfers
    requires var (server, sent) := DispatchTransfer(m.sys.server, stepId, t, attemptId, actionId);
             Sized(server) && sent != {}
    ensures var (server, sent) := DispatchTransfer(m.sys.server, stepId, t, attemptId, actionId);
            && |server.attempts| == |m.sys.server.attempts| + 1
            && TakesTransfer(m, server, server.attempts[|m.sys.server.attempts|], t)
            && sent == {ActionDispatch(actionId, TransferContent(server.transfers[t]))}
            && server.attempts[|m.sys.server.attempts|].actionId == actionId
  {
    var s := m.sys.server;
    Dispatch.TransferGateIff(s.job, stepId, HasActiveAttempt(s.attempts, stepId), s.transfers[t], attemptId, actionId);
  }

  // ---------------------------------------------------------------------
  // A new Transfer
  // ---------------------------------------------------------------------

  lemma CreateRows(s: Server, transfer: Dispatch.Transfer)
    requires ServerInv(s) && transfer.id !in s.transfers && transfer.attemptId.None?
    ensures var s' := s.(transfers := s.transfers[transfer.id := transfer]);
            ServerInv(s') && Sized(s') && Grows(s, s')
  {
    CreateTransferKeeps(s, transfer);
  }

  lemma CreateMixed(hash: seq<byte> -> Digest, m: Mixed, transfer: Dispatch.Transfer, bytes: seq<byte>)
    requires MixedInv(hash, m) && 0 < transfer.chunkSize < 0x1_0000_0000
    requires transfer.id !in m.sys.server.transfers && transfer.attemptId.None?
    ensures var m' := Created(m, transfer, bytes);
            MixedInv(hash, m') && Grows(m.sys.server, m'.sys.server)
  {
    var m' := Created(m, transfer, bytes);
    CreateRows(m.sys.server, transfer);
    CreatedStored(hash, m, m', transfer);
    CreatedSimulated(m, m');
    CreatedTransfers(hash, m, transfer, bytes);
  }

  lemma CreatedTransfers(hash: seq<byte> -> Digest, m: Mixed, transfer: Dispatch.Transfer, bytes: seq<byte>)
    requires Sized(m.sys.server) && Kinds(m.sys.server) && AllTransfers(hash, m)
    requires 0 < transfer.chunkSize < 0x1_0000_0000
    requires transfer.id !in m.sys.server.transfers && transfer.attemptId.None?
    ensures var m' := Created(m, transfer, bytes); Kinds(m'.sys.server) && AllTransfers(hash, m')
  {
    var m' := Created(m, transfer, bytes);
    forall k: nat, t | Owner(m'.sys.server, k, t)
      ensures TransferLinked(hash, m', k, t)
      ensures m'.sys.server.payloads[k] == TransferContent(m'.sys.server.transfers[t])
    {
      assert Owner(m.sys.server, k, t) && TransferLinked(hash, m, k, t);
      TransferStays(hash, m, m', k, t);
    }
  }

  lemma CreatedStored(hash: seq<byte> -> Digest, m: Mixed, m': Mixed, transfer: Dispatch.Transfer)
    requires AllStored(hash, m) && transfer.id in m'.stores && transfer.id in m'.sources
    requires m'.sys.server.transfers == m.sys.server.transfers[transfer.id := transfer]
    requires 0 < transfer.chunkSize < 0x1_0000_0000
    requires m'.stores == m.stores[transfer.id := NewStore(transfer.artifactId, transfer.chunkSize)]
    requires forall t :: t in m.sources && t != transfer.id ==> t in m'.sources && m'.sources[t] == m.sources[t]
    ensures AllStored(hash, m')
  {
    forall t | t in m'.sys.server.transfers ensures Stored(hash, m', t) {
      assert t != transfer.id ==> Stored(hash, m, t);
    }
  }

  lemma CreatedSimulated(m: Mixed, m': Mixed)
    requires Sized(m.sys.server) && AllSimulated(m) && m'.accepted == m.accepted
    requires m'.sys == m.sys.(server := m.sys.server.(transfers := m'.sys.server.transfers))
    ensures AllSimulated(m')
  {
    forall k | 0 <= k < |m'.sys.server.attempts| && !IsTransfer(m'.sys.server.payloads[k])
      ensures SimulatedLinked(m', k)
    {
      assert SimulatedLinked(m, k);
    }
  }

  // ---------------------------------------------------------------------
  // The transfer participant
  // ---------------------------------------------------------------------

  lemma TransferContentAcceptable(transfer: Dispatch.Transfer)
    requires 0 < transfer.chunkSize < 0x1_0000_0000
    ensures Acceptable(TransferContent(transfer))
  {
    var p := TransferContent(transfer).parameters;
    assert p.Keys == {"transfer_id", "artifact_id", "direction", "digest_algorithm", "chunk_size"};
  }

  /** The participant's messages are about no destructive action of the Job. */
  lemma OthersSimulated(m: Mixed, m': Mixed, actionId: Uuid)
    requires Sized(m.sys.server) && AllSimulated(m)
    requires m'.sys == m.sys.(net := m'.sys.net) && m.sys.net <= m'.sys.net
    requires forall x :: x in m'.sys.net && x !in m.sys.net ==> x.actionId == actionId
    requires forall a :: a in m'.accepted && a !in m.accepted ==> a == actionId
    requires forall k :: 0 <= k < |m.sys.server.attempts| && !IsTransfer(m.sys.server.payloads[k]) ==>
               m.sys.server.attempts[k].actionId != actionId
    ensures AllSimulated(m')
  {
    forall k | 0 <= k < |m'.sys.server.attempts| && !IsTransfer(m'.sys.server.payloads[k])
      ensures SimulatedLinked(m', k)
    {
      assert SimulatedLinked(m, k);
      OtherAction(m.sys, m'.sys, m.sys.server.attempts[k].actionId);
      LinkEvolves(m.sys, m'.sys, k);
    }
  }

  lemma AcceptParts(hash: seq<byte> -> Digest, m: Mixed, actionId: Uuid, content: DispatchContent)
    requires Parts(hash, m) && ActionDispatch(actionId, content) in m.sys.net && IsTransfer(content)
    ensures Parts(hash, Accepting(m, actionId, content))
  {
    var m' := Accepting(m, actionId, content);
    StoredStays(hash, m, m');
    forall k | 0 <= k < |m.sys.server.attempts| && !IsTransfer(m.sys.server.payloads[k])
      ensures m.sys.server.attempts[k].actionId != actionId
    {
      assert SimulatedLinked(m, k);
    }
    OthersSimulated(m, m', actionId);
    AcceptTransfers(hash, m, actionId, content);
  }

  lemma AcceptTransfers(hash: seq<byte> -> Digest, m: Mixed, actionId: Uuid, content: DispatchContent)
    requires Sized(m.sys.server) && Kinds(m.sys.server) && AllTransfers(hash, m) && AllStored(hash, m)
    requires ActionDispatch(actionId, content) in m.sys.net
    ensures AllTransfers(hash, Accepting(m, actionId, content))
  {
    var m' := Accepting(m, actionId, content);
    forall k: nat, t | Owner(m'.sys.server, k, t) ensures TransferLinked(hash, m', k, t) {
      assert Owner(m.sys.server, k, t) && TransferLinked(hash, m, k, t) && Stored(hash, m, t);
      AcceptLinked(hash, m, actionId, content, k, t);
    }
  }

  lemma AcceptLinked(hash: seq<byte> -> Digest, m: Mixed, actionId: Uuid, content: DispatchContent, k: nat, t: Uuid)
    requires Sized(m.sys.server) && Owner(m.sys.server, k, t) && TransferLinked(hash, m, k, t) && Stored(hash, m, t)
    requires m.sys.server.payloads[k] == TransferContent(m.sys.server.transfers[t])
    requires ActionDispatch(actionId, content) in m.sys.net
    ensures TransferLinked(hash, Accepting(m, actionId, content), k, t)
  {
    TransferContentAcceptable(m.sys.server.transfers[t]);
  }

  lemma RunsFaithfully(hash: seq<byte> -> Digest, m: Mixed, k: nat, t: Uuid, options: Options, net: Network)
    requires Sized(m.sys.server) && Owner(m.sys.server, k, t) && Stored(hash, m, t)
    requires options.corruptChunk.None? && forall q :: !net(q).abandoned
    ensures var r, run := RowsAt(m, k, t), RunOf(m, t, options, net);
            Faithful(hash, InMemory(m.sources[t]), m.sys.server.transfers[t].chunkSize, true, T.Next(hash, r, run).store)
  {
    var source, chunkSize := InMemory(m.sources[t]), m.sys.server.transfers[t].chunkSize;
    if source.len > 0 {
      InMemoryIsFaithful(m.sources[t], chunkSize);
      T.FaithfulStep(hash, source, chunkSize, RowsAt(m, k, t), RunOf(m, t, options, net));
    }
  }

  /** A run reports a verified transfer only when its Artifact is Verified. */
  lemma ReportsVerified(hash: seq<byte> -> Digest, r: T.Rows, run: T.Step)
    requires run.RunStep? && T.Enabled(run) && T.RunResult(hash, r, run) == Some(TransferVerified)
    ensures T.Next(hash, r, run).store.artifact.Verified?
  {
    VerifiedRun(hash, run.source, run.chunkSize, run.options, run.net, r.store);
  }

  lemma AdvancingStored(hash: seq<byte> -> Digest, m: Mixed, t: Uuid, store: Store, sent: set<Message>)
    requires AllStored(hash, m) && t in m.sys.server.transfers && Stored(hash, m, t)
    requires store.manifest.artifactId == m.stores[t].manifest.artifactId
    requires Faithful(hash, InMemory(m.sources[t]), m.sys.server.transfers[t].chunkSize, true, store)
    requires m.sys.server.transfers[t].attemptId.None? ==> store == m.stores[t]
    ensures AllStored(hash, Advancing(m, t, store, sent))
  {
    forall u | u in m.sys.server.transfers ensures Stored(hash, Advancing(m, t, store, sent), u) {
      assert Stored(hash, m, u);
    }
  }

  /** The other transfers do not notice. */
  lemma AdvancingOthers(hash: seq<byte> -> Digest, m: Mixed, t: Uuid, store: Store, sent: set<Message>, j: nat, u: Uuid)
    requires Sized(m.sys.server) && Owner(m.sys.server, j, u) && TransferLinked(hash, m, j, u) && u != t
    requires forall x :: x in sent ==> x.actionId != m.sys.server.attempts[j].actionId
    ensures TransferLinked(hash, Advancing(m, t, store, sent), j, u)
  {
    TransferStays(hash, m, Advancing(m, t, store, sent), j, u);
  }

  lemma AdvancingOne(
    hash: seq<byte> -> Digest, m: Mixed, k: nat, t: Uuid, store: Store, sent: set<Message>)
    requires Sized(m.sys.server) && Owner(m.sys.server, k, t) && TransferLinked(hash, m, k, t)
    requires T.Inv(hash, RowsAt(m, k, t).(store := store)) && Extends(m.stores[t], store)
    requires var a := m.sys.server.attempts[k].actionId;
             && (sent != {} ==> a in m.accepted)
             && (forall x :: x in sent ==> exists result :: x == ResultMessage(a, result))
             && (ResultMessage(a, TransferVerified) in sent ==> store.artifact.Verified?)
    ensures TransferLinked(hash, Advancing(m, t, store, sent), k, t)
  {
  }

  /** Attempts and bound Transfers are told apart by their identities. */
  ghost predicate Identified(s: Server) {
    DistinctAttempts(s.attempts) && Bindings(s)
  }

  lemma SameOwner(s: Server, k: nat, t: Uuid, j: nat, u: Uuid)
    requires Identified(s) && Owner(s, k, t) && Owner(s, j, u)
    ensures k == j <==> t == u
    ensures k != j ==> s.attempts[k].actionId != s.attempts[j].actionId
  {
  }

  lemma AdvancingTransfers(
    hash: seq<byte> -> Digest, m: Mixed, k: nat, t: Uuid, store: Store, sent: set<Message>)
    requires Identified(m.sys.server) && Sized(m.sys.server) && AllTransfers(hash, m) && Owner(m.sys.server, k, t)
    requires TransferLinked(hash, m, k, t)
    requires T.Inv(hash, RowsAt(m, k, t).(store := store)) && Extends(m.stores[t], store)
    requires var a := m.sys.server.attempts[k].actionId;
             && (sent != {} ==> a in m.accepted)
             && (forall x :: x in sent ==> exists result :: x == ResultMessage(a, result))
             && (ResultMessage(a, TransferVerified) in sent ==> store.artifact.Verified?)
    ensures AllTransfers(hash, Advancing(m, t, store, sent))
  {
    forall j: nat, u | Owner(m.sys.server, j, u) ensures TransferLinked(hash, Advancing(m, t, store, sent), j, u) {
      SameOwner(m.sys.server, k, t, j, u);
      if u == t {
        AdvancingOne(hash, m, k, t, store, sent);
      } else {
        assert TransferLinked(hash, m, j, u);
        AdvancingOthers(hash, m, t, store, sent, j, u);
      }
    }
  }

  lemma RunFacts(hash: seq<byte> -> Digest, r: T.Rows, run: T.Step)
    requires T.Inv(hash, r) && run.RunStep? && T.Enabled(run)
    ensures T.Inv(hash, r.(store := T.Next(hash, r, run).store)) && Extends(r.store, T.Next(hash, r, run).store)
    ensures var sent := Results(r.attempt.actionId, T.RunResult(hash, r, run));
            ResultMessage(r.attempt.actionId, TransferVerified) in sent ==> T.Next(hash, r, run).store.artifact.Verified?
  {
    T.NextKeeps(hash, r, run);
    if T.RunResult(hash, r, run) == Some(TransferVerified) {
      ReportsVerified(hash, r, run);
    }
  }

  lemma PerformParts(hash: seq<byte> -> Digest, m: Mixed, k: nat, t: Uuid, options: Options, net: Network)
    requires Parts(hash, m) && Identified(m.sys.server) && MayRun(m, k, t, options, net)
    ensures var r, run := RowsAt(m, k, t), RunOf(m, t, options, net);
            var sent := Results(r.attempt.actionId, T.RunResult(hash, r, run));
            Parts(hash, Advancing(m, t, T.Next(hash, r, run).store, sent))
  {
    var r, run := RowsAt(m, k, t), RunOf(m, t, options, net);
    assert Stored(hash, m, t) && TransferLinked(hash, m, k, t);
    RunFacts(hash, r, run);
    RunsFaithfully(hash, m, k, t, options, net);
    PerformedParts(hash, m, k, t, T.Next(hash, r, run).store,
                   Results(r.attempt.actionId, T.RunResult(hash, r, run)));
  }

  lemma PerformedParts(hash: seq<byte> -> Digest, m: Mixed, k: nat, t: Uuid, store: Store, sent: set<Message>)
    requires Parts(hash, m) && Identified(m.sys.server) && Owner(m.sys.server, k, t) && t in m.stores && t in m.sources
    requires 0 < m.sys.server.transfers[t].chunkSize < 0x1_0000_0000
    requires Faithful(hash, InMemory(m.sources[t]), m.sys.server.transfers[t].chunkSize, true, store)
    requires T.Inv(hash, RowsAt(m, k, t).(store := store)) && Extends(m.stores[t], store)
    requires var a := m.sys.server.attempts[k].actionId;
             && (sent != {} ==> a in m.accepted)
             && (forall x :: x in sent ==> exists result :: x == ResultMessage(a, result))
             && (ResultMessage(a, TransferVerified) in sent ==> store.artifact.Verified?)
    ensures Parts(hash, Advancing(m, t, store, sent))
  {
    assert Stored(hash, m, t) && TransferLinked(hash, m, k, t);
    AdvancingStored(hash, m, t, store, sent);
    AdvancingTransfers(hash, m, k, t, store, sent);
    NotSimulated(m.sys.server, k, t);
    OthersSimulated(m, Advancing(m, t, store, sent), m.sys.server.attempts[k].actionId);
  }

  lemma NotSimulated(s: Server, k: nat, t: Uuid)
    requires DistinctAttempts(s.attempts) && Sized(s) && Kinds(s) && Owner(s, k, t)
    ensures forall j :: 0 <= j < |s.attempts| && !IsTransfer(s.payloads[j]) ==>
              s.attempts[j].actionId != s.attempts[k].actionId
  {
    assert IsTransfer(s.payloads[k]);
  }

  lemma VerifyParts(hash: seq<byte> -> Digest, m: Mixed, t: Uuid)
    requires Parts(hash, m) && Identified(m.sys.server) && t in m.sys.server.transfers && t in m.stores
    ensures Parts(hash, Advancing(m, t, CompleteSeal(hash, m.stores[t]).0, {}))
  {
    assert Stored(hash, m, t);
    if m.stores[t].artifact.PendingVerification? {
      PendingSource(hash, m, t);
      BoundSomewhere(m.sys.server, t);
      var k: nat :| Owner(m.sys.server, k, t);
      assert TransferLinked(hash, m, k, t);
      VerifiedInv(hash, RowsAt(m, k, t));
      PerformedParts(hash, m, k, t, CompleteSeal(hash, m.stores[t]).0, {});
    } else {
      NothingPending(hash, m, t);
    }
  }

  lemma VerifiedInv(hash: seq<byte> -> Digest, r: T.Rows)
    requires T.Inv(hash, r)
    ensures T.Inv(hash, r.(store := CompleteSeal(hash, r.store).0)) && Extends(r.store, CompleteSeal(hash, r.store).0)
  {
    T.NextKeeps(hash, r, T.VerifyStep);
  }

  lemma NothingPending(hash: seq<byte> -> Digest, m: Mixed, t: Uuid)
    requires t in m.stores && !m.stores[t].artifact.PendingVerification?
    ensures Advancing(m, t, CompleteSeal(hash, m.stores[t]).0, {}) == m
  {
    assert m.stores[t := m.stores[t]] == m.stores && m.sys.net + {} == m.sys.net;
  }

  lemma PendingSource(hash: seq<byte> -> Digest, m: Mixed, t: Uuid)
    requires t in m.sys.server.transfers && Stored(hash, m, t) && m.stores[t].artifact.PendingVerification?
    ensures m.sys.server.transfers[t].attemptId.Some?
    ensures Faithful(hash, InMemory(m.sources[t]), m.sys.server.transfers[t].chunkSize, true,
                     CompleteSeal(hash, m.stores[t]).0)
  {
    var source, chunkSize := InMemory(m.sources[t]), m.sys.server.transfers[t].chunkSize;
    if source.len > 0 {
      InMemoryIsFaithful(m.sources[t], chunkSize);
      CompleteFaithful(hash, source, chunkSize, true, m.stores[t]);
    }
  }

  lemma BoundSomewhere(s: Server, t: Uuid)
    requires Identified(s) && t in s.transfers && s.transfers[t].attemptId.Some?
    ensures exists k: nat :: Owner(s, k, t)
  {
    var k :| 0 <= k < |s.attempts| && s.attempts[k].id == s.transfers[t].attemptId.value;
    assert Owner(s, k, t);
  }

  // ---------------------------------------------------------------------
  // Evidence
  // ---------------------------------------------------------------------

  /** Only the k-th Attempt has moved. */
  ghost predicate OneMoved(s: Server, s': Server, k: nat) {
    && Sized(s') && |s'.attempts| == |s.attempts| && s'.payloads == s.payloads && s'.transfers == s.transfers
    && k < |s.attempts| && s'.attempts[k] == s.attempts[k].(state := s'.attempts[k].state)
    && forall j :: 0 <= j < |s.attempts| && j != k ==> s'.attempts[j] == s.attempts[j]
  }

  lemma MovedKinds(s: Server, s': Server, k: nat)
    requires Kinds(s) && OneMoved(s, s', k)
    ensures Kinds(s')
    ensures forall j: nat, u :: Owner(s', j, u) <==> Owner(s, j, u)
  {
    forall j: nat, u ensures Owner(s', j, u) <==> Owner(s, j, u) {
      assert j < |s.attempts| ==> s'.attempts[j].id == s.attempts[j].id;
    }
  }

  lemma MovedSimulated(m: Mixed, server: Server, stores: map<Uuid, Store>, k: nat)
    requires Sized(m.sys.server) && AllSimulated(m)
    requires Grows(m.sys.server, server) && OneMoved(m.sys.server, server, k)
    requires || IsTransfer(m.sys.server.payloads[k])
             || server.attempts[k] == m.sys.server.attempts[k]
             || Agrees(server.attempts[k].state, Record(m.sys.agent, server.attempts[k].actionId))
    ensures AllSimulated(WithServer(m, server).(stores := stores))
  {
    forall j | 0 <= j < |server.attempts| && !IsTransfer(server.payloads[j])
      ensures SimulatedLinked(WithServer(m, server).(stores := stores), j)
    {
      assert SimulatedLinked(m, j);
      ServerStepLinked(m.sys, server, j);
    }
  }

  lemma MovedTransfer(
    hash: seq<byte> -> Digest, m: Mixed, server: Server, stores: map<Uuid, Store>, k: nat, j: nat, u: Uuid)
    requires Sized(m.sys.server) && OneMoved(m.sys.server, server, k)
    requires Owner(m.sys.server, j, u) && Owner(server, j, u) && TransferLinked(hash, m, j, u)
    requires j != k && u in stores && stores[u] == m.stores[u]
    ensures TransferLinked(hash, WithServer(m, server).(stores := stores), j, u)
  {
    TransferStays(hash, m, WithServer(m, server).(stores := stores), j, u);
  }

  lemma SimulatedReceive(hash: seq<byte> -> Digest, m: Mixed, x: Message, k: nat)
    requires MixedInv(hash, m) && x in m.sys.net && FindAttempt(m.sys.server.attempts, x.actionId) == Some(k)
    requires !IsTransfer(m.sys.server.payloads[k])
    ensures MixedInv(hash, WithServer(m, Receive(m.sys.server, x))) && Grows(m.sys.server, Receive(m.sys.server, x))
  {
    var server := Receive(m.sys.server, x);
    assert SimulatedLinked(m, k);
    ReceiveServer(m.sys.server, x);
    ReceiveAgrees(m.sys, x, k);
    ReceiveMoves(m.sys.server, x, k);
    MovedKinds(m.sys.server, server, k);
    StoredStays(hash, m, WithServer(m, server));
    MovedSimulated(m, server, m.stores, k);
    forall j: nat, u | Owner(server, j, u) ensures TransferLinked(hash, WithServer(m, server), j, u) {
      assert Owner(m.sys.server, j, u) && TransferLinked(hash, m, j, u);
      assert IsTransfer(m.sys.server.payloads[j]);
      MovedTransfer(hash, m, server, m.stores, k, j, u);
    }
  }

  lemma ReceiveMoves(s: Server, x: Message, k: nat)
    requires ServerInv(s) && FindAttempt(s.attempts, x.actionId) == Some(k)
    requires Grows(s, Receive(s, x)) && Sized(Receive(s, x))
    ensures OneMoved(s, Receive(s, x), k)
  {
    ReceiveAt(s, x, k);
    assert SameAttempt(s.attempts[k], Receive(s, x).attempts[k]);
  }

  /** The transfer path and the generic one read a message alike. */
  lemma SameDecision(r: T.Rows, x: Message, artifactId: Uuid)
    requires AsReport(x, artifactId).Some? && x.actionId == r.attempt.actionId
    ensures Decide(T.AsMessage(r, AsReport(x, artifactId).value), r.job, r.step, r.attempt) ==
            Decide(x, r.job, r.step, r.attempt)
  {
  }

  /** A believed report moves the rows as the generic decision would. */
  lemma BelievedRows(hash: seq<byte> -> Digest, m: Mixed, x: Message, k: nat, t: Uuid, report: T.Report)
    requires MixedInv(hash, m) && x in m.sys.net && FindAttempt(m.sys.server.attempts, x.actionId) == Some(k)
    requires Owner(m.sys.server, k, t) && t in m.stores
    requires AsReport(x, m.sys.server.transfers[t].artifactId) == Some(report)
    requires T.DecideReport(RowsAt(m, k, t), report).Persist?
    ensures var server := Commit(m.sys.server, k, T.DecideReport(RowsAt(m, k, t), report).applied);
            && ServerInv(server) && Sized(server) && Grows(m.sys.server, server)
            && OneMoved(m.sys.server, server, k)
  {
    var r := RowsAt(m, k, t);
    assert TransferLinked(hash, m, k, t);
    T.ReportIff(r, report);
    SameDecision(r, x, m.sys.server.transfers[t].artifactId);
    ReceiveAt(m.sys.server, x, k);
    ReceiveServer(m.sys.server, x);
    ReceiveMoves(m.sys.server, x, k);
  }

  /** And the Attempt then fits the message that moved it. */
  lemma BelievedFits(hash: seq<byte> -> Digest, m: Mixed, x: Message, k: nat, t: Uuid, report: T.Report)
    requires Sized(m.sys.server) && Owner(m.sys.server, k, t) && TransferLinked(hash, m, k, t)
    requires x in m.sys.net && x.actionId == m.sys.server.attempts[k].actionId
    requires AsReport(x, m.sys.server.transfers[t].artifactId) == Some(report)
    requires T.DecideReport(RowsAt(m, k, t), report).Persist?
    ensures var a := x.actionId;
            Fits(T.DecideReport(RowsAt(m, k, t), report).applied.attempt.state, a in m.accepted, m.sys.net, a)
  {
    assert Plausible(x, x.actionId in m.accepted);
    if x.ActionResult? {
      assert x == ResultMessage(x.actionId, report.code);
    }
  }

  lemma BelievedLinked(hash: seq<byte> -> Digest, m: Mixed, x: Message, k: nat, t: Uuid, report: T.Report)
    requires Sized(m.sys.server) && Owner(m.sys.server, k, t) && TransferLinked(hash, m, k, t)
    requires x in m.sys.net && x.actionId == m.sys.server.attempts[k].actionId
    requires AsReport(x, m.sys.server.transfers[t].artifactId) == Some(report)
    requires T.DecideReport(RowsAt(m, k, t), report).Persist?
    requires var d := T.DecideReport(RowsAt(m, k, t), report);
             OneMoved(m.sys.server, Commit(m.sys.server, k, d.applied), k)
    ensures var d := T.DecideReport(RowsAt(m, k, t), report);
            var m' := Believed(m, k, t, d.applied, d.failArtifact);
            Owner(m'.sys.server, k, t) && TransferLinked(hash, m', k, t)
  {
    T.ReceiveKeeps(hash, RowsAt(m, k, t), report);
    BelievedFits(hash, m, x, k, t, report);
  }

  lemma BelievedStored(hash: seq<byte> -> Digest, m: Mixed, m': Mixed, t: Uuid)
    requires AllStored(hash, m) && t in m.sys.server.transfers && Stored(hash, m, t)
    requires m.sys.server.transfers[t].attemptId.Some?
    requires m'.sys.server.transfers == m.sys.server.transfers && m'.sources == m.sources
    requires m'.stores == m.stores || m'.stores == m.stores[t := Abandon(m.stores[t])]
    ensures AllStored(hash, m')
  {
    ArrivalFaithful(hash, InMemory(m.sources[t]), m.sys.server.transfers[t].chunkSize, true, m.stores[t],
                    Event(true, Delivered));
    forall u | u in m'.sys.server.transfers ensures Stored(hash, m', u) {
      assert Stored(hash, m, u);
    }
  }

  lemma BelievedTransfers(hash: seq<byte> -> Digest, m: Mixed, m': Mixed, k: nat, t: Uuid)
    requires Identified(m.sys.server) && Sized(m.sys.server) && AllTransfers(hash, m) && Owner(m.sys.server, k, t)
    requires OneMoved(m.sys.server, m'.sys.server, k) && Owner(m'.sys.server, k, t) && TransferLinked(hash, m', k, t)
    requires forall j: nat, u :: Owner(m'.sys.server, j, u) <==> Owner(m.sys.server, j, u)
    requires m' == WithServer(m, m'.sys.server).(stores := m'.stores)
    requires forall u :: u in m.stores && u != t ==> u in m'.stores && m'.stores[u] == m.stores[u]
    ensures AllTransfers(hash, m')
  {
    forall j: nat, u | Owner(m'.sys.server, j, u) ensures TransferLinked(hash, m', j, u) {
      SameOwner(m.sys.server, k, t, j, u);
      if j != k {
        assert TransferLinked(hash, m, j, u);
        MovedTransfer(hash, m, m'.sys.server, m'.stores, k, j, u);
      }
    }
  }

  lemma BelievedMixed(hash: seq<byte> -> Digest, m: Mixed, x: Message, k: nat, t: Uuid, report: T.Report)
    requires MixedInv(hash, m) && x in m.sys.net && FindAttempt(m.sys.server.attempts, x.actionId) == Some(k)
    requires Owner(m.sys.server, k, t) && t in m.stores
    requires AsReport(x, m.sys.server.transfers[t].artifactId) == Some(report)
    requires T.DecideReport(RowsAt(m, k, t), report).Persist?
    ensures var d := T.DecideReport(RowsAt(m, k, t), report);
            var m' := Believed(m, k, t, d.applied, d.failArtifact);
            MixedInv(hash, m') && Grows(m.sys.server, m'.sys.server)
  {
    var d := T.DecideReport(RowsAt(m, k, t), report);
    var m' := Believed(m, k, t, d.applied, d.failArtifact);
    assert Stored(hash, m, t) && TransferLinked(hash, m, k, t);
    BelievedRows(hash, m, x, k, t, report);
    BelievedLinked(hash, m, x, k, t, report);
    MovedParts(hash, m, m', k, t);
  }

  lemma MovedParts(hash: seq<byte> -> Digest, m: Mixed, m': Mixed, k: nat, t: Uuid)
    requires Parts(hash, m) && Identified(m.sys.server) && Grows(m.sys.server, m'.sys.server)
    requires OneMoved(m.sys.server, m'.sys.server, k) && Owner(m.sys.server, k, t)
    requires Owner(m'.sys.server, k, t) && TransferLinked(hash, m', k, t) && t in m.stores
    requires m' == WithServer(m, m'.sys.server).(stores := m'.stores)
    requires m'.stores == m.stores || m'.stores == m.stores[t := Abandon(m.stores[t])]
    ensures Parts(hash, m')
  {
    assert Stored(hash, m, t) && IsTransfer(m.sys.server.payloads[k]);
    MovedKinds(m.sys.server, m'.sys.server, k);
    BelievedStored(hash, m, m', t);
    MovedSimulated(m, m'.sys.server, m'.stores, k);
    BelievedTransfers(hash, m, m', k, t);
  }

  lemma ReceivesOrNot(m: Mixed, x: Message, k: nat, t: Uuid)
    requires Owner(m.sys.server, k, t) && t in m.stores && k < |m.sys.server.job.steps|
    ensures var read := AsReport(x, m.sys.server.transfers[t].artifactId);
            if read.Some? && T.DecideReport(RowsAt(m, k, t), read.value).Persist? then
              var d := T.DecideReport(RowsAt(m, k, t), read.value);
              ReceiveTransfer(m, x, k, t) == Believed(m, k, t, d.applied, d.failArtifact)
            else ReceiveTransfer(m, x, k, t) == m
  {
  }

  lemma ReceiveTransferMixed(hash: seq<byte> -> Digest, m: Mixed, x: Message, k: nat, t: Uuid)
    requires MixedInv(hash, m) && x in m.sys.net && FindAttempt(m.sys.server.attempts, x.actionId) == Some(k)
    requires Owner(m.sys.server, k, t) && t in m.stores
    ensures var m' := ReceiveTransfer(m, x, k, t);
            MixedInv(hash, m') && Grows(m.sys.server, m'.sys.server)
  {
    ReceivesOrNot(m, x, k, t);
    var read := AsReport(x, m.sys.server.transfers[t].artifactId);
    if read.Some? && T.DecideReport(RowsAt(m, k, t), read.value).Persist? {
      BelievedMixed(hash, m, x, k, t, read.value);
    } else {
      GrowsReflexive(m.sys.server);
    }
  }

  lemma ReceiveMixed(hash: seq<byte> -> Digest, m: Mixed, x: Message)
    requires MixedInv(hash, m) && x in m.sys.net
    ensures MixedInv(hash, MixedReceive(m, x)) && Grows(m.sys.server, MixedReceive(m, x).sys.server)
  {
    GrowsReflexive(m.sys.server);
    var found := FindAttempt(m.sys.server.attempts, x.actionId);
    if found.Some? {
      KindOf(m.sys.server, found.value);
      match TransferOf(m.sys.server, found.value) {
        case None => SimulatedReceive(hash, m, x, found.value);
        case Some(t) =>
          assert Stored(hash, m, t);
          ReceiveTransferMixed(hash, m, x, found.value, t);
      }
    }
  }

  // ---------------------------------------------------------------------
  // Every step, every run
  // ---------------------------------------------------------------------

  lemma PlainKeeps(hash: seq<byte> -> Digest, m: Mixed, step: Step)
    requires MixedInv(hash, m) && MixedEnabled(m, Plain(step)) && !step.ServerReceives?
    ensures MixedInv(hash, m.(sys := Next(m.sys, step))) && Grows(m.sys.server, Next(m.sys, step).server)
  {
    if Decides(step) {
      DecidesKeeps(hash, m, step);
    } else if Quiet(step) {
      GrowsReflexive(m.sys.server);
      QuietStepKeeps(hash, m, step);
    } else if step.CancelStep? {
      CancelStepMixed(hash, m);
    } else if step.DestructiveStep? {
      DestructiveStepMixed(hash, m, step.stepId, step.facts, step.attemptId, step.actionId);
    } else {
      TransferStepMixed(hash, m, step.stepId, step.transferId, step.attemptId, step.actionId);
    }
  }

  lemma TransferPartKeeps(hash: seq<byte> -> Digest, m: Mixed, step: MixedStep)
    requires MixedInv(hash, m) && MixedEnabled(m, step) && !step.Plain?
    ensures var m' := MixedNext(hash, m, step);
            MixedInv(hash, m') && Grows(m.sys.server, m'.sys.server)
  {
    GrowsReflexive(m.sys.server);
    match step {
      case Create(transfer, bytes) => CreateMixed(hash, m, transfer, bytes);
      case Accept(actionId, content) => AcceptParts(hash, m, actionId, content);
      case Perform(k, t, options, net) => PerformParts(hash, m, k, t, options, net);
      case Verify(t) => VerifyParts(hash, m, t);
    }
  }

  /** Every step of the Server, both participants, the network and the data plane keeps the
      invariant and loses nothing. */
  lemma MixedNextKeeps(hash: seq<byte> -> Digest, m: Mixed, step: MixedStep)
    requires MixedInv(hash, m) && MixedEnabled(m, step)
    ensures var m' := MixedNext(hash, m, step);
            MixedInv(hash, m') && Grows(m.sys.server, m'.sys.server)
  {
    if !step.Plain? {
      TransferPartKeeps(hash, m, step);
    } else if step.step.ServerReceives? {
      ReceiveMixed(hash, m, step.step.m);
    } else {
      PlainKeeps(hash, m, step.step);
    }
  }

  lemma MixedInitialHolds(hash: seq<byte> -> Digest, m: Mixed)
    requires MixedInitial(m)
    ensures MixedInv(hash, m)
  {
    InitialHolds(m.sys);
  }

  lemma {:induction false} MixedRunKeeps(hash: seq<byte> -> Digest, m: Mixed, run: seq<MixedStep>)
    requires MixedInv(hash, m) && ValidMixedRun(hash, m, run)
    ensures var m' := MixedExec(hash, m, run);
            MixedInv(hash, m') && Grows(m.sys.server, m'.sys.server)
    decreases |run|
  {
    if run == [] {
      GrowsReflexive(m.sys.server);
    } else {
      var next := MixedNext(hash, m, run[0]);
      MixedNextKeeps(hash, m, run[0]);
      MixedRunKeeps(hash, next, run[1..]);
      GrowsTransitive(m.sys.server, next.sys.server, MixedExec(hash, m, run).sys.server);
    }
  }

  lemma SourcesStep(hash: seq<byte> -> Digest, m: Mixed, step: MixedStep, t: Uuid)
    requires MixedEnabled(m, step) && t in m.sys.server.transfers && t in m.sources
    ensures var m' := MixedNext(hash, m, step); t in m'.sources && m'.sources[t] == m.sources[t]
  {
  }

  /** The source of a Transfer is fixed with it. */
  lemma {:induction false} SourcesStay(hash: seq<byte> -> Digest, m: Mixed, run: seq<MixedStep>, t: Uuid)
    requires MixedInv(hash, m) && ValidMixedRun(hash, m, run) && t in m.sys.server.transfers && t in m.sources
    ensures var m' := MixedExec(hash, m, run); t in m'.sources && m'.sources[t] == m.sources[t]
    decreases |run|
  {
    if run != [] {
      SourcesStep(hash, m, run[0], t);
      MixedNextKeeps(hash, m, run[0]);
      SourcesStay(hash, MixedNext(hash, m, run[0]), run[1..], t);
    }
  }
}
