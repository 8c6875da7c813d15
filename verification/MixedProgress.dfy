/** Every mixed workflow can be carried through: whichever steps are destructive and whichever
    are transfers, of whatever bytes, there is a run in which the Job succeeds. */
module MixedProgress {
  import opened Workflow
  import opened Evidence
  import opened Bytes
  import opened ActionAgent
  import opened Protocol
  import opened ServerInvariant
  import opened SystemInvariant
  import opened ProtocolTheorems
  import opened ProtocolProgress
  import opened ChunkManifest
  import opened DataPlane
  import opened TransferSource
  import opened Delivery
  import opened TransferAgent
  import opened TransferTheorems
  import opened MixedJob
  import opened MixedInvariant
  import opened MixedTheorems
  import Dispatch
  import T = TransferOutcome

  /** Some run leads from here to there. */
  ghost predicate Reaches(hash: seq<byte> -> Digest, m: Mixed, e: Mixed) {
    exists run :: ValidMixedRun(hash, m, run) && MixedExec(hash, m, run) == e
  }

  lemma ReachNone(hash: seq<byte> -> Digest, m: Mixed)
    ensures Reaches(hash, m, m)
  {
    assert ValidMixedRun(hash, m, []) && MixedExec(hash, m, []) == m;
  }

  lemma ReachStep(hash: seq<byte> -> Digest, m: Mixed, step: MixedStep, e: Mixed)
    requires MixedEnabled(m, step) && Reaches(hash, MixedNext(hash, m, step), e)
    ensures Reaches(hash, m, e)
  {
    var next := MixedNext(hash, m, step);
    var run :| ValidMixedRun(hash, next, run) && MixedExec(hash, next, run) == e;
    assert ([step] + run)[1..] == run;
    assert ValidMixedRun(hash, m, [step] + run) && MixedExec(hash, m, [step] + run) == e;
  }

  lemma ReachOne(hash: seq<byte> -> Digest, m: Mixed, step: MixedStep)
    requires MixedEnabled(m, step)
    ensures Reaches(hash, m, MixedNext(hash, m, step))
  {
    ReachNone(hash, MixedNext(hash, m, step));
    ReachStep(hash, m, step, MixedNext(hash, m, step));
  }

  lemma {:induction false} Chain(hash: seq<byte> -> Digest, m: Mixed, run: seq<MixedStep>, e: Mixed)
    requires ValidMixedRun(hash, m, run) && Reaches(hash, MixedExec(hash, m, run), e)
    ensures Reaches(hash, m, e)
    decreases |run|
  {
    if run != [] {
      Chain(hash, MixedNext(hash, m, run[0]), run[1..], e);
      ReachStep(hash, m, run[0], e);
    }
  }

  lemma ReachOn(hash: seq<byte> -> Digest, m: Mixed, middle: Mixed, e: Mixed)
    requires Reaches(hash, m, middle) && Reaches(hash, middle, e)
    ensures Reaches(hash, m, e)
  {
    var run :| ValidMixedRun(hash, m, run) && MixedExec(hash, m, run) == middle;
    Chain(hash, m, run, e);
  }

  // ---------------------------------------------------------------------
  // Destructive steps
  // ---------------------------------------------------------------------

  /** The result of a destructive action is about no transfer. */
  lemma NoTransfer(hash: seq<byte> -> Digest, m: Mixed, x: Message, k: nat)
    requires Parts(hash, m) && x in m.sys.net && x.ActionResult? && x.code == RESULT_CODE
    requires k < |m.sys.server.attempts| && m.sys.server.attempts[k].actionId == x.actionId
    ensures TransferOf(m.sys.server, k).None?
  {
    if TransferOf(m.sys.server, k).Some? {
      assert TransferLinked(hash, m, k, TransferOf(m.sys.server, k).value);
      var result :| x == ResultMessage(x.actionId, result);
      CodesDiffer(result);
    }
  }

  lemma CodesDiffer(result: TransferResult)
    ensures Code(result) != RESULT_CODE
  {
    assert ParseCode(RESULT_CODE).None?;
  }

  lemma OrdinaryStep(hash: seq<byte> -> Digest, m: Mixed, step: Step)
    requires Parts(hash, m) && Enabled(m.sys, step) && Ordinary([step])
    ensures MixedEnabled(m, Plain(step)) && MixedNext(hash, m, Plain(step)) == m.(sys := Next(m.sys, step))
  {
    assert step in [step];
    if step.ServerReceives? {
      var found := FindAttempt(m.sys.server.attempts, step.m.actionId);
      if found.Some? {
        NoTransfer(hash, m, step.m, found.value);
      }
    }
  }

  lemma OrdinaryNext(hash: seq<byte> -> Digest, m: Mixed, step: Step)
    requires MixedInv(hash, m) && Enabled(m.sys, step) && Ordinary([step])
    ensures Reaches(hash, m, m.(sys := Next(m.sys, step)))
    ensures MixedInv(hash, m.(sys := Next(m.sys, step)))
  {
    OrdinaryStep(hash, m, step);
    MixedNextKeeps(hash, m, Plain(step));
    ReachOne(hash, m, Plain(step));
  }

  /** A run that only carries destructive steps is a run of the mixed Job. */
  lemma {:induction false} Lift(hash: seq<byte> -> Digest, m: Mixed, run: seq<Step>)
    requires MixedInv(hash, m) && ValidRun(m.sys, run) && Ordinary(run)
    ensures Reaches(hash, m, m.(sys := Exec(m.sys, run)))
    ensures MixedInv(hash, m.(sys := Exec(m.sys, run)))
    decreases |run|
  {
    if run == [] {
      ReachNone(hash, m);
    } else {
      var next := m.(sys := Next(m.sys, run[0]));
      OrdinaryNext(hash, m, run[0]);
      Lift(hash, next, run[1..]);
      ReachOn(hash, m, next, m.(sys := Exec(m.sys, run)));
    }
  }

  ghost predicate MixedReady(hash: seq<byte> -> Digest, m: Mixed, k: nat) {
    MixedInv(hash, m) && Ready(m.sys, k)
  }

  /** The k-th step is done, and the next one may begin. */
  ghost predicate Onward(hash: seq<byte> -> Digest, m: Mixed, k: nat, e: Mixed) {
    && |e.sys.server.job.steps| == |m.sys.server.job.steps|
    && if k + 1 < |m.sys.server.job.steps| then MixedReady(hash, e, k + 1) else e.sys.server.job.state.Succeeded?
  }

  lemma DestructiveRound(hash: seq<byte> -> Digest, m: Mixed, k: nat) returns (e: Mixed)
    requires MixedReady(hash, m, k)
    ensures Reaches(hash, m, e) && Onward(hash, m, k, e)
    ensures e.sys.server.payloads == m.sys.server.payloads + [SIMULATED_CONTENT]
  {
    var plain := Round(m.sys, k);
    Lift(hash, m, plain);
    e := m.(sys := Exec(m.sys, plain));
  }

  // ---------------------------------------------------------------------
  // Transfers
  // ---------------------------------------------------------------------

  function Bind(s: Server, k: nat, t: Uuid, attemptId: Uuid, actionId: Uuid): Server
    requires k < |s.job.steps| && t in s.transfers
  {
    var step, bound := s.job.steps[k].(state := StepState.Dispatching), s.transfers[t].(attemptId := Some(attemptId));
    s.(job := s.job.(steps := s.job.steps[k := step]),
       attempts := s.attempts + [Attempt(attemptId, step.id, actionId, AttemptState.Dispatched)],
       payloads := s.payloads + [TransferContent(bound)],
       transfers := s.transfers[t := bound])
  }

  ghost predicate Unbound(s: Server, k: nat, t: Uuid)
    requires k < |s.job.steps|
  {
    && t in s.transfers && s.transfers[t].attemptId.None?
    && Dispatch.Correlated(s.transfers[t], s.job, s.job.steps[k].id)
  }

  /** The transfer gate opens for an eligible step and its Transfer. */
  lemma TransferGateOpens(s: Server, k: nat, t: Uuid, attemptId: Uuid, actionId: Uuid)
    requires ServerInv(s) && ServerReady(s, k) && Unbound(s, k, t)
    requires s.job.steps[k].state.PreconditionsSatisfied? && s.job.steps[k].intent.None?
    ensures var after := Bind(s, k, t, attemptId, actionId);
            DispatchTransfer(s, s.job.steps[k].id, t, attemptId, actionId) ==
            (after, {ActionDispatch(actionId, TransferContent(after.transfers[t]))})
  {
    var x := s.job.steps[k].id;
    StepByIdentity(s.job.steps, k, s.job.steps[k]);
    StepByIdentity(s.job.steps, k, s.job.steps[k].(state := StepState.Dispatching));
    forall i | 0 <= i < k ensures s.job.steps[i].state.StepSucceeded? && s.attempts[i].jobStepId != x {
      assert Mirrors(s.job.steps[i], s.attempts[i]);
    }
    assert EarlierStepsSucceeded(s.job.steps, k);
    assert !HasActiveAttempt(s.attempts, x);
    Dispatch.TransferGateIff(s.job, x, false, s.transfers[t], attemptId, actionId);
  }

  /** The transfer of the k-th step is under way. */
  ghost predicate Underway(hash: seq<byte> -> Digest, m: Mixed, k: nat, t: Uuid) {
    && MixedInv(hash, m) && Owner(m.sys.server, k, t) && m.sys.server.job.state.Running?
    && |m.sys.server.attempts| == k + 1 <= |m.sys.server.job.steps|
    && forall i :: k < i < |m.sys.server.job.steps| ==>
         m.sys.server.job.steps[i].state.StepPending? && m.sys.server.job.steps[i].intent.None?
  }

  lemma OwnTransfer(hash: seq<byte> -> Digest, m: Mixed, k: nat, t: Uuid)
    requires Underway(hash, m, k, t)
    ensures FindAttempt(m.sys.server.attempts, m.sys.server.attempts[k].actionId) == Some(k)
    ensures TransferOf(m.sys.server, k) == Some(t)
    ensures Stored(hash, m, t) && TransferLinked(hash, m, k, t)
    ensures m.sys.server.payloads[k] == TransferContent(m.sys.server.transfers[t])
  {
    AttemptByAction(m.sys.server.attempts, k);
    SameOwner(m.sys.server, k, t, k, TransferOf(m.sys.server, k).value);
  }

  function Acknowledged(m: Mixed, k: nat): Mixed
    requires k < |m.sys.server.attempts|
  {
    var s := m.sys.server;
    WithServer(m, s.(attempts := s.attempts[k := s.attempts[k].(state := InProgress)]))
  }

  lemma AckBelieved(m: Mixed, k: nat, t: Uuid)
    requires Owner(m.sys.server, k, t) && t in m.stores && k < |m.sys.server.job.steps|
    requires m.sys.server.attempts[k].state.Dispatched?
    ensures ReceiveTransfer(m, ActionAck(m.sys.server.attempts[k].actionId, true, ""), k, t) == Acknowledged(m, k)
  {
    assert m.sys.server.events + [] == m.sys.server.events;
  }

  function Succeeding(m: Mixed, k: nat): Mixed
    requires k < |m.sys.server.attempts| && k < |m.sys.server.job.steps|
  {
    var s := m.sys.server;
    WithServer(m, Commit(s, k, TerminalSuccess(s.job, s.job.steps[k], s.attempts[k])))
  }

  lemma VerifiedBelieved(m: Mixed, k: nat, t: Uuid)
    requires Owner(m.sys.server, k, t) && t in m.stores && k < |m.sys.server.job.steps|
    requires m.sys.server.attempts[k].state.InProgress? && m.stores[t].artifact.Verified?
    requires m.sys.server.transfers[t].artifactId == m.stores[t].manifest.artifactId
    ensures var x := ResultMessage(m.sys.server.attempts[k].actionId, TransferVerified);
            ReceiveTransfer(m, x, k, t) == Succeeding(m, k)
  {
    assert ParseCode(Code(TransferVerified)) == Some(TransferVerified);
  }

  lemma StepDone(s: Server, k: nat)
    requires ServerInv(s) && s.job.state.Running? && |s.attempts| == k + 1 && Active(s.attempts[k].state)
    ensures var after := Commit(s, k, TerminalSuccess(s.job, s.job.steps[k], s.attempts[k]));
            && |after.attempts| == k + 1 && Advanced(after.attempts)
            && after.job.steps == s.job.steps[k := s.job.steps[k].(state := StepSucceeded)]
            && after.job.state == if k + 1 == |s.job.steps| then Succeeded else Running
  {
    LastStepIff(s, k);
    StepByIdentity(s.job.steps, k, s.job.steps[k].(state := StepSucceeded));
  }

  /** The bytes and chunk size of the transfer under way. */
  ghost predicate Carries(m: Mixed, t: Uuid, bytes: seq<byte>, chunkSize: u32) {
    && t in m.sys.server.transfers && m.sys.server.transfers[t].chunkSize == chunkSize
    && t in m.sources && m.sources[t] == bytes
  }

  // Opening: the Transfer is created, the step made eligible and dispatched.

  lemma FreshTransfer(m: Mixed, k: nat, chunkSize: u32) returns (transfer: Dispatch.Transfer)
    requires k < |m.sys.server.job.steps|
    ensures Enabled(m.sys, CreateTransferStep(transfer)) && transfer.chunkSize == chunkSize
    ensures transfer.jobStepId == m.sys.server.job.steps[k].id
  {
    var s := m.sys.server;
    var t := Above(s.transfers.Keys);
    transfer := Dispatch.Transfer(t, s.job.endpointId, s.job.id, s.job.steps[k].id, 0, chunkSize, None);
    assert FindStep(s.job.steps, s.job.steps[k].id).Some?;
  }

  lemma CreatedReady(m: Mixed, k: nat, transfer: Dispatch.Transfer, bytes: seq<byte>)
    requires Ready(m.sys, k) && Enabled(m.sys, CreateTransferStep(transfer)) && 0 < transfer.chunkSize < 0x1_0000_0000
    requires transfer.jobStepId == m.sys.server.job.steps[k].id
    requires ServerInv(Created(m, transfer, bytes).sys.server)
    ensures var e := Created(m, transfer, bytes);
            Ready(e.sys, k) && Unbound(e.sys.server, k, transfer.id) && Carries(e, transfer.id, bytes, transfer.chunkSize)
  {
  }

  lemma CreateNext(hash: seq<byte> -> Digest, m: Mixed, k: nat, bytes: seq<byte>, chunkSize: u32)
    returns (e: Mixed, t: Uuid)
    requires MixedReady(hash, m, k) && chunkSize > 0
    ensures Reaches(hash, m, e) && MixedReady(hash, e, k) && e.sys.server.job == m.sys.server.job
    ensures Unbound(e.sys.server, k, t) && Carries(e, t, bytes, chunkSize)
  {
    var transfer := FreshTransfer(m, k, chunkSize);
    t := transfer.id;
    CreateMixed(hash, m, transfer, bytes);
    CreatedReady(m, k, transfer, bytes);
    ReachOne(hash, m, Create(transfer, bytes));
    e := Created(m, transfer, bytes);
  }

  function Eligible(m: Mixed, k: nat): Mixed
    requires k < |m.sys.server.job.steps|
  {
    var s := m.sys.server;
    var step := s.job.steps[k].(state := PreconditionsSatisfied);
    WithServer(m, s.(job := s.job.(steps := s.job.steps[k := step])))
  }

  lemma EligibleNext(hash: seq<byte> -> Digest, m: Mixed, k: nat)
    requires MixedReady(hash, m, k)
    ensures Reaches(hash, m, Eligible(m, k)) && MixedInv(hash, Eligible(m, k))
  {
    SatisfyNext(m.sys, k);
    OrdinaryNext(hash, m, SatisfyStep(m.sys.server.job.steps[k].id));
  }

  function Bound(m: Mixed, k: nat, t: Uuid, attemptId: Uuid, actionId: Uuid): Mixed
    requires k < |m.sys.server.job.steps| && t in m.sys.server.transfers
  {
    var server := Bind(m.sys.server, k, t, attemptId, actionId);
    m.(sys := m.sys.(server := server,
                     net := m.sys.net + {ActionDispatch(actionId, TransferContent(server.transfers[t]))}))
  }

  ghost predicate MayBind(s: Server, k: nat, t: Uuid) {
    && ServerReady(s, k) && Unbound(s, k, t)
    && s.job.steps[k].state.PreconditionsSatisfied? && s.job.steps[k].intent.None?
    && forall i :: k < i < |s.job.steps| ==> s.job.steps[i].state.StepPending? && s.job.steps[i].intent.None?
  }

  lemma BindIs(m: Mixed, k: nat, t: Uuid, attemptId: Uuid, actionId: Uuid)
    requires ServerInv(m.sys.server) && MayBind(m.sys.server, k, t)
    ensures var (server, sent) := DispatchTransfer(m.sys.server, m.sys.server.job.steps[k].id, t, attemptId, actionId);
            m.(sys := m.sys.(server := server, net := m.sys.net + sent)) == Bound(m, k, t, attemptId, actionId)
  {
    TransferGateOpens(m.sys.server, k, t, attemptId, actionId);
  }

  lemma BindKeeps(hash: seq<byte> -> Digest, m: Mixed, k: nat, t: Uuid, attemptId: Uuid, actionId: Uuid)
    requires MixedInv(hash, m) && MayBind(m.sys.server, k, t) && Fresh(m.sys, attemptId, actionId)
    ensures MixedInv(hash, Bound(m, k, t, attemptId, actionId))
  {
    BindIs(m, k, t, attemptId, actionId);
    TransferStepMixed(hash, m, m.sys.server.job.steps[k].id, t, attemptId, actionId);
  }

  lemma BindReaches(hash: seq<byte> -> Digest, m: Mixed, k: nat, t: Uuid, attemptId: Uuid, actionId: Uuid)
    requires ServerInv(m.sys.server) && MayBind(m.sys.server, k, t) && Fresh(m.sys, attemptId, actionId)
    ensures Reaches(hash, m, Bound(m, k, t, attemptId, actionId))
  {
    var step := TransferStep(m.sys.server.job.steps[k].id, t, attemptId, actionId);
    BindIs(m, k, t, attemptId, actionId);
    assert m.(sys := Next(m.sys, step)) == Bound(m, k, t, attemptId, actionId);
    ReachOne(hash, m, Plain(step));
  }

  lemma BoundUnderway(hash: seq<byte> -> Digest, m: Mixed, k: nat, t: Uuid, attemptId: Uuid, actionId: Uuid)
    requires MayBind(m.sys.server, k, t) && MixedInv(hash, Bound(m, k, t, attemptId, actionId))
    ensures var e := Bound(m, k, t, attemptId, actionId);
            && Underway(hash, e, k, t) && e.sys.server.attempts[k].state.Dispatched?
            && |e.sys.server.job.steps| == |m.sys.server.job.steps|
            && e.sys.server.transfers[t].chunkSize == m.sys.server.transfers[t].chunkSize && e.sources == m.sources
  {
  }

  lemma BindNext(hash: seq<byte> -> Digest, m: Mixed, k: nat, t: Uuid) returns (e: Mixed)
    requires MixedInv(hash, m) && MayBind(m.sys.server, k, t)
    ensures Reaches(hash, m, e) && Underway(hash, e, k, t) && e.sys.server.attempts[k].state.Dispatched?
    ensures |e.sys.server.job.steps| == |m.sys.server.job.steps|
    ensures e.sys.server.transfers[t].chunkSize == m.sys.server.transfers[t].chunkSize && e.sources == m.sources
  {
    var attemptId, actionId := FreshIds(m.sys);
    BindKeeps(hash, m, k, t, attemptId, actionId);
    BindReaches(hash, m, k, t, attemptId, actionId);
    BoundUnderway(hash, m, k, t, attemptId, actionId);
    e := Bound(m, k, t, attemptId, actionId);
  }

  lemma EligibleBinds(s: Server, k: nat, t: Uuid, m: Mixed)
    requires Ready(m.sys, k) && Unbound(m.sys.server, k, t) && s == Eligible(m, k).sys.server
    ensures MayBind(s, k, t)
  {
  }

  /** From a ready step to one that is eligible and has its Transfer. */
  lemma Offer(hash: seq<byte> -> Digest, m: Mixed, k: nat, bytes: seq<byte>, chunkSize: u32) returns (e: Mixed, t: Uuid)
    requires MixedReady(hash, m, k) && chunkSize > 0
    ensures Reaches(hash, m, e) && MixedInv(hash, e) && MayBind(e.sys.server, k, t)
    ensures |e.sys.server.job.steps| == |m.sys.server.job.steps| && Carries(e, t, bytes, chunkSize)
  {
    var m1;
    m1, t := CreateNext(hash, m, k, bytes, chunkSize);
    e := Eligible(m1, k);
    EligibleNext(hash, m1, k);
    EligibleBinds(e.sys.server, k, t, m1);
    ReachOn(hash, m, m1, e);
  }

  /** From there to its dispatched transfer of these bytes. */
  lemma Open(hash: seq<byte> -> Digest, m: Mixed, k: nat, bytes: seq<byte>, chunkSize: u32) returns (e: Mixed, t: Uuid)
    requires MixedReady(hash, m, k) && chunkSize > 0
    ensures Reaches(hash, m, e) && Underway(hash, e, k, t) && e.sys.server.attempts[k].state.Dispatched?
    ensures |e.sys.server.job.steps| == |m.sys.server.job.steps| && Carries(e, t, bytes, chunkSize)
  {
    var m1;
    m1, t := Offer(hash, m, k, bytes, chunkSize);
    e := BindNext(hash, m1, k, t);
    ReachOn(hash, m, m1, e);
  }

  // Running: the Agent accepts the action and its one run gets through.

  lemma AckSent(hash: seq<byte> -> Digest, m: Mixed, k: nat, t: Uuid)
    requires Underway(hash, m, k, t)
    ensures var a, payload := m.sys.server.attempts[k].actionId, m.sys.server.payloads[k];
            && MixedEnabled(m, Accept(a, payload))
            && var e := Accepting(m, a, payload);
            && ActionAck(a, true, "") in e.sys.net && a in e.accepted && e.accepted[a].accepted
  {
    OwnTransfer(hash, m, k, t);
    TransferContentAcceptable(m.sys.server.transfers[t]);
  }

  lemma AcceptNext(hash: seq<byte> -> Digest, m: Mixed, k: nat, t: Uuid)
    requires Underway(hash, m, k, t)
    ensures Underway(hash, Accepting(m, m.sys.server.attempts[k].actionId, m.sys.server.payloads[k]), k, t)
    ensures Reaches(hash, m, Accepting(m, m.sys.server.attempts[k].actionId, m.sys.server.payloads[k]))
  {
    AckSent(hash, m, k, t);
    OwnTransfer(hash, m, k, t);
    AcceptParts(hash, m, m.sys.server.attempts[k].actionId, m.sys.server.payloads[k]);
    ReachOne(hash, m, Accept(m.sys.server.attempts[k].actionId, m.sys.server.payloads[k]));
  }

  lemma AckLearned(hash: seq<byte> -> Digest, m: Mixed, k: nat, t: Uuid)
    requires Underway(hash, m, k, t) && m.sys.server.attempts[k].state.Dispatched?
    ensures MixedReceive(m, ActionAck(m.sys.server.attempts[k].actionId, true, "")) == Acknowledged(m, k)
  {
    OwnTransfer(hash, m, k, t);
    AckBelieved(m, k, t);
  }

  lemma ReachReceived(hash: seq<byte> -> Digest, m: Mixed, x: Message, e: Mixed)
    requires x in m.sys.net && MixedReceive(m, x) == e
    ensures Reaches(hash, m, e)
  {
    ReachOne(hash, m, Plain(ServerReceives(x)));
  }

  lemma StillUnderway(hash: seq<byte> -> Digest, m: Mixed, k: nat, t: Uuid)
    requires Underway(hash, m, k, t) && MixedInv(hash, Acknowledged(m, k))
    ensures Underway(hash, Acknowledged(m, k), k, t)
  {
  }

  lemma LearnAck(hash: seq<byte> -> Digest, m: Mixed, k: nat, t: Uuid)
    requires Underway(hash, m, k, t) && m.sys.server.attempts[k].state.Dispatched?
    requires ActionAck(m.sys.server.attempts[k].actionId, true, "") in m.sys.net
    ensures Reaches(hash, m, Acknowledged(m, k)) && Underway(hash, Acknowledged(m, k), k, t)
  {
    var x := ActionAck(m.sys.server.attempts[k].actionId, true, "");
    AckLearned(hash, m, k, t);
    ReachReceived(hash, m, x, Acknowledged(m, k));
    ReceiveMixed(hash, m, x);
    StillUnderway(hash, m, k, t);
  }

  lemma AcceptRun(hash: seq<byte> -> Digest, m: Mixed, k: nat, t: Uuid) returns (e: Mixed)
    requires Underway(hash, m, k, t) && m.sys.server.attempts[k].state.Dispatched?
    ensures Reaches(hash, m, e) && Underway(hash, e, k, t) && e.sys.server.attempts[k].state.InProgress?
    ensures e.sys.server.job == m.sys.server.job && e.sys.server.transfers == m.sys.server.transfers
    ensures e.sources == m.sources && e.stores == m.stores
    ensures var a := e.sys.server.attempts[k].actionId; a in e.accepted && e.accepted[a].accepted
  {
    var m1 := Accepting(m, m.sys.server.attempts[k].actionId, m.sys.server.payloads[k]);
    AckSent(hash, m, k, t);
    AcceptNext(hash, m, k, t);
    LearnAck(hash, m1, k, t);
    e := Acknowledged(m1, k);
    ReachOn(hash, m, m1, e);
  }

  const CLEAR_NETWORK: Network := q => CLEAR

  lemma ClearResult(hash: seq<byte> -> Digest, m: Mixed, k: nat, t: Uuid, bytes: seq<byte>, chunkSize: u32)
    requires Sized(m.sys.server) && Owner(m.sys.server, k, t) && Stored(hash, m, t) && Carries(m, t, bytes, chunkSize)
    requires m.sys.server.attempts[k].state.InProgress? && !TerminalArtifact(m.stores[t].artifact)
    requires bytes != [] && chunkSize > 0 && ChunkCount(|bytes|, chunkSize) < 0x1_0000_0000
    ensures T.RunResult(hash, RowsAt(m, k, t), RunOf(m, t, Options(None, None), CLEAR_NETWORK)) == Some(TransferVerified)
  {
    InMemoryIsFaithful(bytes, chunkSize);
    ClearRunVerifies(hash, InMemory(bytes), chunkSize, CLEAR_NETWORK, m.stores[t]);
  }

  /** The state after the run that gets through. */
  ghost function Uploaded(hash: seq<byte> -> Digest, m: Mixed, k: nat, t: Uuid): Mixed
    requires MayRun(m, k, t, Options(None, None), CLEAR_NETWORK)
  {
    MixedNext(hash, m, Perform(k, t, Options(None, None), CLEAR_NETWORK))
  }

  lemma UploadedIs(hash: seq<byte> -> Digest, m: Mixed, k: nat, t: Uuid)
    requires MayRun(m, k, t, Options(None, None), CLEAR_NETWORK)
    requires T.RunResult(hash, RowsAt(m, k, t), RunOf(m, t, Options(None, None), CLEAR_NETWORK)) == Some(TransferVerified)
    ensures var e, a := Uploaded(hash, m, k, t), m.sys.server.attempts[k].actionId;
            && e.sys.server == m.sys.server && e.sources == m.sources
            && ResultMessage(a, TransferVerified) in e.sys.net
            && t in e.stores && e.stores[t].artifact.Verified?
    ensures Reaches(hash, m, Uploaded(hash, m, k, t))
  {
    ReportsVerified(hash, RowsAt(m, k, t), RunOf(m, t, Options(None, None), CLEAR_NETWORK));
    ReachOne(hash, m, Perform(k, t, Options(None, None), CLEAR_NETWORK));
  }

  lemma UploadedKeeps(hash: seq<byte> -> Digest, m: Mixed, k: nat, t: Uuid)
    requires MixedInv(hash, m) && MayRun(m, k, t, Options(None, None), CLEAR_NETWORK)
    ensures MixedInv(hash, Uploaded(hash, m, k, t))
  {
    MixedNextKeeps(hash, m, Perform(k, t, Options(None, None), CLEAR_NETWORK));
  }

  lemma ResultLearned(hash: seq<byte> -> Digest, m: Mixed, k: nat, t: Uuid)
    requires Underway(hash, m, k, t) && m.sys.server.attempts[k].state.InProgress? && t in m.stores
    requires m.stores[t].artifact.Verified?
    ensures MixedReceive(m, ResultMessage(m.sys.server.attempts[k].actionId, TransferVerified)) == Succeeding(m, k)
  {
    OwnTransfer(hash, m, k, t);
    VerifiedBelieved(m, k, t);
  }

  lemma SucceedingReady(hash: seq<byte> -> Digest, m: Mixed, k: nat)
    requires var s := m.sys.server;
             && |s.attempts| == k + 1 <= |s.job.steps|
             && forall i :: k < i < |s.job.steps| ==> s.job.steps[i].state.StepPending? && s.job.steps[i].intent.None?
    requires var s, after := m.sys.server, Succeeding(m, k).sys.server;
             && |after.attempts| == k + 1 && Advanced(after.attempts)
             && after.job.steps == s.job.steps[k := s.job.steps[k].(state := StepSucceeded)]
             && after.job.state == if k + 1 == |s.job.steps| then Succeeded else Running
    requires MixedInv(hash, Succeeding(m, k))
    ensures Onward(hash, m, k, Succeeding(m, k))
  {
  }

  lemma LearnResult(hash: seq<byte> -> Digest, m: Mixed, k: nat, t: Uuid)
    requires Underway(hash, m, k, t) && m.sys.server.attempts[k].state.InProgress? && t in m.stores
    requires m.stores[t].artifact.Verified?
    requires ResultMessage(m.sys.server.attempts[k].actionId, TransferVerified) in m.sys.net
    ensures Reaches(hash, m, Succeeding(m, k)) && Onward(hash, m, k, Succeeding(m, k))
  {
    var x := ResultMessage(m.sys.server.attempts[k].actionId, TransferVerified);
    ResultLearned(hash, m, k, t);
    ReachReceived(hash, m, x, Succeeding(m, k));
    ReceiveMixed(hash, m, x);
    StepDone(m.sys.server, k);
    SucceedingReady(hash, m, k);
  }

  lemma Upload(hash: seq<byte> -> Digest, m: Mixed, k: nat, t: Uuid, bytes: seq<byte>, chunkSize: u32) returns (e: Mixed)
    requires Underway(hash, m, k, t) && m.sys.server.attempts[k].state.InProgress? && Carries(m, t, bytes, chunkSize)
    requires var a := m.sys.server.attempts[k].actionId; a in m.accepted && m.accepted[a].accepted
    requires bytes != [] && chunkSize > 0 && ChunkCount(|bytes|, chunkSize) < 0x1_0000_0000
    requires t in m.stores && !TerminalArtifact(m.stores[t].artifact)
    ensures Reaches(hash, m, e) && Underway(hash, e, k, t) && e.sys.server == m.sys.server && e.sources == m.sources
    ensures ResultMessage(m.sys.server.attempts[k].actionId, TransferVerified) in e.sys.net
    ensures t in e.stores && e.stores[t].artifact.Verified?
  {
    OwnTransfer(hash, m, k, t);
    ClearResult(hash, m, k, t, bytes, chunkSize);
    UploadedIs(hash, m, k, t);
    UploadedKeeps(hash, m, k, t);
    e := Uploaded(hash, m, k, t);
  }

  lemma StillOpen(hash: seq<byte> -> Digest, m: Mixed, k: nat, t: Uuid)
    requires Underway(hash, m, k, t) && m.sys.server.attempts[k].state.Dispatched?
    ensures t in m.stores && m.stores[t].artifact.Incomplete?
  {
    OwnTransfer(hash, m, k, t);
  }

  lemma Deliver(hash: seq<byte> -> Digest, m: Mixed, k: nat, t: Uuid, bytes: seq<byte>, chunkSize: u32)
    returns (e: Mixed)
    requires Underway(hash, m, k, t) && m.sys.server.attempts[k].state.Dispatched? && Carries(m, t, bytes, chunkSize)
    requires bytes != [] && chunkSize > 0 && ChunkCount(|bytes|, chunkSize) < 0x1_0000_0000
    ensures Reaches(hash, m, e) && Onward(hash, m, k, e)
    ensures Owner(e.sys.server, k, t) && Carries(e, t, bytes, chunkSize)
  {
    StillOpen(hash, m, k, t);
    var m1 := AcceptRun(hash, m, k, t);
    var m2 := Upload(hash, m1, k, t, bytes, chunkSize);
    LearnResult(hash, m2, k, t);
    e := Succeeding(m2, k);
    ReachOn(hash, m, m1, m2);
    ReachOn(hash, m, m2, e);
  }

  lemma TransferRound(hash: seq<byte> -> Digest, m: Mixed, k: nat, bytes: seq<byte>, chunkSize: u32)
    returns (e: Mixed, t: Uuid)
    requires MixedReady(hash, m, k)
    requires bytes != [] && chunkSize > 0 && ChunkCount(|bytes|, chunkSize) < 0x1_0000_0000
    ensures Reaches(hash, m, e) && Onward(hash, m, k, e)
    ensures Owner(e.sys.server, k, t) && Carries(e, t, bytes, chunkSize)
  {
    var m1;
    m1, t := Open(hash, m, k, bytes, chunkSize);
    e := Deliver(hash, m1, k, t, bytes, chunkSize);
    ReachOn(hash, m, m1, e);
  }

  // ---------------------------------------------------------------------
  // Whole workflows
  // ---------------------------------------------------------------------

  datatype Work = Destroy | Move(bytes: seq<byte>, chunkSize: u32)

  predicate Feasible(w: Work) {
    w.Move? ==> w.bytes != [] && w.chunkSize > 0 && ChunkCount(|w.bytes|, w.chunkSize) < 0x1_0000_0000
  }

  /** The i-th step did this work. */
  ghost predicate Did(m: Mixed, i: nat, w: Work)
    requires i < |m.sys.server.payloads|
  {
    match w
    case Destroy => m.sys.server.payloads[i] == SIMULATED_CONTENT
    case Move(bytes, chunkSize) => exists t :: Owner(m.sys.server, i, t) && Carries(m, t, bytes, chunkSize)
  }

  lemma ReachKeeps(hash: seq<byte> -> Digest, m: Mixed, e: Mixed)
    requires MixedInv(hash, m) && Reaches(hash, m, e)
    ensures MixedInv(hash, e) && Grows(m.sys.server, e.sys.server)
  {
    var run :| ValidMixedRun(hash, m, run) && MixedExec(hash, m, run) == e;
    MixedRunKeeps(hash, m, run);
  }

  lemma ReachSource(hash: seq<byte> -> Digest, m: Mixed, e: Mixed, t: Uuid)
    requires MixedInv(hash, m) && Reaches(hash, m, e) && t in m.sys.server.transfers && t in m.sources
    ensures t in e.sources && e.sources[t] == m.sources[t]
  {
    var run :| ValidMixedRun(hash, m, run) && MixedExec(hash, m, run) == e;
    SourcesStay(hash, m, run, t);
  }

  lemma DidStays(hash: seq<byte> -> Digest, m: Mixed, e: Mixed, i: nat, w: Work)
    requires MixedInv(hash, m) && Reaches(hash, m, e) && Grows(m.sys.server, e.sys.server)
    requires i < |m.sys.server.payloads| && Did(m, i, w)
    ensures i < |e.sys.server.payloads| && Did(e, i, w)
  {
    if w.Move? {
      var t :| Owner(m.sys.server, i, t) && Carries(m, t, w.bytes, w.chunkSize);
      ReachSource(hash, m, e, t);
      OwnerStays(m.sys.server, e.sys.server, i, t);
      assert Owner(e.sys.server, i, t) && Carries(e, t, w.bytes, w.chunkSize);
    }
  }

  lemma OwnerStays(s: Server, s': Server, i: nat, t: Uuid)
    requires Grows(s, s') && Owner(s, i, t)
    ensures Owner(s', i, t) && s'.transfers[t] == s.transfers[t]
  {
    assert SameAttempt(s.attempts[i], s'.attempts[i]);
  }

  /** The first k steps did the work planned for them. */
  ghost predicate Done(m: Mixed, plan: seq<Work>, k: nat) {
    k <= |plan| && k <= |m.sys.server.payloads| && forall i :: 0 <= i < k ==> Did(m, i, plan[i])
  }

  lemma MixedRound(hash: seq<byte> -> Digest, m: Mixed, k: nat, w: Work) returns (e: Mixed)
    requires MixedReady(hash, m, k) && Feasible(w)
    ensures Reaches(hash, m, e) && Onward(hash, m, k, e)
    ensures k < |e.sys.server.payloads| && Did(e, k, w) && Grows(m.sys.server, e.sys.server)
  {
    match w {
      case Destroy => e := DestructiveRound(hash, m, k);
      case Move(bytes, chunkSize) =>
        var t;
        e, t := TransferRound(hash, m, k, bytes, chunkSize);
    }
    ReachKeeps(hash, m, e);
  }

  lemma DoneStays(hash: seq<byte> -> Digest, m: Mixed, e: Mixed, plan: seq<Work>, k: nat)
    requires MixedInv(hash, m) && Reaches(hash, m, e) && Grows(m.sys.server, e.sys.server) && Done(m, plan, k)
    requires k < |plan| && k < |e.sys.server.payloads| && Did(e, k, plan[k])
    ensures Done(e, plan, k + 1)
  {
    forall i | 0 <= i < k ensures Did(e, i, plan[i]) {
      DidStays(hash, m, e, i, plan[i]);
    }
  }

  lemma {:induction false} MixedRounds(hash: seq<byte> -> Digest, m: Mixed, k: nat, plan: seq<Work>) returns (e: Mixed)
    requires MixedReady(hash, m, k) && |plan| == |m.sys.server.job.steps| && Done(m, plan, k)
    requires forall w :: w in plan ==> Feasible(w)
    ensures Reaches(hash, m, e) && e.sys.server.job.state.Succeeded? && Done(e, plan, |plan|)
    decreases |plan| - k
  {
    e := MixedRound(hash, m, k, plan[k]);
    DoneStays(hash, m, e, plan, k);
    if k + 1 < |plan| {
      var next := e;
      e := MixedRounds(hash, next, k + 1, plan);
      ReachOn(hash, m, next, e);
    }
  }

  lemma MixedAdmitted(hash: seq<byte> -> Digest, m: Mixed)
    requires MixedInitial(m)
    ensures var e := m.(sys := Next(m.sys, AdmitStep));
            Reaches(hash, m, e) && MixedReady(hash, e, 0) && |e.sys.server.job.steps| == |m.sys.server.job.steps|
  {
    MixedInitialHolds(hash, m);
    Admitted(m.sys);
    OrdinaryNext(hash, m, AdmitStep);
  }

  /** Whichever steps are to destroy and whichever to move bytes, there is a run in which each
      does its work and the Job succeeds. */
  lemma EveryMixCanSucceed(hash: seq<byte> -> Digest, m: Mixed, plan: seq<Work>)
    requires MixedInitial(m) && |plan| == |m.sys.server.job.steps|
    requires forall w :: w in plan ==> Feasible(w)
    ensures exists e :: Reaches(hash, m, e) && e.sys.server.job.state.Succeeded? && Done(e, plan, |plan|)
  {
    MixedAdmitted(hash, m);
    var next := m.(sys := Next(m.sys, AdmitStep));
    var e := MixedRounds(hash, next, 0, plan);
    ReachOn(hash, m, next, e);
  }
}
