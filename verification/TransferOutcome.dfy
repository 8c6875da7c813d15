/** A transfer Attempt and its Artifact together: how the Server ends the one by evidence
    about the other, and what both may be in any run, whatever the Agent sends. */
module TransferOutcome {
  import opened Workflow
  import opened Evidence
  import opened Bytes
  import opened ActionAgent
  import opened ChunkManifest
  import opened DataPlane
  import opened TransferSource
  import opened Delivery
  import opened TransferAgent
  import opened TransferTheorems
  import Dispatch
  import Protocol

  /** The rows locked by every decision about a transfer Attempt. */
  datatype Rows = Rows(job: Job, step: JobStep, attempt: Attempt, transfer: Dispatch.Transfer, store: Store)

  /** The Agent's messages about the action. A result names its code and its Artifact. */
  datatype Report =
    | AckReport(accepted: bool)
    | ResultReport(outcome: ResultOutcome, code: TransferResult, artifactId: Uuid)
    | CancelReport(answer: CancelAckEvidence)
    | StateReport(known: StatusEvidence)

  datatype Decision = Persist(applied: Applied, failArtifact: bool) | Ignored | FailClosed

  // ---------------------------------------------------------------------
  // Decisions
  // ---------------------------------------------------------------------

  predicate Bound(r: Rows) {
    r.transfer.attemptId == Some(r.attempt.id) && r.transfer.artifactId == r.store.manifest.artifactId
  }

  predicate OutcomeMatches(outcome: ResultOutcome, code: TransferResult) {
    if code.TransferVerified? then outcome.OutcomeSucceeded? else outcome.OutcomeFailed?
  }

  function Generic(outcome: Outcome): Decision {
    match outcome
    case Apply(applied) => Persist(applied, false)
    case _ => Ignored
  }

  /** The result's code must agree with the Artifact; an unfinished one is given up with it. */
  function DecideResult(r: Rows, code: TransferResult, artifactId: Uuid): Decision {
    if artifactId != r.store.manifest.artifactId || !Bound(r) then FailClosed
    else
      match ApplyActionEvidence(r.job, r.step, r.attempt,
                                if code.TransferVerified? then ResultSucceeded else ResultFailed)
      case NoOp | Conflict => Ignored
      case Apply(applied) =>
        match code
        case TransferVerified => if r.store.artifact.Verified? then Persist(applied, false) else FailClosed
        case ArtifactVerificationFailed =>
          if r.store.artifact.ArtifactFailed? then Persist(applied, false) else FailClosed
        case ChunkVerificationFailed | TransferAbandoned =>
          if r.store.artifact.Incomplete? then Persist(applied, true) else FailClosed
  }

  /** The workflow decision is the generic one; an unfinished Artifact is given up with an
      Attempt that ends this way. */
  function WithArtifact(r: Rows, outcome: Outcome, ending: AttemptState): Decision {
    if !Bound(r) then Ignored
    else
      match outcome
      case NoOp | Conflict => Ignored
      case Apply(applied) =>
        Persist(applied, applied.terminal && applied.attempt.state == ending && r.store.artifact.Incomplete?)
  }

  function DecideReport(r: Rows, report: Report): Decision {
    match report
    case AckReport(accepted) =>
      Generic(ApplyActionEvidence(r.job, r.step, r.attempt, if accepted then AckAccepted else AckRejected))
    case ResultReport(outcome, code, artifactId) =>
      if OutcomeMatches(outcome, code) then DecideResult(r, code, artifactId) else Ignored
    case CancelReport(answer) => WithArtifact(r, ApplyCancelAck(r.job, r.step, r.attempt, answer), AttemptCancelled)
    case StateReport(StatusCancelled) =>
      WithArtifact(r, ApplyStatusReport(r.job, r.step, r.attempt, StatusCancelled), AttemptCancelled)
    case StateReport(StatusFailed) =>
      WithArtifact(r, ApplyStatusReport(r.job, r.step, r.attempt, StatusFailed), AttemptFailed)
    case StateReport(known) => Generic(ApplyStatusReport(r.job, r.step, r.attempt, known))
  }

  function PersistRows(r: Rows, applied: Applied, failArtifact: bool): Rows {
    r.(job := applied.job, step := applied.step, attempt := applied.attempt,
       store := if failArtifact then Abandon(r.store) else r.store)
  }

  function Receive(r: Rows, report: Report): Rows {
    match DecideReport(r, report)
    case Persist(applied, failArtifact) => PersistRows(r, applied, failArtifact)
    case _ => r
  }

  function Close(r: Rows): Rows {
    match CloseIndeterminate(r.job, r.step, r.attempt)
    case Closed(applied) => PersistRows(r, applied, false)
    case _ => r
  }

  // ---------------------------------------------------------------------
  // Steps
  // ---------------------------------------------------------------------

  /** One transaction each, but for a whole run of the transfer Agent. Other transactions may
      change the Job at any time. */
  datatype Step =
    | ReportStep(report: Report)
    | LostStep
    | CloseStep
    | JobChanges(job: Job)
    | PutStep(fate: Fate, index: nat, declared: Digest, body: seq<byte>)
    | SealStep(fate: Fate, chunkCount: nat, digest: Digest)
    | VerifyStep
    | RunStep(source: Source, chunkSize: u32, options: Options, net: Network)

  /** Only evidence gives an Artifact up, so no request of a run finds it given up on the way. */
  ghost predicate Enabled(step: Step) {
    step.RunStep? ==> step.chunkSize > 0 && forall q :: !step.net(q).abandoned
  }

  /** What the data plane makes of a step: requests are authorized while the Attempt is
      InProgress, the commit of a verification result is not asked. */
  ghost function DataPlaneStep(hash: seq<byte> -> Digest, s: Store, step: Step): Store
    requires Enabled(step)
  {
    match step
    case PutStep(fate, index, declared, body) => PutOver(hash, s, Event(false, fate), index, declared, body).0
    case SealStep(fate, chunkCount, digest) => SealOver(hash, s, Event(false, fate), chunkCount, digest).0
    case RunStep(source, chunkSize, options, net) => RunTrace(hash, source, chunkSize, options, net, s).after
    case _ => s
  }

  ghost function Next(hash: seq<byte> -> Digest, r: Rows, step: Step): Rows
    requires Enabled(step)
  {
    match step
    case ReportStep(report) => Receive(r, report)
    case LostStep =>
      (match MarkAwaitingReconciliation(r.attempt)
       case Some(attempt) => r.(attempt := attempt)
       case None => r)
    case CloseStep => Close(r)
    case JobChanges(job) => r.(job := job)
    case VerifyStep => r.(store := CompleteSeal(hash, r.store).0)
    case _ => if r.attempt.state.InProgress? then r.(store := DataPlaneStep(hash, r.store, step)) else r
  }

  ghost predicate ValidRun(run: seq<Step>) {
    forall step :: step in run ==> Enabled(step)
  }

  ghost function Exec(hash: seq<byte> -> Digest, r: Rows, run: seq<Step>): Rows
    requires ValidRun(run)
    decreases |run|
  {
    if run == [] then r else Exec(hash, Next(hash, r, run[0]), run[1..])
  }

  /** A transfer as dispatched. */
  ghost predicate Fresh(r: Rows) {
    && Bound(r) && r.attempt.state.Dispatched? && r.job.state.Running?
    && r.store == NewStore(r.transfer.artifactId, r.store.manifest.chunkSize)
  }

  // ---------------------------------------------------------------------
  // What every step keeps
  // ---------------------------------------------------------------------

  /** Nothing is sealed before the action was accepted, and an Attempt that failed or was
      cancelled leaves no Artifact waiting for chunks. */
  ghost predicate Inv(hash: seq<byte> -> Digest, r: Rows) {
    && Bound(r) && Consistent(hash, r.store)
    && (r.attempt.state.Dispatched? ==> r.store.artifact.Incomplete?)
    && (r.attempt.state.AttemptFailed? || r.attempt.state.AttemptCancelled? ==> !r.store.artifact.Incomplete?)
  }

  /** Ended Attempts and everything the store holds stay. */
  ghost predicate Follows(r: Rows, r': Rows) {
    && r'.transfer == r.transfer && r'.attempt.id == r.attempt.id
    && (!Active(r.attempt.state) ==> r'.attempt == r.attempt)
    && (r'.attempt.state.Dispatched? ==> r.attempt.state.Dispatched?)
    && Extends(r.store, r'.store)
  }

  lemma ReceiveKeeps(hash: seq<byte> -> Digest, r: Rows, report: Report)
    requires Inv(hash, r)
    ensures Inv(hash, Receive(r, report)) && Follows(r, Receive(r, report))
  {
    AbandonKeeps(hash, r.store);
  }

  lemma CompleteKeeps(hash: seq<byte> -> Digest, s: Store)
    requires Consistent(hash, s)
    ensures var after := CompleteSeal(hash, s).0;
            && Extends(s, after) && Consistent(hash, after)
            && (after.artifact.Incomplete? <==> s.artifact.Incomplete?)
  {
  }

  lemma DataPlaneKeeps(hash: seq<byte> -> Digest, s: Store, step: Step)
    requires Enabled(step)
    ensures var after := DataPlaneStep(hash, s, step);
            Extends(s, after) && (Consistent(hash, s) ==> Consistent(hash, after))
  {
    match step {
      case PutStep(fate, index, declared, body) =>
        PutOverExtends(hash, s, Event(false, fate), index, declared, body);
      case SealStep(fate, chunkCount, digest) =>
        SealOverExtends(hash, s, Event(false, fate), chunkCount, digest);
      case RunStep(source, chunkSize, options, net) =>
        RunNeverRewrites(hash, source, chunkSize, options, net, s);
      case _ =>
    }
  }

  lemma NextKeeps(hash: seq<byte> -> Digest, r: Rows, step: Step)
    requires Inv(hash, r) && Enabled(step)
    ensures Inv(hash, Next(hash, r, step)) && Follows(r, Next(hash, r, step))
  {
    match step {
      case ReportStep(report) => ReceiveKeeps(hash, r, report);
      case VerifyStep => CompleteKeeps(hash, r.store);
      case _ => DataPlaneKeeps(hash, r.store, step);
    }
  }

  lemma {:induction false} RunKeeps(hash: seq<byte> -> Digest, r: Rows, run: seq<Step>)
    requires Inv(hash, r) && ValidRun(run)
    ensures Inv(hash, Exec(hash, r, run)) && Follows(r, Exec(hash, r, run))
    decreases |run|
  {
    if run != [] {
      var next := Next(hash, r, run[0]);
      NextKeeps(hash, r, run[0]);
      RunKeeps(hash, next, run[1..]);
      ExtendsTransitive(r.store, next.store, Exec(hash, r, run).store);
    }
  }

  lemma FreshHolds(hash: seq<byte> -> Digest, r: Rows)
    requires Fresh(r)
    ensures Inv(hash, r)
  {
  }

  // ---------------------------------------------------------------------
  // The decisions against the generic ones
  // ---------------------------------------------------------------------

  function AsMessage(r: Rows, report: Report): Message {
    match report
    case AckReport(accepted) => ActionAck(r.attempt.actionId, accepted, "")
    case ResultReport(outcome, _, _) => ActionResult(r.attempt.actionId, outcome, "")
    case CancelReport(answer) => CancelAck(r.attempt.actionId, answer)
    case StateReport(known) => StatusReport(r.attempt.actionId, known)
  }

  /** The state an Artifact must be in for a result with this code. */
  function RequiredState(code: TransferResult): ArtifactState {
    match code
    case TransferVerified => Verified
    case ArtifactVerificationFailed => ArtifactFailed
    case ChunkVerificationFailed | TransferAbandoned => Incomplete
  }

  predicate Corroborated(r: Rows, report: Report) {
    report.ResultReport? ==>
      && OutcomeMatches(report.outcome, report.code)
      && report.artifactId == r.store.manifest.artifactId
      && r.store.artifact == RequiredState(report.code)
  }

  /** A report does to the workflow exactly what it would do about any other action, except
      that a result the Artifact does not bear out does nothing. The Artifact is only ever
      given up, and exactly when an unfinished one's Attempt fails or is cancelled. */
  lemma ReportIff(r: Rows, report: Report)
    requires Bound(r)
    ensures var generic := Protocol.Decide(AsMessage(r, report), r.job, r.step, r.attempt);
            var after := Receive(r, report);
            && (DecideReport(r, report).Persist? <==> generic.Apply? && Corroborated(r, report))
            && (DecideReport(r, report).Persist? ==> DecideReport(r, report).applied == generic.applied)
            && (DecideReport(r, report).Persist? ==>
                  after.(store := r.store) ==
                  r.(job := generic.applied.job, step := generic.applied.step, attempt := generic.applied.attempt))
            && (!DecideReport(r, report).Persist? ==> after == r)
            && (Active(r.attempt.state) ==>
                  after.store ==
                  if after.attempt.state.AttemptFailed? || after.attempt.state.AttemptCancelled?
                  then Abandon(r.store) else r.store)
  {
  }

  // ---------------------------------------------------------------------
  // Success and verification
  // ---------------------------------------------------------------------

  ghost predicate Confirmed(r: Rows) {
    r.attempt.state.AttemptSucceeded? ==> r.store.artifact.Verified?
  }

  /** Status reports of a success are believed without a look at the Artifact. */
  predicate Hasty(r: Rows, step: Step) {
    && step == ReportStep(StateReport(StatusSucceeded))
    && r.attempt.state.AwaitingReconciliation? && !r.store.artifact.Verified?
  }

  ghost predicate AlwaysConfirmed(hash: seq<byte> -> Digest, r: Rows, run: seq<Step>)
    requires ValidRun(run)
    decreases |run|
  {
    Confirmed(r) && (run != [] ==> AlwaysConfirmed(hash, Next(hash, r, run[0]), run[1..]))
  }

  ghost predicate NeverHasty(hash: seq<byte> -> Digest, r: Rows, run: seq<Step>)
    requires ValidRun(run)
    decreases |run|
  {
    run != [] ==> !Hasty(r, run[0]) && NeverHasty(hash, Next(hash, r, run[0]), run[1..])
  }

  lemma ConfirmedStep(hash: seq<byte> -> Digest, r: Rows, step: Step)
    requires Inv(hash, r) && Confirmed(r) && Enabled(step)
    ensures Confirmed(Next(hash, r, step)) <==> !Hasty(r, step)
  {
    NextKeeps(hash, r, step);
    if step.ReportStep? {
      ReportIff(r, step.report);
    }
  }

  /** Through a whole run the Attempt is Succeeded only with a Verified Artifact exactly when
      no success is reported by status while verification is still out. */
  lemma {:induction false} SuccessIsVerifiedIff(hash: seq<byte> -> Digest, r: Rows, run: seq<Step>)
    requires Inv(hash, r) && Confirmed(r) && ValidRun(run)
    ensures AlwaysConfirmed(hash, r, run) <==> NeverHasty(hash, r, run)
    ensures NeverHasty(hash, r, run) ==> Confirmed(Exec(hash, r, run))
    decreases |run|
  {
    if run != [] {
      ConfirmedStep(hash, r, run[0]);
      NextKeeps(hash, r, run[0]);
      if Confirmed(Next(hash, r, run[0])) {
        SuccessIsVerifiedIff(hash, Next(hash, r, run[0]), run[1..]);
      }
    }
  }

  /** The input that breaks it, from any dispatched transfer: connection lost, then a status
      report. The Attempt is Succeeded and not one byte was stored. */
  lemma StatusOvertakesVerification(hash: seq<byte> -> Digest, r: Rows)
    requires Fresh(r)
    ensures var e := Exec(hash, r, [LostStep, ReportStep(StateReport(StatusSucceeded))]);
            e.attempt.state.AttemptSucceeded? && e.store.artifact.Incomplete? && e.store.stored == map[]
  {
    TwoSteps(hash, r, LostStep, ReportStep(StateReport(StatusSucceeded)));
  }

  lemma TwoSteps(hash: seq<byte> -> Digest, r: Rows, first: Step, second: Step)
    requires Enabled(first) && Enabled(second)
    ensures Exec(hash, r, [first, second]) == Next(hash, Next(hash, r, first), second)
  {
    assert [first, second][1..] == [second] && [second][1..] == [];
    assert Exec(hash, Next(hash, r, first), [second]) == Exec(hash, Next(hash, Next(hash, r, first), second), []);
  }

  // ---------------------------------------------------------------------
  // Artifacts left unfinished
  // ---------------------------------------------------------------------

  /** An Attempt that fails or is cancelled never leaves its Artifact Incomplete. */
  lemma FailureSettlesArtifact(hash: seq<byte> -> Digest, r: Rows, run: seq<Step>)
    requires Fresh(r) && ValidRun(run)
    ensures var e := Exec(hash, r, run);
            e.attempt.state.AttemptFailed? || e.attempt.state.AttemptCancelled? ==> !e.store.artifact.Incomplete?
  {
    FreshHolds(hash, r);
    RunKeeps(hash, r, run);
  }

  /** The other endings do: a step that ends an Attempt leaves an Incomplete Artifact as it
      is exactly when it rejects, closes or believes a status report of success. */
  lemma EndsUnfinishedIff(hash: seq<byte> -> Digest, r: Rows, step: Step)
    requires Inv(hash, r) && Enabled(step)
    requires Active(r.attempt.state) && !Active(Next(hash, r, step).attempt.state)
    ensures Next(hash, r, step).store.artifact.Incomplete? <==>
            && r.store.artifact.Incomplete?
            && (step in {ReportStep(AckReport(false)), CloseStep, ReportStep(StateReport(StatusSucceeded))})
  {
    if step.ReportStep? {
      ReportIff(r, step.report);
    }
  }

  /** Such an Artifact stays Incomplete for good: the Attempt has ended, and with it every
      authorization to continue. */
  lemma {:induction false} UnfinishedForever(hash: seq<byte> -> Digest, r: Rows, run: seq<Step>)
    requires Inv(hash, r) && ValidRun(run) && !Active(r.attempt.state) && r.store.artifact.Incomplete?
    ensures Exec(hash, r, run).attempt == r.attempt && Exec(hash, r, run).store == r.store
    decreases |run|
  {
    if run != [] {
      UnfinishedStep(hash, r, run[0]);
      NextKeeps(hash, r, run[0]);
      UnfinishedForever(hash, Next(hash, r, run[0]), run[1..]);
    }
  }

  lemma UnfinishedStep(hash: seq<byte> -> Digest, r: Rows, step: Step)
    requires Inv(hash, r) && Enabled(step) && !Active(r.attempt.state) && r.store.artifact.Incomplete?
    ensures Next(hash, r, step).attempt == r.attempt && Next(hash, r, step).store == r.store
  {
  }

  // ---------------------------------------------------------------------
  // The bytes
  // ---------------------------------------------------------------------

  /** The data plane is used by uncorrupted runs over one source only. */
  ghost predicate FromSource(source: Source, chunkSize: u32, run: seq<Step>) {
    forall step :: step in run ==>
      && !step.PutStep? && !step.SealStep?
      && (step.RunStep? ==>
            step.source == source && step.chunkSize == chunkSize && step.options.corruptChunk.None?)
  }

  lemma FaithfulStep(hash: seq<byte> -> Digest, source: Source, chunkSize: u32, r: Rows, step: Step)
    requires chunkSize > 0 && source.len > 0 && WellSized(source, chunkSize)
    requires Faithful(hash, source, chunkSize, true, r.store) && Enabled(step) && FromSource(source, chunkSize, [step])
    ensures Faithful(hash, source, chunkSize, true, Next(hash, r, step).store)
  {
    assert step in [step];
    match step {
      case ReportStep(_) => ArrivalFaithful(hash, source, chunkSize, true, r.store, Event(true, Delivered));
      case VerifyStep =>
        if r.store.artifact.PendingVerification? {
          CompleteFaithful(hash, source, chunkSize, true, r.store);
        }
      case RunStep(_, _, options, net) => RunsAgree(hash, source, chunkSize, options, net, true, r.store);
      case _ =>
    }
  }

  lemma {:induction false} FaithfulRun(
    hash: seq<byte> -> Digest, source: Source, chunkSize: u32, r: Rows, run: seq<Step>)
    requires chunkSize > 0 && source.len > 0 && WellSized(source, chunkSize)
    requires Faithful(hash, source, chunkSize, true, r.store)
    requires ValidRun(run) && FromSource(source, chunkSize, run)
    ensures Faithful(hash, source, chunkSize, true, Exec(hash, r, run).store)
    decreases |run|
  {
    if run != [] {
      FaithfulStep(hash, source, chunkSize, r, run[0]);
      FaithfulRun(hash, source, chunkSize, Next(hash, r, run[0]), run[1..]);
    }
  }

  /** End to end: a transfer Attempt that succeeds, other than by a hasty status report, has
      delivered the bytes of its source. */
  lemma SuccessDelivers(hash: seq<byte> -> Digest, bytes: seq<byte>, chunkSize: u32, r: Rows, run: seq<Step>)
    requires chunkSize > 0 && bytes != [] && Fresh(r) && r.store.manifest.chunkSize == chunkSize
    requires ValidRun(run) && FromSource(InMemory(bytes), chunkSize, run) && NeverHasty(hash, r, run)
    requires Exec(hash, r, run).attempt.state.AttemptSucceeded?
    ensures var e := Exec(hash, r, run);
            e.store.artifact.Verified? && Concatenation(e.store.stored, ChunkCount(|bytes|, chunkSize)) == bytes
  {
    InMemoryIsFaithful(bytes, chunkSize);
    FreshHolds(hash, r);
    SuccessIsVerifiedIff(hash, r, run);
    FaithfulRun(hash, InMemory(bytes), chunkSize, r, run);
    VerifiedStore(hash, InMemory(bytes), chunkSize, Exec(hash, r, run).store);
  }

  function Accepted(r: Rows): Rows {
    r.(attempt := r.attempt.(state := InProgress))
  }

  lemma ClearRunStep(hash: seq<byte> -> Digest, bytes: seq<byte>, chunkSize: u32, net: Network, s: Store)
    requires chunkSize > 0 && bytes != [] && ChunkCount(|bytes|, chunkSize) < 0x1_0000_0000 && Clear(net)
    requires Faithful(hash, InMemory(bytes), chunkSize, true, s) && !TerminalArtifact(s.artifact)
    ensures var after := RunTrace(hash, InMemory(bytes), chunkSize, Options(None, None), net, s).after;
            && after.artifact.Verified? && after.manifest.artifactId == s.manifest.artifactId
            && Concatenation(after.stored, ChunkCount(|bytes|, chunkSize)) == bytes
  {
    var source, options := InMemory(bytes), Options(None, None);
    InMemoryIsFaithful(bytes, chunkSize);
    ClearRunVerifies(hash, source, chunkSize, net, s);
    VerifiedIsTheSource(hash, bytes, chunkSize, options, net, s);
    VerifiedRun(hash, source, chunkSize, options, net, s);
    RunNeverRewrites(hash, source, chunkSize, options, net, s);
  }

  /** A running Job ends with its last step. */
  function JobAfterSuccess(r: Rows): JobState {
    if EveryStepSucceeded(ReplaceStep(r.job.steps, r.step.(state := StepSucceeded))) then Succeeded else Running
  }

  lemma ResultBelieved(r: Rows)
    requires Bound(r) && r.attempt.state.InProgress? && r.job.state.Running? && r.store.artifact.Verified?
    ensures var e := Receive(r, ResultReport(OutcomeSucceeded, TransferVerified, r.transfer.artifactId));
            && e.attempt.state.AttemptSucceeded? && e.store == r.store
            && e.job.state == JobAfterSuccess(r)
  {
  }

  /** And it can: the action is accepted, one run gets through, its result is believed. */
  lemma TransferCanSucceed(hash: seq<byte> -> Digest, bytes: seq<byte>, chunkSize: u32, net: Network, r: Rows)
    requires chunkSize > 0 && bytes != [] && Fresh(r) && r.store.manifest.chunkSize == chunkSize
    requires ChunkCount(|bytes|, chunkSize) < 0x1_0000_0000 && Clear(net)
    ensures var start := RunStep(InMemory(bytes), chunkSize, Options(None, None), net);
            var result := ReportStep(ResultReport(OutcomeSucceeded, TransferVerified, r.transfer.artifactId));
            && Enabled(start)
            && var e := Exec(hash, r, [ReportStep(AckReport(true)), start] + [result]);
            && e.attempt.state.AttemptSucceeded? && e.store.artifact.Verified?
            && Concatenation(e.store.stored, ChunkCount(|bytes|, chunkSize)) == bytes
            && e.job.state == JobAfterSuccess(r)
  {
    var accept, start := ReportStep(AckReport(true)), RunStep(InMemory(bytes), chunkSize, Options(None, None), net);
    var result := ReportStep(ResultReport(OutcomeSucceeded, TransferVerified, r.transfer.artifactId));
    ClearRunStep(hash, bytes, chunkSize, net, r.store);
    assert Next(hash, r, accept) == Accepted(r);
    TwoSteps(hash, r, accept, start);
    ResultBelieved(Exec(hash, r, [accept, start]));
    RunOn(hash, r, [accept, start], result);
  }

  lemma {:induction false} RunOn(hash: seq<byte> -> Digest, r: Rows, run: seq<Step>, step: Step)
    requires ValidRun(run) && Enabled(step)
    ensures Exec(hash, r, run + [step]) == Next(hash, Exec(hash, r, run), step)
    decreases |run|
  {
    if run == [] {
      assert run + [step] == [step] && [step][1..] == [];
    } else {
      RunOn(hash, Next(hash, r, run[0]), run[1..], step);
      assert (run + [step])[1..] == run[1..] + [step];
    }
  }

  // ---------------------------------------------------------------------
  // A lost reply to the verifying seal
  // ---------------------------------------------------------------------

  /** What ends the Attempt of a Verified Artifact. */
  predicate Ends(r: Rows, step: Step) {
    match step
    case CloseStep => r.attempt.state.AwaitingReconciliation?
    case ReportStep(ResultReport(outcome, code, artifactId)) =>
      && code.TransferVerified? && outcome.OutcomeSucceeded? && artifactId == r.store.manifest.artifactId
      && r.attempt.state.InProgress?
    case ReportStep(CancelReport(answer)) => answer.AckCancelled? && r.job.state.Cancelling?
    case ReportStep(StateReport(known)) =>
      && r.attempt.state.AwaitingReconciliation?
      && (known.StatusSucceeded? || known.StatusFailed? || (known.StatusCancelled? && r.job.state.Cancelling?))
    case _ => false
  }

  lemma VerifiedEndsIff(hash: seq<byte> -> Digest, r: Rows, step: Step)
    requires Inv(hash, r) && Enabled(step) && r.store.artifact.Verified? && Active(r.attempt.state)
    ensures !Active(Next(hash, r, step).attempt.state) <==> Ends(r, step)
    ensures Next(hash, r, step).store.artifact.Verified?
  {
    NextKeeps(hash, r, step);
  }

  /** The result of a run. Without authorization every request is denied or lost, and only a
      garbled reply to discovery yields one. */
  ghost function RunResult(hash: seq<byte> -> Digest, r: Rows, step: Step): Option<TransferResult>
    requires step.RunStep? && Enabled(step)
  {
    if step.source.len == 0 then None
    else if !r.attempt.state.InProgress? then
      if step.net(ResumeRequest).fate.Garbled? then Some(TransferAbandoned) else None
    else
      match RunTrace(hash, step.source, step.chunkSize, step.options, step.net, r.store).outcome
      case Ok(Completed(result)) => Some(result)
      case _ => None
  }

  ghost function Reported(hash: seq<byte> -> Digest, r: Rows, step: Step): set<TransferResult>
    requires Enabled(step)
  {
    if step.RunStep? && RunResult(hash, r, step).Some? then {RunResult(hash, r, step).value} else {}
  }

  /** An Agent whose results are those of its runs, and that gives no other conclusive report.
      The transfer Agent is one: it answers neither cancellations nor status queries.
      `results` are those so far. */
  ghost predicate ByParticipant(
    hash: seq<byte> -> Digest, r: Rows, results: set<TransferResult>, run: seq<Step>)
    requires ValidRun(run)
    decreases |run|
  {
    run == [] ||
    (&& (run[0].ReportStep? ==>
           if run[0].report.ResultReport? then run[0].report.code in results else !Ends(r, run[0]))
     && ByParticipant(hash, Next(hash, r, run[0]), results + Reported(hash, r, run[0]), run[1..]))
  }

  /** With a Verified Artifact and no verified result under way, the transfer Agent cannot end
      its Attempt any more, however often it runs again. */
  lemma {:induction false} Stranded(
    hash: seq<byte> -> Digest, r: Rows, results: set<TransferResult>, run: seq<Step>)
    requires Inv(hash, r) && r.store.artifact.Verified? && Active(r.attempt.state)
    requires TransferVerified !in results && ValidRun(run) && ByParticipant(hash, r, results, run)
    requires CloseStep !in run
    ensures Active(Exec(hash, r, run).attempt.state) && Exec(hash, r, run).store.artifact.Verified?
    decreases |run|
  {
    if run != [] {
      VerifiedEndsIff(hash, r, run[0]);
      NextKeeps(hash, r, run[0]);
      NothingVerified(hash, r, run[0]);
      Stranded(hash, Next(hash, r, run[0]), results + Reported(hash, r, run[0]), run[1..]);
    }
  }

  lemma NothingVerified(hash: seq<byte> -> Digest, r: Rows, step: Step)
    requires Enabled(step) && r.store.artifact.Verified?
    ensures TransferVerified !in Reported(hash, r, step)
  {
    if step.RunStep? && step.source.len > 0 {
      FinalArtifactIsSilent(hash, step.source, step.chunkSize, step.options, step.net, r.store);
    }
  }

  /** From dispatch: a run that loses the reply to its verifying seal leaves the Artifact
      Verified and the Attempt open, and open it stays until the operator closes it. */
  lemma LostReplyStrandsAttempt(
    hash: seq<byte> -> Digest, bytes: seq<byte>, chunkSize: u32, net: Network, r: Rows, more: seq<Step>)
    requires chunkSize > 0 && bytes != [] && Fresh(r) && r.store.manifest.chunkSize == chunkSize
    requires ChunkCount(|bytes|, chunkSize) < 0x1_0000_0000
    requires OnlySealReplyLost(net) && forall q :: !net(q).abandoned
    requires ValidRun(more) && CloseStep !in more
    requires var start := RunStep(InMemory(bytes), chunkSize, Options(None, None), net);
             ByParticipant(hash, Exec(hash, r, [ReportStep(AckReport(true)), start]), {}, more)
    ensures var start := RunStep(InMemory(bytes), chunkSize, Options(None, None), net);
            var lost := Exec(hash, r, [ReportStep(AckReport(true)), start]);
            var e := Exec(hash, lost, more);
            && Reported(hash, Accepted(r), start) == {}
            && lost.store.artifact.Verified? && lost.attempt.state.InProgress?
            && e.store.artifact.Verified? && Active(e.attempt.state)
  {
    var accept, start := ReportStep(AckReport(true)), RunStep(InMemory(bytes), chunkSize, Options(None, None), net);
    InMemoryIsFaithful(bytes, chunkSize);
    LostSealReply(hash, InMemory(bytes), chunkSize, net, r.store);
    assert Next(hash, r, accept) == Accepted(r);
    TwoSteps(hash, r, accept, start);
    StrandedFrom(hash, r, [accept, start], more);
  }

  lemma StrandedFrom(hash: seq<byte> -> Digest, r: Rows, run: seq<Step>, more: seq<Step>)
    requires Fresh(r) && ValidRun(run) && ValidRun(more) && CloseStep !in more
    requires Exec(hash, r, run).store.artifact.Verified? && Active(Exec(hash, r, run).attempt.state)
    requires ByParticipant(hash, Exec(hash, r, run), {}, more)
    ensures var e := Exec(hash, Exec(hash, r, run), more);
            e.store.artifact.Verified? && Active(e.attempt.state)
  {
    FreshHolds(hash, r);
    RunKeeps(hash, r, run);
    Stranded(hash, Exec(hash, r, run), {}, more);
  }

  /** Closing then ends it as Indeterminate, and the Job as failed or cancelled, although the
      Artifact is Verified. */
  lemma ClosureEndsStranded(hash: seq<byte> -> Digest, r: Rows)
    requires Inv(hash, r) && r.store.artifact.Verified? && Active(r.attempt.state)
    ensures var e := Exec(hash, r, [LostStep, CloseStep]);
            && e.attempt.state.Indeterminate? && e.store == r.store
            && e.job.state == if r.job.state.Cancelling? then Cancelled else Failed
  {
    TwoSteps(hash, r, LostStep, CloseStep);
  }
}
