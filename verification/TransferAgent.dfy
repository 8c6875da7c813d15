/** One run of the Agent's transfer action: discover what is held, upload what is missing,
    seal. The network is a function from requests to their fates, so that what holds for
    all such functions holds for every way a run can go. */
module TransferAgent {
  import opened Workflow
  import opened Bytes
  import opened ChunkManifest
  import opened DataPlane
  import opened TransferSource
  import opened Delivery

  datatype TransferResult =
    | TransferVerified
    | ArtifactVerificationFailed
    | ChunkVerificationFailed
    | TransferAbandoned

  datatype SuspendReason = InterruptionHookFired | AuthorizationUnavailable | DataPlaneUnreachable

  datatype RunOutcome = Completed(result: TransferResult) | Suspended(reason: SuspendReason, heldBytes: nat)

  datatype RunError = EmptySource | SourceContractViolation(index: nat)

  datatype Options = Options(interruptAfter: Option<nat>, corruptChunk: Option<nat>)

  type Network = Request -> Event

  // ---------------------------------------------------------------------
  // What a run does, as a function
  // ---------------------------------------------------------------------

  /** What is sent for the chunk chosen for corruption: its first byte flipped. */
  function Corrupted(bytes: seq<byte>): seq<byte> {
    if bytes == [] then [] else [255 - bytes[0]] + bytes[1..]
  }

  function Transmitted(options: Options, source: Source, chunkSize: u32, index: nat): seq<byte> {
    if options.corruptChunk == Some(index) then Corrupted(source.chunkAt(index, chunkSize))
    else source.chunkAt(index, chunkSize)
  }

  /** What the reply to an upload means for the run; None lets it go on. */
  function OnPut(reply: Reply<PutReply>, heldBytes: nat): Option<RunOutcome> {
    match reply
    case Unreachable => Some(Suspended(DataPlaneUnreachable, heldBytes))
    case Nonsense => Some(Completed(TransferAbandoned))
    case Answer(answer) =>
      match answer
      case Accepted | AlreadyHeld => None
      case PutDigestMismatch | IdentityConflict => Some(Completed(ChunkVerificationFailed))
      case PutNotContinuable | TooLarge => Some(Completed(TransferAbandoned))
      case PutDenied => Some(Suspended(AuthorizationUnavailable, heldBytes))
      case PutMalformed => Some(Completed(TransferAbandoned))
  }

  function OnSeal(reply: Reply<SealReply>, heldBytes: nat): RunOutcome {
    match reply
    case Unreachable => Suspended(DataPlaneUnreachable, heldBytes)
    case Nonsense => Completed(TransferAbandoned)
    case Answer(answer) =>
      match answer
      case SealedAs(state) => Completed(if state.Verified? then TransferVerified else ArtifactVerificationFailed)
      case IncompleteManifest | ManifestAlreadySealed => Completed(TransferAbandoned)
      case SealDenied => Suspended(AuthorizationUnavailable, heldBytes)
  }

  /** The upload loop's variables. `seen` keeps the held set behind every progress report. */
  datatype Upload = Upload(
    store: Store,
    held: set<nat>,
    heldBytes: nat,
    newlyHeld: nat,
    progress: seq<nat>,
    seen: seq<set<nat>>,
    stop: Option<RunOutcome>)

  function StartUpload(store: Store, held: set<nat>, heldBytes: nat): Upload {
    Upload(store, held, heldBytes, 0, [heldBytes], [held], None)
  }

  function UploadOne(
    hash: seq<byte> -> Digest, source: Source, chunkSize: u32, plan: Plan, options: Options, net: Network,
    u: Upload, index: nat): Upload
    requires index < |plan.digests| == |plan.sizes|
  {
    if index in u.held then u else
    var body := Transmitted(options, source, chunkSize, index);
    var (store, reply) := PutOver(hash, u.store, net(PutRequest(index)), index, plan.digests[index], body);
    var stop := OnPut(reply, u.heldBytes);
    if stop.Some? then u.(store := store, stop := stop) else
    var held, heldBytes := u.held + {index}, u.heldBytes + plan.sizes[index];
    var interrupted :=
      && options.interruptAfter.Some? && u.newlyHeld + 1 >= options.interruptAfter.value
      && |held| < |plan.sizes|;
    Upload(store, held, heldBytes, u.newlyHeld + 1, u.progress + [heldBytes], u.seen + [held],
           if interrupted then Some(Suspended(InterruptionHookFired, heldBytes)) else None)
  }

  function UploadFrom(
    hash: seq<byte> -> Digest, source: Source, chunkSize: u32, plan: Plan, options: Options, net: Network,
    u: Upload, index: nat): Upload
    requires index <= |plan.digests| == |plan.sizes|
    decreases |plan.digests| - index
  {
    if index == |plan.digests| || u.stop.Some? then u
    else
      UploadFrom(hash, source, chunkSize, plan, options, net,
                 UploadOne(hash, source, chunkSize, plan, options, net, u, index), index + 1)
  }

  predicate Reconciled(reported: map<u32, Digest>, plan: Plan) {
    forall i :: i in reported ==> i < |plan.digests| && reported[i] == plan.digests[i]
  }

  datatype Trace = Trace(
    outcome: Result<RunOutcome, RunError>, after: Store, progress: seq<nat>, seen: seq<set<nat>>)

  function Ended(outcome: RunOutcome, after: Store): Trace {
    Trace(Ok(outcome), after, [], [])
  }

  /** A run whose resume discovery was answered and whose source agrees with what is held. */
  function Continued(
    hash: seq<byte> -> Digest, source: Source, chunkSize: u32, options: Options, net: Network, s: Store,
    held: set<nat>): Trace
    requires chunkSize > 0
  {
    var plan := PlanOf(hash, source, chunkSize);
    var start := StartUpload(s, held, HeldBytes(plan.sizes, held, |plan.sizes|));
    var u := UploadFrom(hash, source, chunkSize, plan, options, net, start, 0);
    if u.stop.Some? then Trace(Ok(u.stop.value), u.store, u.progress, u.seen) else
    var (after, reply) := SealOver(hash, u.store, net(SealRequest), |plan.sizes|, plan.artifactDigest);
    Trace(Ok(OnSeal(reply, u.heldBytes)), after, u.progress, u.seen)
  }

  ghost function RunTrace(
    hash: seq<byte> -> Digest, source: Source, chunkSize: u32, options: Options, net: Network, before: Store): Trace
    requires chunkSize > 0
  {
    if source.len == 0 then Trace(Err(EmptySource), before, [], []) else
    var (s, reply) := ResumeOver(before, net(ResumeRequest));
    match reply
    case Unreachable => Ended(Suspended(DataPlaneUnreachable, 0), s)
    case Nonsense => Ended(Completed(TransferAbandoned), s)
    case Answer(None) => Ended(Suspended(AuthorizationUnavailable, 0), s)
    case Answer(Some(resume)) =>
      if resume.chunkSize != chunkSize then Ended(Completed(TransferAbandoned), s)
      else if resume.sealed && resume.chunkCount != Some(ChunkCount(source.len, chunkSize)) then
        Ended(Completed(TransferAbandoned), s)
      else if !WellSized(source, chunkSize) then
        Trace(Err(SourceContractViolation(FirstBadChunk(source, chunkSize))), s, [], [])
      else if !Reconciled(resume.held, PlanOf(hash, source, chunkSize)) then
        Ended(Completed(ChunkVerificationFailed), s)
      else Continued(hash, source, chunkSize, options, net, s, resume.held.Keys)
  }

  // ---------------------------------------------------------------------
  // The run itself
  // ---------------------------------------------------------------------

  /** Checks every held chunk against the digests the source reproduces now. */
  method ReconcileHeld(reported: map<u32, Digest>, plan: Plan) returns (held: Option<set<nat>>)
    ensures held == if Reconciled(reported, plan) then Some(reported.Keys) else None
  {
    var todo, done: set<nat> := reported.Keys, {};
    while todo != {}
      invariant todo <= reported.Keys && done == reported.Keys - todo
      invariant forall i :: i in done ==> i < |plan.digests| && reported[i] == plan.digests[i]
      decreases |todo|
    {
      var index :| index in todo;
      if index >= |plan.digests| || reported[index] != plan.digests[index] {
        return None;
      }
      todo, done := todo - {index}, done + {index};
    }
    assert done == reported.Keys;
    return Some(done);
  }

  /** One turn of the upload loop. */
  method UploadNext(
    hash: seq<byte> -> Digest, source: Source, chunkSize: u32, plan: Plan, options: Options, net: Network,
    u: Upload, index: nat)
    returns (next: Upload)
    requires index < |plan.digests| == |plan.sizes|
    ensures next == UploadOne(hash, source, chunkSize, plan, options, net, u, index)
  {
    if index in u.held {
      return u;
    }
    var body := Transmitted(options, source, chunkSize, index);
    var sent := PutOver(hash, u.store, net(PutRequest(index)), index, plan.digests[index], body);
    var stop := OnPut(sent.1, u.heldBytes);
    if stop.Some? {
      return u.(store := sent.0, stop := stop);
    }
    var held: set<nat> := u.held + {index};
    var heldBytes := u.heldBytes + plan.sizes[index];
    var newlyHeld := u.newlyHeld + 1;
    if options.interruptAfter.Some? && newlyHeld >= options.interruptAfter.value && |held| < |plan.sizes| {
      stop := Some(Suspended(InterruptionHookFired, heldBytes));
    }
    return Upload(sent.0, held, heldBytes, newlyHeld, u.progress + [heldBytes], u.seen + [held], stop);
  }

  method UploadMissing(
    hash: seq<byte> -> Digest, source: Source, chunkSize: u32, plan: Plan, options: Options, net: Network,
    start: Upload)
    returns (u: Upload)
    requires |plan.digests| == |plan.sizes| && start.stop.None?
    ensures u == UploadFrom(hash, source, chunkSize, plan, options, net, start, 0)
  {
    u := start;
    for index := 0 to |plan.digests|
      invariant u.stop.None?
      invariant UploadFrom(hash, source, chunkSize, plan, options, net, u, index) ==
                UploadFrom(hash, source, chunkSize, plan, options, net, start, 0)
    {
      u := UploadNext(hash, source, chunkSize, plan, options, net, u, index);
      if u.stop.Some? {
        return;
      }
    }
  }

  method Run(
    hash: seq<byte> -> Digest, source: Source, chunkSize: u32, options: Options, net: Network, before: Store)
    returns (trace: Trace)
    requires chunkSize > 0
    ensures trace == RunTrace(hash, source, chunkSize, options, net, before)
  {
    if source.len == 0 {
      return Trace(Err(EmptySource), before, [], []);
    }
    var discovered := ResumeOver(before, net(ResumeRequest));
    var s, reply := discovered.0, discovered.1;
    if reply.Unreachable? {
      return Ended(Suspended(DataPlaneUnreachable, 0), s);
    }
    if reply.Nonsense? {
      return Ended(Completed(TransferAbandoned), s);
    }
    if reply.answer.None? {
      return Ended(Suspended(AuthorizationUnavailable, 0), s);
    }
    var resume := reply.answer.value;
    if resume.chunkSize == 0 || resume.chunkSize != chunkSize {
      return Ended(Completed(TransferAbandoned), s);
    }
    var chunkCount := ChunkCount(source.len, chunkSize);
    if resume.sealed && resume.chunkCount != Some(chunkCount) {
      return Ended(Completed(TransferAbandoned), s);
    }
    var built := BuildChunkPlan(hash, source, chunkCount, chunkSize);
    if built.Err? {
      return Trace(Err(SourceContractViolation(built.error)), s, [], []);
    }
    var plan := built.value;
    var held := ReconcileHeld(resume.held, plan);
    if held.None? {
      return Ended(Completed(ChunkVerificationFailed), s);
    }
    var start := StartUpload(s, held.value, HeldBytes(plan.sizes, held.value, |plan.sizes|));
    var u := UploadMissing(hash, source, chunkSize, plan, options, net, start);
    if u.stop.Some? {
      return Trace(Ok(u.stop.value), u.store, u.progress, u.seen);
    }
    var sealed := SealOver(hash, u.store, net(SealRequest), chunkCount, plan.artifactDigest);
    return Trace(Ok(OnSeal(sealed.1, u.heldBytes)), sealed.0, u.progress, u.seen);
  }
}
