/** What holds of every run of a transfer, and of every sequence of suspended and resumed runs. */
module TransferTheorems {
  import opened Workflow
  import opened Bytes
  import opened ChunkManifest
  import opened DataPlane
  import opened TransferSource
  import opened Delivery
  import opened TransferAgent

  // ---------------------------------------------------------------------
  // The upload loop
  // ---------------------------------------------------------------------

  lemma {:induction false} UploadKeeps(
    hash: seq<byte> -> Digest, source: Source, chunkSize: u32, plan: Plan, options: Options, net: Network,
    u: Upload, index: nat)
    requires index <= |plan.digests| == |plan.sizes|
    ensures var end := UploadFrom(hash, source, chunkSize, plan, options, net, u, index);
            && Extends(u.store, end.store)
            && (Consistent(hash, u.store) ==> Consistent(hash, end.store))
    decreases |plan.digests| - index
  {
    if index < |plan.digests| && u.stop.None? {
      var next := UploadOne(hash, source, chunkSize, plan, options, net, u, index);
      PutOverExtends(hash, u.store, net(PutRequest(index)), index, plan.digests[index],
                     Transmitted(options, source, chunkSize, index));
      UploadKeeps(hash, source, chunkSize, plan, options, net, next, index + 1);
      ExtendsTransitive(u.store, next.store,
                        UploadFrom(hash, source, chunkSize, plan, options, net, next, index + 1).store);
    }
  }

  /** Replies are never garbled and no request is overtaken. */
  ghost predicate Sound(net: Network) {
    forall r :: !net(r).fate.Garbled? && !net(r).fate.Overtaken?
  }

  /** No chunk fails without corruption, and nothing is abandoned on a sound network. */
  ghost predicate StopsFairly(options: Options, net: Network, stop: Option<RunOutcome>) {
    && (options.corruptChunk.None? ==> stop != Some(Completed(ChunkVerificationFailed)))
    && (Sound(net) ==> stop != Some(Completed(TransferAbandoned)))
  }

  lemma UploadOneFaithful(
    hash: seq<byte> -> Digest, source: Source, chunkSize: u32, options: Options, net: Network, honest: bool,
    u: Upload, index: nat)
    requires chunkSize > 0 && source.len > 0 && WellSized(source, chunkSize)
    requires index < ChunkCount(source.len, chunkSize) && u.stop.None?
    requires Faithful(hash, source, chunkSize, honest, u.store) && (honest ==> options.corruptChunk.None?)
    ensures var next := UploadOne(hash, source, chunkSize, PlanOf(hash, source, chunkSize), options, net, u, index);
            && Faithful(hash, source, chunkSize, honest, next.store)
            && StopsFairly(options, net, next.stop)
  {
    if index !in u.held {
      assert WellSizedChunk(source, chunkSize, index);
      PutOverFaithful(hash, source, chunkSize, honest, u.store, net(PutRequest(index)), index,
                      Transmitted(options, source, chunkSize, index));
    }
  }

  lemma {:induction false} UploadFaithful(
    hash: seq<byte> -> Digest, source: Source, chunkSize: u32, options: Options, net: Network, honest: bool,
    u: Upload, index: nat)
    requires chunkSize > 0 && source.len > 0 && WellSized(source, chunkSize)
    requires index <= ChunkCount(source.len, chunkSize)
    requires Faithful(hash, source, chunkSize, honest, u.store) && (honest ==> options.corruptChunk.None?)
    requires StopsFairly(options, net, u.stop)
    ensures var end := UploadFrom(hash, source, chunkSize, PlanOf(hash, source, chunkSize), options, net, u, index);
            && Faithful(hash, source, chunkSize, honest, end.store)
            && StopsFairly(options, net, end.stop)
    decreases ChunkCount(source.len, chunkSize) - index
  {
    if index < ChunkCount(source.len, chunkSize) && u.stop.None? {
      UploadOneFaithful(hash, source, chunkSize, options, net, honest, u, index);
      var plan := PlanOf(hash, source, chunkSize);
      UploadFaithful(hash, source, chunkSize, options, net, honest,
                     UploadOne(hash, source, chunkSize, plan, options, net, u, index), index + 1);
    }
  }

  /** Progress reports: each is the size of a held set, and both only grow. */
  ghost predicate Reports(progress: seq<nat>, seen: seq<set<nat>>, sizes: seq<nat>) {
    && |progress| == |seen|
    && (forall j :: 0 <= j < |seen| ==> progress[j] == HeldBytes(sizes, seen[j], |sizes|))
    && (forall j :: 0 < j < |seen| ==> seen[j - 1] < seen[j] && progress[j - 1] < progress[j])
  }

  ghost predicate Tracks(u: Upload, sizes: seq<nat>) {
    && Reports(u.progress, u.seen, sizes) && u.seen != []
    && u.seen[|u.seen| - 1] == u.held && u.progress[|u.progress| - 1] == u.heldBytes
    && u.held <= u.store.held
    && (u.stop.None? ==> u.store.held == u.held)
  }

  /** How an interrupted upload ends: with more held than at `first`, and not everything. */
  ghost predicate InterruptedWell(first: set<nat>, u: Upload, count: nat) {
    u.stop.Some? && u.stop.value.Suspended? ==>
      && u.stop.value.heldBytes == u.heldBytes
      && (u.stop.value.reason.InterruptionHookFired? ==>
            first < u.held && u.store.held == u.held && |u.held| < count)
  }

  lemma ReportsGrow(progress: seq<nat>, seen: seq<set<nat>>, sizes: seq<nat>, index: nat)
    requires Reports(progress, seen, sizes) && seen != []
    requires index < |sizes| && index !in seen[|seen| - 1] && sizes[index] > 0
    ensures Reports(progress + [progress[|seen| - 1] + sizes[index]], seen + [seen[|seen| - 1] + {index}], sizes)
  {
    HeldBytesAdd(sizes, seen[|seen| - 1], index, |sizes|);
  }

  lemma UploadOneTracks(
    hash: seq<byte> -> Digest, source: Source, chunkSize: u32, plan: Plan, options: Options, net: Network,
    u: Upload, index: nat, first: set<nat>)
    requires index < |plan.digests| == |plan.sizes| && plan.sizes[index] > 0
    requires Tracks(u, plan.sizes) && u.stop.None? && first <= u.held
    ensures var next := UploadOne(hash, source, chunkSize, plan, options, net, u, index);
            && Tracks(next, plan.sizes) && InterruptedWell(first, next, |plan.sizes|) && u.held <= next.held
            && (next.stop.None? ==> index in next.held)
            && next.stop != Some(Completed(TransferVerified))
            && next.stop != Some(Completed(ArtifactVerificationFailed))
  {
    if index !in u.held {
      PutOverExtends(hash, u.store, net(PutRequest(index)), index, plan.digests[index],
                     Transmitted(options, source, chunkSize, index));
      ReportsGrow(u.progress, u.seen, plan.sizes, index);
    }
  }

  lemma {:induction false} UploadTracks(
    hash: seq<byte> -> Digest, source: Source, chunkSize: u32, plan: Plan, options: Options, net: Network,
    u: Upload, index: nat, first: set<nat>)
    requires index <= |plan.digests| == |plan.sizes|
    requires forall i: nat :: i < |plan.sizes| ==> plan.sizes[i] > 0
    requires Tracks(u, plan.sizes) && InterruptedWell(first, u, |plan.sizes|) && first <= u.held
    requires u.stop.None? ==> forall i: nat :: i < index ==> i in u.held
    requires u.stop != Some(Completed(TransferVerified)) && u.stop != Some(Completed(ArtifactVerificationFailed))
    ensures var end := UploadFrom(hash, source, chunkSize, plan, options, net, u, index);
            && Tracks(end, plan.sizes) && InterruptedWell(first, end, |plan.sizes|) && first <= end.held
            && (end.stop.None? ==> forall i: nat :: i < |plan.sizes| ==> i in end.held)
            && end.stop != Some(Completed(TransferVerified))
            && end.stop != Some(Completed(ArtifactVerificationFailed))
    decreases |plan.digests| - index
  {
    if index < |plan.digests| && u.stop.None? {
      UploadOneTracks(hash, source, chunkSize, plan, options, net, u, index, first);
      UploadTracks(hash, source, chunkSize, plan, options, net,
                   UploadOne(hash, source, chunkSize, plan, options, net, u, index), index + 1, first);
    }
  }

  const CLEAR := Event(false, Delivered)

  /** Every request arrives and is answered, and the Artifact is not given up. */
  ghost predicate Clear(net: Network) {
    forall r :: net(r) == CLEAR
  }

  ghost predicate ClearUploads(net: Network) {
    forall i: nat :: net(PutRequest(i)) == CLEAR
  }

  lemma {:induction false} UploadIdle(
    hash: seq<byte> -> Digest, source: Source, chunkSize: u32, plan: Plan, options: Options, net: Network,
    u: Upload, index: nat)
    requires index <= |plan.digests| == |plan.sizes|
    requires forall i: nat :: index <= i < |plan.digests| ==> i in u.held
    ensures UploadFrom(hash, source, chunkSize, plan, options, net, u, index) == u
    decreases |plan.digests| - index
  {
    if index < |plan.digests| && u.stop.None? {
      UploadIdle(hash, source, chunkSize, plan, options, net, u, index + 1);
    }
  }

  /** On a clear connection the uploads succeed one after the other, up to the last index
      that fits 32 bits. */
  lemma {:induction false} UploadClear(
    hash: seq<byte> -> Digest, source: Source, chunkSize: u32, net: Network, u: Upload, index: nat)
    requires chunkSize > 0 && source.len > 0 && WellSized(source, chunkSize) && ClearUploads(net)
    requires index <= ChunkCount(source.len, chunkSize) && index <= 0x1_0000_0000
    requires Faithful(hash, source, chunkSize, true, u.store) && u.store.artifact.Incomplete?
    requires u.stop.None? && u.store.held == u.held
    ensures var end := UploadFrom(hash, source, chunkSize, PlanOf(hash, source, chunkSize), Options(None, None),
                                  net, u, index);
            && end.store.artifact.Incomplete?
            && (ChunkCount(source.len, chunkSize) <= 0x1_0000_0000 ==> end.stop.None?)
            && (ChunkCount(source.len, chunkSize) > 0x1_0000_0000 ==>
                  end.stop.Some? && end.stop.value.Suspended? && end.stop.value.reason.AuthorizationUnavailable?)
    decreases ChunkCount(source.len, chunkSize) - index
  {
    if index < ChunkCount(source.len, chunkSize) {
      var plan, options := PlanOf(hash, source, chunkSize), Options(None, None);
      UploadOneClear(hash, source, chunkSize, net, u, index);
      var next := UploadOne(hash, source, chunkSize, plan, options, net, u, index);
      if index < 0x1_0000_0000 {
        UploadClear(hash, source, chunkSize, net, next, index + 1);
      } else {
        UploadStopped(hash, source, chunkSize, plan, options, net, next, index + 1);
      }
    }
  }

  lemma UploadOneClear(
    hash: seq<byte> -> Digest, source: Source, chunkSize: u32, net: Network, u: Upload, index: nat)
    requires chunkSize > 0 && source.len > 0 && WellSized(source, chunkSize) && ClearUploads(net)
    requires index < ChunkCount(source.len, chunkSize) && index <= 0x1_0000_0000
    requires Faithful(hash, source, chunkSize, true, u.store) && u.store.artifact.Incomplete?
    requires u.stop.None? && u.store.held == u.held
    ensures var next := UploadOne(hash, source, chunkSize, PlanOf(hash, source, chunkSize), Options(None, None),
                                  net, u, index);
            && Faithful(hash, source, chunkSize, true, next.store) && next.store.artifact.Incomplete?
            && (index < 0x1_0000_0000 ==> next.stop.None? && next.store.held == next.held)
            && (index == 0x1_0000_0000 ==>
                  next.stop.Some? && next.stop.value.Suspended? && next.stop.value.reason.AuthorizationUnavailable?)
  {
    assert WellSizedChunk(source, chunkSize, index);
    if index !in u.held {
      var body, digest := source.chunkAt(index, chunkSize), PlanOf(hash, source, chunkSize).digests[index];
      PutOverFaithful(hash, source, chunkSize, true, u.store, CLEAR, index, body);
      PutOverExtends(hash, u.store, CLEAR, index, digest, body);
      PutStaysIncomplete(hash, u.store, index, digest, body);
    }
  }

  lemma PutStaysIncomplete(hash: seq<byte> -> Digest, s: Store, index: nat, declared: Digest, body: seq<byte>)
    requires s.artifact.Incomplete?
    ensures PutOver(hash, s, CLEAR, index, declared, body).0.artifact.Incomplete?
  {
  }

  lemma UploadStopped(
    hash: seq<byte> -> Digest, source: Source, chunkSize: u32, plan: Plan, options: Options, net: Network,
    u: Upload, index: nat)
    requires index <= |plan.digests| == |plan.sizes| && u.stop.Some?
    ensures UploadFrom(hash, source, chunkSize, plan, options, net, u, index) == u
  {
  }

  // ---------------------------------------------------------------------
  // One run
  // ---------------------------------------------------------------------

  /** Whatever the source, the options and the network do, a run never rewrites a recorded
      identity or stored bytes, never reopens a sealed manifest or a final Artifact, and
      leaves the store consistent. */
  lemma RunNeverRewrites(
    hash: seq<byte> -> Digest, source: Source, chunkSize: u32, options: Options, net: Network, before: Store)
    requires chunkSize > 0
    ensures var after := RunTrace(hash, source, chunkSize, options, net, before).after;
            Extends(before, after) && (Consistent(hash, before) ==> Consistent(hash, after))
  {
    AbandonKeeps(hash, before);
    var s := Arrival(before, net(ResumeRequest));
    forall held: set<nat> ensures
      var after := Continued(hash, source, chunkSize, options, net, s, held).after;
      Extends(before, after) && (Consistent(hash, before) ==> Consistent(hash, after))
    {
      ContinuedKeeps(hash, source, chunkSize, options, net, s, held);
      ExtendsTransitive(before, s, Continued(hash, source, chunkSize, options, net, s, held).after);
    }
  }

  lemma ContinuedKeeps(
    hash: seq<byte> -> Digest, source: Source, chunkSize: u32, options: Options, net: Network, s: Store,
    held: set<nat>)
    requires chunkSize > 0
    ensures var after := Continued(hash, source, chunkSize, options, net, s, held).after;
            Extends(s, after) && (Consistent(hash, s) ==> Consistent(hash, after))
  {
    var plan := PlanOf(hash, source, chunkSize);
    var start := StartUpload(s, held, HeldBytes(plan.sizes, held, |plan.sizes|));
    UploadKeeps(hash, source, chunkSize, plan, options, net, start, 0);
    var u := UploadFrom(hash, source, chunkSize, plan, options, net, start, 0);
    SealOverExtends(hash, u.store, net(SealRequest), |plan.sizes|, plan.artifactDigest);
    ExtendsTransitive(s, u.store, SealOver(hash, u.store, net(SealRequest), |plan.sizes|, plan.artifactDigest).0);
  }

  /** A run that got past resume discovery. */
  ghost predicate Resumed(source: Source, chunkSize: u32, s: Store)
    requires chunkSize > 0
  {
    && source.len > 0 && WellSized(source, chunkSize)
    && forall i :: i in s.held ==> i < ChunkCount(source.len, chunkSize)
  }

  lemma StartTracks(hash: seq<byte> -> Digest, source: Source, chunkSize: u32, s: Store)
    requires chunkSize > 0 && Resumed(source, chunkSize, s)
    ensures var sizes := PlanOf(hash, source, chunkSize).sizes;
            && Tracks(StartUpload(s, s.held, HeldBytes(sizes, s.held, |sizes|)), sizes)
            && forall i: nat :: i < |sizes| ==> sizes[i] > 0
  {
    forall i: nat | i < ChunkCount(source.len, chunkSize)
      ensures |source.chunkAt(i, chunkSize)| > 0
    {
      assert WellSizedChunk(source, chunkSize, i);
    }
  }

  /** Uploads and seal of a run on a store that only saw this source. */
  lemma ContinuedFaithful(
    hash: seq<byte> -> Digest, source: Source, chunkSize: u32, options: Options, net: Network, honest: bool, s: Store)
    requires chunkSize > 0 && Resumed(source, chunkSize, s)
    requires Faithful(hash, source, chunkSize, honest, s) && (honest ==> options.corruptChunk.None?)
    ensures var t := Continued(hash, source, chunkSize, options, net, s, s.held);
            && Faithful(hash, source, chunkSize, honest, t.after)
            && (options.corruptChunk.None? ==> t.outcome != Ok(Completed(ChunkVerificationFailed)))
            && (honest ==> t.outcome != Ok(Completed(ArtifactVerificationFailed)))
            && (Sound(net) ==> t.outcome != Ok(Completed(TransferAbandoned)))
  {
    var plan := PlanOf(hash, source, chunkSize);
    var start := StartUpload(s, s.held, HeldBytes(plan.sizes, s.held, |plan.sizes|));
    StartTracks(hash, source, chunkSize, s);
    UploadFaithful(hash, source, chunkSize, options, net, honest, start, 0);
    UploadTracks(hash, source, chunkSize, plan, options, net, start, 0, s.held);
    var u := UploadFrom(hash, source, chunkSize, plan, options, net, start, 0);
    if u.stop.None? {
      SealOverFaithful(hash, source, chunkSize, honest, u.store, net(SealRequest));
      SealSound(hash, u.store, net(SealRequest), |plan.sizes|, plan.artifactDigest);
    }
  }

  lemma SealSound(hash: seq<byte> -> Digest, s: Store, e: Event, chunkCount: nat, digest: Digest)
    ensures SealOver(hash, s, e, chunkCount, digest).1.Nonsense? ==> e.fate.Garbled?
  {
  }

  /** Runs over one unchanged source, on any network: no held chunk is ever contradicted, so
      without deliberate corruption the run neither fails a chunk nor the Artifact, and it
      is only abandoned when a reply was garbled or the Attempt ended under it. */
  lemma RunsAgree(
    hash: seq<byte> -> Digest, source: Source, chunkSize: u32, options: Options, net: Network, honest: bool,
    before: Store)
    requires chunkSize > 0 && source.len > 0 && WellSized(source, chunkSize)
    requires Faithful(hash, source, chunkSize, honest, before) && (honest ==> options.corruptChunk.None?)
    ensures var t := RunTrace(hash, source, chunkSize, options, net, before);
            && t.outcome.Ok?
            && Faithful(hash, source, chunkSize, honest, t.after)
            && (options.corruptChunk.None? ==> t.outcome.value != Completed(ChunkVerificationFailed))
            && (honest ==> t.outcome.value != Completed(ArtifactVerificationFailed))
            && (Sound(net) ==> t.outcome.value != Completed(TransferAbandoned))
  {
    var s := Arrival(before, net(ResumeRequest));
    ArrivalFaithful(hash, source, chunkSize, honest, before, net(ResumeRequest));
    ResumeAgrees(hash, source, chunkSize, honest, s);
    RunIs(hash, source, chunkSize, options, net, before);
    if ResumeOver(before, net(ResumeRequest)).1.Answer? && ResumeState(s).Some? {
      HeldInRange(hash, source, chunkSize, honest, s);
      ContinuedFaithful(hash, source, chunkSize, options, net, honest, s);
    }
  }

  lemma HeldInRange(hash: seq<byte> -> Digest, source: Source, chunkSize: u32, honest: bool, s: Store)
    requires chunkSize > 0 && source.len > 0 && WellSized(source, chunkSize)
    requires Faithful(hash, source, chunkSize, honest, s)
    ensures Resumed(source, chunkSize, s)
  {
  }

  ghost predicate Compatible(hash: seq<byte> -> Digest, source: Source, chunkSize: u32, s: Store)
    requires chunkSize > 0
  {
    ResumeState(s).Some? ==>
      var r := ResumeState(s).value;
      && r.chunkSize == chunkSize && r.held.Keys == s.held
      && (r.sealed ==> r.chunkCount == Some(ChunkCount(source.len, chunkSize)))
      && Reconciled(r.held, PlanOf(hash, source, chunkSize))
  }

  /** The course of a run whose source agrees with what is held. */
  lemma RunIs(
    hash: seq<byte> -> Digest, source: Source, chunkSize: u32, options: Options, net: Network, before: Store)
    requires chunkSize > 0 && source.len > 0 && WellSized(source, chunkSize)
    requires Compatible(hash, source, chunkSize, Arrival(before, net(ResumeRequest)))
    ensures var (s, reply) := ResumeOver(before, net(ResumeRequest));
            RunTrace(hash, source, chunkSize, options, net, before) ==
            if reply.Unreachable? then Ended(Suspended(DataPlaneUnreachable, 0), s)
            else if reply.Nonsense? then Ended(Completed(TransferAbandoned), s)
            else if reply.answer.None? then Ended(Suspended(AuthorizationUnavailable, 0), s)
            else Continued(hash, source, chunkSize, options, net, s, s.held)
  {
  }

  lemma ResumeAgrees(hash: seq<byte> -> Digest, source: Source, chunkSize: u32, honest: bool, s: Store)
    requires chunkSize > 0 && source.len > 0 && Faithful(hash, source, chunkSize, honest, s)
    ensures ResumeState(s).None? <==> TerminalArtifact(s.artifact)
    ensures Compatible(hash, source, chunkSize, s)
  {
  }

  /** A run reports success only for an Artifact the Server committed as Verified, whose
      stored chunks hash to the digest of the whole source. */
  lemma VerifiedRun(
    hash: seq<byte> -> Digest, source: Source, chunkSize: u32, options: Options, net: Network, before: Store)
    requires chunkSize > 0
    requires RunTrace(hash, source, chunkSize, options, net, before).outcome == Ok(Completed(TransferVerified))
    ensures var after := RunTrace(hash, source, chunkSize, options, net, before).after;
            && after.artifact.Verified? && WellSized(source, chunkSize)
            && hash(Concatenation(after.stored, ChunkCount(source.len, chunkSize))) == hash(Whole(source, chunkSize))
  {
    var s := Arrival(before, net(ResumeRequest));
    assert RunTrace(hash, source, chunkSize, options, net, before) ==
           Continued(hash, source, chunkSize, options, net, s, ResumeState(s).value.held.Keys);
    ContinuedVerified(hash, source, chunkSize, options, net, s, ResumeState(s).value.held.Keys);
  }

  lemma ContinuedVerified(
    hash: seq<byte> -> Digest, source: Source, chunkSize: u32, options: Options, net: Network, s: Store,
    held: set<nat>)
    requires chunkSize > 0
    requires Continued(hash, source, chunkSize, options, net, s, held).outcome == Ok(Completed(TransferVerified))
    ensures var after := Continued(hash, source, chunkSize, options, net, s, held).after;
            && after.artifact.Verified?
            && hash(Concatenation(after.stored, ChunkCount(source.len, chunkSize))) == hash(Whole(source, chunkSize))
  {
    var plan := PlanOf(hash, source, chunkSize);
    var start := StartUpload(s, held, HeldBytes(plan.sizes, held, |plan.sizes|));
    var u := UploadFrom(hash, source, chunkSize, plan, options, net, start, 0);
    UploadNeverVerifies(hash, source, chunkSize, plan, options, net, start, 0);
    SealOverExtends(hash, u.store, net(SealRequest), |plan.sizes|, plan.artifactDigest);
  }

  lemma {:induction false} UploadNeverVerifies(
    hash: seq<byte> -> Digest, source: Source, chunkSize: u32, plan: Plan, options: Options, net: Network,
    u: Upload, index: nat)
    requires index <= |plan.digests| == |plan.sizes| && u.stop != Some(Completed(TransferVerified))
    ensures UploadFrom(hash, source, chunkSize, plan, options, net, u, index).stop != Some(Completed(TransferVerified))
    decreases |plan.digests| - index
  {
    if index < |plan.digests| && u.stop.None? {
      UploadNeverVerifies(hash, source, chunkSize, plan, options, net,
                          UploadOne(hash, source, chunkSize, plan, options, net, u, index), index + 1);
    }
  }

  /** Without corruption the Server's held chunks, put together, are the source itself: no
      assumption on the hash function is needed. */
  lemma VerifiedIsTheSource(
    hash: seq<byte> -> Digest, bytes: seq<byte>, chunkSize: u32, options: Options, net: Network, before: Store)
    requires chunkSize > 0 && bytes != [] && options.corruptChunk.None?
    requires Faithful(hash, InMemory(bytes), chunkSize, true, before)
    requires RunTrace(hash, InMemory(bytes), chunkSize, options, net, before).outcome == Ok(Completed(TransferVerified))
    ensures var after := RunTrace(hash, InMemory(bytes), chunkSize, options, net, before).after;
            var n := ChunkCount(|bytes|, chunkSize);
            && (forall i :: i in after.held <==> 0 <= i < n)
            && Concatenation(after.stored, n) == bytes
  {
    var source := InMemory(bytes);
    InMemoryIsFaithful(bytes, chunkSize);
    RunsAgree(hash, source, chunkSize, options, net, true, before);
    VerifiedRun(hash, source, chunkSize, options, net, before);
    VerifiedStore(hash, source, chunkSize, RunTrace(hash, source, chunkSize, options, net, before).after);
  }

  lemma VerifiedStore(hash: seq<byte> -> Digest, source: Source, chunkSize: u32, s: Store)
    requires chunkSize > 0 && Faithful(hash, source, chunkSize, true, s) && s.artifact.Verified?
    ensures forall i :: i in s.held <==> 0 <= i < ChunkCount(source.len, chunkSize)
    ensures Concatenation(s.stored, ChunkCount(source.len, chunkSize)) == Whole(source, chunkSize)
  {
    VerifiedMeans(hash, s);
    StoredContents(hash, source, chunkSize, s, ChunkCount(source.len, chunkSize));
  }

  /** With corruption allowed the same holds of every source that has no second preimage. */
  lemma VerifiedUnlessCollision(
    hash: seq<byte> -> Digest, bytes: seq<byte>, chunkSize: u32, options: Options, net: Network, before: Store)
    requires chunkSize > 0 && bytes != []
    requires forall other :: hash(other) == hash(bytes) ==> other == bytes
    requires RunTrace(hash, InMemory(bytes), chunkSize, options, net, before).outcome == Ok(Completed(TransferVerified))
    ensures var after := RunTrace(hash, InMemory(bytes), chunkSize, options, net, before).after;
            Concatenation(after.stored, ChunkCount(|bytes|, chunkSize)) == bytes
  {
    InMemoryIsFaithful(bytes, chunkSize);
    VerifiedRun(hash, InMemory(bytes), chunkSize, options, net, before);
  }

  /** What a run reports, given what was held at its start. */
  ghost predicate ReportsWell(t: Trace, source: Source, sizes: seq<nat>, first: set<nat>) {
    && Reports(t.progress, t.seen, sizes)
    && (t.progress != [] ==> t.seen[0] == first && t.seen[|t.seen| - 1] <= t.after.held)
    && (forall j :: 0 <= j < |t.progress| ==>
          (t.progress[j] == source.len <==> forall i: nat :: i < |sizes| ==> i in t.seen[j]))
    && (t.outcome.Ok? && t.outcome.value.Suspended? ==>
          && t.outcome.value.heldBytes == (if t.progress == [] then 0 else t.progress[|t.progress| - 1])
          && (t.outcome.value.reason.InterruptionHookFired? ==> first < t.after.held && |t.after.held| < |sizes|))
  }

  /** Every progress report of a run is the size of the chunks held at that point; reports
      only grow, reach the source length exactly when everything is held, and a suspended
      run reports the last of them. An interruption hook fires only after a new chunk and
      before the last one. */
  lemma ProgressIsHeld(
    hash: seq<byte> -> Digest, source: Source, chunkSize: u32, options: Options, net: Network, honest: bool,
    before: Store)
    requires chunkSize > 0 && source.len > 0 && WellSized(source, chunkSize)
    requires Faithful(hash, source, chunkSize, honest, before)
    ensures ReportsWell(RunTrace(hash, source, chunkSize, options, net, before), source,
                        PlanOf(hash, source, chunkSize).sizes, before.held)
  {
    var s := Arrival(before, net(ResumeRequest));
    ArrivalFaithful(hash, source, chunkSize, honest, before, net(ResumeRequest));
    ResumeAgrees(hash, source, chunkSize, honest, s);
    HeldInRange(hash, source, chunkSize, honest, s);
    RunIs(hash, source, chunkSize, options, net, before);
    ContinuedProgress(hash, source, chunkSize, options, net, s);
  }

  lemma ContinuedProgress(
    hash: seq<byte> -> Digest, source: Source, chunkSize: u32, options: Options, net: Network, s: Store)
    requires chunkSize > 0 && Resumed(source, chunkSize, s)
    ensures ReportsWell(Continued(hash, source, chunkSize, options, net, s, s.held), source,
                        PlanOf(hash, source, chunkSize).sizes, s.held)
  {
    var plan := PlanOf(hash, source, chunkSize);
    var start := StartUpload(s, s.held, HeldBytes(plan.sizes, s.held, |plan.sizes|));
    StartTracks(hash, source, chunkSize, s);
    UploadTracks(hash, source, chunkSize, plan, options, net, start, 0, s.held);
    UploadSeesFirst(hash, source, chunkSize, plan, options, net, start, 0);
    var u := UploadFrom(hash, source, chunkSize, plan, options, net, start, 0);
    SealOverExtends(hash, u.store, net(SealRequest), |plan.sizes|, plan.artifactDigest);
    forall j | 0 <= j < |u.progress|
      ensures u.progress[j] == source.len <==> forall i: nat :: i < |plan.sizes| ==> i in u.seen[j]
    {
      CompleteIff(source, chunkSize, plan.sizes, u.seen[j]);
    }
  }

  lemma {:induction false} UploadSeesFirst(
    hash: seq<byte> -> Digest, source: Source, chunkSize: u32, plan: Plan, options: Options, net: Network,
    u: Upload, index: nat)
    requires index <= |plan.digests| == |plan.sizes| && u.seen != []
    ensures var end := UploadFrom(hash, source, chunkSize, plan, options, net, u, index);
            end.seen != [] && end.seen[0] == u.seen[0]
    decreases |plan.digests| - index
  {
    if index < |plan.digests| && u.stop.None? {
      UploadSeesFirst(hash, source, chunkSize, plan, options, net,
                      UploadOne(hash, source, chunkSize, plan, options, net, u, index), index + 1);
    }
  }

  /** Once the Artifact is final nothing can be learned about it any more: every later run
      changes nothing and ends without a result, even if the reply to the verifying seal
      was lost. */
  lemma FinalArtifactIsSilent(
    hash: seq<byte> -> Digest, source: Source, chunkSize: u32, options: Options, net: Network, before: Store)
    requires chunkSize > 0 && source.len > 0 && TerminalArtifact(before.artifact)
    ensures var t := RunTrace(hash, source, chunkSize, options, net, before);
            && t.after == before
            && (t.outcome == Ok(Suspended(AuthorizationUnavailable, 0))
                || t.outcome == Ok(Suspended(DataPlaneUnreachable, 0))
                || (t.outcome == Ok(Completed(TransferAbandoned)) && net(ResumeRequest).fate.Garbled?))
            && (net(ResumeRequest) == CLEAR ==> t.outcome == Ok(Suspended(AuthorizationUnavailable, 0)))
  {
    DiscoveryDenied(before, net(ResumeRequest));
  }

  lemma DiscoveryDenied(s: Store, e: Event)
    requires TerminalArtifact(s.artifact)
    ensures ResumeOver(s, e).0 == s
    ensures ResumeOver(s, e).1.Answer? ==> ResumeOver(s, e).1.answer.None?
  {
  }

  /** On a clear connection a run is verified exactly when the Artifact is not final and its
      chunks can be counted in 32 bits; otherwise it suspends, and every retry does too. */
  lemma ClearRunVerifies(hash: seq<byte> -> Digest, source: Source, chunkSize: u32, net: Network, before: Store)
    requires chunkSize > 0 && source.len > 0 && WellSized(source, chunkSize) && Clear(net)
    requires Faithful(hash, source, chunkSize, true, before)
    ensures var t := RunTrace(hash, source, chunkSize, Options(None, None), net, before);
            && (t.outcome == Ok(Completed(TransferVerified)) <==>
                !TerminalArtifact(before.artifact) && ChunkCount(source.len, chunkSize) < 0x1_0000_0000)
            && (t.outcome != Ok(Completed(TransferVerified)) ==>
                  && t.outcome.Ok? && t.outcome.value.Suspended?
                  && t.outcome.value.reason.AuthorizationUnavailable?
                  && (TerminalArtifact(t.after.artifact) <==> TerminalArtifact(before.artifact)))
  {
    if TerminalArtifact(before.artifact) {
      FinalArtifactIsSilent(hash, source, chunkSize, Options(None, None), net, before);
    } else {
      assert net(ResumeRequest) == CLEAR;
      PastDiscovery(hash, source, chunkSize, net, before);
      ContinuedClear(hash, source, chunkSize, net, before);
    }
  }

  lemma PastDiscovery(hash: seq<byte> -> Digest, source: Source, chunkSize: u32, net: Network, before: Store)
    requires chunkSize > 0 && source.len > 0 && WellSized(source, chunkSize) && net(ResumeRequest) == CLEAR
    requires Faithful(hash, source, chunkSize, true, before) && !TerminalArtifact(before.artifact)
    ensures RunTrace(hash, source, chunkSize, Options(None, None), net, before) ==
            Continued(hash, source, chunkSize, Options(None, None), net, before, before.held)
    ensures Resumed(source, chunkSize, before)
  {
    ResumeAgrees(hash, source, chunkSize, true, before);
    RunIs(hash, source, chunkSize, Options(None, None), net, before);
    HeldInRange(hash, source, chunkSize, true, before);
  }

  lemma ContinuedClear(hash: seq<byte> -> Digest, source: Source, chunkSize: u32, net: Network, s: Store)
    requires chunkSize > 0 && Resumed(source, chunkSize, s) && Clear(net)
    requires Faithful(hash, source, chunkSize, true, s) && !TerminalArtifact(s.artifact)
    ensures var t := Continued(hash, source, chunkSize, Options(None, None), net, s, s.held);
            && (t.outcome == Ok(Completed(TransferVerified)) <==> ChunkCount(source.len, chunkSize) < 0x1_0000_0000)
            && (t.outcome != Ok(Completed(TransferVerified)) ==>
                  && t.outcome.Ok? && t.outcome.value.Suspended?
                  && t.outcome.value.reason.AuthorizationUnavailable? && !TerminalArtifact(t.after.artifact))
  {
    var plan, options := PlanOf(hash, source, chunkSize), Options(None, None);
    var start := StartUpload(s, s.held, HeldBytes(plan.sizes, s.held, |plan.sizes|));
    UploadsClear(hash, source, chunkSize, net, s);
    var u := UploadFrom(hash, source, chunkSize, plan, options, net, start, 0);
    if u.stop.None? {
      assert net(SealRequest) == CLEAR;
      SealOverFaithful(hash, source, chunkSize, true, u.store, CLEAR);
      if |plan.sizes| >= 0x1_0000_0000 {
        SealDeniedKeeps(hash, u.store, |plan.sizes|, plan.artifactDigest);
      }
    }
  }

  /** Every request of the run is answered but the last: the reply to the seal is lost. */
  ghost predicate OnlySealReplyLost(net: Network) {
    && net(ResumeRequest) == CLEAR && ClearUploads(net) && net(SealRequest) == Event(false, ReplyLost)
  }

  /** The run that loses the reply to its verifying seal: the Server has verified the
      Artifact, and the run suspends with everything held. */
  lemma LostSealReply(hash: seq<byte> -> Digest, source: Source, chunkSize: u32, net: Network, before: Store)
    requires chunkSize > 0 && source.len > 0 && WellSized(source, chunkSize) && OnlySealReplyLost(net)
    requires Faithful(hash, source, chunkSize, true, before) && !TerminalArtifact(before.artifact)
    requires ChunkCount(source.len, chunkSize) < 0x1_0000_0000
    ensures var t := RunTrace(hash, source, chunkSize, Options(None, None), net, before);
            && t.outcome == Ok(Suspended(DataPlaneUnreachable, source.len))
            && t.after.artifact.Verified?
  {
    PastDiscovery(hash, source, chunkSize, net, before);
    UploadsClear(hash, source, chunkSize, net, before);
    UploadsReport(hash, source, chunkSize, Options(None, None), net, before);
    var plan := PlanOf(hash, source, chunkSize);
    var start := StartUpload(before, before.held, HeldBytes(plan.sizes, before.held, |plan.sizes|));
    var u := UploadFrom(hash, source, chunkSize, plan, Options(None, None), net, start, 0);
    SealReplyLost(hash, source, chunkSize, u.store);
  }

  lemma UploadsReport(
    hash: seq<byte> -> Digest, source: Source, chunkSize: u32, options: Options, net: Network, s: Store)
    requires chunkSize > 0 && Resumed(source, chunkSize, s)
    ensures var plan := PlanOf(hash, source, chunkSize);
            var start := StartUpload(s, s.held, HeldBytes(plan.sizes, s.held, |plan.sizes|));
            var u := UploadFrom(hash, source, chunkSize, plan, options, net, start, 0);
            u.stop.None? ==> u.heldBytes == source.len
  {
    var plan := PlanOf(hash, source, chunkSize);
    var start := StartUpload(s, s.held, HeldBytes(plan.sizes, s.held, |plan.sizes|));
    StartTracks(hash, source, chunkSize, s);
    UploadTracks(hash, source, chunkSize, plan, options, net, start, 0, s.held);
    CompleteIff(source, chunkSize, plan.sizes,
                UploadFrom(hash, source, chunkSize, plan, options, net, start, 0).held);
  }

  lemma SealReplyLost(hash: seq<byte> -> Digest, source: Source, chunkSize: u32, s: Store)
    requires chunkSize > 0 && source.len > 0 && WellSized(source, chunkSize)
    requires Faithful(hash, source, chunkSize, true, s) && !TerminalArtifact(s.artifact)
    requires forall i: nat :: i < ChunkCount(source.len, chunkSize) ==> i in s.held
    requires ChunkCount(source.len, chunkSize) < 0x1_0000_0000
    ensures var (after, reply) := SealOver(hash, s, Event(false, ReplyLost), ChunkCount(source.len, chunkSize),
                                           hash(Whole(source, chunkSize)));
            reply.Unreachable? && after.artifact.Verified?
  {
    SealFaithful(hash, source, chunkSize, true, s);
    SealKeeps(hash, s, ChunkCount(source.len, chunkSize), hash(Whole(source, chunkSize)));
  }

  lemma UploadsClear(hash: seq<byte> -> Digest, source: Source, chunkSize: u32, net: Network, s: Store)
    requires chunkSize > 0 && Resumed(source, chunkSize, s) && ClearUploads(net)
    requires Faithful(hash, source, chunkSize, true, s) && !TerminalArtifact(s.artifact)
    ensures var plan := PlanOf(hash, source, chunkSize);
            var start := StartUpload(s, s.held, HeldBytes(plan.sizes, s.held, |plan.sizes|));
            var u := UploadFrom(hash, source, chunkSize, plan, Options(None, None), net, start, 0);
            && !TerminalArtifact(u.store.artifact) && Faithful(hash, source, chunkSize, true, u.store)
            && (u.stop.None? <==> |plan.sizes| <= 0x1_0000_0000)
            && (u.stop.None? ==> forall i: nat :: i < |plan.sizes| ==> i in u.store.held)
            && (u.stop.Some? ==> u.stop.value.Suspended? && u.stop.value.reason.AuthorizationUnavailable?)
  {
    var plan, options := PlanOf(hash, source, chunkSize), Options(None, None);
    var start := StartUpload(s, s.held, HeldBytes(plan.sizes, s.held, |plan.sizes|));
    StartTracks(hash, source, chunkSize, s);
    UploadFaithful(hash, source, chunkSize, options, net, true, start, 0);
    UploadTracks(hash, source, chunkSize, plan, options, net, start, 0, s.held);
    if s.artifact.PendingVerification? {
      PendingHoldsAll(hash, source, chunkSize, s);
      UploadIdle(hash, source, chunkSize, plan, options, net, start, 0);
    } else {
      UploadClear(hash, source, chunkSize, net, start, 0);
    }
  }

  lemma SealDeniedKeeps(hash: seq<byte> -> Digest, s: Store, chunkCount: nat, digest: Digest)
    requires chunkCount >= 0x1_0000_0000
    ensures SealOver(hash, s, CLEAR, chunkCount, digest) == (s, Answer(SealDenied))
  {
  }

  lemma PendingHoldsAll(hash: seq<byte> -> Digest, source: Source, chunkSize: u32, s: Store)
    requires chunkSize > 0 && Faithful(hash, source, chunkSize, true, s) && s.artifact.PendingVerification?
    ensures forall i: nat :: i < ChunkCount(source.len, chunkSize) ==> i in s.held
    ensures ChunkCount(source.len, chunkSize) < 0x1_0000_0000
  {
  }

  /** A source that no longer reproduces a held chunk fails closed and changes nothing. */
  lemma MutationIsCaught(
    hash: seq<byte> -> Digest, source: Source, mutated: Source, chunkSize: u32, options: Options, net: Network,
    honest: bool, before: Store, i: u32)
    requires chunkSize > 0 && source.len > 0 && mutated.len == source.len && WellSized(mutated, chunkSize)
    requires Faithful(hash, source, chunkSize, honest, before) && !TerminalArtifact(before.artifact)
    requires i in before.held && hash(mutated.chunkAt(i, chunkSize)) != hash(source.chunkAt(i, chunkSize))
    requires net(ResumeRequest) == CLEAR
    ensures var t := RunTrace(hash, mutated, chunkSize, options, net, before);
            t.outcome == Ok(Completed(ChunkVerificationFailed)) && t.after == before
  {
    ResumeAgrees(hash, source, chunkSize, honest, before);
    var reported := ResumeState(before).value.held;
    assert i in reported && reported[i] == hash(source.chunkAt(i, chunkSize));
    assert PlanOf(hash, mutated, chunkSize).digests[i] == hash(mutated.chunkAt(i, chunkSize));
    assert !Reconciled(reported, PlanOf(hash, mutated, chunkSize));
  }

  // ---------------------------------------------------------------------
  // Suspended and resumed runs
  // ---------------------------------------------------------------------

  datatype Session = Session(options: Options, net: Network)

  /** The runs of a transfer one after the other, each from what the last one left. */
  ghost function Sessions(
    hash: seq<byte> -> Digest, source: Source, chunkSize: u32, sessions: seq<Session>, s: Store): (traces: seq<Trace>)
    requires chunkSize > 0
    ensures |traces| == |sessions|
  {
    if sessions == [] then [] else
    var t := RunTrace(hash, source, chunkSize, sessions[0].options, sessions[0].net, s);
    [t] + Sessions(hash, source, chunkSize, sessions[1..], t.after)
  }

  /** Once the Artifact is final no later run, on any network and with any options, reports a
      verified transfer or changes anything. Each suspends, or takes a garbled reply to
      discovery for an abandoned transfer. */
  lemma {:induction false} FinalForever(
    hash: seq<byte> -> Digest, source: Source, chunkSize: u32, sessions: seq<Session>, s: Store)
    requires chunkSize > 0 && source.len > 0 && TerminalArtifact(s.artifact)
    ensures var traces := Sessions(hash, source, chunkSize, sessions, s);
            forall i :: 0 <= i < |traces| ==>
              && traces[i].after == s && traces[i].outcome.Ok?
              && (traces[i].outcome.value.Suspended?
                  || (&& traces[i].outcome.value == Completed(TransferAbandoned)
                      && sessions[i].net(ResumeRequest).fate.Garbled?))
  {
    if sessions != [] {
      FinalArtifactIsSilent(hash, source, chunkSize, sessions[0].options, sessions[0].net, s);
      FinalForever(hash, source, chunkSize, sessions[1..], s);
    }
  }

  /** A transfer whose verifying seal lost its reply is stranded: the Server has verified the
      Artifact, and no run will ever report it. */
  lemma LostReplyStrands(
    hash: seq<byte> -> Digest, source: Source, chunkSize: u32, net: Network, later: seq<Session>, before: Store)
    requires chunkSize > 0 && source.len > 0 && WellSized(source, chunkSize) && OnlySealReplyLost(net)
    requires Faithful(hash, source, chunkSize, true, before) && !TerminalArtifact(before.artifact)
    requires ChunkCount(source.len, chunkSize) < 0x1_0000_0000
    ensures var traces := Sessions(hash, source, chunkSize, [Session(Options(None, None), net)] + later, before);
            && traces[0].outcome == Ok(Suspended(DataPlaneUnreachable, source.len))
            && traces[0].after.artifact.Verified?
            && forall i :: 0 <= i < |traces| ==>
                 && traces[i].outcome.Ok? && traces[i].outcome.value != Completed(TransferVerified)
                 && traces[i].after == traces[0].after
  {
    LostSealReply(hash, source, chunkSize, net, before);
    var t := RunTrace(hash, source, chunkSize, Options(None, None), net, before);
    FinalForever(hash, source, chunkSize, later, t.after);
    assert ([Session(Options(None, None), net)] + later)[1..] == later;
  }

  predicate Interrupted(t: Trace) {
    t.outcome.Ok? && t.outcome.value.Suspended? && t.outcome.value.reason.InterruptionHookFired?
  }

  function Interruptions(traces: seq<Trace>): nat {
    if traces == [] then 0 else (if Interrupted(traces[0]) then 1 else 0) + Interruptions(traces[1..])
  }

  lemma Smaller<T>(a: set<T>, b: set<T>)
    requires a <= b
    ensures |a| <= |b| && (a < b ==> |a| < |b|)
  {
    assert b == a + (b - a);
  }

  /** Every run of a transfer agrees with its source, and every interrupted run brings it at
      least one chunk closer to its end, whatever is corrupted. An uncorrupted run fails no
      chunk, and a transfer without any corruption does not fail its Artifact either. */
  lemma {:induction false} SessionsAgree(
    hash: seq<byte> -> Digest, source: Source, chunkSize: u32, honest: bool, sessions: seq<Session>, s: Store)
    requires chunkSize > 0 && source.len > 0 && WellSized(source, chunkSize)
    requires Faithful(hash, source, chunkSize, honest, s)
    requires honest ==> forall x :: x in sessions ==> x.options.corruptChunk.None?
    ensures var traces := Sessions(hash, source, chunkSize, sessions, s);
            && (forall i :: 0 <= i < |traces| ==>
                  && traces[i].outcome.Ok? && Faithful(hash, source, chunkSize, honest, traces[i].after)
                  && (sessions[i].options.corruptChunk.None? ==>
                        traces[i].outcome.value != Completed(ChunkVerificationFailed))
                  && (honest ==> traces[i].outcome.value != Completed(ArtifactVerificationFailed)))
            && (Interruptions(traces) > 0 ==>
                  |s.held| + Interruptions(traces) < ChunkCount(source.len, chunkSize))
  {
    if sessions != [] {
      var options, net := sessions[0].options, sessions[0].net;
      assert sessions[0] in sessions;
      var t := RunTrace(hash, source, chunkSize, options, net, s);
      RunsAgree(hash, source, chunkSize, options, net, honest, s);
      RunNeverRewrites(hash, source, chunkSize, options, net, s);
      ProgressIsHeld(hash, source, chunkSize, options, net, honest, s);
      Smaller(s.held, t.after.held);
      SessionsAgree(hash, source, chunkSize, honest, sessions[1..], t.after);
      var rest := Sessions(hash, source, chunkSize, sessions[1..], t.after);
      assert ([t] + rest)[1..] == rest;
    }
  }

  function NewStore(artifactId: Uuid, chunkSize: u32): Store {
    Store(New(artifactId, chunkSize), Incomplete, {}, map[])
  }

  ghost predicate Uncorrupted(sessions: seq<Session>) {
    forall x :: x in sessions ==> x.options.corruptChunk.None?
  }

  /** From a new transfer of any bytes in chunks of any size, any sequence of runs over any
      network is interrupted by its hook at most chunk_count - 1 times. Without corruption
      it never fails verification, and whenever the Artifact is Verified the Server holds
      the bytes. */
  lemma TransferDelivers(
    hash: seq<byte> -> Digest, bytes: seq<byte>, chunkSize: u32, sessions: seq<Session>, artifactId: Uuid)
    requires chunkSize > 0 && bytes != []
    ensures var traces := Sessions(hash, InMemory(bytes), chunkSize, sessions, NewStore(artifactId, chunkSize));
            && Interruptions(traces) <= ChunkCount(|bytes|, chunkSize) - 1
            && (forall t :: t in traces ==> t.outcome.Ok?)
            && (Uncorrupted(sessions) ==>
                  forall t :: t in traces ==>
                    && t.outcome.value != Completed(ChunkVerificationFailed)
                    && t.outcome.value != Completed(ArtifactVerificationFailed)
                    && (t.after.artifact.Verified? ==>
                          Concatenation(t.after.stored, ChunkCount(|bytes|, chunkSize)) == bytes))
  {
    var source := InMemory(bytes);
    InMemoryIsFaithful(bytes, chunkSize);
    ChunkCountBounds(|bytes|, chunkSize);
    var honest := Uncorrupted(sessions);
    SessionsAgree(hash, source, chunkSize, honest, sessions, NewStore(artifactId, chunkSize));
    var traces := Sessions(hash, source, chunkSize, sessions, NewStore(artifactId, chunkSize));
    forall t | t in traces && honest && t.after.artifact.Verified?
      ensures Concatenation(t.after.stored, ChunkCount(|bytes|, chunkSize)) == bytes
    {
      VerifiedStore(hash, source, chunkSize, t.after);
    }
  }

  // ---------------------------------------------------------------------
  // Runs of any sources
  // ---------------------------------------------------------------------

  /** A run whose source and parameters owe nothing to the other runs. */
  datatype AnySession = AnySession(source: Source, chunkSize: u32, options: Options, net: Network)

  ghost function AfterSessions(hash: seq<byte> -> Digest, sessions: seq<AnySession>, s: Store): Store
    requires forall x :: x in sessions ==> x.chunkSize > 0
    decreases |sessions|
  {
    if sessions == [] then s else
    var x := sessions[0];
    AfterSessions(hash, sessions[1..], RunTrace(hash, x.source, x.chunkSize, x.options, x.net, s).after)
  }

  lemma {:induction false} SessionsKeep(hash: seq<byte> -> Digest, sessions: seq<AnySession>, s: Store)
    requires forall x :: x in sessions ==> x.chunkSize > 0
    ensures Extends(s, AfterSessions(hash, sessions, s))
    ensures Consistent(hash, s) ==> Consistent(hash, AfterSessions(hash, sessions, s))
    decreases |sessions|
  {
    if sessions != [] {
      var x := sessions[0];
      var next := RunTrace(hash, x.source, x.chunkSize, x.options, x.net, s).after;
      RunNeverRewrites(hash, x.source, x.chunkSize, x.options, x.net, s);
      SessionsKeep(hash, sessions[1..], next);
      ExtendsTransitive(s, next, AfterSessions(hash, sessions, s));
    }
  }

  /** Whatever runs a transfer saw, with whatever sources, corruption and networks: if its
      Artifact is Verified, the manifest is sealed over exactly 0..chunk_count, every index is
      held with bytes of its recorded digest, and together they hash to the sealed digest. */
  lemma VerifiedInEveryHistory(
    hash: seq<byte> -> Digest, artifactId: Uuid, chunkSize: u32, sessions: seq<AnySession>)
    requires forall x :: x in sessions ==> x.chunkSize > 0
    requires AfterSessions(hash, sessions, NewStore(artifactId, chunkSize)).artifact.Verified?
    ensures var s := AfterSessions(hash, sessions, NewStore(artifactId, chunkSize));
            && s.manifest.sealed && s.manifest.chunkCount.Some? && s.manifest.artifactDigest.Some?
            && s.held == s.manifest.chunks.Keys == Below(s.manifest.chunkCount.value)
            && (forall i: u32 :: i < s.manifest.chunkCount.value ==>
                  i in s.stored && ValidateVerified(s.manifest, i, hash(s.stored[i])).Ok?)
            && hash(Concatenation(s.stored, s.manifest.chunkCount.value)) == s.manifest.artifactDigest.value
  {
    SessionsKeep(hash, sessions, NewStore(artifactId, chunkSize));
    VerifiedMeans(hash, AfterSessions(hash, sessions, NewStore(artifactId, chunkSize)));
  }
}
