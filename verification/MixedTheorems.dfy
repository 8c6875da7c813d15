/** What holds of a mixed Job in every run. */
module MixedTheorems {
  import opened Workflow
  import opened Evidence
  import opened Bytes
  import opened ActionAgent
  import opened Protocol
  import opened ServerInvariant
  import opened SystemInvariant
  import opened ProtocolTheorems
  import opened DataPlane
  import opened Delivery
  import opened TransferSource
  import opened TransferAgent
  import opened TransferTheorems
  import opened MixedJob
  import opened MixedInvariant

  lemma MixedReached(hash: seq<byte> -> Digest, m: Mixed, run: seq<MixedStep>)
    requires MixedInitial(m) && ValidMixedRun(hash, m, run)
    ensures MixedInv(hash, MixedExec(hash, m, run))
  {
    MixedInitialHolds(hash, m);
    MixedRunKeeps(hash, m, run);
  }

  /** The workflow keeps its shape, whatever its steps are. */
  lemma MixedShape(hash: seq<byte> -> Digest, m: Mixed, run: seq<MixedStep>)
    requires MixedInitial(m) && ValidMixedRun(hash, m, run)
    ensures Shaped(MixedExec(hash, m, run).sys.server)
  {
    MixedReached(hash, m, run);
    ShapeNow(hash, MixedExec(hash, m, run));
  }

  lemma ShapeNow(hash: seq<byte> -> Digest, m: Mixed)
    requires MixedInv(hash, m)
    ensures Shaped(m.sys.server)
  {
    ShapeHolds(m.sys.server);
  }

  /** The bytes a Transfer's store holds. */
  ghost function Received(m: Mixed, t: Uuid): seq<byte>
    requires t in m.sys.server.transfers && t in m.stores && t in m.sources
    requires 0 < m.sys.server.transfers[t].chunkSize < 0x1_0000_0000
  {
    Concatenation(m.stores[t].stored, ChunkCount(|m.sources[t]|, m.sys.server.transfers[t].chunkSize))
  }

  /** A transfer Attempt that ended by evidence matches its Artifact and a result the Agent
      sent: it succeeds only with the bytes of its source, and fails only for good. It is
      never rejected or cancelled, for the transfer participant does neither. */
  ghost predicate Delivers(m: Mixed, k: nat, t: Uuid)
    requires Owner(m.sys.server, k, t)
  {
    var attempt := m.sys.server.attempts[k];
    && t in m.stores && t in m.sources && 0 < m.sys.server.transfers[t].chunkSize < 0x1_0000_0000
    && (attempt.state.AttemptSucceeded? ==>
          && ResultMessage(attempt.actionId, TransferVerified) in m.sys.net
          && m.stores[t].artifact.Verified? && Received(m, t) == m.sources[t])
    && (attempt.state.AttemptFailed? ==>
          && !m.stores[t].artifact.Incomplete?
          && exists result: TransferResult ::
               !result.TransferVerified? && ResultMessage(attempt.actionId, result) in m.sys.net)
    && !attempt.state.AttemptCancelled? && !attempt.state.Rejected?
  }

  lemma SimulatedNow(m: Mixed, k: nat)
    requires Sized(m.sys.server) && AllSimulated(m) && k < |m.sys.server.attempts|
    requires !IsTransfer(m.sys.server.payloads[k])
    ensures var attempt := m.sys.server.attempts[k];
            Matches(attempt.state, Record(m.sys.agent, attempt.actionId), m.sys.executed[attempt.actionId])
  {
    assert SimulatedLinked(m, k);
  }

  lemma SourceBytes(hash: seq<byte> -> Digest, bytes: seq<byte>, chunkSize: u32, s: Store)
    requires chunkSize > 0 && Faithful(hash, InMemory(bytes), chunkSize, true, s) && s.artifact.Verified?
    ensures Concatenation(s.stored, ChunkCount(|bytes|, chunkSize)) == bytes
  {
    if bytes == [] {
      NoChunks(chunkSize);
    } else {
      InMemoryIsFaithful(bytes, chunkSize);
      VerifiedStore(hash, InMemory(bytes), chunkSize, s);
    }
  }

  lemma NoChunks(chunkSize: u32)
    requires chunkSize > 0
    ensures ChunkCount(0, chunkSize) == 0
  {
  }

  lemma VerifiedBytes(hash: seq<byte> -> Digest, m: Mixed, t: Uuid)
    requires t in m.sys.server.transfers && Stored(hash, m, t) && m.stores[t].artifact.Verified?
    ensures Received(m, t) == m.sources[t]
  {
    SourceBytes(hash, m.sources[t], m.sys.server.transfers[t].chunkSize, m.stores[t]);
  }

  lemma TransferNow(hash: seq<byte> -> Digest, m: Mixed, k: nat, t: Uuid)
    requires Parts(hash, m) && Owner(m.sys.server, k, t)
    ensures Delivers(m, k, t)
  {
    assert TransferLinked(hash, m, k, t) && Stored(hash, m, t);
    if m.sys.server.attempts[k].state.AttemptSucceeded? {
      VerifiedBytes(hash, m, t);
    }
  }

  /** In every run of a mixed Job and however it goes on, every Attempt agrees with the Agent:
      a destructive one with its record, a transfer with its Artifact and its bytes. */
  lemma MixedAgreement(hash: seq<byte> -> Digest, m: Mixed, run: seq<MixedStep>, more: seq<MixedStep>, k: nat)
    requires MixedInitial(m) && ValidMixedRun(hash, m, run)
    requires ValidMixedRun(hash, MixedExec(hash, m, run), more)
    requires k < |MixedExec(hash, m, run).sys.server.attempts|
    ensures var attempt := MixedExec(hash, m, run).sys.server.attempts[k];
            var later := MixedExec(hash, MixedExec(hash, m, run), more);
            && |later.sys.server.attempts| == |later.sys.server.payloads| && k < |later.sys.server.attempts|
            && (!Active(attempt.state) ==> later.sys.server.attempts[k] == attempt)
            && (!IsTransfer(later.sys.server.payloads[k]) ==>
                  Matches(later.sys.server.attempts[k].state, Record(later.sys.agent, attempt.actionId),
                          later.sys.executed[attempt.actionId]))
            && (IsTransfer(later.sys.server.payloads[k]) ==>
                  exists t :: Owner(later.sys.server, k, t) && Delivers(later, k, t))
  {
    var now := MixedExec(hash, m, run);
    MixedReached(hash, m, run);
    MixedRunKeeps(hash, now, more);
    var later := MixedExec(hash, now, more);
    assert SameAttempt(now.sys.server.attempts[k], later.sys.server.attempts[k]);
    AgreesLater(hash, later, k);
  }

  lemma AgreesLater(hash: seq<byte> -> Digest, m: Mixed, k: nat)
    requires MixedInv(hash, m) && k < |m.sys.server.attempts|
    ensures var attempt := m.sys.server.attempts[k];
            && (!IsTransfer(m.sys.server.payloads[k]) ==>
                  Matches(attempt.state, Record(m.sys.agent, attempt.actionId), m.sys.executed[attempt.actionId]))
            && (IsTransfer(m.sys.server.payloads[k]) ==> exists t :: Owner(m.sys.server, k, t) && Delivers(m, k, t))
  {
    KindOf(m.sys.server, k);
    if IsTransfer(m.sys.server.payloads[k]) {
      TransferNow(hash, m, k, TransferOf(m.sys.server, k).value);
    } else {
      SimulatedNow(m, k);
    }
  }

  /** A Job that succeeds has done all of it: every step has its Attempt, every destructive
      action ran exactly once and succeeded, and every transfer's bytes are with the Server. */
  lemma SucceededMeansDone(hash: seq<byte> -> Digest, m: Mixed, run: seq<MixedStep>)
    requires MixedInitial(m) && ValidMixedRun(hash, m, run)
    requires MixedExec(hash, m, run).sys.server.job.state.Succeeded?
    ensures var e := MixedExec(hash, m, run);
            && |e.sys.server.attempts| == |e.sys.server.payloads| == |e.sys.server.job.steps|
            && forall k :: 0 <= k < |e.sys.server.attempts| ==>
                 var a := e.sys.server.attempts[k].actionId;
                 if IsTransfer(e.sys.server.payloads[k]) then
                   exists t :: && Owner(e.sys.server, k, t) && Delivers(e, k, t)
                               && e.stores[t].artifact.Verified? && Received(e, t) == e.sources[t]
                 else SystemInvariant.Completed(Record(e.sys.agent, a), OutcomeSucceeded) && e.sys.executed[a] == 1
  {
    var e := MixedExec(hash, m, run);
    MixedReached(hash, m, run);
    forall k | 0 <= k < |e.sys.server.attempts|
      ensures e.sys.server.attempts[k].state.AttemptSucceeded?
      ensures !IsTransfer(e.sys.server.payloads[k]) ==>
                Matches(AttemptSucceeded, Record(e.sys.agent, e.sys.server.attempts[k].actionId),
                        e.sys.executed[e.sys.server.attempts[k].actionId])
      ensures IsTransfer(e.sys.server.payloads[k]) ==> exists t :: Owner(e.sys.server, k, t) && Delivers(e, k, t)
    {
      AllSucceeded(e.sys.server);
      AgreesLater(hash, e, k);
    }
  }

  lemma AllSucceeded(s: Server)
    requires ServerInv(s) && s.job.state.Succeeded?
    ensures |s.attempts| == |s.job.steps|
    ensures forall k :: 0 <= k < |s.attempts| ==> s.attempts[k].state.AttemptSucceeded?
  {
  }
}
