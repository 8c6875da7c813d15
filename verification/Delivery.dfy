/** One data-plane request over an unreliable connection: what it leaves in the store and
    what the Agent learns. */
module Delivery {
  import opened Workflow
  import opened Bytes
  import opened ChunkManifest
  import opened DataPlane
  import opened TransferSource

  datatype Request = ResumeRequest | PutRequest(index: nat) | SealRequest

  /** The fates of a request. Halfway, the Worker stops after its first durable effect;
      overtaken, the Attempt ends between authorization and commit. */
  datatype Fate = Delivered | Lost | Halfway | HalfwayDenied | ReplyLost | Refused | Garbled | Overtaken

  /** The Server may give the Artifact up before any request. */
  datatype Event = Event(abandoned: bool, fate: Fate)

  datatype Reply<+T> = Answer(answer: T) | Unreachable | Nonsense

  function Arrival(s: Store, e: Event): Store {
    if e.abandoned then Abandon(s) else s
  }

  /** The Server's view of the transfer; `held` gives the digest of every held chunk. */
  datatype Resume = Resume(sealed: bool, chunkSize: u32, chunkCount: Option<u32>, held: map<u32, Digest>)

  /** What resume discovery reports: a held chunk without an identity is an internal error. */
  function ResumeState(s: Store): Option<Resume> {
    if !OperationIsCurrent(ResumeDiscovery, s.artifact, s.manifest.sealed, false) then None
    else if !(s.held <= s.manifest.chunks.Keys) then None
    else
      Some(Resume(s.manifest.sealed, s.manifest.chunkSize, s.manifest.chunkCount,
                  map i | i in s.held :: s.manifest.chunks[i].digest))
  }

  function ResumeOver(s: Store, e: Event): (Store, Reply<Option<Resume>>) {
    var s0 := Arrival(s, e);
    (s0, match e.fate
         case Delivered => Answer(ResumeState(s0))
         case Lost => Unreachable
         case Halfway => Unreachable
         case ReplyLost => Unreachable
         case HalfwayDenied => Answer(None)
         case Refused => Answer(None)
         case Overtaken => Answer(None)
         case Garbled => Nonsense)
  }

  function PutOver(hash: seq<byte> -> Digest, s: Store, e: Event, index: nat, declared: Digest, body: seq<byte>)
    : (Store, Reply<PutReply>)
  {
    var s0 := Arrival(s, e);
    var staged := StageChunk(hash, s0, index, declared, body);
    var half := if staged.Ok? then staged.value else s0;
    var (after, reply) := Put(hash, s0, index, declared, body);
    match e.fate
    case Delivered => (after, Answer(reply))
    case Lost => (s0, Unreachable)
    case Halfway => (half, Unreachable)
    case HalfwayDenied => (half, Answer(PutDenied))
    case ReplyLost => (after, Unreachable)
    case Refused => (s0, Answer(PutDenied))
    case Garbled => (after, Nonsense)
    case Overtaken => (half, Answer(if staged.Ok? then PutNotContinuable else staged.error))
  }

  function SealOver(hash: seq<byte> -> Digest, s: Store, e: Event, chunkCount: nat, digest: Digest)
    : (Store, Reply<SealReply>)
  {
    var s0 := Arrival(s, e);
    var begun := BeginSeal(s0, chunkCount, digest);
    var half := if begun.Ok? then begun.value else s0;
    var (after, reply) := SealArtifact(hash, s0, chunkCount, digest);
    match e.fate
    case Delivered => (after, Answer(reply))
    case Lost => (s0, Unreachable)
    case Halfway => (half, Unreachable)
    case HalfwayDenied => (half, Answer(SealDenied))
    case ReplyLost => (after, Unreachable)
    case Refused => (s0, Answer(SealDenied))
    case Garbled => (after, Nonsense)
    case Overtaken => (s0, Answer(SealDenied))
  }

  // ---------------------------------------------------------------------
  // Any request, whatever it carries
  // ---------------------------------------------------------------------

  lemma PutOverExtends(
    hash: seq<byte> -> Digest, s: Store, e: Event, index: nat, declared: Digest, body: seq<byte>)
    ensures var (after, reply) := PutOver(hash, s, e, index, declared, body);
            && Extends(s, after)
            && (Consistent(hash, s) ==> Consistent(hash, after))
            && (reply == Answer(Accepted) ==> index < 0x1_0000_0000 && after.held == s.held + {index})
            && (reply == Answer(AlreadyHeld) ==> index < 0x1_0000_0000 && after.held == s.held && index in s.held)
  {
    var s0 := Arrival(s, e);
    if StageChunk(hash, s0, index, declared, body).Ok? {
      StageKeeps(hash, s0, index, declared, body);
    }
    PutKeeps(hash, s0, index, declared, body);
    ArrivalExtends(hash, s, e, PutOver(hash, s, e, index, declared, body).0);
  }

  lemma HalfSealExtends(hash: seq<byte> -> Digest, s: Store, chunkCount: nat, digest: Digest)
    ensures var begun := BeginSeal(s, chunkCount, digest);
            begun.Ok? ==>
              Extends(s, begun.value) && (Consistent(hash, s) ==> Consistent(hash, begun.value))
  {
    if BeginSeal(s, chunkCount, digest).Ok? {
      BeginSealKeeps(hash, s, chunkCount, digest);
    }
  }

  lemma ArrivalExtends(hash: seq<byte> -> Digest, s: Store, e: Event, after: Store)
    requires Extends(Arrival(s, e), after)
    requires Consistent(hash, Arrival(s, e)) ==> Consistent(hash, after)
    ensures Extends(s, after) && (Consistent(hash, s) ==> Consistent(hash, after))
  {
  }

  /** A seal leaves the store as it arrived, half done or done; only a finished one is answered
      with a result. */
  lemma SealOverCases(hash: seq<byte> -> Digest, s: Store, e: Event, chunkCount: nat, digest: Digest)
    ensures var s0 := Arrival(s, e);
            var (after, reply) := SealOver(hash, s, e, chunkCount, digest);
            var begun := BeginSeal(s0, chunkCount, digest);
            && (|| after == s0 || (begun.Ok? && after == begun.value)
                || after == SealArtifact(hash, s0, chunkCount, digest).0)
            && (reply.Answer? ==>
                  || reply.answer.SealDenied?
                  || (after, reply.answer) == SealArtifact(hash, s0, chunkCount, digest))
            && (e.fate.Delivered? ==>
                  reply.Answer? && (after, reply.answer) == SealArtifact(hash, s0, chunkCount, digest))
            && (reply.Nonsense? ==> e.fate.Garbled?)
  {
  }

  lemma SealOverExtends(hash: seq<byte> -> Digest, s: Store, e: Event, chunkCount: nat, digest: Digest)
    ensures var (after, reply) := SealOver(hash, s, e, chunkCount, digest);
            && Extends(s, after)
            && (Consistent(hash, s) ==> Consistent(hash, after))
            && (reply == Answer(SealedAs(Verified)) ==>
                  after.artifact.Verified? && hash(Concatenation(after.stored, chunkCount)) == digest)
            && (reply == Answer(SealedAs(ArtifactFailed)) ==>
                  after.artifact.ArtifactFailed? && hash(Concatenation(after.stored, chunkCount)) != digest)
            && (reply.Answer? && reply.answer.SealedAs? ==> TerminalArtifact(reply.answer.state))
  {
    SealOverCases(hash, s, e, chunkCount, digest);
    SealOverStore(hash, s, e, chunkCount, digest, SealOver(hash, s, e, chunkCount, digest).0);
    SealKeeps(hash, Arrival(s, e), chunkCount, digest);
  }

  lemma SealOverStore(
    hash: seq<byte> -> Digest, s: Store, e: Event, chunkCount: nat, digest: Digest, after: Store)
    requires var s0 := Arrival(s, e);
             var begun := BeginSeal(s0, chunkCount, digest);
             || after == s0 || (begun.Ok? && after == begun.value)
             || after == SealArtifact(hash, s0, chunkCount, digest).0
    ensures Extends(s, after) && (Consistent(hash, s) ==> Consistent(hash, after))
  {
    var s0 := Arrival(s, e);
    if after == s0 {
      AbandonKeeps(hash, s);
    } else {
      HalfSealExtends(hash, s0, chunkCount, digest);
      SealKeeps(hash, s0, chunkCount, digest);
      ArrivalExtends(hash, s, e, after);
    }
  }

  // ---------------------------------------------------------------------
  // Stores that only ever saw one source
  // ---------------------------------------------------------------------

  /** Every identity and every stored chunk is one of the source's; in an honest store the
      bytes are the source's too, so that no assumption on `hash` is needed. */
  ghost predicate Faithful(hash: seq<byte> -> Digest, source: Source, chunkSize: u32, honest: bool, s: Store)
    requires chunkSize > 0
  {
    && Consistent(hash, s)
    && s.manifest.chunkSize == chunkSize
    && (forall i :: i in s.manifest.chunks ==>
          && i < ChunkCount(source.len, chunkSize)
          && s.manifest.chunks[i].size == |source.chunkAt(i, chunkSize)|
          && s.manifest.chunks[i].digest == hash(source.chunkAt(i, chunkSize)))
    && (forall i :: i in s.stored ==>
          && i < ChunkCount(source.len, chunkSize)
          && |s.stored[i]| == |source.chunkAt(i, chunkSize)|
          && hash(s.stored[i]) == hash(source.chunkAt(i, chunkSize))
          && (honest ==> s.stored[i] == source.chunkAt(i, chunkSize)))
    && (s.manifest.sealed ==>
          && s.manifest.chunkCount == Some(ChunkCount(source.len, chunkSize))
          && s.manifest.artifactDigest == Some(hash(Whole(source, chunkSize))))
  }

  lemma ChunkLength(source: Source, chunkSize: u32, i: nat)
    requires chunkSize > 0 && source.len > 0 && i < ChunkCount(source.len, chunkSize)
    requires WellSizedChunk(source, chunkSize, i)
    ensures 0 < |source.chunkAt(i, chunkSize)| <= chunkSize
  {
  }

  /** The bytes that may travel for a chunk: the true ones, or others of the same length
      where corruption is allowed. */
  ghost predicate MayTravel(source: Source, chunkSize: u32, honest: bool, index: nat, body: seq<byte>)
    requires chunkSize > 0
  {
    && source.len > 0 && index < ChunkCount(source.len, chunkSize) && WellSizedChunk(source, chunkSize, index)
    && |body| == |source.chunkAt(index, chunkSize)| && (honest ==> body == source.chunkAt(index, chunkSize))
  }

  lemma StageFaithful(
    hash: seq<byte> -> Digest, source: Source, chunkSize: u32, honest: bool, s: Store, index: nat, body: seq<byte>)
    requires chunkSize > 0 && Faithful(hash, source, chunkSize, honest, s)
    requires MayTravel(source, chunkSize, honest, index, body)
    ensures var chunk := source.chunkAt(index, chunkSize);
            var staged := StageChunk(hash, s, index, hash(chunk), body);
            && (staged.Ok? ==> Faithful(hash, source, chunkSize, honest, staged.value))
            && (staged.Err? ==> staged.error.PutDenied? || (staged.error.PutDigestMismatch? && body != chunk))
            && (body == chunk ==> (staged.Ok? <==> index < 0x1_0000_0000 && s.artifact.Incomplete?))
  {
  }

  lemma CommitFaithful(
    hash: seq<byte> -> Digest, source: Source, chunkSize: u32, honest: bool, s: Store, index: u32)
    requires chunkSize > 0 && Faithful(hash, source, chunkSize, honest, s)
    requires source.len > 0 && index < ChunkCount(source.len, chunkSize) && WellSizedChunk(source, chunkSize, index)
    requires s.artifact.Incomplete? && index in s.stored
    ensures var chunk := source.chunkAt(index, chunkSize);
            var (after, acceptance) := CommitAcceptance(s, index, hash(chunk), |chunk|);
            && Faithful(hash, source, chunkSize, honest, after)
            && (acceptance.Committed? || acceptance.AlreadyCommitted?)
  {
  }

  /** Uploading a chunk of the source, possibly corrupted on the way, keeps a store faithful,
      and with the true bytes it is accepted or denied, never contradicted. */
  lemma PutFaithful(
    hash: seq<byte> -> Digest, source: Source, chunkSize: u32, honest: bool, s: Store, index: nat, body: seq<byte>)
    requires chunkSize > 0 && Faithful(hash, source, chunkSize, honest, s)
    requires MayTravel(source, chunkSize, honest, index, body)
    ensures var chunk := source.chunkAt(index, chunkSize);
            var (after, reply) := Put(hash, s, index, hash(chunk), body);
            && Faithful(hash, source, chunkSize, honest, after)
            && (reply.Accepted? || reply.AlreadyHeld? || reply.PutDenied? || (reply.PutDigestMismatch? && body != chunk))
            && (body == chunk ==> (reply.PutDenied? <==> index >= 0x1_0000_0000 || !s.artifact.Incomplete?))
  {
    StageFaithful(hash, source, chunkSize, honest, s, index, body);
    var declared := hash(source.chunkAt(index, chunkSize));
    if StageChunk(hash, s, index, declared, body).Ok? {
      StageKeeps(hash, s, index, declared, body);
      CommitFaithful(hash, source, chunkSize, honest, StageChunk(hash, s, index, declared, body).value, index);
    }
  }

  lemma ArrivalFaithful(hash: seq<byte> -> Digest, source: Source, chunkSize: u32, honest: bool, s: Store, e: Event)
    requires chunkSize > 0 && Faithful(hash, source, chunkSize, honest, s)
    ensures Faithful(hash, source, chunkSize, honest, Arrival(s, e))
  {
  }

  /** The same over any connection. */
  lemma PutOverFaithful(
    hash: seq<byte> -> Digest, source: Source, chunkSize: u32, honest: bool, s: Store, e: Event, index: nat,
    body: seq<byte>)
    requires chunkSize > 0 && Faithful(hash, source, chunkSize, honest, s)
    requires MayTravel(source, chunkSize, honest, index, body)
    ensures var chunk := source.chunkAt(index, chunkSize);
            var (after, reply) := PutOver(hash, s, e, index, hash(chunk), body);
            && Faithful(hash, source, chunkSize, honest, after)
            && (reply.Answer? ==>
                  || reply.answer.Accepted? || reply.answer.AlreadyHeld? || reply.answer.PutDenied?
                  || (reply.answer.PutDigestMismatch? && body != chunk)
                  || (reply.answer.PutNotContinuable? && e.fate.Overtaken?))
            && (e == Event(false, Delivered) && body == chunk && index < 0x1_0000_0000 && s.artifact.Incomplete? ==>
                  reply == Answer(Accepted) || reply == Answer(AlreadyHeld))
            && (e == Event(false, Delivered) && index >= 0x1_0000_0000 ==> reply == Answer(PutDenied))
  {
    ArrivalFaithful(hash, source, chunkSize, honest, s, e);
    StageFaithful(hash, source, chunkSize, honest, Arrival(s, e), index, body);
    PutFaithful(hash, source, chunkSize, honest, Arrival(s, e), index, body);
  }

  lemma {:induction false} StoredContents(
    hash: seq<byte> -> Digest, source: Source, chunkSize: u32, s: Store, n: nat)
    requires chunkSize > 0 && Faithful(hash, source, chunkSize, true, s)
    requires n <= 0x1_0000_0000 && forall i: u32 :: i < n ==> i in s.stored
    ensures Concatenation(s.stored, n) == Contents(source, chunkSize, n)
  {
    if n > 0 {
      StoredContents(hash, source, chunkSize, s, n - 1);
    }
  }

  /** Once every chunk is held, sealing the true digest is either denied, because the Artifact
      has ended or has too many chunks, or verified: an honest store cannot fail. */
  lemma SealFaithful(hash: seq<byte> -> Digest, source: Source, chunkSize: u32, honest: bool, s: Store)
    requires chunkSize > 0 && source.len > 0 && WellSized(source, chunkSize)
    requires Faithful(hash, source, chunkSize, honest, s)
    requires forall i: u32 :: i < ChunkCount(source.len, chunkSize) ==> i in s.held
    ensures var count, digest := ChunkCount(source.len, chunkSize), hash(Whole(source, chunkSize));
            var begun := BeginSeal(s, count, digest);
            var (after, reply) := SealArtifact(hash, s, count, digest);
            && (begun.Ok? <==> count < 0x1_0000_0000 && !TerminalArtifact(s.artifact))
            && (begun.Ok? ==> Faithful(hash, source, chunkSize, honest, begun.value) && reply.SealedAs?)
            && Faithful(hash, source, chunkSize, honest, after)
            && (begun.Err? ==> reply.SealDenied?)
            && (honest && begun.Ok? ==> reply == SealedAs(Verified))
  {
    var count, digest := ChunkCount(source.len, chunkSize), hash(Whole(source, chunkSize));
    SealBegins(hash, source, chunkSize, honest, s);
    if BeginSeal(s, count, digest).Ok? {
      CompleteFaithful(hash, source, chunkSize, honest, BeginSeal(s, count, digest).value);
    }
  }

  lemma SealBegins(hash: seq<byte> -> Digest, source: Source, chunkSize: u32, honest: bool, s: Store)
    requires chunkSize > 0 && Faithful(hash, source, chunkSize, honest, s)
    requires forall i: u32 :: i < ChunkCount(source.len, chunkSize) ==> i in s.held
    ensures var count, digest := ChunkCount(source.len, chunkSize), hash(Whole(source, chunkSize));
            var begun := BeginSeal(s, count, digest);
            && (begun.Ok? <==> count < 0x1_0000_0000 && !TerminalArtifact(s.artifact))
            && (begun.Ok? ==>
                  && Faithful(hash, source, chunkSize, honest, begun.value) && begun.value.held == s.held
                  && begun.value.artifact.PendingVerification?)
            && (begun.Err? ==> begun.error.SealDenied?)
  {
    var count, digest := ChunkCount(source.len, chunkSize), hash(Whole(source, chunkSize));
    if count < 0x1_0000_0000 {
      HeldIsContiguous(hash, source, chunkSize, honest, s);
      if s.artifact.Incomplete? {
        SealIff(s.manifest, count, digest);
      }
      HalfSealExtends(hash, s, count, digest);
    }
  }

  lemma CompleteFaithful(hash: seq<byte> -> Digest, source: Source, chunkSize: u32, honest: bool, s: Store)
    requires chunkSize > 0 && source.len > 0 && WellSized(source, chunkSize)
    requires Faithful(hash, source, chunkSize, honest, s) && s.artifact.PendingVerification?
    ensures var (after, reply) := CompleteSeal(hash, s);
            && reply.SealedAs? && (honest ==> reply.state.Verified?)
            && Faithful(hash, source, chunkSize, honest, after)
  {
    var count := ChunkCount(source.len, chunkSize);
    assert forall i: u32 :: i < count ==> i in Below(count);
    Rereadable(hash, source, chunkSize, honest, s);
    if honest {
      StoredContents(hash, source, chunkSize, s, count);
    }
  }

  lemma HeldIsContiguous(hash: seq<byte> -> Digest, source: Source, chunkSize: u32, honest: bool, s: Store)
    requires chunkSize > 0 && Faithful(hash, source, chunkSize, honest, s)
    requires ChunkCount(source.len, chunkSize) < 0x1_0000_0000
    requires forall i: u32 :: i < ChunkCount(source.len, chunkSize) ==> i in s.held
    ensures s.manifest.chunks.Keys == Below(ChunkCount(source.len, chunkSize))
  {
  }

  lemma Rereadable(hash: seq<byte> -> Digest, source: Source, chunkSize: u32, honest: bool, s: Store)
    requires chunkSize > 0 && source.len > 0 && WellSized(source, chunkSize)
    requires Faithful(hash, source, chunkSize, honest, s)
    requires ChunkCount(source.len, chunkSize) < 0x1_0000_0000
    requires forall i: u32 :: i < ChunkCount(source.len, chunkSize) ==> i in s.held
    ensures Reconstructible(s.stored, ChunkCount(source.len, chunkSize), chunkSize)
  {
    forall i: u32 | i < ChunkCount(source.len, chunkSize)
      ensures i in s.stored && 0 < |s.stored[i]| <= chunkSize
      ensures i + 1 < ChunkCount(source.len, chunkSize) ==> |s.stored[i]| == chunkSize
    {
      assert WellSizedChunk(source, chunkSize, i);
      ChunkLength(source, chunkSize, i);
    }
  }

  lemma SealOverFaithful(
    hash: seq<byte> -> Digest, source: Source, chunkSize: u32, honest: bool, s: Store, e: Event)
    requires chunkSize > 0 && source.len > 0 && WellSized(source, chunkSize)
    requires Faithful(hash, source, chunkSize, honest, s)
    requires forall i: u32 :: i < ChunkCount(source.len, chunkSize) ==> i in s.held
    ensures var count := ChunkCount(source.len, chunkSize);
            var (after, reply) := SealOver(hash, s, e, count, hash(Whole(source, chunkSize)));
            && Faithful(hash, source, chunkSize, honest, after)
            && (reply.Answer? ==> reply.answer.SealDenied? || reply.answer.SealedAs?)
            && (honest && reply.Answer? && reply.answer.SealedAs? ==> reply.answer.state.Verified?)
            && (e == Event(false, Delivered) ==>
                  (reply.answer.SealedAs? <==> count < 0x1_0000_0000 && !TerminalArtifact(s.artifact)))
  {
    ArrivalFaithful(hash, source, chunkSize, honest, s, e);
    SealFaithful(hash, source, chunkSize, honest, Arrival(s, e));
    SealOverCases(hash, s, e, ChunkCount(source.len, chunkSize), hash(Whole(source, chunkSize)));
  }
}
