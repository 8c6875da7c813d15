/** The receiving side of a chunked transfer: the Server's manifest, held set and Artifact
    lifecycle, and the Worker's stored bytes. Every operation is one function of the
    durable state; `hash` stands for SHA-256. */
module DataPlane {
  import opened Workflow
  import opened Bytes
  import opened ChunkManifest

  // ---------------------------------------------------------------------
  // Artifact lifecycle
  // ---------------------------------------------------------------------

  datatype ArtifactState = Incomplete | PendingVerification | Verified | ArtifactFailed

  datatype ArtifactError = NotIncomplete | NotPendingVerification | ManifestNotSealed | IncompleteChunks

  function BeginVerification(state: ArtifactState, manifest: Manifest, held: set<u32>)
    : Result<ArtifactState, ArtifactError>
  {
    if !state.Incomplete? then Err(NotIncomplete)
    else if !manifest.sealed then Err(ManifestNotSealed)
    else if !(manifest.chunks.Keys <= held) then Err(IncompleteChunks)
    else Ok(PendingVerification)
  }

  function CompleteVerification(state: ArtifactState, digestMatches: bool): Result<ArtifactState, ArtifactError> {
    if !state.PendingVerification? then Err(NotPendingVerification)
    else Ok(if digestMatches then Verified else ArtifactFailed)
  }

  function FailIncomplete(state: ArtifactState): Result<ArtifactState, ArtifactError> {
    if !state.Incomplete? then Err(NotIncomplete) else Ok(ArtifactFailed)
  }

  predicate TerminalArtifact(state: ArtifactState) {
    state.Verified? || state.ArtifactFailed?
  }

  // ---------------------------------------------------------------------
  // The operation gate
  // ---------------------------------------------------------------------

  datatype Operation = ChunkUpload | ResumeDiscovery | SealManifest

  predicate OperationIsCurrent(operation: Operation, state: ArtifactState, sealed: bool, hasIdentity: bool) {
    match state
    case Verified => false
    case ArtifactFailed => false
    case PendingVerification => !operation.ChunkUpload?
    case Incomplete => !operation.ChunkUpload? || !sealed || hasIdentity
  }

  // ---------------------------------------------------------------------
  // Durable state
  // ---------------------------------------------------------------------

  /** `held` are the chunks the Server accepted, `stored` the bytes the Worker has finalized. */
  datatype Store = Store(manifest: Manifest, artifact: ArtifactState, held: set<u32>, stored: map<u32, seq<byte>>)

  /** The Server gives an unfinished Artifact up. */
  function Abandon(s: Store): Store {
    match FailIncomplete(s.artifact)
    case Ok(failed) => s.(artifact := failed)
    case Err(_) => s
  }

  datatype Acceptance = Committed | AlreadyCommitted | RejectedConflict | RejectedNotContinuable | FailedClosed

  /** The Server's durable acceptance of a chunk whose bytes the Worker verified. */
  function CommitAcceptance(s: Store, index: u32, digest: Digest, size: nat): (Store, Acceptance) {
    if !OperationIsCurrent(ChunkUpload, s.artifact, s.manifest.sealed, index in s.manifest.chunks) then
      (s, RejectedNotContinuable)
    else if size == 0 || size > s.manifest.chunkSize then (s, FailedClosed)
    else if index in s.manifest.chunks && s.manifest.chunks[index].digest != digest then (s, RejectedConflict)
    else if index in s.manifest.chunks && s.manifest.chunks[index].size != size then (s, FailedClosed)
    else match RecordExpected(s.manifest, index, size, digest)
      case Ok(Added(manifest)) => (s.(manifest := manifest, held := s.held + {index}), Committed)
      case Ok(AlreadyRecorded) =>
        if index in s.held then (s, AlreadyCommitted) else (s.(held := s.held + {index}), Committed)
      case Err(NotContinuable) => (s, RejectedNotContinuable)
      case Err(_) => (s, FailedClosed)
  }

  datatype PutReply =
    | Accepted
    | AlreadyHeld
    | PutDigestMismatch
    | IdentityConflict
    | PutNotContinuable
    | TooLarge
    | PutDenied
    | PutMalformed

  /** Authorization, the checks on the body and its finalization, up to the Server's commit. */
  function StageChunk(hash: seq<byte> -> Digest, s: Store, index: nat, declared: Digest, body: seq<byte>)
    : Result<Store, PutReply>
  {
    if index >= 0x1_0000_0000 then Err(PutDenied)
    else if !OperationIsCurrent(ChunkUpload, s.artifact, s.manifest.sealed, index in s.manifest.chunks) then
      Err(PutDenied)
    else if index in s.manifest.chunks && s.manifest.chunks[index].digest != declared then Err(IdentityConflict)
    else if |body| > s.manifest.chunkSize then Err(TooLarge)
    else if body == [] then Err(PutMalformed)
    else if hash(body) != declared then Err(PutDigestMismatch)
    else if index !in s.stored then Ok(s.(stored := s.stored[index := body]))
    else if |s.stored[index]| == |body| && hash(s.stored[index]) == declared then Ok(s)
    else Err(PutDenied)
  }

  function Put(hash: seq<byte> -> Digest, s: Store, index: nat, declared: Digest, body: seq<byte>): (Store, PutReply) {
    match StageChunk(hash, s, index, declared, body)
    case Err(reply) => (s, reply)
    case Ok(staged) =>
      var (after, acceptance) := CommitAcceptance(staged, index, declared, |body|);
      (after, match acceptance
              case Committed => Accepted
              case AlreadyCommitted => AlreadyHeld
              case RejectedConflict => IdentityConflict
              case RejectedNotContinuable => PutNotContinuable
              case FailedClosed => PutDenied)
  }

  datatype SealReply = SealedAs(state: ArtifactState) | IncompleteManifest | ManifestAlreadySealed | SealDenied

  /** The first commit of a seal: the manifest is sealed and the Artifact awaits verification. */
  function BeginSeal(s: Store, chunkCount: nat, digest: Digest): Result<Store, SealReply> {
    if chunkCount >= 0x1_0000_0000 then Err(SealDenied)
    else match s.artifact
      case Verified | ArtifactFailed => Err(SealDenied)
      case Incomplete =>
        if s.manifest.sealed then Err(SealDenied)
        else (match Seal(s.manifest, chunkCount, digest)
              case Ok(Sealed(sealed)) =>
                (match BeginVerification(s.artifact, sealed, s.held)
                 case Ok(state) => Ok(s.(manifest := sealed, artifact := state))
                 case Err(IncompleteChunks) => Err(IncompleteManifest)
                 case Err(_) => Err(SealDenied))
              case Err(IncompleteChunkSet) => Err(IncompleteManifest)
              case Err(NonContiguousIndices) => Err(IncompleteManifest)
              case _ => Err(SealDenied))
      case PendingVerification =>
        if !s.manifest.sealed then Err(SealDenied)
        else (match Seal(s.manifest, chunkCount, digest)
              case Ok(AlreadySealed) => Ok(s)
              case Err(ConflictingReseal) => Err(ManifestAlreadySealed)
              case _ => Err(SealDenied))
  }

  /** The stored chunks below `n` in order. */
  function Concatenation(stored: map<u32, seq<byte>>, n: nat): seq<byte> {
    if n == 0 then []
    else Concatenation(stored, n - 1) + (if n <= 0x1_0000_0000 && n - 1 in stored then stored[n - 1] else [])
  }

  /** The Worker rereads every chunk: all but the last full, the last not empty. */
  predicate Reconstructible(stored: map<u32, seq<byte>>, chunkCount: u32, chunkSize: u32) {
    forall i: u32 :: i < chunkCount ==>
      && i in stored
      && 0 < |stored[i]| <= chunkSize
      && (i + 1 < chunkCount ==> |stored[i]| == chunkSize)
  }

  /** The second commit of a seal, after the Worker's independent reconstruction. */
  function CompleteSeal(hash: seq<byte> -> Digest, s: Store): (Store, SealReply) {
    if s.manifest.chunkCount.None? || s.manifest.artifactDigest.None? then (s, SealDenied)
    else if !Reconstructible(s.stored, s.manifest.chunkCount.value, s.manifest.chunkSize) then (s, SealDenied)
    else
      var computed := hash(Concatenation(s.stored, s.manifest.chunkCount.value));
      match CompleteVerification(s.artifact, computed == s.manifest.artifactDigest.value)
      case Ok(state) => (s.(artifact := state), SealedAs(state))
      case Err(_) => (s, SealDenied)
  }

  function SealArtifact(hash: seq<byte> -> Digest, s: Store, chunkCount: nat, digest: Digest): (Store, SealReply) {
    match BeginSeal(s, chunkCount, digest)
    case Err(reply) => (s, reply)
    case Ok(pending) => CompleteSeal(hash, pending)
  }

  // ---------------------------------------------------------------------
  // What every operation keeps
  // ---------------------------------------------------------------------

  /** Held chunks are exactly the recorded identities and carry stored bytes of that size
      and digest; past Incomplete (unless given up) the manifest is sealed, and Verified
      means the stored bytes hash to the sealed digest. */
  ghost predicate Consistent(hash: seq<byte> -> Digest, s: Store) {
    && WellSealed(s.manifest)
    && s.held == s.manifest.chunks.Keys
    && (forall i :: i in s.manifest.chunks ==>
          && i in s.stored && |s.stored[i]| == s.manifest.chunks[i].size
          && hash(s.stored[i]) == s.manifest.chunks[i].digest)
    && (s.artifact.Incomplete? ==> !s.manifest.sealed)
    && (s.artifact.PendingVerification? || s.artifact.Verified? ==> s.manifest.sealed)
    && (s.artifact.Verified? ==>
          hash(Concatenation(s.stored, s.manifest.chunkCount.value)) == s.manifest.artifactDigest.value)
  }

  /** Identities, stored bytes and the held set only grow; a sealed manifest and a final
      Artifact state stay. */
  ghost predicate Extends(s: Store, s': Store) {
    && s'.manifest.artifactId == s.manifest.artifactId && s'.manifest.chunkSize == s.manifest.chunkSize
    && (forall i :: i in s.manifest.chunks ==>
          i in s'.manifest.chunks && s'.manifest.chunks[i] == s.manifest.chunks[i])
    && (s.manifest.sealed ==> s'.manifest == s.manifest)
    && s.held <= s'.held
    && (forall i :: i in s.stored ==> i in s'.stored && s'.stored[i] == s.stored[i])
    && (TerminalArtifact(s.artifact) ==> s'.artifact == s.artifact)
    && (s.artifact.PendingVerification? ==> !s'.artifact.Incomplete?)
  }

  lemma ExtendsTransitive(a: Store, b: Store, c: Store)
    requires Extends(a, b) && Extends(b, c)
    ensures Extends(a, c)
  {
  }

  lemma AbandonKeeps(hash: seq<byte> -> Digest, s: Store)
    ensures Extends(s, Abandon(s))
    ensures Consistent(hash, s) ==> Consistent(hash, Abandon(s))
  {
  }

  lemma StageKeeps(hash: seq<byte> -> Digest, s: Store, index: nat, declared: Digest, body: seq<byte>)
    requires StageChunk(hash, s, index, declared, body).Ok?
    ensures var staged := StageChunk(hash, s, index, declared, body).value;
            && Extends(s, staged)
            && s.artifact.Incomplete?
            && staged == s.(stored := staged.stored)
            && index < 0x1_0000_0000 && index in staged.stored
            && |staged.stored[index]| == |body| && hash(staged.stored[index]) == declared
            && (Consistent(hash, s) ==> Consistent(hash, staged))
  {
  }

  lemma CommitKeeps(hash: seq<byte> -> Digest, s: Store, index: u32, digest: Digest, size: nat)
    requires index in s.stored && |s.stored[index]| == size && hash(s.stored[index]) == digest
    ensures var (after, _) := CommitAcceptance(s, index, digest, size);
            && Extends(s, after) && after.stored == s.stored && after.artifact == s.artifact
            && (Consistent(hash, s) ==> Consistent(hash, after))
  {
  }

  lemma PutKeeps(hash: seq<byte> -> Digest, s: Store, index: nat, declared: Digest, body: seq<byte>)
    ensures var (after, reply) := Put(hash, s, index, declared, body);
            && Extends(s, after)
            && (Consistent(hash, s) ==> Consistent(hash, after))
            && (reply.Accepted? || reply.AlreadyHeld? ==>
                  && index < 0x1_0000_0000
                  && index in after.held && index in after.manifest.chunks
                  && after.manifest.chunks[index] == Expected(|body|, declared))
  {
    if StageChunk(hash, s, index, declared, body).Ok? {
      StageKeeps(hash, s, index, declared, body);
      var staged := StageChunk(hash, s, index, declared, body).value;
      CommitKeeps(hash, staged, index, declared, |body|);
      ExtendsTransitive(s, staged, CommitAcceptance(staged, index, declared, |body|).0);
    }
  }

  lemma BeginSealKeeps(hash: seq<byte> -> Digest, s: Store, chunkCount: nat, digest: Digest)
    requires BeginSeal(s, chunkCount, digest).Ok?
    ensures var pending := BeginSeal(s, chunkCount, digest).value;
            && Extends(s, pending) && pending.stored == s.stored
            && pending.artifact.PendingVerification? && pending.manifest.sealed
            && pending.manifest.chunkCount == Some(chunkCount) && pending.manifest.artifactDigest == Some(digest)
            && (Consistent(hash, s) ==> Consistent(hash, pending))
  {
    if s.artifact.Incomplete? {
      SealIff(s.manifest, chunkCount, digest);
    }
  }

  /** A seal keeps the store consistent, and Verified is final evidence that the stored
      chunks hash to the declared digest. */
  lemma SealKeeps(hash: seq<byte> -> Digest, s: Store, chunkCount: nat, digest: Digest)
    ensures var (after, reply) := SealArtifact(hash, s, chunkCount, digest);
            && Extends(s, after) && after.stored == s.stored
            && (Consistent(hash, s) ==> Consistent(hash, after))
            && (reply == SealedAs(Verified) ==>
                  after.artifact.Verified? && hash(Concatenation(after.stored, chunkCount)) == digest)
            && (reply == SealedAs(ArtifactFailed) ==>
                  after.artifact.ArtifactFailed? && hash(Concatenation(after.stored, chunkCount)) != digest)
            && (reply.SealedAs? ==>
                  TerminalArtifact(reply.state) && Reconstructible(after.stored, chunkCount, s.manifest.chunkSize))
  {
    if BeginSeal(s, chunkCount, digest).Ok? {
      BeginSealKeeps(hash, s, chunkCount, digest);
      var pending := BeginSeal(s, chunkCount, digest).value;
      ExtendsTransitive(s, pending, CompleteSeal(hash, pending).0);
    }
  }

  /** While the Artifact is Incomplete the gate denies an upload exactly when recording it
      would be refused as not continuable. */
  lemma GateMatchesManifest(s: Store, index: u32, size: u32, digest: Digest)
    requires s.artifact.Incomplete?
    ensures OperationIsCurrent(ChunkUpload, s.artifact, s.manifest.sealed, index in s.manifest.chunks) <==>
            RecordExpected(s.manifest, index, size, digest) != Err(NotContinuable)
  {
  }

  /** The uploads that the gate denies once verification is pending could not have changed
      the manifest or the held set. */
  lemma PendingDeniesNothing(hash: seq<byte> -> Digest, s: Store, index: u32, size: u32, digest: Digest)
    requires Consistent(hash, s) && s.artifact.PendingVerification?
    ensures !OperationIsCurrent(ChunkUpload, s.artifact, s.manifest.sealed, index in s.manifest.chunks)
    ensures match RecordExpected(s.manifest, index, size, digest)
            case Ok(AlreadyRecorded) => s.held + {index} == s.held
            case Ok(Added(_)) => false
            case Err(_) => true
  {
  }

  /** A Verified Artifact is sealed over exactly 0..chunk_count, and every index is held
      with bytes that match its recorded digest. */
  lemma VerifiedMeans(hash: seq<byte> -> Digest, s: Store)
    requires Consistent(hash, s) && s.artifact.Verified?
    ensures s.manifest.sealed && s.held == s.manifest.chunks.Keys == Below(s.manifest.chunkCount.value)
    ensures forall i: u32 :: i < s.manifest.chunkCount.value ==>
              && i in s.stored && ValidateVerified(s.manifest, i, hash(s.stored[i])).Ok?
  {
  }
}
