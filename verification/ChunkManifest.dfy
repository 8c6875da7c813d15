/** The chunk manifest of one Artifact: expected chunk identities are recorded one by one
    until the manifest is sealed over a contiguous set. */
module ChunkManifest {
  import opened Workflow
  import opened Bytes

  datatype Expected = Expected(size: u32, digest: Digest)

  datatype Manifest = Manifest(
    artifactId: Uuid,
    chunkSize: u32,
    chunks: map<u32, Expected>,
    sealed: bool,
    chunkCount: Option<u32>,
    artifactDigest: Option<Digest>)

  function New(artifactId: Uuid, chunkSize: u32): Manifest {
    Manifest(artifactId, chunkSize, map[], false, None, None)
  }

  datatype Recorded = Added(manifest: Manifest) | AlreadyRecorded

  datatype RecordError = Conflict(index: u32) | NotContinuable | InvalidDigestLength

  function RecordExpected(m: Manifest, index: u32, size: u32, digest: seq<byte>): Result<Recorded, RecordError> {
    if |digest| != DIGEST_LENGTH then Err(InvalidDigestLength)
    else if index in m.chunks then
      if m.chunks[index].size == size && m.chunks[index].digest == digest then Ok(AlreadyRecorded)
      else Err(Conflict(index))
    else if m.sealed then Err(NotContinuable)
    else Ok(Added(m.(chunks := m.chunks[index := Expected(size, digest)])))
  }

  datatype SealResult = Sealed(manifest: Manifest) | AlreadySealed

  datatype SealError = IncompleteChunkSet | NonContiguousIndices | ConflictingReseal | InvalidArtifactDigestLength

  function Seal(m: Manifest, chunkCount: u32, digest: seq<byte>): Result<SealResult, SealError> {
    if |digest| != DIGEST_LENGTH then Err(InvalidArtifactDigestLength)
    else if m.sealed then
      if m.chunkCount == Some(chunkCount) && m.artifactDigest == Some(digest) then Ok(AlreadySealed)
      else Err(ConflictingReseal)
    else if |m.chunks| != chunkCount then Err(IncompleteChunkSet)
    else if exists i: u32 :: i < chunkCount && i !in m.chunks then Err(NonContiguousIndices)
    else Ok(Sealed(m.(sealed := true, chunkCount := Some(chunkCount), artifactDigest := Some(digest))))
  }

  datatype AcceptError = UnknownChunkIndex(index: u32) | DigestMismatch(index: u32)

  function ValidateVerified(m: Manifest, index: u32, digest: seq<byte>): Result<(), AcceptError> {
    if index !in m.chunks then Err(UnknownChunkIndex(index))
    else if m.chunks[index].digest != digest then Err(DigestMismatch(index))
    else Ok(())
  }

  // ---------------------------------------------------------------------
  // Sequences of calls
  // ---------------------------------------------------------------------

  datatype Call =
    | RecordCall(index: u32, size: u32, digest: seq<byte>)
    | SealCall(chunkCount: u32, artifactDigest: seq<byte>)

  /** A call that is refused, or that finds its work already done, changes nothing. */
  function After(m: Manifest, call: Call): Manifest {
    match call
    case RecordCall(index, size, digest) =>
      (match RecordExpected(m, index, size, digest)
       case Ok(Added(next)) => next
       case _ => m)
    case SealCall(chunkCount, digest) =>
      (match Seal(m, chunkCount, digest)
       case Ok(Sealed(next)) => next
       case _ => m)
  }

  function AfterAll(m: Manifest, calls: seq<Call>): Manifest
    decreases |calls|
  {
    if calls == [] then m else AfterAll(After(m, calls[0]), calls[1..])
  }

  /** The indices below `n`. */
  function Below(n: nat): (below: set<u32>)
    requires n <= 0x1_0000_0000
    ensures |below| == n
    ensures forall i: u32 :: i in below <==> i < n
  {
    if n == 0 then {} else
      var last: u32 := n - 1;
      Below(n - 1) + {last}
  }

  /** A set of `n` indices that misses none below `n` has no other. */
  lemma Pigeonhole(s: set<u32>, n: nat)
    requires n <= 0x1_0000_0000 && |s| == n
    requires forall i: u32 :: i < n ==> i in s
    ensures s == Below(n)
  {
    assert Below(n) <= s;
    assert |s - Below(n)| == 0;
    assert s - Below(n) == {};
  }

  ghost predicate WellSealed(m: Manifest) {
    if m.sealed then
      && m.chunkCount.Some? && m.artifactDigest.Some?
      && m.chunks.Keys == Below(m.chunkCount.value)
    else m.chunkCount.None? && m.artifactDigest.None?
  }

  /** Sealing succeeds on exactly the contiguous sets of the declared size. */
  lemma SealIff(m: Manifest, chunkCount: u32, digest: Digest)
    requires !m.sealed
    ensures Seal(m, chunkCount, digest).Ok? <==> m.chunks.Keys == Below(chunkCount)
    ensures Seal(m, chunkCount, digest).Ok? ==>
              Seal(m, chunkCount, digest).value ==
              Sealed(m.(sealed := true, chunkCount := Some(chunkCount), artifactDigest := Some(digest)))
  {
    assert |m.chunks| == |m.chunks.Keys|;
    if Seal(m, chunkCount, digest).Ok? {
      Pigeonhole(m.chunks.Keys, chunkCount);
    }
  }

  /** What any sequence of calls keeps: identities only grow and keep their first value, a
      sealed manifest is exactly contiguous, and sealing is final. */
  lemma {:induction false} CallsKeep(m: Manifest, calls: seq<Call>)
    requires WellSealed(m)
    ensures WellSealed(AfterAll(m, calls))
    ensures forall i :: i in m.chunks ==>
              i in AfterAll(m, calls).chunks && AfterAll(m, calls).chunks[i] == m.chunks[i]
    ensures m.sealed ==> AfterAll(m, calls) == m
    ensures AfterAll(m, calls).artifactId == m.artifactId && AfterAll(m, calls).chunkSize == m.chunkSize
    decreases |calls|
  {
    if calls != [] {
      var call := calls[0];
      if call.SealCall? && !m.sealed && |call.artifactDigest| == DIGEST_LENGTH {
        SealIff(m, call.chunkCount, call.artifactDigest);
      }
      CallsKeep(After(m, call), calls[1..]);
    }
  }

  /** The first identity that a list of calls offers for an index. */
  function FirstOffer(calls: seq<Call>, i: u32): Option<Expected> {
    if calls == [] then None
    else if calls[0].RecordCall? && calls[0].index == i && |calls[0].digest| == DIGEST_LENGTH then
      Some(Expected(calls[0].size, calls[0].digest))
    else FirstOffer(calls[1..], i)
  }

  predicate OnlyRecords(calls: seq<Call>) {
    forall c :: c in calls ==> c.RecordCall?
  }

  /** While the manifest is open, an index carries what it had, or else its first offer. */
  lemma {:induction false} FirstOfferWins(m: Manifest, calls: seq<Call>, i: u32)
    requires !m.sealed && OnlyRecords(calls)
    ensures var after := AfterAll(m, calls);
            && after == m.(chunks := after.chunks)
            && (i in m.chunks ==> i in after.chunks && after.chunks[i] == m.chunks[i])
            && (i !in m.chunks ==>
                  if FirstOffer(calls, i).None? then i !in after.chunks
                  else i in after.chunks && after.chunks[i] == FirstOffer(calls, i).value)
    decreases |calls|
  {
    if calls != [] {
      FirstOfferWins(After(m, calls[0]), calls[1..], i);
    }
  }

  /** No two calls offer different identities for one index. */
  ghost predicate ConflictFree(calls: seq<Call>) {
    forall c, d :: c in calls && d in calls && c.RecordCall? && d.RecordCall? && c.index == d.index ==> c == d
  }

  lemma {:induction false} OfferIsAnyOffer(calls: seq<Call>, i: u32)
    ensures FirstOffer(calls, i).Some? ==>
              RecordCall(i, FirstOffer(calls, i).value.size, FirstOffer(calls, i).value.digest) in calls
    ensures FirstOffer(calls, i).None? ==>
              forall c :: c in calls && c.RecordCall? && c.index == i ==> |c.digest| != DIGEST_LENGTH
  {
    if calls != [] {
      OfferIsAnyOffer(calls[1..], i);
    }
  }

  /** Two lists with the same conflict-free calls, in any order and with any repetition,
      give the same manifest. */
  lemma OrderDoesNotMatter(m: Manifest, calls: seq<Call>, other: seq<Call>)
    requires !m.sealed && OnlyRecords(calls) && ConflictFree(calls)
    requires forall c :: c in calls <==> c in other
    ensures AfterAll(m, calls) == AfterAll(m, other)
  {
    var a, b := AfterAll(m, calls), AfterAll(m, other);
    forall i: u32 ensures (i in a.chunks <==> i in b.chunks) && (i in a.chunks ==> a.chunks[i] == b.chunks[i]) {
      FirstOfferWins(m, calls, i);
      FirstOfferWins(m, other, i);
      OfferIsAnyOffer(calls, i);
      OfferIsAnyOffer(other, i);
    }
    FirstOfferWins(m, calls, 0);
    FirstOfferWins(m, other, 0);
    assert a.chunks == b.chunks;
  }
}
