/** The Agent's capture source and the plan of chunks it yields. */
module TransferSource {
  import opened Workflow
  import opened Bytes

  /** Any repeatable source: `chunkAt(index, chunkSize)` is what a read returns. */
  datatype Source = Source(len: nat, chunkAt: (nat, u32) -> seq<byte>)

  function ChunkCount(len: nat, chunkSize: u32): nat
    requires chunkSize > 0
  {
    (len + chunkSize - 1) / chunkSize
  }

  function ExpectedLength(len: nat, chunkSize: u32, i: nat): int
    requires chunkSize > 0
  {
    if i + 1 < ChunkCount(len, chunkSize) then chunkSize
    else len - (ChunkCount(len, chunkSize) - 1) * chunkSize
  }

  /** The ceiling division leaves every chunk but the last full and the last one in 1..=chunk_size. */
  lemma ChunkCountBounds(len: nat, chunkSize: u32)
    requires chunkSize > 0 && len > 0
    ensures var n := ChunkCount(len, chunkSize);
            n >= 1 && (n - 1) * chunkSize < len <= n * chunkSize
  {
  }

  predicate WellSizedChunk(source: Source, chunkSize: u32, i: nat)
    requires chunkSize > 0
  {
    |source.chunkAt(i, chunkSize)| == ExpectedLength(source.len, chunkSize, i) && source.chunkAt(i, chunkSize) != []
  }

  ghost predicate WellSized(source: Source, chunkSize: u32)
    requires chunkSize > 0
  {
    forall i: nat :: i < ChunkCount(source.len, chunkSize) ==> WellSizedChunk(source, chunkSize, i)
  }

  /** The first `n` chunks one after the other. */
  function Contents(source: Source, chunkSize: u32, n: nat): seq<byte> {
    if n == 0 then [] else Contents(source, chunkSize, n - 1) + source.chunkAt(n - 1, chunkSize)
  }

  function Whole(source: Source, chunkSize: u32): seq<byte>
    requires chunkSize > 0
  {
    Contents(source, chunkSize, ChunkCount(source.len, chunkSize))
  }

  // ---------------------------------------------------------------------
  // The in-memory source
  // ---------------------------------------------------------------------

  function ChunkBytes(bytes: seq<byte>, index: nat, chunkSize: u32): seq<byte> {
    var start := index * chunkSize;
    if start >= |bytes| then [] else bytes[start..Min(start + chunkSize, |bytes|)]
  }

  function Min(a: int, b: int): int {
    if a < b then a else b
  }

  function InMemory(bytes: seq<byte>): Source {
    Source(|bytes|, (i, chunkSize) => ChunkBytes(bytes, i, chunkSize))
  }

  lemma {:induction false} InMemoryContents(bytes: seq<byte>, chunkSize: u32, n: nat)
    requires chunkSize > 0
    ensures 0 <= Min(n * chunkSize, |bytes|) <= |bytes|
    ensures Contents(InMemory(bytes), chunkSize, n) == bytes[..Min(n * chunkSize, |bytes|)]
  {
    if n > 0 {
      InMemoryContents(bytes, chunkSize, n - 1);
      assert (n - 1) * chunkSize + chunkSize == n * chunkSize;
    }
  }

  /** Cutting bytes into chunks and putting the chunks together again gives the bytes,
      for every length and chunk size. */
  lemma InMemoryIsFaithful(bytes: seq<byte>, chunkSize: u32)
    requires chunkSize > 0 && bytes != []
    ensures WellSized(InMemory(bytes), chunkSize)
    ensures Whole(InMemory(bytes), chunkSize) == bytes
  {
    var n := ChunkCount(|bytes|, chunkSize);
    ChunkCountBounds(|bytes|, chunkSize);
    forall i: nat | i < n ensures WellSizedChunk(InMemory(bytes), chunkSize, i) {
      if i + 1 < n {
        assert (i + 1) * chunkSize <= (n - 1) * chunkSize;
        assert (i + 1) * chunkSize == i * chunkSize + chunkSize;
      } else {
        assert (n - 1) * chunkSize + chunkSize == n * chunkSize;
      }
    }
    InMemoryContents(bytes, chunkSize, n);
    assert bytes[..|bytes|] == bytes;
  }

  // ---------------------------------------------------------------------
  // Mutation of the source between runs
  // ---------------------------------------------------------------------

  function Changed(b: byte): byte {
    ((b as bv8 + 1) ^ 0xA5) as int
  }

  lemma ChangedDiffers(b: byte)
    ensures Changed(b) != b
  {
  }

  /** Overwrites the bytes that one chunk covers. */
  method MutateChunk(bytes: array<byte>, index: nat, chunkSize: u32)
    modifies bytes
    ensures forall i :: 0 <= i < bytes.Length ==>
              bytes[i] == if index * chunkSize <= i < index * chunkSize + chunkSize
                          then Changed(old(bytes[i])) else old(bytes[i])
  {
    var start := index * chunkSize;
    if start >= bytes.Length {
      return;
    }
    var end := Min(start + chunkSize, bytes.Length);
    for k := start to end
      invariant forall i :: 0 <= i < bytes.Length ==>
                  bytes[i] == if start <= i < k then Changed(old(bytes[i])) else old(bytes[i])
    {
      bytes[k] := Changed(bytes[k]);
    }
  }

  /** Changing the bytes that one chunk covers changes that chunk, if the source has it,
      and no other. */
  lemma MutationIsLocal(before: seq<byte>, after: seq<byte>, index: nat, chunkSize: u32, i: nat)
    requires chunkSize > 0 && |after| == |before|
    requires forall k :: 0 <= k < |before| ==>
               (after[k] != before[k] <==> index * chunkSize <= k < index * chunkSize + chunkSize)
    ensures (ChunkBytes(after, i, chunkSize) == ChunkBytes(before, i, chunkSize)) <==>
            (i != index || index * chunkSize >= |before|)
  {
    if i < index {
      Apart(i, index, chunkSize);
    } else if index < i {
      Apart(index, i, chunkSize);
    }
    WindowIsLocal(before, after, index * chunkSize, chunkSize, i * chunkSize);
  }

  lemma Apart(i: nat, j: nat, size: nat)
    requires i < j
    ensures i * size + size <= j * size
  {
    var gap := j - i - 1;
    assert j * size == (i + 1 + gap) * size == i * size + size + gap * size;
  }

  lemma WindowIsLocal(before: seq<byte>, after: seq<byte>, window: nat, size: nat, start: nat)
    requires size > 0 && |after| == |before|
    requires start == window || start + size <= window || window + size <= start
    requires forall k :: 0 <= k < |before| ==> (after[k] != before[k] <==> window <= k < window + size)
    ensures start < |before| ==>
              (after[start..Min(start + size, |before|)] == before[start..Min(start + size, |before|)]
               <==> start != window)
  {
    if start < |before| {
      var end := Min(start + size, |before|);
      assert after[start..end][0] == after[start] && before[start..end][0] == before[start];
    }
  }

  // ---------------------------------------------------------------------
  // The chunk plan
  // ---------------------------------------------------------------------

  datatype Plan = Plan(digests: seq<Digest>, sizes: seq<nat>, artifactDigest: Digest)

  /** The plan of a source: one digest and size per chunk, and the digest of the whole. */
  function PlanOf(hash: seq<byte> -> Digest, source: Source, chunkSize: u32): Plan
    requires chunkSize > 0
  {
    var n := ChunkCount(source.len, chunkSize);
    Plan(seq(n, i requires 0 <= i < n => hash(source.chunkAt(i, chunkSize))),
         seq(n, i requires 0 <= i < n => |source.chunkAt(i, chunkSize)|),
         hash(Whole(source, chunkSize)))
  }

  /** Reproduces every chunk digest and the digest of the whole, or names the first chunk
      that the source returns with a wrong length. */
  method BuildChunkPlan(hash: seq<byte> -> Digest, source: Source, chunkCount: nat, chunkSize: u32)
    returns (result: Result<Plan, nat>)
    requires chunkSize > 0 && source.len > 0 && chunkCount == ChunkCount(source.len, chunkSize)
    ensures WellSized(source, chunkSize) ==> result == Ok(PlanOf(hash, source, chunkSize))
    ensures !WellSized(source, chunkSize) ==> result == Err(FirstBadChunk(source, chunkSize))
  {
    var full: seq<byte> := [];
    var digests: seq<Digest>, sizes: seq<nat> := [], [];
    for index := 0 to chunkCount
      invariant |digests| == |sizes| == index
      invariant forall i :: 0 <= i < index ==>
                  digests[i] == hash(source.chunkAt(i, chunkSize)) && sizes[i] == |source.chunkAt(i, chunkSize)|
      invariant full == Contents(source, chunkSize, index)
      invariant forall i: nat :: i < index ==> WellSizedChunk(source, chunkSize, i)
    {
      var bytes := source.chunkAt(index, chunkSize);
      var expected := ExpectedLength(source.len, chunkSize, index);
      if |bytes| != expected || bytes == [] {
        FirstBadIs(source, chunkSize, index);
        return Err(index);
      }
      full := full + bytes;
      digests := digests + [hash(bytes)];
      sizes := sizes + [|bytes|];
    }
    assert digests == PlanOf(hash, source, chunkSize).digests;
    assert sizes == PlanOf(hash, source, chunkSize).sizes;
    return Ok(Plan(digests, sizes, hash(full)));
  }

  ghost function FirstBadChunk(source: Source, chunkSize: u32): nat
    requires chunkSize > 0 && !WellSized(source, chunkSize)
  {
    FirstBadFrom(source, chunkSize, 0)
  }

  /** The first ill-sized chunk from `i` on, or the chunk count. */
  ghost function FirstBadFrom(source: Source, chunkSize: u32, i: nat): (bad: nat)
    requires chunkSize > 0 && i <= ChunkCount(source.len, chunkSize)
    ensures i <= bad <= ChunkCount(source.len, chunkSize)
    ensures forall j: nat :: i <= j < bad ==> WellSizedChunk(source, chunkSize, j)
    ensures bad < ChunkCount(source.len, chunkSize) ==> !WellSizedChunk(source, chunkSize, bad)
    decreases ChunkCount(source.len, chunkSize) - i
  {
    if i == ChunkCount(source.len, chunkSize) || !WellSizedChunk(source, chunkSize, i) then i
    else FirstBadFrom(source, chunkSize, i + 1)
  }

  lemma FirstBadIs(source: Source, chunkSize: u32, bad: nat)
    requires chunkSize > 0 && bad < ChunkCount(source.len, chunkSize)
    requires !WellSizedChunk(source, chunkSize, bad)
    requires forall i: nat :: i < bad ==> WellSizedChunk(source, chunkSize, i)
    ensures !WellSized(source, chunkSize) && FirstBadChunk(source, chunkSize) == bad
  {
  }

  // ---------------------------------------------------------------------
  // Byte counts
  // ---------------------------------------------------------------------

  /** The bytes of the held chunks below `n`. */
  function HeldBytes(sizes: seq<nat>, held: set<nat>, n: nat): nat
    requires n <= |sizes|
  {
    if n == 0 then 0 else HeldBytes(sizes, held, n - 1) + (if n - 1 in held then sizes[n - 1] else 0)
  }

  lemma {:induction false} HeldBytesAdd(sizes: seq<nat>, held: set<nat>, index: nat, n: nat)
    requires n <= |sizes| && index < |sizes| && index !in held
    ensures HeldBytes(sizes, held + {index}, n) ==
            HeldBytes(sizes, held, n) + (if index < n then sizes[index] else 0)
  {
    if n > 0 {
      HeldBytesAdd(sizes, held, index, n - 1);
    }
  }

  lemma {:induction false} HeldBytesBound(source: Source, chunkSize: u32, sizes: seq<nat>, held: set<nat>, n: nat)
    requires chunkSize > 0 && source.len > 0 && WellSized(source, chunkSize)
    requires n <= |sizes| <= ChunkCount(source.len, chunkSize)
    requires forall i: nat :: i < |sizes| ==> sizes[i] == |source.chunkAt(i, chunkSize)|
    ensures HeldBytes(sizes, held, n) <= |Contents(source, chunkSize, n)|
    ensures HeldBytes(sizes, held, n) == |Contents(source, chunkSize, n)| <==> forall i: nat :: i < n ==> i in held
  {
    if n > 0 {
      HeldBytesBound(source, chunkSize, sizes, held, n - 1);
      assert WellSizedChunk(source, chunkSize, n - 1);
    }
  }

  lemma {:induction false} ContentsLength(source: Source, chunkSize: u32, n: nat)
    requires chunkSize > 0 && source.len > 0 && WellSized(source, chunkSize)
    requires n <= ChunkCount(source.len, chunkSize)
    ensures |Contents(source, chunkSize, n)| ==
            if n < ChunkCount(source.len, chunkSize) then n * chunkSize else source.len
  {
    if n > 0 {
      ContentsLength(source, chunkSize, n - 1);
      assert WellSizedChunk(source, chunkSize, n - 1);
      assert (n - 1) * chunkSize + chunkSize == n * chunkSize;
    }
  }

  /** Held bytes reach the source length exactly when every chunk is held. */
  lemma CompleteIff(source: Source, chunkSize: u32, sizes: seq<nat>, held: set<nat>)
    requires chunkSize > 0 && source.len > 0 && WellSized(source, chunkSize)
    requires |sizes| == ChunkCount(source.len, chunkSize)
    requires forall i: nat :: i < |sizes| ==> sizes[i] == |source.chunkAt(i, chunkSize)|
    ensures HeldBytes(sizes, held, |sizes|) <= source.len
    ensures HeldBytes(sizes, held, |sizes|) == source.len <==> forall i: nat :: i < |sizes| ==> i in held
  {
    HeldBytesBound(source, chunkSize, sizes, held, |sizes|);
    ContentsLength(source, chunkSize, |sizes|);
    ChunkCountBounds(source.len, chunkSize);
  }
}
