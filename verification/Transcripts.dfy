/** The 137-byte proof transcript, built independently by Server and Agent. */
module Transcripts {
  import opened Workflow
  import opened Bytes
  import DataPlane

  type Bytes16 = b: seq<byte> | |b| == 16 witness seq(16, i => 0)
  type Bytes32 = b: seq<byte> | |b| == 32 witness seq(32, i => 0)

  function Ascii(s: string): (bytes: seq<byte>)
    ensures |bytes| == |s|
  {
    seq(|s|, i requires 0 <= i < |s| => if s[i] as int < 128 then s[i] as int else 0)
  }

  /** The low `width` octets of a number, most significant first. */
  function BigEndian(n: nat, width: nat): (bytes: seq<byte>)
    ensures |bytes| == width
  {
    if width == 0 then [] else BigEndian(n / 256, width - 1) + [n % 256]
  }

  function FromBigEndian(bytes: seq<byte>): nat {
    if bytes == [] then 0 else 256 * FromBigEndian(bytes[..|bytes| - 1]) + bytes[|bytes| - 1]
  }

  function Power256(width: nat): nat {
    if width == 0 then 1 else 256 * Power256(width - 1)
  }

  lemma {:induction false} BigEndianRoundTrip(n: nat, width: nat)
    requires n < Power256(width)
    ensures FromBigEndian(BigEndian(n, width)) == n
  {
    if width > 0 {
      BigEndianRoundTrip(n / 256, width - 1);
      assert BigEndian(n, width)[..width - 1] == BigEndian(n / 256, width - 1);
    }
  }

  lemma Widths()
    ensures Power256(2) == 0x1_0000 && Power256(8) == 0x1_0000_0000_0000_0000
  {
  }

  lemma U64RoundTrip(n: u64)
    ensures FromBigEndian(BigEndian(n, 8)) == n
  {
    Widths();
    BigEndianRoundTrip(n, 8);
  }

  // ---------------------------------------------------------------------
  // Writing into a buffer
  // ---------------------------------------------------------------------

  /** Copies a slice to an offset. */
  method CopyInto(buf: array<byte>, offset: nat, bytes: seq<byte>)
    requires offset + |bytes| <= buf.Length
    modifies buf
    ensures buf[..offset + |bytes|] == old(buf[..offset]) + bytes
  {
    for i := 0 to |bytes|
      invariant buf[..offset + i] == old(buf[..offset]) + bytes[..i]
    {
      buf[offset + i] := bytes[i];
    }
  }

  // ---------------------------------------------------------------------
  // The proof transcript
  // ---------------------------------------------------------------------

  const PROOF_DOMAIN := "bamep.m1.data-plane-transfer.proof"
  const PROOF_SCHEMA_VERSION := 1
  const PROOF_TRANSCRIPT_LENGTH := 137

  datatype Direction = AgentToServer

  datatype ProofFields = ProofFields(
    operation: DataPlane.Operation,
    transferId: Bytes16,
    artifactId: Bytes16,
    direction: Direction,
    chunkIndex: Option<u64>,
    proofId: Bytes16,
    issuedAt: u64)

  function OperationByte(operation: DataPlane.Operation): byte {
    match operation
    case ChunkUpload => 1
    case ResumeDiscovery => 2
    case SealManifest => 3
  }

  function DirectionByte(direction: Direction): byte {
    match direction
    case AgentToServer => 1
  }

  function PresentByte(chunkIndex: Option<u64>): byte {
    if chunkIndex.Some? then 1 else 0
  }

  function IndexOrZero(chunkIndex: Option<u64>): u64 {
    if chunkIndex.Some? then chunkIndex.value else 0
  }

  /** The transcript without its last three fields. */
  function Head(capability: Bytes32, f: ProofFields): seq<byte> {
    BigEndian(|PROOF_DOMAIN|, 2) + Ascii(PROOF_DOMAIN) + BigEndian(PROOF_SCHEMA_VERSION, 2)
    + capability + [OperationByte(f.operation)] + f.transferId + f.artifactId
    + [DirectionByte(f.direction)] + [PresentByte(f.chunkIndex)]
  }

  /** What both sides sign and verify. */
  function Transcript(capability: Bytes32, f: ProofFields): seq<byte> {
    Head(capability, f) + BigEndian(IndexOrZero(f.chunkIndex), 8) + f.proofId + BigEndian(f.issuedAt, 8)
  }

  /** The Server's builder: slices copied at a moving offset. */
  method ServerProofTranscript(capability: Bytes32, f: ProofFields) returns (transcript: seq<byte>)
    ensures transcript == Transcript(capability, f) && |transcript| == PROOF_TRANSCRIPT_LENGTH
  {
    var buf := new byte[PROOF_TRANSCRIPT_LENGTH](i => 0);
    var offset := 0;
    CopyInto(buf, offset, BigEndian(|PROOF_DOMAIN|, 2));
    offset := offset + 2;
    CopyInto(buf, offset, Ascii(PROOF_DOMAIN));
    offset := offset + |PROOF_DOMAIN|;
    CopyInto(buf, offset, BigEndian(PROOF_SCHEMA_VERSION, 2));
    offset := offset + 2;
    CopyInto(buf, offset, capability);
    offset := offset + 32;
    buf[offset] := OperationByte(f.operation);
    offset := offset + 1;
    assert buf[..offset] == BigEndian(|PROOF_DOMAIN|, 2) + Ascii(PROOF_DOMAIN) + BigEndian(PROOF_SCHEMA_VERSION, 2)
                            + capability + [OperationByte(f.operation)];
    CopyInto(buf, offset, f.transferId);
    offset := offset + 16;
    CopyInto(buf, offset, f.artifactId);
    offset := offset + 16;
    buf[offset] := DirectionByte(f.direction);
    offset := offset + 1;
    buf[offset] := PresentByte(f.chunkIndex);
    offset := offset + 1;
    assert buf[..offset] == Head(capability, f);
    CopyInto(buf, offset, BigEndian(IndexOrZero(f.chunkIndex), 8));
    offset := offset + 8;
    CopyInto(buf, offset, f.proofId);
    offset := offset + 16;
    CopyInto(buf, offset, BigEndian(f.issuedAt, 8));
    offset := offset + 8;
    assert buf[..offset] == buf[..];
    return buf[..];
  }

  /** The Agent's writer: copies and says where the next field goes. */
  method Put(buf: array<byte>, offset: nat, bytes: seq<byte>) returns (next: nat)
    requires offset + |bytes| <= buf.Length
    modifies buf
    ensures next == offset + |bytes| && buf[..next] == old(buf[..offset]) + bytes
  {
    CopyInto(buf, offset, bytes);
    next := offset + |bytes|;
  }

  /** The Agent's builder: one field after the other through the writer. */
  method AgentProofTranscript(capability: Bytes32, f: ProofFields) returns (transcript: seq<byte>)
    ensures transcript == Transcript(capability, f) && |transcript| == PROOF_TRANSCRIPT_LENGTH
  {
    var buf := new byte[PROOF_TRANSCRIPT_LENGTH](i => 0);
    var offset := Put(buf, 0, BigEndian(|PROOF_DOMAIN|, 2));
    offset := Put(buf, offset, Ascii(PROOF_DOMAIN));
    offset := Put(buf, offset, BigEndian(PROOF_SCHEMA_VERSION, 2));
    offset := Put(buf, offset, capability);
    assert buf[..offset] == BigEndian(|PROOF_DOMAIN|, 2) + Ascii(PROOF_DOMAIN)
                            + BigEndian(PROOF_SCHEMA_VERSION, 2) + capability;
    offset := Put(buf, offset, [OperationByte(f.operation)]);
    offset := Put(buf, offset, f.transferId);
    offset := Put(buf, offset, f.artifactId);
    assert buf[..offset] == BigEndian(|PROOF_DOMAIN|, 2) + Ascii(PROOF_DOMAIN)
                            + BigEndian(PROOF_SCHEMA_VERSION, 2) + capability
                            + [OperationByte(f.operation)] + f.transferId + f.artifactId;
    offset := Put(buf, offset, [DirectionByte(f.direction)]);
    offset := Put(buf, offset, [PresentByte(f.chunkIndex)]);
    assert buf[..offset] == Head(capability, f);
    offset := Put(buf, offset, BigEndian(IndexOrZero(f.chunkIndex), 8));
    offset := Put(buf, offset, f.proofId);
    offset := Put(buf, offset, BigEndian(f.issuedAt, 8));
    assert buf[..offset] == buf[..];
    return buf[..];
  }

  /** Equal concatenations with equally long ends have equal parts. */
  lemma Peel(a: seq<byte>, b: seq<byte>, x: seq<byte>, y: seq<byte>)
    requires a + x == b + y && |x| == |y|
    ensures a == b && x == y
  {
    assert |a| == |b|;
    assert a == (a + x)[..|a|] && b == (b + y)[..|a|];
    assert x == (a + x)[|a|..] && y == (b + y)[|a|..];
  }

  lemma HeadIsInjective(c: Bytes32, f: ProofFields, d: Bytes32, g: ProofFields)
    requires Head(c, f) == Head(d, g)
    ensures c == d && f.operation == g.operation && f.transferId == g.transferId && f.artifactId == g.artifactId
    ensures f.chunkIndex.Some? <==> g.chunkIndex.Some?
  {
    var h := BigEndian(|PROOF_DOMAIN|, 2) + Ascii(PROOF_DOMAIN) + BigEndian(PROOF_SCHEMA_VERSION, 2);
    var f1, g1 := h + c, h + d;
    var f2, g2 := f1 + [OperationByte(f.operation)], g1 + [OperationByte(g.operation)];
    var f3, g3 := f2 + f.transferId, g2 + g.transferId;
    var f4, g4 := f3 + f.artifactId, g3 + g.artifactId;
    var f5, g5 := f4 + [DirectionByte(f.direction)], g4 + [DirectionByte(g.direction)];
    Peel(f5, g5, [PresentByte(f.chunkIndex)], [PresentByte(g.chunkIndex)]);
    Peel(f4, g4, [DirectionByte(f.direction)], [DirectionByte(g.direction)]);
    Peel(f3, g3, f.artifactId, g.artifactId);
    Peel(f2, g2, f.transferId, g.transferId);
    Peel(f1, g1, [OperationByte(f.operation)], [OperationByte(g.operation)]);
    Peel(h, h, c, d);
    assert [OperationByte(f.operation)][0] == [OperationByte(g.operation)][0];
    assert [PresentByte(f.chunkIndex)][0] == [PresentByte(g.chunkIndex)][0];
  }

  /** A signature over a transcript speaks about exactly one request. */
  lemma TranscriptIsInjective(c: Bytes32, f: ProofFields, d: Bytes32, g: ProofFields)
    requires Transcript(c, f) == Transcript(d, g)
    ensures c == d && f == g
  {
    var f1, g1 := Head(c, f), Head(d, g);
    var f2, g2 := f1 + BigEndian(IndexOrZero(f.chunkIndex), 8), g1 + BigEndian(IndexOrZero(g.chunkIndex), 8);
    var f3, g3 := f2 + f.proofId, g2 + g.proofId;
    assert Transcript(c, f) == f3 + BigEndian(f.issuedAt, 8);
    assert Transcript(d, g) == g3 + BigEndian(g.issuedAt, 8);
    Peel(f3, g3, BigEndian(f.issuedAt, 8), BigEndian(g.issuedAt, 8));
    Peel(f2, g2, f.proofId, g.proofId);
    Peel(f1, g1, BigEndian(IndexOrZero(f.chunkIndex), 8), BigEndian(IndexOrZero(g.chunkIndex), 8));
    HeadIsInjective(c, f, d, g);
    U64RoundTrip(f.issuedAt);
    U64RoundTrip(g.issuedAt);
    U64RoundTrip(IndexOrZero(f.chunkIndex));
    U64RoundTrip(IndexOrZero(g.chunkIndex));
  }
}
