/** The trusted-bootstrap assertion: a 133-byte signed transcript, a 64-byte signature and
    a 263-character carrier. */
module Assertion {
  import opened Workflow
  import opened Bytes
  import opened Base64Url
  import opened Transcripts

  type Bytes64 = b: seq<byte> | |b| == 64 witness seq(64, i => 0)

  const DOMAIN := "bamep.trusted-bootstrap.assertion"
  const SCHEMA_VERSION := 1
  const TRANSCRIPT_LENGTH := 133
  const NONCE_OFFSET := 37
  const FINGERPRINT_OFFSET := 69
  const SITE_KEY_ID_OFFSET := 101

  function HeaderV1(): seq<byte> {
    BigEndian(|DOMAIN|, 2) + Ascii(DOMAIN) + BigEndian(SCHEMA_VERSION, 2)
  }

  function TranscriptV1(nonce: Bytes32, fingerprint: Bytes32, siteKeyId: Bytes32): (t: seq<byte>)
    ensures |t| == TRANSCRIPT_LENGTH
  {
    HeaderV1() + nonce + fingerprint + siteKeyId
  }

  /** Fields copied to their fixed offsets. */
  method BuildTranscriptV1(nonce: Bytes32, fingerprint: Bytes32, siteKeyId: Bytes32) returns (transcript: seq<byte>)
    ensures transcript == TranscriptV1(nonce, fingerprint, siteKeyId)
  {
    var buf := new byte[TRANSCRIPT_LENGTH](i => 0);
    CopyInto(buf, 0, BigEndian(|DOMAIN|, 2));
    CopyInto(buf, 2, Ascii(DOMAIN));
    CopyInto(buf, 35, BigEndian(SCHEMA_VERSION, 2));
    assert buf[..NONCE_OFFSET] == HeaderV1();
    CopyInto(buf, NONCE_OFFSET, nonce);
    CopyInto(buf, FINGERPRINT_OFFSET, fingerprint);
    CopyInto(buf, SITE_KEY_ID_OFFSET, siteKeyId);
    assert buf[..TRANSCRIPT_LENGTH] == buf[..];
    return buf[..];
  }

  method FromSignedTranscript(transcript: seq<byte>, signature: Bytes64) returns (assertion: seq<byte>)
    requires |transcript| == TRANSCRIPT_LENGTH
    ensures assertion == transcript + signature && |assertion| == ASSERTION_BYTES
  {
    var buf := new byte[ASSERTION_BYTES](i => 0);
    CopyInto(buf, 0, transcript);
    CopyInto(buf, TRANSCRIPT_LENGTH, signature);
    assert buf[..ASSERTION_BYTES] == buf[..];
    return buf[..];
  }

  datatype AssertionError =
    | CarrierLength
    | CarrierCharacters
    | CarrierEncoding
    | CarrierNonCanonical
    | AssertionLength
    | DomainLength
    | DomainDiscriminator
    | UnsupportedSchemaVersion

  function ValidateHeader(bytes: seq<byte>): Option<AssertionError>
    requires |bytes| == ASSERTION_BYTES
  {
    if FromBigEndian(bytes[0..2]) != |DOMAIN| then Some(DomainLength)
    else if bytes[2..35] != Ascii(DOMAIN) then Some(DomainDiscriminator)
    else if FromBigEndian(bytes[35..37]) != SCHEMA_VERSION then Some(UnsupportedSchemaVersion)
    else None
  }

  function ParseCarrier(carrier: string): Result<seq<byte>, AssertionError> {
    match ParseWire(carrier, CARRIER_LENGTH, ASSERTION_BYTES)
    case Err(WireLength) => Err(CarrierLength)
    case Err(InvalidCharacters) => Err(CarrierCharacters)
    case Err(InvalidEncoding) => Err(CarrierEncoding)
    case Err(InvalidDecodedLength) => Err(AssertionLength)
    case Err(NonCanonical) => Err(CarrierNonCanonical)
    case Ok(bytes) =>
      if |bytes| != ASSERTION_BYTES then Err(AssertionLength)
      else match ValidateHeader(bytes)
        case Some(error) => Err(error)
        case None => Ok(bytes)
  }

  // ---------------------------------------------------------------------
  // Fields
  // ---------------------------------------------------------------------

  function Nonce(bytes: seq<byte>): Bytes32
    requires |bytes| == ASSERTION_BYTES
  {
    bytes[NONCE_OFFSET..NONCE_OFFSET + 32]
  }

  function Fingerprint(bytes: seq<byte>): Bytes32
    requires |bytes| == ASSERTION_BYTES
  {
    bytes[FINGERPRINT_OFFSET..FINGERPRINT_OFFSET + 32]
  }

  function SiteKeyId(bytes: seq<byte>): Bytes32
    requires |bytes| == ASSERTION_BYTES
  {
    bytes[SITE_KEY_ID_OFFSET..SITE_KEY_ID_OFFSET + 32]
  }

  function Signature(bytes: seq<byte>): Bytes64
    requires |bytes| == ASSERTION_BYTES
  {
    bytes[TRANSCRIPT_LENGTH..]
  }

  lemma U16RoundTrip(a: byte, b: byte, n: nat)
    requires n < 0x1_0000
    ensures FromBigEndian([a, b]) == n <==> [a, b] == BigEndian(n, 2)
  {
    assert [a, b][..1] == [a] && [a][..0] == [];
    assert FromBigEndian([a, b]) == 256 * FromBigEndian([a]) + b;
    assert FromBigEndian([a]) == 256 * FromBigEndian([]) + a == a;
    assert BigEndian(n, 2) == BigEndian(n / 256, 1) + [n % 256];
    assert BigEndian(n / 256, 1) == [n / 256 % 256];
  }

  /** The header check accepts exactly the V1 header. */
  lemma HeaderIff(bytes: seq<byte>)
    requires |bytes| == ASSERTION_BYTES
    ensures ValidateHeader(bytes).None? <==> bytes[..NONCE_OFFSET] == HeaderV1()
  {
    U16RoundTrip(bytes[0], bytes[1], |DOMAIN|);
    U16RoundTrip(bytes[35], bytes[36], SCHEMA_VERSION);
    assert bytes[0..2] == [bytes[0], bytes[1]] && bytes[35..37] == [bytes[35], bytes[36]];
    var h := HeaderV1();
    assert h[0..2] == BigEndian(|DOMAIN|, 2) && h[2..35] == Ascii(DOMAIN) && h[35..37] == BigEndian(SCHEMA_VERSION, 2);
    assert bytes[..NONCE_OFFSET] == bytes[0..2] + bytes[2..35] + bytes[35..37];
    if bytes[..NONCE_OFFSET] == h {
      assert bytes[0..2] == bytes[..NONCE_OFFSET][0..2] && bytes[2..35] == bytes[..NONCE_OFFSET][2..35];
      assert bytes[35..37] == bytes[..NONCE_OFFSET][35..37];
    }
  }

  /** Assertions and their fields determine each other. */
  lemma FieldsRoundTrip(nonce: Bytes32, fingerprint: Bytes32, siteKeyId: Bytes32, signature: Bytes64)
    ensures var bytes := TranscriptV1(nonce, fingerprint, siteKeyId) + signature;
            && |bytes| == ASSERTION_BYTES && bytes[..NONCE_OFFSET] == HeaderV1()
            && Nonce(bytes) == nonce && Fingerprint(bytes) == fingerprint
            && SiteKeyId(bytes) == siteKeyId && Signature(bytes) == signature
  {
  }

  lemma FieldsAreAll(bytes: seq<byte>)
    requires |bytes| == ASSERTION_BYTES && bytes[..NONCE_OFFSET] == HeaderV1()
    ensures bytes == TranscriptV1(Nonce(bytes), Fingerprint(bytes), SiteKeyId(bytes)) + Signature(bytes)
  {
  }

  /** A carrier is accepted exactly when it is the encoding of a V1 transcript with a
      signature, and its fields are then the ones it was built from. */
  lemma ParseCarrierIff(carrier: string, bytes: seq<byte>)
    ensures ParseCarrier(carrier) == Ok(bytes) <==>
            && |bytes| == ASSERTION_BYTES && carrier == Encode(bytes)
            && bytes == TranscriptV1(Nonce(bytes), Fingerprint(bytes), SiteKeyId(bytes)) + Signature(bytes)
    ensures ParseCarrier(carrier) != Err(AssertionLength) && ParseCarrier(carrier) != Err(CarrierNonCanonical)
  {
    WireLengths();
    ParseWireIff(carrier, ASSERTION_BYTES, bytes);
    if ParseWire(carrier, CARRIER_LENGTH, ASSERTION_BYTES).Ok? {
      var parsed := ParseWire(carrier, CARRIER_LENGTH, ASSERTION_BYTES).value;
      ParseWireIff(carrier, ASSERTION_BYTES, parsed);
      HeaderIff(parsed);
    }
    if |bytes| == ASSERTION_BYTES {
      HeaderIff(bytes);
      FieldsRoundTrip(Nonce(bytes), Fingerprint(bytes), SiteKeyId(bytes), Signature(bytes));
      if bytes[..NONCE_OFFSET] == HeaderV1() {
        FieldsAreAll(bytes);
      }
    }
  }
}
