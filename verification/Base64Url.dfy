/** base64url without padding (sections 5 and 3.2 of RFC 4648), decoded strictly: no
    padding, no other alphabet, and zero trailing bits (section 3.5). */
module Base64Url {
  import opened Workflow
  import opened Bytes

  type sextet = v: int | 0 <= v < 64

  function ToChar(v: sextet): char {
    if v < 26 then ('A' as int + v) as char
    else if v < 52 then ('a' as int + v - 26) as char
    else if v < 62 then ('0' as int + v - 52) as char
    else if v == 62 then '-'
    else '_'
  }

  function FromChar(c: char): Option<sextet> {
    if 'A' <= c <= 'Z' then Some(c as int - 'A' as int)
    else if 'a' <= c <= 'z' then Some(c as int - 'a' as int + 26)
    else if '0' <= c <= '9' then Some(c as int - '0' as int + 52)
    else if c == '-' then Some(62)
    else if c == '_' then Some(63)
    else None
  }

  predicate IsCanonicalChar(c: char) {
    'A' <= c <= 'Z' || 'a' <= c <= 'z' || '0' <= c <= '9' || c == '-' || c == '_'
  }

  lemma CharRoundTrip(v: sextet)
    ensures FromChar(ToChar(v)) == Some(v) && IsCanonicalChar(ToChar(v))
  {
  }

  lemma SextetRoundTrip(c: char)
    ensures FromChar(c).Some? <==> IsCanonicalChar(c)
    ensures FromChar(c).Some? ==> ToChar(FromChar(c).value) == c
  {
  }

  // Three octets and the four sextets that carry them.

  function Sextet0(a: byte): sextet { a / 4 }
  function Sextet1(a: byte, b: byte): sextet { var x: int, y: int := a, b; x % 4 * 16 + y / 16 }
  function Sextet2(b: byte, c: byte): sextet { var x: int, y: int := b, c; x % 16 * 4 + y / 64 }
  function Sextet3(c: byte): sextet { c % 64 }
  function Octet0(p: sextet, q: sextet): byte { var x: int, y: int := p, q; x * 4 + y / 16 }
  function Octet1(q: sextet, r: sextet): byte { var x: int, y: int := q, r; x % 16 * 16 + y / 4 }
  function Octet2(r: sextet, t: sextet): byte { var x: int, y: int := r, t; x % 4 * 64 + y }

  lemma OctetsBack(a: byte, b: byte, c: byte)
    ensures Octet0(Sextet0(a), Sextet1(a, b)) == a
    ensures Octet1(Sextet1(a, b), Sextet2(b, c)) == b
    ensures Octet2(Sextet2(b, c), Sextet3(c)) == c
  {
  }

  lemma SextetsBack(p: sextet, q: sextet, r: sextet, t: sextet)
    ensures Sextet0(Octet0(p, q)) == p && Sextet1(Octet0(p, q), Octet1(q, r)) == q
    ensures Sextet2(Octet1(q, r), Octet2(r, t)) == r && Sextet3(Octet2(r, t)) == t
    ensures q % 16 == 0 ==> Sextet1(Octet0(p, q), 0) == q
    ensures r % 4 == 0 ==> Sextet2(Octet1(q, r), 0) == r
  {
  }

  function Encode(bytes: seq<byte>): string {
    if bytes == [] then ""
    else if |bytes| == 1 then [ToChar(Sextet0(bytes[0])), ToChar(Sextet1(bytes[0], 0))]
    else if |bytes| == 2 then
      [ToChar(Sextet0(bytes[0])), ToChar(Sextet1(bytes[0], bytes[1])), ToChar(Sextet2(bytes[1], 0))]
    else
      [ToChar(Sextet0(bytes[0])), ToChar(Sextet1(bytes[0], bytes[1])),
       ToChar(Sextet2(bytes[1], bytes[2])), ToChar(Sextet3(bytes[2]))]
      + Encode(bytes[3..])
  }

  /** The values of a string's characters, if all belong to the alphabet. */
  function Values(s: string): Option<seq<sextet>> {
    if s == "" then Some([])
    else match FromChar(s[0])
      case None => None
      case Some(v) =>
        match Values(s[1..])
        case None => None
        case Some(rest) => Some([v] + rest)
  }

  /** Sextets back to octets; what is left over must be zero. */
  function Pack(v: seq<sextet>): Option<seq<byte>> {
    if v == [] then Some([])
    else if |v| == 1 then None
    else if |v| == 2 then
      if v[1] % 16 == 0 then Some([Octet0(v[0], v[1])]) else None
    else if |v| == 3 then
      if v[2] % 4 == 0 then Some([Octet0(v[0], v[1]), Octet1(v[1], v[2])]) else None
    else
      match Pack(v[4..])
      case None => None
      case Some(rest) => Some([Octet0(v[0], v[1]), Octet1(v[1], v[2]), Octet2(v[2], v[3])] + rest)
  }

  function Decode(s: string): Option<seq<byte>> {
    match Values(s)
    case None => None
    case Some(v) => Pack(v)
  }

  // ---------------------------------------------------------------------
  // Encoding and decoding are inverse
  // ---------------------------------------------------------------------

  /** The sextets of an encoding. */
  function Unpack(bytes: seq<byte>): seq<sextet> {
    if bytes == [] then []
    else if |bytes| == 1 then [Sextet0(bytes[0]), Sextet1(bytes[0], 0)]
    else if |bytes| == 2 then [Sextet0(bytes[0]), Sextet1(bytes[0], bytes[1]), Sextet2(bytes[1], 0)]
    else
      [Sextet0(bytes[0]), Sextet1(bytes[0], bytes[1]), Sextet2(bytes[1], bytes[2]), Sextet3(bytes[2])]
      + Unpack(bytes[3..])
  }

  function Print(v: seq<sextet>): string {
    seq(|v|, i requires 0 <= i < |v| => ToChar(v[i]))
  }

  lemma {:induction false} EncodePrints(bytes: seq<byte>)
    ensures Encode(bytes) == Print(Unpack(bytes))
  {
    if |bytes| > 2 {
      EncodePrints(bytes[3..]);
    }
  }

  lemma {:induction false} ValuesOfPrint(v: seq<sextet>)
    ensures Values(Print(v)) == Some(v)
  {
    if v != [] {
      CharRoundTrip(v[0]);
      assert Print(v)[1..] == Print(v[1..]);
      ValuesOfPrint(v[1..]);
      assert v == [v[0]] + v[1..];
    }
  }

  lemma {:induction false} PrintOfValues(s: string)
    ensures Values(s).Some? <==> forall i :: 0 <= i < |s| ==> IsCanonicalChar(s[i])
    ensures Values(s).Some? ==> Print(Values(s).value) == s
  {
    if s != "" {
      SextetRoundTrip(s[0]);
      PrintOfValues(s[1..]);
      assert forall i :: 0 <= i < |s| - 1 ==> s[1..][i] == s[i + 1];
      assert (forall i :: 0 <= i < |s| ==> IsCanonicalChar(s[i])) <==>
             IsCanonicalChar(s[0]) && forall i :: 0 <= i < |s| - 1 ==> IsCanonicalChar(s[1..][i]);
      if Values(s).Some? {
        var rest := Values(s[1..]).value;
        assert Print([FromChar(s[0]).value] + rest) == [s[0]] + Print(rest);
      }
    }
  }

  lemma {:induction false} PackUnpack(bytes: seq<byte>)
    ensures Pack(Unpack(bytes)) == Some(bytes)
  {
    if |bytes| == 1 {
      OctetsBack(bytes[0], 0, 0);
      assert Sextet1(bytes[0], 0) % 16 == 0;
      assert bytes == [bytes[0]];
    } else if |bytes| == 2 {
      OctetsBack(bytes[0], bytes[1], 0);
      assert Sextet2(bytes[1], 0) % 4 == 0;
      assert bytes == [bytes[0], bytes[1]];
    } else if |bytes| > 2 {
      OctetsBack(bytes[0], bytes[1], bytes[2]);
      PackUnpack(bytes[3..]);
      assert Unpack(bytes)[4..] == Unpack(bytes[3..]);
      assert bytes == [bytes[0], bytes[1], bytes[2]] + bytes[3..];
    }
  }

  lemma {:induction false} UnpackPack(v: seq<sextet>)
    ensures Pack(v).Some? ==> Unpack(Pack(v).value) == v
  {
    if |v| == 2 {
      SextetsBack(v[0], v[1], 0, 0);
    } else if |v| == 3 {
      SextetsBack(v[0], v[1], v[2], 0);
    } else if |v| > 3 {
      UnpackPack(v[4..]);
      if Pack(v).Some? {
        SextetsBack(v[0], v[1], v[2], v[3]);
        var rest := Pack(v[4..]).value;
        var bytes := [Octet0(v[0], v[1]), Octet1(v[1], v[2]), Octet2(v[2], v[3])] + rest;
        assert bytes[3..] == rest;
        assert v == [v[0], v[1], v[2], v[3]] + v[4..];
      }
    }
  }

  /** Decoding undoes encoding, and nothing but the encoding of its own result decodes. */
  lemma DecodeIff(s: string, bytes: seq<byte>)
    ensures Decode(s) == Some(bytes) <==> s == Encode(bytes)
  {
    EncodePrints(bytes);
    if s == Encode(bytes) {
      ValuesOfPrint(Unpack(bytes));
      PackUnpack(bytes);
    }
    if Decode(s) == Some(bytes) {
      PrintOfValues(s);
      UnpackPack(Values(s).value);
    }
  }

  function EncodedLength(n: nat): nat {
    (4 * n + 2) / 3
  }

  lemma {:induction false} EncodeLength(bytes: seq<byte>)
    ensures |Encode(bytes)| == EncodedLength(|bytes|)
  {
    if |bytes| > 2 {
      EncodeLength(bytes[3..]);
    }
  }

  lemma EncodeAlphabet(bytes: seq<byte>)
    ensures forall i :: 0 <= i < |Encode(bytes)| ==> IsCanonicalChar(Encode(bytes)[i])
    ensures '.' !in Encode(bytes)
  {
  }

  /** Different lengths encode to different lengths. */
  lemma LengthIsInjective(n: nat, m: nat)
    requires EncodedLength(n) == EncodedLength(m)
    ensures n == m
  {
  }

  // ---------------------------------------------------------------------
  // Fixed-length wire values
  // ---------------------------------------------------------------------

  datatype WireError = WireLength | InvalidCharacters | InvalidEncoding | InvalidDecodedLength | NonCanonical

  /** The strict text form shared by proof identifiers, keys, signatures and carriers. A key
      must in addition be a point of its curve, which only its own parser checks. */
  function ParseWire(value: string, wireLength: nat, byteLength: nat): Result<seq<byte>, WireError> {
    if |value| != wireLength then Err(WireLength)
    else if exists i :: 0 <= i < |value| && !IsCanonicalChar(value[i]) then Err(InvalidCharacters)
    else match Decode(value)
      case None => Err(InvalidEncoding)
      case Some(bytes) =>
        if |bytes| != byteLength then Err(InvalidDecodedLength)
        else if Encode(bytes) != value then Err(NonCanonical)
        else Ok(bytes)
  }

  const PROOF_ID_BYTES := 16
  const PROOF_ID_WIRE_LENGTH := 22
  const PUBLIC_KEY_BYTES := 32
  const PUBLIC_KEY_WIRE_LENGTH := 43
  const SIGNATURE_BYTES := 64
  const SIGNATURE_WIRE_LENGTH := 86
  const ASSERTION_BYTES := 197
  const CARRIER_LENGTH := 263

  /** The lengths the formats prescribe are those of the encoding. */
  lemma WireLengths()
    ensures EncodedLength(PROOF_ID_BYTES) == PROOF_ID_WIRE_LENGTH
    ensures EncodedLength(PUBLIC_KEY_BYTES) == PUBLIC_KEY_WIRE_LENGTH
    ensures EncodedLength(SIGNATURE_BYTES) == SIGNATURE_WIRE_LENGTH
    ensures EncodedLength(ASSERTION_BYTES) == CARRIER_LENGTH
  {
  }

  /** With the matching wire length the parser accepts exactly the printed values, and its
      last two checks can never fire. */
  lemma ParseWireIff(value: string, byteLength: nat, bytes: seq<byte>)
    ensures ParseWire(value, EncodedLength(byteLength), byteLength) == Ok(bytes) <==>
            |bytes| == byteLength && value == Encode(bytes)
    ensures ParseWire(value, EncodedLength(byteLength), byteLength) != Err(InvalidDecodedLength)
    ensures ParseWire(value, EncodedLength(byteLength), byteLength) != Err(NonCanonical)
  {
    DecodeIff(value, bytes);
    if value == Encode(bytes) {
      EncodeAlphabet(bytes);
      EncodeLength(bytes);
    }
    if Decode(value).Some? {
      var decoded := Decode(value).value;
      DecodeIff(value, decoded);
      EncodeLength(decoded);
      if |value| == EncodedLength(byteLength) {
        LengthIsInjective(|decoded|, byteLength);
      }
    }
  }

  datatype DigestError = DigestEncoding | DigestLength | DigestNonCanonical

  /** A digest's parser has no length check of its own before decoding. */
  function ParseDigest(value: string): Result<Digest, DigestError> {
    match Decode(value)
    case None => Err(DigestEncoding)
    case Some(bytes) =>
      if |bytes| != DIGEST_LENGTH then Err(DigestLength)
      else if Encode(bytes) != value then Err(DigestNonCanonical)
      else Ok(bytes)
  }

  lemma ParseDigestIff(value: string, digest: Digest)
    ensures ParseDigest(value) == Ok(digest) <==> value == Encode(digest)
    ensures ParseDigest(value) != Err(DigestNonCanonical)
    ensures ParseDigest(value).Ok? ==> |value| == PUBLIC_KEY_WIRE_LENGTH
  {
    DecodeIff(value, digest);
    if Decode(value).Some? {
      DecodeIff(value, Decode(value).value);
      EncodeLength(Decode(value).value);
    }
  }
}
