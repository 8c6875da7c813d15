/** The dotted wire form of a presented credential: version, kind, lookup identifier and
    secret, the last two in base64url. */
module WireCredential {
  import opened Workflow
  import opened Bytes
  import opened Base64Url
  import Credentials

  const WIRE_VERSION := "v1"
  const LOOKUP_ID_LENGTH := 16
  const SECRET_LENGTH := 32

  type LookupId = b: seq<byte> | |b| == LOOKUP_ID_LENGTH witness seq(LOOKUP_ID_LENGTH, i => 0)
  type Secret = b: seq<byte> | |b| == SECRET_LENGTH witness seq(SECRET_LENGTH, i => 0)

  datatype Presented = Presented(kind: Credentials.Kind, lookupId: LookupId, secret: Secret)

  function KindToWire(kind: Credentials.Kind): string {
    match kind
    case Enrollment => "enrollment"
    case Runtime => "runtime"
  }

  function KindFromWire(s: string): Option<Credentials.Kind> {
    if s == "enrollment" then Some(Credentials.Enrollment)
    else if s == "runtime" then Some(Credentials.Runtime)
    else None
  }

  /** The parts between dots. */
  function Split(s: string): (parts: seq<string>)
    ensures parts != []
  {
    if s == "" then [""]
    else
      var rest := Split(s[1..]);
      if s[0] == '.' then [""] + rest else [[s[0]] + rest[0]] + rest[1..]
  }

  function Join(parts: seq<string>): string {
    if parts == [] then "" else if |parts| == 1 then parts[0] else parts[0] + "." + Join(parts[1..])
  }

  function ToWire(p: Presented): string {
    Join([WIRE_VERSION, KindToWire(p.kind), Encode(p.lookupId), Encode(p.secret)])
  }

  datatype ParseError =
    | UnsupportedVersion
    | UnknownKind
    | MalformedStructure
    | InvalidLookupIdEncoding
    | InvalidLookupIdLength
    | InvalidSecretEncoding
    | InvalidSecretLength

  function ParseFixed(s: string, length: nat, badEncoding: ParseError, badLength: ParseError)
    : Result<seq<byte>, ParseError>
  {
    match Decode(s)
    case None => Err(badEncoding)
    case Some(bytes) => if |bytes| != length then Err(badLength) else Ok(bytes)
  }

  function Parse(wire: string): Result<Presented, ParseError> {
    var parts := Split(wire);
    if |parts| != 4 then Err(MalformedStructure)
    else if parts[0] == "" || parts[1] == "" || parts[2] == "" || parts[3] == "" then Err(MalformedStructure)
    else if parts[0] != WIRE_VERSION then Err(UnsupportedVersion)
    else match KindFromWire(parts[1])
      case None => Err(UnknownKind)
      case Some(kind) =>
        match ParseFixed(parts[2], LOOKUP_ID_LENGTH, InvalidLookupIdEncoding, InvalidLookupIdLength)
        case Err(error) => Err(error)
        case Ok(lookupId) =>
          match ParseFixed(parts[3], SECRET_LENGTH, InvalidSecretEncoding, InvalidSecretLength)
          case Err(error) => Err(error)
          case Ok(secret) => Ok(Presented(kind, lookupId, secret))
  }

  // ---------------------------------------------------------------------
  // Splitting and joining
  // ---------------------------------------------------------------------

  lemma {:induction false} JoinSplit(s: string)
    ensures Join(Split(s)) == s
  {
    if s != "" {
      JoinSplit(s[1..]);
      var rest := Split(s[1..]);
      if s[0] == '.' {
        assert ([""] + rest)[1..] == rest;
      } else {
        assert ([[s[0]] + rest[0]] + rest[1..])[1..] == rest[1..];
        assert s == [s[0]] + s[1..];
      }
    }
  }

  lemma {:induction false} SplitFirst(s: string, rest: string)
    requires '.' !in s
    ensures Split(s + "." + rest) == [s] + Split(rest)
  {
    if s == "" {
      assert s + "." + rest == "." + rest;
      assert ("." + rest)[1..] == rest;
    } else {
      SplitFirst(s[1..], rest);
      assert (s + "." + rest)[1..] == s[1..] + "." + rest;
      assert [s[0]] + s[1..] == s;
      assert ([s[1..]] + Split(rest))[1..] == Split(rest);
    }
  }

  lemma {:induction false} SplitWhole(s: string)
    requires '.' !in s
    ensures Split(s) == [s]
  {
    if s != "" {
      SplitWhole(s[1..]);
      assert [s[0]] + s[1..] == s;
    }
  }

  lemma {:induction false} SplitJoin(parts: seq<string>)
    requires parts != [] && forall p :: p in parts ==> '.' !in p
    ensures Split(Join(parts)) == parts
  {
    if |parts| == 1 {
      SplitWhole(parts[0]);
    } else {
      SplitFirst(parts[0], Join(parts[1..]));
      SplitJoin(parts[1..]);
      assert parts == [parts[0]] + parts[1..];
    }
  }

  lemma KindRoundTrip(kind: Credentials.Kind, s: string)
    ensures KindFromWire(s) == Some(kind) <==> s == KindToWire(kind)
  {
  }

  /** Printing and parsing are inverse: a wire value is accepted exactly when it is the
      printed form of the credential it parses to. */
  lemma ParseIff(wire: string, p: Presented)
    ensures Parse(wire) == Ok(p) <==> wire == ToWire(p)
  {
    if wire == ToWire(p) {
      PrintedParses(p);
    }
    if Parse(wire) == Ok(p) {
      ParsedPrints(wire, p);
    }
  }

  lemma PrintedParses(p: Presented)
    ensures Parse(ToWire(p)) == Ok(p)
  {
    EncodeAlphabet(p.lookupId);
    EncodeAlphabet(p.secret);
    SplitJoin([WIRE_VERSION, KindToWire(p.kind), Encode(p.lookupId), Encode(p.secret)]);
    KindRoundTrip(p.kind, KindToWire(p.kind));
    DecodeIff(Encode(p.lookupId), p.lookupId);
    DecodeIff(Encode(p.secret), p.secret);
    EncodeLength(p.lookupId);
    EncodeLength(p.secret);
  }

  lemma ParsedPrints(wire: string, p: Presented)
    requires Parse(wire) == Ok(p)
    ensures wire == ToWire(p)
  {
    var parts := Split(wire);
    JoinSplit(wire);
    KindRoundTrip(p.kind, parts[1]);
    DecodeIff(parts[2], p.lookupId);
    DecodeIff(parts[3], p.secret);
    assert parts == [WIRE_VERSION, KindToWire(p.kind), Encode(p.lookupId), Encode(p.secret)];
  }

  /** Different credentials print differently. */
  lemma ToWireIsInjective(p: Presented, q: Presented)
    requires ToWire(p) == ToWire(q)
    ensures p == q
  {
    ParseIff(ToWire(p), p);
    ParseIff(ToWire(p), q);
  }
}
