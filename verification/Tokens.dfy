/**
Access tokens and session tokens (internal/api/token.go, internal/api/auth_handlers.go): text forms that are built
in one place and taken apart in another. A token's expiry is in whole seconds.
 */
module Tokens {
  import opened Wrappers
  import opened Base64
  import opened Clock
  import opened Strings

  const ACCESS_TOKEN_TTL: nat := 8 * 3600 * SECOND
  const SESSION_TTL: nat := 30 * 24 * 3600 * SECOND

  type Bytes = seq<Byte>

  datatype Payload = Payload(subject: string, ns: string, expires: nat)

  // encoding/json on the payload, and HMAC-SHA256.
  datatype Library = Library(
    marshal: Payload -> Bytes,
    unmarshal: Bytes -> Option<Payload>,
    mac: (Bytes, Bytes) -> Bytes)

  ghost predicate MarshalsBack(lib: Library) {
    forall p :: lib.unmarshal(lib.marshal(p)) == Some(p)
  }

  datatype TokenError = Malformed | BadPayload | BadSignature | WrongSignature | NoSubject | Expired

  function SignPayload(lib: Library, key: Bytes, p: Payload): string {
    var payload := lib.marshal(p);
    Encode(URL, payload) + "." + Encode(URL, lib.mac(key, payload))
  }

  function IssueAccessToken(lib: Library, key: Bytes, subject: string, ns: string, now: nat): string {
    SignPayload(lib, key, Payload(subject, ns, Unix(now + ACCESS_TOKEN_TTL)))
  }

  function VerifyToken(lib: Library, key: Bytes, token: string, now: nat): Result<(string, string), TokenError> {
    match Cut(token, '.')
    case None => Err(Malformed)
    case Some((payload64, sig64)) =>
      match (Decode(URL, payload64), Decode(URL, sig64))
      case (None, _) => Err(BadPayload)
      case (_, None) => Err(BadSignature)
      case (Some(payload), Some(sig)) =>
        if sig != lib.mac(key, payload) then Err(WrongSignature)
        else
          match lib.unmarshal(payload)
          case None => Err(BadPayload)
          case Some(p) =>
            if p.subject == "" then Err(NoSubject)
            else if Unix(now) > p.expires then Err(Expired)
            else Ok((p.subject, p.ns))
  }

  // The split at the first '.' recovers both halves of a signed token, and both decode.
  lemma TakenApart(lib: Library, key: Bytes, p: Payload)
    ensures var token, payload := SignPayload(lib, key, p), lib.marshal(p);
            && Cut(token, '.') == Some((Encode(URL, payload), Encode(URL, lib.mac(key, payload))))
            && Decode(URL, Encode(URL, payload)) == Some(payload)
            && Decode(URL, Encode(URL, lib.mac(key, payload))) == Some(lib.mac(key, payload))
  {
    var payload := lib.marshal(p);
    RoundTrip(URL, payload);
    RoundTrip(URL, lib.mac(key, payload));
    CutJoined(Encode(URL, payload), '.', Encode(URL, lib.mac(key, payload)));
  }

  // An issued token verifies to exactly its subject and namespace, until the second in which it expires is over;
  // and never for an empty subject.
  lemma VerifiesIff(lib: Library, key: Bytes, subject: string, ns: string, issued: nat, now: nat)
    requires MarshalsBack(lib)
    ensures var r := VerifyToken(lib, key, IssueAccessToken(lib, key, subject, ns, issued), now);
            && (r == Ok((subject, ns)) <==> subject != "" && Unix(now) <= Unix(issued + ACCESS_TOKEN_TTL))
            && (r.Err? <==> r == Err(if subject == "" then NoSubject else Expired))
  {
    TakenApart(lib, key, Payload(subject, ns, Unix(issued + ACCESS_TOKEN_TTL)));
  }

  // The same token under another key is refused, as long as the two keys sign it differently.
  lemma OtherKeyRefuses(lib: Library, key: Bytes, other: Bytes, subject: string, ns: string, issued: nat, now: nat)
    requires var d := lib.marshal(Payload(subject, ns, Unix(issued + ACCESS_TOKEN_TTL)));
             lib.mac(other, d) != lib.mac(key, d)
    ensures VerifyToken(lib, other, IssueAccessToken(lib, key, subject, ns, issued), now) == Err(WrongSignature)
  {
    TakenApart(lib, key, Payload(subject, ns, Unix(issued + ACCESS_TOKEN_TTL)));
  }

  // Unforgeability, for one token: a signature it carries that is right for some bytes was made for the payload
  // of an issued token.
  ghost predicate SignedOnly(lib: Library, key: Bytes, token: string, issued: set<Payload>) {
    forall d: Bytes ::
      Cut(token, '.').Some? && Decode(URL, Cut(token, '.').value.1) == Some(lib.mac(key, d)) ==>
        exists p <- issued :: d == lib.marshal(p)
  }

  // Whatever verifies is one of the issued payloads, within its time.
  lemma VerifiedWasIssued(lib: Library, key: Bytes, token: string, now: nat, issued: set<Payload>)
    requires MarshalsBack(lib) && SignedOnly(lib, key, token, issued)
    ensures match VerifyToken(lib, key, token, now)
            case Ok((subject, ns)) => exists p <- issued :: p.subject == subject && p.ns == ns && Unix(now) <= p.expires
            case Err(_) => true
  {
    var r := VerifyToken(lib, key, token, now);
    if r.Ok? {
      var (payload64, sig64) := Cut(token, '.').value;
      var d := Decode(URL, payload64).value;
      assert Decode(URL, sig64) == Some(lib.mac(key, d));
      var p :| p in issued && d == lib.marshal(p);
      assert lib.unmarshal(d) == Some(p);
      assert p.subject == r.value.0 && p.ns == r.value.1;
    }
  }

  lemma VerifiedHasSubject(lib: Library, key: Bytes, token: string, now: nat)
    requires VerifyToken(lib, key, token, now).Ok?
    ensures VerifyToken(lib, key, token, now).value.0 != ""
  {
  }

  // ---- Session tokens ----

  function SessionToken(id: string, secret: string): string {
    id + "." + secret
  }

  function SplitSessionToken(token: string): Option<(string, string)> {
    match Cut(token, '.')
    case Some((id, secret)) => if id == "" || secret == "" then None else Some((id, secret))
    case None => None
  }

  // A session token comes apart as it was put together exactly for a non-empty id without '.' and a non-empty
  // secret.
  lemma SessionTokenRoundTripIff(id: string, secret: string)
    ensures SplitSessionToken(SessionToken(id, secret)) == Some((id, secret))
            <==> id != "" && secret != "" && '.' !in id
  {
    CutJoinedIff(id, '.', secret);
  }

  // token names a session and presents a secret for it.
  predicate Presents(token: string, id: string, secret: string) {
    token == id + "." + secret && id != "" && secret != "" && '.' !in id
  }

  // So a token comes apart into exactly the id and the secret it presents.
  lemma SplitsIff(token: string, id: string, secret: string)
    ensures SplitSessionToken(token) == Some((id, secret)) <==> Presents(token, id, secret)
  {
    if Presents(token, id, secret) {
      SessionTokenRoundTripIff(id, secret);
    }
    CutParts(token, '.');
  }

  lemma SplitsIffPresents(token: string)
    ensures SplitSessionToken(token).None? <==> forall id, secret :: !Presents(token, id, secret)
  {
    if SplitSessionToken(token).Some? {
      var (id, secret) := SplitSessionToken(token).value;
      SplitsIff(token, id, secret);
    }
    forall id, secret | Presents(token, id, secret) ensures SplitSessionToken(token).Some? {
      SplitsIff(token, id, secret);
    }
  }

  // The secrets of GenerateSessionSecret always do.
  lemma GeneratedSecretSplits(id: string, random: Bytes)
    requires id != "" && '.' !in id && random != []
    ensures SplitSessionToken(SessionToken(id, Encode(URL, random))) == Some((id, Encode(URL, random)))
  {
    SessionTokenRoundTripIff(id, Encode(URL, random));
  }
}
