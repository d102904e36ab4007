/** Compact signed internal bearer tokens (trust/tokens.py). */
module InternalTokens {
  import opened Common
  import opened Base64Url

  predicate Known(name: string) {
    name in {"sub", "aud", "iat", "exp", "alg", "typ", "principal_type", "actor_email", "actor_user_id", "scopes",
             "scope", "project_id", "correlation_id", "metadata", "entitlements"}
  }

  /** A name that has no constructor of its own in `Claim`. */
  type OtherName = name: string | !Known(name) witness ""

  /** Claim and header names: the ones the code knows, and all others; one spelling for each. */
  datatype Claim =
    | Sub | Aud | Iat | Exp | Alg | Typ
    | PrincipalType | ActorEmail | ActorUserId | Scopes | Scope | ProjectId | CorrelationId
    | Metadata | Entitlements | Other(name: OtherName)

  type Claims = map<Claim, Json>

  /** What json.loads gives: an object, or something else. */
  datatype Parsed = Object(claims: Claims) | NotObject

  /** json.dumps with UTF-8, its inverse where it has one, and HMAC-SHA256. */
  datatype TokenLibrary = TokenLibrary(
    dumps: Claims -> seq<Byte>,
    loads: seq<Byte> -> Option<Parsed>,
    hmac: (string, string) -> seq<Byte>)

  ghost predicate LosslessClaims(lib: TokenLibrary) {
    forall claims :: lib.loads(lib.dumps(claims)) == Some(Object(claims))
  }

  function Get(claims: Claims, name: Claim): Json {
    if name in claims then claims[name] else JNull
  }

  predicate CoreClaim(name: Claim) {
    name.Sub? || name.Aud? || name.Iat? || name.Exp?
  }

  predicate OverridesCore(additional: Claims) {
    exists name :: name in additional && CoreClaim(name)
  }

  const HEADER: Claims := map[Alg := JStr("HS256"), Typ := JStr("JWT")]

  datatype TokenError =
    | ReservedClaims
    | Malformed | BadSignature | BadEncoding | BadPayload | BadAlgorithm | AudienceMismatch | Expired
    | NotAscii // UnicodeEncodeError or TypeError, which are not internal token errors

  function SigningInput(lib: TokenLibrary, claims: Claims): string {
    Encode(lib.dumps(HEADER)) + "." + Encode(lib.dumps(claims))
  }

  /** header.payload.signature */
  function TokenOf(lib: TokenLibrary, secret: string, claims: Claims): string {
    SigningInput(lib, claims) + "." + Encode(lib.hmac(secret, SigningInput(lib, claims)))
  }

  /** The claims a mint signs: the core four, the actor, then the caller's own. */
  function MintedClaims(audience: string, subject: string, actorEmail: Option<string>, additional: Claims, ttl: int,
                        now: int): Claims {
    map[Sub := JStr(subject), Aud := JStr(audience), Iat := JNum(now), Exp := JNum(now + ttl)]
    + (if actorEmail.GetOr("") != "" then map[ActorEmail := JStr(actorEmail.GetOr(""))] else map[])
    + additional
  }

  method MintInternalToken(lib: TokenLibrary, secret: string, audience: string, subject: string,
                           actorEmail: Option<string>, additional: Claims, ttl: int, now: int)
    returns (token: Result<string, TokenError>)
    ensures token == if OverridesCore(additional) then Err(ReservedClaims)
                     else Ok(TokenOf(lib, secret, MintedClaims(audience, subject, actorEmail, additional, ttl, now)))
  {
    var payload: Claims := map[];
    payload := payload[Sub := JStr(subject)];
    payload := payload[Aud := JStr(audience)];
    payload := payload[Iat := JNum(now)];
    payload := payload[Exp := JNum(now + ttl)];
    if actorEmail.Some? && actorEmail.value != "" {
      payload := payload[ActorEmail := JStr(actorEmail.value)];
    }
    if OverridesCore(additional) {
      return Err(ReservedClaims);
    }
    payload := payload + additional;
    assert payload == MintedClaims(audience, subject, actorEmail, additional, ttl, now);
    var signingInput := Encode(lib.dumps(HEADER)) + "." + Encode(lib.dumps(payload));
    return Ok(signingInput + "." + Encode(lib.hmac(secret, signingInput)));
  }

  /** str.split on a dot. */
  function SplitDots(s: string): (parts: seq<string>)
    ensures parts != []
  {
    if s == [] then [[]]
    else
      var rest := SplitDots(s[1..]);
      if s[0] == '.' then [[]] + rest else [[s[0]] + rest[0]] + rest[1..]
  }

  predicate Ascii(s: string) {
    forall i :: 0 <= i < |s| ==> s[i] < '\U{80}'
  }

  /** isinstance(value, int), where a bool is an int too. */
  function AsInt(json: Json): Option<int> {
    match json
    case JNum(n) => Some(n)
    case JBool(b) => Some(if b then 1 else 0)
    case _ => None
  }

  function ParseSegment(lib: TokenLibrary, segment: string): Option<Parsed> {
    match Decode(segment)
    case Some(bytes) => lib.loads(bytes)
    case None => None
  }

  function VerifyInternalToken(lib: TokenLibrary, token: string, secret: string, audience: string,
                               now: int): Result<Claims, TokenError> {
    var parts := SplitDots(token);
    if |parts| != 3 then Err(Malformed)
    else if !Ascii(parts[0]) || !Ascii(parts[1]) || !Ascii(parts[2]) then Err(NotAscii)
    else if parts[2] != Encode(lib.hmac(secret, parts[0] + "." + parts[1])) then Err(BadSignature)
    else
      var header, payload := ParseSegment(lib, parts[0]), ParseSegment(lib, parts[1]);
      if header.None? || payload.None? then Err(BadEncoding)
      else if header.value.NotObject? || payload.value.NotObject? then Err(BadPayload)
      else if Get(header.value.claims, Alg) != JStr("HS256") then Err(BadAlgorithm)
      else if Get(payload.value.claims, Aud) != JStr(audience) then Err(AudienceMismatch)
      else
        var exp := AsInt(Get(payload.value.claims, Exp));
        if exp.None? || exp.value <= now then Err(Expired) else Ok(payload.value.claims)
  }

  /** A plain token names its subject, audience, times and actor, and carries everything else it was given. */
  lemma MintedClaimsMean(audience: string, subject: string, actorEmail: Option<string>, additional: Claims, ttl: int,
                         now: int, name: Claim)
    requires forall reserved :: reserved in additional ==> reserved !in {Sub, Aud, Iat, Exp}
    ensures Get(MintedClaims(audience, subject, actorEmail, additional, ttl, now), name)
      == match name
         case Sub => JStr(subject)
         case Aud => JStr(audience)
         case Iat => JNum(now)
         case Exp => JNum(now + ttl)
         case ActorEmail =>
           (if ActorEmail in additional then additional[ActorEmail]
            else if actorEmail.Some? && actorEmail.value != "" then JStr(actorEmail.value) else JNull)
         case _ => Get(additional, name)
  {}

  /** A caller may not name one of the four claims that verification depends on. */
  lemma ReservedMeans(additional: Claims)
    ensures OverridesCore(additional) <==>
      Sub in additional || Aud in additional || Iat in additional || Exp in additional
  {
    assert CoreClaim(Sub) && CoreClaim(Aud) && CoreClaim(Iat) && CoreClaim(Exp);
  }

  // ---- Splitting and joining ----

  ghost predicate Dotless(s: string) {
    forall i :: 0 <= i < |s| ==> s[i] != '.'
  }

  lemma {:induction false} SplitDotless(s: string)
    requires Dotless(s)
    ensures SplitDots(s) == [s]
  {
    if s != [] {
      SplitDotless(s[1..]);
      assert [s[0]] + s[1..] == s;
    }
  }

  lemma {:induction false} SplitAtDot(head: string, rest: string)
    requires Dotless(head)
    ensures SplitDots(head + "." + rest) == [head] + SplitDots(rest)
  {
    var s := head + "." + rest;
    if head == [] {
      assert s[1..] == rest;
    } else {
      assert s[1..] == head[1..] + "." + rest;
      SplitAtDot(head[1..], rest);
      assert [s[0]] + head[1..] == head;
      assert ([head[1..]] + SplitDots(rest))[1..] == SplitDots(rest);
    }
  }

  /** A split undone at its first dot. */
  lemma {:induction false} SplitUndone(s: string) returns (rest: string)
    ensures |SplitDots(s)| == 1 ==> s == SplitDots(s)[0]
    ensures |SplitDots(s)| > 1 ==> s == SplitDots(s)[0] + "." + rest && SplitDots(rest) == SplitDots(s)[1..]
  {
    rest := [];
    if s != [] {
      if s[0] == '.' {
        rest := s[1..];
        assert s == [] + "." + rest;
      } else {
        rest := SplitUndone(s[1..]);
        assert s == [s[0]] + s[1..];
        if |SplitDots(s)| > 1 {
          assert s == [s[0]] + SplitDots(s[1..])[0] + "." + rest;
        }
      }
    }
  }

  /** Three parts come from exactly one text. */
  lemma ThreePartsJoin(s: string)
    requires |SplitDots(s)| == 3
    ensures s == SplitDots(s)[0] + "." + SplitDots(s)[1] + "." + SplitDots(s)[2]
  {
    var parts := SplitDots(s);
    var rest := SplitUndone(s);
    Rejoin(rest, parts[1], parts[2]);
    assert s == parts[0] + "." + (parts[1] + "." + parts[2]);
  }

  lemma Rejoin(s: string, a: string, b: string)
    requires SplitDots(s) == [a, b]
    ensures s == a + "." + b
  {
    var rest := SplitUndone(s);
    var last := SplitUndone(rest);
  }

  lemma EncodedIsPlain(bytes: seq<Byte>)
    ensures Dotless(Encode(bytes)) && Ascii(Encode(bytes))
  {
    EncodeShape(bytes);
    assert forall i :: 0 <= i < |Encode(bytes)| ==> Alphabet(Encode(bytes)[i]);
  }

  lemma TokenParts(lib: TokenLibrary, secret: string, claims: Claims)
    ensures SplitDots(TokenOf(lib, secret, claims))
      == [Encode(lib.dumps(HEADER)), Encode(lib.dumps(claims)), Encode(lib.hmac(secret, SigningInput(lib, claims)))]
  {
    var h, p, s :=
      Encode(lib.dumps(HEADER)), Encode(lib.dumps(claims)), Encode(lib.hmac(secret, SigningInput(lib, claims)));
    EncodedIsPlain(lib.dumps(HEADER));
    EncodedIsPlain(lib.dumps(claims));
    EncodedIsPlain(lib.hmac(secret, SigningInput(lib, claims)));
    assert TokenOf(lib, secret, claims) == h + "." + (p + "." + s);
    SplitAtDot(h, p + "." + s);
    SplitAtDot(p, s);
    SplitDotless(s);
  }

  // ---- Main results ----

  /** A signed token verifies to its claims for its audience until it expires, and to nothing else. */
  lemma SignedTokenVerifies(lib: TokenLibrary, secret: string, claims: Claims, audience: string, now: int)
    requires LosslessClaims(lib)
    ensures VerifyInternalToken(lib, TokenOf(lib, secret, claims), secret, audience, now)
      == if Get(claims, Aud) != JStr(audience) then Err(AudienceMismatch)
         else if AsInt(Get(claims, Exp)).None? || AsInt(Get(claims, Exp)).value <= now then Err(Expired)
         else Ok(claims)
  {
    TokenParts(lib, secret, claims);
    EncodedIsPlain(lib.dumps(HEADER));
    EncodedIsPlain(lib.dumps(claims));
    EncodedIsPlain(lib.hmac(secret, SigningInput(lib, claims)));
    RoundTrip(lib.dumps(HEADER));
    RoundTrip(lib.dumps(claims));
  }

  lemma CoreClaimsKept(audience: string, subject: string, actorEmail: Option<string>, additional: Claims, ttl: int,
                       minted: int)
    requires !OverridesCore(additional)
    ensures var claims := MintedClaims(audience, subject, actorEmail, additional, ttl, minted);
      Get(claims, Aud) == JStr(audience) && Get(claims, Exp) == JNum(minted + ttl)
  {
    assert Aud !in additional && Exp !in additional by {
      assert CoreClaim(Aud) && CoreClaim(Exp);
    }
  }

  /** A minted token verifies, with its own audience, at every time before its expiry and at none from then on. */
  lemma MintedTokenRoundTrip(lib: TokenLibrary, secret: string, audience: string, subject: string,
                             actorEmail: Option<string>, additional: Claims, ttl: int, minted: int, now: int)
    requires LosslessClaims(lib) && !OverridesCore(additional)
    ensures var claims := MintedClaims(audience, subject, actorEmail, additional, ttl, minted);
      VerifyInternalToken(lib, TokenOf(lib, secret, claims), secret, audience, now)
        == if now < minted + ttl then Ok(claims) else Err(Expired)
  {
    var claims := MintedClaims(audience, subject, actorEmail, additional, ttl, minted);
    CoreClaimsKept(audience, subject, actorEmail, additional, ttl, minted);
    SignedTokenVerifies(lib, secret, claims, audience, now);
  }

  /** Under another secret the token is refused for its signature, unless the two digests coincide. */
  lemma OtherSecretRefused(lib: TokenLibrary, secret: string, other: string, claims: Claims, audience: string, now: int)
    requires LosslessClaims(lib)
    ensures VerifyInternalToken(lib, TokenOf(lib, secret, claims), other, audience, now) == Err(BadSignature)
      <==> lib.hmac(other, SigningInput(lib, claims)) != lib.hmac(secret, SigningInput(lib, claims))
  {
    TokenParts(lib, secret, claims);
    EncodedIsPlain(lib.dumps(HEADER));
    EncodedIsPlain(lib.dumps(claims));
    EncodedIsPlain(lib.hmac(secret, SigningInput(lib, claims)));
    EncodeInjective(lib.hmac(other, SigningInput(lib, claims)), lib.hmac(secret, SigningInput(lib, claims)));
  }

  /** Whatever is accepted carries the digest of its own first two parts, the audience, and a future expiry. */
  lemma AcceptedIsSigned(lib: TokenLibrary, token: string, secret: string, audience: string, now: int)
    requires VerifyInternalToken(lib, token, secret, audience, now).Ok?
    ensures var claims := VerifyInternalToken(lib, token, secret, audience, now).value;
      && Get(claims, Aud) == JStr(audience)
      && AsInt(Get(claims, Exp)).Some? && now < AsInt(Get(claims, Exp)).value
      && exists header, payload, names ::
           && token == header + "." + payload + "." + Encode(lib.hmac(secret, header + "." + payload))
           && ParseSegment(lib, header) == Some(Object(names)) && Get(names, Alg) == JStr("HS256")
           && ParseSegment(lib, payload) == Some(Object(claims))
  {
    ThreePartsJoin(token);
    var header, payload := SplitDots(token)[0], SplitDots(token)[1];
    assert token == header + "." + payload + "." + Encode(lib.hmac(secret, header + "." + payload));
    assert ParseSegment(lib, header) == Some(Object(ParseSegment(lib, header).value.claims));
  }
}
