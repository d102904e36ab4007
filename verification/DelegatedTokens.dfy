/** Delegated actor tokens: minting (trust/tokens.py) and verification from headers (trust/headers.py). */
module DelegatedTokens {
  import opened Common
  import opened Base64Url
  import opened InternalTokens

  const DELEGATED := "delegated"
  const DELEGATE_SCOPE := "actor.delegate"
  const MAX_TTL := 300

  /** The claims a delegation controls, beside the core ones. */
  predicate DelegationClaim(name: Claim) {
    || name.PrincipalType? || name.ActorEmail? || name.ActorUserId? || name.Scopes? || name.Scope?
    || name.ProjectId? || name.CorrelationId?
  }

  predicate OverridesReserved(additional: Claims) {
    exists name :: name in additional && (CoreClaim(name) || DelegationClaim(name))
  }

  /** Python built-ins the contract leans on: sorted() on strings, str() and dict() on JSON values. */
  datatype Builtins = Builtins(
    sorted: set<string> -> seq<string>,
    str: Json -> string,
    asDict: Json -> Option<map<string, Json>>)

  ghost predicate FaithfulBuiltins(py: Builtins) {
    && (forall s :: Elements(py.sorted(s)) == s)
    && (forall s :: py.str(JStr(s)) == s)
  }

  function Elements(xs: seq<string>): set<string> {
    set x | x in xs
  }

  /** The scopes a caller hands over: nothing, one text, or a list. */
  datatype ScopeArgument = NoScopes | ScopeText(text: string) | ScopeList(items: seq<string>)

  datatype PolicyArgument = NoPolicy | OneValue(value: string) | Values(values: seq<string>)

  datatype DelegatedError = MissingSecret | Invalid | ProjectMismatch | EscapedError

  predicate Blank(s: string) {
    Strip(s) == ""
  }

  /** str.split() without an argument. */
  function Words(s: string): seq<string> {
    WordsFrom(s, "")
  }

  function WordsFrom(s: string, word: string): seq<string> {
    if s == [] then (if word == "" then [] else [word])
    else if IsSpace(s[0]) then (if word == "" then [] else [word]) + WordsFrom(s[1..], "")
    else WordsFrom(s[1..], word + [s[0]])
  }

  /** An optional claim, trimmed; blank counts as absent. */
  function OptionalClaim(value: Option<string>): Option<string> {
    if value.None? || Blank(value.value) then None else Some(Strip(value.value))
  }

  // ---- Scopes ----

  /** The scopes claim, or the scope claim when it is missing; None for a shape that carries no scopes. */
  function TokenScopes(claims: Claims): Option<set<string>> {
    var scopes := Get(claims, Scopes);
    ScopesOf(if scopes != JNull then scopes else if Scope in claims then claims[Scope] else JArr([]))
  }

  function ScopesOf(json: Json): Option<set<string>> {
    match json
    case JStr(text) => Some(Elements(Words(text)))
    case JArr(items) =>
      if forall item :: item in items ==> item.JStr?
      then Some(set item | item in items && item.JStr? && item.text != "" :: item.text)
      else None
    case _ => None
  }

  /** The list branch of _claim_scopes and _scopes_from_claims. */
  method CollectScopes(items: seq<Json>) returns (scopes: Option<set<string>>)
    ensures scopes == ScopesOf(JArr(items))
  {
    var found: set<string> := {};
    for i := 0 to |items|
      invariant forall j :: 0 <= j < i ==> items[j].JStr?
      invariant forall s :: s in found <==> exists j :: 0 <= j < i && items[j] == JStr(s) && s != ""
    {
      if !items[i].JStr? {
        assert items[i] in items;
        return None;
      }
      if items[i].text != "" {
        found := found + {items[i].text};
      }
    }
    assert ScopesOf(JArr(items)).Some?;
    forall s
      ensures s in found <==> s in ScopesOf(JArr(items)).value
    {
      if s in found {
        assert JStr(s) in items;
      }
      if s in ScopesOf(JArr(items)).value {
        var item :| item in items && item.JStr? && item.text != "" && item.text == s;
        var j :| 0 <= j < |items| && items[j] == item;
      }
    }
    assert found == ScopesOf(JArr(items)).value;
    return Some(found);
  }

  function RequestedScopes(scopes: ScopeArgument): set<string> {
    match scopes
    case NoScopes => {}
    case ScopeText(text) => Elements(Words(text))
    case ScopeList(items) => Elements(items) - {""}
  }

  // ---- Minting ----

  /** A delegation request, and the environment it is minted in. */
  datatype Request = Request(
    secret: string, audience: string, subject: string,
    actorEmail: Option<string>, actorUserId: Option<string>, scopes: ScopeArgument,
    projectId: Option<string>, correlationId: Option<string>, additional: Claims, ttl: int)

  function MaybeClaim(name: Claim, value: Option<string>): Claims {
    if value.Some? then map[name := JStr(value.value)] else map[]
  }

  function GrantedScopes(q: Request): set<string> {
    RequestedScopes(q.scopes) + {DELEGATE_SCOPE}
  }

  function JsonStrings(xs: seq<string>): Json {
    JArr(seq(|xs|, i requires 0 <= i < |xs| => JStr(xs[i])))
  }

  function FirstClaims(py: Builtins, q: Request): Claims {
    map[PrincipalType := JStr(DELEGATED), Scopes := JsonStrings(py.sorted(GrantedScopes(q)))]
  }

  function DelegatedClaims(py: Builtins, q: Request): Claims {
    FirstClaims(py, q)
    + MaybeClaim(ActorEmail, OptionalClaim(q.actorEmail))
    + MaybeClaim(ActorUserId, OptionalClaim(q.actorUserId))
    + MaybeClaim(ProjectId, OptionalClaim(q.projectId))
    + MaybeClaim(CorrelationId, OptionalClaim(q.correlationId))
    + q.additional
  }

  function RequestError(q: Request): Option<DelegatedError> {
    if Blank(q.secret) then Some(MissingSecret)
    else if Blank(q.audience) || Blank(q.subject) then Some(Invalid)
    else if OptionalClaim(q.actorEmail).None? && OptionalClaim(q.actorUserId).None? then Some(Invalid)
    else if q.ttl <= 0 || q.ttl > MAX_TTL then Some(Invalid)
    else if OverridesReserved(q.additional) then Some(Invalid)
    else None
  }

  function SignedClaims(py: Builtins, q: Request, now: int): Claims {
    MintedClaims(q.audience, q.subject, None, DelegatedClaims(py, q), q.ttl, now)
  }

  /** mint_delegated_actor_token: the guards in order, then one claim after another. */
  method MintDelegatedActorToken(lib: TokenLibrary, py: Builtins, q: Request, now: int)
    returns (token: Result<string, DelegatedError>)
    ensures RequestError(q).Some? ==> token == Err(RequestError(q).value)
    ensures RequestError(q).None? ==> token == Ok(TokenOf(lib, q.secret, SignedClaims(py, q, now)))
  {
    if Blank(q.secret) {
      return Err(MissingSecret);
    }
    if Blank(q.audience) || Blank(q.subject) {
      return Err(Invalid);
    }
    var actorEmail, actorUserId := OptionalClaim(q.actorEmail), OptionalClaim(q.actorUserId);
    if actorEmail.None? && actorUserId.None? {
      return Err(Invalid);
    }
    var projectId, correlationId := OptionalClaim(q.projectId), OptionalClaim(q.correlationId);
    if q.ttl <= 0 || q.ttl > MAX_TTL {
      return Err(Invalid);
    }
    var claims := FirstClaims(py, q);
    claims := claims + MaybeClaim(ActorEmail, actorEmail);
    claims := claims + MaybeClaim(ActorUserId, actorUserId);
    claims := claims + MaybeClaim(ProjectId, projectId);
    claims := claims + MaybeClaim(CorrelationId, correlationId);
    if OverridesReserved(q.additional) {
      return Err(Invalid);
    }
    claims := claims + q.additional;
    CoreClaimsUntouched(py, q);
    var minted := MintInternalToken(lib, q.secret, q.audience, q.subject, None, claims, q.ttl, now);
    return Ok(minted.value);
  }

  lemma CoreClaimsUntouched(py: Builtins, q: Request)
    requires !OverridesReserved(q.additional)
    ensures !OverridesCore(DelegatedClaims(py, q))
  {
    forall name | CoreClaim(name)
      ensures name !in DelegatedClaims(py, q)
    {
      DelegatedField(py, q, name);
    }
  }

  // ---- Header lookup ----

  type Headers = seq<(string, string)>

  function NormalizeName(name: string): string {
    Lower(Strip(name))
  }

  /** The first non-empty value under a name, whatever its case. */
  function HeaderValue(headers: Headers, name: string): Option<string> {
    if headers == [] then None
    else if NormalizeName(headers[0].0) == NormalizeName(name) && headers[0].1 != "" then Some(headers[0].1)
    else HeaderValue(headers[1..], name)
  }

  /** str.partition on one space: what is before it and what is after. */
  function Partition(s: string): (string, string) {
    if s == [] then ("", "")
    else if s[0] == ' ' then ("", s[1..])
    else var (head, tail) := Partition(s[1..]); ([s[0]] + head, tail)
  }

  /** The token of an Authorization value, if it is a bearer value that holds one. */
  function BearerOf(raw: string): Option<string> {
    var (scheme, token) := Partition(raw);
    if raw == "" || Lower(scheme) != "bearer" || Blank(token) then None else Some(Strip(token))
  }

  function ExtractBearer(headers: Headers): Option<string> {
    BearerOf(HeaderValue(headers, "authorization").GetOr(""))
  }

  // ---- Verification ----

  datatype Policy = Policy(allowedSubjects: PolicyArgument, requiredScopes: PolicyArgument,
                           expectedProject: Option<string>)

  /** _normalize_policy_values: trimmed values; None for a policy that is itself in error. */
  function PolicyValues(argument: PolicyArgument, required: bool): Option<set<string>> {
    match argument
    case NoPolicy => if required then None else Some({})
    case OneValue(value) => if Blank(value) then None else Some({Strip(value)})
    case Values(values) =>
      if (exists value :: value in values && Blank(value)) || (required && values == []) then None
      else Some(set value | value in values :: Strip(value))
  }

  method CollectPolicy(values: seq<string>, required: bool) returns (policy: Option<set<string>>)
    ensures policy == PolicyValues(Values(values), required)
  {
    var normalized: set<string> := {};
    for i := 0 to |values|
      invariant forall j :: 0 <= j < i ==> !Blank(values[j])
      invariant normalized == set value | value in values[..i] :: Strip(value)
    {
      if Blank(values[i]) {
        assert values[i] in values;
        return None;
      }
      assert values[..i + 1] == values[..i] + [values[i]];
      normalized := normalized + {Strip(values[i])};
    }
    assert values[..|values|] == values;
    assert values != [] ==> values[0] in values && Strip(values[0]) in normalized;
    if required && normalized == {} {
      return None;
    }
    return Some(normalized);
  }

  /** A string claim that must be there and not blank, trimmed. */
  function RequiredText(claims: Claims, name: Claim): Option<string> {
    match Get(claims, name)
    case JStr(text) => OptionalClaim(Some(text))
    case _ => None
  }

  /** An optional string claim is in error when it is neither missing nor a string. */
  predicate OptionalTextOk(claims: Claims, name: Claim) {
    Get(claims, name).JNull? || Get(claims, name).JStr?
  }

  /** The policy's half of the checks, on what the claims say: subject, scopes and project. */
  function PolicyError(subject: string, held: Option<set<string>>, projectOk: bool, project: Option<string>,
                       policy: Policy)
    : Option<DelegatedError>
  {
    var subjects, scopes := PolicyValues(policy.allowedSubjects, false), PolicyValues(policy.requiredScopes, true);
    if subjects.None? || (subjects.value != {} && subject !in subjects.value)
       || scopes.None? || held.None? || !(scopes.value <= held.value)
       || !projectOk
    then Some(Invalid)
    else
      var expected := OptionalClaim(policy.expectedProject);
      if project.Some? && expected.Some? && project != expected then Some(ProjectMismatch) else None
  }

  /** The claims that every delegation carries, well typed, with an actor. */
  predicate WellFormed(claims: Claims) {
    && RequiredText(claims, Sub).Some? && RequiredText(claims, Aud).Some?
    && AsInt(Get(claims, Iat)).Some? && AsInt(Get(claims, Exp)).Some?
    && Get(claims, PrincipalType) == JStr(DELEGATED)
    && OptionalTextOk(claims, ActorEmail) && OptionalTextOk(claims, ActorUserId)
    && (RequiredText(claims, ActorEmail).Some? || RequiredText(claims, ActorUserId).Some?)
  }

  /** _verify_delegated_actor_claims */
  function ClaimsError(claims: Claims, policy: Policy): Option<DelegatedError> {
    if !WellFormed(claims) then Some(Invalid)
    else
      PolicyError(RequiredText(claims, Sub).value, TokenScopes(claims), OptionalTextOk(claims, ProjectId),
        RequiredText(claims, ProjectId), policy)
  }

  predicate Truthy(json: Json) {
    match json
    case JNull => false
    case JBool(b) => b
    case JNum(n) => n != 0
    case JFloat(f) => f != NegativeZero && f != Finite(0)
    case JStr(s) => s != ""
    case JArr(items) => items != []
    case JObj(fields) => fields != map[]
  }

  function TextOf(py: Builtins, json: Json): Option<string> {
    if Truthy(json) then Some(py.str(json)) else None
  }

  datatype Principal = Principal(
    serviceName: string, audience: string, issuedAt: int, expiresAt: int,
    correlationId: Option<string>, scopes: seq<string>,
    actorUserId: Option<string>, actorEmail: Option<string>, projectId: Option<string>,
    metadata: map<string, Json>, entitlements: map<string, Json>)

  /** dict(claims.get(name, {})). */
  function DictClaim(py: Builtins, claims: Claims, name: Claim): Option<map<string, Json>> {
    if name in claims then py.asDict(claims[name]) else Some(map[])
  }

  /**
    Hydration can still fail outside the contract's own errors: on a null scopes claim or a metadata that is no
    dict.
   */
  predicate Hydratable(py: Builtins, claims: Claims) {
    && (Scopes in claims ==> claims[Scopes] != JNull)
    && DictClaim(py, claims, Metadata).Some? && DictClaim(py, claims, Entitlements).Some?
  }

  function Hydrate(py: Builtins, claims: Claims): Principal
    requires Hydratable(py, claims) && TokenScopes(claims).Some?
    requires AsInt(Get(claims, Iat)).Some? && AsInt(Get(claims, Exp)).Some?
  {
    Principal(
      py.str(Get(claims, Sub)), py.str(Get(claims, Aud)), AsInt(Get(claims, Iat)).value, AsInt(Get(claims, Exp)).value,
      TextOf(py, Get(claims, CorrelationId)), py.sorted(TokenScopes(claims).value),
      TextOf(py, Get(claims, ActorUserId)), TextOf(py, Get(claims, ActorEmail)), TextOf(py, Get(claims, ProjectId)),
      DictClaim(py, claims, Metadata).value, DictClaim(py, claims, Entitlements).value)
  }

  /** What becomes of a verified token. */
  function Judged(py: Builtins, verified: Result<Claims, TokenError>,
                  policy: Policy): Result<Principal, DelegatedError> {
    match verified
    case Err(error) => Err(if error == NotAscii then EscapedError else Invalid)
    case Ok(claims) =>
      match ClaimsError(claims, policy)
      case Some(error) => Err(error)
      case None => if Hydratable(py, claims) then Ok(Hydrate(py, claims)) else Err(EscapedError)
  }

  /** verify_delegated_actor_token_from_headers */
  function VerifyDelegated(lib: TokenLibrary, py: Builtins, headers: Headers, secret: Option<string>, audience: string,
                           policy: Policy, now: int): Result<Principal, DelegatedError>
  {
    if secret.None? || Blank(secret.value) then Err(MissingSecret)
    else if ExtractBearer(headers).None? then Err(Invalid)
    else Judged(py, VerifyInternalToken(lib, ExtractBearer(headers).value, secret.value, audience, now), policy)
  }

  // ---- Minted tokens under a policy ----

  lemma {:induction false} WordsNonEmpty(s: string, word: string)
    ensures "" !in WordsFrom(s, word)
    decreases |s|
  {
    if s != [] {
      WordsNonEmpty(s[1..], if IsSpace(s[0]) then "" else word + [s[0]]);
    }
  }

  lemma GrantedNonEmpty(q: Request)
    ensures "" !in GrantedScopes(q)
  {
    if q.scopes.ScopeText? {
      WordsNonEmpty(q.scopes.text, "");
    }
  }

  /** A JSON list of scopes is read back as the set it was made from. */
  lemma ScopesReadBack(py: Builtins, scopes: set<string>)
    requires FaithfulBuiltins(py) && "" !in scopes
    ensures ScopesOf(JsonStrings(py.sorted(scopes))) == Some(scopes)
  {
    var xs := py.sorted(scopes);
    var items := JsonStrings(xs).items;
    assert Elements(xs) == scopes;
    forall s | s in scopes
      ensures JStr(s) in items
    {
      var i :| 0 <= i < |xs| && xs[i] == s;
      assert items[i] == JStr(s);
    }
    forall item | item in items
      ensures item.JStr? && item.text in scopes
    {
      var i :| 0 <= i < |items| && items[i] == item;
      assert xs[i] in xs;
    }
    assert (set item | item in items && item.JStr? && item.text != "" :: item.text) == scopes by {
      forall s | s in scopes
        ensures s in (set item | item in items && item.JStr? && item.text != "" :: item.text)
      {
        assert JStr(s) in items && JStr(s).text == s;
      }
    }
  }

  lemma UnionGet(a: Claims, b: Claims, name: Claim)
    ensures Get(a + b, name) == if name in b then b[name] else Get(a, name)
    ensures name in a + b <==> name in a || name in b
  {}

  /** One claim of a minted token: the request's own, or the caller's addition for any name not reserved. */
  function SignedField(py: Builtins, q: Request, minted: int, name: Claim): Json {
    match name
    case Sub => JStr(q.subject)
    case Aud => JStr(q.audience)
    case Iat => JNum(minted)
    case Exp => JNum(minted + q.ttl)
    case PrincipalType => JStr(DELEGATED)
    case Scopes => JsonStrings(py.sorted(GrantedScopes(q)))
    case Scope => JNull
    case ActorEmail => OptionalJson(q.actorEmail)
    case ActorUserId => OptionalJson(q.actorUserId)
    case ProjectId => OptionalJson(q.projectId)
    case CorrelationId => OptionalJson(q.correlationId)
    case _ => Get(q.additional, name)
  }

  lemma MintedField(audience: string, subject: string, claims: Claims, ttl: int, minted: int, name: Claim)
    ensures Get(MintedClaims(audience, subject, None, claims, ttl, minted), name)
      == if name in claims then claims[name]
         else match name
           case Sub => JStr(subject)
           case Aud => JStr(audience)
           case Iat => JNum(minted)
           case Exp => JNum(minted + ttl)
           case _ => JNull
    ensures name in MintedClaims(audience, subject, None, claims, ttl, minted) <==> name in claims || CoreClaim(name)
  {}

  /** Adding one optional claim on top of others. */
  lemma Layer(below: Claims, claim: Claim, value: Option<string>, name: Claim)
    ensures var all := below + MaybeClaim(claim, OptionalClaim(value));
      && (name in all <==> name in below || (name == claim && OptionalClaim(value).Some?))
      && Get(all, name) == if name == claim && OptionalClaim(value).Some? then OptionalJson(value) else Get(below, name)
  {}

  /** The claims below the caller's additions. */
  lemma OwnField(py: Builtins, q: Request, own: Claims, name: Claim)
    requires own == FirstClaims(py, q)
      + MaybeClaim(ActorEmail, OptionalClaim(q.actorEmail)) + MaybeClaim(ActorUserId, OptionalClaim(q.actorUserId))
      + MaybeClaim(ProjectId, OptionalClaim(q.projectId)) + MaybeClaim(CorrelationId, OptionalClaim(q.correlationId))
    ensures name in own ==>
      name in {PrincipalType, Scopes, ActorEmail, ActorUserId, ProjectId, CorrelationId}
    ensures name.PrincipalType? || name.Scopes? ==> name in own && own[name] == FirstClaims(py, q)[name]
    ensures name.ActorEmail? ==> Get(own, name) == OptionalJson(q.actorEmail)
    ensures name.ActorUserId? ==> Get(own, name) == OptionalJson(q.actorUserId)
    ensures name.ProjectId? ==> Get(own, name) == OptionalJson(q.projectId)
    ensures name.CorrelationId? ==> Get(own, name) == OptionalJson(q.correlationId)
  {
    var c0 := FirstClaims(py, q);
    var c1 := c0 + MaybeClaim(ActorEmail, OptionalClaim(q.actorEmail));
    var c2 := c1 + MaybeClaim(ActorUserId, OptionalClaim(q.actorUserId));
    var c3 := c2 + MaybeClaim(ProjectId, OptionalClaim(q.projectId));
    Layer(c0, ActorEmail, q.actorEmail, name);
    Layer(c1, ActorUserId, q.actorUserId, name);
    Layer(c2, ProjectId, q.projectId, name);
    Layer(c3, CorrelationId, q.correlationId, name);
  }

  lemma DelegatedField(py: Builtins, q: Request, name: Claim)
    requires !OverridesReserved(q.additional)
    ensures CoreClaim(name) ==> name !in DelegatedClaims(py, q)
    ensures name.PrincipalType? || name.Scopes? ==> name in DelegatedClaims(py, q)
    ensures !CoreClaim(name) && !DelegationClaim(name) ==> (name in DelegatedClaims(py, q) <==> name in q.additional)
    ensures !CoreClaim(name) ==> Get(DelegatedClaims(py, q), name) == SignedField(py, q, 0, name)
  {
    var own := FirstClaims(py, q)
      + MaybeClaim(ActorEmail, OptionalClaim(q.actorEmail)) + MaybeClaim(ActorUserId, OptionalClaim(q.actorUserId))
      + MaybeClaim(ProjectId, OptionalClaim(q.projectId)) + MaybeClaim(CorrelationId, OptionalClaim(q.correlationId));
    assert CoreClaim(name) || DelegationClaim(name) ==> name !in q.additional;
    OwnField(py, q, own, name);
    UnionGet(own, q.additional, name);
  }

  /** Every claim the verifier reads, as the mint left it. */
  lemma SignedGet(py: Builtins, q: Request, minted: int, name: Claim)
    requires RequestError(q).None?
    ensures Get(SignedClaims(py, q, minted), name) == SignedField(py, q, minted, name)
    ensures name.Scopes? ==> name in SignedClaims(py, q, minted)
    ensures name.Metadata? || name.Entitlements? ==> (name in SignedClaims(py, q, minted) <==> name in q.additional)
  {
    MintedField(q.audience, q.subject, DelegatedClaims(py, q), q.ttl, minted, name);
    DelegatedField(py, q, name);
  }

  function OptionalJson(value: Option<string>): Json {
    match OptionalClaim(value)
    case Some(text) => JStr(text)
    case None => JNull
  }

  /** A minted optional claim is already trimmed, so every later reading of it is the same text. */
  lemma OptionalReadsBack(py: Builtins, claims: Claims, name: Claim, value: Option<string>)
    requires FaithfulBuiltins(py) && Get(claims, name) == OptionalJson(value)
    ensures RequiredText(claims, name) == OptionalClaim(value) && OptionalTextOk(claims, name)
    ensures TextOf(py, Get(claims, name)) == OptionalClaim(value)
  {
    if value.Some? {
      StripTrims(value.value);
    }
  }

  /** What a policy says of a minted token, in the terms of the request. */
  function Verdict(q: Request, policy: Policy): Option<DelegatedError> {
    PolicyError(Strip(q.subject), Some(GrantedScopes(q)), true, OptionalClaim(q.projectId), policy)
  }

  /** Claims that say what the request said. */
  ghost predicate Carries(py: Builtins, q: Request, minted: int, claims: Claims) {
    && (forall name :: Get(claims, name) == SignedField(py, q, minted, name))
    && Scopes in claims
    && (Metadata in claims <==> Metadata in q.additional)
    && (Entitlements in claims <==> Entitlements in q.additional)
  }

  lemma SignedCarries(py: Builtins, q: Request, minted: int)
    requires RequestError(q).None?
    ensures Carries(py, q, minted, SignedClaims(py, q, minted))
  {
    forall name
      ensures Get(SignedClaims(py, q, minted), name) == SignedField(py, q, minted, name)
    {
      SignedGet(py, q, minted, name);
    }
    SignedGet(py, q, minted, Scopes);
    SignedGet(py, q, minted, Metadata);
    SignedGet(py, q, minted, Entitlements);
  }

  lemma CarriedScopes(py: Builtins, q: Request, minted: int, claims: Claims)
    requires FaithfulBuiltins(py) && Carries(py, q, minted, claims)
    ensures TokenScopes(claims) == Some(GrantedScopes(q))
  {
    GrantedNonEmpty(q);
    ScopesReadBack(py, GrantedScopes(q));
    assert Get(claims, Scopes) == SignedField(py, q, minted, Scopes);
  }

  lemma CarriedTexts(py: Builtins, q: Request, minted: int, claims: Claims)
    requires FaithfulBuiltins(py) && Carries(py, q, minted, claims)
    ensures RequiredText(claims, ActorEmail) == TextOf(py, Get(claims, ActorEmail)) == OptionalClaim(q.actorEmail)
    ensures RequiredText(claims, ActorUserId) == TextOf(py, Get(claims, ActorUserId)) == OptionalClaim(q.actorUserId)
    ensures RequiredText(claims, ProjectId) == TextOf(py, Get(claims, ProjectId)) == OptionalClaim(q.projectId)
    ensures TextOf(py, Get(claims, CorrelationId)) == OptionalClaim(q.correlationId)
    ensures OptionalTextOk(claims, ActorEmail) && OptionalTextOk(claims, ActorUserId)
      && OptionalTextOk(claims, ProjectId)
  {
    assert Get(claims, ActorEmail) == SignedField(py, q, minted, ActorEmail);
    assert Get(claims, ActorUserId) == SignedField(py, q, minted, ActorUserId);
    OptionalReadsBack(py, claims, ActorEmail, q.actorEmail);
    OptionalReadsBack(py, claims, ActorUserId, q.actorUserId);
    OptionalReadsBack(py, claims, ProjectId, q.projectId);
    OptionalReadsBack(py, claims, CorrelationId, q.correlationId);
  }

  /** The claims that are not optional, one by one. */
  ghost predicate CoreRead(py: Builtins, q: Request, minted: int, claims: Claims) {
    && Get(claims, Sub) == JStr(q.subject) && Get(claims, Aud) == JStr(q.audience)
    && Get(claims, Iat) == JNum(minted) && Get(claims, Exp) == JNum(minted + q.ttl)
    && Get(claims, PrincipalType) == JStr(DELEGATED)
    && Scopes in claims && claims[Scopes].JArr?
    && DictClaim(py, claims, Metadata) == DictClaim(py, q.additional, Metadata)
    && DictClaim(py, claims, Entitlements) == DictClaim(py, q.additional, Entitlements)
  }

  lemma CarriedCore(py: Builtins, q: Request, minted: int, claims: Claims)
    requires Carries(py, q, minted, claims)
    ensures CoreRead(py, q, minted, claims)
  {
    assert Get(claims, Sub) == SignedField(py, q, minted, Sub) && Get(claims, Aud) == SignedField(py, q, minted, Aud);
    assert Get(claims, Iat) == SignedField(py, q, minted, Iat) && Get(claims, Exp) == SignedField(py, q, minted, Exp);
    assert Get(claims, PrincipalType) == SignedField(py, q, minted, PrincipalType);
    assert claims[Scopes] == Get(claims, Scopes) == SignedField(py, q, minted, Scopes);
    assert Get(claims, Metadata) == Get(q.additional, Metadata);
    assert Get(claims, Entitlements) == Get(q.additional, Entitlements);
  }

  /** The optional texts and the scopes, as every later reading finds them. */
  ghost predicate OptionalRead(py: Builtins, q: Request, claims: Claims) {
    && RequiredText(claims, ActorEmail) == TextOf(py, Get(claims, ActorEmail)) == OptionalClaim(q.actorEmail)
    && RequiredText(claims, ActorUserId) == TextOf(py, Get(claims, ActorUserId)) == OptionalClaim(q.actorUserId)
    && RequiredText(claims, ProjectId) == TextOf(py, Get(claims, ProjectId)) == OptionalClaim(q.projectId)
    && TextOf(py, Get(claims, CorrelationId)) == OptionalClaim(q.correlationId)
    && OptionalTextOk(claims, ActorEmail) && OptionalTextOk(claims, ActorUserId) && OptionalTextOk(claims, ProjectId)
    && TokenScopes(claims) == Some(GrantedScopes(q))
  }

  lemma CarriedReads(py: Builtins, q: Request, minted: int, claims: Claims)
    requires FaithfulBuiltins(py) && Carries(py, q, minted, claims)
    ensures CoreRead(py, q, minted, claims) && OptionalRead(py, q, claims)
  {
    CarriedCore(py, q, minted, claims);
    CarriedScopes(py, q, minted, claims);
    CarriedTexts(py, q, minted, claims);
  }

  lemma CarriedVerdict(py: Builtins, q: Request, minted: int, claims: Claims, policy: Policy)
    requires RequestError(q).None? && CoreRead(py, q, minted, claims) && OptionalRead(py, q, claims)
    ensures ClaimsError(claims, policy) == Verdict(q, policy)
  {
    assert RequiredText(claims, Sub) == Some(Strip(q.subject));
    assert WellFormed(claims);
  }

  /** The principal a minted token stands for: the trimmed request, its scopes, and the delegate scope. */
  function PrincipalOf(py: Builtins, q: Request, minted: int): Principal
    requires DictClaim(py, q.additional, Metadata).Some? && DictClaim(py, q.additional, Entitlements).Some?
  {
    Principal(q.subject, q.audience, minted, minted + q.ttl,
      OptionalClaim(q.correlationId), py.sorted(GrantedScopes(q)),
      OptionalClaim(q.actorUserId), OptionalClaim(q.actorEmail), OptionalClaim(q.projectId),
      DictClaim(py, q.additional, Metadata).value, DictClaim(py, q.additional, Entitlements).value)
  }

  lemma CarriedHydrates(py: Builtins, q: Request, minted: int, claims: Claims)
    requires FaithfulBuiltins(py) && CoreRead(py, q, minted, claims) && OptionalRead(py, q, claims)
    ensures Hydratable(py, claims)
      <==> DictClaim(py, q.additional, Metadata).Some? && DictClaim(py, q.additional, Entitlements).Some?
    ensures Hydratable(py, claims) ==> Hydrate(py, claims) == PrincipalOf(py, q, minted)
  {}

  // ---- Main results ----

  /**
    Mint, carry, verify: until it expires a minted token yields exactly the principal of its request
    under every policy that the request satisfies, and the policy's error under every other.
   */
  lemma DelegatedRoundTrip(lib: TokenLibrary, py: Builtins, q: Request, minted: int, headers: Headers, policy: Policy,
                           now: int)
    requires LosslessClaims(lib) && FaithfulBuiltins(py) && RequestError(q).None?
    requires ExtractBearer(headers) == Some(TokenOf(lib, q.secret, SignedClaims(py, q, minted)))
    ensures VerifyDelegated(lib, py, headers, Some(q.secret), q.audience, policy, now)
      == if now >= minted + q.ttl then Err(Invalid)
         else if Verdict(q, policy).Some? then Err(Verdict(q, policy).value)
         else if DictClaim(py, q.additional, Metadata).None? || DictClaim(py, q.additional, Entitlements).None?
           then Err(EscapedError)
         else Ok(PrincipalOf(py, q, minted))
  {
    var claims := SignedClaims(py, q, minted);
    SignedVerifies(lib, py, q, minted, claims, now);
    SignedReads(py, q, minted, claims);
    DeliveredAsRequested(lib, py, q, minted, claims, headers, policy, now, TokenOf(lib, q.secret, claims));
  }

  lemma DeliveredAsRequested(lib: TokenLibrary, py: Builtins, q: Request, minted: int, claims: Claims, headers: Headers,
                             policy: Policy, now: int, token: string)
    requires FaithfulBuiltins(py) && RequestError(q).None? && CoreRead(py, q, minted, claims)
      && OptionalRead(py, q, claims)
    requires ExtractBearer(headers) == Some(token)
    requires VerifyInternalToken(lib, token, q.secret, q.audience, now)
      == if now < minted + q.ttl then Ok(claims) else Err(Expired)
    ensures VerifyDelegated(lib, py, headers, Some(q.secret), q.audience, policy, now)
      == if now >= minted + q.ttl then Err(Invalid)
         else if Verdict(q, policy).Some? then Err(Verdict(q, policy).value)
         else if DictClaim(py, q.additional, Metadata).None? || DictClaim(py, q.additional, Entitlements).None?
           then Err(EscapedError)
         else Ok(PrincipalOf(py, q, minted))
  {
    Delivered(lib, py, headers, q.secret, q.audience, policy, now, token);
    JudgedAsRequested(py, q, minted, claims, policy);
  }

  lemma SignedVerifies(lib: TokenLibrary, py: Builtins, q: Request, minted: int, claims: Claims, now: int)
    requires LosslessClaims(lib) && RequestError(q).None? && claims == SignedClaims(py, q, minted)
    ensures VerifyInternalToken(lib, TokenOf(lib, q.secret, claims), q.secret, q.audience, now)
      == if now < minted + q.ttl then Ok(claims) else Err(Expired)
  {
    CoreClaimsUntouched(py, q);
    MintedTokenRoundTrip(lib, q.secret, q.audience, q.subject, None, DelegatedClaims(py, q), q.ttl, minted, now);
  }

  lemma Delivered(lib: TokenLibrary, py: Builtins, headers: Headers, secret: string, audience: string, policy: Policy,
                  now: int, token: string)
    requires ExtractBearer(headers) == Some(token) && !Blank(secret)
    ensures VerifyDelegated(lib, py, headers, Some(secret), audience, policy, now)
      == Judged(py, VerifyInternalToken(lib, token, secret, audience, now), policy)
  {}

  lemma SignedReads(py: Builtins, q: Request, minted: int, claims: Claims)
    requires FaithfulBuiltins(py) && RequestError(q).None? && claims == SignedClaims(py, q, minted)
    ensures CoreRead(py, q, minted, claims) && OptionalRead(py, q, claims)
  {
    SignedCarries(py, q, minted);
    CarriedReads(py, q, minted, claims);
  }

  lemma JudgedAsRequested(py: Builtins, q: Request, minted: int, claims: Claims, policy: Policy)
    requires FaithfulBuiltins(py) && RequestError(q).None? && CoreRead(py, q, minted, claims)
      && OptionalRead(py, q, claims)
    ensures Judged(py, Ok(claims), policy)
      == if Verdict(q, policy).Some? then Err(Verdict(q, policy).value)
         else if DictClaim(py, q.additional, Metadata).None? || DictClaim(py, q.additional, Entitlements).None?
           then Err(EscapedError)
         else Ok(PrincipalOf(py, q, minted))
  {
    CarriedVerdict(py, q, minted, claims, policy);
    CarriedHydrates(py, q, minted, claims);
  }

  /** The Authorization value that carries a token gives that token back. */
  lemma BearerCarriesToken(lib: TokenLibrary, secret: string, claims: Claims)
    ensures BearerOf("Bearer " + TokenOf(lib, secret, claims)) == Some(TokenOf(lib, secret, claims))
  {
    var token := TokenOf(lib, secret, claims);
    TokenTrimmed(lib, secret, claims);
    StripKeepsTrimmed(token);
    PartitionAfter("Bearer", token);
    assert "Bearer" + " " + token == "Bearer " + token;
    assert Lower("Bearer") == "bearer";
  }

  lemma {:induction false} PartitionAfter(head: string, tail: string)
    requires ' ' !in head
    ensures Partition(head + " " + tail) == (head, tail)
  {
    var s := head + " " + tail;
    if head == [] {
      assert s[1..] == tail;
    } else {
      assert s[1..] == head[1..] + " " + tail;
      PartitionAfter(head[1..], tail);
      assert [head[0]] + head[1..] == head;
    }
  }

  lemma TokenTrimmed(lib: TokenLibrary, secret: string, claims: Claims)
    ensures Trimmed(TokenOf(lib, secret, claims)) && TokenOf(lib, secret, claims) != ""
  {
    EncodeShape(lib.dumps(HEADER));
    EncodeShape(lib.hmac(secret, SigningInput(lib, claims)));
    JoinTrimmed(Encode(lib.dumps(HEADER)), Encode(lib.dumps(claims)),
      Encode(lib.hmac(secret, SigningInput(lib, claims))));
  }

  lemma JoinTrimmed(head: string, middle: string, last: string)
    requires InAlphabet(head) && InAlphabet(last)
    ensures Trimmed(head + "." + middle + "." + last) && head + "." + middle + "." + last != ""
  {
    var token := head + "." + middle + "." + last;
    assert token[0] == if head == [] then '.' else head[0];
    assert token[|token| - 1] == if last == [] then '.' else last[|last| - 1];
  }

  /** Whatever is accepted names an actor, holds every required scope, and does not contradict the expected project. */
  lemma AcceptedDelegation(lib: TokenLibrary, py: Builtins, headers: Headers, secret: Option<string>, audience: string,
                           policy: Policy, now: int)
    requires FaithfulBuiltins(py)
    requires VerifyDelegated(lib, py, headers, secret, audience, policy, now).Ok?
    ensures var p := VerifyDelegated(lib, py, headers, secret, audience, policy, now).value;
      && (OptionalClaim(p.actorEmail).Some? || OptionalClaim(p.actorUserId).Some?)
      && p.audience == audience && now < p.expiresAt && !Blank(p.serviceName)
      && PolicyValues(policy.requiredScopes, true).Some?
      && PolicyValues(policy.requiredScopes, true).value <= Elements(p.scopes)
      && (OptionalClaim(p.projectId).Some? && OptionalClaim(policy.expectedProject).Some?
          ==> OptionalClaim(p.projectId) == OptionalClaim(policy.expectedProject))
  {
    var token := ExtractBearer(headers).value;
    AcceptedIsSigned(lib, token, secret.value, audience, now);
    var claims := VerifyInternalToken(lib, token, secret.value, audience, now).value;
    TextKeeps(py, claims, ActorEmail);
    TextKeeps(py, claims, ActorUserId);
    TextKeeps(py, claims, ProjectId);
  }

  lemma TextKeeps(py: Builtins, claims: Claims, name: Claim)
    requires FaithfulBuiltins(py) && OptionalTextOk(claims, name)
    ensures OptionalClaim(TextOf(py, Get(claims, name))) == RequiredText(claims, name)
  {}
}
