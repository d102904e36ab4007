/** Delegations in plain terms: what is minted, which scopes it grants, and which claims a policy accepts. */
module DelegatedPolicy {
  import opened Common
  import opened InternalTokens
  import opened DelegatedTokens

  // ---- Words ----

  predicate Visible(s: string) {
    forall i :: 0 <= i < |s| ==> !IsSpace(s[i])
  }

  lemma {:induction false} WordGrows(word: string, s: string)
    requires Visible(s)
    ensures WordsFrom(s, word) == if word + s == "" then [] else [word + s]
    decreases |s|
  {
    if s != [] {
      WordGrows(word + [s[0]], s[1..]);
      assert word + [s[0]] + s[1..] == word + s;
    } else {
      assert word + s == word;
    }
  }

  lemma {:induction false} WordsSplit(a: string, space: char, b: string, word: string)
    requires IsSpace(space)
    ensures WordsFrom(a + [space] + b, word) == WordsFrom(a, word) + WordsFrom(b, "")
    decreases |a|
  {
    var s := a + [space] + b;
    if a == [] {
      assert s[1..] == b;
    } else {
      assert s[1..] == a[1..] + [space] + b;
      WordsSplit(a[1..], space, b, if IsSpace(a[0]) then "" else word + [a[0]]);
    }
  }

  /** Splitting into words: nothing of nothing, a visible text is its own word, and any space separates. */
  lemma WordsMean(word: string, a: string, space: char, b: string)
    requires Visible(word) && word != "" && IsSpace(space)
    ensures Words("") == [] && Words(word) == [word] && Words(a + [space] + b) == Words(a) + Words(b)
  {
    WordGrows("", word);
    assert "" + word == word;
    WordsSplit(a, space, b, "");
  }

  // ---- Requests ----

  /** Absent, or nothing visible in it. */
  predicate Missing(value: Option<string>) {
    value.None? || Strip(value.value) == ""
  }

  /** A claim that the caller may not set: the token's own, and those of the delegation. */
  predicate Controlled(name: Claim) {
    name in {Sub, Aud, Iat, Exp, PrincipalType, ActorEmail, ActorUserId, Scopes, Scope, ProjectId, CorrelationId}
  }

  /** A delegation needs a secret; then audience, subject, an actor, one to 300 seconds, and no controlled claims. */
  lemma RequestErrorMeans(q: Request)
    ensures RequestError(q) == Some(MissingSecret) <==> Strip(q.secret) == ""
    ensures RequestError(q) == Some(Invalid) <==>
      && Strip(q.secret) != ""
      && (|| Strip(q.audience) == "" || Strip(q.subject) == "" || (Missing(q.actorEmail) && Missing(q.actorUserId))
          || q.ttl < 1 || q.ttl > 300 || exists name :: name in q.additional && Controlled(name))
    ensures RequestError(q).None? || RequestError(q) == Some(MissingSecret) || RequestError(q) == Some(Invalid)
  {
    forall name: Claim
      ensures Controlled(name) <==> CoreClaim(name) || DelegationClaim(name)
    {}
  }

  /** The scopes granted: actor.delegate, and the words of a text or the non-empty items of a list. */
  lemma GrantedScopesMean(q: Request, scope: string)
    ensures scope in GrantedScopes(q) <==>
      || scope == "actor.delegate"
      || (q.scopes.ScopeText? && scope in Words(q.scopes.text))
      || (q.scopes.ScopeList? && scope in q.scopes.items && scope != "")
  {}

  // ---- Policies ----

  /** The subject is one of those allowed, trimmed; naming none allows all, and a blank name allows nobody. */
  predicate SubjectAllowed(allowed: PolicyArgument, subject: string) {
    match allowed
    case NoPolicy => true
    case OneValue(value) => Strip(value) != "" && Strip(value) == subject
    case Values(values) =>
      && (forall value :: value in values ==> Strip(value) != "")
      && (values == [] || exists value :: value in values && Strip(value) == subject)
  }

  /** Some scope is required, none of them blank, and each is held. */
  predicate ScopesMet(required: PolicyArgument, held: set<string>) {
    match required
    case NoPolicy => false
    case OneValue(value) => Strip(value) != "" && Strip(value) in held
    case Values(values) => values != [] && forall value ::
      value in values ==> Strip(value) != "" && Strip(value) in held
  }

  /** Two projects contradict each other only if both are given. */
  predicate ProjectsAgree(project: Option<string>, expected: Option<string>) {
    Missing(project) || Missing(expected) || Strip(project.value) == Strip(expected.value)
  }

  lemma PolicyErrorMeans(subject: string, held: Option<set<string>>, projectOk: bool, project: Option<string>,
                         policy: Policy)
    requires project.Some? ==> Strip(project.value) == project.value && project.value != ""
    ensures var inOrder := SubjectAllowed(policy.allowedSubjects, subject) && held.Some?
                           && ScopesMet(policy.requiredScopes, held.value) && projectOk;
      PolicyError(subject, held, projectOk, project, policy)
        == if !inOrder then Some(Invalid)
           else if !ProjectsAgree(project, policy.expectedProject) then Some(ProjectMismatch) else None
  {
    SubjectsMean(policy.allowedSubjects, subject);
    if held.Some? {
      RequiredMean(policy.requiredScopes, held.value);
    }
  }

  lemma SubjectsMean(allowed: PolicyArgument, subject: string)
    ensures SubjectAllowed(allowed, subject) <==>
      var subjects := PolicyValues(allowed, false);
      subjects.Some? && (subjects.value == {} || subject in subjects.value)
  {
    if allowed.Values? && allowed.values != [] {
      assert allowed.values[0] in allowed.values;
      assert PolicyValues(allowed, false).Some? ==> Strip(allowed.values[0]) in PolicyValues(allowed, false).value;
    }
  }

  lemma RequiredMean(required: PolicyArgument, held: set<string>)
    ensures ScopesMet(required, held) <==>
      var scopes := PolicyValues(required, true); scopes.Some? && scopes.value <= held
  {
    if required.Values? && PolicyValues(required, true).Some? && PolicyValues(required, true).value <= held {
      forall value | value in required.values
        ensures Strip(value) != "" && Strip(value) in held
      {
        assert Strip(value) in PolicyValues(required, true).value;
      }
    }
  }

  /** A minted token under a policy, in the terms of the request. */
  lemma VerdictMeans(q: Request, policy: Policy)
    ensures Verdict(q, policy)
      == if !SubjectAllowed(policy.allowedSubjects, Strip(q.subject))
            || !ScopesMet(policy.requiredScopes, GrantedScopes(q)) then Some(Invalid)
         else if !ProjectsAgree(q.projectId, policy.expectedProject) then Some(ProjectMismatch)
         else None
  {
    if q.projectId.Some? {
      StripTrims(q.projectId.value);
    }
    PolicyErrorMeans(Strip(q.subject), Some(GrantedScopes(q)), true, OptionalClaim(q.projectId), policy);
  }

  // ---- Claims ----

  /** A text with something visible in it. */
  predicate NonBlank(json: Json) {
    json.JStr? && Strip(json.text) != ""
  }

  predicate TextOrNull(json: Json) {
    json.JStr? || json.JNull?
  }

  predicate Integral(json: Json) {
    json.JNum? || json.JBool?
  }

  /** The scopes that claims carry: the scopes claim, or the scope claim where that is null or missing. */
  lemma TokenScopesMean(claims: Claims)
    ensures TokenScopes(claims) ==
      if Scopes in claims && claims[Scopes] != JNull then ScopesOf(claims[Scopes])
      else if Scope in claims then ScopesOf(claims[Scope]) else Some({})
    ensures forall text :: ScopesOf(JStr(text)) == Some(set word | word in Words(text))
    ensures forall json: Json :: !json.JStr? && !json.JArr? ==> ScopesOf(json) == None
  {
    var nothing: seq<Json> := [];
    assert (forall item :: item in nothing ==> item.JStr?) && ScopesOf(JArr(nothing)).Some?;
    assert ScopesOf(JArr(nothing)).value == {};
  }

  /**
    What verified claims must be for a delegation: the declared type, a subject, an audience, an actor, and a
    policy met.
   */
  ghost predicate InOrder(claims: Claims, policy: Policy) {
    && NonBlank(Get(claims, Sub)) && NonBlank(Get(claims, Aud))
    && Integral(Get(claims, Iat)) && Integral(Get(claims, Exp))
    && Get(claims, PrincipalType) == JStr("delegated")
    && TextOrNull(Get(claims, ActorEmail)) && TextOrNull(Get(claims, ActorUserId)) && TextOrNull(Get(claims, ProjectId))
    && (NonBlank(Get(claims, ActorEmail)) || NonBlank(Get(claims, ActorUserId)))
    && SubjectAllowed(policy.allowedSubjects, Strip(Get(claims, Sub).text))
    && TokenScopes(claims).Some? && ScopesMet(policy.requiredScopes, TokenScopes(claims).value)
  }

  /** The project that claims name, if they do. */
  function ProjectOf(claims: Claims): Option<string> {
    match Get(claims, ProjectId)
    case JStr(text) => Some(text)
    case _ => None
  }

  lemma WellFormedMeans(claims: Claims)
    ensures WellFormed(claims) <==>
      && NonBlank(Get(claims, Sub)) && NonBlank(Get(claims, Aud))
      && Integral(Get(claims, Iat)) && Integral(Get(claims, Exp))
      && Get(claims, PrincipalType) == JStr("delegated")
      && TextOrNull(Get(claims, ActorEmail)) && TextOrNull(Get(claims, ActorUserId))
      && (NonBlank(Get(claims, ActorEmail)) || NonBlank(Get(claims, ActorUserId)))
  {}

  /** Verified claims are turned away exactly when they are not in order, or name another project. */
  lemma ClaimsErrorMeans(claims: Claims, policy: Policy)
    ensures ClaimsError(claims, policy)
      == if !InOrder(claims, policy) then Some(Invalid)
         else if !ProjectsAgree(ProjectOf(claims), policy.expectedProject) then Some(ProjectMismatch)
         else None
  {
    var project := RequiredText(claims, ProjectId);
    WellFormedMeans(claims);
    if Get(claims, ProjectId).JStr? {
      StripTrims(Get(claims, ProjectId).text);
    }
    if WellFormed(claims) {
      PolicyErrorMeans(RequiredText(claims, Sub).value, TokenScopes(claims), OptionalTextOk(claims, ProjectId), project,
        policy);
    }
  }

  /** What Python counts as nothing. */
  predicate Empty(json: Json) {
    json in {JNull, JBool(false), JNum(0), JFloat(Finite(0)), JFloat(NegativeZero), JStr(""), JArr([]), JObj(map[])}
  }

  /** An optional field of the principal: nothing for a claim that counts as nothing, and its text otherwise. */
  lemma TextOfMeans(py: Builtins, json: Json)
    requires FaithfulBuiltins(py)
    ensures TextOf(py, json) == if Empty(json) then None else Some(py.str(json))
    ensures json.JStr? && json.text != "" ==> TextOf(py, json) == Some(json.text)
  {}

  /**
    Whatever is accepted was signed for this audience, its claims are in order under the policy, and the principal
    says what they say: the allowed subject among the rest.
   */
  lemma AcceptedMeansInOrder(lib: TokenLibrary, py: Builtins, headers: Headers, secret: Option<string>,
                             audience: string, policy: Policy, now: int) returns (token: string, claims: Claims)
    requires FaithfulBuiltins(py) && VerifyDelegated(lib, py, headers, secret, audience, policy, now).Ok?
    ensures secret.Some? && ExtractBearer(headers) == Some(token)
    ensures VerifyInternalToken(lib, token, secret.value, audience, now) == Ok(claims)
    ensures InOrder(claims, policy) && ProjectsAgree(ProjectOf(claims), policy.expectedProject)
    ensures var p := VerifyDelegated(lib, py, headers, secret, audience, policy, now).value;
      && JStr(p.serviceName) == Get(claims, Sub) && JStr(p.audience) == Get(claims, Aud)
      && SubjectAllowed(policy.allowedSubjects, Strip(p.serviceName))
      && Some(Elements(p.scopes)) == TokenScopes(claims)
      && p.correlationId
         == (if Empty(Get(claims, CorrelationId)) then None else Some(py.str(Get(claims, CorrelationId))))
  {
    token := ExtractBearer(headers).value;
    claims := VerifyInternalToken(lib, token, secret.value, audience, now).value;
    ClaimsErrorMeans(claims, policy);
    TextOfMeans(py, Get(claims, CorrelationId));
  }

  // ---- Refusals ----

  /** Of a token in three parts, exactly one with a character outside ASCII escapes the token errors. */
  lemma OutsideAsciiEscapes(lib: TokenLibrary, token: string, secret: string, audience: string, now: int)
    requires |SplitDots(token)| == 3
    ensures VerifyInternalToken(lib, token, secret, audience, now) == Err(NotAscii)
      <==> exists i :: 0 <= i < |token| && token[i] as int >= 128
  {
    var parts := SplitDots(token);
    ThreePartsJoin(token);
    AsciiJoin(parts[0], parts[1], parts[2]);
  }

  lemma AsciiJoin(a: string, b: string, c: string)
    ensures Ascii(a + "." + b + "." + c) <==> Ascii(a) && Ascii(b) && Ascii(c)
  {
    AsciiConcat(a + "." + b + ".", c);
    AsciiConcat(a + "." + b, ".");
    AsciiConcat(a + ".", b);
    AsciiConcat(a, ".");
  }

  lemma AsciiConcat(a: string, b: string)
    ensures Ascii(a + b) <==> Ascii(a) && Ascii(b)
  {
    if Ascii(a + b) {
      forall i | 0 <= i < |a|
        ensures a[i] < '\U{80}'
      {
        assert (a + b)[i] == a[i];
      }
      forall i | 0 <= i < |b|
        ensures b[i] < '\U{80}'
      {
        assert (a + b)[|a| + i] == b[i];
      }
    }
  }

  /**
    How a delegation fails: no secret, no bearer, a token that is none, claims out of order, another project. A token
    of three parts that is not ASCII fails with an error of its own kind.
   */
  lemma RefusalsMean(lib: TokenLibrary, py: Builtins, headers: Headers, secret: Option<string>, audience: string,
                     policy: Policy, now: int)
    ensures var result := VerifyDelegated(lib, py, headers, secret, audience, policy, now);
      && (result == Err(MissingSecret) <==> Missing(secret))
      && (!Missing(secret) && ExtractBearer(headers) == None ==> result == Err(Invalid))
      && (!Missing(secret) ==> forall token | ExtractBearer(headers) == Some(token) ::
            match VerifyInternalToken(lib, token, secret.value, audience, now)
            case Err(_) =>
              result == Err(if |SplitDots(token)| == 3 && exists i :: 0 <= i < |token| && token[i] as int >= 128
                            then EscapedError else Invalid)
            case Ok(claims) =>
              && (!InOrder(claims, policy) ==> result == Err(Invalid))
              && (InOrder(claims, policy) && !ProjectsAgree(ProjectOf(claims), policy.expectedProject) ==>
                    result == Err(ProjectMismatch)))
  {
    if !Missing(secret) && ExtractBearer(headers).Some? {
      var token := ExtractBearer(headers).value;
      if |SplitDots(token)| == 3 {
        OutsideAsciiEscapes(lib, token, secret.value, audience, now);
      }
      match VerifyInternalToken(lib, token, secret.value, audience, now)
      case Err(_) =>
      case Ok(claims) => ClaimsErrorMeans(claims, policy);
    }
  }

  // ---- Headers ----

  /** A header is found under any spelling that differs in case or outer spaces, and empty values are passed over. */
  lemma {:induction false} HeaderFound(headers: Headers, name: string, value: string)
    ensures HeaderValue(headers, name) == Some(value) <==>
      exists i :: 0 <= i < |headers| && Lower(Strip(headers[i].0)) == Lower(Strip(name)) && headers[i].1 == value
                  && value != ""
                  && forall j :: 0 <= j < i ==> Lower(Strip(headers[j].0)) != Lower(Strip(name)) || headers[j].1 == ""
  {
    if headers != [] {
      var rest := headers[1..];
      HeaderFound(rest, name, value);
      if HeaderValue(headers, name) == Some(value) && HeaderValue(rest, name) == Some(value)
         && !(Lower(Strip(headers[0].0)) == Lower(Strip(name)) && headers[0].1 != "") {
        var i :| 0 <= i < |rest| && Lower(Strip(rest[i].0)) == Lower(Strip(name)) && rest[i].1 == value && value != ""
          && forall j :: 0 <= j < i ==> Lower(Strip(rest[j].0)) != Lower(Strip(name)) || rest[j].1 == "";
        assert headers[i + 1] == rest[i];
        assert forall j :: 0 < j < i + 1 ==> headers[j] == rest[j - 1];
      }
      forall i | 0 < i < |headers|
        ensures headers[i] == rest[i - 1]
      {}
    }
  }
}
