/** What an internal ingress admits, and what the wire and the child context hold (activity/context.py, http.py). */
module ContextIngress {
  import opened Common
  import opened ContextPropagation
  import opened ContextSafeMerge
  import opened ContextLineage
  import opened InternalTokens
  import Base64Url
  import DelegatedTokens

  // ---- The bearer value ----

  lemma {:induction false} PartitionSplits(s: string)
    ensures var (head, tail) := DelegatedTokens.Partition(s);
      ' ' !in head && if ' ' in s then s == head + " " + tail else head == s && tail == ""
  {
    if s != [] {
      assert s == [s[0]] + s[1..];
      if s[0] == ' ' {
        assert s == [] + " " + s[1..];
      } else {
        PartitionSplits(s[1..]);
        var (head, tail) := DelegatedTokens.Partition(s[1..]);
        if ' ' in s[1..] {
          assert s == [s[0]] + head + " " + tail;
        }
      }
    }
  }

  /** A bearer value: the word bearer in any case, a space, and something visible after it. */
  lemma BearerMeans(raw: string, token: string)
    ensures DelegatedTokens.BearerOf(raw) == Some(token) <==>
      exists scheme, rest :: raw == scheme + " " + rest && ' ' !in scheme && Lower(scheme) == "bearer"
                             && Strip(rest) == token && token != ""
  {
    PartitionSplits(raw);
    var (head, tail) := DelegatedTokens.Partition(raw);
    if DelegatedTokens.BearerOf(raw) == Some(token) {
      assert Strip("") == "";
      assert raw == head + " " + tail;
    }
    forall scheme, rest | raw == scheme + " " + rest && ' ' !in scheme
      ensures (head, tail) == (scheme, rest)
    {
      DelegatedTokens.PartitionAfter(scheme, rest);
    }
  }

  // ---- Who is admitted ----

  /** An integer expiry, or a truth value standing for one, that is still to come. */
  predicate Alive(claims: Claims, now: int) {
    match Get(claims, Exp)
    case JNum(at) => now < at
    case JBool(truth) => now < if truth then 1 else 0
    case _ => false
  }

  /**
    The token is three parts, the last being the digest of the first two; its header names the algorithm, and its
    claims are for this audience and alive.
   */
  ghost predicate Genuine(r: Receiver, token: string, claims: Claims) {
    exists header, payload, names ::
      && token == header + "." + payload + "." + Base64Url.Encode(r.lib.hmac(r.secret, header + "." + payload))
      && ParseSegment(r.lib, header) == Some(Object(names)) && Get(names, Alg) == JStr("HS256")
      && ParseSegment(r.lib, payload) == Some(Object(claims))
      && Get(claims, Aud) == JStr(r.audience) && Alive(claims, r.now)
  }

  lemma VerifiedIsGenuine(r: Receiver, token: string, claims: Claims)
    requires VerifyInternalToken(r.lib, token, r.secret, r.audience, r.now) == Ok(claims)
    ensures Genuine(r, token, claims)
  {
    ThreePartsJoin(token);
    var parts := SplitDots(token);
    var header, payload := parts[0], parts[1];
    assert token == header + "." + payload + "." + Base64Url.Encode(r.lib.hmac(r.secret, header + "." + payload));
    assert ParseSegment(r.lib, header) == Some(Object(ParseSegment(r.lib, header).value.claims));
  }

  /**
    Only a call with a genuine bearer token is admitted, and the child's caller is the principal of exactly the
    claims that this token carries.
   */
  lemma AdmittedIsGenuine(r: Receiver, headers: Headers) returns (raw: string, token: string, claims: Claims)
    requires Ingress(r, headers).Ok?
    ensures HeaderValue(headers, Authorization) == Some(raw)
    ensures exists scheme, rest :: raw == scheme + " " + rest && ' ' !in scheme && Lower(scheme) == "bearer"
                                   && Strip(rest) == token && token != ""
    ensures Genuine(r, token, claims) && BearerCaller(r, headers) == r.principal(claims)
    ensures r.principal(claims).Some? && Ingress(r, headers).value.caller == Some(r.principal(claims).value.actor)
  {
    raw := HeaderValue(headers, Authorization).GetOr("");
    token := DelegatedTokens.BearerOf(raw).value;
    claims := VerifyInternalToken(r.lib, token, r.secret, r.audience, r.now).value;
    BearerMeans(raw, token);
    VerifiedIsGenuine(r, token, claims);
  }

  /** Without an Authorization header nothing is admitted. */
  lemma MissingTokenRefused(r: Receiver, headers: Headers)
    requires HeaderValue(headers, Authorization).None?
    ensures Ingress(r, headers) == Err(Unauthenticated)
  {}

  /**
    A signed token is refused when it was signed with a secret that digests differently, for another audience, or is
    no longer alive; and only then, if its claims have a principal.
   */
  lemma SignedCallAdmittedIff(r: Receiver, headers: Headers, secret: string, claims: Claims)
    requires LosslessClaims(r.lib)
    requires HeaderValue(headers, Authorization) == Some("Bearer " + TokenOf(r.lib, secret, claims))
    ensures Ingress(r, headers) == Err(Unauthenticated) <==>
      || r.lib.hmac(r.secret, SigningInput(r.lib, claims)) != r.lib.hmac(secret, SigningInput(r.lib, claims))
      || Get(claims, Aud) != JStr(r.audience) || !Alive(claims, r.now) || r.principal(claims).None?
  {
    var token := TokenOf(r.lib, secret, claims);
    DelegatedTokens.BearerCarriesToken(r.lib, secret, claims);
    OtherSecretRefused(r.lib, secret, r.secret, claims, r.audience, r.now);
    if r.lib.hmac(r.secret, SigningInput(r.lib, claims)) == r.lib.hmac(secret, SigningInput(r.lib, claims)) {
      assert token == TokenOf(r.lib, r.secret, claims);
      SignedTokenVerifies(r.lib, r.secret, claims, r.audience, r.now);
    }
  }

  // ---- What is on the wire ----

  lemma CleanedMentions(headers: Headers, header: Header)
    requires !ContextHeader(header)
    ensures Mentions(Cleaned(headers), header) <==> Mentions(headers, header)
  {
    FilterSelects(headers, NotContext());
    if Mentions(headers, header) {
      var i :| 0 <= i < |headers| && headers[i].0.header == header;
      assert headers[i] in Cleaned(headers);
    }
    if Mentions(Cleaned(headers), header) {
      var i :| 0 <= i < |Cleaned(headers)| && Cleaned(headers)[i].0.header == header;
      assert Cleaned(headers)[i] in headers;
    }
  }

  /** The two headers about the caller are never sent, whoever sets them. */
  lemma CallerNeverSent(headers: Headers, c: Context, header: Header)
    requires header.CallerId? || header.CallerType?
    ensures HeaderValue(Merged(headers, c), header) == None
  {
    var cleaned := Cleaned(headers);
    HeaderValueFilter(headers, NotContext(), header);
    HeaderValueConcat(cleaned, Filter(PropagationHeaders(c), TakenOver(cleaned)), header);
    HeaderValueFilter(PropagationHeaders(c), TakenOver(cleaned), header);
  }

  /** The context headers on the wire say what the sender's context says, and nothing else. */
  lemma WireContext(headers: Headers, c: Context)
    ensures var wire := Merged(headers, c);
      && HeaderValue(wire, ActivityVersion) == Some("1")
      && HeaderValue(wire, InteractionId) == IfPresent(Some(c.interactionId))
      && HeaderValue(wire, InteractionType) == IfPresent(Some(c.interactionType))
      && HeaderValue(wire, CallerId) == None && HeaderValue(wire, CallerType) == None
      && HeaderValue(wire, SourceAgentId) == IfPresent(c.sourceAgentId)
      && HeaderValue(wire, RootAgentId) == IfPresent(c.rootAgentId)
      && HeaderValue(wire, ParentInteractionId) == IfPresent(Some(c.interactionId))
      && HeaderValue(wire, ParentActivityId) == IfPresent(c.parentActivityId)
  {
    WireCarriesContext(headers, c, ActivityVersion);
    WireCarriesContext(headers, c, InteractionId);
    WireCarriesContext(headers, c, InteractionType);
    CallerNeverSent(headers, c, CallerId);
    CallerNeverSent(headers, c, CallerType);
    WireCarriesContext(headers, c, SourceAgentId);
    WireCarriesContext(headers, c, RootAgentId);
    WireCarriesContext(headers, c, ParentInteractionId);
    WireCarriesContext(headers, c, ParentActivityId);
  }

  /** A correlation or trace header that the caller set stays as it is; the context's is sent where it set none. */
  lemma WireDefaults(headers: Headers, c: Context)
    ensures var wire := Merged(headers, c);
      && HeaderValue(wire, Header.CorrelationId)
         == (if Mentions(headers, Header.CorrelationId) then HeaderValue(headers, Header.CorrelationId)
             else IfPresent(c.correlationId))
      && HeaderValue(wire, Traceparent)
         == (if Mentions(headers, Traceparent) then HeaderValue(headers, Traceparent) else IfPresent(c.traceId))
  {
    WireDefault(headers, c, Header.CorrelationId);
    WireDefault(headers, c, Traceparent);
  }

  /** Credentials, baggage and everything else pass through untouched. */
  lemma WireOthers(headers: Headers, c: Context, header: Header)
    requires header.Authorization? || header.ActorIdentity? || header.ApiKeyId? || header.ApiKey?
      || header.EndpointUserInfo? || header.Baggage? || header.Other?
    ensures HeaderValue(Merged(headers, c), header) == HeaderValue(headers, header)
  {
    WireKeepsOthers(headers, c, header);
  }

  lemma WireDefault(headers: Headers, c: Context, header: Header)
    requires header.CorrelationId? || header.Traceparent?
    ensures HeaderValue(Merged(headers, c), header)
      == if Mentions(headers, header) then HeaderValue(headers, header) else IfPresent(Generated(c, header))
  {
    var cleaned := Cleaned(headers);
    HeaderValueFilter(headers, NotContext(), header);
    HeaderValueConcat(cleaned, Filter(PropagationHeaders(c), TakenOver(cleaned)), header);
    HeaderValueFilter(PropagationHeaders(c), TakenOver(cleaned), header);
    OrderDistinct();
    CollectLookup(c, ORDER, header);
    OrderNames(header);
    CleanedMentions(headers, header);
    if !Mentions(headers, header) {
      Unmentioned(headers, header);
    }
  }

  lemma {:induction false} Unmentioned(headers: Headers, header: Header)
    requires !Mentions(headers, header)
    ensures HeaderValue(headers, header) == None
  {
    if headers != [] {
      assert headers[0].0.header != header;
      forall i | 0 <= i < |headers[1..]|
        ensures headers[1..][i].0.header != header
      {
        assert headers[i + 1].0.header != header;
      }
      Unmentioned(headers[1..], header);
    }
  }

  // ---- What the child holds ----

  function FirstOf(a: Option<string>, b: Option<string>): Option<string> {
    if a.Some? && a.value != "" then a else b
  }

  /**
    Over one hop every field of the child is determined: by the sender's context, by the principal, or by the
    receiver.
   */
  lemma ChildSpelledOut(r: Receiver, headers: Headers, c: Context, child: Context, claims: Claims)
    requires c.interactionId != "" && Ingress(r, Merged(headers, c)) == Ok(child)
    requires BearerCaller(r, Merged(headers, c)) == r.principal(claims)
    ensures var caller := r.principal(claims).value;
      && child.interactionId == r.freshId && child.caller == Some(caller.actor)
      && child.interactionType == (if c.interactionType == "" then r.defaultType else c.interactionType)
      && child.projectId == FirstOf(r.projectId, caller.projectId)
      && child.sourceAgentId == IfPresent(c.sourceAgentId) && child.rootAgentId == IfPresent(c.rootAgentId)
      && child.parentInteractionId == Some(c.interactionId)
      && child.parentActivityId == FirstOf(c.parentActivityId, Some(c.interactionId))
      && child.correlationId
         == (if Mentions(headers, Header.CorrelationId)
           then FirstOf(HeaderValue(headers, Header.CorrelationId), caller.correlationId)
             else FirstOf(c.correlationId, caller.correlationId))
      && child.traceId
        == (if Mentions(headers, Traceparent) then HeaderValue(headers, Traceparent) else IfPresent(c.traceId))
    ensures c.interactionType != "" ==> c.interactionType in r.interactionTypes
  {
    WireContext(headers, c);
    WireDefaults(headers, c);
    ChildOfHeaders(r, Merged(headers, c), child, claims);
    Visible(headers, Header.CorrelationId);
  }

  /** The child of any admitted call, in terms of the headers alone; either parent stands in for the other. */
  lemma ChildOfHeaders(r: Receiver, wire: Headers, child: Context, claims: Claims)
    requires Ingress(r, wire) == Ok(child) && BearerCaller(r, wire) == r.principal(claims)
    ensures var caller, upstream := r.principal(claims).value,
      FirstOf(HeaderValue(wire, ParentInteractionId), HeaderValue(wire, InteractionId));
      && child.interactionId == r.freshId && child.caller == Some(caller.actor)
      && child.interactionType == HeaderValue(wire, InteractionType).GetOr(r.defaultType)
      && child.projectId == FirstOf(r.projectId, caller.projectId)
      && child.sourceAgentId == HeaderValue(wire, SourceAgentId) && child.rootAgentId == HeaderValue(wire, RootAgentId)
      && child.parentInteractionId == (if upstream.Some? then upstream else HeaderValue(wire, ParentActivityId))
      && child.parentActivityId
         == (if HeaderValue(wire, ParentActivityId).Some? then HeaderValue(wire, ParentActivityId) else upstream)
      && child.correlationId == FirstOf(HeaderValue(wire, Header.CorrelationId), caller.correlationId)
      && child.traceId == HeaderValue(wire, Traceparent)
    ensures HeaderValue(wire, InteractionType).Some? ==>
      HeaderValue(wire, InteractionType).value in r.interactionTypes
  {}

  lemma {:induction false} Visible(headers: Headers, header: Header)
    ensures HeaderValue(headers, header).Some? ==> HeaderValue(headers, header).value != ""
  {
    if headers != [] {
      Visible(headers[1..], header);
    }
  }

  // ---- The safe merge, header by header ----

  lemma SafeValue(headers: Headers, c: Context, header: Header)
    ensures HeaderValue(SafeMerged(headers, Some(c)), header)
      == if Reserved(header) || Generated(c, header).Some? then IfPresent(Generated(c, header))
         else HeaderValue(headers, header)
  {
    SpoofNeverWins(headers, Some(c), header);
  }

  /** Whatever the caller supplies, a receiver reads nothing under a credential, actor or baggage header. */
  lemma SafeMergeDropsCredentials(headers: Headers, c: Context, header: Header)
    requires header.Authorization? || header.ActorIdentity? || header.ApiKeyId? || header.ApiKey?
      || header.EndpointUserInfo? || header.Baggage?
    ensures HeaderValue(SafeMerged(headers, Some(c)), header) == None
  {
    SafeValue(headers, c, header);
  }

  /** Under a context header it reads what the context says, and nothing where that says nothing. */
  lemma SafeMergeContext(headers: Headers, c: Context)
    ensures var wire := SafeMerged(headers, Some(c));
      && HeaderValue(wire, ActivityVersion) == Some("1")
      && HeaderValue(wire, InteractionId) == IfPresent(Some(c.interactionId))
      && HeaderValue(wire, InteractionType) == IfPresent(Some(c.interactionType))
      && HeaderValue(wire, CallerId) == (if c.caller.Some? then IfPresent(Some(c.caller.value.actorId)) else None)
      && HeaderValue(wire, CallerType) == (if c.caller.Some? then IfPresent(Some(c.caller.value.actorType)) else None)
      && HeaderValue(wire, SourceAgentId) == IfPresent(c.sourceAgentId)
      && HeaderValue(wire, RootAgentId) == IfPresent(c.rootAgentId)
      && HeaderValue(wire, ParentInteractionId) == IfPresent(Some(c.interactionId))
      && HeaderValue(wire, ParentActivityId) == IfPresent(c.parentActivityId)
  {
    SafeValue(headers, c, ActivityVersion);
    SafeValue(headers, c, InteractionId);
    SafeValue(headers, c, InteractionType);
    SafeValue(headers, c, CallerId);
    SafeValue(headers, c, CallerType);
    SafeValue(headers, c, SourceAgentId);
    SafeValue(headers, c, RootAgentId);
    SafeValue(headers, c, ParentInteractionId);
    SafeValue(headers, c, ParentActivityId);
  }

  /** Correlation and trace are the context's if it has them, and the caller's otherwise. */
  lemma SafeMergeDefaults(headers: Headers, c: Context)
    ensures HeaderValue(SafeMerged(headers, Some(c)), Header.CorrelationId)
      == FirstOf(c.correlationId, HeaderValue(headers, Header.CorrelationId))
    ensures HeaderValue(SafeMerged(headers, Some(c)), Traceparent)
      == FirstOf(c.traceId, HeaderValue(headers, Traceparent))
  {
    SafeMergeDefault(headers, c, Header.CorrelationId);
    SafeMergeDefault(headers, c, Traceparent);
  }

  lemma SafeMergeDefault(headers: Headers, c: Context, header: Header)
    requires header.CorrelationId? || header.Traceparent?
    ensures HeaderValue(SafeMerged(headers, Some(c)), header)
      == FirstOf(if header.CorrelationId? then c.correlationId else c.traceId, HeaderValue(headers, header))
  {
    SafeValue(headers, c, header);
  }

  /** Every other header is kept. */
  lemma SafeMergeKeeps(headers: Headers, c: Context, name: string)
    ensures HeaderValue(SafeMerged(headers, Some(c)), Header.Other(name)) == HeaderValue(headers, Header.Other(name))
  {
    SafeValue(headers, c, Header.Other(name));
  }

  /** Without a context every reserved header is simply gone. */
  lemma SafeMergeWithoutContext(headers: Headers, header: Header)
    ensures HeaderValue(SafeMerged(headers, None), header)
      == if header.Other? || header.CorrelationId? || header.Traceparent? then HeaderValue(headers, header) else None
  {
    SpoofNeverWins(headers, None, header);
  }
}
