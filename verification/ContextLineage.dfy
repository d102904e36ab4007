/** Verified internal ingress, and the lineage of contexts along a chain of calls (activity/context.py). */
module ContextLineage {
  import opened Common
  import opened ContextPropagation
  import InternalTokens
  import DelegatedTokens

  /** What an ingress takes from a verified principal. */
  datatype Caller = Caller(actor: Actor, projectId: Option<string>, correlationId: Option<string>)

  datatype IngressError = Unauthenticated | UnknownInteractionType

  /** One receiving service: its token settings, its clock, and the fresh id it mints for the call. */
  datatype Receiver = Receiver(
    lib: InternalTokens.TokenLibrary, secret: string, audience: string, now: int,
    principal: InternalTokens.Claims -> Option<Caller>,
    interactionTypes: set<string>, defaultType: string, projectId: Option<string>, freshId: string)

  function BearerCaller(r: Receiver, headers: Headers): Option<Caller> {
    match DelegatedTokens.BearerOf(HeaderValue(headers, Authorization).GetOr(""))
    case None => None
    case Some(token) =>
      match InternalTokens.VerifyInternalToken(r.lib, token, r.secret, r.audience, r.now)
      case Ok(claims) => r.principal(claims)
      case Err(_) => None
  }

  function OrElse(a: Option<string>, b: Option<string>): Option<string> {
    if Present(a) then a else b
  }

  /** internal_interaction_context_from_headers: a child context, only behind a verified bearer token. */
  function Ingress(r: Receiver, headers: Headers): Result<Context, IngressError> {
    match BearerCaller(r, headers)
    case None => Err(Unauthenticated)
    case Some(caller) =>
      var interactionType := HeaderValue(headers, InteractionType);
      if interactionType.Some? && interactionType.value !in r.interactionTypes then Err(UnknownInteractionType)
      else Ok(Normalized(Context(
        r.freshId, interactionType.GetOr(r.defaultType), OrElse(r.projectId, caller.projectId),
        Some(caller.actor), HeaderValue(headers, SourceAgentId), HeaderValue(headers, RootAgentId),
        OrElse(HeaderValue(headers, CorrelationId), caller.correlationId), HeaderValue(headers, Traceparent),
        OrElse(HeaderValue(headers, ParentInteractionId), HeaderValue(headers, InteractionId)),
        HeaderValue(headers, ParentActivityId))))
  }

  // ---- What survives an outbound edge ----

  /** Context headers on the wire are the sender's own, whatever the caller of the client supplied. */
  lemma WireCarriesContext(headers: Headers, c: Context, header: Header)
    requires ContextHeader(header) && !SuppressedHeader(header)
    ensures HeaderValue(Merged(headers, c), header) == IfPresent(Generated(c, header))
  {
    var cleaned := Cleaned(headers);
    HeaderValueFilter(headers, NotContext(), header);
    HeaderValueConcat(cleaned, Filter(PropagationHeaders(c), TakenOver(cleaned)), header);
    HeaderValueFilter(PropagationHeaders(c), TakenOver(cleaned), header);
    OrderDistinct();
    CollectLookup(c, ORDER, header);
    OrderNames(header);
  }

  /** Every other header keeps the value it had, save a correlation or trace header that was missing. */
  lemma WireKeepsOthers(headers: Headers, c: Context, header: Header)
    requires !ContextHeader(header) && !SetDefaultHeader(header)
    ensures HeaderValue(Merged(headers, c), header) == HeaderValue(headers, header)
  {
    var cleaned := Cleaned(headers);
    HeaderValueFilter(headers, NotContext(), header);
    HeaderValueConcat(cleaned, Filter(PropagationHeaders(c), TakenOver(cleaned)), header);
    HeaderValueFilter(PropagationHeaders(c), TakenOver(cleaned), header);
    OrderDistinct();
    CollectLookup(c, ORDER, header);
    OrderNames(header);
  }

  /** One hop: the child's parent is the caller, and the activity parent is handed on or starts at the caller. */
  lemma HopLinksToCaller(r: Receiver, headers: Headers, c: Context, child: Context)
    requires c.interactionId != "" && Ingress(r, Merged(headers, c)) == Ok(child)
    ensures child.interactionId == r.freshId && ChildOf(c, child)
  {
    WireCarriesContext(headers, c, ParentInteractionId);
    WireCarriesContext(headers, c, ParentActivityId);
  }

  ghost predicate ChildOf(c: Context, child: Context) {
    && child.parentInteractionId == Some(c.interactionId)
    && child.parentActivityId == Some(if Present(c.parentActivityId) then c.parentActivityId.value else c.interactionId)
  }

  /** A call that carries a token minted for the receiver, not yet expired, is let in. */
  lemma MintedCallAdmitted(r: Receiver, headers: Headers, c: Context, claims: InternalTokens.Claims)
    requires InternalTokens.LosslessClaims(r.lib)
    requires HeaderValue(headers, Authorization) == Some("Bearer " + InternalTokens.TokenOf(r.lib, r.secret, claims))
    requires InternalTokens.Get(claims, InternalTokens.Aud) == JStr(r.audience)
    requires var exp := InternalTokens.AsInt(InternalTokens.Get(claims, InternalTokens.Exp));
      exp.Some? && r.now < exp.value
    requires r.principal(claims).Some? && c.interactionType in r.interactionTypes
    ensures Ingress(r, Merged(headers, c)).Ok?
  {
    WireKeepsOthers(headers, c, Authorization);
    WireCarriesContext(headers, c, InteractionType);
    DelegatedTokens.BearerCarriesToken(r.lib, r.secret, claims);
    InternalTokens.SignedTokenVerifies(r.lib, r.secret, claims, r.audience, r.now);
  }

  // ---- Chains of calls ----

  /** One call: the headers its sender supplied, and the service that received it. */
  datatype Hop = Hop(headers: Headers, receiver: Receiver)

  /** The contexts along a chain of calls; None as soon as one call is refused. */
  function Chain(root: Context, hops: seq<Hop>): (contexts: Option<seq<Context>>)
    ensures contexts.Some? ==> |contexts.value| == |hops| + 1
  {
    if hops == [] then Some([root])
    else
      var hop := hops[|hops| - 1];
      match Chain(root, hops[..|hops| - 1])
      case None => None
      case Some(contexts) =>
        match Ingress(hop.receiver, Merged(hop.headers, contexts[|contexts| - 1]))
        case Ok(child) => Some(contexts + [child])
        case Err(_) => None
  }

  /** Where the activity lineage of a chain starts. */
  function Origin(root: Context): string {
    if Present(root.parentActivityId) then root.parentActivityId.value else root.interactionId
  }

  ghost predicate Linked(root: Context, contexts: seq<Context>) {
    && contexts != [] && contexts[0] == root
    && forall i :: 1 <= i < |contexts| ==>
         && contexts[i].parentInteractionId == Some(contexts[i - 1].interactionId)
         && contexts[i].parentActivityId == Some(Origin(root))
  }

  lemma LinkedSnoc(root: Context, contexts: seq<Context>, child: Context)
    requires root.interactionId != "" && Linked(root, contexts)
    requires forall i :: 0 <= i < |contexts| ==> contexts[i].interactionId != ""
    requires ChildOf(contexts[|contexts| - 1], child)
    ensures Linked(root, contexts + [child])
  {
    var last := contexts[|contexts| - 1];
    if |contexts| > 1 {
      assert last.parentActivityId == Some(Origin(root));
      assert Present(last.parentActivityId);
    }
  }

  lemma ChainUnfolds(root: Context, hops: seq<Hop>, contexts: seq<Context>, n: nat)
    requires Chain(root, hops) == Some(contexts) && |hops| == n + 1
    ensures Chain(root, hops[..n]) == Some(contexts[..n + 1])
    ensures Ingress(hops[n].receiver, Merged(hops[n].headers, contexts[n])) == Ok(contexts[n + 1])
  {}

  lemma IdsPresent(root: Context, contexts: seq<Context>, hops: seq<Hop>)
    requires root.interactionId != "" && |contexts| == |hops| + 1 && contexts[0] == root
    requires forall i :: 0 <= i < |hops| ==> hops[i].receiver.freshId != ""
    requires forall i :: 1 <= i < |contexts| ==> contexts[i].interactionId == hops[i - 1].receiver.freshId
    ensures forall i :: 0 <= i < |contexts| ==> contexts[i].interactionId != ""
  {}

  /** Every hop's parent is its immediate caller, and the activity parent never moves after the first hop. */
  lemma {:induction false} ChainIsLinked(root: Context, hops: seq<Hop>, contexts: seq<Context>)
    requires root.interactionId != "" && forall i :: 0 <= i < |hops| ==> hops[i].receiver.freshId != ""
    requires Chain(root, hops) == Some(contexts)
    ensures Linked(root, contexts)
    ensures forall i :: 1 <= i < |contexts| ==> contexts[i].interactionId == hops[i - 1].receiver.freshId
    decreases |hops|
  {
    if hops != [] {
      var n := |hops| - 1;
      var before := contexts[..n + 1];
      ChainUnfolds(root, hops, contexts, n);
      ChainIsLinked(root, hops[..n], before);
      HopLinksToCaller(hops[n].receiver, hops[n].headers, before[n], contexts[n + 1]);
      IdsPresent(root, before, hops[..n]);
      LinkedSnoc(root, before, contexts[n + 1]);
      assert contexts == before + [contexts[n + 1]];
      IdsSnoc(contexts, hops, before, hops[..n]);
    }
  }

  lemma IdsSnoc(contexts: seq<Context>, hops: seq<Hop>, before: seq<Context>, earlier: seq<Hop>)
    requires hops != [] && |contexts| == |hops| + 1
    requires before == contexts[..|hops|] && earlier == hops[..|hops| - 1]
    requires forall i :: 1 <= i < |before| ==> before[i].interactionId == earlier[i - 1].receiver.freshId
    requires contexts[|hops|].interactionId == hops[|hops| - 1].receiver.freshId
    ensures forall i :: 1 <= i < |contexts| ==> contexts[i].interactionId == hops[i - 1].receiver.freshId
  {
    forall i | 1 <= i < |contexts|
      ensures contexts[i].interactionId == hops[i - 1].receiver.freshId
    {
      if i < |hops| {
        assert before[i] == contexts[i] && earlier[i - 1] == hops[i - 1];
      }
    }
  }

  /** The parent of an id among the recorded contexts. */
  ghost predicate ParentOf(contexts: seq<Context>, id: string, parent: string) {
    exists i :: 0 <= i < |contexts| && contexts[i].interactionId == id
      && contexts[i].parentInteractionId == Some(parent)
  }

  /** k steps up the recorded parents. */
  ghost predicate Climbs(contexts: seq<Context>, from: string, to: string, k: nat)
    decreases k
  {
    if k == 0 then from == to
    else exists middle :: ParentOf(contexts, from, middle) && Climbs(contexts, middle, to, k - 1)
  }

  ghost predicate DistinctIds(contexts: seq<Context>) {
    forall i, j :: 0 <= i < j < |contexts| ==> contexts[i].interactionId != contexts[j].interactionId
  }

  /** Climbing k parents from hop n leads to hop n - k and nowhere else. */
  lemma {:induction false} ClimbIsUnique(root: Context, contexts: seq<Context>, n: nat, k: nat, to: string)
    requires Linked(root, contexts) && DistinctIds(contexts) && k <= n < |contexts|
    ensures Climbs(contexts, contexts[n].interactionId, to, k) <==> to == contexts[n - k].interactionId
    decreases k
  {
    if k > 0 {
      ClimbIsUnique(root, contexts, n - 1, k - 1, to);
      assert ParentOf(contexts, contexts[n].interactionId, contexts[n - 1].interactionId);
      forall middle | ParentOf(contexts, contexts[n].interactionId, middle)
        ensures middle == contexts[n - 1].interactionId
      {
        var i :| 0 <= i < |contexts| && contexts[i].interactionId == contexts[n].interactionId
          && contexts[i].parentInteractionId == Some(middle);
        assert i == n;
      }
    }
  }

  /**
    Lineage: with fresh ids, following recorded parents from the last hop reaches the root after exactly
    as many steps as there were calls, never earlier, and never returns to an id it has passed.
   */
  lemma LineageReachesRoot(root: Context, hops: seq<Hop>, contexts: seq<Context>, k: nat)
    requires root.interactionId != "" && (forall i :: 0 <= i < |hops| ==> hops[i].receiver.freshId != "")
    requires Chain(root, hops) == Some(contexts) && DistinctIds(contexts) && k <= |hops|
    ensures var last := contexts[|hops|].interactionId;
      && (Climbs(contexts, last, root.interactionId, k) <==> k == |hops|)
      && (Climbs(contexts, last, last, k) <==> k == 0)
  {
    ChainIsLinked(root, hops, contexts);
    ClimbIsUnique(root, contexts, |hops|, k, root.interactionId);
    ClimbIsUnique(root, contexts, |hops|, k, contexts[|hops|].interactionId);
  }
}
