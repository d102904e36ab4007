/** Interaction lineage across service calls (activity/context.py, _merge_taproot_context in http.py). */
module ContextPropagation {
  import opened Common
  import InternalTokens
  import DelegatedTokens

  /** Header names up to case. */
  datatype Header =
    | ActivityVersion | InteractionId | InteractionType | CallerId | CallerType | SourceAgentId | RootAgentId
    | ParentInteractionId | ParentActivityId | CorrelationId | Traceparent
    | Authorization | ActorIdentity | ApiKeyId | ApiKey | EndpointUserInfo | Baggage
    | Other(name: string)

  /** A dictionary key: a name in one of its spellings. Spelling 0 is the one this library writes. */
  datatype Key = Key(header: Header, spelling: nat)

  /** A header dictionary in insertion order. */
  type Headers = seq<(Key, string)>

  function Canonical(header: Header): Key {
    Key(header, 0)
  }

  function Lookup(headers: Headers, key: Key): Option<string> {
    if headers == [] then None
    else if headers[0].0 == key then Some(headers[0].1)
    else Lookup(headers[1..], key)
  }

  /** dict[key] = value: in place when the key is there, at the end when it is not. */
  function Put(headers: Headers, key: Key, value: string): Headers {
    if headers == [] then [(key, value)]
    else if headers[0].0 == key then [(key, value)] + headers[1..]
    else [headers[0]] + Put(headers[1..], key, value)
  }

  /** The first non-empty value under a name, whatever its spelling. */
  function HeaderValue(headers: Headers, header: Header): Option<string> {
    if headers == [] then None
    else if headers[0].0.header == header && headers[0].1 != "" then Some(headers[0].1)
    else HeaderValue(headers[1..], header)
  }

  predicate Mentions(headers: Headers, header: Header) {
    exists i :: 0 <= i < |headers| && headers[i].0.header == header
  }

  function Filter(headers: Headers, keep: Header -> bool): Headers {
    if headers == [] then []
    else (if keep(headers[0].0.header) then [headers[0]] else []) + Filter(headers[1..], keep)
  }

  // ---- Contexts ----

  datatype Actor = Actor(actorType: string, actorId: string)

  datatype Context = Context(
    interactionId: string, interactionType: string, projectId: Option<string>,
    caller: Option<Actor>, sourceAgentId: Option<string>, rootAgentId: Option<string>,
    correlationId: Option<string>, traceId: Option<string>,
    parentInteractionId: Option<string>, parentActivityId: Option<string>)

  /** __post_init__: either parent field stands in for the other when only one is given. */
  function Normalized(c: Context): Context {
    c.(parentInteractionId := if c.parentInteractionId.None? then c.parentActivityId else c.parentInteractionId,
       parentActivityId := if c.parentActivityId.None? then c.parentInteractionId else c.parentActivityId)
  }

  predicate Present(value: Option<string>) {
    value.Some? && value.value != ""
  }

  function IfPresent(value: Option<string>): Option<string> {
    if Present(value) then value else None
  }

  /** The value that a context gives one of its headers, if it gives it one. */
  function Generated(c: Context, header: Header): Option<string> {
    match header
    case ActivityVersion => Some("1")
    case InteractionId => Some(c.interactionId)
    case InteractionType => Some(c.interactionType)
    case CallerId => if c.caller.Some? then Some(c.caller.value.actorId) else None
    case CallerType => if c.caller.Some? then Some(c.caller.value.actorType) else None
    case SourceAgentId => IfPresent(c.sourceAgentId)
    case RootAgentId => IfPresent(c.rootAgentId)
    case ParentInteractionId => Some(c.interactionId)
    case ParentActivityId => IfPresent(c.parentActivityId)
    case CorrelationId => IfPresent(c.correlationId)
    case Traceparent => IfPresent(c.traceId)
    case _ => None
  }

  const ORDER: seq<Header> := [
    ActivityVersion, InteractionId, InteractionType, CallerId, CallerType, SourceAgentId, RootAgentId,
    ParentInteractionId, ParentActivityId, CorrelationId, Traceparent]

  function Collect(c: Context, order: seq<Header>): Headers {
    if order == [] then []
    else
      (match Generated(c, order[0])
       case Some(value) => [(Canonical(order[0]), value)]
       case None => []) + Collect(c, order[1..])
  }

  function PropagationHeaders(c: Context): Headers {
    Collect(c, ORDER)
  }

  predicate ContextHeader(header: Header) {
    || header.ActivityVersion? || header.InteractionId? || header.InteractionType? || header.CallerId?
      || header.CallerType?
    || header.SourceAgentId? || header.RootAgentId? || header.ParentInteractionId? || header.ParentActivityId?
  }

  predicate SetDefaultHeader(header: Header) {
    header.CorrelationId? || header.Traceparent?
  }

  predicate SuppressedHeader(header: Header) {
    header.CallerId? || header.CallerType?
  }

  // ---- Merging into outbound headers ----

  function NotContext(): Header -> bool {
    header => !ContextHeader(header)
  }

  function Cleaned(headers: Headers): Headers {
    Filter(headers, NotContext())
  }

  /** The propagation headers that an outbound request actually takes on. */
  predicate Taken(cleaned: Headers, header: Header) {
    !SuppressedHeader(header) && !(SetDefaultHeader(header) && Mentions(cleaned, header))
  }

  function TakenOver(cleaned: Headers): Header -> bool {
    header => Taken(cleaned, header)
  }

  function Merged(headers: Headers, c: Context): Headers {
    Cleaned(headers) + Filter(PropagationHeaders(c), TakenOver(Cleaned(headers)))
  }

  method CleanHeaders(headers: Headers) returns (cleaned: Headers)
    ensures cleaned == Cleaned(headers)
  {
    cleaned := [];
    for i := 0 to |headers|
      invariant cleaned == Cleaned(headers[..i])
    {
      FilterSnoc(headers[..i], headers[i], NotContext());
      assert headers[..i] + [headers[i]] == headers[..i + 1];
      if !ContextHeader(headers[i].0.header) {
        cleaned := cleaned + [headers[i]];
      }
    }
    assert headers[..|headers|] == headers;
  }

  /** _merge_taproot_context: drop every context header, then set the canonical ones one by one. */
  method MergeTaprootContext(headers: Headers, context: Option<Context>) returns (merged: Headers)
    ensures merged == if context.Some? then Merged(headers, context.value) else Cleaned(headers)
  {
    var cleaned := CleanHeaders(headers);
    merged := cleaned;
    if context.None? {
      return;
    }
    var generated := PropagationHeaders(context.value);
    var keep := TakenOver(cleaned);
    for i := 0 to |generated|
      invariant merged == cleaned + Filter(generated[..i], keep)
    {
      FilterSnoc(generated[..i], generated[i], keep);
      assert generated[..i] + [generated[i]] == generated[..i + 1];
      if keep(generated[i].0.header) {
        TakenIsNew(headers, context.value, i);
        PutNew(merged, generated[i].0, generated[i].1);
        merged := Put(merged, generated[i].0, generated[i].1);
      }
    }
    assert generated[..|generated|] == generated;
  }

  // ---- Facts about dictionaries ----

  lemma FilterCons(entry: (Key, string), rest: Headers, keep: Header -> bool)
    ensures Filter([entry] + rest, keep) == (if keep(entry.0.header) then [entry] else []) + Filter(rest, keep)
  {
    assert ([entry] + rest)[1..] == rest;
  }

  lemma {:induction false} FilterConcat(a: Headers, b: Headers, keep: Header -> bool)
    ensures Filter(a + b, keep) == Filter(a, keep) + Filter(b, keep)
    decreases |a|
  {
    if a == [] {
      assert a + b == b;
    } else {
      var entry, rest := a[0], a[1..];
      FilterConcat(rest, b, keep);
      FilterCons(entry, rest, keep);
      FilterCons(entry, rest + b, keep);
      assert a == [entry] + rest;
      assert a + b == [entry] + (rest + b);
    }
  }

  lemma FilterSnoc(a: Headers, entry: (Key, string), keep: Header -> bool)
    ensures Filter(a + [entry], keep) == Filter(a, keep) + if keep(entry.0.header) then [entry] else []
  {
    FilterConcat(a, [entry], keep);
  }

  lemma {:induction false} FilterSelects(a: Headers, keep: Header -> bool)
    ensures forall entry :: entry in Filter(a, keep) <==> entry in a && keep(entry.0.header)
  {
    if a != [] {
      FilterSelects(a[1..], keep);
      assert a == [a[0]] + a[1..];
    }
  }

  lemma {:induction false} FilterAll(a: Headers, keep: Header -> bool)
    requires forall entry :: entry in a ==> keep(entry.0.header)
    ensures Filter(a, keep) == a
  {
    if a != [] {
      assert a[0] in a;
      FilterAll(a[1..], keep);
    }
  }

  lemma {:induction false} PutNew(a: Headers, key: Key, value: string)
    requires forall entry :: entry in a ==> entry.0 != key
    ensures Put(a, key, value) == a + [(key, value)]
  {
    if a != [] {
      assert a[0] in a;
      PutNew(a[1..], key, value);
    }
  }

  lemma {:induction false} HeaderValueConcat(a: Headers, b: Headers, header: Header)
    ensures HeaderValue(a + b, header)
      == if HeaderValue(a, header).Some? then HeaderValue(a, header) else HeaderValue(b, header)
  {
    if a == [] {
      assert a + b == b;
    } else {
      HeaderValueConcat(a[1..], b, header);
      assert (a + b)[1..] == a[1..] + b;
    }
  }

  lemma {:induction false} HeaderValueFilter(a: Headers, keep: Header -> bool, header: Header)
    ensures HeaderValue(Filter(a, keep), header) == if keep(header) then HeaderValue(a, header) else None
  {
    if a != [] {
      HeaderValueFilter(a[1..], keep, header);
      var head := if keep(a[0].0.header) then [a[0]] else [];
      assert Filter(a, keep) == head + Filter(a[1..], keep);
      HeaderValueConcat(head, Filter(a[1..], keep), header);
      if head != [] {
        assert HeaderValue(head, header) == if a[0].0.header == header && a[0].1 != "" then Some(a[0].1) else None by {
          assert head[1..] == [];
        }
      }
    }
  }

  lemma {:induction false} LookupConcat(a: Headers, b: Headers, key: Key)
    ensures Lookup(a + b, key) == if Lookup(a, key).Some? then Lookup(a, key) else Lookup(b, key)
  {
    if a == [] {
      assert a + b == b;
    } else {
      LookupConcat(a[1..], b, key);
      assert (a + b)[1..] == a[1..] + b;
    }
  }

  lemma {:induction false} LookupFilter(a: Headers, keep: Header -> bool, key: Key)
    ensures Lookup(Filter(a, keep), key) == if keep(key.header) then Lookup(a, key) else None
  {
    if a != [] {
      LookupFilter(a[1..], keep, key);
      var head := if keep(a[0].0.header) then [a[0]] else [];
      assert Filter(a, keep) == head + Filter(a[1..], keep);
      LookupConcat(head, Filter(a[1..], keep), key);
      if head != [] {
        assert head[1..] == [];
      }
    }
  }

  lemma CleanedHasNoContext(headers: Headers)
    ensures forall entry :: entry in Cleaned(headers) ==> !ContextHeader(entry.0.header)
  {
    FilterSelects(headers, NotContext());
  }

  lemma OrderDistinct()
    ensures Distinct(ORDER)
  {}

  lemma {:induction false} CollectCanonical(c: Context, order: seq<Header>)
    ensures forall entry ::
      entry in Collect(c, order) ==> entry.0 == Canonical(entry.0.header) && entry.0.header in order
  {
    if order != [] {
      CollectCanonical(c, order[1..]);
      assert order == [order[0]] + order[1..];
    }
  }

  ghost predicate DistinctKeys(headers: Headers) {
    forall i, j :: 0 <= i < j < |headers| ==> headers[i].0 != headers[j].0
  }

  lemma DistinctCons(entry: (Key, string), rest: Headers)
    requires DistinctKeys(rest) && forall other :: other in rest ==> other.0 != entry.0
    ensures DistinctKeys([entry] + rest)
  {
    var all := [entry] + rest;
    forall i, j | 0 <= i < j < |all|
      ensures all[i].0 != all[j].0
    {
      assert all[j] == rest[j - 1];
      if i > 0 {
        assert all[i] == rest[i - 1];
      } else {
        assert rest[j - 1] in rest;
      }
    }
  }

  /** Collected headers come one per name. */
  lemma {:induction false} CollectDistinct(c: Context, order: seq<Header>)
    requires Distinct(order)
    ensures DistinctKeys(Collect(c, order))
  {
    if order != [] {
      var rest := Collect(c, order[1..]);
      CollectDistinct(c, order[1..]);
      CollectCanonical(c, order[1..]);
      var value := Generated(c, order[0]);
      if value.Some? {
        assert order[0] !in order[1..];
        DistinctCons((Canonical(order[0]), value.value), rest);
      } else {
        assert Collect(c, order) == rest;
      }
    }
  }

  /** Collected headers are canonical, drawn from the order, and one per name. */
  lemma CollectShape(c: Context, order: seq<Header>)
    requires Distinct(order)
    ensures var g := Collect(c, order);
      && (forall entry :: entry in g ==> entry.0 == Canonical(entry.0.header) && entry.0.header in order)
      && (forall i, j :: 0 <= i < j < |g| ==> g[i].0 != g[j].0)
  {
    CollectCanonical(c, order);
    CollectDistinct(c, order);
  }

  /** A header to be set is new: neither in what the caller kept nor among those already set. */
  lemma TakenIsNew(headers: Headers, c: Context, i: nat)
    requires i < |PropagationHeaders(c)|
    requires Taken(Cleaned(headers), PropagationHeaders(c)[i].0.header)
    ensures var cleaned, generated := Cleaned(headers), PropagationHeaders(c);
      forall entry :: entry in cleaned + Filter(generated[..i], TakenOver(cleaned)) ==> entry.0 != generated[i].0
  {
    var cleaned, generated := Cleaned(headers), PropagationHeaders(c);
    CleanedHasNoContext(headers);
    OrderDistinct();
    CollectShape(c, ORDER);
    FilterSelects(generated[..i], TakenOver(cleaned));
    assert generated[i] in generated;
    OrderNames(generated[i].0.header);
    forall entry | entry in cleaned + Filter(generated[..i], TakenOver(cleaned))
      ensures entry.0 != generated[i].0
    {
      if entry in cleaned {
        var k :| 0 <= k < |cleaned| && cleaned[k] == entry;
      } else {
        var k :| 0 <= k < i && generated[k] == entry;
      }
    }
  }

  lemma OrderNames(header: Header)
    ensures header in ORDER <==> ContextHeader(header) || SetDefaultHeader(header)
  {
    assert ORDER[0] == ActivityVersion && ORDER[1] == InteractionId && ORDER[2] == InteractionType
      && ORDER[3] == CallerId;
    assert ORDER[4] == CallerType && ORDER[5] == SourceAgentId && ORDER[6] == RootAgentId
      && ORDER[7] == ParentInteractionId;
    assert ORDER[8] == ParentActivityId && ORDER[9] == CorrelationId && ORDER[10] == Traceparent;
  }

  lemma {:induction false} CollectLookup(c: Context, order: seq<Header>, header: Header)
    requires Distinct(order)
    ensures Lookup(Collect(c, order), Canonical(header)) == if header in order then Generated(c, header) else None
    ensures HeaderValue(Collect(c, order), header) == if header in order then IfPresent(Generated(c, header)) else None
  {
    if order != [] {
      assert Distinct(order[1..]);
      CollectLookup(c, order[1..], header);
      assert order == [order[0]] + order[1..];
      var head: Headers :=
        match Generated(c, order[0]) case Some(value) => [(Canonical(order[0]), value)] case None => [];
      assert Collect(c, order) == head + Collect(c, order[1..]);
      LookupConcat(head, Collect(c, order[1..]), Canonical(header));
      HeaderValueConcat(head, Collect(c, order[1..]), header);
      if head != [] {
        assert head[1..] == [];
      }
      assert order[0] !in order[1..];
    }
  }

  // ---- Merging: canonical, idempotent ----

  /** After merging, every context header appears in its canonical spelling only, and at most once. */
  lemma MergedIsCanonical(headers: Headers, c: Context)
    ensures var merged := Merged(headers, c);
      && (forall i :: 0 <= i < |merged| && ContextHeader(merged[i].0.header) ==> merged[i].0.spelling == 0)
      && (forall i, j ::
        0 <= i < j < |merged| && ContextHeader(merged[i].0.header) ==> merged[i].0.header != merged[j].0.header)
  {
    var cleaned, generated := Cleaned(headers), PropagationHeaders(c);
    var taken := Filter(generated, TakenOver(cleaned));
    CleanedHasNoContext(headers);
    OrderDistinct();
    CollectShape(c, ORDER);
    FilterShape(generated, TakenOver(cleaned));
    assert forall i :: 0 <= i < |cleaned| ==> cleaned[i] in cleaned;
  }

  /** Filtering keeps entries canonical and names unrepeated. */
  lemma {:induction false} FilterShape(a: Headers, keep: Header -> bool)
    requires forall entry :: entry in a ==> entry.0 == Canonical(entry.0.header)
    requires forall i, j :: 0 <= i < j < |a| ==> a[i].0 != a[j].0
    ensures forall entry :: entry in Filter(a, keep) ==> entry in a
    ensures forall i, j :: 0 <= i < j < |Filter(a, keep)| ==> Filter(a, keep)[i].0.header != Filter(a, keep)[j].0.header
  {
    if a != [] {
      assert a == [a[0]] + a[1..];
      FilterShape(a[1..], keep);
      forall entry | entry in Filter(a[1..], keep)
        ensures entry.0.header != a[0].0.header
      {
        var k :| 0 <= k < |a[1..]| && a[1..][k] == entry;
        assert a[0].0 != a[k + 1].0 && a[0] in a && a[k + 1] in a;
      }
    }
  }

  /** Merging again changes no entry of the dictionary. */
  lemma MergeIdempotent(headers: Headers, c: Context, key: Key)
    ensures Lookup(Merged(Merged(headers, c), c), key) == Lookup(Merged(headers, c), key)
  {
    var cleaned, generated := Cleaned(headers), PropagationHeaders(c);
    var take := TakenOver(cleaned);
    var recleaned := Cleaned(Merged(headers, c));
    var retake := TakenOver(recleaned);
    FilterConcat(cleaned, Filter(generated, take), NotContext());
    CleanedHasNoContext(headers);
    FilterAll(cleaned, NotContext());
    assert recleaned == cleaned + Filter(Filter(generated, take), NotContext());
    LookupConcat(cleaned, Filter(generated, take), key);
    LookupConcat(cleaned, Filter(Filter(generated, take), NotContext()), key);
    LookupConcat(recleaned, Filter(generated, retake), key);
    LookupFilter(generated, take, key);
    LookupFilter(generated, retake, key);
    LookupFilter(Filter(generated, take), NotContext(), key);
    if Mentions(cleaned, key.header) {
      var i :| 0 <= i < |cleaned| && cleaned[i].0.header == key.header;
      assert recleaned[i] == cleaned[i];
    }
  }
}
