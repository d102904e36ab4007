/** Merging outbound context over headers that may be spoofed (activity/context.py, trust/headers.py). */
module ContextSafeMerge {
  import opened Common
  import opened ContextPropagation

  /** RESERVED_HEADERS: context, audit, credential and baggage headers. */
  predicate Reserved(header: Header) {
    !header.Other? && !header.CorrelationId? && !header.Traceparent?
  }

  function Unreserved(): Header -> bool {
    header => !Reserved(header)
  }

  function StripReserved(headers: Headers): Headers {
    Filter(headers, Unreserved())
  }

  function PropagationOf(context: Option<Context>): Headers {
    match context
    case None => []
    case Some(c) => PropagationHeaders(c)
  }

  function GeneratedBy(context: Option<Context>, header: Header): Option<string> {
    match context
    case None => None
    case Some(c) => Generated(c, header)
  }

  function NotIn(generated: Headers): Header -> bool {
    header => !Mentions(generated, header)
  }

  /** dict.update */
  function Update(headers: Headers, from: Headers): Headers {
    if from == [] then headers
    else Put(Update(headers, from[..|from| - 1]), from[|from| - 1].0, from[|from| - 1].1)
  }

  /** merge_safe_propagation_headers */
  function SafeMerged(headers: Headers, context: Option<Context>): Headers {
    var generated := PropagationOf(context);
    Update(Filter(StripReserved(headers), NotIn(generated)), generated)
  }

  lemma {:induction false} UpdateAppends(headers: Headers, from: Headers)
    requires forall i, j :: 0 <= i < j < |from| ==> from[i].0 != from[j].0
    requires forall i :: 0 <= i < |from| ==> forall entry :: entry in headers ==> entry.0 != from[i].0
    ensures Update(headers, from) == headers + from
    decreases |from|
  {
    if from != [] {
      var n := |from| - 1;
      UpdateAppends(headers, from[..n]);
      assert from == from[..n] + [from[n]];
      forall entry | entry in headers + from[..n]
        ensures entry.0 != from[n].0
      {
        if entry !in headers {
          var k :| 0 <= k < n && from[k] == entry;
        }
      }
      PutNew(headers + from[..n], from[n].0, from[n].1);
    }
  }

  lemma {:induction false} FilterNothing(a: Headers, keep: Header -> bool)
    requires forall entry :: entry in a ==> !keep(entry.0.header)
    ensures Filter(a, keep) == []
  {
    if a != [] {
      assert a[0] in a;
      FilterNothing(a[1..], keep);
    }
  }

  lemma PropagationDistinct(context: Option<Context>)
    ensures var g := PropagationOf(context); forall i, j :: 0 <= i < j < |g| ==> g[i].0 != g[j].0
  {
    if context.Some? {
      OrderDistinct();
      CollectShape(context.value, ORDER);
    }
  }

  /** What the caller keeps comes first, then the canonical headers, each once. */
  lemma SafeMergedSplits(headers: Headers, context: Option<Context>)
    ensures var generated := PropagationOf(context);
      SafeMerged(headers, context) == Filter(StripReserved(headers), NotIn(generated)) + generated
  {
    var generated := PropagationOf(context);
    var kept := Filter(StripReserved(headers), NotIn(generated));
    PropagationDistinct(context);
    FilterSelects(StripReserved(headers), NotIn(generated));
    forall i, entry | 0 <= i < |generated| && entry in kept
      ensures entry.0 != generated[i].0
    {
      assert !Mentions(generated, entry.0.header);
    }
    UpdateAppends(kept, generated);
  }

  lemma MentionsConcat(a: Headers, b: Headers, header: Header)
    ensures Mentions(a + b, header) <==> Mentions(a, header) || Mentions(b, header)
  {
    if Mentions(a, header) {
      var i :| 0 <= i < |a| && a[i].0.header == header;
      assert (a + b)[i] == a[i];
    }
    if Mentions(b, header) {
      var i :| 0 <= i < |b| && b[i].0.header == header;
      assert (a + b)[|a| + i] == b[i];
    }
  }

  lemma {:induction false} CollectMentions(c: Context, order: seq<Header>, header: Header)
    ensures Mentions(Collect(c, order), header) <==> header in order && Generated(c, header).Some?
  {
    if order != [] {
      var name, value := order[0], Generated(c, order[0]);
      CollectMentions(c, order[1..], header);
      assert order == [name] + order[1..];
      if value.Some? {
        var head := [(Canonical(name), value.value)];
        assert head[0].0.header == name;
        MentionsConcat(head, Collect(c, order[1..]), header);
      } else {
        assert Collect(c, order) == Collect(c, order[1..]);
      }
    }
  }

  lemma PropagationMentions(context: Option<Context>, header: Header)
    ensures Mentions(PropagationOf(context), header) <==> GeneratedBy(context, header).Some?
  {
    if context.Some? {
      CollectMentions(context.value, ORDER, header);
      OrderNames(header);
    }
  }

  /**
    The value a receiver reads: for a reserved header, or one the context sets, the context's alone,
    absent when the context has none; for every other header, the caller's.
   */
  lemma SpoofNeverWins(headers: Headers, context: Option<Context>, header: Header)
    ensures HeaderValue(SafeMerged(headers, context), header)
      == if Reserved(header) || GeneratedBy(context, header).Some? then IfPresent(GeneratedBy(context, header))
         else HeaderValue(headers, header)
  {
    var generated := PropagationOf(context);
    SafeMergedSplits(headers, context);
    HeaderValueConcat(Filter(StripReserved(headers), NotIn(generated)), generated, header);
    HeaderValueFilter(StripReserved(headers), NotIn(generated), header);
    HeaderValueFilter(headers, Unreserved(), header);
    PropagationMentions(context, header);
    if context.Some? {
      OrderDistinct();
      CollectLookup(context.value, ORDER, header);
      OrderNames(header);
    }
  }

  lemma KeepsKept(kept: Headers, generated: Headers)
    requires forall entry :: entry in kept ==> !Reserved(entry.0.header) && !Mentions(generated, entry.0.header)
    ensures Filter(StripReserved(kept + generated), NotIn(generated)) == kept
  {
    var again := Filter(generated, Unreserved());
    FilterConcat(kept, generated, Unreserved());
    FilterAll(kept, Unreserved());
    FilterConcat(kept, again, NotIn(generated));
    FilterAll(kept, NotIn(generated));
    FilterSelects(generated, Unreserved());
    forall entry | entry in again
      ensures Mentions(generated, entry.0.header)
    {
      var k :| 0 <= k < |generated| && generated[k] == entry;
    }
    FilterNothing(again, NotIn(generated));
  }

  /** Merging again leaves the very same dictionary, in the very same order. */
  lemma SafeMergeIdempotent(headers: Headers, context: Option<Context>, once: Headers)
    requires once == SafeMerged(headers, context)
    ensures SafeMerged(once, context) == once
  {
    var generated := PropagationOf(context);
    var kept := Filter(StripReserved(headers), NotIn(generated));
    SafeMergedSplits(headers, context);
    SafeMergedSplits(once, context);
    FilterSelects(headers, Unreserved());
    FilterSelects(StripReserved(headers), NotIn(generated));
    KeepsKept(kept, generated);
  }
}
