/** The TTL cache in front of a metadata store (auth/metadata.py). */
module MetadataCache {
  import opened Common

  datatype Query = StoreId | Metadata

  /** A store id, or a metadata dictionary. */
  datatype Answer = Store(id: string) | Fields(fields: map<string, string>)

  /** The inner store over time: its answer to each query at each instant. */
  type World = (real, Query, string) -> Option<Answer>

  datatype Entry = Entry(value: Answer, expiry: real)

  type Cache = map<string, Entry>

  function CacheKey(query: Query, id: string): string {
    (match query case StoreId => "store_id:" case Metadata => "metadata:") + id
  }

  /** The two atomic halves of a request: looking in the cache, and storing what was fetched. */
  datatype Event =
    | Lookup(query: Query, id: string, at: real)
    | Fill(query: Query, id: string, fetchedAt: real, at: real)

  /** What a lookup at `now` finds; an expired entry is as good as none. */
  function Hit(cache: Cache, query: Query, id: string, now: real): Option<Answer> {
    var key := CacheKey(query, id);
    if key in cache && now < cache[key].expiry then Some(cache[key].value) else None
  }

  function Step(world: World, ttl: real, cache: Cache, e: Event): Cache {
    var key := CacheKey(e.query, e.id);
    match e
    case Lookup(query, id, now) => if Hit(cache, query, id, now).None? then cache - {key} else cache
    case Fill(query, id, fetchedAt, now) =>
      match world(fetchedAt, query, id)
      case Some(value) => cache[key := Entry(value, now + ttl)]
      case None => cache
  }

  function Run(world: World, ttl: real, events: seq<Event>): Cache {
    if events == [] then map[]
    else Step(world, ttl, Run(world, ttl, events[..|events| - 1]), events[|events| - 1])
  }

  /** A monotone clock, and fetches that return within `latency` of the instant they observed. */
  ghost predicate Timely(events: seq<Event>, latency: real) {
    && (forall i, j :: 0 <= i < j < |events| ==> events[i].at <= events[j].at)
    && (forall i ::
      0 <= i < |events| && events[i].Fill? ==> events[i].fetchedAt <= events[i].at <= events[i].fetchedAt + latency)
  }

  /** The two namespaces never collide, and within one the key determines the id. */
  lemma KeysNeverCollide(p: Query, a: string, q: Query, b: string)
    ensures CacheKey(p, a) == CacheKey(q, b) <==> p == q && a == b
  {
    assert CacheKey(StoreId, a)[0] == 's' && CacheKey(Metadata, b)[0] == 'm';
    assert CacheKey(StoreId, b)[0] == 's' && CacheKey(Metadata, a)[0] == 'm';
    assert CacheKey(StoreId, a)[9..] == a && CacheKey(StoreId, b)[9..] == b;
    assert CacheKey(Metadata, a)[9..] == a && CacheKey(Metadata, b)[9..] == b;
  }

  /** The fill that put an entry where it is. */
  ghost predicate FilledBy(world: World, ttl: real, events: seq<Event>, query: Query, id: string, entry: Entry,
                           k: nat) {
    && k < |events| && events[k].Fill? && events[k].query == query && events[k].id == id
    && world(events[k].fetchedAt, query, id) == Some(entry.value)
    && entry.expiry == events[k].at + ttl
  }

  /** Every cached entry of a run came from a fetch of the very key and query kind it is stored under. */
  lemma {:induction false} EntriesComeFromFetches(world: World, ttl: real, events: seq<Event>, query: Query, id: string)
    requires CacheKey(query, id) in Run(world, ttl, events)
    ensures exists k: nat :: FilledBy(world, ttl, events, query, id, Run(world, ttl, events)[CacheKey(query, id)], k)
  {
    var n := |events| - 1;
    var last, before := events[n], events[..n];
    var entry := Run(world, ttl, events)[CacheKey(query, id)];
    KeysNeverCollide(query, id, last.query, last.id);
    if last.Fill? && last.query == query && last.id == id && world(last.fetchedAt, query, id).Some? {
      assert FilledBy(world, ttl, events, query, id, entry, n);
    } else {
      EntriesComeFromFetches(world, ttl, before, query, id);
      var k: nat :| FilledBy(world, ttl, before, query, id, entry, k);
      assert FilledBy(world, ttl, events, query, id, entry, k);
    }
  }

  /** The inner store held this answer for this key and query kind at some instant less than `age` before `now`. */
  ghost predicate HeldWithin(world: World, query: Query, id: string, answer: Answer, now: real, age: real) {
    exists t: real :: t <= now && now - t < age && world(t, query, id) == Some(answer)
  }

  /** Whatever the inner store did meanwhile, a hit is at most a lifetime and a fetch old. */
  lemma HitsAreFresh(world: World, ttl: real, latency: real, events: seq<Event>, query: Query, id: string, now: real)
    requires Timely(events + [Lookup(query, id, now)], latency)
    requires Hit(Run(world, ttl, events), query, id, now).Some?
    ensures HeldWithin(world, query, id, Hit(Run(world, ttl, events), query, id, now).value, now, ttl + latency)
  {
    EntriesComeFromFetches(world, ttl, events, query, id);
    var entry := Run(world, ttl, events)[CacheKey(query, id)];
    var k: nat :| FilledBy(world, ttl, events, query, id, entry, k);
    var all := events + [Lookup(query, id, now)];
    assert all[k] == events[k] && all[|events|].at == now;
    var t := events[k].fetchedAt;
    assert t <= now && now - t < ttl + latency && world(t, query, id) == Some(entry.value);
  }

  /** What was just fetched is a hit until its lifetime is over, and a lookup does not shorten it. */
  lemma FilledIsHit(world: World, ttl: real, events: seq<Event>, query: Query, id: string, fetchedAt: real, at: real,
                    now: real)
    requires world(fetchedAt, query, id).Some?
    ensures var cache := Run(world, ttl, events + [Fill(query, id, fetchedAt, at)]);
      Hit(cache, query, id, now) == if now < at + ttl then world(fetchedAt, query, id) else None
  {
    RunSnoc(world, ttl, events, Fill(query, id, fetchedAt, at));
  }

  /** A hit stays the same hit through lookups, and through whatever happens to other keys. */
  lemma HitStays(world: World, ttl: real, events: seq<Event>, e: Event, query: Query, id: string, now: real)
    requires e.at <= now && (e.Fill? ==> e.query != query || e.id != id)
    ensures Hit(Run(world, ttl, events + [e]), query, id, now) == Hit(Run(world, ttl, events), query, id, now)
  {
    RunSnoc(world, ttl, events, e);
    KeysNeverCollide(query, id, e.query, e.id);
  }

  lemma RunSnoc(world: World, ttl: real, events: seq<Event>, e: Event)
    ensures Run(world, ttl, events + [e]) == Step(world, ttl, Run(world, ttl, events), e)
  {
    assert (events + [e])[..|events|] == events;
  }

  class CachedMetadataStore {
    const inner: World
    const ttl: real
    var cache: Cache

    constructor (inner: World, ttl: real)
      ensures this.inner == inner && this.ttl == ttl && Follows([])
    {
      this.inner, this.ttl := inner, ttl;
      cache := map[];
    }

    ghost predicate Follows(history: seq<Event>)
      reads this
    {
      cache == Run(inner, ttl, history)
    }

    method GetCached(query: Query, id: string, now: real, ghost history: seq<Event>) returns (found: Option<Answer>)
      requires Follows(history)
      modifies this
      ensures found == Hit(old(cache), query, id, now)
      ensures Follows(history + [Lookup(query, id, now)])
    {
      RunSnoc(inner, ttl, history, Lookup(query, id, now));
      var key := CacheKey(query, id);
      if key in cache {
        if now < cache[key].expiry {
          return Some(cache[key].value);
        }
        cache := cache - {key};
      } else {
        assert cache - {key} == cache;
      }
      found := None;
    }

    method SetCached(query: Query, id: string, value: Answer, fetchedAt: real, now: real, ghost history: seq<Event>)
      requires Follows(history) && inner(fetchedAt, query, id) == Some(value)
      modifies this
      ensures Follows(history + [Fill(query, id, fetchedAt, now)])
    {
      RunSnoc(inner, ttl, history, Fill(query, id, fetchedAt, now));
      cache := cache[CacheKey(query, id) := Entry(value, now + ttl)];
    }

    /** Other requests sharing the cache while this one awaits its fetch. */
    method Interleave(events: seq<Event>, ghost history: seq<Event>)
      requires Follows(history)
      modifies this
      ensures Follows(history + events)
    {
      assert history + events[..0] == history;
      for i := 0 to |events|
        invariant Follows(history + events[..i])
      {
        ghost var sofar := history + events[..i];
        assert sofar + [events[i]] == history + events[..i + 1];
        match events[i]
        case Lookup(query, id, now) => var _ := GetCached(query, id, now, sofar);
        case Fill(query, id, fetchedAt, now) =>
          RunSnoc(inner, ttl, sofar, events[i]);
          var fetched := inner(fetchedAt, query, id);
          if fetched.Some? {
            SetCached(query, id, fetched.value, fetchedAt, now, sofar);
          }
      }
      assert events[..|events|] == events;
    }

    /**
      get_store_id and get_metadata: an answer is one the inner store held for this key recently; None
      is returned only when the inner store, asked during this very call, had nothing.
     */
    method Get(query: Query, id: string, started: real, fetchedAt: real, finished: real, meanwhile: seq<Event>,
               latency: real, ghost history: seq<Event>) returns (answer: Option<Answer>)
      requires Follows(history) && fetchedAt <= finished <= fetchedAt + latency
      requires Timely(history + [Lookup(query, id, started)], latency)
      modifies this
      ensures answer.Some? ==>
        || HeldWithin(inner, query, id, answer.value, started, ttl + latency)
        || (inner(fetchedAt, query, id) == answer && finished - fetchedAt <= latency)
      ensures answer.None? ==> inner(fetchedAt, query, id).None?
      ensures Hit(old(cache), query, id, started).Some? ==>
        answer == Hit(old(cache), query, id, started) && Follows(history + [Lookup(query, id, started)])
      ensures Hit(old(cache), query, id, started).None? ==>
        answer == inner(fetchedAt, query, id)
        && Follows(history + [Lookup(query, id, started)] + meanwhile
          + if answer.Some? then [Fill(query, id, fetchedAt, finished)] else [])
    {
      var found := GetCached(query, id, started, history);
      if found.Some? {
        HitsAreFresh(inner, ttl, latency, history, query, id, started);
        return found;
      }
      ghost var looked := history + [Lookup(query, id, started)];
      Interleave(meanwhile, looked);
      answer := inner(fetchedAt, query, id);
      if answer.Some? {
        SetCached(query, id, answer.value, fetchedAt, finished, looked + meanwhile);
      }
      assert looked + meanwhile + [] == looked + meanwhile;
    }
  }
}
