/**
 The route cache: a lookup answers with what the provider gave for the same normalised route
 less than a quarter of an hour ago, or asks again; failures are never kept.
 */
module RouteCache {
  import opened Seqs

  // A pair of normalised locations.
  datatype Route = Route(origin: string, destination: string)

  datatype Estimate = Estimate(minutes: nat, hundredthsOfKm: nat, originIsPrecise: bool)

  // time.monotonic(), in seconds.
  type Clock = real

  const TTL: real := 900.0
  const LIMIT := 2048

  datatype Entry = Entry(expiresAt: Clock, estimate: Estimate)

  // What the provider has answered so far: a route, when the answer was stored, the answer.
  datatype Answer = Answer(route: Route, at: Clock, estimate: Estimate)

  /** A cached entry is a past answer for its route, and expires a TTL after it. */
  ghost predicate Backed(cache: map<Route, Entry>, log: seq<Answer>, route: Route) {
    route in cache ==> AnsweredIn(log, route, cache[route].expiresAt - TTL, cache[route].estimate)
  }

  ghost predicate AnsweredIn(log: seq<Answer>, route: Route, at: Clock, estimate: Estimate) {
    Answer(route, at, estimate) in log
  }

  ghost predicate AllBacked(cache: map<Route, Entry>, log: seq<Answer>) {
    forall route :: Backed(cache, log, route)
  }

  ghost predicate LogBy(log: seq<Answer>, clock: Clock) {
    forall answer | answer in log :: answer.at <= clock
  }

  /** No cached entry expires before this one. */
  ghost predicate NearestExpiry(cache: map<Route, Entry>, route: Route) {
    route in cache && forall other | other in cache :: cache[route].expiresAt <= cache[other].expiresAt
  }

  class GoogleRoutesPort {
    var cache: map<Route, Entry>

    // Every answer stored, and the latest clock reading.
    ghost var answers: seq<Answer>
    ghost var clock: Clock

    ghost predicate Valid()
      reads this
    {
      |cache| <= LIMIT && AllBacked(cache, answers) && LogBy(answers, clock)
    }

    constructor ()
      ensures Valid() && cache == map[] && answers == []
    {
      cache, answers, clock := map[], [], 0.0;
    }

    /** A hit is a provider's answer for this very route, stored less than a TTL before the reading. */
    method Cached(route: Route, now: Clock) returns (hit: Option<Estimate>)
      requires Valid() && clock <= now
      modifies `cache, `clock
      ensures Valid() && clock == now
      ensures hit.Some? ==> exists at: Clock :: now - TTL < at <= now && AnsweredIn(answers, route, at, hit.value)
      ensures hit.None? <==> (route in old(cache) ==> old(cache)[route].expiresAt <= now)
      ensures cache == if hit.None? then old(cache) - {route} else old(cache)
    {
      clock := now;
      if route !in cache {
        assert cache - {route} == cache;
        return None;
      }
      var item := cache[route];
      assert Backed(cache, answers, route);
      if item.expiresAt <= now {
        ghost var before := cache;
        cache := cache - {route};
        forall other ensures Backed(cache, answers, other) {
          assert Backed(before, answers, other);
        }
        return None;
      }
      assert AnsweredIn(answers, route, item.expiresAt - TTL, item.estimate);
      return Some(item.estimate);
    }

    /** The key with the least expiry. */
    method Oldest() returns (oldest: Route)
      requires cache != map[]
      ensures NearestExpiry(cache, oldest)
    {
      var keys := cache.Keys;
      assert exists k :: k in keys by {
        assert cache.Keys != {};
      }
      oldest :| oldest in keys;
      keys := keys - {oldest};
      while keys != {}
        invariant keys <= cache.Keys && oldest in cache
        invariant forall k | k in cache && k !in keys :: cache[oldest].expiresAt <= cache[k].expiresAt
        decreases |keys|
      {
        var k :| k in keys;
        if cache[k].expiresAt < cache[oldest].expiresAt {
          oldest := k;
        }
        keys := keys - {k};
      }
    }

    /** Storing evicts at most one entry, one nearest to its expiry, and only when the cache is full. */
    method Store(route: Route, estimate: Estimate, now: Clock) returns (ghost evicted: Option<Route>)
      requires Valid() && clock <= now
      modifies this
      ensures Valid() && clock == now
      ensures answers == old(answers) + [Answer(route, now, estimate)]
      ensures evicted.Some? <==> |old(cache)| >= LIMIT
      ensures evicted.Some? ==> NearestExpiry(old(cache), evicted.value)
      ensures evicted.Some? && now < old(cache)[evicted.value].expiresAt ==>
                forall other | other in old(cache) :: now < old(cache)[other].expiresAt
      ensures cache == (if evicted.Some? then old(cache) - {evicted.value} else old(cache))[route :=
          Entry(now + TTL, estimate)]
    {
      evicted := None;
      ghost var before := cache;
      if |cache| >= LIMIT {
        var oldest := Oldest();
        evicted := Some(oldest);
        EvictOne(cache, oldest);
        cache := cache - {oldest};
      }
      ghost var kept := cache;
      AddOne(cache, route, Entry(now + TTL, estimate));
      cache := cache[route := Entry(now + TTL, estimate)];
      answers := answers + [Answer(route, now, estimate)];
      clock := now;
      forall other ensures Backed(cache, answers, other) {
        assert Backed(before, old(answers), other);
      }
    }

    /**
     One estimate: the address itself, a fresh hit, or the provider, whose failures are answered
     as unavailable and not stored.  Other lookups may run between the miss and the store.
     */
    method Lookup(route: Route, sameAddress: bool, now: Clock) returns (hit: Option<Estimate>, ask: bool)
      requires Valid() && clock <= now
      modifies `cache, `clock
      ensures Valid() && (sameAddress ==> cache == old(cache) && hit.None? && !ask)
      ensures !sameAddress ==> (ask <==> hit.None?)
      ensures hit.Some? ==> exists at: Clock :: now - TTL < at <= now && AnsweredIn(answers, route, at, hit.value)
    {
      if sameAddress {
        return None, false;
      }
      hit := Cached(route, now);
      ask := hit.None?;
    }

    method Answered(route: Route, answer: Option<Estimate>, now: Clock) returns (result: Option<Estimate>)
      requires Valid() && clock <= now
      modifies this
      ensures Valid() && result == answer
      ensures answer.None? ==> cache == old(cache) && answers == old(answers)
      ensures answer.Some? ==> answers == old(answers) + [Answer(route, now, answer.value)] && route in cache
    {
      if answer.Some? {
        ghost var _ := Store(route, answer.value, now);
      }
      return answer;
    }
  }

  lemma EvictOne(cache: map<Route, Entry>, route: Route)
    requires route in cache
    ensures |cache - {route}| == |cache| - 1
  {
    assert (cache - {route}).Keys == cache.Keys - {route};
    assert |cache.Keys - {route}| == |cache.Keys| - 1;
  }

  lemma AddOne(cache: map<Route, Entry>, route: Route, entry: Entry)
    ensures |cache[route := entry]| <= |cache| + 1
  {
    assert cache[route := entry].Keys == cache.Keys + {route};
  }
}
