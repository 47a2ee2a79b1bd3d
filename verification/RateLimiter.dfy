/**
 The sliding-window login limiter.  Ghost histories record every accepted call; the deques
 are shown to be their unexpired tails, and the histories to respect the limits in every
 window of every run whose clock does not go back.
 */
module RateLimiter {
  // token_hash(email): one key per address.
  datatype Key = TokenHash(digest: nat)

  datatype Admission = Admitted | Limited(retryAfter: int)

  /** The Retry-After header: whole seconds, rounded up, at least one. */
  function RetryAfterHeader(retryAfter: real): (seconds: int)
    ensures seconds >= 1 && seconds as real >= retryAfter
    ensures seconds > 1 ==> (seconds - 1) as real < retryAfter
  {
    var ceil := -((-retryAfter).Floor);
    if ceil < 1 then 1 else ceil
  }

  ghost predicate Sorted(h: seq<real>) {
    forall i, j | 0 <= i <= j < |h| :: NoLater(h, i, j)
  }

  ghost predicate NoLater(h: seq<real>, i: nat, j: nat)
    requires i <= j < |h|
  {
    h[i] <= h[j]
  }

  /** What is left of a deque once its expired head is popped. */
  function Pruned(bucket: seq<real>, cutoff: real): seq<real> {
    if bucket != [] && bucket[0] <= cutoff then Pruned(bucket[1..], cutoff) else bucket
  }

  /** `tail` is the part of a history that has not expired at the cutoff, perhaps with older entries. */
  ghost predicate IsTail(tail: seq<real>, h: seq<real>, cutoff: real) {
    |tail| <= |h| && forall i | 0 <= i < |h| :: TailAt(tail, h, cutoff, i)
  }

  ghost predicate TailAt(tail: seq<real>, h: seq<real>, cutoff: real, i: nat)
    requires i < |h| && |tail| <= |h|
  {
    var n := |h| - |tail|;
    if i < n then h[i] <= cutoff else h[i] == tail[i - n]
  }

  lemma TailIsSuffix(tail: seq<real>, h: seq<real>, cutoff: real)
    requires IsTail(tail, h, cutoff)
    ensures tail == h[|h| - |tail|..]
    ensures forall i | 0 <= i < |h| - |tail| :: h[i] <= cutoff
  {
    forall i | 0 <= i < |h| - |tail| ensures h[i] <= cutoff {
      assert TailAt(tail, h, cutoff, i);
    }
    forall i | 0 <= i < |tail| ensures tail[i] == h[|h| - |tail| + i] {
      assert TailAt(tail, h, cutoff, |h| - |tail| + i);
    }
  }

  /** Pruning a tail forgets nothing: it is pruning the whole history. */
  lemma {:induction false} PruningATail(tail: seq<real>, h: seq<real>, older: real, cutoff: real)
    requires IsTail(tail, h, older) && older <= cutoff
    ensures Pruned(tail, cutoff) == Pruned(h, cutoff)
  {
    if |tail| < |h| {
      assert TailAt(tail, h, older, 0);
      forall i | 0 <= i < |h| - 1 ensures TailAt(tail, h[1..], older, i) {
        assert TailAt(tail, h, older, i + 1);
      }
      PruningATail(tail, h[1..], older, cutoff);
    } else {
      TailIsSuffix(tail, h, older);
    }
  }

  lemma TailExtends(expired: real, h: seq<real>, tail: seq<real>, cutoff: real)
    requires IsTail(tail, h, cutoff) && expired <= cutoff
    ensures IsTail(tail, [expired] + h, cutoff)
  {
    forall i | 0 <= i < |h| + 1 ensures TailAt(tail, [expired] + h, cutoff, i) {
      if i > 0 {
        assert TailAt(tail, h, cutoff, i - 1);
      }
    }
  }

  /** Pruning drops expired calls and nothing else, and stops only at an unexpired one. */
  lemma {:induction false} PrunedIsTail(h: seq<real>, cutoff: real)
    ensures var r := Pruned(h, cutoff); IsTail(r, h, cutoff) && (r == [] || cutoff < r[0])
  {
    if h != [] && h[0] <= cutoff {
      PrunedIsTail(h[1..], cutoff);
      TailExtends(h[0], h[1..], Pruned(h[1..], cutoff), cutoff);
      assert h == [h[0]] + h[1..];
    } else {
      forall i | 0 <= i < |h| ensures TailAt(h, h, cutoff, i) {
      }
    }
  }

  // ---- The sliding window ----

  /** Every accepted call is at least a window after the one `limit` places before it. */
  ghost predicate Spaced(h: seq<real>, window: nat, limit: nat) {
    forall j | limit <= j < |h| :: SpacedAt(h, window, limit, j)
  }

  ghost predicate SpacedAt(h: seq<real>, window: nat, limit: nat, j: nat)
    requires limit <= j < |h|
  {
    h[j - limit] <= h[j] - window as real
  }

  lemma SpacedPrefix(h: seq<real>, window: nat, limit: nat)
    requires Sorted(h) && Spaced(h, window, limit) && h != []
    ensures Sorted(h[..|h| - 1]) && Spaced(h[..|h| - 1], window, limit)
  {
    var front := h[..|h| - 1];
    forall i, j | 0 <= i <= j < |front| ensures NoLater(front, i, j) {
      assert NoLater(h, i, j);
    }
    forall j | limit <= j < |front| ensures SpacedAt(front, window, limit, j) {
      assert SpacedAt(h, window, limit, j);
    }
  }

  function CountIn(h: seq<real>, after: real, upTo: real): nat {
    if h == [] then 0
    else CountIn(h[..|h| - 1], after, upTo) + if after < h[|h| - 1] <= upTo then 1 else 0
  }

  lemma {:induction false} CountSkips(h: seq<real>, after: real, upTo: real, m: nat)
    requires m <= |h| && forall i | 0 <= i < m :: h[i] <= after
    ensures CountIn(h, after, upTo) <= |h| - m
  {
    if m < |h| {
      CountSkips(h[..|h| - 1], after, upTo, m);
    } else if h != [] {
      CountSkips(h[..|h| - 1], after, upTo, m - 1);
    }
  }

  /** In every window (t - W, t], at any instant t, a spaced history has at most `limit` calls. */
  lemma {:induction false} SlidingWindowBound(h: seq<real>, window: nat, limit: nat, t: real)
    requires Sorted(h) && Spaced(h, window, limit)
    ensures CountIn(h, t - window as real, t) <= limit
  {
    if h != [] {
      var last := h[|h| - 1];
      if t < last {
        SpacedPrefix(h, window, limit);
        SlidingWindowBound(h[..|h| - 1], window, limit, t);
      } else if limit < |h| {
        assert SpacedAt(h, window, limit, |h| - 1);
        forall i | 0 <= i < |h| - limit ensures h[i] <= t - window as real {
          assert NoLater(h, i, |h| - 1 - limit);
        }
        CountSkips(h, t - window as real, t, |h| - limit);
      } else {
        CountSkips(h, t - window as real, t, 0);
      }
    }
  }

  lemma AcceptKeepsSpaced(h: seq<real>, window: nat, limit: nat, now: real)
    requires Spaced(h, window, limit) && |Pruned(h, now - window as real)| < limit
    ensures Spaced(h + [now], window, limit)
  {
    PrunedIsTail(h, now - window as real);
    TailIsSuffix(Pruned(h, now - window as real), h, now - window as real);
    forall j | limit <= j < |h + [now]| ensures SpacedAt(h + [now], window, limit, j) {
      if j < |h| {
        assert SpacedAt(h, window, limit, j);
      }
    }
  }

  /** The delay a full bucket reports: until its head expires. */
  function RetryAfter(bucket: seq<real>, now: real, window: nat): real {
    if bucket == [] then 1.0 else bucket[0] + window as real - now
  }

  /**
   A rejection on a bucket that holds exactly the limit lifts at now plus the reported delay
   and not before: until then the bucket stays full, from then on it has room.
   */
  lemma RetryDelayIsExact(h: seq<real>, now: real, window: nat, limit: nat, later: real)
    requires limit > 0 && now <= later
    requires |Pruned(h, now - window as real)| == limit
    ensures var delay := RetryAfter(Pruned(h, now - window as real), now, window);
            && delay > 0.0
            && (|Pruned(h, later - window as real)| >= limit <==> later < now + delay)
  {
    var bucket := Pruned(h, now - window as real);
    var later' := later - window as real;
    PrunedIsTail(h, now - window as real);
    PruningATail(bucket, h, now - window as real, later');
    FullUntilHeadExpires(bucket, later');
  }

  lemma FullUntilHeadExpires(bucket: seq<real>, cutoff: real)
    requires bucket != []
    ensures |Pruned(bucket, cutoff)| >= |bucket| <==> cutoff < bucket[0]
  {
  }

  // ---- The dictionary of buckets ----

  // A Python dictionary of deques: its entries and the order in which they were inserted.
  datatype Buckets = Buckets(order: seq<Key>, at: map<Key, seq<real>>) {
    ghost predicate Valid() {
      (forall key :: Listed(key)) && NoDuplicates(order)
    }

    ghost predicate Listed(key: Key) {
      key in order <==> key in at
    }

    function Bucket(key: Key): seq<real> {
      if key in at then at[key] else []
    }

    /** Assigning to a key appends a new entry or keeps the place of the old one. */
    function Put(key: Key, bucket: seq<real>): Buckets {
      Buckets(if key in at then order else order + [key], at[key := bucket])
    }

    function Delete(key: Key): Buckets {
      Buckets(Without(order, key), at - {key})
    }
  }

  ghost predicate NoDuplicates(s: seq<Key>) {
    forall i, j | 0 <= i < j < |s| :: Differ(s, i, j)
  }

  ghost predicate Differ(s: seq<Key>, i: nat, j: nat)
    requires i < j < |s|
  {
    s[i] != s[j]
  }

  function Without(s: seq<Key>, key: Key): (r: seq<Key>) {
    if s == [] then [] else if s[0] == key then s[1..] else [s[0]] + Without(s[1..], key)
  }

  lemma NoDuplicatesTail(s: seq<Key>)
    requires NoDuplicates(s) && s != []
    ensures NoDuplicates(s[1..]) && s[0] !in s[1..]
  {
    forall i, j | 0 <= i < j < |s[1..]| ensures Differ(s[1..], i, j) {
      assert Differ(s, i + 1, j + 1);
    }
    forall j | 0 <= j < |s[1..]| ensures s[1..][j] != s[0] {
      assert Differ(s, 0, j + 1);
    }
  }

  lemma {:induction false} WithoutIsDistinct(s: seq<Key>, key: Key, k: Key)
    requires NoDuplicates(s)
    ensures NoDuplicates(Without(s, key))
    ensures k in Without(s, key) <==> k in s && k != key
  {
    if s != [] {
      NoDuplicatesTail(s);
      if s[0] != key {
        WithoutIsDistinct(s[1..], key, k);
        WithoutIsDistinct(s[1..], key, s[0]);
        DistinctCons(s[0], Without(s[1..], key));
      }
    }
  }

  lemma DistinctCons(key: Key, s: seq<Key>)
    requires NoDuplicates(s) && key !in s
    ensures NoDuplicates([key] + s)
  {
    forall i, j | 0 <= i < j < |s| + 1 ensures Differ([key] + s, i, j) {
      if i > 0 {
        assert Differ(s, i - 1, j - 1);
      }
    }
  }

  lemma {:induction false} WithoutIsNoLonger(s: seq<Key>, key: Key)
    ensures |Without(s, key)| <= |s|
  {
    if s != [] && s[0] != key {
      WithoutIsNoLonger(s[1..], key);
    }
  }

  lemma PutKeepsValid(d: Buckets, key: Key, bucket: seq<real>)
    requires d.Valid()
    ensures d.Put(key, bucket).Valid()
  {
    var r := d.Put(key, bucket);
    assert d.Listed(key);
    forall k ensures r.Listed(k) {
      assert d.Listed(k);
    }
    forall i, j | 0 <= i < j < |r.order| ensures Differ(r.order, i, j) {
      assert j < |d.order| ==> Differ(d.order, i, j);
    }
  }

  lemma DeleteKeepsValid(d: Buckets, key: Key)
    requires d.Valid()
    ensures d.Delete(key).Valid()
  {
    forall k ensures d.Delete(key).Listed(k) {
      assert d.Listed(k);
      WithoutIsDistinct(d.order, key, k);
    }
    WithoutIsDistinct(d.order, key, key);
  }

  // ---- The cleanup ----

  /** One step of the sweep: the bucket pruned, or its entry deleted when nothing is left. */
  function SweptOne(d: Buckets, key: Key, cutoff: real): Buckets {
    if key !in d.at then d
    else if Pruned(d.at[key], cutoff) == [] then d.Delete(key)
    else d.Put(key, Pruned(d.at[key], cutoff))
  }

  function SweptAll(d: Buckets, keys: seq<Key>, cutoff: real): Buckets
    decreases |keys|
  {
    if keys == [] then d else SweptAll(SweptOne(d, keys[0], cutoff), keys[1..], cutoff)
  }

  /** The pops: the n oldest entries gone. */
  function WithoutOldest(d: Buckets, n: nat): Buckets
    decreases n
  {
    if n == 0 || d.order == [] then d else WithoutOldest(d.Delete(d.order[0]), n - 1)
  }

  function Excess(d: Buckets, max: nat): nat {
    if |d.order| <= max then 0 else |d.order| - max
  }

  function Swept(d: Buckets, cutoff: real): Buckets {
    SweptAll(d, d.order, cutoff)
  }

  function Cleaned(d: Buckets, cutoff: real, max: nat): Buckets {
    if |d.order| <= max then d
    else
      var live := Swept(d, cutoff);
      WithoutOldest(live, Excess(live, max))
  }

  lemma {:induction false} PruningTwice(bucket: seq<real>, cutoff: real)
    ensures Pruned(Pruned(bucket, cutoff), cutoff) == Pruned(bucket, cutoff)
  {
    PrunedIsTail(bucket, cutoff);
  }

  lemma SweptOneKeepsValid(d: Buckets, key: Key, cutoff: real)
    requires d.Valid()
    ensures SweptOne(d, key, cutoff).Valid()
  {
    DeleteKeepsValid(d, key);
    if key in d.at {
      PutKeepsValid(d, key, Pruned(d.at[key], cutoff));
    }
  }

  lemma {:induction false} SweptAllKeepsValid(d: Buckets, keys: seq<Key>, cutoff: real)
    requires d.Valid()
    ensures SweptAll(d, keys, cutoff).Valid()
    decreases |keys|
  {
    if keys != [] {
      SweptOneKeepsValid(d, keys[0], cutoff);
      SweptAllKeepsValid(SweptOne(d, keys[0], cutoff), keys[1..], cutoff);
    }
  }

  lemma SweptOneBucket(d: Buckets, k: Key, cutoff: real, key: Key)
    ensures var r := SweptOne(d, k, cutoff);
            && r.Bucket(key) == (if k == key then Pruned(d.Bucket(key), cutoff) else d.Bucket(key))
            && (key in r.at <==> key in d.at && (k == key ==> Pruned(d.Bucket(key), cutoff) != []))
  {
  }

  /** What the sweep does to one bucket: pruned if visited, gone exactly when visited and fully expired. */
  lemma {:induction false} SweptBucket(d: Buckets, keys: seq<Key>, cutoff: real, key: Key)
    ensures var r := SweptAll(d, keys, cutoff);
            && r.Bucket(key) == (if key in keys then Pruned(d.Bucket(key), cutoff) else d.Bucket(key))
            && (key in r.at <==> key in d.at && (key in keys ==> Pruned(d.Bucket(key), cutoff) != []))
    decreases |keys|
  {
    if keys != [] {
      assert key in keys <==> key == keys[0] || key in keys[1..];
      SweptBucket(SweptOne(d, keys[0], cutoff), keys[1..], cutoff, key);
      SweptOneBucket(d, keys[0], cutoff, key);
      PruningTwice(d.Bucket(key), cutoff);
    }
  }

  lemma {:induction false} WithoutOldestPops(d: Buckets, n: nat)
    requires d.Valid() && n <= |d.order|
    ensures WithoutOldest(d, n).Valid() && WithoutOldest(d, n).order == d.order[n..]
    decreases n
  {
    if n > 0 {
      var rest := d.Delete(d.order[0]);
      DeleteKeepsValid(d, d.order[0]);
      assert rest.order == d.order[1..];
      WithoutOldestPops(rest, n - 1);
      assert d.order[1..][n - 1..] == d.order[n..];
    }
  }

  lemma {:induction false} WithoutOldestBucket(d: Buckets, n: nat, key: Key)
    ensures var r := WithoutOldest(d, n); key in r.at ==> key in d.at && r.at[key] == d.at[key]
    decreases n
  {
    if n > 0 && d.order != [] {
      WithoutOldestBucket(d.Delete(d.order[0]), n - 1, key);
    }
  }

  lemma SweptBuckets(d: Buckets, cutoff: real, key: Key)
    requires d.Valid()
    ensures Swept(d, cutoff).Valid()
    ensures Swept(d, cutoff).Bucket(key) == Pruned(d.Bucket(key), cutoff)
    ensures key in Swept(d, cutoff).at <==> Pruned(d.Bucket(key), cutoff) != []
  {
    SweptAllKeepsValid(d, d.order, cutoff);
    SweptBucket(d, d.order, cutoff, key);
    assert d.Listed(key);
  }

  /** A cleanup leaves at most the maximum. */
  lemma CleanedIsBounded(d: Buckets, cutoff: real, max: nat)
    requires d.Valid()
    ensures Cleaned(d, cutoff, max).Valid() && |Cleaned(d, cutoff, max).order| <= max
  {
    SweptAllKeepsValid(d, d.order, cutoff);
    WithoutOldestPops(Swept(d, cutoff), Excess(Swept(d, cutoff), max));
  }

  /**
   What a cleanup does to one bucket: it keeps its unexpired calls, or it is expired, or it was
   popped, which happens only when the maximum is still reached afterwards.
   */
  lemma CleanedBucket(d: Buckets, cutoff: real, max: nat, key: Key)
    requires d.Valid()
    ensures var r := Cleaned(d, cutoff, max);
            if key in r.at then
              key in d.at && (r.at[key] == d.at[key] || r.at[key] == Pruned(d.at[key], cutoff))
            else
              Pruned(d.Bucket(key), cutoff) == [] || |r.order| == max
  {
    SweptBuckets(d, cutoff, key);
    WithoutOldestPops(Swept(d, cutoff), Excess(Swept(d, cutoff), max));
    WithoutOldestBucket(Swept(d, cutoff), Excess(Swept(d, cutoff), max), key);
  }

  ghost predicate Newest(d: Buckets, key: Key) {
    d.order != [] && d.order[|d.order| - 1] == key
  }

  lemma {:induction false} WithoutKeepsLast(s: seq<Key>, key: Key)
    requires s != [] && s[|s| - 1] != key
    ensures Without(s, key) != [] && Without(s, key)[|Without(s, key)| - 1] == s[|s| - 1]
  {
    if s[0] != key && |s| > 1 {
      WithoutKeepsLast(s[1..], key);
    }
  }

  lemma {:induction false} SweepKeepsNewest(d: Buckets, keys: seq<Key>, cutoff: real, newest: Key)
    requires Newest(d, newest) && newest in d.at && Pruned(d.at[newest], cutoff) != []
    ensures Newest(SweptAll(d, keys, cutoff), newest)
    decreases |keys|
  {
    if keys != [] {
      if keys[0] != newest {
        WithoutKeepsLast(d.order, keys[0]);
      } else {
        PruningTwice(d.at[newest], cutoff);
      }
      SweepKeepsNewest(SweptOne(d, keys[0], cutoff), keys[1..], cutoff, newest);
    }
  }

  /** The newest entry survives every cleanup, as long as it is unexpired and one entry may stay. */
  lemma CleanedKeepsTheNewest(d: Buckets, cutoff: real, max: nat, newest: Key)
    requires d.Valid() && max > 0
    requires Newest(d, newest) && Pruned(d.Bucket(newest), cutoff) != []
    ensures newest in Cleaned(d, cutoff, max).at
  {
    assert d.Listed(newest);
    SweepKeepsNewest(d, d.order, cutoff, newest);
    var live := Swept(d, cutoff);
    SweptAllKeepsValid(d, d.order, cutoff);
    WithoutOldestPops(live, Excess(live, max));
    NewestInTail(live.order, Excess(live, max), newest);
    assert Cleaned(d, cutoff, max).Valid() && d.Listed(newest) && Cleaned(d, cutoff, max).Listed(newest);
  }

  lemma NewestInTail(s: seq<Key>, n: nat, newest: Key)
    requires n < |s| && s[|s| - 1] == newest
    ensures newest in s[n..]
  {
    assert s[n..][|s| - 1 - n] == newest;
  }

  // ---- A deque and the history behind it ----

  ghost predicate NotAfter(h: seq<real>, clock: real) {
    h == [] || h[|h| - 1] <= clock
  }

  ghost predicate Tracks(bucket: seq<real>, h: seq<real>, window: nat, limit: nat, clock: real) {
    && Sorted(h) && Spaced(h, window, limit)
    && NotAfter(h, clock)
    && IsTail(bucket, h, clock - window as real)
  }

  lemma TracksLater(bucket: seq<real>, h: seq<real>, window: nat, limit: nat, clock: real, now: real)
    requires Tracks(bucket, h, window, limit, clock) && clock <= now
    ensures Tracks(bucket, h, window, limit, now)
    ensures Pruned(bucket, now - window as real) == Pruned(h, now - window as real)
    ensures Tracks(Pruned(bucket, now - window as real), h, window, limit, now)
  {
    var older, cutoff := clock - window as real, now - window as real;
    forall i | 0 <= i < |h| ensures TailAt(bucket, h, cutoff, i) {
      assert TailAt(bucket, h, older, i);
    }
    PruningATail(bucket, h, older, cutoff);
    PrunedIsTail(h, cutoff);
  }

  lemma AcceptTracks(h: seq<real>, window: nat, limit: nat, now: real)
    requires Sorted(h) && Spaced(h, window, limit) && NotAfter(h, now)
    requires |Pruned(h, now - window as real)| < limit
    ensures Tracks(Pruned(h, now - window as real) + [now], h + [now], window, limit, now)
  {
    AcceptKeepsSpaced(h, window, limit, now);
    SortedPush(h, now);
    PrunedIsTail(h, now - window as real);
    PushIsTail(Pruned(h, now - window as real), h, now - window as real, now);
  }

  lemma PushIsTail(tail: seq<real>, h: seq<real>, cutoff: real, now: real)
    requires IsTail(tail, h, cutoff)
    ensures IsTail(tail + [now], h + [now], cutoff)
  {
    forall i | 0 <= i < |h| + 1 ensures TailAt(tail + [now], h + [now], cutoff, i) {
      if i < |h| {
        assert TailAt(tail, h, cutoff, i);
      }
    }
  }

  /** A bucket never holds more than its limit, so a rejection comes with a bucket holding exactly it. */
  lemma LiveCallsWithinLimit(h: seq<real>, window: nat, limit: nat, now: real)
    requires Sorted(h) && Spaced(h, window, limit) && NotAfter(h, now)
    ensures |Pruned(h, now - window as real)| <= limit
  {
    PrunedIsTail(h, now - window as real);
    if limit < |h| {
      assert SpacedAt(h, window, limit, |h| - 1);
      PrunedReaches(h, now - window as real, |h| - 1 - limit);
    }
  }

  lemma SortedSuffix(h: seq<real>)
    requires Sorted(h) && h != []
    ensures Sorted(h[1..])
  {
    var rest := h[1..];
    forall i, j | 0 <= i <= j < |rest| ensures NoLater(rest, i, j) {
      assert NoLater(h, i + 1, j + 1);
    }
  }

  lemma SortedPush(h: seq<real>, now: real)
    requires Sorted(h) && NotAfter(h, now)
    ensures Sorted(h + [now])
  {
    forall i, j | 0 <= i <= j < |h + [now]| ensures NoLater(h + [now], i, j) {
      if j < |h| {
        assert NoLater(h, i, j);
      } else if i < |h| {
        assert NoLater(h, i, |h| - 1);
      }
    }
  }

  /** On a sorted history everything up to an expired call is pruned. */
  lemma {:induction false} PrunedReaches(h: seq<real>, cutoff: real, i: nat)
    requires Sorted(h) && i < |h| && h[i] <= cutoff
    ensures |Pruned(h, cutoff)| < |h| - i
  {
    assert NoLater(h, 0, i);
    PrunedIsTail(h[1..], cutoff);
    if i > 0 {
      SortedSuffix(h);
      PrunedReaches(h[1..], cutoff, i - 1);
    }
  }

  /** A cleanup after which a bucket is gone for want of room, and its history with it. */
  ghost predicate Popped(d: Buckets, r: Buckets, cutoff: real, key: Key) {
    key !in r.at && Pruned(d.Bucket(key), cutoff) != []
  }

  /** After a cleanup each bucket still tracks its history, unless its entry was popped. */
  lemma CleanedTracks(d: Buckets, h: seq<real>, window: nat, limit: nat, now: real, max: nat, key: Key)
    requires d.Valid() && Tracks(d.Bucket(key), h, window, limit, now)
    ensures var r := Cleaned(d, now - window as real, max);
            !Popped(d, r, now - window as real, key) ==> Tracks(r.Bucket(key), h, window, limit, now)
  {
    CleanedBucket(d, now - window as real, max, key);
    TracksLater(d.Bucket(key), h, window, limit, now, now);
  }

  lemma {:induction false} LastCallIsLive(bucket: seq<real>, now: real, window: nat)
    requires window > 0
    ensures Pruned(bucket + [now], now - window as real) != []
  {
    if bucket != [] {
      assert (bucket + [now])[1..] == bucket[1..] + [now];
      LastCallIsLive(bucket[1..], now, window);
    }
  }

  // ---- All the deques and their histories ----

  function Recorded(history: map<Key, seq<real>>, key: Key): seq<real> {
    if key in history then history[key] else []
  }

  ghost predicate KeyTracks(emails: Buckets, history: map<Key, seq<real>>, window: nat, limit: nat, clock: real,
      key: Key) {
    Tracks(emails.Bucket(key), Recorded(history, key), window, limit, clock)
  }

  ghost predicate EmailsTrack(emails: Buckets, history: map<Key, seq<real>>, window: nat, limit: nat, clock: real) {
    emails.Valid() && forall key :: KeyTracks(emails, history, window, limit, clock, key)
  }

  lemma EmailsTrackLater(emails: Buckets, history: map<Key, seq<real>>, window: nat, limit: nat, clock: real, now: real)
    requires EmailsTrack(emails, history, window, limit, clock) && clock <= now
    ensures EmailsTrack(emails, history, window, limit, now)
  {
    forall key ensures KeyTracks(emails, history, window, limit, now, key) {
      assert KeyTracks(emails, history, window, limit, clock, key);
      TracksLater(emails.Bucket(key), Recorded(history, key), window, limit, clock, now);
    }
  }

  lemma EmailsTrackPut(emails: Buckets, history: map<Key, seq<real>>, window: nat, limit: nat, now: real,
                       key: Key, bucket: seq<real>, h: seq<real>)
    requires EmailsTrack(emails, history, window, limit, now) && Tracks(bucket, h, window, limit, now)
    ensures EmailsTrack(emails.Put(key, bucket), history[key := h], window, limit, now)
    ensures h == Recorded(history, key) ==> EmailsTrack(emails.Put(key, bucket), history, window, limit, now)
  {
    PutKeepsValid(emails, key, bucket);
    var r, recorded := emails.Put(key, bucket), history[key := h];
    forall k
      ensures KeyTracks(r, recorded, window, limit, now, k)
      ensures h == Recorded(history, key) ==> KeyTracks(r, history, window, limit, now, k)
    {
      assert KeyTracks(emails, history, window, limit, now, k);
    }
  }

  lemma EmailsTrackDelete(emails: Buckets, history: map<Key, seq<real>>, window: nat, limit: nat, now: real, key: Key)
    requires EmailsTrack(emails, history, window, limit, now)
    ensures EmailsTrack(emails.Delete(key), history - {key}, window, limit, now)
  {
    DeleteKeepsValid(emails, key);
    forall k ensures KeyTracks(emails.Delete(key), history - {key}, window, limit, now, k) {
      assert KeyTracks(emails, history, window, limit, now, k);
    }
  }

  /** Whoever is popped while unexpired starts afresh. */
  ghost function Remaining(history: map<Key, seq<real>>, d: Buckets, r: Buckets, cutoff: real): map<Key, seq<real>> {
    map key | key in history && !Popped(d, r, cutoff, key) :: history[key]
  }

  lemma EmailsTrackCleaned(d: Buckets, history: map<Key, seq<real>>, window: nat, limit: nat, now: real, max: nat)
    requires EmailsTrack(d, history, window, limit, now)
    ensures var r := Cleaned(d, now - window as real, max);
            EmailsTrack(r, Remaining(history, d, r, now - window as real), window, limit, now)
  {
    var r := Cleaned(d, now - window as real, max);
    CleanedIsBounded(d, now - window as real, max);
    var left := Remaining(history, d, r, now - window as real);
    forall k ensures KeyTracks(r, left, window, limit, now, k) {
      assert KeyTracks(d, history, window, limit, now, k);
      CleanedTracks(d, Recorded(history, k), window, limit, now, max, k);
      if Popped(d, r, now - window as real, k) {
        PoppedTracks(d, r, now, window, limit, k);
      }
    }
  }

  lemma PoppedTracks(d: Buckets, r: Buckets, now: real, window: nat, limit: nat, key: Key)
    requires Popped(d, r, now - window as real, key)
    ensures Tracks(r.Bucket(key), [], window, limit, now)
  {
  }

  /** A history is lost only by eviction from a map that is full afterwards. */
  lemma RemainingUnlessEvicted(d: Buckets, history: map<Key, seq<real>>, cutoff: real, max: nat, key: Key)
    requires d.Valid()
    ensures var r := Cleaned(d, cutoff, max); var left := Remaining(history, d, r, cutoff);
            Recorded(left, key) == Recorded(history, key)
              || (Recorded(left, key) == [] && key !in r.at && |r.order| == max)
  {
    CleanedBucket(d, cutoff, max, key);
  }

  // ---- The limiter ----

  class LoginRateLimiter {
    const globalLimit: nat
    const globalWindow: nat
    const emailLimit: nat
    const emailWindow: nat
    const maxEmailBuckets: nat

    var global: seq<real>
    var emails: Buckets

    // Accepted calls ever; per key, since its last success or eviction; the latest reading.
    ghost var accepted: seq<real>
    ghost var history: map<Key, seq<real>>
    ghost var clock: real

    /** The deques follow their histories. */
    ghost predicate Tracking()
      reads this
    {
      && Tracks(global, accepted, globalWindow, globalLimit, clock)
      && EmailsTrack(emails, history, emailWindow, emailLimit, clock)
    }

    /** What holds between any two calls: with a limit of at least one, the map is within its maximum too. */
    ghost predicate Valid()
      reads this
    {
      Tracking() && (emailLimit > 0 ==> |emails.order| <= maxEmailBuckets)
    }

    constructor (globalLimit: nat, globalWindow: nat, emailLimit: nat, emailWindow: nat, maxEmailBuckets: nat)
      ensures Valid()
      ensures this.globalLimit == globalLimit && this.globalWindow == globalWindow
      ensures this.emailLimit == emailLimit && this.emailWindow == emailWindow
      ensures this.maxEmailBuckets == maxEmailBuckets
      ensures accepted == [] && history == map[] && emails == Buckets([], map[])
    {
      this.globalLimit, this.globalWindow := globalLimit, globalWindow;
      this.emailLimit, this.emailWindow := emailLimit, emailWindow;
      this.maxEmailBuckets := maxEmailBuckets;
      global, emails := [], Buckets([], map[]);
      accepted, history, clock := [], map[], 0.0;
    }

    static method Prune(bucket: seq<real>, now: real, window: nat) returns (r: seq<real>)
      ensures r == Pruned(bucket, now - window as real)
    {
      r := bucket;
      while r != [] && r[0] <= now - window as real
        invariant Pruned(r, now - window as real) == Pruned(bucket, now - window as real)
        decreases |r|
      {
        r := r[1..];
      }
    }

    method SweepEmailBuckets(now: real)
      modifies `emails
      ensures emails == Swept(old(emails), now - emailWindow as real)
    {
      var items := emails.order;
      var cutoff := now - emailWindow as real;
      ghost var swept := Swept(emails, cutoff);
      for i := 0 to |items|
        invariant SweptAll(emails, items[i..], cutoff) == swept
      {
        var key := items[i];
        assert items[i..][1..] == items[i + 1..];
        if key in emails.at {
          var bucket := Prune(emails.at[key], now, emailWindow);
          if bucket == [] {
            emails := emails.Delete(key);
          } else {
            emails := emails.Put(key, bucket);
          }
        }
      }
    }

    /** Sweep only when over the maximum, then pop the oldest entries. */
    method CleanupEmailBuckets(now: real)
      modifies `emails
      ensures emails == Cleaned(old(emails), now - emailWindow as real, maxEmailBuckets)
    {
      if |emails.order| <= maxEmailBuckets {
        return;
      }
      SweepEmailBuckets(now);
      ghost var cleaned := Cleaned(old(emails), now - emailWindow as real, maxEmailBuckets);
      while |emails.order| > maxEmailBuckets
        invariant WithoutOldest(emails, Excess(emails, maxEmailBuckets)) == cleaned
        decreases |emails.order|
      {
        emails := emails.Delete(emails.order[0]);
      }
    }

    /** What acquire answers, in terms of the calls accepted within the two windows before it. */
    ghost function Decision(accepted: seq<real>, h: seq<real>, now: real): Admission {
      var all := Pruned(accepted, now - globalWindow as real);
      var own := Pruned(h, now - emailWindow as real);
      if |all| >= globalLimit then Limited(RetryAfterHeader(RetryAfter(all, now, globalWindow)))
      else if |own| >= emailLimit then Limited(RetryAfterHeader(RetryAfter(own, now, emailWindow)))
      else Admitted
    }

    /** Time passes: both deques still track their histories, and pruned they are what is left of them. */
    ghost method Advance(key: Key, now: real)
      requires Tracking() && clock <= now
      modifies `clock
      ensures Tracking() && clock == now
      ensures Pruned(global, now - globalWindow as real) == Pruned(accepted, now - globalWindow as real)
      ensures Tracks(Pruned(global, now - globalWindow as real), accepted, globalWindow, globalLimit, now)
      ensures Pruned(emails.Bucket(key), now - emailWindow as real)
          == Pruned(Recorded(history, key), now - emailWindow as real)
      ensures Tracks(Pruned(emails.Bucket(key), now - emailWindow as real), Recorded(history, key), emailWindow,
          emailLimit, now)
    {
      assert KeyTracks(emails, history, emailWindow, emailLimit, clock, key);
      TracksLater(emails.Bucket(key), Recorded(history, key), emailWindow, emailLimit, clock, now);
      TracksLater(global, accepted, globalWindow, globalLimit, clock, now);
      EmailsTrackLater(emails, history, emailWindow, emailLimit, clock, now);
      clock := now;
    }

    method RecordGlobally(now: real)
      requires Tracking() && clock == now
      requires global == Pruned(accepted, now - globalWindow as real) && |global| < globalLimit
      modifies `global, `accepted
      ensures Tracking() && accepted == old(accepted) + [now]
    {
      AcceptTracks(accepted, globalWindow, globalLimit, now);
      global := global + [now];
      accepted := accepted + [now];
    }

    /** The account's deque takes the call, and a map that grew too large is cleaned up. */
    method RecordForAccount(key: Key, bucket: seq<real>, now: real)
      requires Tracking() && clock == now
      requires bucket == Pruned(Recorded(history, key), now - emailWindow as real) && |bucket| < emailLimit
      modifies `emails, `history
      ensures Tracking()
      ensures emails == Cleaned(old(emails).Put(key, bucket + [now]), now - emailWindow as real, maxEmailBuckets)
      ensures forall k :: HistoryAfter(old(history), k, key, now)
      ensures Recorded(history, key) == Recorded(old(history), key) + [now]
              || Popped(old(emails).Put(key, bucket + [now]), emails, now - emailWindow as real, key)
    {
      assert KeyTracks(emails, history, emailWindow, emailLimit, clock, key);
      ghost var h := Recorded(history, key) + [now];
      AcceptTracks(Recorded(history, key), emailWindow, emailLimit, now);
      EmailsTrackPut(emails, history, emailWindow, emailLimit, now, key, bucket + [now], h);
      emails := emails.Put(key, bucket + [now]);
      ghost var before, h0 := emails, history[key := h];
      CleanupEmailBuckets(now);
      EmailsTrackCleaned(before, h0, emailWindow, emailLimit, now, maxEmailBuckets);
      history := Remaining(h0, before, emails, now - emailWindow as real);
      forall k ensures HistoryAfter(old(history), k, key, now) {
        RemainingUnlessEvicted(before, h0, now - emailWindow as real, maxEmailBuckets, k);
      }
    }

    /** The history of k after a call admitted for key: extended if it is the caller's, else the same; or evicted. */
    ghost predicate HistoryAfter(before: map<Key, seq<real>>, k: Key, key: Key, now: real)
      reads `history, `emails
    {
      || Recorded(history, k) == Recorded(before, k) + (if k == key then [now] else [])
      || (Recorded(history, k) == [] && k !in emails.at && |emails.order| == maxEmailBuckets)
    }

    /**
     One login attempt.  It is judged by the calls accepted within the two windows; a rejected
     attempt consumes nothing; an admitted one is recorded, and a history is lost only by
     eviction from a full map.
     */
    method Acquire(key: Key, now: real) returns (r: Admission)
      requires Valid() && clock <= now
      modifies this
      ensures Valid() && clock == now
      ensures r == Decision(old(accepted), Recorded(old(history), key), now)
      ensures accepted == old(accepted) + if r.Admitted? then [now] else []
      ensures r.Limited? ==> history == old(history)
      ensures r.Limited? && emailLimit > 0 ==> emails.order == old(emails.order)
      ensures r.Admitted? ==> forall k :: HistoryAfter(old(history), k, key, now)
      ensures r.Admitted? && maxEmailBuckets > 0 ==>
                Recorded(history, key) == Recorded(old(history), key) + [now]
      ensures r.Admitted? && maxEmailBuckets > 0 && emailWindow > 0 ==> key in emails.at
    {
      Advance(key, now);
      global := Prune(global, now, globalWindow);
      if |global| >= globalLimit {
        return Limited(RetryAfterHeader(RetryAfter(global, now, globalWindow)));
      }
      r := AcquireForAccount(key, now);
      if r.Admitted? {
        RecordGlobally(now);
      }
    }

    /** The account's half of an attempt that the global window leaves room for. */
    method AcquireForAccount(key: Key, now: real) returns (r: Admission)
      requires Valid() && clock == now
      modifies `emails, `history
      ensures Valid()
      ensures var own := Pruned(Recorded(old(history), key), now - emailWindow as real);
              r == if |own| >= emailLimit then Limited(RetryAfterHeader(RetryAfter(own, now, emailWindow)))
                  else Admitted
      ensures r.Limited? ==> history == old(history)
      ensures r.Limited? && emailLimit > 0 ==> emails.order == old(emails.order)
      ensures r.Admitted? ==> forall k :: HistoryAfter(old(history), k, key, now)
      ensures r.Admitted? && maxEmailBuckets > 0 ==>
                Recorded(history, key) == Recorded(old(history), key) + [now]
      ensures r.Admitted? && maxEmailBuckets > 0 && emailWindow > 0 ==> key in emails.at
    {
      DequesAreTheWindow(key);
      // setdefault, then prune in place
      var bucket := Prune(emails.Bucket(key), now, emailWindow);
      EmailsTrackPut(emails, history, emailWindow, emailLimit, now, key, bucket, Recorded(history, key));
      emails := emails.Put(key, bucket);
      if |bucket| >= emailLimit {
        return Limited(RetryAfterHeader(RetryAfter(bucket, now, emailWindow)));
      }
      r := Admitted;
      AfterRecording(old(emails), key, bucket, now);
      RecordForAccount(key, bucket, now);
    }

    lemma AfterRecording(d: Buckets, key: Key, bucket: seq<real>, now: real)
      requires d.Valid()
      ensures var r := Cleaned(d.Put(key, bucket).Put(key, bucket + [now]), now - emailWindow as real, maxEmailBuckets);
              && |r.order| <= maxEmailBuckets
              && (maxEmailBuckets > 0 && |d.order| <= maxEmailBuckets ==>
                    && !Popped(d.Put(key, bucket).Put(key, bucket + [now]), r, now - emailWindow as real, key)
                    && (emailWindow > 0 ==> key in r.at))
    {
      var before := d.Put(key, bucket).Put(key, bucket + [now]);
      var cutoff := now - emailWindow as real;
      assert before == d.Put(key, bucket + [now]);
      PutKeepsValid(d, key, bucket + [now]);
      CleanedIsBounded(before, cutoff, maxEmailBuckets);
      if emailWindow > 0 {
        LastCallIsLive(bucket, now, emailWindow);
      }
      if maxEmailBuckets > 0 && |d.order| <= maxEmailBuckets < |before.order|
          && Pruned(before.Bucket(key), cutoff) != [] {
        CleanedKeepsTheNewest(before, cutoff, maxEmailBuckets, key);
      }
    }

    /** A successful login forgets the account's own calls and leaves the global budget spent. */
    method Success(key: Key)
      requires Valid()
      modifies `emails, `history
      ensures Valid() && emails == old(emails).Delete(key)
      ensures history == old(history) - {key}
    {
      EmailsTrackDelete(emails, history, emailWindow, emailLimit, clock, key);
      WithoutIsNoLonger(emails.order, key);
      emails := emails.Delete(key);
      history := history - {key};
    }

    /** Valid holds after every call of every run, so these bound every window at every instant. */
    lemma GlobalBudget(t: real)
      requires Valid()
      ensures CountIn(accepted, t - globalWindow as real, t) <= globalLimit
    {
      SlidingWindowBound(accepted, globalWindow, globalLimit, t);
    }

    lemma AccountBudget(key: Key, t: real)
      requires Valid()
      ensures CountIn(Recorded(history, key), t - emailWindow as real, t) <= emailLimit
    {
      assert KeyTracks(emails, history, emailWindow, emailLimit, clock, key);
      SlidingWindowBound(Recorded(history, key), emailWindow, emailLimit, t);
    }

    /** A deque, once pruned, is exactly the accepted calls still inside its window. */
    lemma DequesAreTheWindow(key: Key)
      requires Tracking()
      ensures Pruned(global, clock - globalWindow as real) == Pruned(accepted, clock - globalWindow as real)
      ensures Pruned(emails.Bucket(key), clock - emailWindow as real)
          == Pruned(Recorded(history, key), clock - emailWindow as real)
      ensures Tracks(Pruned(global, clock - globalWindow as real), accepted, globalWindow, globalLimit, clock)
      ensures Tracks(Pruned(emails.Bucket(key), clock - emailWindow as real), Recorded(history, key), emailWindow,
          emailLimit, clock)
    {
      TracksLater(global, accepted, globalWindow, globalLimit, clock, clock);
      assert KeyTracks(emails, history, emailWindow, emailLimit, clock, key);
      TracksLater(emails.Bucket(key), Recorded(history, key), emailWindow, emailLimit, clock, clock);
    }
  }

  /** Pruning keeps exactly the calls inside the window. */
  lemma {:induction false} PrunedIsTheWindow(h: seq<real>, window: nat, now: real)
    requires Sorted(h) && NotAfter(h, now)
    ensures |Pruned(h, now - window as real)| == CountIn(h, now - window as real, now)
  {
    var cutoff := now - window as real;
    var r := Pruned(h, cutoff);
    var m := |h| - |r|;
    PrunedIsTail(h, cutoff);
    assert m > 0 ==> TailAt(r, h, cutoff, m - 1);
    assert m < |h| ==> TailAt(r, h, cutoff, m);
    CountTail(h, cutoff, now, m);
  }

  lemma {:induction false} CountTail(h: seq<real>, after: real, upTo: real, m: nat)
    requires m <= |h| && Sorted(h) && NotAfter(h, upTo)
    requires m > 0 ==> h[m - 1] <= after
    requires m < |h| ==> after < h[m]
    ensures CountIn(h, after, upTo) == |h| - m
  {
    if h != [] {
      var n := |h| - 1;
      forall i, j | 0 <= i <= j < n ensures NoLater(h[..n], i, j) {
        assert NoLater(h, i, j);
      }
      assert n > 0 ==> NoLater(h, n - 1, n);
      if m < |h| {
        assert NoLater(h, m, n);
        CountTail(h[..n], after, upTo, m);
      } else {
        assert n > 0 ==> NoLater(h, n - 1, n);
        CountTail(h[..n], after, upTo, n);
      }
    }
  }
}
