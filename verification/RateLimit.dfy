/**
 RateLimitMiddleware: one counter per bucket, whose time to live restarts on every admitted request.
 */
module RateLimit {
  import opened Options
  import opened Tenants
  import opened Windows

  const WINDOW := 60 * SECOND

  /** A cache entry; it can be read before expires and not after. */
  datatype Counter = Counter(count: nat, expires: int)

  /** rl:{login|req}:{tenant}:{ip} */
  datatype Key = Key(isLogin: bool, tenant: Option<TenantId>, ip: string)

  const LOGIN_PATHS: set<string> := {"/api/v1/auth/login/"}

  datatype Limits = Limits(login: int, general: int)
  {
    function Of(key: Key): int { if key.isLogin then login else general }
  }

  datatype Request = Request(key: Key, time: int)

  /** cache.get(key, 0) */
  function Read(cache: map<Key, Counter>, key: Key, now: int): nat {
    if key in cache && now < cache[key].expires then cache[key].count else 0
  }

  function Admits(limits: Limits, cache: map<Key, Counter>, r: Request): bool {
    Read(cache, r.key, r.time) < limits.Of(r.key)
  }

  function Serve(limits: Limits, cache: map<Key, Counter>, r: Request): map<Key, Counter> {
    if Admits(limits, cache, r) then cache[r.key := Counter(Read(cache, r.key, r.time) + 1, r.time + WINDOW)] else cache
  }

  class RateLimiter {
    const limits: Limits
    var cache: map<Key, Counter>

    constructor (limits: Limits)
      ensures this.limits == limits && cache == map[]
    {
      this.limits, cache := limits, map[];
    }

    /** True means that the request is passed on, false a 429 response. */
    method Call(path: string, tenant: Option<TenantId>, ip: string, now: int) returns (admitted: bool)
      modifies this
      ensures var r := Request(Key(path == "/api/v1/auth/login/", tenant, ip), now);
              admitted == Admits(limits, old(cache), r) && cache == Serve(limits, old(cache), r)
    {
      var isLogin := path in LOGIN_PATHS;
      var limit := if isLogin then limits.login else limits.general;
      var cacheKey := Key(isLogin, tenant, ip);
      var count := 0;
      if cacheKey in cache && now < cache[cacheKey].expires {
        count := cache[cacheKey].count;
      }
      if count >= limit {
        return false;
      }
      cache := cache[cacheKey := Counter(count + 1, now + WINDOW)];
      return true;
    }
  }

  // ---- Traces ----

  predicate InOrder(trace: seq<Request>) {
    forall i, j :: 0 <= i < j < |trace| ==> trace[i].time <= trace[j].time
  }

  function CacheAfter(limits: Limits, trace: seq<Request>): map<Key, Counter> {
    if trace == [] then map[] else Serve(limits, CacheAfter(limits, trace[..|trace| - 1]), trace[|trace| - 1])
  }

  /** When the requests of one bucket were admitted. */
  function Admissions(limits: Limits, trace: seq<Request>, key: Key): seq<int> {
    if trace == [] then []
    else
      var before, r := trace[..|trace| - 1], trace[|trace| - 1];
      Admissions(limits, before, key)
      + if r.key == key && Admits(limits, CacheAfter(limits, before), r) then [r.time] else []
  }

  /** The length of the current burst: the admissions back to the last pause of a full window. */
  function Burst(times: seq<int>): nat {
    if |times| <= 1 then |times|
    else if times[|times| - 1] - times[|times| - 2] < WINDOW then Burst(times[..|times| - 1]) + 1
    else 1
  }

  /** The burst has not yet ended at now. */
  predicate Ongoing(times: seq<int>, now: int) {
    times != [] && now - times[|times| - 1] < WINDOW
  }

  /** What the cache holds for a bucket is the length of its last burst and the time that burst ends. */
  ghost predicate Represents(limits: Limits, cache: map<Key, Counter>, key: Key, times: seq<int>) {
    && Ordered(times)
    && (key in cache <==> times != [])
    && (key in cache ==> cache[key] == Counter(Burst(times), times[|times| - 1] + WINDOW))
    && (key in cache ==> Burst(times) <= limits.Of(key))
  }

  ghost predicate Refines(limits: Limits, trace: seq<Request>, key: Key) {
    var times := Admissions(limits, trace, key);
    && Represents(limits, CacheAfter(limits, trace), key, times)
    && (times != [] ==> trace != [] && times[|times| - 1] <= trace[|trace| - 1].time)
  }

  lemma BurstGrows(times: seq<int>, now: int)
    ensures Burst(times + [now]) == if Ongoing(times, now) then Burst(times) + 1 else 1
  {
    assert (times + [now])[..|times|] == times;
  }

  lemma InOrderPrefix(trace: seq<Request>)
    requires InOrder(trace) && trace != []
    ensures InOrder(trace[..|trace| - 1])
    ensures |trace| > 1 ==> trace[|trace| - 2].time <= trace[|trace| - 1].time
  {
  }

  /** The simple state refines the history it stands for. */
  lemma {:induction false} CounterIsBurst(limits: Limits, trace: seq<Request>, key: Key)
    requires InOrder(trace)
    ensures Refines(limits, trace, key)
  {
    if trace != [] {
      var n := |trace| - 1;
      InOrderPrefix(trace);
      CounterIsBurst(limits, trace[..n], key);
      ServeRefines(limits, trace, key);
    }
  }

  lemma ServeRepresents(limits: Limits, cache: map<Key, Counter>, key: Key, times: seq<int>, r: Request)
    requires Represents(limits, cache, key, times) && (times != [] ==> times[|times| - 1] <= r.time)
    ensures Represents(limits, Serve(limits, cache, r), key,
                       if r.key == key && Admits(limits, cache, r) then times + [r.time] else times)
  {
    BurstGrows(times, r.time);
    OrderedSnoc(times, r.time);
    hide Ordered, Burst;
  }

  lemma ServeRefines(limits: Limits, trace: seq<Request>, key: Key)
    requires trace != [] && Refines(limits, trace[..|trace| - 1], key)
    requires |trace| > 1 ==> trace[|trace| - 2].time <= trace[|trace| - 1].time
    ensures Refines(limits, trace, key)
  {
    hide Represents, Serve, Admits;
    var n := |trace| - 1;
    var times := Admissions(limits, trace[..n], key);
    assert times != [] ==> times[|times| - 1] <= trace[n].time;
    ServeRepresents(limits, CacheAfter(limits, trace[..n]), key, times, trace[n]);
    assert times + [] == times;
  }

  /** Exactly which requests are refused: those that find a burst of limit admissions still going on,
      and all of them if limit is not positive. */
  lemma RefusedIffBurstIsFull(limits: Limits, trace: seq<Request>, r: Request)
    requires InOrder(trace + [r])
    ensures var times := Admissions(limits, trace, r.key);
            var limit := if r.key.isLogin then limits.login else limits.general;
            !Admits(limits, CacheAfter(limits, trace), r) <==>
              limit <= 0 || (Ongoing(times, r.time) && Burst(times) >= limit)
  {
    assert forall i :: 0 <= i < |trace| ==> trace[i] == (trace + [r])[i];
    CounterIsBurst(limits, trace, r.key);
  }

  /** A client that pauses for a full window is let in again. */
  lemma PauseReadmits(limits: Limits, trace: seq<Request>, r: Request)
    requires InOrder(trace + [r]) && (if r.key.isLogin then limits.login else limits.general) >= 1
    requires var times := Admissions(limits, trace, r.key);
             times == [] || r.time - times[|times| - 1] >= 60 * 1_000_000
    ensures Admits(limits, CacheAfter(limits, trace), r)
  {
    RefusedIffBurstIsFull(limits, trace, r);
  }

  /** Admissions less than a window apart belong to one burst. */
  lemma {:induction false} BurstCovers(times: seq<int>, i: nat)
    requires Ordered(times) && i < |times| && times[|times| - 1] - times[i] < WINDOW
    ensures Burst(times) >= |times| - i
  {
    var n := |times| - 1;
    if i < n {
      BurstCovers(times[..n], i);
    }
  }

  lemma {:induction false} AdmissionsPrefix(limits: Limits, trace: seq<Request>, key: Key, j: nat) returns (m: nat)
    requires j < |Admissions(limits, trace, key)|
    ensures m <= |trace| && Admissions(limits, trace[..m], key) == Admissions(limits, trace, key)[..j + 1]
  {
    var n := |trace| - 1;
    var times, before := Admissions(limits, trace, key), Admissions(limits, trace[..n], key);
    if j + 1 == |times| {
      m := |trace|;
      assert trace[..m] == trace;
    } else {
      m := AdmissionsPrefix(limits, trace[..n], key, j);
      assert trace[..n][..m] == trace[..m];
      assert before[..j + 1] == times[..j + 1];
    }
  }

  /** Sliding-window safety: although there is only one counter, in any half-open window of 60 seconds a
      login bucket is admitted at most limits.login times, and any other bucket limits.general times. */
  lemma WindowSafety(limits: Limits, trace: seq<Request>, key: Key, start: int)
    requires InOrder(trace)
    ensures var limit := if key.isLogin then limits.login else limits.general;
            CountIn(Admissions(limits, trace, key), start, start + 60 * 1_000_000) <= (if limit > 0 then limit else 0)
  {
    hide InOrder, Ordered, CountIn, Admissions, CacheAfter;
    var times := Admissions(limits, trace, key);
    BurstWithinLimit(limits, trace, key);
    if CountIn(times, start, start + WINDOW) > 0 {
      var i, j := CountSpan(times, start, start + WINDOW);
      var m := AdmissionsPrefix(limits, trace, key, j);
      InOrderTake(trace, m);
      BurstWithinLimit(limits, trace[..m], key);
      BurstCovers(times[..j + 1], i);
    }
  }

  lemma InOrderTake(trace: seq<Request>, m: nat)
    requires InOrder(trace) && m <= |trace|
    ensures InOrder(trace[..m])
  {
  }

  lemma BurstWithinLimit(limits: Limits, trace: seq<Request>, key: Key)
    requires InOrder(trace)
    ensures var times := Admissions(limits, trace, key);
            Ordered(times) && (times != [] ==> Burst(times) <= limits.Of(key))
  {
    CounterIsBurst(limits, trace, key);
  }

  lemma TwoServed(limits: Limits, a: Request, b: Request)
    ensures CacheAfter(limits, [a, b]) == Serve(limits, Serve(limits, map[], a), b)
    ensures Admissions(limits, [a, b], a.key) ==
              (if Admits(limits, map[], a) then [a.time] else [])
              + (if b.key == a.key && Admits(limits, Serve(limits, map[], a), b) then [b.time] else [])
  {
    assert [a, b][..1] == [a] && [a][..0] == [];
    assert CacheAfter(limits, [a]) == Serve(limits, map[], a);
    assert Admissions(limits, [a], a.key) == if Admits(limits, map[], a) then [a.time] else [];
    hide Admits, Serve;
  }

  /** The converse does not hold: a sliding window that admits two requests in 60 seconds would let in
      a third at second 61 after requests at seconds 0 and 59; this limiter refuses it. */
  lemma StricterThanSlidingWindow(ip: string)
    ensures var key, limits := Key(false, None, ip), Limits(5, 2);
            var trace := [Request(key, 0), Request(key, 59 * SECOND)];
            && CountIn(Admissions(limits, trace, key), 61 * SECOND - WINDOW + 1, 61 * SECOND + 1) == 1
            && !Admits(limits, CacheAfter(limits, trace), Request(key, 61 * SECOND))
  {
    var key, limits := Key(false, None, ip), Limits(5, 2);
    var trace := [Request(key, 0), Request(key, 59 * SECOND)];
    TwoServed(limits, trace[0], trace[1]);
    var times := [0, 59 * SECOND];
    assert Admissions(limits, trace, key) == times;
    assert times[..1] == [0] && [0][..0] == [];
    assert CountIn([0], 61 * SECOND - WINDOW + 1, 61 * SECOND + 1) == 0;
  }
}
