/** The relay's fixed-window rate limiter, with and without eviction of stale buckets. */
module RateLimit {

  datatype Bucket = Bucket(count: int, windowStart: int)
  type Buckets = map<string, Bucket>

  datatype Limits = Limits(windowMs: int, maxRequests: int)

  datatype Request = Request(key: string, now: int)

  /** Even a limit of zero lets the first request of a window through. */
  function PerWindow(l: Limits): int {
    if l.maxRequests < 1 then 1 else l.maxRequests
  }

  function Evicted(b: Buckets, now: int, windowMs: int): Buckets {
    map k | k in b && now - b[k].windowStart < 2 * windowMs :: b[k]
  }

  predicate Admits(l: Limits, b: Buckets, r: Request) {
    r.key !in b || r.now - b[r.key].windowStart >= l.windowMs || b[r.key].count < l.maxRequests
  }

  function Consumed(l: Limits, b: Buckets, r: Request): Buckets {
    if r.key !in b || r.now - b[r.key].windowStart >= l.windowMs then b[r.key := Bucket(1, r.now)]
    else if b[r.key].count >= l.maxRequests then b
    else b[r.key := Bucket(b[r.key].count + 1, b[r.key].windowStart)]
  }

  class Consumer {
    const limits: Limits
    var buckets: Buckets

    constructor (limits: Limits)
      ensures this.limits == limits && buckets == map[]
    {
      this.limits, buckets := limits, map[];
    }

    method EvictStaleBuckets(now: int)
      modifies this
      ensures buckets == Evicted(old(buckets), now, limits.windowMs)
    {
      var evictionAge := 2 * limits.windowMs;
      var todo := buckets.Keys;
      while todo != {}
        invariant todo <= old(buckets).Keys
        invariant forall k :: k in buckets <==>
                    k in old(buckets) && (k in todo || now - old(buckets)[k].windowStart < evictionAge)
        invariant forall k :: k in buckets ==> buckets[k] == old(buckets)[k]
        decreases todo
      {
        var k :| k in todo;
        if now - buckets[k].windowStart >= evictionAge {
          buckets := buckets - {k};
        }
        todo := todo - {k};
      }
    }

    method TryConsume(r: Request) returns (ok: bool)
      modifies this
      ensures ok == Admits(limits, Evicted(old(buckets), r.now, limits.windowMs), r)
      ensures buckets == Consumed(limits, Evicted(old(buckets), r.now, limits.windowMs), r)
    {
      EvictStaleBuckets(r.now);
      if r.key !in buckets || r.now - buckets[r.key].windowStart >= limits.windowMs {
        buckets := buckets[r.key := Bucket(1, r.now)];
        return true;
      }
      var bucket := buckets[r.key];
      if bucket.count >= limits.maxRequests {
        return false;
      }
      buckets := buckets[r.key := Bucket(bucket.count + 1, bucket.windowStart)];
      return true;
    }
  }

  // ---- traces ----

  function Cleaned(l: Limits, b: Buckets, now: int, evict: bool): Buckets {
    if evict then Evicted(b, now, l.windowMs) else b
  }

  /** The answers to a trace of requests, with or without eviction before each of them. */
  function Decisions(l: Limits, b: Buckets, rs: seq<Request>, evict: bool): seq<bool>
    decreases |rs|
  {
    if rs == [] then []
    else
      var c := Cleaned(l, b, rs[0].now, evict);
      [Admits(l, c, rs[0])] + Decisions(l, Consumed(l, c, rs[0]), rs[1..], evict)
  }

  ghost predicate Ordered(rs: seq<Request>, from: int)
    decreases |rs|
  {
    rs != [] ==> from <= rs[0].now && Ordered(rs[1..], rs[0].now)
  }

  /** The evicting limiter misses only buckets whose window is over for good. */
  ghost predicate Agrees(l: Limits, e: Buckets, p: Buckets, clock: int) {
    && (forall k :: k in e ==> k in p && e[k] == p[k])
    && (forall k :: k in p ==> p[k].windowStart <= clock)
    && (forall k :: k in p && k !in e ==> clock - p[k].windowStart >= l.windowMs)
  }

  lemma {:induction false} EvictionInvisibleFrom(l: Limits, e: Buckets, p: Buckets, rs: seq<Request>, clock: int)
    requires Agrees(l, e, p, clock) && Ordered(rs, clock)
    ensures Decisions(l, e, rs, true) == Decisions(l, p, rs, false)
    decreases |rs|
  {
    if rs != [] {
      var r := rs[0];
      var c := Evicted(e, r.now, l.windowMs);
      assert Agrees(l, c, p, r.now);
      assert Agrees(l, Consumed(l, c, r), Consumed(l, p, r), r.now);
      EvictionInvisibleFrom(l, Consumed(l, c, r), Consumed(l, p, r), rs[1..], r.now);
    }
  }

  /** With a clock that never goes back, no caller can tell whether stale buckets are evicted. */
  lemma EvictionInvisible(l: Limits, rs: seq<Request>, clock: int)
    requires Ordered(rs, clock)
    ensures Decisions(l, map[], rs, true) == Decisions(l, map[], rs, false)
  {
    EvictionInvisibleFrom(l, map[], map[], rs, clock);
  }

  /** With a clock that does go back, one can. */
  lemma ClockMatters()
    ensures var l := Limits(10, 1);
            var rs := [Request("k", 0), Request("other", 20), Request("k", 5)];
            Decisions(l, map[], rs, true) != Decisions(l, map[], rs, false)
  {
    var l := Limits(10, 1);
    var rs := [Request("k", 0), Request("other", 20), Request("k", 5)];
    assert rs[1..] == [Request("other", 20), Request("k", 5)] && rs[1..][1..] == [Request("k", 5)];
    var b := map["k" := Bucket(1, 0)];
    assert Evicted(map[], 0, 10) == map[] && Consumed(l, map[], rs[0]) == b;
    assert Evicted(b, 20, 10) == map[];
    assert "k" !in Evicted(Consumed(l, map[], rs[1]), 5, 10);
    assert Decisions(l, map[], rs, true)[2];
    assert !Decisions(l, map[], rs, false)[2];
  }

  // ---- how much gets through ----

  /** Admitted requests of one key in the half-open interval [t, t + windowMs). */
  function AdmittedIn(l: Limits, b: Buckets, rs: seq<Request>, evict: bool, key: string, t: int): nat
    decreases |rs|
  {
    if rs == [] then 0
    else
      var c := Cleaned(l, b, rs[0].now, evict);
      (if rs[0].key == key && t <= rs[0].now < t + l.windowMs && Admits(l, c, rs[0]) then 1 else 0)
      + AdmittedIn(l, Consumed(l, c, rs[0]), rs[1..], evict, key, t)
  }

  /** What `a` admissions so far in the interval say about the key's bucket. */
  ghost predicate Bounded(l: Limits, b: Buckets, key: string, t: int, a: int, clock: int) {
    && 0 <= a <= 2 * PerWindow(l) - 1
    && (clock < t ==> a == 0)
    && (key !in b ==> a == 0)
    && (key in b ==>
          && 1 <= b[key].count <= PerWindow(l)
          && (b[key].windowStart < t ==> a <= b[key].count - 1)
          && (t <= b[key].windowStart < t + l.windowMs ==> a <= PerWindow(l) - 1 + b[key].count))
  }

  lemma {:induction false} BoundFrom(l: Limits, b: Buckets, rs: seq<Request>, key: string, t: int, a: int, clock: int)
    requires Bounded(l, b, key, t, a, clock) && Ordered(rs, clock)
    requires key in b ==> b[key].windowStart <= clock
    ensures a + AdmittedIn(l, b, rs, false, key, t) <= 2 * PerWindow(l) - 1
    decreases |rs|
  {
    if rs != [] {
      var r := rs[0];
      var d := if r.key == key && t <= r.now < t + l.windowMs && Admits(l, b, r) then 1 else 0;
      assert Bounded(l, Consumed(l, b, r), key, t, a + d, r.now);
      BoundFrom(l, Consumed(l, b, r), rs[1..], key, t, a + d, r.now);
    }
  }

  lemma {:induction false} SameCount(l: Limits, e: Buckets, p: Buckets, rs: seq<Request>, clock: int, key: string, t: int)
    requires Agrees(l, e, p, clock) && Ordered(rs, clock)
    ensures AdmittedIn(l, e, rs, true, key, t) == AdmittedIn(l, p, rs, false, key, t)
    decreases |rs|
  {
    if rs != [] {
      var r := rs[0];
      var c := Evicted(e, r.now, l.windowMs);
      assert Agrees(l, c, p, r.now);
      assert Agrees(l, Consumed(l, c, r), Consumed(l, p, r), r.now);
      SameCount(l, Consumed(l, c, r), Consumed(l, p, r), rs[1..], r.now, key, t);
    }
  }

  /** Wherever an interval of one window's length is laid, fewer than two windows' worth gets through in it. */
  lemma LimitIsReal(l: Limits, rs: seq<Request>, key: string, t: int, clock: int)
    requires Ordered(rs, clock)
    ensures AdmittedIn(l, map[], rs, true, key, t) <= 2 * PerWindow(l) - 1
  {
    SameCount(l, map[], map[], rs, clock, key, t);
    BoundFrom(l, map[], rs, key, t, 0, clock);
  }

  // ---- nobody is refused without cause ----

  /** The buckets after a trace without eviction. */
  function Filled(l: Limits, b: Buckets, rs: seq<Request>): Buckets
    decreases |rs|
  {
    if rs == [] then b else Filled(l, Consumed(l, b, rs[0]), rs[1..])
  }

  lemma {:induction false} DecisionAt(l: Limits, b: Buckets, rs: seq<Request>, i: nat)
    requires i < |rs|
    ensures |Decisions(l, b, rs, false)| == |rs|
    ensures Decisions(l, b, rs, false)[i] == Admits(l, Filled(l, b, rs[..i]), rs[i])
    decreases |rs|
  {
    var b1 := Consumed(l, b, rs[0]);
    DecisionsAll(l, b1, rs[1..]);
    if i > 0 {
      assert rs[..i][1..] == rs[1..][..i - 1];
      DecisionAt(l, b1, rs[1..], i - 1);
    }
  }

  lemma {:induction false} DecisionsAll(l: Limits, b: Buckets, rs: seq<Request>)
    ensures |Decisions(l, b, rs, false)| == |rs|
    decreases |rs|
  {
    if rs != [] {
      DecisionsAll(l, Consumed(l, b, rs[0]), rs[1..]);
    }
  }

  /** A window that is still the last one has admitted what its bucket counts. */
  lemma {:induction false} CountedFrom(l: Limits, b: Buckets, rs: seq<Request>, key: string, t: int, a: int, clock: int)
    requires l.windowMs > 0 && Ordered(rs, clock) && a >= 0
    requires forall k :: k in b ==> b[k].windowStart <= clock && b[k].count <= PerWindow(l)
    requires key in b && b[key].windowStart == t ==> b[key].count <= a
    ensures var f := Filled(l, b, rs);
            && (key in f && f[key].windowStart == t ==> f[key].count <= a + AdmittedIn(l, b, rs, false, key, t))
            && forall k :: k in f ==> (rs == [] ==> f[k].windowStart <= clock) && (rs != [] ==> f[k].windowStart <= rs[|rs| - 1].now)
    decreases |rs|
  {
    if rs != [] {
      var r := rs[0];
      var d := if r.key == key && t <= r.now < t + l.windowMs && Admits(l, b, r) then 1 else 0;
      CountedFrom(l, Consumed(l, b, r), rs[1..], key, t, a + d, r.now);
    }
  }

  lemma {:induction false} OrderedPrefix(rs: seq<Request>, from: int, i: nat)
    requires Ordered(rs, from) && i < |rs|
    ensures Ordered(rs[..i], from) && from <= rs[i].now && (i > 0 ==> rs[i - 1].now <= rs[i].now)
    decreases |rs|
  {
    if i > 0 {
      assert rs[..i][1..] == rs[1..][..i - 1];
      OrderedPrefix(rs[1..], rs[0].now, i - 1);
    }
  }

  /**
   * A request is refused only after its key was let through as often as the limit allows since some moment that
   * is less than one window back.
   */
  lemma RefusalIsEarned(l: Limits, rs: seq<Request>, clock: int, i: nat) returns (t: int)
    requires Ordered(rs, clock) && i < |rs|
    requires var ds := Decisions(l, map[], rs, true); i < |ds| && !ds[i]
    ensures rs[i].now - l.windowMs < t <= rs[i].now
    ensures AdmittedIn(l, map[], rs[..i], true, rs[i].key, t) >= PerWindow(l)
  {
    var r := rs[i];
    EvictionInvisible(l, rs, clock);
    DecisionAt(l, map[], rs, i);
    var f := Filled(l, map[], rs[..i]);
    t := f[r.key].windowStart;
    OrderedPrefix(rs, clock, i);
    WindowsStarted(l, map[], rs[..i], clock);
    CountedFrom(l, map[], rs[..i], r.key, t, 0, clock);
    SameCount(l, map[], map[], rs[..i], clock, r.key, t);
  }

  lemma {:induction false} WindowsStarted(l: Limits, b: Buckets, rs: seq<Request>, clock: int)
    requires Ordered(rs, clock) && forall k :: k in b ==> b[k].windowStart <= clock && 1 <= b[k].count
    ensures forall k :: k in Filled(l, b, rs) ==>
              Filled(l, b, rs)[k].windowStart <= (if rs == [] then clock else rs[|rs| - 1].now) && 1 <= Filled(l, b, rs)[k].count
    decreases |rs|
  {
    if rs != [] {
      WindowsStarted(l, Consumed(l, b, rs[0]), rs[1..], rs[0].now);
    }
  }

  // ---- the bound is exact ----

  function Burst(key: string, now: int, n: nat): seq<Request> {
    if n == 0 then [] else [Request(key, now)] + Burst(key, now, n - 1)
  }

  lemma OneMoreFits(l: Limits, b: Buckets, key: string, rs: seq<Request>, t: int)
    requires rs != [] && rs[0].key == key && t <= rs[0].now < t + l.windowMs
    requires key in b && rs[0].now - b[key].windowStart < l.windowMs && b[key].count < l.maxRequests
    ensures AdmittedIn(l, b, rs, false, key, t)
            == 1 + AdmittedIn(l, b[key := Bucket(b[key].count + 1, b[key].windowStart)], rs[1..], false, key, t)
  {
  }

  /** A burst that fits into a running window inside the interval is admitted whole. */
  lemma {:induction false} BurstFits(l: Limits, b: Buckets, key: string, now: int, n: nat, rest: seq<Request>, t: int)
    requires key in b && 0 <= now - b[key].windowStart < l.windowMs && b[key].count + n <= l.maxRequests
    requires t <= now < t + l.windowMs
    ensures AdmittedIn(l, b, Burst(key, now, n) + rest, false, key, t)
            == n + AdmittedIn(l, b[key := Bucket(b[key].count + n, b[key].windowStart)], rest, false, key, t)
    decreases n
  {
    hide AdmittedIn;
    if n == 0 {
      assert Burst(key, now, n) + rest == rest;
      assert b[key := Bucket(b[key].count + n, b[key].windowStart)] == b;
    } else {
      var rs := Burst(key, now, n) + rest;
      assert rs[0] == Request(key, now) && rs[1..] == Burst(key, now, n - 1) + rest;
      var c := b[key := Bucket(b[key].count + 1, b[key].windowStart)];
      OneMoreFits(l, b, key, rs, t);
      BurstFits(l, c, key, now, n - 1, rest, t);
      assert c[key := Bucket(c[key].count + (n - 1), c[key].windowStart)] == b[key := Bucket(b[key].count + n, b[key].windowStart)];
    }
  }

  lemma {:induction false} BurstOrdered(key: string, now: int, n: nat, rest: seq<Request>, from: int)
    requires from <= now && Ordered(rest, now)
    ensures Ordered(Burst(key, now, n) + rest, from)
    decreases n
  {
    if n == 0 {
      assert Burst(key, now, n) + rest == rest;
      OrderedEarlier(rest, now, from);
    } else {
      BurstOrdered(key, now, n - 1, rest, now);
      assert (Burst(key, now, n) + rest)[1..] == Burst(key, now, n - 1) + rest;
    }
  }

  lemma OrderedEarlier(rs: seq<Request>, now: int, from: int)
    requires from <= now && Ordered(rs, now)
    ensures Ordered(rs, from)
  {
  }

  /** A window that has just been used up is followed by a fresh one, admitted whole. */
  lemma NextWindow(l: Limits, b: Buckets, key: string, t: int)
    requires l.maxRequests >= 1 && l.windowMs >= 2 && t == l.windowMs - 1
    requires key in b && b[key] == Bucket(l.maxRequests, 0)
    ensures AdmittedIn(l, b, [Request(key, l.windowMs)] + (Burst(key, l.windowMs, l.maxRequests - 1) + []), false, key, t)
            == l.maxRequests
  {
    var next := [Request(key, l.windowMs)] + (Burst(key, l.windowMs, l.maxRequests - 1) + []);
    assert next[1..] == Burst(key, l.windowMs, l.maxRequests - 1) + [];
    var reset := b[key := Bucket(1, l.windowMs)];
    assert Consumed(l, b, next[0]) == reset;
    BurstFits(l, reset, key, l.windowMs, l.maxRequests - 1, [], t);
  }

  function NextBurst(l: Limits, key: string): seq<Request>
    requires l.maxRequests >= 1
  {
    [Request(key, l.windowMs)] + (Burst(key, l.windowMs, l.maxRequests - 1) + [])
  }

  /** One request opens a window; the rest of its budget follows at its end, and the whole next one right after. */
  function Squeeze(l: Limits, key: string): seq<Request>
    requires l.maxRequests >= 1
  {
    [Request(key, 0)] + (Burst(key, l.windowMs - 1, l.maxRequests - 1) + NextBurst(l, key))
  }

  lemma SqueezeOrdered(l: Limits, key: string)
    requires l.maxRequests >= 1 && l.windowMs >= 2
    ensures Ordered(Squeeze(l, key), 0)
  {
    var w, m := l.windowMs, l.maxRequests;
    BurstOrdered(key, w, m - 1, [], w);
    assert NextBurst(l, key)[1..] == Burst(key, w, m - 1) + [];
    BurstOrdered(key, w - 1, m - 1, NextBurst(l, key), 0);
    assert Squeeze(l, key)[1..] == Burst(key, w - 1, m - 1) + NextBurst(l, key);
  }

  lemma SqueezeCounts(l: Limits, key: string)
    requires l.maxRequests >= 1 && l.windowMs >= 2
    ensures AdmittedIn(l, map[], Squeeze(l, key), false, key, l.windowMs - 1) == 2 * l.maxRequests - 1
  {
    var w, m, t := l.windowMs, l.maxRequests, l.windowMs - 1;
    var rs := Squeeze(l, key);
    assert rs[1..] == Burst(key, w - 1, m - 1) + NextBurst(l, key);
    var b: Buckets := map[key := Bucket(1, 0)];
    assert Consumed(l, map[], rs[0]) == b;
    assert AdmittedIn(l, map[], rs, false, key, t) == AdmittedIn(l, b, rs[1..], false, key, t);
    BurstFits(l, b, key, w - 1, m - 1, NextBurst(l, key), t);
    NextWindow(l, b[key := Bucket(m, 0)], key, t);
  }

  /** The bound of `LimitIsReal` is met. */
  lemma BoundIsExact(l: Limits, key: string)
    requires l.maxRequests >= 1 && l.windowMs >= 2
    ensures Ordered(Squeeze(l, key), 0)
    ensures AdmittedIn(l, map[], Squeeze(l, key), true, key, l.windowMs - 1) == 2 * PerWindow(l) - 1
  {
    SqueezeOrdered(l, key);
    SqueezeCounts(l, key);
    SameCount(l, map[], map[], Squeeze(l, key), 0, key, l.windowMs - 1);
  }
}
