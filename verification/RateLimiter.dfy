/**
  The fixed-window rate limiter over an atomic counter with expiry.  Clock readings are inputs, and
  the counter store uses the same clock.
 */
module RateLimiter {
  import opened Wrappers

  // The scope and identifier as they are joined in the key, and the aligned bucket.
  datatype Key = Key(name: string, bucket: int)

  datatype Counter = Counter(count: nat, expires: Option<real>)
  type Counters = map<Key, Counter>

  datatype RateLimitResult = RateLimitResult(allowed: bool, remaining: int, retryAfterSeconds: int)

  function BucketOf(now: real, window: int): int
    requires window > 0
  {
    now.Floor / window
  }

  predicate Live(c: Counter, now: real) {
    c.expires.None? || now < c.expires.value
  }

  // The store drops the counters that have expired.
  function Purged(cs: Counters, now: real): Counters {
    map k | k in cs && Live(cs[k], now) :: cs[k]
  }

  function Incremented(cs: Counters, key: Key, now: real): Counter {
    if key in cs && Live(cs[key], now) then cs[key].(count := cs[key].count + 1) else Counter(1, None)
  }

  function Counted(cs: Counters, key: Key, now: real): Counters {
    Purged(cs, now)[key := Incremented(cs, key, now)]
  }

  // Seconds to live, rounded; -1 without an expiry.
  function Ttl(c: Counter, now: real): int {
    if c.expires.None? then -1 else (c.expires.value - now + 0.5).Floor
  }

  class Redis {
    var counters: Counters

    constructor ()
      ensures counters == map[]
    {
      counters := map[];
    }

    // INCR and TTL in one transaction; nothing if it raises.
    method IncrAndTtl(key: Key, now: real, fault: Fault) returns (reply: Option<(nat, int)>)
      modifies this
      ensures reply.Some? <==> fault.Works?
      ensures counters == if fault.Fails? then old(counters) else Counted(old(counters), key, now)
      ensures reply.Some? ==> reply.value == (counters[key].count, Ttl(counters[key], now))
    {
      if !fault.Fails? {
        counters := Counted(counters, key, now);
      }
      reply := if fault.Works? then Some((counters[key].count, Ttl(counters[key], now))) else None;
    }

    method Expire(key: Key, seconds: int, now: real, fault: Fault) returns (ok: bool)
      modifies this
      ensures ok <==> fault.Works?
      ensures counters == if key in old(counters) && !fault.Fails?
                          then old(counters)[key := old(counters)[key].(expires := Some(now + seconds as real))]
                          else old(counters)
    {
      if key in counters && !fault.Fails? {
        counters := counters[key := counters[key].(expires := Some(now + seconds as real))];
      }
      ok := fault.Works?;
    }
  }

  /* ---------- the check ---------- */

  datatype Request = Request(name: string, now: real)

  // The counters after one check.
  function Step(cs: Counters, r: Request, window: int): Counters
    requires window > 0
  {
    var key := Key(r.name, BucketOf(r.now, window));
    var c := Incremented(cs, key, r.now);
    Purged(cs, r.now)[key := if c.count == 1 then Counter(1, Some(r.now + window as real)) else c]
  }

  function Max(a: int, b: int): int {
    if a < b then b else a
  }

  // What becomes of the two commands of a check.
  datatype Outage = Outage(incr: Fault, expire: Fault)

  // Whether a check of a counter that becomes `count` raises: the expiry is set on the first only.
  predicate RaisesAt(outage: Outage, count: nat) {
    !outage.incr.Works? || (count == 1 && !outage.expire.Works?)
  }

  // The counters after a check, whatever went wrong.
  function StepUnder(cs: Counters, r: Request, window: int, outage: Outage): Counters
    requires window > 0
  {
    if outage.incr.Fails? then cs
    else if outage.incr.Lands? || outage.expire.Fails? then
      var key := Key(r.name, BucketOf(r.now, window));
      Counted(cs, key, r.now)
    else Step(cs, r, window)
  }

  /** A missing client fails open, and so does a command that raises, whether or not it had its effect.
      Otherwise the check counts the request and allows it up to the limit; a rejection asks to wait for
      the counter's time to live, and for at least a second. */
  method CheckRateLimit(redis: Redis?, scope: string, identifier: string, limit: int, window: int, now: real,
                        outage: Outage)
    returns (r: RateLimitResult)
    requires window > 0
    modifies redis
    ensures redis == null ==> r == RateLimitResult(true, limit, 0)
    ensures redis != null ==>
              var key := Key(scope + ":" + identifier, BucketOf(now, window));
              var count := Incremented(old(redis.counters), key, now).count;
              if RaisesAt(outage, count) then r == RateLimitResult(true, limit, 0)
              else
                && redis.counters == Step(old(redis.counters), Request(key.name, now), window)
                && r.allowed == (count <= limit) && r.remaining == Max(limit - count, 0)
                && key in redis.counters
                && r.retryAfterSeconds == if r.allowed then 0 else Max(Ttl(redis.counters[key], now), 1)
    ensures redis != null ==>
              redis.counters == StepUnder(old(redis.counters), Request(scope + ":" + identifier, now), window, outage)
  {
    if redis == null {
      return RateLimitResult(true, limit, 0);
    }
    var key := Key(scope + ":" + identifier, BucketOf(now, window));
    var reply := redis.IncrAndTtl(key, now, outage.incr);
    if reply.None? {
      return RateLimitResult(true, limit, 0);
    }
    var (count, ttl) := reply.value;
    if count == 1 {
      var ok := redis.Expire(key, window, now, outage.expire);
      if !ok {
        return RateLimitResult(true, limit, 0);
      }
      ttl := window;
    }
    var allowed := count <= limit;
    var retryAfter := if allowed then 0 else ttl;
    r := RateLimitResult(allowed, Max(limit - count, 0), if allowed then 0 else Max(retryAfter, 1));
  }

  /** The time to live a rejection reports is the remaining one to within half a second. */
  lemma TtlIsNearest(c: Counter, now: real)
    requires c.expires.Some?
    ensures (Ttl(c, now) as real) - 0.5 <= c.expires.value - now < Ttl(c, now) as real + 0.5
  {
  }

  /** A counter that a check opens is there for one window length exactly, and forgotten from then on. */
  lemma Lifetime(cs: Counters, r: Request, window: int, later: real)
    requires window > 0
    ensures var key := Key(r.name, BucketOf(r.now, window));
            Incremented(cs, key, r.now).count == 1 ==>
              (key in Purged(Step(cs, r, window), later) <==> later < r.now + window as real)
  {
  }

  /* ---------- over any stream of requests ---------- */

  function After(rs: seq<Request>, window: int): Counters
    requires window > 0
  {
    if rs == [] then map[] else Step(After(rs[..|rs| - 1], window), rs[|rs| - 1], window)
  }

  // The requests of one name in one bucket.
  function Count(rs: seq<Request>, key: Key, window: int): nat
    requires window > 0
  {
    if rs == [] then 0
    else
      var last := rs[|rs| - 1];
      Count(rs[..|rs| - 1], key, window) + if Key(last.name, BucketOf(last.now, window)) == key then 1 else 0
  }

  // Whether the last request was allowed.
  predicate LastAllowed(rs: seq<Request>, limit: int, window: int)
    requires window > 0 && rs != []
  {
    var last := rs[|rs| - 1];
    Incremented(After(rs[..|rs| - 1], window), Key(last.name, BucketOf(last.now, window)), last.now).count <= limit
  }

  lemma BucketSpan(now: real, window: int)
    requires window > 0
    ensures (BucketOf(now, window) * window) as real <= now < ((BucketOf(now, window) + 1) * window) as real
  {
    var b := BucketOf(now, window);
    assert now.Floor == b * window + now.Floor % window;
    assert (b + 1) * window == b * window + window;
  }

  // A counter never expires inside its own bucket.
  ghost predicate Outlives(key: Key, c: Counter, window: int)
    requires window > 0
  {
    c.expires.Some? && c.expires.value >= ((key.bucket + 1) * window) as real
  }

  ghost predicate Tracks(cs: Counters, rs: seq<Request>, window: int, key: Key)
    requires window > 0
  {
    if Count(rs, key, window) == 0 then key !in cs
    else key in cs && cs[key].count == Count(rs, key, window) && Outlives(key, cs[key], window)
  }

  lemma FreshOutlives(now: real, window: int)
    requires window > 0
    ensures now + window as real >= ((BucketOf(now, window) + 1) * window) as real
  {
    BucketSpan(now, window);
    var b := BucketOf(now, window);
    assert (b + 1) * window == b * window + window;
  }

  lemma StepTracks(cs: Counters, rs: seq<Request>, r: Request, window: int, key: Key)
    requires window > 0 && Tracks(cs, rs, window, key) && Before(r.now, key, window)
    ensures Tracks(Step(cs, r, window), rs + [r], window, key)
  {
    assert (rs + [r])[..|rs|] == rs;
    BucketSpan(r.now, window);
    FreshOutlives(r.now, window);
  }

  // The one clock of requests and store does not go back.
  ghost predicate Nondecreasing(rs: seq<Request>) {
    forall i, j :: 0 <= i < j < |rs| ==> rs[i].now <= rs[j].now
  }

  // A reading that does not pass the end of a key's bucket.
  predicate Before(now: real, key: Key, window: int)
    requires window > 0
  {
    now < ((key.bucket + 1) * window) as real
  }

  /** In any stream of requests on one clock that does not go back, a counter lives through its own
      bucket, although the store drops expired counters, and counts exactly the requests of its name
      in it. */
  lemma {:induction false} CounterIsExact(rs: seq<Request>, window: int, key: Key)
    requires window > 0 && Nondecreasing(rs) && (rs != [] ==> Before(rs[|rs| - 1].now, key, window))
    ensures Tracks(After(rs, window), rs, window, key)
  {
    if rs != [] {
      var front, last := rs[..|rs| - 1], rs[|rs| - 1];
      CounterIsExact(front, window, key);
      StepTracks(After(front, window), front, last, window, key);
      assert rs == front + [last];
    }
  }

  lemma LastAllowedMeans(rs: seq<Request>, limit: int, window: int)
    requires window > 0 && rs != [] && Nondecreasing(rs)
    ensures var last := rs[|rs| - 1];
            LastAllowed(rs, limit, window) <==> Count(rs, Key(last.name, BucketOf(last.now, window)), window) <= limit
  {
    var last := rs[|rs| - 1];
    var key := Key(last.name, BucketOf(last.now, window));
    BucketSpan(last.now, window);
    CounterIsExact(rs[..|rs| - 1], window, key);
  }

  // The allowed requests of one key.
  function Allowed(rs: seq<Request>, key: Key, limit: int, window: int): nat
    requires window > 0
  {
    if rs == [] then 0
    else
      var last := rs[|rs| - 1];
      Allowed(rs[..|rs| - 1], key, limit, window)
      + if Key(last.name, BucketOf(last.now, window)) == key && LastAllowed(rs, limit, window) then 1 else 0
  }

  function Min(a: int, b: int): int {
    if a < b then a else b
  }

  /** Of n requests of a name in one bucket exactly min(n, limit) are allowed. */
  lemma {:induction false} ExactlyTheLimit(rs: seq<Request>, key: Key, limit: int, window: int)
    requires window > 0 && Nondecreasing(rs)
    ensures Allowed(rs, key, limit, window) == Min(Count(rs, key, window), Max(limit, 0))
  {
    if rs != [] {
      ExactlyTheLimit(rs[..|rs| - 1], key, limit, window);
      LastAllowedMeans(rs, limit, window);
    }
  }

  /* ---------- sliding intervals ---------- */

  // The allowed requests of a name with clock readings from `from` to `from + window`.
  function AllowedDuring(rs: seq<Request>, name: string, from: real, limit: int, window: int): nat
    requires window > 0
  {
    if rs == [] then 0
    else
      var last := rs[|rs| - 1];
      AllowedDuring(rs[..|rs| - 1], name, from, limit, window)
      + if last.name == name && from <= last.now <= from + window as real && LastAllowed(rs, limit, window)
        then 1 else 0
  }

  lemma MultipleGrows(p: int, q: int, window: int)
    requires window > 0 && p <= q
    ensures p * window <= q * window
  {
    assert (q - p) * window >= 0;
  }

  lemma OneMore(n: int, window: int)
    ensures (n + 1) * window == n * window + window
  {
  }

  lemma QuotientSpan(a: int, window: int)
    requires window > 0
    ensures (a / window) * window <= a < (a / window + 1) * window
  {
    assert a == (a / window) * window + a % window;
  }

  lemma QuotientGrows(a: int, b: int, p: int, q: int, window: int)
    requires window > 0 && a <= b <= a + window
    requires p * window <= a < (p + 1) * window && q * window <= b < (q + 1) * window
    ensures p <= q <= p + 1
  {
    if q < p {
      MultipleGrows(q + 1, p, window);
    } else if q > p + 1 {
      OneMore(p + 1, window);
      MultipleGrows(p + 2, q, window);
    }
  }

  lemma TwoBuckets(from: real, now: real, window: int)
    requires window > 0 && from <= now <= from + window as real
    ensures BucketOf(now, window) == BucketOf(from, window) || BucketOf(now, window) == BucketOf(from, window) + 1
  {
    assert from.Floor <= now.Floor <= from.Floor + window;
    QuotientSpan(from.Floor, window);
    QuotientSpan(now.Floor, window);
    QuotientGrows(from.Floor, now.Floor, BucketOf(from, window), BucketOf(now, window), window);
  }

  lemma {:induction false} DuringTwoBuckets(rs: seq<Request>, name: string, from: real, limit: int, window: int)
    requires window > 0
    ensures var b := BucketOf(from, window);
            AllowedDuring(rs, name, from, limit, window)
            <= Allowed(rs, Key(name, b), limit, window) + Allowed(rs, Key(name, b + 1), limit, window)
  {
    if rs != [] {
      var last := rs[|rs| - 1];
      DuringTwoBuckets(rs[..|rs| - 1], name, from, limit, window);
      if from <= last.now <= from + window as real {
        TwoBuckets(from, last.now, window);
      }
    }
  }

  /** Any interval as long as the window admits at most twice the limit. */
  lemma AtMostTwice(rs: seq<Request>, name: string, from: real, limit: int, window: int)
    requires window > 0 && Nondecreasing(rs)
    ensures AllowedDuring(rs, name, from, limit, window) <= 2 * Max(limit, 0)
  {
    DuringTwoBuckets(rs, name, from, limit, window);
    ExactlyTheLimit(rs, Key(name, BucketOf(from, window)), limit, window);
    ExactlyTheLimit(rs, Key(name, BucketOf(from, window) + 1), limit, window);
  }
}
