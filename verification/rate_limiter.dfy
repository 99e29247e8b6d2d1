/** The strategies and the limiter as the source keeps them: maps changed in place. */
module RateLimiting {
  import opened RateSpec

  // Base of the sliding window (limit: maxRequests) and the leaky bucket (limit: queueLimit).
  class WindowLogStrategy {
    const limit: real
    const windowMs: real
    var windows: map<Key, Log>

    constructor (limit: real, windowMs: real)
      ensures View() == Window(limit, windowMs, map[])
    {
      this.limit, this.windowMs, windows := limit, windowMs, map[];
    }

    function View(): Limiter reads this { Window(limit, windowMs, windows) }

    method EvictExpired(log: Log, now: real) returns (left: Log)
      ensures left == Evict(log, windowMs, now)
    {
      left := log;
      while |left.entries| > 0 && now - left.entries[0].timestamp > windowMs
        invariant Evict(left, windowMs, now) == Evict(log, windowMs, now)
        decreases |left.entries|
      {
        left := Log(left.entries[1..], left.total - left.entries[0].cost);
      }
    }

    method Occupy(key: Key, cost: real, now: real) returns (answer: Admission)
      requires Configured(View())
      modifies this
      ensures (View(), answer) == Check(old(View()), key, cost, now)
    {
      if key !in windows { windows := windows[key := NO_ENTRIES]; }
      var log := EvictExpired(windows[key], now);
      windows := windows[key := log];
      assert windows == old(windows)[key := log];
      if log.total + cost > limit { return Refused; }
      answer := Admitted(log.total);
      windows := windows[key := Log(log.entries + [Entry(now, cost)], log.total + cost)];
      assert windows == old(windows)[key := Log(log.entries + [Entry(now, cost)], log.total + cost)];
    }

    method Remaining(key: Key, now: real) returns (left: real)
      requires Configured(View())
      modifies this
      ensures (View(), left) == RateSpec.Remaining(old(View()), key, now)
    {
      if key !in windows { return limit; }
      var log := EvictExpired(windows[key], now);
      windows := windows[key := log];
      left := limit - log.total;
    }

    method Cleanup(now: real)
      requires Configured(View())
      modifies this
      ensures View() == Sweep(old(View()), now)
    {
      var todo := windows.Keys;
      while todo != {}
        invariant todo <= windows.Keys <= old(windows).Keys
        invariant forall k <- todo :: windows[k] == old(windows)[k]
        invariant forall k <- old(windows) :: k !in todo ==>
          (k in windows <==> Evict(old(windows)[k], windowMs, now).entries != [])
        invariant forall k <- windows :: k !in todo ==> windows[k] == Evict(old(windows)[k], windowMs, now)
      {
        var key :| key in todo;
        var log := EvictExpired(windows[key], now);
        windows := if |log.entries| == 0 then windows - {key} else windows[key := log];
        todo := todo - {key};
      }
      assert windows == SweptWindows(old(windows), windowMs, now);
    }

    method Reset(key: Key)
      modifies this
      ensures View() == RateSpec.Reset(old(View()), key)
    {
      windows := windows - {key};
    }
  }

  class FixedWindowStrategy {
    const maxRequests: real
    const windowMs: real
    var counters: map<Key, Counter>

    constructor (maxRequests: real, windowMs: real)
      ensures View() == Fixed(maxRequests, windowMs, map[])
    {
      this.maxRequests, this.windowMs, counters := maxRequests, windowMs, map[];
    }

    function View(): Limiter reads this { Fixed(maxRequests, windowMs, counters) }

    method Check(key: Key, cost: real, now: real) returns (answer: Admission)
      requires Configured(View())
      modifies this
      ensures (View(), answer) == RateSpec.Check(old(View()), key, cost, now)
    {
      var start := WindowStart(windowMs, now);
      var counter := if key in counters then counters[key] else Counter(0.0, start);
      if counter.windowStart != start {
        counter := Counter(0.0, start);
        if key in counters { counters := counters[key := counter]; }
      }
      assert counters == if key in old(counters) then old(counters)[key := counter] else old(counters);
      if counter.count + cost > maxRequests { return Refused; }
      counters := counters[key := counter.(count := counter.count + cost)];
      assert counters == old(counters)[key := counter.(count := counter.count + cost)];
      answer := Admitted(0.0);
    }

    method Remaining(key: Key, now: real) returns (left: real)
      requires Configured(View())
      ensures (View(), left) == RateSpec.Remaining(View(), key, now)
    {
      if key !in counters || counters[key].windowStart != WindowStart(windowMs, now) { return maxRequests; }
      left := maxRequests - counters[key].count;
    }

    method Cleanup(now: real)
      requires Configured(View())
      modifies this
      ensures View() == Sweep(old(View()), now)
    {
      var start := WindowStart(windowMs, now);
      var todo := counters.Keys;
      while todo != {}
        invariant todo <= counters.Keys <= old(counters).Keys
        invariant forall k <- old(counters) :: k !in todo ==> (k in counters <==> old(counters)[k].windowStart == start)
        invariant forall k <- counters :: counters[k] == old(counters)[k]
      {
        var key :| key in todo;
        if counters[key].windowStart != start { counters := counters - {key}; }
        todo := todo - {key};
      }
      assert counters == SweptCounters(old(counters), start);
    }

    method Reset(key: Key)
      modifies this
      ensures View() == RateSpec.Reset(old(View()), key)
    {
      counters := counters - {key};
    }
  }

  class TokenBucketStrategy {
    const bucketSize: real
    const refillRatePerMs: real
    const windowMs: real
    var buckets: map<Key, Bucket>

    constructor (maxRequests: real, windowMs: real, burstable: bool, burstLimit: real)
      requires windowMs > 0.0
      ensures View() == Tokens(if burstable then burstLimit else maxRequests, maxRequests / windowMs, windowMs, map[])
    {
      bucketSize := if burstable then burstLimit else maxRequests;
      refillRatePerMs := maxRequests / windowMs;
      this.windowMs, buckets := windowMs, map[];
    }

    function View(): Limiter reads this { Tokens(bucketSize, refillRatePerMs, windowMs, buckets) }

    method BucketFor(key: Key, now: real) returns (bucket: Bucket)
      requires Configured(View())
      modifies this
      ensures bucket == Refill(BucketOf(old(buckets), key), bucketSize, refillRatePerMs, now)
      ensures buckets == old(buckets)[key := bucket]
    {
      if key !in buckets {
        bucket := Bucket(bucketSize, now);
        buckets := buckets[key := bucket];
        return;
      }
      bucket := buckets[key];
      var tokensToAdd := Earned(bucket.lastRefill, now, refillRatePerMs);
      if tokensToAdd > 0.0 {
        bucket := Bucket(Min(bucketSize, bucket.tokens + tokensToAdd), now);
        buckets := buckets[key := bucket];
      }
      assert buckets == old(buckets)[key := bucket];
    }

    method Check(key: Key, cost: real, now: real) returns (answer: Admission)
      requires Configured(View())
      modifies this
      ensures (View(), answer) == RateSpec.Check(old(View()), key, cost, now)
    {
      var bucket := BucketFor(key, now);
      if bucket.tokens < cost { return Refused; }
      buckets := buckets[key := bucket.(tokens := bucket.tokens - cost)];
      assert buckets == old(buckets)[key := bucket.(tokens := bucket.tokens - cost)];
      answer := Admitted(0.0);
    }

    method Remaining(key: Key, now: real) returns (left: real)
      requires Configured(View())
      modifies this
      ensures (View(), left) == RateSpec.Remaining(old(View()), key, now)
    {
      var bucket := BucketFor(key, now);
      left := bucket.tokens.Floor as real;
    }

    method Cleanup(now: real)
      requires Configured(View())
      modifies this
      ensures View() == Sweep(old(View()), now)
    {
      var todo := buckets.Keys;
      while todo != {}
        invariant todo <= buckets.Keys <= old(buckets).Keys
        invariant forall k <- old(buckets) :: k !in todo ==>
          (k in buckets <==> now - old(buckets)[k].lastRefill <= windowMs * 2.0)
        invariant forall k <- buckets :: buckets[k] == old(buckets)[k]
      {
        var key :| key in todo;
        if now - buckets[key].lastRefill > windowMs * 2.0 { buckets := buckets - {key}; }
        todo := todo - {key};
      }
      assert buckets == SweptBuckets(old(buckets), windowMs, now);
    }

    method Reset(key: Key)
      modifies this
      ensures View() == RateSpec.Reset(old(View()), key)
    {
      buckets := buckets - {key};
    }
  }

  // The strategy object chosen at construction.
  datatype Strategy =
    | Logged(log: WindowLogStrategy)
    | Counted(counter: FixedWindowStrategy)
    | Bucketed(bucket: TokenBucketStrategy)
  {
    function Objects(): set<object> {
      match this
      case Logged(o) => {o}
      case Counted(o) => {o}
      case Bucketed(o) => {o}
    }
  }

  class RateLimiter {
    const strategy: Strategy
    var blocked: map<Key, real>

    constructor (strategy: Strategy)
      ensures this.strategy == strategy && blocked == map[]
    {
      this.strategy, blocked := strategy, map[];
    }

    function View(): State
      reads this, strategy.Objects()
    {
      match strategy
      case Logged(o) => State(o.View(), blocked)
      case Counted(o) => State(o.View(), blocked)
      case Bucketed(o) => State(o.View(), blocked)
    }

    predicate Valid()
      reads this, strategy.Objects()
    {
      this !in strategy.Objects() && Configured(View().limiter)
    }

    method StrategyCheck(key: Key, cost: real, now: real) returns (admission: Admission)
      requires Valid()
      modifies strategy.Objects()
      ensures Valid() && (View().limiter, admission) == Check(old(View().limiter), key, cost, now)
    {
      match strategy
      case Logged(o) => admission := o.Occupy(key, cost, now);
      case Counted(o) => admission := o.Check(key, cost, now);
      case Bucketed(o) => admission := o.Check(key, cost, now);
    }

    method StrategyRemaining(key: Key, now: real) returns (left: real)
      requires Valid()
      modifies strategy.Objects()
      ensures Valid() && (View().limiter, left) == Remaining(old(View().limiter), key, now)
    {
      match strategy
      case Logged(o) => left := o.Remaining(key, now);
      case Counted(o) => left := o.Remaining(key, now);
      case Bucketed(o) => left := o.Remaining(key, now);
    }

    method CheckRateLimit(key: Key, cost: real, now: real) returns (answer: Answer)
      requires Valid()
      modifies this, strategy.Objects()
      ensures Valid() && (View(), answer) == Apply(old(View()), RateSpec.CheckRateLimit(key, cost, now))
    {
      if cost > Capacity(View().limiter) { return Unsatisfiable; }
      if key in blocked {
        if now >= blocked[key] { blocked := blocked - {key}; }
        else { return Blocked(blocked[key] - now); }
      }
      assert blocked == old(blocked) - {key};
      var admission := StrategyCheck(key, cost, now);
      answer := Decided(admission);
    }

    method GetRemainingTokens(key: Key, now: real) returns (left: real)
      requires Valid()
      modifies strategy.Objects()
      ensures Valid() && (View(), Left(left)) == Apply(old(View()), GetRemaining(key, now))
    {
      left := StrategyRemaining(key, now);
    }

    method GetStatus(key: Key, now: real) returns (left: real, isBlocked: bool)
      requires Valid()
      modifies strategy.Objects()
      ensures Valid() && (View(), Status(left, isBlocked)) == Apply(old(View()), RateSpec.GetStatus(key, now))
    {
      isBlocked := key in blocked && blocked[key] > now;
      left := StrategyRemaining(key, now);
    }

    method BlockKey(key: Key, duration: real, now: real)
      requires Valid()
      modifies this
      ensures Valid() && View() == Apply(old(View()), RateSpec.BlockKey(key, duration, now)).0
    {
      blocked := blocked[key := now + duration];
    }

    method Reset(key: Key, now: real)
      requires Valid()
      modifies this, strategy.Objects()
      ensures Valid() && View() == Apply(old(View()), ResetKey(key, now)).0
    {
      match strategy {
        case Logged(o) => o.Reset(key);
        case Counted(o) => o.Reset(key);
        case Bucketed(o) => o.Reset(key);
      }
      blocked := blocked - {key};
    }

    method SweepStrategy(now: real)
      requires Valid()
      modifies strategy.Objects()
      ensures Valid() && View().limiter == Sweep(old(View().limiter), now)
    {
      match strategy
      case Logged(o) => o.Cleanup(now);
      case Counted(o) => o.Cleanup(now);
      case Bucketed(o) => o.Cleanup(now);
    }

    method Cleanup(now: real)
      requires Valid()
      modifies this, strategy.Objects()
      ensures Valid() && View() == Apply(old(View()), RateSpec.Cleanup(now)).0
    {
      SweepStrategy(now);
      UnblockExpiredKeys(now);
    }

    method UnblockExpiredKeys(now: real)
      requires Valid()
      modifies this
      ensures Valid() && blocked == UnblockExpired(old(blocked), now)
    {
      var todo := blocked.Keys;
      while todo != {}
        invariant Valid() && todo <= blocked.Keys <= old(blocked).Keys
        invariant forall k <- old(blocked) :: k !in todo ==> (k in blocked <==> now < old(blocked)[k])
        invariant forall k <- blocked :: blocked[k] == old(blocked)[k]
      {
        var key :| key in todo;
        if now >= blocked[key] { blocked := blocked - {key}; }
        todo := todo - {key};
      }
      assert blocked == UnblockExpired(old(blocked), now);
    }
  }
}
