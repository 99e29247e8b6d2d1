/** The background sweep only bounds memory: no later answer depends on it. */
module RateSweep {
  import opened Wrappers
  import opened RateSpec

  // What is left of a key's state at time `now`, which is all that later answers read.
  datatype Residue = OfLog(log: Log) | OfCounter(count: real) | OfBucket(tokens: real)

  function At(l: Limiter, key: Key, now: real): Residue
    requires Configured(l)
  {
    match l
    case Window(_, windowMs, windows) => OfLog(Evict(LogOf(windows, key), windowMs, now))
    case Fixed(_, windowMs, counters) => OfCounter(CounterAt(counters, key, WindowStart(windowMs, now)).count)
    case Tokens(size, rate, windowMs, buckets) => OfBucket(Refill(BucketOf(buckets, key), size, rate, now).tokens)
  }

  function BlockAt(blocked: map<Key, real>, key: Key, now: real): Option<real> {
    if key in blocked && now < blocked[key] then Some(blocked[key]) else None
  }

  predicate Honest(log: Log) { log.total == Total(log.entries) }

  /** The state that operations on a monotone clock leave behind, at time `now`. */
  predicate Tidy(l: Limiter, now: real)
    requires Configured(l)
  {
    match l
    case Window(_, _, windows) => forall k <- windows :: Honest(windows[k])
    case Fixed(_, windowMs, counters) => forall k <- counters :: counters[k].windowStart <= WindowStart(windowMs, now)
    case Tokens(size, _, _, buckets) =>
      forall k <- buckets :: buckets[k].lastRefill <= now && 0.0 <= buckets[k].tokens <= size
  }

  // The bucket refills completely within the two windows the sweep waits.
  predicate RefillsInTime(l: Limiter) { l.Tokens? ==> l.bucketSize <= Earned(0.0, l.windowMs * 2.0, l.refillRate) }

  predicate SameSettings(a: Limiter, b: Limiter) {
    match a
    case Window(limit, w, _) => b.Window? && b.limit == limit && b.windowMs == w
    case Fixed(max, w, _) => b.Fixed? && b.maxRequests == max && b.windowMs == w
    case Tokens(size, rate, w, _) => b.Tokens? && b.bucketSize == size && b.refillRate == rate && b.windowMs == w
  }

  ghost predicate Alike(a: State, b: State, now: real)
    requires Configured(a.limiter) && Configured(b.limiter)
  {
    SameSettings(a.limiter, b.limiter) &&
    (forall k: Key :: At(a.limiter, k, now) == At(b.limiter, k, now)) &&
    (forall k: Key :: BlockAt(a.blocked, k, now) == BlockAt(b.blocked, k, now))
  }

  // ---------- eviction ----------

  lemma {:induction false} TotalFront(entries: seq<Entry>)
    requires entries != []
    ensures Total(entries) == entries[0].cost + Total(entries[1..])
  {
    if |entries| > 1 {
      var n := |entries| - 1;
      TotalFront(entries[..n]);
      assert entries[1..][..n - 1] == entries[..n][1..];
    }
  }

  lemma {:induction false} EvictHonest(log: Log, windowMs: real, now: real)
    requires Honest(log)
    ensures Honest(Evict(log, windowMs, now))
    decreases |log.entries|
  {
    if log.entries != [] && now - log.entries[0].timestamp > windowMs {
      TotalFront(log.entries);
      EvictHonest(Log(log.entries[1..], log.total - log.entries[0].cost), windowMs, now);
    }
  }

  lemma {:induction false} EvictLater(log: Log, windowMs: real, then_: real, now: real)
    requires then_ <= now
    ensures Evict(Evict(log, windowMs, then_), windowMs, now) == Evict(log, windowMs, now)
    decreases |log.entries|
  {
    if log.entries != [] && then_ - log.entries[0].timestamp > windowMs {
      EvictLater(Log(log.entries[1..], log.total - log.entries[0].cost), windowMs, then_, now);
    }
  }

  lemma {:induction false} WindowStartMonotone(windowMs: real, then_: real, now: real)
    requires windowMs > 0.0 && then_ <= now
    ensures WindowStart(windowMs, then_) <= WindowStart(windowMs, now)
  {
    DivideMonotone(then_, now, windowMs);
    MultiplyMonotone((then_ / windowMs).Floor as real, (now / windowMs).Floor as real, windowMs);
  }

  lemma {:induction false} DivideMonotone(a: real, b: real, w: real)
    requires w > 0.0 && a <= b
    ensures a / w <= b / w
  {
    assert (b - a) / w >= 0.0;
    assert b / w == a / w + (b - a) / w;
  }

  lemma {:induction false} EarnedMore(span: real, from: real, to: real, rate: real)
    requires rate > 0.0 && span < to - from
    ensures Earned(0.0, span, rate) < Earned(from, to, rate)
  {
    MultiplyStrict(span, to - from, rate);
  }

  lemma {:induction false} MultiplyStrict(a: real, b: real, w: real)
    requires w > 0.0 && a < b
    ensures a * w < b * w
  {
  }

  lemma {:induction false} MultiplyMonotone(a: real, b: real, w: real)
    requires w > 0.0 && a <= b
    ensures a * w <= b * w
  {
  }

  // ---------- time passes ----------

  // The residue at a later time is a function of the residue now.
  function Aged(l: Limiter, r: Residue, then_: real, now: real): Residue
    requires Configured(l)
  {
    match r
    case OfLog(log) => OfLog(Evict(log, l.windowMs, now))
    case OfCounter(count) =>
      if WindowStart(l.windowMs, then_) == WindowStart(l.windowMs, now) then r else OfCounter(0.0)
    case OfBucket(tokens) =>
      if l.Tokens? then OfBucket(Min(l.bucketSize, tokens + Earned(then_, now, l.refillRate))) else r
  }

  lemma {:induction false} BucketAges(l: Limiter, key: Key, then_: real, now: real)
    requires Configured(l) && l.Tokens? && Tidy(l, then_) && then_ <= now
    ensures At(l, key, now) == Aged(l, At(l, key, then_), then_, now)
  {
    if key in l.buckets { RefillsCompose(l.buckets[key], l.bucketSize, l.refillRate, then_, now); }
    else { EarnedSign(then_, now, l.refillRate); }
  }

  lemma {:induction false} CounterAges(l: Limiter, key: Key, then_: real, now: real)
    requires Configured(l) && l.Fixed? && Tidy(l, then_) && then_ <= now
    ensures At(l, key, now) == Aged(l, At(l, key, then_), then_, now)
  {
    WindowStartMonotone(l.windowMs, then_, now);
  }

  lemma {:induction false} ResidueAges(l: Limiter, key: Key, then_: real, now: real)
    requires Configured(l) && Tidy(l, then_) && then_ <= now
    ensures At(l, key, now) == Aged(l, At(l, key, then_), then_, now)
  {
    match l
    case Window(_, windowMs, windows) => EvictLater(LogOf(windows, key), windowMs, then_, now);
    case Fixed(_, windowMs, counters) => CounterAges(l, key, then_, now);
    case Tokens(size, rate, windowMs, buckets) => BucketAges(l, key, then_, now);
  }

  lemma {:induction false} EarnedSign(from: real, to: real, rate: real)
    requires rate > 0.0
    ensures Earned(from, to, rate) > 0.0 <==> to > from
    ensures from == to ==> Earned(from, to, rate) == 0.0
  {
    if to < from { assert (from - to) * rate > 0.0; }
  }

  lemma {:induction false} EarnedAdds(a: real, b: real, c: real, rate: real)
    ensures Earned(a, c, rate) == Earned(a, b, rate) + Earned(b, c, rate)
  {
  }

  lemma {:induction false} RefillsCompose(b: Bucket, size: real, rate: real, then_: real, now: real)
    requires rate > 0.0 && b.lastRefill <= then_ <= now && b.tokens <= size
    ensures Refill(Some(b), size, rate, now).tokens
         == Min(size, Refill(Some(b), size, rate, then_).tokens + Earned(then_, now, rate))
  {
    EarnedSign(b.lastRefill, then_, rate);
    EarnedSign(then_, now, rate);
    EarnedSign(b.lastRefill, now, rate);
    EarnedAdds(b.lastRefill, then_, now, rate);
  }

  lemma {:induction false} TidyLater(l: Limiter, then_: real, now: real)
    requires Configured(l) && Tidy(l, then_) && then_ <= now
    ensures Tidy(l, now)
  {
    if l.Fixed? { WindowStartMonotone(l.windowMs, then_, now); }
  }

  lemma {:induction false} SameResidueLater(a: Limiter, b: Limiter, key: Key, then_: real, now: real)
    requires Configured(a) && Configured(b) && SameSettings(a, b)
    requires Tidy(a, then_) && Tidy(b, then_) && then_ <= now
    requires At(a, key, then_) == At(b, key, then_)
    ensures At(a, key, now) == At(b, key, now)
  {
    ResidueAges(a, key, then_, now);
    ResidueAges(b, key, then_, now);
    AgedAlike(a, b, At(a, key, then_), then_, now);
  }

  lemma {:induction false} AgedAlike(a: Limiter, b: Limiter, r: Residue, then_: real, now: real)
    requires Configured(a) && Configured(b) && SameSettings(a, b)
    ensures Aged(a, r, then_, now) == Aged(b, r, then_, now)
  {
  }

  lemma {:induction false} SameBlockLater(a: map<Key, real>, b: map<Key, real>, key: Key, then_: real, now: real)
    requires then_ <= now && BlockAt(a, key, then_) == BlockAt(b, key, then_)
    ensures BlockAt(a, key, now) == BlockAt(b, key, now)
  {
  }

  lemma {:induction false} AlikeLater(a: State, b: State, then_: real, now: real)
    requires Configured(a.limiter) && Configured(b.limiter)
    requires Tidy(a.limiter, then_) && Tidy(b.limiter, then_) && then_ <= now
    requires Alike(a, b, then_)
    ensures Alike(a, b, now)
  {
    forall k: Key
      ensures At(a.limiter, k, now) == At(b.limiter, k, now)
    {
      SameResidueLater(a.limiter, b.limiter, k, then_, now);
    }
    forall k: Key
      ensures BlockAt(a.blocked, k, now) == BlockAt(b.blocked, k, now)
    {
      SameBlockLater(a.blocked, b.blocked, k, then_, now);
    }
  }

  // ---------- one operation ----------

  lemma {:induction false} AppendTotal(entries: seq<Entry>, e: Entry)
    ensures Total(entries + [e]) == Total(entries) + e.cost
  {
    assert (entries + [e])[..|entries|] == entries;
  }

  lemma {:induction false} RefillBounded(b: Option<Bucket>, size: real, rate: real, now: real)
    requires rate > 0.0 && size >= 0.0
    requires b.Some? ==> b.value.lastRefill <= now && 0.0 <= b.value.tokens <= size
    ensures 0.0 <= Refill(b, size, rate, now).tokens <= size
    ensures Refill(b, size, rate, now).lastRefill <= now
  {
    if b.Some? { EarnedSign(b.value.lastRefill, now, rate); }
  }

  lemma {:induction false} Settled(b: Option<Bucket>, size: real, rate: real, now: real)
    requires rate > 0.0 && (b.Some? ==> b.value.lastRefill <= now)
    ensures Earned(Refill(b, size, rate, now).lastRefill, now, rate) <= 0.0
  {
    EarnedSign(now, now, rate);
  }

  // The verdict of a check, and what it leaves, read off the residue alone.
  function Judge(l: Limiter, r: Residue, cost: real, now: real): (Residue, Admission)
    requires Configured(l)
  {
    match r
    case OfLog(log) =>
      if !l.Window? then (r, Refused)
      else
        var (after, answer) := Occupied(log, l.limit, cost, now);
        (OfLog(after), answer)
    case OfCounter(count) =>
      if l.Fixed? && count + cost <= l.maxRequests then (OfCounter(count + cost), Admitted(0.0)) else (r, Refused)
    case OfBucket(tokens) =>
      if tokens < cost then (r, Refused) else (OfBucket(tokens - cost), Admitted(0.0))
  }

  lemma {:induction false} EvictSame(log: Log, windowMs: real, cost: real, now: real)
    requires windowMs > 0.0
    ensures var e := Evict(log, windowMs, now);
            Evict(Log(e.entries + [Entry(now, cost)], e.total + cost), windowMs, now)
            == Log(e.entries + [Entry(now, cost)], e.total + cost)
    decreases |log.entries|
  {
    if log.entries != [] && now - log.entries[0].timestamp > windowMs {
      EvictSame(Log(log.entries[1..], log.total - log.entries[0].cost), windowMs, cost, now);
    } else if log.entries != [] {
      assert (log.entries + [Entry(now, cost)])[0] == log.entries[0];
    }
  }

  lemma {:induction false} CheckAt(l: Limiter, key: Key, cost: real, now: real, k: Key)
    requires Configured(l) && Tidy(l, now)
    ensures Configured(Check(l, key, cost, now).0)
    ensures Check(l, key, cost, now).1 == Judge(l, At(l, key, now), cost, now).1
    ensures At(Check(l, key, cost, now).0, k, now)
         == if k == key then Judge(l, At(l, key, now), cost, now).0 else At(l, k, now)
  {
    match l
    case Window(limit, windowMs, windows) =>
      EvictSame(LogOf(windows, key), windowMs, cost, now);
      EvictLater(LogOf(windows, key), windowMs, now, now);
    case Fixed(max, windowMs, counters) =>
    case Tokens(size, rate, windowMs, buckets) =>
      Settled(BucketOf(buckets, key), size, rate, now);
  }

  lemma {:induction false} CheckTidy(l: Limiter, key: Key, cost: real, now: real)
    requires Configured(l) && Tidy(l, now) && cost >= 0.0
    ensures Tidy(Check(l, key, cost, now).0, now) && SameSettings(l, Check(l, key, cost, now).0)
  {
    match l
    case Window(limit, windowMs, windows) =>
      EvictHonest(LogOf(windows, key), windowMs, now);
      AppendTotal(Evict(LogOf(windows, key), windowMs, now).entries, Entry(now, cost));
    case Fixed(max, windowMs, counters) =>
    case Tokens(size, rate, windowMs, buckets) =>
      RefillBounded(BucketOf(buckets, key), size, rate, now);
  }

  function LeftOf(l: Limiter, r: Residue): real {
    match r
    case OfLog(log) => if l.Window? then l.limit - log.total else 0.0
    case OfCounter(count) => if l.Fixed? then l.maxRequests - count else 0.0
    case OfBucket(tokens) => tokens.Floor as real
  }

  lemma {:induction false} RemainingAt(l: Limiter, key: Key, now: real, k: Key)
    requires Configured(l) && Tidy(l, now)
    ensures Configured(Remaining(l, key, now).0)
    ensures Remaining(l, key, now).1 == LeftOf(l, At(l, key, now))
    ensures At(Remaining(l, key, now).0, k, now) == At(l, k, now)
  {
    match l
    case Window(limit, windowMs, windows) => EvictLater(LogOf(windows, key), windowMs, now, now);
    case Fixed(max, windowMs, counters) =>
    case Tokens(size, rate, windowMs, buckets) =>
      Settled(BucketOf(buckets, key), size, rate, now);
  }

  lemma {:induction false} RemainingTidy(l: Limiter, key: Key, now: real)
    requires Configured(l) && Tidy(l, now)
    ensures Tidy(Remaining(l, key, now).0, now) && SameSettings(l, Remaining(l, key, now).0)
  {
    match l
    case Window(limit, windowMs, windows) => EvictHonest(LogOf(windows, key), windowMs, now);
    case Fixed(max, windowMs, counters) =>
    case Tokens(size, rate, windowMs, buckets) =>
      RefillBounded(BucketOf(buckets, key), size, rate, now);
  }

  // What the sweep drops had nothing left to say.
  lemma {:induction false} SweepAt(l: Limiter, now: real, k: Key)
    requires Configured(l) && Tidy(l, now) && RefillsInTime(l)
    ensures At(Sweep(l, now), k, now) == At(l, k, now)
  {
    match l
    case Window(_, windowMs, windows) =>
      EvictLater(LogOf(windows, k), windowMs, now, now);
      EvictHonest(LogOf(windows, k), windowMs, now);
    case Fixed(_, windowMs, counters) =>
    case Tokens(size, rate, windowMs, buckets) =>
      if k in buckets && now - buckets[k].lastRefill > windowMs * 2.0 {
          var last := buckets[k].lastRefill;
        EarnedMore(windowMs * 2.0, last, now, rate);
        EarnedSign(last, now, rate);
      }
  }

  lemma {:induction false} SweepTidy(l: Limiter, now: real)
    requires Configured(l) && Tidy(l, now)
    ensures Tidy(Sweep(l, now), now) && SameSettings(l, Sweep(l, now))
  {
    if l.Window? {
      forall k <- l.windows
        ensures Honest(Evict(l.windows[k], l.windowMs, now))
      {
        EvictHonest(l.windows[k], l.windowMs, now);
      }
    }
  }

  lemma {:induction false} ApplyTidy(s: State, op: Op)
    requires Configured(s.limiter) && Tidy(s.limiter, op.now)
    requires op.CheckRateLimit? ==> op.cost >= 0.0
    ensures Tidy(Apply(s, op).0.limiter, op.now) && SameSettings(s.limiter, Apply(s, op).0.limiter)
  {
    match op
    case CheckRateLimit(key, cost, now) => CheckTidy(s.limiter, key, cost, now);
    case GetRemaining(key, now) => RemainingTidy(s.limiter, key, now);
    case GetStatus(key, now) => RemainingTidy(s.limiter, key, now);
    case BlockKey(_, _, _) =>
    case ResetKey(_, _) =>
    case Cleanup(now) => SweepTidy(s.limiter, now);
  }
}
