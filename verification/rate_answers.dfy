/** Answers of the limiter that no bound or simulation fixes: blocking, resetting, impossible
    costs, what a sweep drops, and what a fixed window is. */
module RateAnswers {
  import opened RateSpec
  import opened RateSweep
  import opened RateTransparency
  import opened RateWindows

  /** A cost above the capacity is refused as impossible, whatever the state; no other is. */
  lemma {:induction false} ImpossibleExactly(s: State, key: Key, cost: real, now: real)
    requires Configured(s.limiter)
    ensures Apply(s, CheckRateLimit(key, cost, now)).1.Unsatisfiable? <==>
              match s.limiter
              case Window(limit, _, _) => cost > limit
              case Fixed(max, _, _) => cost > max
              case Tokens(size, _, _, _) => cost > size
    ensures var (t, answer) := Apply(s, CheckRateLimit(key, cost, now)); answer.Unsatisfiable? ==> t == s
  {
  }

  // The operation neither blocks nor resets the key, nor looks at it after the block is over.
  predicate LeavesBlocked(op: Op, key: Key, until: real) {
    (op.BlockKey? || op.ResetKey? ==> op.key != key) && op.now < until
  }

  lemma {:induction false} BlockStays(s: State, op: Op, key: Key, until: real)
    requires Configured(s.limiter) && key in s.blocked && s.blocked[key] == until && LeavesBlocked(op, key, until)
    ensures var t := Apply(s, op).0; key in t.blocked && t.blocked[key] == until
  {
  }

  lemma {:induction false} RunStaysBlocked(s: State, ops: seq<Op>, key: Key, until: real)
    requires Configured(s.limiter) && key in s.blocked && s.blocked[key] == until
    requires forall op <- ops :: LeavesBlocked(op, key, until)
    ensures var t := Run(s, ops); key in t.blocked && t.blocked[key] == until
    decreases |ops|
  {
    if ops != [] {
      assert ops[0] in ops && forall op <- ops[1..] :: op in ops;
      BlockStays(s, ops[0], key, until);
      RunStaysBlocked(Apply(s, ops[0]).0, ops[1..], key, until);
    }
  }

  /** A blocked key is refused until its block is over, whatever else happens to other keys and
      however often the sweep runs; then, and only then, the strategy decides again. */
  lemma {:induction false} BlockedExactly(
    s: State, key: Key, duration: real, at: real, ops: seq<Op>, cost: real, now: real)
    requires Configured(s.limiter)
    requires forall op <- ops :: LeavesBlocked(op, key, at + duration)
    ensures var t := Run(Apply(s, BlockKey(key, duration, at)).0, ops);
            var answer := Apply(t, CheckRateLimit(key, cost, now)).1;
            !answer.Unsatisfiable? ==>
              if now < at + duration then answer == Blocked(at + duration - now)
              else answer == Decided(Check(t.limiter, key, cost, now).1)
  {
    RunStaysBlocked(Apply(s, BlockKey(key, duration, at)).0, ops, key, at + duration);
  }

  /** A check that reaches the strategy forgets the key's expired block, and no other. */
  lemma {:induction false} CheckUnblocks(s: State, key: Key, cost: real, now: real)
    requires Configured(s.limiter)
    ensures var (t, answer) := Apply(s, CheckRateLimit(key, cost, now));
            t.blocked == if answer.Decided? then s.blocked - {key} else s.blocked
  {
  }

  /** A reset gives the key back its full capacity, unblocked, and changes no other key. */
  lemma {:induction false} ResetRestores(s: State, key: Key, at: real, now: real)
    requires Configured(s.limiter) && Tidy(s.limiter, now)
    ensures var t := Apply(s, ResetKey(key, at)).0;
            (!s.limiter.Tokens? ==> Apply(t, GetRemaining(key, now)).1 == Left(Capacity(s.limiter))) &&
            (s.limiter.Tokens? ==> Apply(t, GetRemaining(key, now)).1 == Left(s.limiter.bucketSize.Floor as real)) &&
            Apply(t, GetStatus(key, now)).1.isBlocked == false
    ensures var t := Apply(s, ResetKey(key, at)).0;
            forall k: Key :: k != key ==>
              At(t.limiter, k, now) == At(s.limiter, k, now) && BlockAt(t.blocked, k, now) == BlockAt(s.blocked, k, now)
  {
    forall k: Key
      ensures At(Reset(s.limiter, key), k, now) == if k == key then Blank(s.limiter) else At(s.limiter, k, now)
    {
      ResetAt(s.limiter, key, now, k);
    }
  }

  lemma {:induction false} EvictKeepsYoung(log: Log, windowMs: real, now: real, e: Entry)
    requires Ordered(log.entries, now) && e in Evict(log, windowMs, now).entries
    ensures now - e.timestamp <= windowMs
    decreases |log.entries|
  {
    if log.entries != [] {
      if now - log.entries[0].timestamp > windowMs {
        OrderedTail(log.entries, now);
        EvictKeepsYoung(Log(log.entries[1..], log.total - log.entries[0].cost), windowMs, now, e);
      } else {
        var i: nat :| i < |log.entries| && log.entries[i] == e;
        OrderedEntry(log.entries, now, i);
      }
    }
  }

  /** The sweep bounds memory: it keeps only logs with an entry of the last window, counters of
      the current one, buckets read within two windows, and blocks that still hold. */
  lemma {:induction false} SweepDropsTheRest(s: State, now: real, k: Key)
    requires Configured(s.limiter)
    requires s.limiter.Window? ==> forall key <- s.limiter.windows :: Ordered(s.limiter.windows[key].entries, now)
    ensures var t := Apply(s, Cleanup(now)).0;
            match t.limiter
            case Window(_, windowMs, windows) =>
              k in windows ==> exists e <- windows[k].entries :: now - e.timestamp <= windowMs
            case Fixed(_, windowMs, counters) => k in counters ==> counters[k].windowStart == WindowStart(windowMs, now)
            case Tokens(_, _, windowMs, buckets) => k in buckets ==> now - buckets[k].lastRefill <= windowMs * 2.0
    ensures var t := Apply(s, Cleanup(now)).0; k in t.blocked ==> now < t.blocked[k]
  {
    var t := Apply(s, Cleanup(now)).0;
    if s.limiter.Window? && k in t.limiter.windows {
      var e := t.limiter.windows[k].entries[0];
      EvictKeepsYoung(s.limiter.windows[k], s.limiter.windowMs, now, e);
      assert e in t.limiter.windows[k].entries;
    }
  }

  // ---------- what a fixed window is ----------

  // The n-th window since the epoch.
  predicate InWindow(windowMs: real, n: int, at: real) {
    n as real * windowMs <= at < (n + 1) as real * windowMs
  }

  lemma {:induction false} FloorTimes(windowMs: real, at: real)
    requires windowMs > 0.0
    ensures InWindow(windowMs, (at / windowMs).Floor, at)
  {
    var q := at / windowMs;
    assert q * windowMs == at;
    MultiplyMonotone(q.Floor as real, q, windowMs);
    MultiplyStrict(q, (q.Floor + 1) as real, windowMs);
  }

  lemma {:induction false} OneWindow(windowMs: real, m: int, n: int, at: real)
    requires windowMs > 0.0 && InWindow(windowMs, m, at) && InWindow(windowMs, n, at)
    ensures m == n
  {
    if m < n { MultiplyMonotone((m + 1) as real, n as real, windowMs); }
    if n < m { MultiplyMonotone((n + 1) as real, m as real, windowMs); }
  }

  /** Two instants share a fixed window exactly when one multiple of windowMs and the next
      enclose both. */
  lemma {:induction false} SharedWindowExactly(l: Limiter, timestamp: real, now: real)
    requires Configured(l) && l.Fixed?
    ensures InScope(l, timestamp, now) <==>
              exists n :: InWindow(l.windowMs, n, timestamp) && InWindow(l.windowMs, n, now)
  {
    var m, n := (timestamp / l.windowMs).Floor, (now / l.windowMs).Floor;
    FloorTimes(l.windowMs, timestamp);
    FloorTimes(l.windowMs, now);
    if InScope(l, timestamp, now) {
      SameProduct(m, n, l.windowMs);
    } else if k :| InWindow(l.windowMs, k, timestamp) && InWindow(l.windowMs, k, now) {
      OneWindow(l.windowMs, k, m, timestamp);
      OneWindow(l.windowMs, k, n, now);
    }
  }

  lemma {:induction false} SameProduct(m: int, n: int, windowMs: real)
    requires windowMs > 0.0 && m as real * windowMs == n as real * windowMs
    ensures m == n
  {
    if m < n { MultiplyStrict(m as real, n as real, windowMs); }
    if n < m { MultiplyStrict(n as real, m as real, windowMs); }
  }

  // The cost admitted from one multiple of windowMs up to the next.
  function SpentInWindow(history: seq<Entry>, windowMs: real, n: int): real {
    if history == [] then 0.0
    else
      var last := history[|history| - 1];
      SpentInWindow(history[..|history| - 1], windowMs, n) +
      (if InWindow(windowMs, n, last.timestamp) then last.cost else 0.0)
  }

  lemma {:induction false} SpentIsUsage(l: Limiter, h: seq<Entry>, n: int, probe: real)
    requires Configured(l) && l.Fixed? && InWindow(l.windowMs, n, probe)
    ensures SpentInWindow(h, l.windowMs, n) == Usage(l, h, probe)
  {
    if h != [] {
      var last := h[|h| - 1];
      SpentIsUsage(l, h[..|h| - 1], n, probe);
      assert h[..|h| - 1] + [last] == h;
      UsageAppend(l, h[..|h| - 1], last, probe);
      SharedWindowExactly(l, last.timestamp, probe);
      if m :| InWindow(l.windowMs, m, last.timestamp) && InWindow(l.windowMs, m, probe) {
        OneWindow(l.windowMs, m, n, probe);
      }
    }
  }

  /** Between any multiple of windowMs and the next, a fixed window admits at most maxRequests,
      over every run without a reset of the key. */
  lemma {:induction false} FixedWindowBound(l: Limiter, ops: seq<Op>, key: Key, n: int)
    requires Configured(l) && l.Fixed? && Untouched(l) && Ordinary(ops) && NeverReset(ops, key)
    ensures SpentInWindow(Granted(State(l, map[]), ops, key), l.windowMs, n) <= l.maxRequests
  {
    var probe := n as real * l.windowMs;
    MultiplyStrict(n as real, (n + 1) as real, l.windowMs);
    AdmissionsBounded(l, ops, key);
    SpentIsUsage(l, Granted(State(l, map[]), ops, key), n, probe);
  }
}
