/** The token bucket's bound, under any clock at all, and what `remaining` promises. */
module RateTokens {
  import opened Wrappers
  import opened RateSpec
  import opened RateSweep

  // Neither swept nor reset.
  predicate Plain(op: Op, key: Key) {
    !op.Cleanup? && (op.ResetKey? ==> op.key != key) && (op.CheckRateLimit? ==> op.cost >= 0.0)
  }

  predicate InBounds(l: Limiter) {
    l.Tokens? ==> forall k <- l.buckets :: 0.0 <= l.buckets[k].tokens <= l.bucketSize
  }

  // The operation reads the bucket of `key`.
  predicate Touches(s: State, op: Op, key: Key) {
    match op
    case CheckRateLimit(k, cost, now) =>
      k == key && cost <= Capacity(s.limiter) && (key in s.blocked ==> s.blocked[key] <= now)
    case GetRemaining(k, _) => k == key
    case GetStatus(k, _) => k == key
    case _ => false
  }

  // The clock values at which a run reads the bucket of `key`.
  function Clocks(s: State, ops: seq<Op>, key: Key): seq<real>
    requires Configured(s.limiter)
    decreases |ops|
  {
    if ops == [] then []
    else (if Touches(s, ops[0], key) then [ops[0].now] else []) + Clocks(Apply(s, ops[0]).0, ops[1..], key)
  }

  function Largest(seen: real, clocks: seq<real>): real
    decreases |clocks|
  {
    if clocks == [] then seen else Largest(if clocks[0] > seen then clocks[0] else seen, clocks[1..])
  }

  /** The refill earned while the largest clock value seen moves on; the first value ever
      seen opens the bucket. */
  function Accrued(seen: Option<real>, clocks: seq<real>, rate: real): real {
    if seen.Some? then Earned(seen.value, Largest(seen.value, clocks), rate)
    else if clocks == [] then 0.0
    else Earned(clocks[0], Largest(clocks[0], clocks[1..]), rate)
  }

  function Seen(l: Limiter, key: Key): Option<real> {
    if l.Tokens? && key in l.buckets then Some(l.buckets[key].lastRefill) else None
  }

  function TokensOf(l: Limiter, key: Key): real {
    if !l.Tokens? then 0.0 else if key in l.buckets then l.buckets[key].tokens else l.bucketSize
  }

  function Later(seen: Option<real>, now: real): real {
    if seen.Some? && seen.value >= now then seen.value else now
  }

  function AccruedNow(seen: Option<real>, now: real, rate: real): real {
    if seen.Some? then Earned(seen.value, Later(seen, now), rate) else 0.0
  }

  lemma {:induction false} LargestAtLeast(seen: real, clocks: seq<real>)
    ensures Largest(seen, clocks) >= seen
    ensures forall c <- clocks :: c <= Largest(seen, clocks)
    ensures Largest(seen, clocks) == seen || Largest(seen, clocks) in clocks
    decreases |clocks|
  {
    if clocks != [] {
      LargestAtLeast(if clocks[0] > seen then clocks[0] else seen, clocks[1..]);
      assert clocks == [clocks[0]] + clocks[1..];
    }
  }

  // One read of the bucket: what is spent comes out of the balance and the time gained.
  lemma {:induction false} RefillGains(b: Option<Bucket>, size: real, rate: real, now: real)
    requires rate > 0.0 && size >= 0.0
    requires b.Some? ==> 0.0 <= b.value.tokens <= size
    ensures var seen := if b.Some? then Some(b.value.lastRefill) else None;
            var before := if b.Some? then b.value.tokens else size;
            var after := Refill(b, size, rate, now);
            0.0 <= after.tokens <= size && after.lastRefill == Later(seen, now) &&
            after.tokens <= before + AccruedNow(seen, now, rate)
  {
    if b.Some? {
      EarnedSign(b.value.lastRefill, now, rate);
      EarnedSign(b.value.lastRefill, b.value.lastRefill, rate);
    }
  }

  lemma {:induction false} CheckSpends(l: Limiter, key: Key, cost: real, now: real)
    requires Configured(l) && l.Tokens? && InBounds(l)
    ensures var (after, admission) := Check(l, key, cost, now);
            after.Tokens? && Seen(after, key) == Some(Later(Seen(l, key), now)) &&
            (if admission.Admitted? then cost else 0.0) + TokensOf(after, key)
            <= TokensOf(l, key) + AccruedNow(Seen(l, key), now, l.refillRate)
  {
    RefillGains(BucketOf(l.buckets, key), l.bucketSize, l.refillRate, now);
  }

  lemma {:induction false} ReadSpendsNothing(l: Limiter, key: Key, now: real)
    requires Configured(l) && l.Tokens? && InBounds(l)
    ensures var after := Remaining(l, key, now).0;
            after.Tokens? && Seen(after, key) == Some(Later(Seen(l, key), now)) &&
            TokensOf(after, key) <= TokensOf(l, key) + AccruedNow(Seen(l, key), now, l.refillRate)
  {
    RefillGains(BucketOf(l.buckets, key), l.bucketSize, l.refillRate, now);
  }

  lemma {:induction false} TotalOfOne(e: Entry)
    ensures Total([e]) == e.cost
  {
    AppendTotal([], e);
    assert [] + [e] == [e];
  }

  lemma {:induction false} TouchSpends(s: State, op: Op, key: Key)
    requires Configured(s.limiter) && s.limiter.Tokens? && InBounds(s.limiter)
    requires Plain(op, key) && Touches(s, op, key)
    ensures var (t, answer) := Apply(s, op);
            var seen := Seen(s.limiter, key);
            Seen(t.limiter, key) == Some(Later(seen, op.now)) &&
            Total(GrantedBy(op, answer, key)) + TokensOf(t.limiter, key)
            <= TokensOf(s.limiter, key) + AccruedNow(seen, op.now, s.limiter.refillRate)
  {
    if op.CheckRateLimit? {
      CheckSpends(s.limiter, key, op.cost, op.now);
      TotalOfOne(Entry(op.now, op.cost));
    } else {
      ReadSpendsNothing(s.limiter, key, op.now);
    }
  }

  lemma {:induction false} OtherSpendsNothing(s: State, op: Op, key: Key)
    requires Configured(s.limiter) && s.limiter.Tokens?
    requires Plain(op, key) && !Touches(s, op, key)
    ensures GrantedBy(op, Apply(s, op).1, key) == []
    ensures BucketOf(Apply(s, op).0.limiter.buckets, key) == BucketOf(s.limiter.buckets, key)
  {
  }

  lemma {:induction false} CheckInBounds(l: Limiter, key: Key, cost: real, now: real)
    requires Configured(l) && InBounds(l) && cost >= 0.0
    ensures InBounds(Check(l, key, cost, now).0) && SameSettings(l, Check(l, key, cost, now).0)
  {
    if l.Tokens? {
      RefillGains(BucketOf(l.buckets, key), l.bucketSize, l.refillRate, now);
    }
  }

  lemma {:induction false} RemainingInBounds(l: Limiter, key: Key, now: real)
    requires Configured(l) && InBounds(l)
    ensures InBounds(Remaining(l, key, now).0) && SameSettings(l, Remaining(l, key, now).0)
  {
    if l.Tokens? {
      RefillGains(BucketOf(l.buckets, key), l.bucketSize, l.refillRate, now);
    }
  }

  /** Every balance stays between nothing and the bucket's size, whatever the clock does. */
  lemma {:induction false} StaysInBounds(s: State, op: Op)
    requires Configured(s.limiter) && InBounds(s.limiter)
    requires op.CheckRateLimit? ==> op.cost >= 0.0
    ensures InBounds(Apply(s, op).0.limiter) && SameSettings(s.limiter, Apply(s, op).0.limiter)
  {
    match op
    case CheckRateLimit(key, cost, now) => CheckInBounds(s.limiter, key, cost, now);
    case GetRemaining(key, now) => RemainingInBounds(s.limiter, key, now);
    case GetStatus(key, now) => RemainingInBounds(s.limiter, key, now);
    case BlockKey(_, _, _) =>
    case ResetKey(_, _) =>
    case Cleanup(_) =>
  }

  /** Over every run, sweeps, resets and clocks that step back included. */
  lemma {:induction false} RunStaysInBounds(s: State, ops: seq<Op>)
    requires Configured(s.limiter) && InBounds(s.limiter) && Priced(ops)
    ensures InBounds(Run(s, ops).limiter) && SameSettings(s.limiter, Run(s, ops).limiter)
    decreases |ops|
  {
    if ops != [] {
      assert ops[0] in ops && forall op <- ops[1..] :: op in ops;
      StaysInBounds(s, ops[0]);
      RunStaysInBounds(Apply(s, ops[0]).0, ops[1..]);
    }
  }

  predicate PlainRun(ops: seq<Op>, key: Key) {
    forall op <- ops :: Plain(op, key)
  }

  lemma {:induction false} AccruesInTurn(seen: Option<real>, now: real, rest: seq<real>, rate: real)
    ensures Accrued(seen, [now] + rest, rate)
         == AccruedNow(seen, now, rate) + Accrued(Some(Later(seen, now)), rest, rate)
  {
    assert ([now] + rest)[1..] == rest;
    var last := Largest(Later(seen, now), rest);
    if seen.Some? { EarnedAdds(seen.value, Later(seen, now), last, rate); }
  }

  lemma {:induction false} TotalConcat(a: seq<Entry>, b: seq<Entry>)
    ensures Total(a + b) == Total(a) + Total(b)
  {
    if b == [] { assert a + b == a; }
    else {
      var n := |b| - 1;
      assert (a + b)[..|a| + n] == a + b[..n];
      TotalConcat(a, b[..n]);
    }
  }

  // Spending now, with the growth that is still to come.
  lemma {:induction false} SpendThenGrow(
    before: real, after: real, spent: real, seen: Option<real>, now: real, later: seq<real>, rate: real)
    requires spent + after <= before + AccruedNow(seen, now, rate)
    ensures spent + after + Accrued(Some(Later(seen, now)), later, rate) <= before + Accrued(seen, [now] + later, rate)
  {
    AccruesInTurn(seen, now, later, rate);
  }

  // What a run may still hand out: the balance and the refill of the growth ahead.
  function Allowance(l: Limiter, key: Key, clocks: seq<real>): real
    requires Configured(l) && l.Tokens?
  {
    TokensOf(l, key) + Accrued(Seen(l, key), clocks, l.refillRate)
  }

  lemma {:induction false} OtherAllows(s: State, op: Op, key: Key, later: seq<real>)
    requires Configured(s.limiter) && s.limiter.Tokens? && InBounds(s.limiter)
    requires Plain(op, key) && !Touches(s, op, key)
    ensures Apply(s, op).0.limiter.Tokens?
    ensures Allowance(Apply(s, op).0.limiter, key, later) == Allowance(s.limiter, key, later)
  {
    StaysInBounds(s, op);
    OtherSpendsNothing(s, op, key);
  }

  lemma {:induction false} TouchAllows(s: State, op: Op, key: Key, later: seq<real>)
    requires Configured(s.limiter) && s.limiter.Tokens? && InBounds(s.limiter)
    requires Plain(op, key) && Touches(s, op, key)
    ensures Apply(s, op).0.limiter.Tokens?
    ensures Total(GrantedBy(op, Apply(s, op).1, key)) + Allowance(Apply(s, op).0.limiter, key, later)
         <= Allowance(s.limiter, key, [op.now] + later)
  {
    var l := s.limiter;
    StaysInBounds(s, op);
    TouchSpends(s, op, key);
    SpendThenGrow(TokensOf(l, key), TokensOf(Apply(s, op).0.limiter, key), Total(GrantedBy(op, Apply(s, op).1, key)),
      Seen(l, key), op.now, later, l.refillRate);
  }

  /** Between any two points of a run without sweep or reset, under any clock: what is
      admitted and what is left never exceed the balance at the start plus the refill rate
      times the growth of the largest clock value seen. */
  lemma {:induction false} TokenBound(s: State, ops: seq<Op>, key: Key)
    requires Configured(s.limiter) && s.limiter.Tokens? && InBounds(s.limiter) && PlainRun(ops, key)
    ensures SameSettings(s.limiter, Run(s, ops).limiter) && InBounds(Run(s, ops).limiter)
    ensures Total(Granted(s, ops, key)) + TokensOf(Run(s, ops).limiter, key)
         <= Allowance(s.limiter, key, Clocks(s, ops, key))
    decreases |ops|
  {
    if ops != [] {
      var op, rest, l := ops[0], ops[1..], s.limiter;
      var t := Apply(s, op).0;
      assert op in ops && forall o <- rest :: o in ops;
      StaysInBounds(s, op);
      TokenBound(t, rest, key);
      TotalConcat(GrantedBy(op, Apply(s, op).1, key), Granted(t, rest, key));
      if Touches(s, op, key) {
        TouchAllows(s, op, key, Clocks(t, rest, key));
      } else {
        OtherSpendsNothing(s, op, key);
        OtherAllows(s, op, key, Clocks(t, rest, key));
        assert [] + Clocks(t, rest, key) == Clocks(t, rest, key);
      }
    }
  }

  lemma {:induction false} AllowanceAtMost(l: Limiter, key: Key, clocks: seq<real>)
    requires Configured(l) && l.Tokens? && InBounds(l)
    ensures 0.0 <= TokensOf(l, key)
    ensures Allowance(l, key, clocks) <= l.bucketSize + Accrued(Seen(l, key), clocks, l.refillRate)
  {
  }

  /** In particular: at most a full bucket plus the refill of the time that passed. */
  lemma {:induction false} AdmittedAtMost(s: State, ops: seq<Op>, key: Key)
    requires Configured(s.limiter) && s.limiter.Tokens? && InBounds(s.limiter) && PlainRun(ops, key)
    ensures Total(Granted(s, ops, key))
         <= s.limiter.bucketSize + Accrued(Seen(s.limiter, key), Clocks(s, ops, key), s.limiter.refillRate)
  {
    TokenBound(s, ops, key);
    AllowanceAtMost(s.limiter, key, Clocks(s, ops, key));
    AllowanceAtMost(Run(s, ops).limiter, key, []);
  }

  /** The refill mark is the largest clock value at which the bucket was read. */
  lemma {:induction false} MarkIsLargestClock(s: State, ops: seq<Op>, key: Key)
    requires Configured(s.limiter) && s.limiter.Tokens? && InBounds(s.limiter) && PlainRun(ops, key)
    ensures Seen(Run(s, ops).limiter, key) ==
            var clocks := Clocks(s, ops, key);
            if key in s.limiter.buckets then Some(Largest(s.limiter.buckets[key].lastRefill, clocks))
            else if clocks == [] then None
            else Some(Largest(clocks[0], clocks[1..]))
    decreases |ops|
  {
    if ops != [] {
      var op, rest := ops[0], ops[1..];
      var t := Apply(s, op).0;
      assert op in ops && forall o <- rest :: o in ops;
      StaysInBounds(s, op);
      MarkIsLargestClock(t, rest, key);
      if Touches(s, op, key) {
        TouchSpends(s, op, key);
        assert ([op.now] + Clocks(t, rest, key))[1..] == Clocks(t, rest, key);
      } else {
        OtherSpendsNothing(s, op, key);
        assert [] + Clocks(t, rest, key) == Clocks(t, rest, key);
      }
    }
  }

  lemma {:induction false} FloorCovers(tokens: real, n: int)
    ensures n as real <= tokens <==> n <= tokens.Floor
  {
  }

  /** `remaining` tells exactly which integer costs the next check admits (for the window
      strategies, which costs), and asking changes no verdict. */
  lemma {:induction false} RemainingTellsExactly(l: Limiter, key: Key, cost: real, now: real)
    requires Configured(l)
    requires l.Tokens? ==> cost == cost.Floor as real
    ensures Configured(Remaining(l, key, now).0)
    ensures Check(l, key, cost, now).1.Admitted? <==> cost <= Remaining(l, key, now).1
    ensures Check(Remaining(l, key, now).0, key, cost, now).1 == Check(l, key, cost, now).1
  {
    match l
    case Window(limit, windowMs, windows) => EvictLater(LogOf(windows, key), windowMs, now, now);
    case Fixed(_, _, _) =>
    case Tokens(size, rate, windowMs, buckets) =>
      var bucket := Refill(BucketOf(buckets, key), size, rate, now);
      FloorCovers(bucket.tokens, cost.Floor);
      RefillAgain(BucketOf(buckets, key), size, rate, now);
  }

  lemma {:induction false} RefillAgain(b: Option<Bucket>, size: real, rate: real, now: real)
    requires rate > 0.0
    ensures var r := Refill(b, size, rate, now); Refill(Some(r), size, rate, now) == r
  {
    EarnedSign(now, now, rate);
    if b.Some? { EarnedSign(b.value.lastRefill, now, rate); }
  }
}
