/** Runs with and without sweeps answer alike, exactly when a bucket refills in time. */
module RateTransparency {
  import opened Wrappers
  import opened RateSpec
  import opened RateSweep

  function Blank(l: Limiter): Residue {
    match l
    case Window(_, _, _) => OfLog(NO_ENTRIES)
    case Fixed(_, _, _) => OfCounter(0.0)
    case Tokens(size, _, _, _) => OfBucket(size)
  }

  lemma {:induction false} ResetAt(l: Limiter, key: Key, now: real, k: Key)
    requires Configured(l)
    ensures Configured(Reset(l, key)) && SameSettings(l, Reset(l, key))
    ensures At(Reset(l, key), k, now) == if k == key then Blank(l) else At(l, k, now)
  {
  }

  lemma {:induction false} SameJudgement(a: Limiter, b: Limiter, r: Residue, cost: real, now: real)
    requires Configured(a) && Configured(b) && SameSettings(a, b)
    ensures Judge(a, r, cost, now) == Judge(b, r, cost, now)
    ensures LeftOf(a, r) == LeftOf(b, r)
    ensures Capacity(a) == Capacity(b) && Blank(a) == Blank(b)
  {
  }

  /** The state one operation leaves, key by key, in terms of the residues before it. */
  function AfterOp(l: Limiter, r: Residue, block: Option<real>, op: Op, k: Key): Residue
    requires Configured(l)
  {
    if op.CheckRateLimit? && op.key == k && op.cost <= Capacity(l) && block.None? then Judge(l, r, op.cost, op.now).0
    else if op.ResetKey? && op.key == k then Blank(l)
    else r
  }

  function BlockAfterOp(block: Option<real>, op: Op, k: Key): Option<real> {
    if op.BlockKey? && op.key == k then
      (if op.now < op.now + op.duration then Some(op.now + op.duration) else None)
    else if op.ResetKey? && op.key == k then None
    else block
  }

  // The answer, from the residue and the block of the operation's own key.
  function AnswerTo(l: Limiter, r: Residue, block: Option<real>, op: Op): Answer
    requires Configured(l)
  {
    match op
    case CheckRateLimit(_, cost, now) =>
      if cost > Capacity(l) then Unsatisfiable
      else if block.Some? then Blocked(block.value - now)
      else Decided(Judge(l, r, cost, now).1)
    case GetRemaining(_, _) => Left(LeftOf(l, r))
    case GetStatus(_, _) => Status(LeftOf(l, r), block.Some?)
    case _ => Done
  }

  lemma {:induction false} ResidueAfter(s: State, op: Op, k: Key)
    requires Configured(s.limiter) && Tidy(s.limiter, op.now)
    requires op.Cleanup? ==> RefillsInTime(s.limiter)
    ensures At(Apply(s, op).0.limiter, k, op.now)
         == AfterOp(s.limiter, At(s.limiter, k, op.now), BlockAt(s.blocked, k, op.now), op, k)
  {
    match op
    case CheckRateLimit(key, cost, now) => CheckAt(s.limiter, key, cost, now, k);
    case GetRemaining(key, now) => RemainingAt(s.limiter, key, now, k);
    case GetStatus(key, now) => RemainingAt(s.limiter, key, now, k);
    case BlockKey(_, _, _) =>
    case ResetKey(key, now) => ResetAt(s.limiter, key, now, k);
    case Cleanup(now) => SweepAt(s.limiter, now, k);
  }

  lemma {:induction false} BlockAfter(s: State, op: Op, k: Key)
    requires Configured(s.limiter)
    ensures BlockAt(Apply(s, op).0.blocked, k, op.now) == BlockAfterOp(BlockAt(s.blocked, k, op.now), op, k)
  {
  }

  lemma {:induction false} AnswerReads(s: State, op: Op)
    requires Configured(s.limiter) && Tidy(s.limiter, op.now) && !op.Cleanup?
    ensures Apply(s, op).1 == AnswerTo(s.limiter, At(s.limiter, op.key, op.now), BlockAt(s.blocked, op.key, op.now), op)
  {
    match op
    case CheckRateLimit(key, cost, now) => CheckAt(s.limiter, key, cost, now, key);
    case GetRemaining(key, now) => RemainingAt(s.limiter, key, now, key);
    case GetStatus(key, now) => RemainingAt(s.limiter, key, now, key);
    case BlockKey(_, _, _) =>
    case ResetKey(_, _) =>
  }

  lemma {:induction false} SameKeyAfter(a: State, b: State, op: Op, k: Key)
    requires Configured(a.limiter) && Configured(b.limiter) && !op.Cleanup?
    requires Tidy(a.limiter, op.now) && Tidy(b.limiter, op.now) && Alike(a, b, op.now)
    ensures At(Apply(a, op).0.limiter, k, op.now) == At(Apply(b, op).0.limiter, k, op.now)
    ensures BlockAt(Apply(a, op).0.blocked, k, op.now) == BlockAt(Apply(b, op).0.blocked, k, op.now)
  {
    ResidueAfter(a, op, k);
    ResidueAfter(b, op, k);
    BlockAfter(a, op, k);
    BlockAfter(b, op, k);
    assert At(a.limiter, k, op.now) == At(b.limiter, k, op.now);
    assert BlockAt(a.blocked, k, op.now) == BlockAt(b.blocked, k, op.now);
    SameAfterOp(a.limiter, b.limiter, At(a.limiter, k, op.now), BlockAt(a.blocked, k, op.now), op, k);
  }

  lemma {:induction false} SameAfterOp(a: Limiter, b: Limiter, r: Residue, block: Option<real>, op: Op, k: Key)
    requires Configured(a) && Configured(b) && SameSettings(a, b)
    ensures AfterOp(a, r, block, op, k) == AfterOp(b, r, block, op, k)
    ensures AnswerTo(a, r, block, op) == AnswerTo(b, r, block, op)
  {
    if op.CheckRateLimit? { SameJudgement(a, b, r, op.cost, op.now); }
    else { SameJudgement(a, b, r, 0.0, 0.0); }
  }

  // In lock step: alike states give the same answer and stay alike.
  lemma {:induction false} OpAlike(a: State, b: State, op: Op)
    requires Configured(a.limiter) && Configured(b.limiter) && !op.Cleanup?
    requires op.CheckRateLimit? ==> op.cost >= 0.0
    requires Tidy(a.limiter, op.now) && Tidy(b.limiter, op.now) && Alike(a, b, op.now)
    ensures Apply(a, op).1 == Apply(b, op).1
    ensures Alike(Apply(a, op).0, Apply(b, op).0, op.now)
  {
    AnswerReads(a, op);
    AnswerReads(b, op);
    SameAfterOp(a.limiter, b.limiter, At(a.limiter, op.key, op.now), BlockAt(a.blocked, op.key, op.now), op, op.key);
    assert BlockAt(a.blocked, op.key, op.now) == BlockAt(b.blocked, op.key, op.now);
    ApplyTidy(a, op);
    ApplyTidy(b, op);
    forall k: Key
      ensures At(Apply(a, op).0.limiter, k, op.now) == At(Apply(b, op).0.limiter, k, op.now)
    {
      SameKeyAfter(a, b, op, k);
    }
    forall k: Key
      ensures BlockAt(Apply(a, op).0.blocked, k, op.now) == BlockAt(Apply(b, op).0.blocked, k, op.now)
    {
      SameKeyAfter(a, b, op, k);
    }
  }

  // A sweep on one side alone.
  lemma {:induction false} SweepAlike(a: State, b: State, op: Op)
    requires Configured(a.limiter) && Configured(b.limiter) && op.Cleanup? && RefillsInTime(a.limiter)
    requires Tidy(a.limiter, op.now) && Alike(a, b, op.now)
    ensures Alike(Apply(a, op).0, b, op.now)
  {
    ApplyTidy(a, op);
    forall k: Key
      ensures At(Apply(a, op).0.limiter, k, op.now) == At(b.limiter, k, op.now)
    {
      ResidueAfter(a, op, k);
    }
    forall k: Key
      ensures BlockAt(Apply(a, op).0.blocked, k, op.now) == BlockAt(b.blocked, k, op.now)
    {
      BlockAfter(a, op, k);
    }
  }

  function Unswept(ops: seq<Op>): seq<Op>
    decreases |ops|
  {
    if ops == [] then []
    else (if ops[0].Cleanup? then [] else [ops[0]]) + Unswept(ops[1..])
  }

  /** Whatever sweeps a run holds, its answers are those of the run without them. */
  lemma {:induction false} SweepsAreUnobservable(a: State, b: State, ops: seq<Op>, since: real)
    requires Configured(a.limiter) && Configured(b.limiter) && RefillsInTime(a.limiter)
    requires Tidy(a.limiter, since) && Tidy(b.limiter, since) && Alike(a, b, since)
    requires Monotone(ops, since) && Priced(ops)
    ensures Answers(a, ops) == Answers(b, Unswept(ops))
    decreases |ops|
  {
    if ops != [] {
      var op, rest := ops[0], ops[1..];
      TidyLater(a.limiter, since, op.now);
      TidyLater(b.limiter, since, op.now);
      AlikeLater(a, b, since, op.now);
      ApplyTidy(a, op);
      if op.Cleanup? {
        SweepAlike(a, b, op);
        SweepsAreUnobservable(Apply(a, op).0, b, rest, op.now);
        assert Unswept(ops) == Unswept(rest);
      } else {
        OpAlike(a, b, op);
        ApplyTidy(b, op);
        SweepsAreUnobservable(Apply(a, op).0, Apply(b, op).0, rest, op.now);
        assert Unswept(ops)[0] == op && Unswept(ops)[1..] == Unswept(rest);
      }
    }
  }

  predicate Untouched(l: Limiter) {
    match l
    case Window(_, _, windows) => windows == map[]
    case Fixed(_, _, counters) => counters == map[]
    case Tokens(_, _, _, buckets) => buckets == map[]
  }

  predicate SweptLikeUnswept(l: Limiter, ops: seq<Op>)
    requires Configured(l)
  {
    Answers(State(l, map[]), ops) == Answers(State(l, map[]), Unswept(ops))
  }

  predicate Ordinary(ops: seq<Op>) {
    Priced(ops) && (ops == [] || Monotone(ops, ops[0].now))
  }

  // A full burst, a sweep just after two windows, another full burst.
  function TwoBursts(size: real, gap: real): seq<Op> {
    [CheckRateLimit(0, size, 0.0), Cleanup(gap), CheckRateLimit(0, size, gap)]
  }

  // Longer than two windows, yet too short to refill a bucket larger than two windows' worth.
  function Gap(size: real, rate: real, windowMs: real): real
    requires rate > 0.0
  {
    (size / rate + windowMs * 2.0) / 2.0
  }

  lemma {:induction false} GapFalls(size: real, rate: real, windowMs: real)
    requires rate > 0.0 && windowMs > 0.0 && size > Earned(0.0, windowMs * 2.0, rate)
    ensures Gap(size, rate, windowMs) > 2.0 * windowMs
    ensures 0.0 < Earned(0.0, Gap(size, rate, windowMs), rate) < size
  {
    var full, span := size / rate, windowMs * 2.0;
    assert full * rate == size;
    if full <= span { MultiplyMonotone(full, span, rate); }
    assert full > span;
    MultiplyStrict(Gap(size, rate, windowMs), full, rate);
    EarnedSign(0.0, Gap(size, rate, windowMs), rate);
  }

  /** For the strategy as its constructor sets it up, a bucket refills in time exactly when
      its size is at most twice the requests of a window. */
  lemma {:induction false} RefillsInTimeExactly(l: Limiter, maxRequests: real)
    requires Configured(l) && l.Tokens? && l.refillRate == maxRequests / l.windowMs
    ensures RefillsInTime(l) <==> l.bucketSize <= 2.0 * maxRequests
  {
    assert l.refillRate * l.windowMs == maxRequests;
    assert Earned(0.0, l.windowMs * 2.0, l.refillRate) == 2.0 * (l.refillRate * l.windowMs);
  }

  lemma {:induction false} BurstSwept(l: Limiter, gap: real)
    requires Configured(l) && l.Tokens? && Untouched(l) && gap > 2.0 * l.windowMs
    ensures Answers(State(l, map[]), TwoBursts(l.bucketSize, gap))
         == [Decided(Admitted(0.0)), Decided(Admitted(0.0))]
  {
    var s0 := State(l, map[]);
    var ops := TwoBursts(l.bucketSize, gap);
    var s1 := Apply(s0, ops[0]).0;
    assert s1.limiter.buckets == map[0 := Bucket(0.0, 0.0)];
    var s2 := Apply(s1, ops[1]).0;
    assert s2.limiter.buckets == map[];
    assert Apply(s2, ops[2]).1 == Decided(Admitted(0.0));
    assert ops[1..] == [ops[1], ops[2]] && ops[1..][1..] == [ops[2]] && [ops[2]][1..] == [];
    assert Answers(s2, [ops[2]]) == [Decided(Admitted(0.0))];
    assert Answers(s1, ops[1..]) == [Decided(Admitted(0.0))];
  }

  lemma {:induction false} BurstUnswept(l: Limiter, gap: real)
    requires Configured(l) && l.Tokens? && Untouched(l)
    requires gap > 0.0 && 0.0 < Earned(0.0, gap, l.refillRate) < l.bucketSize
    ensures Answers(State(l, map[]), Unswept(TwoBursts(l.bucketSize, gap)))
         == [Decided(Admitted(0.0)), Decided(Refused)]
  {
    var s0 := State(l, map[]);
    var ops := TwoBursts(l.bucketSize, gap);
    assert ops[1..] == [ops[1], ops[2]] && ops[1..][1..] == [ops[2]] && [ops[2]][1..] == [];
    assert Unswept([ops[2]]) == [ops[2]];
    assert Unswept(ops) == [ops[0], ops[2]];
    var s1 := Apply(s0, ops[0]).0;
    assert s1.limiter.buckets == map[0 := Bucket(0.0, 0.0)];
    assert Apply(s1, ops[2]).1 == Decided(Refused);
    assert [ops[0], ops[2]][1..] == [ops[2]];
    assert Answers(s1, [ops[2]]) == [Decided(Refused)];
  }

  /** From a new limiter on, sweeps stay unobservable in every run exactly when a bucket
      refills within two windows. */
  lemma {:induction false} SweepHiddenExactly(l: Limiter)
    requires Configured(l) && Untouched(l)
    ensures (forall ops: seq<Op> :: Ordinary(ops) ==> SweptLikeUnswept(l, ops)) <==> RefillsInTime(l)
  {
    var s := State(l, map[]);
    if RefillsInTime(l) {
      forall ops: seq<Op> | Ordinary(ops)
        ensures SweptLikeUnswept(l, ops)
      {
        if ops != [] { SweepsAreUnobservable(s, s, ops, ops[0].now); }
      }
    } else {
      var gap := Gap(l.bucketSize, l.refillRate, l.windowMs);
      GapFalls(l.bucketSize, l.refillRate, l.windowMs);
      BurstSwept(l, gap);
      BurstUnswept(l, gap);
      var ops := TwoBursts(l.bucketSize, gap);
      assert ops[1..] == [ops[1], ops[2]] && ops[1..][1..] == [ops[2]] && [ops[2]][1..] == [];
      assert Monotone([ops[2]], gap);
      assert Monotone(ops[1..], 0.0);
      assert Ordinary(ops) && !SweptLikeUnswept(l, ops);
    }
  }
}
