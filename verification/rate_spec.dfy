/** The rate-limiting strategies of src/resilience/strategies and the limiter that drives
    one of them (src/resilience/rate-limiter.js), over exact reals. */
module RateSpec {
  import opened Wrappers

  type Key = nat

  datatype Entry = Entry(timestamp: real, cost: real)

  // A key's entries in time order, and the running total of their costs.
  datatype Log = Log(entries: seq<Entry>, total: real)

  datatype Counter = Counter(count: real, windowStart: real)

  datatype Bucket = Bucket(tokens: real, lastRefill: real)

  /** Window is the base of the sliding window and of the leaky bucket. */
  datatype Limiter =
    | Window(limit: real, windowMs: real, windows: map<Key, Log>)
    | Fixed(maxRequests: real, windowMs: real, counters: map<Key, Counter>)
    | Tokens(bucketSize: real, refillRate: real, windowMs: real, buckets: map<Key, Bucket>)

  predicate Configured(l: Limiter) {
    l.windowMs > 0.0 &&
    match l
    case Window(limit, _, _) => limit >= 0.0
    case Fixed(max, _, _) => max > 0.0
    case Tokens(size, rate, _, _) => rate > 0.0 && size >= 0.0
  }

  // The most a single check can be granted.
  function Capacity(l: Limiter): real {
    match l
    case Window(limit, _, _) => limit
    case Fixed(max, _, _) => max
    case Tokens(size, _, _, _) => size
  }

  // The strategy's answer: refused, or admitted on top of an earlier occupancy.
  datatype Admission = Refused | Admitted(occupancy: real)

  // Expired entries leave from the front.
  function Evict(log: Log, windowMs: real, now: real): Log
    decreases |log.entries|
  {
    if log.entries != [] && now - log.entries[0].timestamp > windowMs then
      Evict(Log(log.entries[1..], log.total - log.entries[0].cost), windowMs, now)
    else log
  }

  const NO_ENTRIES := Log([], 0.0)

  function LogOf(windows: map<Key, Log>, key: Key): Log {
    if key in windows then windows[key] else NO_ENTRIES
  }

  function Occupied(log: Log, limit: real, cost: real, now: real): (Log, Admission) {
    if log.total + cost > limit then (log, Refused)
    else (Log(log.entries + [Entry(now, cost)], log.total + cost), Admitted(log.total))
  }

  function WindowStart(windowMs: real, now: real): real
    requires windowMs > 0.0
  {
    (now / windowMs).Floor as real * windowMs
  }

  // The counter of a key in the window that starts at `start`.
  function CounterAt(counters: map<Key, Counter>, key: Key, start: real): Counter {
    if key in counters && counters[key].windowStart == start then counters[key] else Counter(0.0, start)
  }

  function Min(a: real, b: real): real { if a < b then a else b }

  // Tokens accrued from one instant to another, negative when the clock stepped back.
  function Earned(from: real, to: real, rate: real): real { (to - from) * rate }

  // `#bucket`: reads refill too; a clock that stepped back changes nothing.
  function Refill(b: Option<Bucket>, size: real, rate: real, now: real): Bucket {
    if b.None? then Bucket(size, now)
    else
      var add := Earned(b.value.lastRefill, now, rate);
      if add > 0.0 then Bucket(Min(size, b.value.tokens + add), now) else b.value
  }

  function BucketOf(buckets: map<Key, Bucket>, key: Key): Option<Bucket> {
    if key in buckets then Some(buckets[key]) else None
  }

  function Check(l: Limiter, key: Key, cost: real, now: real): (Limiter, Admission)
    requires Configured(l)
  {
    match l
    case Window(limit, windowMs, windows) =>
      var (log, answer) := Occupied(Evict(LogOf(windows, key), windowMs, now), limit, cost, now);
      (l.(windows := windows[key := log]), answer)
    case Fixed(max, windowMs, counters) =>
      var counter := CounterAt(counters, key, WindowStart(windowMs, now));
      if counter.count + cost > max then
        // A counter of an older window is reset in place even when the check is refused.
        (if key in counters then l.(counters := counters[key := counter]) else l, Refused)
      else (l.(counters := counters[key := counter.(count := counter.count + cost)]), Admitted(0.0))
    case Tokens(size, rate, windowMs, buckets) =>
      var bucket := Refill(BucketOf(buckets, key), size, rate, now);
      if bucket.tokens < cost then (l.(buckets := buckets[key := bucket]), Refused)
      else (l.(buckets := buckets[key := bucket.(tokens := bucket.tokens - cost)]), Admitted(0.0))
  }

  function Remaining(l: Limiter, key: Key, now: real): (Limiter, real)
    requires Configured(l)
  {
    match l
    case Window(limit, windowMs, windows) =>
      if key !in windows then (l, limit)
      else
        var log := Evict(windows[key], windowMs, now);
        (l.(windows := windows[key := log]), limit - log.total)
    case Fixed(max, windowMs, counters) =>
      (l, max - CounterAt(counters, key, WindowStart(windowMs, now)).count)
    case Tokens(size, rate, windowMs, buckets) =>
      var bucket := Refill(BucketOf(buckets, key), size, rate, now);
      (l.(buckets := buckets[key := bucket]), bucket.tokens.Floor as real)
  }

  function SweptWindows(windows: map<Key, Log>, windowMs: real, now: real): map<Key, Log> {
    map k | k in windows && Evict(windows[k], windowMs, now).entries != [] :: Evict(windows[k], windowMs, now)
  }

  function SweptCounters(counters: map<Key, Counter>, start: real): map<Key, Counter> {
    map k | k in counters && counters[k].windowStart == start :: counters[k]
  }

  function SweptBuckets(buckets: map<Key, Bucket>, windowMs: real, now: real): map<Key, Bucket> {
    map k | k in buckets && now - buckets[k].lastRefill <= windowMs * 2.0 :: buckets[k]
  }

  function Sweep(l: Limiter, now: real): Limiter
    requires Configured(l)
  {
    match l
    case Window(_, windowMs, windows) => l.(windows := SweptWindows(windows, windowMs, now))
    case Fixed(_, windowMs, counters) => l.(counters := SweptCounters(counters, WindowStart(windowMs, now)))
    case Tokens(_, _, windowMs, buckets) => l.(buckets := SweptBuckets(buckets, windowMs, now))
  }

  function Reset(l: Limiter, key: Key): Limiter {
    match l
    case Window(_, _, windows) => l.(windows := windows - {key})
    case Fixed(_, _, counters) => l.(counters := counters - {key})
    case Tokens(_, _, _, buckets) => l.(buckets := buckets - {key})
  }

  /** The limiter: a strategy and the blocked keys with their expiry. */
  datatype State = State(limiter: Limiter, blocked: map<Key, real>)

  datatype Op =
    | CheckRateLimit(key: Key, cost: real, now: real)
    | GetRemaining(key: Key, now: real)
    | GetStatus(key: Key, now: real)
    | BlockKey(key: Key, duration: real, now: real)
    | ResetKey(key: Key, now: real)
    | Cleanup(now: real)

  datatype Answer =
    | Unsatisfiable
    | Blocked(remainingTime: real)
    | Decided(admission: Admission)
    | Left(tokens: real)
    | Status(tokens: real, isBlocked: bool)
    | Done

  function UnblockExpired(blocked: map<Key, real>, now: real): map<Key, real> {
    map k | k in blocked && now < blocked[k] :: blocked[k]
  }

  function Apply(s: State, op: Op): (r: (State, Answer))
    requires Configured(s.limiter)
    ensures Configured(r.0.limiter)
  {
    match op
    case CheckRateLimit(key, cost, now) =>
      if cost > Capacity(s.limiter) then (s, Unsatisfiable)
      else if key in s.blocked && now < s.blocked[key] then (s, Blocked(s.blocked[key] - now))
      else
        var (l, admission) := Check(s.limiter, key, cost, now);
        (State(l, s.blocked - {key}), Decided(admission))
    case GetRemaining(key, now) =>
      var (l, tokens) := Remaining(s.limiter, key, now);
      (s.(limiter := l), Left(tokens))
    case GetStatus(key, now) =>
      var (l, tokens) := Remaining(s.limiter, key, now);
      (s.(limiter := l), Status(tokens, key in s.blocked && s.blocked[key] > now))
    case BlockKey(key, duration, now) => (s.(blocked := s.blocked[key := now + duration]), Done)
    case ResetKey(key, _) => (State(Reset(s.limiter, key), s.blocked - {key}), Done)
    case Cleanup(now) => (State(Sweep(s.limiter, now), UnblockExpired(s.blocked, now)), Done)
  }

  // The answers of a run, the sweeps' own left out.
  function Answers(s: State, ops: seq<Op>): seq<Answer>
    requires Configured(s.limiter)
    decreases |ops|
  {
    if ops == [] then []
    else
      var (t, answer) := Apply(s, ops[0]);
      (if ops[0].Cleanup? then [] else [answer]) + Answers(t, ops[1..])
  }

  function Run(s: State, ops: seq<Op>): (r: State)
    requires Configured(s.limiter)
    ensures Configured(r.limiter)
    decreases |ops|
  {
    if ops == [] then s else Run(Apply(s, ops[0]).0, ops[1..])
  }

  // The clock never steps back, from `since` on.
  predicate Monotone(ops: seq<Op>, since: real)
    decreases |ops|
  {
    ops == [] || (since <= ops[0].now && Monotone(ops[1..], ops[0].now))
  }

  predicate Priced(ops: seq<Op>) {
    forall op <- ops :: op.CheckRateLimit? ==> op.cost >= 0.0
  }

  // The admissions a run grants one key, in order.
  function Granted(s: State, ops: seq<Op>, key: Key): seq<Entry>
    requires Configured(s.limiter)
    decreases |ops|
  {
    if ops == [] then []
    else
      var (t, answer) := Apply(s, ops[0]);
      GrantedBy(ops[0], answer, key) + Granted(t, ops[1..], key)
  }

  function GrantedBy(op: Op, answer: Answer, key: Key): seq<Entry> {
    if op.CheckRateLimit? && op.key == key && answer.Decided? && answer.admission.Admitted?
    then [Entry(op.now, op.cost)] else []
  }

  function Total(entries: seq<Entry>): real {
    if entries == [] then 0.0 else Total(entries[..|entries| - 1]) + entries[|entries| - 1].cost
  }
}
