/** The window strategies admit exactly what filtering and summing the whole history would. */
module RateWindows {
  import opened RateSpec
  import opened RateSweep
  import opened RateTransparency

  // An admission at `timestamp` still counts at `now`.
  predicate InScope(l: Limiter, timestamp: real, now: real)
    requires Configured(l)
  {
    match l
    case Window(_, windowMs, _) => now - timestamp <= windowMs
    case Fixed(_, windowMs, _) => WindowStart(windowMs, timestamp) == WindowStart(windowMs, now)
    case Tokens(_, _, _, _) => false
  }

  function InScopeOnly(l: Limiter, history: seq<Entry>, now: real): seq<Entry>
    requires Configured(l)
  {
    if history == [] then []
    else
      var last := history[|history| - 1];
      InScopeOnly(l, history[..|history| - 1], now) + (if InScope(l, last.timestamp, now) then [last] else [])
  }

  /** The naive form: filter the whole history, then sum. */
  function Usage(l: Limiter, history: seq<Entry>, now: real): real
    requires Configured(l)
  {
    Total(InScopeOnly(l, history, now))
  }

  // In time order, none after `now`, no cost negative.
  predicate Ordered(history: seq<Entry>, now: real) {
    history == [] ||
    (var last := history[|history| - 1];
     last.timestamp <= now && last.cost >= 0.0 && Ordered(history[..|history| - 1], last.timestamp))
  }

  function Naive(l: Limiter, history: seq<Entry>, now: real): Residue
    requires Configured(l)
  {
    if l.Window? then OfLog(Log(InScopeOnly(l, history, now), Usage(l, history, now)))
    else OfCounter(Usage(l, history, now))
  }

  lemma {:induction false} OrderedLater(h: seq<Entry>, then_: real, now: real)
    requires Ordered(h, then_) && then_ <= now
    ensures Ordered(h, now)
  {
  }

  lemma {:induction false} OrderedEntry(h: seq<Entry>, now: real, i: nat)
    requires Ordered(h, now) && i < |h|
    ensures h[i].timestamp <= now && h[i].cost >= 0.0 && h[0].timestamp <= h[i].timestamp
  {
    if i < |h| - 1 { OrderedEntry(h[..|h| - 1], h[|h| - 1].timestamp, i); }
    else if i > 0 { OrderedEntry(h[..|h| - 1], h[|h| - 1].timestamp, 0); }
  }

  lemma {:induction false} OrderedTail(h: seq<Entry>, now: real)
    requires Ordered(h, now) && h != []
    ensures Ordered(h[1..], now)
  {
    var n := |h| - 1;
    if n > 0 {
      OrderedTail(h[..n], h[n].timestamp);
      assert h[1..][..n - 1] == h[..n][1..];
    }
  }

  // ---------- eviction is filtering ----------

  lemma {:induction false} ScopeFront(l: Limiter, h: seq<Entry>, now: real)
    requires Configured(l) && h != []
    ensures InScopeOnly(l, h, now)
         == (if InScope(l, h[0].timestamp, now) then [h[0]] else []) + InScopeOnly(l, h[1..], now)
  {
    if |h| > 1 {
      var n := |h| - 1;
      ScopeFront(l, h[..n], now);
      assert h[1..][..n - 1] == h[..n][1..];
      assert h[1..][n - 1] == h[n];
    }
  }

  lemma {:induction false} ScopeAll(l: Limiter, h: seq<Entry>, now: real)
    requires Configured(l) && forall e <- h :: InScope(l, e.timestamp, now)
    ensures InScopeOnly(l, h, now) == h
  {
    if h != [] {
      ScopeAll(l, h[..|h| - 1], now);
      assert h[..|h| - 1] + [h[|h| - 1]] == h;
    }
  }

  lemma {:induction false} ScopeNone(l: Limiter, h: seq<Entry>, now: real)
    requires Configured(l) && forall e <- h :: !InScope(l, e.timestamp, now)
    ensures InScopeOnly(l, h, now) == []
  {
    if h != [] { ScopeNone(l, h[..|h| - 1], now); }
  }

  lemma {:induction false} ScopeKeeps(l: Limiter, h: seq<Entry>, now: real)
    requires Configured(l)
    ensures forall e <- InScopeOnly(l, h, now) :: e in h && InScope(l, e.timestamp, now)
  {
    if h != [] { ScopeKeeps(l, h[..|h| - 1], now); }
  }

  /** Dropping expired entries off the front leaves what a filter of the log leaves, and
      the running total is its sum. */
  lemma {:induction false} EvictionIsFiltering(l: Limiter, log: Log, now: real)
    requires Configured(l) && l.Window? && Honest(log) && Ordered(log.entries, now)
    ensures Evict(log, l.windowMs, now)
         == Log(InScopeOnly(l, log.entries, now), Usage(l, log.entries, now))
    decreases |log.entries|
  {
    if log.entries != [] {
      var first := log.entries[0];
      if now - first.timestamp > l.windowMs {
        TotalFront(log.entries);
        ScopeFront(l, log.entries, now);
        OrderedTail(log.entries, now);
        assert [] + InScopeOnly(l, log.entries[1..], now) == InScopeOnly(l, log.entries[1..], now);
        EvictionIsFiltering(l, Log(log.entries[1..], log.total - first.cost), now);
      } else {
        forall e <- log.entries
          ensures InScope(l, e.timestamp, now)
        {
          var i: nat :| i < |log.entries| && log.entries[i] == e;
          OrderedEntry(log.entries, now, i);
        }
        ScopeAll(l, log.entries, now);
      }
    }
  }

  lemma {:induction false} ScopeOrdered(l: Limiter, h: seq<Entry>, now: real, end: real)
    requires Configured(l) && Ordered(h, end)
    ensures Ordered(InScopeOnly(l, h, now), end)
  {
    if h != [] {
      var n := |h| - 1;
      var kept := InScopeOnly(l, h[..n], now);
      ScopeOrdered(l, h[..n], now, h[n].timestamp);
      if InScope(l, h[n].timestamp, now) { assert (kept + [h[n]])[..|kept|] == kept; }
      else { OrderedLater(kept, h[n].timestamp, end); assert kept + [] == kept; }
    }
  }

  // Filtering again later forgets nothing the first filter kept in vain.
  lemma {:induction false} ScopeLater(l: Limiter, h: seq<Entry>, then_: real, now: real)
    requires Configured(l) && l.Window? && then_ <= now
    ensures InScopeOnly(l, InScopeOnly(l, h, then_), now) == InScopeOnly(l, h, now)
  {
    if h != [] {
      var n := |h| - 1;
      ScopeLater(l, h[..n], then_, now);
      var kept := InScopeOnly(l, h[..n], then_);
      if InScope(l, h[n].timestamp, then_) { assert (kept + [h[n]])[..|kept|] == kept; }
      else { assert kept + [] == kept; }
    }
  }

  // ---------- the naive state follows the real one ----------

  lemma {:induction false} NaiveAges(l: Limiter, h: seq<Entry>, then_: real, now: real)
    requires Configured(l) && !l.Tokens? && Ordered(h, then_) && then_ <= now
    ensures Aged(l, Naive(l, h, then_), then_, now) == Naive(l, h, now)
  {
    if l.Window? {
      ScopeOrdered(l, h, then_, then_);
      OrderedLater(InScopeOnly(l, h, then_), then_, now);
      EvictionIsFiltering(l, Log(InScopeOnly(l, h, then_), Usage(l, h, then_)), now);
      ScopeLater(l, h, then_, now);
    } else if WindowStart(l.windowMs, then_) == WindowStart(l.windowMs, now) {
      SameScope(l, h, then_, now);
    } else {
      forall e <- h
        ensures !InScope(l, e.timestamp, now)
      {
        var i: nat :| i < |h| && h[i] == e;
        OrderedEntry(h, then_, i);
        WindowStartMonotone(l.windowMs, e.timestamp, then_);
        WindowStartMonotone(l.windowMs, then_, now);
      }
      ScopeNone(l, h, now);
    }
  }

  lemma {:induction false} SameScope(l: Limiter, h: seq<Entry>, then_: real, now: real)
    requires Configured(l) && l.Fixed? && WindowStart(l.windowMs, then_) == WindowStart(l.windowMs, now)
    ensures InScopeOnly(l, h, then_) == InScopeOnly(l, h, now)
  {
    if h != [] { SameScope(l, h[..|h| - 1], then_, now); }
  }

  lemma {:induction false} ScopeAppend(l: Limiter, h: seq<Entry>, cost: real, now: real)
    requires Configured(l) && !l.Tokens?
    ensures InScopeOnly(l, h + [Entry(now, cost)], now) == InScopeOnly(l, h, now) + [Entry(now, cost)]
    ensures Usage(l, h + [Entry(now, cost)], now) == Usage(l, h, now) + cost
  {
    assert (h + [Entry(now, cost)])[..|h|] == h;
    AppendTotal(InScopeOnly(l, h, now), Entry(now, cost));
  }

  lemma {:induction false} WindowAdmits(l: Limiter, h: seq<Entry>, cost: real, now: real)
    requires Configured(l) && l.Window?
    ensures var (after, answer) := Judge(l, Naive(l, h, now), cost, now);
            var used := Usage(l, h, now);
            if used + cost <= l.limit then answer == Admitted(used) && after == Naive(l, h + [Entry(now, cost)], now)
            else answer == Refused && after == Naive(l, h, now)
  {
    ScopeAppend(l, h, cost, now);
  }

  lemma {:induction false} FixedAdmits(l: Limiter, h: seq<Entry>, cost: real, now: real)
    requires Configured(l) && l.Fixed?
    ensures var (after, answer) := Judge(l, Naive(l, h, now), cost, now);
            var used := Usage(l, h, now);
            if used + cost <= l.maxRequests then answer.Admitted? && after == Naive(l, h + [Entry(now, cost)], now)
            else answer == Refused && after == Naive(l, h, now)
  {
    ScopeAppend(l, h, cost, now);
  }

  lemma {:induction false} NaiveAdmits(l: Limiter, h: seq<Entry>, cost: real, now: real)
    requires Configured(l) && !l.Tokens?
    ensures Judge(l, Naive(l, h, now), cost, now).1.Admitted? <==> Usage(l, h, now) + cost <= Capacity(l)
    ensures var answer := Judge(l, Naive(l, h, now), cost, now).1;
            l.Window? && answer.Admitted? ==> answer.occupancy == Usage(l, h, now)
    ensures Judge(l, Naive(l, h, now), cost, now).0
         == Naive(l, if Usage(l, h, now) + cost <= Capacity(l) then h + [Entry(now, cost)] else h, now)
  {
    if l.Window? { WindowAdmits(l, h, cost, now); } else { FixedAdmits(l, h, cost, now); }
  }

  predicate NeverReset(ops: seq<Op>, key: Key) {
    forall op <- ops :: op.ResetKey? ==> op.key != key
  }

  // The history of `key` explains what the limiter remembers of it.
  predicate Explains(l: Limiter, key: Key, h: seq<Entry>, now: real)
    requires Configured(l)
  {
    !l.Tokens? && Tidy(l, now) && Ordered(h, now) && At(l, key, now) == Naive(l, h, now)
  }

  lemma {:induction false} SettingsOnly(a: Limiter, b: Limiter, h: seq<Entry>, now: real)
    requires Configured(a) && Configured(b) && SameSettings(a, b)
    ensures InScopeOnly(a, h, now) == InScopeOnly(b, h, now) && Capacity(a) == Capacity(b)
  {
    if h != [] { SettingsOnly(a, b, h[..|h| - 1], now); }
  }

  lemma {:induction false} ExplainsLater(l: Limiter, key: Key, h: seq<Entry>, then_: real, now: real)
    requires Configured(l) && Explains(l, key, h, then_) && then_ <= now
    ensures Explains(l, key, h, now)
  {
    TidyLater(l, then_, now);
    OrderedLater(h, then_, now);
    ResidueAges(l, key, then_, now);
    NaiveAges(l, h, then_, now);
  }

  lemma {:induction false} OwnCheck(s: State, op: Op, key: Key, h: seq<Entry>)
    requires Configured(s.limiter) && Explains(s.limiter, key, h, op.now)
    requires op.CheckRateLimit? && op.key == key && op.cost >= 0.0
    ensures var granted := GrantedBy(op, Apply(s, op).1, key);
            At(Apply(s, op).0.limiter, key, op.now) == Naive(s.limiter, h + granted, op.now) &&
            (granted == [] || granted == [Entry(op.now, op.cost)]) &&
            (granted != [] ==> Usage(s.limiter, h, op.now) + op.cost <= Capacity(s.limiter))
  {
    ResidueAfter(s, op, key);
    AnswerReads(s, op);
    NaiveAdmits(s.limiter, h, op.cost, op.now);
    assert h + [] == h;
  }

  lemma {:induction false} OtherOp(s: State, op: Op, key: Key)
    requires Configured(s.limiter) && !s.limiter.Tokens? && Tidy(s.limiter, op.now)
    requires !(op.CheckRateLimit? && op.key == key) && !(op.ResetKey? && op.key == key)
    ensures GrantedBy(op, Apply(s, op).1, key) == []
    ensures At(Apply(s, op).0.limiter, key, op.now) == At(s.limiter, key, op.now)
  {
    ResidueAfter(s, op, key);
  }

  lemma {:induction false} OrderedAppend(h: seq<Entry>, cost: real, now: real)
    requires Ordered(h, now) && cost >= 0.0
    ensures Ordered(h + [Entry(now, cost)], now)
  {
    assert (h + [Entry(now, cost)])[..|h|] == h;
  }

  lemma {:induction false} OpExplained(s: State, op: Op, key: Key, h: seq<Entry>)
    requires Configured(s.limiter) && Explains(s.limiter, key, h, op.now)
    requires op.CheckRateLimit? ==> op.cost >= 0.0
    requires op.ResetKey? ==> op.key != key
    ensures Explains(Apply(s, op).0.limiter, key, h + GrantedBy(op, Apply(s, op).1, key), op.now)
    ensures GrantedBy(op, Apply(s, op).1, key) != [] ==>
              op.CheckRateLimit? && Usage(s.limiter, h, op.now) + op.cost <= Capacity(s.limiter)
  {
    var t, granted := Apply(s, op).0, GrantedBy(op, Apply(s, op).1, key);
    ApplyTidy(s, op);
    if op.CheckRateLimit? && op.key == key {
      OwnCheck(s, op, key, h);
      OrderedAppend(h, op.cost, op.now);
    } else {
      OtherOp(s, op, key);
    }
    assert h + [] == h;
    SettingsOnly(s.limiter, t.limiter, h + granted, op.now);
  }

  function Ended(ops: seq<Op>, since: real): real {
    if ops == [] then since else ops[|ops| - 1].now
  }

  // One operation at the head of a run.
  lemma {:induction false} Unfold(
    s: State, ops: seq<Op>, key: Key, h: seq<Entry>, since: real, t: State, granted: seq<Entry>)
    requires Configured(s.limiter) && ops != [] && Monotone(ops, since)
    requires t == Apply(s, ops[0]).0 && granted == GrantedBy(ops[0], Apply(s, ops[0]).1, key)
    ensures Configured(t.limiter) && Run(s, ops) == Run(t, ops[1..])
    ensures h + Granted(s, ops, key) == (h + granted) + Granted(t, ops[1..], key)
    ensures Ended(ops, since) == Ended(ops[1..], ops[0].now)
    ensures Monotone(ops[1..], ops[0].now) && since <= ops[0].now
  {
  }

  lemma {:induction false} StepExplained(s: State, op: Op, key: Key, h: seq<Entry>, since: real)
    returns (t: State, granted: seq<Entry>)
    requires Configured(s.limiter) && Explains(s.limiter, key, h, since) && since <= op.now
    requires op.CheckRateLimit? ==> op.cost >= 0.0
    requires op.ResetKey? ==> op.key != key
    ensures t == Apply(s, op).0 && granted == GrantedBy(op, Apply(s, op).1, key)
    ensures Configured(t.limiter) && SameSettings(s.limiter, t.limiter)
    ensures Explains(t.limiter, key, h + granted, op.now)
    ensures Bounded(s.limiter, h) ==> Bounded(t.limiter, h + granted)
  {
    t, granted := Apply(s, op).0, GrantedBy(op, Apply(s, op).1, key);
    ExplainsLater(s.limiter, key, h, since, op.now);
    OpExplained(s, op, key, h);
    ApplyTidy(s, op);
    if Bounded(s.limiter, h) {
      if granted == [] { assert h + granted == h; }
      else { GrantBounded(s.limiter, h, op.cost, op.now); }
      BoundedSettings(s.limiter, t.limiter, h + granted);
    }
  }

  lemma {:induction false} SettingsChain(a: Limiter, b: Limiter, c: Limiter)
    requires SameSettings(a, b) && SameSettings(b, c)
    ensures SameSettings(a, c) && SameSettings(b, a)
  {
  }

  /** Over a whole run, sweeps included, what the limiter remembers is the naive filter and
      sum over everything it has admitted for the key. */
  lemma {:induction false} RunIsNaive(s: State, ops: seq<Op>, key: Key, h: seq<Entry>, since: real)
    requires Configured(s.limiter) && Explains(s.limiter, key, h, since)
    requires Monotone(ops, since) && Priced(ops) && NeverReset(ops, key)
    ensures Explains(Run(s, ops).limiter, key, h + Granted(s, ops, key), Ended(ops, since))
    ensures SameSettings(s.limiter, Run(s, ops).limiter)
    ensures Bounded(s.limiter, h) ==> Bounded(Run(s, ops).limiter, h + Granted(s, ops, key))
    decreases |ops|
  {
    if ops == [] {
      assert h + Granted(s, ops, key) == h;
    } else {
      assert ops[0] in ops && forall op <- ops[1..] :: op in ops;
      var t, granted := StepExplained(s, ops[0], key, h, since);
      Unfold(s, ops, key, h, since, t, granted);
      RunIsNaive(t, ops[1..], key, h + granted, ops[0].now);
      SettingsChain(s.limiter, t.limiter, Run(t, ops[1..]).limiter);
    }
  }

  lemma {:induction false} NewIsExplained(l: Limiter, key: Key, now: real)
    requires Configured(l) && !l.Tokens? && Untouched(l)
    ensures Explains(l, key, [], now)
  {
  }

  /** The next check, whatever came before, is decided by the naive form over the history; the
      occupancy a leaky bucket paces by is the naive sum, nothing for an empty queue. */
  lemma {:induction false} AdmitsLikeNaive(l: Limiter, ops: seq<Op>, key: Key, cost: real, now: real)
    requires Configured(l) && !l.Tokens? && Untouched(l)
    requires Ordinary(ops) && NeverReset(ops, key) && Ended(ops, now) <= now
    ensures var s := State(l, map[]);
            var answer := Check(Run(s, ops).limiter, key, cost, now).1;
            var used := Usage(l, Granted(s, ops, key), now);
            (answer.Admitted? <==> used + cost <= Capacity(l)) &&
            (l.Window? && answer.Admitted? ==> answer.occupancy == used)
  {
    var s := State(l, map[]);
    var since := if ops == [] then now else ops[0].now;
    NewIsExplained(l, key, since);
    RunIsNaive(s, ops, key, [], since);
    var end := Run(s, ops).limiter;
    var h := Granted(s, ops, key);
    assert [] + h == h;
    ExplainsLater(end, key, h, Ended(ops, since), now);
    CheckAt(end, key, cost, now, key);
    NaiveAdmits(end, h, cost, now);
    SettingsOnly(l, end, h, now);
  }

  // ---------- bounds over intervals ----------

  // The cost admitted between two instants, both included.
  function Spent(history: seq<Entry>, from: real, to: real): real {
    if history == [] then 0.0
    else
      var last := history[|history| - 1];
      Spent(history[..|history| - 1], from, to) + (if from <= last.timestamp <= to then last.cost else 0.0)
  }

  lemma {:induction false} SpentWithin(l: Limiter, h: seq<Entry>, from: real, to: real, now: real, end: real)
    requires Configured(l) && l.Window? && Ordered(h, end) && now - from <= l.windowMs
    ensures Spent(h, from, to) <= Usage(l, h, now)
  {
    if h != [] {
      var n := |h| - 1;
      SpentWithin(l, h[..n], from, to, now, h[n].timestamp);
      AppendTotal(InScopeOnly(l, h[..n], now), h[n]);
      assert InScopeOnly(l, h[..n], now) + [] == InScopeOnly(l, h[..n], now);
    }
  }

  lemma {:induction false} SpentAppend(h: seq<Entry>, e: Entry, from: real, to: real)
    ensures Spent(h + [e], from, to) == Spent(h, from, to) + (if from <= e.timestamp <= to then e.cost else 0.0)
  {
    assert (h + [e])[..|h|] == h;
  }

  // The cost admitted in the fixed window that holds `probe`.
  lemma {:induction false} UsageAppend(l: Limiter, h: seq<Entry>, e: Entry, probe: real)
    requires Configured(l)
    ensures Usage(l, h + [e], probe) == Usage(l, h, probe) + (if InScope(l, e.timestamp, probe) then e.cost else 0.0)
  {
    assert (h + [e])[..|h|] == h;
    AppendTotal(InScopeOnly(l, h, probe), e);
    assert InScopeOnly(l, h, probe) + [] == InScopeOnly(l, h, probe);
  }

  // Nothing over the limit in any interval, or in any fixed window.
  ghost predicate Bounded(l: Limiter, h: seq<Entry>)
    requires Configured(l)
  {
    match l
    case Window(limit, windowMs, _) =>
      forall from: real, to: real :: to - from <= windowMs ==> Spent(h, from, to) <= limit
    case Fixed(max, _, _) => forall probe: real :: Usage(l, h, probe) <= max
    case Tokens(_, _, _, _) => true
  }

  lemma {:induction false} GrantBounded(l: Limiter, h: seq<Entry>, cost: real, now: real)
    requires Configured(l) && !l.Tokens? && Bounded(l, h) && Ordered(h, now) && cost >= 0.0
    requires Usage(l, h, now) + cost <= Capacity(l)
    ensures Bounded(l, h + [Entry(now, cost)])
  {
    var e := Entry(now, cost);
    if l.Window? {
      forall from: real, to: real | to - from <= l.windowMs
        ensures Spent(h + [e], from, to) <= l.limit
      {
        SpentAppend(h, e, from, to);
        if from <= now <= to { SpentWithin(l, h, from, to, now, now); }
      }
    } else {
      forall probe: real
        ensures Usage(l, h + [e], probe) <= l.maxRequests
      {
        UsageAppend(l, h, e, probe);
        if InScope(l, now, probe) { SameScope(l, h, now, probe); }
      }
    }
  }

  lemma {:induction false} BoundedSettings(a: Limiter, b: Limiter, h: seq<Entry>)
    requires Configured(a) && Configured(b) && SameSettings(a, b) && Bounded(a, h)
    ensures Bounded(b, h)
  {
    if a.Fixed? {
      forall probe: real
        ensures Usage(b, h, probe) <= b.maxRequests
      {
        SettingsOnly(a, b, h, probe);
        assert Usage(a, h, probe) <= a.maxRequests;
      }
    }
  }

  /** In any interval of one window's length, not just those that end at a check, a sliding
      window (or leaky queue) admits at most its limit; a fixed window, at most its own. */
  lemma {:induction false} AdmissionsBounded(l: Limiter, ops: seq<Op>, key: Key)
    requires Configured(l) && !l.Tokens? && Untouched(l)
    requires Ordinary(ops) && NeverReset(ops, key)
    ensures Bounded(l, Granted(State(l, map[]), ops, key))
  {
    var since := if ops == [] then 0.0 else ops[0].now;
    NewIsExplained(l, key, since);
    var s := State(l, map[]);
    RunIsNaive(s, ops, key, [], since);
    assert [] + Granted(s, ops, key) == Granted(s, ops, key);
    SettingsChain(l, Run(s, ops).limiter, l);
    BoundedSettings(Run(s, ops).limiter, l, Granted(s, ops, key));
  }
}
