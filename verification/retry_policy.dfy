/** The retry decision of src/consumers/consumer-manager.js, and what it adds up to over
    the deliveries of one message against a broker that counts them or does not. */
module RetryPolicy {
  import opened Wrappers

  datatype RawPolicy = Absent | NoRetry | OneRetry | AttemptsOf(attempts: int) | Other

  datatype Policy = Never | Once | Attempts(budget: int)

  // The policies `#resolveRetryPolicy` lets through.
  predicate Accepted(p: Policy) {
    p.Attempts? ==> p.budget > 0
  }

  // How a subscription writes a policy.
  function Written(p: Policy): RawPolicy {
    match p
    case Never => NoRetry
    case Once => OneRetry
    case Attempts(n) => AttemptsOf(n)
  }

  /** A missing policy is the default of the subscription kind; anything else that is not a
      policy is refused. */
  function Resolve(raw: RawPolicy, default: Policy): (r: Option<Policy>)
    requires Accepted(default)
    ensures r.Some? ==> Accepted(r.value)
    ensures raw.Absent? ==> r == Some(default)
    ensures r.Some? && !raw.Absent? ==> Written(r.value) == raw
    ensures r.None? <==> raw.Other? || (raw.AttemptsOf? && raw.attempts <= 0)
  {
    match raw
    case Absent => Some(default)
    case NoRetry => Some(Never)
    case OneRetry => Some(Once)
    case AttemptsOf(n) => if n > 0 then Some(Attempts(n)) else None
    case Other => None
  }

  // What the decision reads of a delivery: the redelivered flag and a finite x-delivery-count.
  datatype Message = Message(redelivered: bool, counter: Option<int>)

  predicate ShouldRequeue(m: Message, retryable: bool, p: Policy) {
    if p.Never? || !retryable then false
    else if p.Once? then !m.redelivered
    else if m.counter.Some? then m.counter.value + 1 < p.budget
    else if !m.redelivered then p.budget > 1
    else false
  }

  /** A quorum queue omits the counter on the first delivery and then sends the number of
      prior deliveries; a classic queue never sends it. */
  datatype Queue = Quorum | Classic

  function MessageAt(q: Queue, prior: nat): Message {
    Message(prior > 0, if q.Quorum? && prior > 0 then Some(prior) else None)
  }

  // How one delivery ends: the handler throws, or the connection drops and the broker requeues.
  datatype Ending = Throws(retryable: bool) | Drops

  /** `prior` deliveries so far, of which the client requeued `requeues`; settled once the
      client let the message go. */
  datatype Progress = Progress(prior: nat, requeues: nat, settled: bool)

  function Next(p: Policy, q: Queue, at: Progress, e: Ending): Progress {
    if at.settled then at
    else if e.Drops? then at.(prior := at.prior + 1)
    else if ShouldRequeue(MessageAt(q, at.prior), e.retryable, p) then
      Progress(at.prior + 1, at.requeues + 1, false)
    else Progress(at.prior + 1, at.requeues, true)
  }

  function After(p: Policy, q: Queue, endings: seq<Ending>): Progress {
    if endings == [] then Progress(0, 0, false)
    else Next(p, q, After(p, q, endings[..|endings| - 1]), endings[|endings| - 1])
  }

  /** An always failing message on a queue that counts is delivered exactly N times. */
  lemma {:induction false} DeliveredExactly(n: nat, endings: seq<Ending>)
    requires n > 0 && forall i :: 0 <= i < |endings| ==> endings[i] == Throws(true)
    ensures var at := After(Attempts(n), Quorum, endings);
            at.prior == (if |endings| < n then |endings| else n) && (at.settled <==> |endings| >= n)
  {
    if endings != [] {
      DeliveredExactly(n, endings[..|endings| - 1]);
    }
  }

  // The most requeues the client asks for under each policy.
  function Ceiling(p: Policy, q: Queue): int
    requires Accepted(p)
  {
    match p
    case Never => 0
    case Once => 1
    case Attempts(n) => if q.Quorum? || n == 1 then n - 1 else 1
  }

  /** However handler failures and connection drops interleave, the client asks for no more
      requeues than that, nor for more than one per delivery. */
  lemma {:induction false} RequeuesBounded(p: Policy, q: Queue, endings: seq<Ending>)
    requires Accepted(p)
    ensures var at := After(p, q, endings); at.requeues <= Ceiling(p, q) && at.requeues <= at.prior <= |endings|
  {
    if endings != [] {
      var before := endings[..|endings| - 1];
      RequeuesBounded(p, q, before);
      RequeuesNeedEarly(p, q, before);
    }
  }

  // A requeue was granted only on one of the first deliveries.
  lemma {:induction false} RequeuesNeedEarly(p: Policy, q: Queue, endings: seq<Ending>)
    requires Accepted(p)
    ensures var at := After(p, q, endings); at.requeues <= at.prior && (at.requeues > 0 ==> at.prior > 0)
  {
    if endings != [] {
      RequeuesNeedEarly(p, q, endings[..|endings| - 1]);
    }
  }

  // The delivery with `prior` deliveries before it is the last one if it ends like this.
  predicate LetsGo(p: Policy, q: Queue, prior: nat, e: Ending) {
    e.Throws? && (!e.retryable ||
      match p
      case Never => true
      case Once => prior > 0
      case Attempts(n) => if q.Quorum? then prior + 1 >= n else prior > 0 || n <= 1)
  }

  /** When the client lets a message go: at its first failure that is not retryable or
      falls outside the budget, the budget counting connection drops like failures. */
  lemma {:induction false} SettledExactly(p: Policy, q: Queue, endings: seq<Ending>)
    requires Accepted(p)
    ensures After(p, q, endings).settled <==> exists i :: 0 <= i < |endings| && LetsGo(p, q, i, endings[i])
    ensures !After(p, q, endings).settled ==> After(p, q, endings).prior == |endings|
  {
    if endings != [] {
      var before, last := endings[..|endings| - 1], |endings| - 1;
      SettledExactly(p, q, before);
      if After(p, q, before).settled {
        var i :| 0 <= i < |before| && LetsGo(p, q, i, before[i]);
        assert LetsGo(p, q, i, endings[i]);
      } else {
        assert forall i :: 0 <= i < last ==> !LetsGo(p, q, i, before[i]) && before[i] == endings[i];
      }
    }
  }
}
