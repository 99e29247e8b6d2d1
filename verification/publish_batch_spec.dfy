/** publishBatch of src/messaging/publisher.js: retrying only what was not confirmed. */
module PublishBatchSpec {
  import opened Wrappers

  /** What one attempt meets: whether the circuit breaker lets it run, whether a channel is
      available, whether the codec encodes the batch (asked only while nothing is prepared),
      which publishes the broker confirms, and whether the retry policy retries a failure. */
  datatype Attempt = Attempt(runs: bool, channel: bool, encodes: bool, confirms: set<nat>, again: bool)

  // What one attempt did: the indices it handed to the channel, in order, and the verdicts.
  datatype Round = Round(published: seq<nat>, confirms: set<nat>, encoded: bool)

  /** `unconfirmed` in a Set's insertion order. */
  datatype Batch = Batch(size: nat, unconfirmed: seq<nat>, prepared: bool, rounds: seq<Round>)

  function Indices(size: nat): seq<nat> { seq(size, i requires 0 <= i < size => i) }

  function NewBatch(size: nat): Batch { Batch(size, Indices(size), false, []) }

  // The indices the broker did not confirm.
  function Left(ids: seq<nat>, confirms: set<nat>): seq<nat> {
    if ids == [] then []
    else Left(ids[..|ids| - 1], confirms) + (if ids[|ids| - 1] in confirms then [] else [ids[|ids| - 1]])
  }

  function Record(b: Batch, round: Round): Batch { b.(rounds := b.rounds + [round]) }

  /** `batchOperation`, behind the circuit breaker; true when it did not throw. */
  function Operate(b: Batch, a: Attempt): (Batch, bool) {
    if !a.runs || !a.channel then (Record(b, Round([], {}, false)), false)
    else if !b.prepared && !a.encodes then (Record(b, Round([], {}, false)), false)
    else
      var left := Left(b.unconfirmed, a.confirms);
      (Record(b.(unconfirmed := left, prepared := true), Round(b.unconfirmed, a.confirms, !b.prepared)), left == [])
  }

  /** `policy.execute`: at most `attempts` times, stopping at a failure that is not retried. */
  function Execute(b: Batch, attempts: nat, world: nat -> Attempt): (Batch, bool)
    requires attempts > 0
    decreases attempts
  {
    var a := world(|b.rounds|);
    var (after, ok) := Operate(b, a);
    if ok || attempts == 1 || !a.again then (after, ok) else Execute(after, attempts - 1, world)
  }

  // `Math.max(1, options.maxRetries ?? 3)`
  function Attempts(maxRetries: Option<int>): nat {
    var asked := if maxRetries.Some? then maxRetries.value else 3;
    if asked > 1 then asked else 1
  }

  datatype Result = InvalidBatch | NotAdmitted | Finished(batch: Batch, resolved: bool)

  function PublishedBatch(size: nat, maxRetries: Option<int>, admitted: bool, world: nat -> Attempt): Result {
    if size == 0 then InvalidBatch
    else if !admitted then NotAdmitted
    else
      var (b, ok) := Execute(NewBatch(size), Attempts(maxRetries), world);
      Finished(b, ok)
  }
}
