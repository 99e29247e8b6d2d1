/** What a batch publishes and how often it tries, read off the answers it meets alone. */
module PublishBatchAnswers {
  import opened Wrappers
  import opened PublishBatchSpec
  import opened PublishBatchProperties

  // The attempt gets as far as the codec, and the codec encodes the batch.
  predicate Encodes(world: nat -> Attempt, k: nat) {
    world(k).runs && world(k).channel && world(k).encodes
  }

  predicate EncodedBy(world: nat -> Attempt, n: nat) {
    exists j :: 0 <= j < n && Encodes(world, j)
  }

  lemma {:induction false} EncodedNext(world: nat -> Attempt, n: nat)
    ensures EncodedBy(world, n + 1) <==> EncodedBy(world, n) || Encodes(world, n)
  {
    if j :| 0 <= j < n + 1 && Encodes(world, j) { assert j == n || EncodedBy(world, n); }
  }

  // The attempt publishes: the breaker and a channel let it, and the batch is encoded by now.
  predicate Through(world: nat -> Attempt, k: nat) {
    world(k).runs && world(k).channel && EncodedBy(world, k + 1)
  }

  predicate RoundIs(size: nat, rounds: seq<Round>, world: nat -> Attempt, k: nat)
    requires k < |rounds|
  {
    if Through(world, k) then rounds[k].published == Open(size, rounds[..k]) && rounds[k].confirms == world(k).confirms
    else rounds[k].published == []
  }

  // Every attempt so far did what its answers allow.
  predicate Faithful(b: Batch, world: nat -> Attempt) {
    Inv(b) && (b.prepared <==> EncodedBy(world, |b.rounds|)) &&
    forall k :: 0 <= k < |b.rounds| ==> RoundIs(b.size, b.rounds, world, k)
  }

  lemma {:induction false} OperateFaithful(b: Batch, world: nat -> Attempt)
    requires Faithful(b, world) && b.unconfirmed != []
    ensures Faithful(Operate(b, world(|b.rounds|)).0, world)
  {
    var n := |b.rounds|;
    var t := Operate(b, world(n)).0;
    OperateKeeps(b, world(n));
    EncodedNext(world, n);
    assert t.rounds[..n] == b.rounds;
    forall k | 0 <= k <= n
      ensures RoundIs(t.size, t.rounds, world, k)
    {
      assert t.rounds[..k] == b.rounds[..k];
      if k < n { assert RoundIs(b.size, b.rounds, world, k); }
    }
  }

  ghost predicate AllConfirmed(size: nat, rounds: seq<Round>) {
    forall i: nat :: i < size ==> Confirmed(rounds, i)
  }

  lemma {:induction false} OpenEmpty(size: nat, rounds: seq<Round>)
    requires Disciplined(size, rounds)
    ensures Open(size, rounds) == [] <==> AllConfirmed(size, rounds)
  {
    if Open(size, rounds) == [] {
      forall i: nat | i < size
        ensures Confirmed(rounds, i)
      {
        OpenIsUnconfirmed(size, rounds, i);
      }
    } else {
      OpenIsUnconfirmed(size, rounds, Open(size, rounds)[0]);
    }
  }

  // Tries again exactly while something is open, the failure is retried, and attempts are left.
  ghost predicate StopsRight(size: nat, rounds: seq<Round>, world: nat -> Attempt, from: nat, attempts: nat) {
    from < |rounds| <= from + attempts &&
    (forall k :: from <= k < |rounds| - 1 ==> world(k).again && !AllConfirmed(size, rounds[..k + 1])) &&
    (AllConfirmed(size, rounds) || |rounds| == from + attempts || !world(|rounds| - 1).again)
  }

  lemma {:induction false} ExecuteFaithful(b: Batch, attempts: nat, world: nat -> Attempt)
    requires attempts > 0 && Faithful(b, world) && b.unconfirmed != []
    ensures var end := Execute(b, attempts, world).0;
            Faithful(end, world) && end.size == b.size && b.rounds <= end.rounds
    decreases attempts
  {
    var n := |b.rounds|;
    OperateKeeps(b, world(n));
    OperateFaithful(b, world);
    var (after, ok) := Operate(b, world(n));
    if !(ok || attempts == 1 || !world(n).again) { ExecuteFaithful(after, attempts - 1, world); }
  }

  lemma {:induction false} StopsLater(size: nat, rounds: seq<Round>, world: nat -> Attempt, from: nat, attempts: nat)
    requires attempts > 1 && StopsRight(size, rounds, world, from + 1, attempts - 1)
    requires world(from).again && !AllConfirmed(size, rounds[..from + 1])
    ensures StopsRight(size, rounds, world, from, attempts)
  {
  }

  lemma {:induction false} StopsHere(size: nat, rounds: seq<Round>, world: nat -> Attempt, attempts: nat)
    requires attempts > 0 && rounds != []
    requires AllConfirmed(size, rounds) || attempts == 1 || !world(|rounds| - 1).again
    ensures StopsRight(size, rounds, world, |rounds| - 1, attempts)
  {
  }

  // One attempt, and whether all is confirmed after it.
  lemma {:induction false} OneAttempt(b: Batch, world: nat -> Attempt) returns (after: Batch, ok: bool)
    requires Faithful(b, world) && b.unconfirmed != []
    ensures (after, ok) == Operate(b, world(|b.rounds|)) && Faithful(after, world) && after.size == b.size
    ensures |after.rounds| == |b.rounds| + 1 && (ok <==> AllConfirmed(b.size, after.rounds))
    ensures ok <==> after.unconfirmed == []
  {
    after, ok := Operate(b, world(|b.rounds|)).0, Operate(b, world(|b.rounds|)).1;
    OperateKeeps(b, world(|b.rounds|));
    OperateFaithful(b, world);
    OpenEmpty(after.size, after.rounds);
  }

  lemma {:induction false} EarlierRounds(b: Batch, attempts: nat, world: nat -> Attempt)
    requires attempts > 0 && Faithful(b, world) && b.unconfirmed != []
    ensures var rounds := Execute(b, attempts, world).0.rounds;
            |b.rounds| <= |rounds| && rounds[..|b.rounds|] == b.rounds
  {
    ExecuteFaithful(b, attempts, world);
  }

  lemma {:induction false} ExecuteUnfolds(b: Batch, attempts: nat, world: nat -> Attempt, after: Batch, ok: bool)
    requires attempts > 0 && (after, ok) == Operate(b, world(|b.rounds|))
    ensures Execute(b, attempts, world).0 ==
            if ok || attempts == 1 || !world(|b.rounds|).again then after else Execute(after, attempts - 1, world).0
  {
  }

  lemma {:induction false} ExecuteStops(b: Batch, attempts: nat, world: nat -> Attempt)
    requires attempts > 0 && Faithful(b, world) && b.unconfirmed != []
    ensures StopsRight(b.size, Execute(b, attempts, world).0.rounds, world, |b.rounds|, attempts)
    decreases attempts
  {
    var after, ok := OneAttempt(b, world);
    ExecuteUnfolds(b, attempts, world, after, ok);
    if ok || attempts == 1 || !world(|b.rounds|).again {
      StopsHere(b.size, after.rounds, world, attempts);
    } else {
      ExecuteStops(after, attempts - 1, world);
      EarlierRounds(after, attempts - 1, world);
      StopsLater(b.size, Execute(after, attempts - 1, world).0.rounds, world, |b.rounds|, attempts);
    }
  }

  // Confirmed by one of the first `n` attempts, by their answers alone.
  predicate ConfirmedBy(world: nat -> Attempt, n: nat, i: nat) {
    exists k :: 0 <= k < n && Through(world, k) && i in world(k).confirms
  }

  lemma {:induction false} ConfirmedByNext(world: nat -> Attempt, n: nat, i: nat)
    ensures ConfirmedBy(world, n + 1, i) <==> ConfirmedBy(world, n, i) || (Through(world, n) && i in world(n).confirms)
  {
    if k :| 0 <= k < n + 1 && Through(world, k) && i in world(k).confirms { assert k == n || ConfirmedBy(world, n, i); }
  }

  // What an attempt adds to the confirmed messages.
  lemma {:induction false} RoundConfirms(b: Batch, world: nat -> Attempt, k: nat, i: nat)
    requires Faithful(b, world) && k < |b.rounds| && i < b.size && !Confirmed(b.rounds[..k], i)
    ensures ConfirmedIn(b.rounds[k], i) <==> Through(world, k) && i in world(k).confirms
  {
    assert RoundIs(b.size, b.rounds, world, k);
    DisciplinedPrefix(b.size, b.rounds, k);
    OpenIsUnconfirmed(b.size, b.rounds[..k], i);
  }

  lemma {:induction false} ConfirmedByAnswers(b: Batch, world: nat -> Attempt, n: nat, i: nat)
    requires Faithful(b, world) && n <= |b.rounds| && i < b.size
    ensures Confirmed(b.rounds[..n], i) <==> ConfirmedBy(world, n, i)
  {
    if n > 0 {
      var k := n - 1;
      ConfirmedByAnswers(b, world, k, i);
      ConfirmedByNext(world, k, i);
      assert b.rounds[..n][..k] == b.rounds[..k];
      if !Confirmed(b.rounds[..k], i) { RoundConfirms(b, world, k, i); }
    }
  }

  lemma {:induction false} AllConfirmedByAnswers(b: Batch, world: nat -> Attempt)
    requires Faithful(b, world)
    ensures AllConfirmed(b.size, b.rounds) <==> forall i: nat :: i < b.size ==> ConfirmedBy(world, |b.rounds|, i)
  {
    forall i: nat | i < b.size
      ensures Confirmed(b.rounds, i) <==> ConfirmedBy(world, |b.rounds|, i)
    {
      assert b.rounds[..|b.rounds|] == b.rounds;
      ConfirmedByAnswers(b, world, |b.rounds|, i);
    }
  }

  // `maxRetries`, three by default and one at least.
  function Limit(maxRetries: Option<int>): nat {
    if maxRetries.None? then 3 else if maxRetries.value < 1 then 1 else maxRetries.value
  }

  /** The whole call, by the answers it meets: every attempt that gets through publishes exactly
      what no earlier one had confirmed; it stops once all is confirmed, at a failure that is
      not retried, or after its last attempt; and it resolves exactly when all is confirmed. */
  lemma {:induction false} BatchExactly(size: nat, maxRetries: Option<int>, world: nat -> Attempt)
    requires size > 0
    ensures var r := PublishedBatch(size, maxRetries, true, world);
            r.Finished? && StopsRight(size, r.batch.rounds, world, 0, Limit(maxRetries)) &&
            (forall k :: 0 <= k < |r.batch.rounds| ==> RoundIs(size, r.batch.rounds, world, k)) &&
            (r.resolved <==> forall i: nat :: i < size ==> ConfirmedBy(world, |r.batch.rounds|, i))
  {
    var b, attempts := NewBatch(size), Attempts(maxRetries);
    NewInv(size);
    assert Faithful(b, world);
    ExecuteFaithful(b, attempts, world);
    ExecuteStops(b, attempts, world);
    ExecuteKeeps(b, attempts, world);
    var end := Execute(b, attempts, world).0;
    OpenEmpty(size, end.rounds);
    AllConfirmedByAnswers(end, world);
  }

  /** An empty batch, or one that is not admitted, meets no answer at all. */
  lemma {:induction false} NothingPublished(size: nat, maxRetries: Option<int>, admitted: bool, world: nat -> Attempt)
    ensures PublishedBatch(size, maxRetries, admitted, world).InvalidBatch? <==> size == 0
    ensures PublishedBatch(size, maxRetries, admitted, world).Finished? <==> size > 0 && admitted
  {
  }
}
