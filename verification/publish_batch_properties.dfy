/** For any sequence of verdicts: nothing confirmed is published again, and the call resolves
    exactly when everything is confirmed. */
module PublishBatchProperties {
  import opened Wrappers
  import opened PublishBatchSpec

  // The broker confirmed a publish of `i` in this round.
  predicate ConfirmedIn(r: Round, i: nat) { i in r.published && i in r.confirms }

  predicate Confirmed(rounds: seq<Round>, i: nat) {
    rounds != [] && (Confirmed(rounds[..|rounds| - 1], i) || ConfirmedIn(rounds[|rounds| - 1], i))
  }

  function Open(size: nat, rounds: seq<Round>): seq<nat> {
    if rounds == [] then Indices(size)
    else
      var last := rounds[|rounds| - 1];
      if last.published == [] then Open(size, rounds[..|rounds| - 1])
      else Left(Open(size, rounds[..|rounds| - 1]), last.confirms)
  }

  /** Every round published nothing, or exactly what no earlier round had confirmed. */
  predicate Disciplined(size: nat, rounds: seq<Round>) {
    rounds == [] ||
    (var n := |rounds| - 1;
     Disciplined(size, rounds[..n]) && (rounds[n].published == [] || rounds[n].published == Open(size, rounds[..n])))
  }

  predicate Inv(b: Batch) {
    Disciplined(b.size, b.rounds) && b.unconfirmed == Open(b.size, b.rounds)
  }

  lemma {:induction false} LeftMembers(ids: seq<nat>, confirms: set<nat>)
    ensures forall i: nat :: i in Left(ids, confirms) <==> i in ids && i !in confirms
  {
    if ids != [] {
      LeftMembers(ids[..|ids| - 1], confirms);
      assert ids == ids[..|ids| - 1] + [ids[|ids| - 1]];
    }
  }

  lemma {:induction false} LeftShorter(ids: seq<nat>, confirms: set<nat>)
    ensures |Left(ids, confirms)| <= |ids|
  {
    if ids != [] { LeftShorter(ids[..|ids| - 1], confirms); }
  }

  /** Confirmed and unconfirmed partition the batch. */
  lemma {:induction false} OpenIsUnconfirmed(size: nat, rounds: seq<Round>, i: nat)
    requires Disciplined(size, rounds)
    ensures i in Open(size, rounds) <==> i < size && !Confirmed(rounds, i)
  {
    if rounds == [] {
      if i < size { assert Indices(size)[i] == i; }
    } else {
      var n := |rounds| - 1;
      OpenIsUnconfirmed(size, rounds[..n], i);
      LeftMembers(Open(size, rounds[..n]), rounds[n].confirms);
    }
  }

  lemma {:induction false} RecordInv(b: Batch, r: Round, left: seq<nat>)
    requires Inv(b)
    requires r.published == [] ==> left == b.unconfirmed
    requires r.published != [] ==> r.published == b.unconfirmed && left == Left(b.unconfirmed, r.confirms)
    ensures Inv(Record(b, r).(unconfirmed := left))
  {
    assert (b.rounds + [r])[..|b.rounds|] == b.rounds;
  }

  /** One attempt keeps the discipline; while something is unconfirmed, it succeeds exactly
      when it leaves nothing so. */
  lemma {:induction false} OperateKeeps(b: Batch, a: Attempt)
    requires Inv(b) && b.unconfirmed != []
    ensures Inv(Operate(b, a).0) && Operate(b, a).0.size == b.size
    ensures Operate(b, a).1 <==> Operate(b, a).0.unconfirmed == []
    ensures |Operate(b, a).0.rounds| == |b.rounds| + 1
  {
    var r := Operate(b, a).0.rounds[|b.rounds|];
    RecordInv(b, r, Operate(b, a).0.unconfirmed);
  }

  lemma {:induction false} ExecuteKeeps(b: Batch, attempts: nat, world: nat -> Attempt)
    requires attempts > 0 && Inv(b) && b.unconfirmed != []
    ensures Inv(Execute(b, attempts, world).0) && Execute(b, attempts, world).0.size == b.size
    ensures Execute(b, attempts, world).1 <==> Execute(b, attempts, world).0.unconfirmed == []
    ensures |b.rounds| < |Execute(b, attempts, world).0.rounds| <= |b.rounds| + attempts
    decreases attempts
  {
    var a := world(|b.rounds|);
    var (after, ok) := Operate(b, a);
    OperateKeeps(b, a);
    if !(ok || attempts == 1 || !a.again) { ExecuteKeeps(after, attempts - 1, world); }
  }

  lemma {:induction false} NewInv(size: nat)
    requires size > 0
    ensures Inv(NewBatch(size)) && NewBatch(size).unconfirmed != []
  {
    assert |Indices(size)| == size;
  }

  /** The call resolves exactly when every message of the batch was confirmed. */
  lemma {:induction false} ResolvesExactlyWhenConfirmed(size: nat, maxRetries: Option<int>, world: nat -> Attempt)
    requires size > 0
    ensures var r := PublishedBatch(size, maxRetries, true, world);
            r.Finished? && (r.resolved <==> forall i: nat :: i < size ==> Confirmed(r.batch.rounds, i))
  {
    var b := NewBatch(size);
    NewInv(size);
    ExecuteKeeps(b, Attempts(maxRetries), world);
    var end := Execute(b, Attempts(maxRetries), world).0;
    if end.unconfirmed == [] {
      forall i: nat | i < size
        ensures Confirmed(end.rounds, i)
      {
        OpenIsUnconfirmed(size, end.rounds, i);
      }
    } else {
      OpenIsUnconfirmed(size, end.rounds, end.unconfirmed[0]);
    }
  }

  lemma {:induction false} ConfirmedStays(rounds: seq<Round>, k: nat, i: nat)
    requires k < |rounds| && ConfirmedIn(rounds[k], i)
    ensures Confirmed(rounds, i)
  {
    if k < |rounds| - 1 { ConfirmedStays(rounds[..|rounds| - 1], k, i); }
  }

  lemma {:induction false} DisciplinedPrefix(size: nat, rounds: seq<Round>, n: nat)
    requires n <= |rounds| && Disciplined(size, rounds)
    ensures Disciplined(size, rounds[..n])
    decreases |rounds| - n
  {
    if n < |rounds| {
      DisciplinedPrefix(size, rounds, n + 1);
      assert rounds[..n + 1][..n] == rounds[..n];
    } else {
      assert rounds[..n] == rounds;
    }
  }

  lemma {:induction false} PublishedInRound(size: nat, rounds: seq<Round>, k: nat, i: nat)
    requires Disciplined(size, rounds) && k < |rounds| && rounds[k].published != []
    ensures i in rounds[k].published <==> i < size && !Confirmed(rounds[..k], i)
  {
    DisciplinedPrefix(size, rounds, k + 1);
    assert rounds[..k + 1][..k] == rounds[..k];
    OpenIsUnconfirmed(size, rounds[..k], i);
  }

  /** A message confirmed in one attempt is in no later one; and an attempt that publishes at
      all publishes every message still unconfirmed. */
  lemma {:induction false} NeverPublishedAgain(size: nat, rounds: seq<Round>, j: nat, k: nat, i: nat)
    requires Disciplined(size, rounds) && j < k < |rounds|
    requires ConfirmedIn(rounds[j], i)
    ensures i !in rounds[k].published
  {
    if rounds[k].published != [] {
      PublishedInRound(size, rounds, k, i);
      ConfirmedStays(rounds[..k], j, i);
    }
  }

  // ---------- totals ----------

  function Publishes(rounds: seq<Round>): nat {
    if rounds == [] then 0 else Publishes(rounds[..|rounds| - 1]) + |rounds[|rounds| - 1].published|
  }

  lemma {:induction false} OpenAtMost(size: nat, rounds: seq<Round>)
    ensures |Open(size, rounds)| <= size
  {
    if rounds != [] {
      OpenAtMost(size, rounds[..|rounds| - 1]);
      LeftShorter(Open(size, rounds[..|rounds| - 1]), rounds[|rounds| - 1].confirms);
    }
  }

  lemma {:induction false} PublishesAtMost(size: nat, rounds: seq<Round>)
    requires Disciplined(size, rounds)
    ensures Publishes(rounds) <= |rounds| * size
  {
    if rounds != [] {
      var n := |rounds| - 1;
      PublishesAtMost(size, rounds[..n]);
      OpenAtMost(size, rounds[..n]);
      assert (n + 1) * size == n * size + size;
    }
  }

  // Of what each round published, the rest was not confirmed there.
  function Wasted(rounds: seq<Round>): nat {
    if rounds == [] then 0
    else
      Wasted(rounds[..|rounds| - 1]) + |Left(rounds[|rounds| - 1].published, rounds[|rounds| - 1].confirms)|
  }

  /** Every publish is a message's only confirmed one or a failed one: publishes and messages
      still open together count the batch once and every failure once more. */
  lemma {:induction false} PublishesBalance(size: nat, rounds: seq<Round>)
    requires Disciplined(size, rounds)
    ensures Publishes(rounds) + |Open(size, rounds)| == size + Wasted(rounds)
  {
    if rounds != [] {
      PublishesBalance(size, rounds[..|rounds| - 1]);
    }
  }

  lemma {:induction false} ProductMonotone(a: nat, b: nat, c: nat)
    requires a <= b
    ensures a * c <= b * c
  {
  }

  /** At most attempts times batch size publishes, in at most max(1, maxRetries ?? 3) attempts. */
  lemma {:induction false} BoundedPublishes(size: nat, maxRetries: Option<int>, world: nat -> Attempt)
    requires size > 0
    ensures var b := Execute(NewBatch(size), Attempts(maxRetries), world).0;
            0 < |b.rounds| <= Attempts(maxRetries) &&
            Publishes(b.rounds) <= Attempts(maxRetries) * size &&
            Disciplined(size, b.rounds)
  {
    NewInv(size);
    ExecuteKeeps(NewBatch(size), Attempts(maxRetries), world);
    var b := Execute(NewBatch(size), Attempts(maxRetries), world).0;
    PublishesAtMost(size, b.rounds);
    ProductMonotone(|b.rounds|, Attempts(maxRetries), size);
  }

  /** In a whole call: whatever the verdicts, a confirmed message is never published again. */
  lemma {:induction false} RetriesOnlyUnconfirmed(
    size: nat, maxRetries: Option<int>, world: nat -> Attempt, j: nat, k: nat, i: nat)
    requires size > 0 && j < k
    ensures var rounds := Execute(NewBatch(size), Attempts(maxRetries), world).0.rounds;
            k < |rounds| && ConfirmedIn(rounds[j], i) ==> i !in rounds[k].published
  {
    BoundedPublishes(size, maxRetries, world);
    var rounds := Execute(NewBatch(size), Attempts(maxRetries), world).0.rounds;
    if k < |rounds| && ConfirmedIn(rounds[j], i) { NeverPublishedAgain(size, rounds, j, k, i); }
  }

  // ---------- encoding is memoized ----------

  function Encodings(rounds: seq<Round>): nat {
    if rounds == [] then 0 else Encodings(rounds[..|rounds| - 1]) + (if rounds[|rounds| - 1].encoded then 1 else 0)
  }

  predicate EncodedFirst(b: Batch) {
    Encodings(b.rounds) == (if b.prepared then 1 else 0) && (!b.prepared ==> Publishes(b.rounds) == 0)
  }

  lemma {:induction false} OperateEncodes(b: Batch, a: Attempt)
    requires EncodedFirst(b)
    ensures EncodedFirst(Operate(b, a).0)
  {
    var rounds := Operate(b, a).0.rounds;
    assert rounds[..|rounds| - 1] == b.rounds;
  }

  /** The batch is encoded successfully at most once, and before anything of it is published. */
  lemma {:induction false} EncodedOnce(b: Batch, attempts: nat, world: nat -> Attempt)
    requires attempts > 0 && EncodedFirst(b)
    ensures EncodedFirst(Execute(b, attempts, world).0)
    decreases attempts
  {
    var a := world(|b.rounds|);
    OperateEncodes(b, a);
    if !(Operate(b, a).1 || attempts == 1 || !a.again) { EncodedOnce(Operate(b, a).0, attempts - 1, world); }
  }
}
