/** publishBatch with its loops. */
module PublishingBatch {
  import opened Wrappers
  import opened PublishBatchSpec

  // Publishes what is unconfirmed, one by one, and drops what the broker confirms.
  method PublishUnconfirmed(unconfirmed: seq<nat>, confirms: set<nat>)
    returns (published: seq<nat>, left: seq<nat>, failed: bool)
    ensures published == unconfirmed
    ensures left == Left(unconfirmed, confirms)
    ensures failed <==> left != []
  {
    published, left, failed := [], [], false;
    for n := 0 to |unconfirmed|
      invariant published == unconfirmed[..n]
      invariant left == Left(unconfirmed[..n], confirms)
      invariant failed <==> left != []
    {
      var index := unconfirmed[n];
      published := published + [index];
      assert unconfirmed[..n + 1][..n] == unconfirmed[..n];
      if index !in confirms {
        left := left + [index];
        failed := true;
      }
    }
    assert unconfirmed[..|unconfirmed|] == unconfirmed;
  }

  method BatchOperation(b: Batch, a: Attempt) returns (after: Batch, ok: bool)
    ensures (after, ok) == Operate(b, a)
  {
    if !a.runs || !a.channel || (!b.prepared && !a.encodes) {
      return Record(b, Round([], {}, false)), false;
    }
    var published, left, failed := PublishUnconfirmed(b.unconfirmed, a.confirms);
    after := Record(b.(unconfirmed := left, prepared := true), Round(published, a.confirms, !b.prepared));
    ok := !failed;
  }

  method PublishBatch(size: nat, maxRetries: Option<int>, admitted: bool, world: nat -> Attempt)
    returns (result: Result)
    ensures result == PublishedBatch(size, maxRetries, admitted, world)
  {
    if size == 0 { return InvalidBatch; }
    if !admitted { return NotAdmitted; }
    var b := NewBatch(size);
    var attempts := Attempts(maxRetries);
    var ok := false;
    while true
      invariant attempts > 0 && !ok
      invariant Execute(b, attempts, world) == Execute(NewBatch(size), Attempts(maxRetries), world)
      decreases attempts
    {
      var a := world(|b.rounds|);
      b, ok := BatchOperation(b, a);
      if ok || attempts == 1 || !a.again { break; }
      attempts := attempts - 1;
    }
    result := Finished(b, ok);
  }
}
