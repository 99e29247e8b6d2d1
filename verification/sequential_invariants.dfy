/** What every event of the sequential processor keeps: each delivery is in exactly one
    place, and each parked message can still be found by whoever will release it. */
module SequentialInvariants {
  import opened Wrappers
  import opened SequentialSpec

  function Count(b: bool): nat { if b then 1 else 0 }

  function Settlements(log: seq<Happening>, d: Delivery): nat {
    if log == [] then 0
    else
      var last := log[|log| - 1];
      Settlements(log[..|log| - 1], d) + Count(last.Settle? && last.delivery == d)
  }

  predicate Running(s: State, d: Delivery) {
    d in s.frames && s.frames[d].InCallback?
  }

  predicate IsParked(s: State, d: Delivery) {
    d.id.Some? && d.id.value in s.pending && s.pending[d.id.value].delivery == d
  }

  // How many times the delivery is accounted for.
  function Places(s: State, d: Delivery): nat {
    Count(Running(s, d)) + Count(IsParked(s, d)) + Count(d in s.discarded) + Settlements(s.log, d)
  }

  /** Every delivery handed in is running, parked, discarded or settled: exactly one of
      these, and settled at most once. No other delivery appears anywhere. */
  ghost predicate Accounted(s: State) {
    forall d: Delivery :: Places(s, d) == Count(d in s.handed)
  }

  // `d0` has been taken out of its place and is about to be handled.
  ghost predicate AccountedBut(s: State, d0: Delivery) {
    d0 in s.handed && forall d: Delivery :: Places(s, d) == Count(d in s.handed && d != d0)
  }

  ghost predicate WellParked(s: State) {
    forall id :: id in s.pending ==>
      s.pending[id].delivery.id == Some(id) && s.pending[id].delivery.dependsOn == Some(s.pending[id].dependsOn)
  }

  ghost predicate ReleasersSettled(s: State) {
    forall k :: k in s.frames && s.frames[k].Releasing? ==> Settlements(s.log, k) >= 1
  }

  predicate InLoop(s: State, k: Delivery, id: MessageId, dependency: MessageId) {
    k in s.frames && s.frames[k].Releasing? && k.id == Some(dependency) && id in s.frames[k].rest
  }

  ghost predicate Findable(s: State, id: MessageId, dependency: MessageId) {
    (dependency in s.index && id in s.index[dependency]) || exists k :: InLoop(s, k, id, dependency)
  }

  ghost predicate NoOrphan(s: State) {
    forall id :: id in s.pending ==> Findable(s, id, s.pending[id].dependsOn)
  }

  ghost predicate Consistent(s: State) {
    WellParked(s) && ReleasersSettled(s) && NoOrphan(s)
  }

  ghost predicate Inv(s: State) {
    Accounted(s) && Consistent(s)
  }

  lemma {:induction false} SettlementsAppend(log: seq<Happening>, h: Happening, d: Delivery)
    ensures Settlements(log + [h], d) == Settlements(log, d) + Count(h.Settle? && h.delivery == d)
  {
    assert (log + [h])[..|log|] == log;
  }

  lemma {:induction false} IndexPendingKeepsOthers(s: State, id: MessageId, dependency: MessageId)
    ensures forall x, y :: Findable(s, x, y) ==> Findable(IndexPending(s, id, dependency), x, y)
    ensures Findable(IndexPending(s, id, dependency), id, dependency)
  {
    var t := IndexPending(s, id, dependency);
    forall x, y | Findable(s, x, y) ensures Findable(t, x, y) {
      if !(y in s.index && x in s.index[y]) {
        var k :| InLoop(s, k, x, y);
        assert InLoop(t, k, x, y);
      }
    }
  }

  // What HandleNow appends to the log.
  function Reaction(s: State, d: Delivery): Happening {
    if !MustWait(s, d) then Start(d)
    else if d.id.value in s.pending then Settle(d, Duplicate)
    else Park(d)
  }

  lemma {:induction false} StartPlaces(s: State, d: Delivery, now: int, e: Delivery)
    requires Places(s, d) == 0
    ensures Places(StartCallback(s, d, now), e) == Places(s, e) + Count(e == d)
  {
    SettlementsAppend(s.log, Start(d), e);
  }

  lemma {:induction false} ParkPlaces(s: State, d: Delivery, now: int, e: Delivery)
    requires d.id.Some? && d.dependsOn.Some? && d.id.value !in s.pending && WellParked(s)
    requires Places(s, d) == 0
    ensures Places(ParkDelivery(s, d, now), e) == Places(s, e) + Count(e == d)
  {
    SettlementsAppend(s.log, Park(d), e);
  }

  lemma {:induction false} HandleNowPlaces(s: State, d: Delivery, now: int, e: Delivery)
    requires Places(s, d) == 0 && WellParked(s)
    ensures Places(HandleNow(s, d, now), e) == Places(s, e) + Count(e == d)
  {
    if !MustWait(s, d) {
      StartPlaces(s, d, now, e);
    } else if d.id.value in s.pending {
      SettlementsAppend(s.log, Settle(d, Duplicate), e);
    } else {
      ParkPlaces(s, d, now, e);
    }
  }

  lemma {:induction false} HandleNowAccounts(s: State, d: Delivery, now: int)
    requires AccountedBut(s, d) && WellParked(s)
    ensures Accounted(HandleNow(s, d, now))
  {
    var t := HandleNow(s, d, now);
    assert t.handed == s.handed;
    assert Places(s, d) == Count(d in s.handed && d != d);
    forall e: Delivery ensures Places(t, e) == Count(e in t.handed) {
      assert Places(s, e) == Count(e in s.handed && e != d);
      HandleNowPlaces(s, d, now, e);
    }
  }

  lemma {:induction false} HandleNowWell(s: State, d: Delivery, now: int)
    requires WellParked(s) && ReleasersSettled(s)
    ensures WellParked(HandleNow(s, d, now)) && ReleasersSettled(HandleNow(s, d, now))
  {
    AppendKeepsReleasers(s, HandleNow(s, d, now), Reaction(s, d));
  }

  lemma {:induction false} HandleNowFinds(s: State, d: Delivery, now: int)
    requires AccountedBut(s, d) && Consistent(s)
    ensures NoOrphan(HandleNow(s, d, now))
  {
    var t := HandleNow(s, d, now);
    assert Places(s, d) == 0;
    if MustWait(s, d) && d.id.value !in s.pending {
      var id, dependency := d.id.value, d.dependsOn.value;
      var u := s.(pending := s.pending[id := Parked(d, dependency, now)], log := s.log + [Park(d)]);
      IndexPendingKeepsOthers(u, id, dependency);
      forall x | x in t.pending ensures Findable(t, x, t.pending[x].dependsOn) {
        if x != id { SameFindable(s, u, x, t.pending[x].dependsOn); }
      }
    } else {
      forall x | x in t.pending ensures Findable(t, x, t.pending[x].dependsOn) {
        SameFindable(s, t, x, t.pending[x].dependsOn);
      }
    }
  }

  lemma {:induction false} HandleNowKeeps(s: State, d: Delivery, now: int)
    requires AccountedBut(s, d) && Consistent(s)
    ensures Inv(HandleNow(s, d, now))
  {
    HandleNowAccounts(s, d, now);
    HandleNowWell(s, d, now);
    HandleNowFinds(s, d, now);
  }

  lemma {:induction false} AppendKeepsReleasers(s: State, t: State, h: Happening)
    requires ReleasersSettled(s) && t.log == s.log + [h]
    requires forall k :: k in t.frames && t.frames[k].Releasing? ==>
      (k in s.frames && s.frames[k].Releasing?) || (h.Settle? && h.delivery == k)
    ensures ReleasersSettled(t)
  {
    forall k | k in t.frames && t.frames[k].Releasing? ensures Settlements(t.log, k) >= 1 {
      SettlementsAppend(s.log, h, k);
    }
  }

  // A step that touches neither the index nor a release loop orphans nobody.
  lemma {:induction false} SameFindable(s: State, t: State, x: MessageId, y: MessageId)
    requires Findable(s, x, y) && t.index == s.index
    requires forall k :: k in s.frames && s.frames[k].Releasing? ==> k in t.frames && t.frames[k] == s.frames[k]
    ensures Findable(t, x, y)
  {
    if !(y in s.index && x in s.index[y]) {
      var k :| InLoop(s, k, x, y);
      assert InLoop(t, k, x, y);
    }
  }

  lemma {:induction false} SkipGoneKeepsParked(rest: seq<MessageId>, pending: map<MessageId, Parked>)
    ensures var r := SkipGone(rest, pending); |r| <= |rest| && r == rest[|rest| - |r|..]
    ensures forall x :: x in rest && x in pending ==> x in SkipGone(rest, pending)
  {
    if rest != [] && rest[0] !in pending {
      SkipGoneKeepsParked(rest[1..], pending);
    }
  }

  lemma {:induction false} TakeNextKeeps(s: State, k: Delivery)
    requires Inv(s) && k in s.frames && s.frames[k].Releasing? && SkipGone(s.frames[k].rest, s.pending) != []
    ensures AccountedBut(TakeNext(s, k), s.pending[SkipGone(s.frames[k].rest, s.pending)[0]].delivery)
    ensures Consistent(TakeNext(s, k))
  {
    var rest := SkipGone(s.frames[k].rest, s.pending);
    SkipGoneKeepsParked(s.frames[k].rest, s.pending);
    var d, t := s.pending[rest[0]].delivery, TakeNext(s, k);
    assert IsParked(s, d) && Places(s, d) == Count(d in s.handed);
    forall e: Delivery ensures Places(t, e) == Count(e in t.handed && e != d) {
      assert Places(s, e) == Count(e in s.handed);
    }
    forall x | x in t.pending ensures Findable(t, x, t.pending[x].dependsOn) {
      StillFindable(s, t, k, x, t.pending[x].dependsOn);
    }
  }

  lemma {:induction false} EndLoopKeeps(s: State, k: Delivery)
    requires Inv(s) && k in s.frames && s.frames[k].Releasing?
    requires forall x :: x in s.frames[k].rest ==> x !in s.pending
    ensures Inv(s.(frames := s.frames - {k}))
  {
    var t := s.(frames := s.frames - {k});
    forall d: Delivery ensures Places(t, d) == Count(d in t.handed) {
      assert Places(s, d) == Count(d in s.handed);
    }
    forall x | x in t.pending ensures Findable(t, x, t.pending[x].dependsOn) {
      StillFindable(s, t, k, x, t.pending[x].dependsOn);
    }
  }

  lemma {:induction false} VisitKeeps(s: State, k: Delivery, now: int)
    requires Inv(s) && k in s.frames && s.frames[k].Releasing?
    ensures Inv(Visit(s, k, now))
  {
    var rest := SkipGone(s.frames[k].rest, s.pending);
    if rest == [] {
      SkipGoneKeepsParked(s.frames[k].rest, s.pending);
      EndLoopKeeps(s, k);
    } else {
      TakeNextKeeps(s, k);
      HandleNowKeeps(TakeNext(s, k), s.pending[rest[0]].delivery, now);
    }
  }

  // Only `k`'s own loop moved, and it dropped no id that is still parked.
  lemma {:induction false} StillFindable(s: State, t: State, k: Delivery, x: MessageId, y: MessageId)
    requires Findable(s, x, y) && t.index == s.index
    requires k in s.frames && s.frames[k].Releasing?
    requires forall j :: j in s.frames && j != k ==> j in t.frames && t.frames[j] == s.frames[j]
    requires x in s.frames[k].rest ==> k in t.frames && t.frames[k].Releasing? && x in t.frames[k].rest
    ensures Findable(t, x, y)
  {
    if !(y in s.index && x in s.index[y]) {
      var j :| InLoop(s, j, x, y);
      assert InLoop(t, j, x, y);
    }
  }

  lemma {:induction false} SucceedKeeps(s: State, d: Delivery)
    requires Inv(s) && Running(s, d)
    ensures Inv(Succeed(s, d))
  {
    var t := Succeed(s, d);
    AppendKeepsReleasers(s, t, Settle(d, Success));
    forall e: Delivery ensures Places(t, e) == Count(e in t.handed) {
      SettlementsAppend(s.log, Settle(d, Success), e);
      assert Places(s, e) == Count(e in s.handed);
    }
    forall x | x in t.pending ensures Findable(t, x, t.pending[x].dependsOn) {
      var y := t.pending[x].dependsOn;
      assert Findable(s, x, y);
      if d.id == Some(y) && y in s.index && x in s.index[y] {
        assert InLoop(t, d, x, y);
      } else if !(y in s.index && x in s.index[y]) {
        var k :| InLoop(s, k, x, y);
        assert InLoop(t, k, x, y);
      }
    }
  }

  lemma {:induction false} FailKeeps(s: State, d: Delivery)
    requires Inv(s) && Running(s, d)
    ensures Inv(Fail(s, d))
  {
    var t := Fail(s, d);
    AppendKeepsReleasers(s, t, Settle(d, Failure));
    forall e: Delivery ensures Places(t, e) == Count(e in t.handed) {
      SettlementsAppend(s.log, Settle(d, Failure), e);
      assert Places(s, e) == Count(e in s.handed);
    }
    forall x | x in t.pending ensures Findable(t, x, t.pending[x].dependsOn) {
      SameFindable(s, t, x, t.pending[x].dependsOn);
    }
  }

  lemma {:induction false} ExpireOneKeeps(s: State, id: MessageId)
    requires Inv(s) && id in s.pending
    ensures Inv(ExpireOne(s, id))
  {
    var d := s.pending[id].delivery;
    var t := ExpireOne(s, id);
    assert IsParked(s, d);
    AppendKeepsReleasers(s, t, Settle(d, Expired));
    forall e: Delivery ensures Places(t, e) == Count(e in t.handed) {
      SettlementsAppend(s.log, Settle(d, Expired), e);
      assert Places(s, e) == Count(e in s.handed);
    }
    forall x | x in t.pending ensures Findable(t, x, t.pending[x].dependsOn) {
      var y := t.pending[x].dependsOn;
      assert Findable(s, x, y);
      if !(y in s.index && x in s.index[y]) {
        var k :| InLoop(s, k, x, y);
        assert InLoop(t, k, x, y);
      }
    }
  }

  lemma {:induction false} ExpireAllKeeps(s: State, ids: seq<MessageId>)
    requires Inv(s)
    ensures Inv(ExpireAll(s, ids))
  {
    if ids != [] {
      var t := ExpireAll(s, ids[..|ids| - 1]);
      ExpireAllKeeps(s, ids[..|ids| - 1]);
      if ids[|ids| - 1] in t.pending { ExpireOneKeeps(t, ids[|ids| - 1]); }
    }
  }

  lemma {:induction false} ForgetStaleKeeps(s: State, now: int)
    requires Inv(s)
    ensures Inv(ForgetStale(s, now))
  {
    var t := ForgetStale(s, now);
    forall e: Delivery ensures Places(t, e) == Count(e in t.handed) {
      assert Places(s, e) == Count(e in s.handed);
    }
    forall x | x in t.pending ensures Findable(t, x, t.pending[x].dependsOn) {
      SameFindable(s, t, x, t.pending[x].dependsOn);
    }
  }

  lemma {:induction false} DiscardKeeps(s: State)
    requires Inv(s)
    ensures Inv(Discard(s))
  {
    var t := Discard(s);
    forall d: Delivery ensures Places(t, d) == Count(d in t.handed) {
      assert Places(s, d) == Count(d in s.handed);
      assert d in t.discarded <==> d in s.discarded || IsParked(s, d);
    }
  }

  lemma {:induction false} StepKeeps(s: State, e: Event)
    requires Inv(s)
    ensures Inv(Step(s, e))
  {
    if Enabled(s, e) {
      match e
      case Deliver(d, now) =>
        var t := s.(handed := s.handed + {d});
        forall x: Delivery ensures Places(t, x) == Count(x in t.handed && x != d) {
          assert Places(s, x) == Count(x in s.handed);
        }
        forall x | x in t.pending ensures Findable(t, x, t.pending[x].dependsOn) {
          SameFindable(s, t, x, t.pending[x].dependsOn);
        }
        HandleNowKeeps(t, d, now);
      case CallbackSucceeds(d, now) =>
        SucceedKeeps(s, d);
        var t := Succeed(s, d);
        if d in t.frames { VisitKeeps(t, d, now); }
      case CallbackFails(d) => FailKeeps(s, d);
      case Resume(k, now) => VisitKeeps(s, k, now);
      case Sweep(now, expired) =>
        ForgetStaleKeeps(s, now);
        ExpireAllKeeps(ForgetStale(s, now), expired);
      case Dispose => DiscardKeeps(s);
    }
  }

  /** Conservation and no orphan, over every run from a new processor. */
  lemma {:induction false} RunKeeps(staleTimeout: int, events: seq<Event>)
    ensures Inv(Run(Init(staleTimeout), events))
  {
    if events != [] {
      RunKeeps(staleTimeout, events[..|events| - 1]);
      StepKeeps(Run(Init(staleTimeout), events[..|events| - 1]), events[|events| - 1]);
    }
  }
}
