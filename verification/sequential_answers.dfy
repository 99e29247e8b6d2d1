/** What the sequential processor does with a delivery, stated on its maps and its log: when it
    starts at once, when it waits, and that nobody who waits is passed by. */
module SequentialAnswers {
  import opened Wrappers
  import opened SequentialSpec
  import opened SequentialInvariants
  import opened SequentialOrder
  import opened SequentialLifecycle

  /** A delivery starts at once exactly when it names no dependency, carries no id, or its
      dependency is neither in process nor parked. Otherwise it is parked, or settled as a
      duplicate when its id is parked already. */
  lemma {:induction false} DeliverAnswers(s: State, d: Delivery, now: int)
    requires d !in s.handed
    ensures var t := Step(s, Deliver(d, now));
            t.log == s.log + [Start(d)] <==>
              d.id.None? || d.dependsOn.None? ||
              (d.dependsOn.value !in s.processing && d.dependsOn.value !in s.pending)
    ensures var t := Step(s, Deliver(d, now));
            t.log == s.log + [Park(d)] <==>
              d.id.Some? && d.dependsOn.Some? && d.id.value !in s.pending &&
              (d.dependsOn.value in s.processing || d.dependsOn.value in s.pending)
    ensures var t := Step(s, Deliver(d, now));
            t.log in {s.log + [Start(d)], s.log + [Park(d)], s.log + [Settle(d, Duplicate)]}
    ensures var t := Step(s, Deliver(d, now));
            (t.log == s.log + [Start(d)] ==>
              Running(t, d) && (d.id.Some? ==> d.id.value in t.processing && t.processing[d.id.value] == now)) &&
            (t.log == s.log + [Park(d)] ==> t.pending == s.pending[d.id.value := Parked(d, d.dependsOn.value, now)])
  {
    var u := s.(handed := s.handed + {d});
    HandleNowAppends(u, d, now);
    assert (s.log + [Start(d)])[|s.log|] == Start(d) && (s.log + [Park(d)])[|s.log|] == Park(d);
    assert (s.log + [Settle(d, Duplicate)])[|s.log|] == Settle(d, Duplicate);
  }

  // What a step starts.
  predicate Starts(s: State, t: State, c: Delivery) {
    |s.log| < |t.log| && t.log[|t.log| - 1] == Start(c)
  }

  // It names a dependency other than its own id, and has an id to be parked under.
  predicate Depends(c: Delivery) {
    c.id.Some? && c.dependsOn.Some? && c.dependsOn != c.id
  }

  ghost predicate Free(t: State, c: Delivery) {
    Depends(c) ==> c.dependsOn.value !in t.processing && c.dependsOn.value !in t.pending
  }

  lemma {:induction false} HandleStartsFree(s: State, d: Delivery, now: int)
    ensures var t := HandleNow(s, d, now);
            |t.log| == |s.log| + 1 && (t.log[|s.log|].Start? ==> t.log[|s.log|] == Start(d) && Free(t, d))
  {
    HandleNowAppends(s, d, now);
  }

  lemma {:induction false} VisitStartsFree(s: State, k: Delivery, now: int)
    requires k in s.frames && s.frames[k].Releasing?
    ensures var t := Visit(s, k, now);
            t.log == s.log ||
            (|t.log| == |s.log| + 1 && (t.log[|s.log|].Start? ==> Free(t, t.log[|s.log|].delivery)))
  {
    var rest := SkipGone(s.frames[k].rest, s.pending);
    if rest != [] { HandleStartsFree(TakeNext(s, k), s.pending[rest[0]].delivery, now); }
  }

  lemma {:induction false} ExpireAllStartsNone(s: State, ids: seq<MessageId>)
    ensures |s.log| <= |ExpireAll(s, ids).log|
    ensures forall i :: |s.log| <= i < |ExpireAll(s, ids).log| ==> ExpireAll(s, ids).log[i].Settle?
  {
    if ids != [] { ExpireAllStartsNone(s, ids[..|ids| - 1]); }
  }

  /** Whatever starts a delivery, arrival or release, afterwards its dependency is neither in
      process nor parked (a message may name its own id). */
  lemma {:induction false} StepStartsFree(s: State, e: Event, c: Delivery)
    requires Starts(s, Step(s, e), c)
    ensures Free(Step(s, e), c)
  {
    if Enabled(s, e) {
      match e
      case Deliver(d, now) => HandleStartsFree(s.(handed := s.handed + {d}), d, now);
      case CallbackSucceeds(d, now) => if d in Succeed(s, d).frames { VisitStartsFree(Succeed(s, d), d, now); }
      case CallbackFails(d) =>
      case Resume(k, now) => VisitStartsFree(s, k, now);
      case Sweep(now, expired) => ExpireAllStartsNone(ForgetStale(s, now), expired);
      case Dispose =>
    }
  }

  // ---------- the last link of a chain ----------

  /** When `c` starts, arriving or released, a delivery `b` of the message it depends on that
      was parked before has started, expired, or been discarded. */
  lemma {:induction false} ParkedBeforeIsOver(staleTimeout: int, before: seq<Event>, e: Event, b: Delivery, c: Delivery)
    requires var s := Run(Init(staleTimeout), before); Starts(s, Step(s, e), c) && Park(b) in Step(s, e).log
    requires Depends(c) && b.id == c.dependsOn
    ensures var t := Step(Run(Init(staleTimeout), before), e);
            Start(b) in t.log || Settle(b, Expired) in t.log || b in t.discarded
  {
    var s := Run(Init(staleTimeout), before);
    StepStartsFree(s, e, c);
    assert (before + [e])[..|before|] == before;
    assert Run(Init(staleTimeout), before + [e]) == Step(s, e);
    ParkedFate(staleTimeout, before + [e], b);
  }

  lemma {:induction false} AllStarted(log: seq<Happening>, chain: seq<Delivery>, a: nat)
    requires LawfulLog(log) && InOrder(log) && IsChain(log, chain) && a < |chain|
    requires Start(chain[|chain| - 1]) in log
    ensures Start(chain[a]) in log
  {
    if a < |chain| - 1 {
      var i :| 0 <= i < |log| && log[i] == Start(chain[|chain| - 1]);
      ChainStepsBack(log, chain);
      ChainInLog(log, chain, a, |chain| - 1, i);
    }
  }

  /** Chain order for any last link, parked or not: when `c` starts, every link of the chain
      before it has started, unless the link it depends on expired or was discarded. */
  lemma {:induction false} ChainBeforeLast(
    staleTimeout: int, before: seq<Event>, e: Event, chain: seq<Delivery>, c: Delivery, a: nat)
    requires AllClear(staleTimeout, before + [e])
    requires var s := Run(Init(staleTimeout), before);
             Starts(s, Step(s, e), c) && IsChain(Step(s, e).log, chain) && a < |chain| &&
             Park(chain[|chain| - 1]) in Step(s, e).log
    requires Depends(c) && chain[|chain| - 1].id == c.dependsOn
    ensures var t, b := Step(Run(Init(staleTimeout), before), e), chain[|chain| - 1];
            Start(chain[a]) in t.log || Settle(b, Expired) in t.log || b in t.discarded
  {
    var t, b := Step(Run(Init(staleTimeout), before), e), chain[|chain| - 1];
    ParkedBeforeIsOver(staleTimeout, before, e, b, c);
    if Start(b) in t.log {
      assert (before + [e])[..|before|] == before && t == Run(Init(staleTimeout), before + [e]);
      RunOrders(staleTimeout, before + [e]);
      RunLives(staleTimeout, before + [e]);
      AllStarted(t.log, chain, a);
    }
  }

  // ---------- nobody is passed by ----------

  // Parked at position `j`, and its dependency has not succeeded since.
  ghost predicate ParkedSince(s: State, id: MessageId, j: int)
    requires id in s.pending
  {
    0 <= j < |s.log| && s.log[j] == Park(s.pending[id].delivery) &&
    !SuccessBetween(s.log, s.pending[id].dependsOn, j, |s.log|)
  }

  ghost predicate NotPassed(s: State, id: MessageId)
    requires id in s.pending
  {
    exists j :: ParkedSince(s, id, j)
  }

  // Whoever waits in the index was parked after the last success of its dependency.
  ghost predicate IndexWaits(s: State) {
    forall id :: id in s.pending && InIndex(s, s.pending[id].dependsOn, id) ==> NotPassed(s, id)
  }

  lemma {:induction false} StillNotPassed(s: State, t: State, id: MessageId, h: Happening)
    requires id in s.pending && id in t.pending && t.pending[id] == s.pending[id] && NotPassed(s, id)
    requires t.log == s.log + [h] && !IsSuccess(h, s.pending[id].dependsOn)
    ensures NotPassed(t, id)
  {
    var j :| ParkedSince(s, id, j);
    assert t.log[j] == s.log[j];
    forall m | j < m < |t.log|
      ensures !IsSuccess(t.log[m], t.pending[id].dependsOn)
    {
      if m < |s.log| { assert t.log[m] == s.log[m]; }
    }
    assert ParkedSince(t, id, j);
  }

  // Nobody new in the index, and nothing succeeds.
  lemma {:induction false} QuietWaits(s: State, t: State, h: Happening)
    requires IndexWaits(s) && t.log == s.log + [h]
    requires forall id :: id in t.pending ==> id in s.pending && t.pending[id] == s.pending[id]
    requires forall y, id :: InIndex(t, y, id) ==> InIndex(s, y, id) && !IsSuccess(h, y)
    ensures IndexWaits(t)
  {
    forall id | id in t.pending && InIndex(t, t.pending[id].dependsOn, id)
      ensures NotPassed(t, id)
    {
      StillNotPassed(s, t, id, h);
    }
  }

  // No log entry at all.
  lemma {:induction false} SilentWaits(s: State, t: State)
    requires IndexWaits(s) && t.log == s.log
    requires forall id :: id in t.pending ==> id in s.pending && t.pending[id] == s.pending[id]
    requires forall y, id :: InIndex(t, y, id) ==> InIndex(s, y, id)
    ensures IndexWaits(t)
  {
    forall id | id in t.pending && InIndex(t, t.pending[id].dependsOn, id)
      ensures NotPassed(t, id)
    {
      var j :| ParkedSince(s, id, j);
      assert ParkedSince(t, id, j);
    }
  }

  lemma {:induction false} ParkWaits(s: State, d: Delivery, now: int)
    requires IndexWaits(s) && d.id.Some? && d.dependsOn.Some? && d.id.value !in s.pending
    ensures IndexWaits(ParkDelivery(s, d, now))
  {
    var t := ParkDelivery(s, d, now);
    assert t.log == s.log + [Park(d)];
    forall id | id in t.pending && InIndex(t, t.pending[id].dependsOn, id)
      ensures NotPassed(t, id)
    {
      if id == d.id.value {
        assert ParkedSince(t, id, |s.log|);
      } else {
        assert InIndex(s, s.pending[id].dependsOn, id);
        StillNotPassed(s, t, id, Park(d));
      }
    }
  }

  lemma {:induction false} HandleNowWaits(s: State, d: Delivery, now: int)
    requires IndexWaits(s)
    ensures IndexWaits(HandleNow(s, d, now))
  {
    HandleNowAppends(s, d, now);
    if Parks(s, d) { ParkWaits(s, d, now); }
    else { QuietWaits(s, HandleNow(s, d, now), Reaction(s, d)); }
  }

  lemma {:induction false} VisitWaits(s: State, k: Delivery, now: int)
    requires IndexWaits(s) && k in s.frames && s.frames[k].Releasing?
    ensures IndexWaits(Visit(s, k, now))
  {
    var rest := SkipGone(s.frames[k].rest, s.pending);
    if rest == [] {
      SilentWaits(s, Visit(s, k, now));
    } else {
      SilentWaits(s, TakeNext(s, k));
      HandleNowWaits(TakeNext(s, k), s.pending[rest[0]].delivery, now);
    }
  }

  lemma {:induction false} SucceedWaits(s: State, d: Delivery)
    requires IndexWaits(s)
    ensures IndexWaits(Succeed(s, d))
  {
    QuietWaits(s, Succeed(s, d), Settle(d, Success));
  }

  lemma {:induction false} ExpireAllWaits(s: State, ids: seq<MessageId>)
    requires IndexWaits(s)
    ensures IndexWaits(ExpireAll(s, ids))
  {
    if ids != [] {
      var t, last := ExpireAll(s, ids[..|ids| - 1]), ids[|ids| - 1];
      ExpireAllWaits(s, ids[..|ids| - 1]);
      if last in t.pending { QuietWaits(t, ExpireOne(t, last), Settle(t.pending[last].delivery, Expired)); }
    }
  }

  lemma {:induction false} StepWaits(s: State, e: Event)
    requires IndexWaits(s)
    ensures IndexWaits(Step(s, e))
  {
    if Enabled(s, e) {
      match e
      case Deliver(d, now) =>
        SilentWaits(s, s.(handed := s.handed + {d}));
        HandleNowWaits(s.(handed := s.handed + {d}), d, now);
      case CallbackSucceeds(d, now) =>
        SucceedWaits(s, d);
        if d in Succeed(s, d).frames { VisitWaits(Succeed(s, d), d, now); }
      case CallbackFails(d) => QuietWaits(s, Fail(s, d), Settle(d, Failure));
      case Resume(k, now) => VisitWaits(s, k, now);
      case Sweep(now, expired) =>
        SilentWaits(s, ForgetStale(s, now));
        ExpireAllWaits(ForgetStale(s, now), expired);
      case Dispose => SilentWaits(s, Discard(s));
    }
  }

  lemma {:induction false} RunWaits(staleTimeout: int, events: seq<Event>)
    ensures IndexWaits(Run(Init(staleTimeout), events))
  {
    if events != [] {
      RunWaits(staleTimeout, events[..|events| - 1]);
      StepWaits(Run(Init(staleTimeout), events[..|events| - 1]), events[|events| - 1]);
    }
  }

  /** Nobody who waits is passed by, over every run: whoever is parked either is still to be
      visited by an open release loop of the message it depends on, or that message has not
      succeeded since it was parked. So once the open calls are done, every success has
      released all that waited for it. */
  lemma {:induction false} NobodyIsPassedBy(staleTimeout: int, events: seq<Event>, id: MessageId)
    requires id in Run(Init(staleTimeout), events).pending
    ensures var s := Run(Init(staleTimeout), events);
            NotPassed(s, id) || exists k :: InLoop(s, k, id, s.pending[id].dependsOn)
  {
    var s := Run(Init(staleTimeout), events);
    RunWaits(staleTimeout, events);
    RunKeeps(staleTimeout, events);
    assert Findable(s, id, s.pending[id].dependsOn);
  }

  // ---------- what ends, and what lasts ----------

  lemma {:induction false} ExpireAllLeaves(s: State, ids: seq<MessageId>)
    ensures var t := ExpireAll(s, ids);
            t.processing == s.processing && t.frames == s.frames &&
            (forall id :: id in t.pending <==> id in s.pending && id !in ids) &&
            (forall id :: id in t.pending ==> t.pending[id] == s.pending[id])
  {
    if ids != [] {
      assert ids == ids[..|ids| - 1] + [ids[|ids| - 1]];
      ExpireAllLeaves(s, ids[..|ids| - 1]);
    }
  }

  /** A sweep lets go of exactly what is older than the timeout, in process or parked, and of
      no open call. */
  lemma {:induction false} SweepLetsGoExactly(s: State, now: int, expired: seq<MessageId>)
    requires Enabled(s, Sweep(now, expired))
    ensures var t := Step(s, Sweep(now, expired));
            t.frames == s.frames &&
            (forall id :: id in t.pending <==> id in s.pending && now - s.pending[id].queuedAt <= s.staleTimeout) &&
            (forall id :: id in t.processing <==> id in s.processing && now - s.processing[id] <= s.staleTimeout)
  {
    ExpireAllLeaves(ForgetStale(s, now), expired);
  }

  lemma {:induction false} HandleLasts(s: State, d: Delivery, now: int)
    ensures var t := HandleNow(s, d, now);
            (forall id :: id in s.processing ==> id in t.processing) &&
            (forall id :: id in s.pending ==> id in t.pending && t.pending[id] == s.pending[id])
    ensures var t := HandleNow(s, d, now);
            t.log == s.log + [Start(d)] && d.id.Some? ==> d.id.value in t.processing && t.processing[d.id.value] == now
  {
    HandleNowAppends(s, d, now);
    assert (s.log + [Start(d)])[|s.log|] == Start(d);
  }

  lemma {:induction false} VisitLasts(s: State, k: Delivery, now: int, id: MessageId)
    requires WellParked(s) && k in s.frames && s.frames[k].Releasing?
    ensures var t := Visit(s, k, now);
            (id in s.processing ==> id in t.processing) &&
            (id in s.pending ==> (id in t.pending && t.pending[id].delivery == s.pending[id].delivery) ||
                                 Start(s.pending[id].delivery) in t.log)
  {
    var rest := SkipGone(s.frames[k].rest, s.pending);
    if rest != [] {
      var u, d := TakeNext(s, k), s.pending[rest[0]].delivery;
      HandleLasts(u, d, now);
      HandleNowAppends(u, d, now);
      if id == rest[0] { VisitedLasts(s, k, now); }
    }
  }

  lemma {:induction false} VisitedLasts(s: State, k: Delivery, now: int)
    requires WellParked(s) && k in s.frames && s.frames[k].Releasing? && SkipGone(s.frames[k].rest, s.pending) != []
    ensures var t, id := Visit(s, k, now), SkipGone(s.frames[k].rest, s.pending)[0];
            (id in t.pending && t.pending[id].delivery == s.pending[id].delivery) ||
            Start(s.pending[id].delivery) in t.log
  {
    var id := SkipGone(s.frames[k].rest, s.pending)[0];
    var u, d := TakeNext(s, k), s.pending[id].delivery;
    HandleNowAppends(u, d, now);
    assert Visit(s, k, now).log == u.log + [Reaction(u, d)];
    assert (u.log + [Start(d)])[|u.log|] == Start(d);
  }

  /** A message in process is known until a delivery of it ends, it is stale, or all is disposed
      of; a parked delivery stays until it starts, is stale, or all is disposed of. */
  lemma {:induction false} WhatLasts(s: State, e: Event, id: MessageId)
    requires Inv(s)
    ensures var t := Step(s, e);
            id in s.processing ==>
              id in t.processing || e.Dispose? ||
              ((e.CallbackSucceeds? || e.CallbackFails?) && e.delivery.id == Some(id)) ||
              (e.Sweep? && e.now - s.processing[id] > s.staleTimeout)
    ensures var t := Step(s, e);
            id in s.pending ==>
              (id in t.pending && t.pending[id].delivery == s.pending[id].delivery) || e.Dispose? ||
              Start(s.pending[id].delivery) in t.log ||
              (e.Sweep? && e.now - s.pending[id].queuedAt > s.staleTimeout)
  {
    if Enabled(s, e) {
      match e
      case Deliver(d, now) => HandleLasts(s.(handed := s.handed + {d}), d, now);
      case CallbackSucceeds(d, now) =>
        SucceedKeeps(s, d);
        if d in Succeed(s, d).frames { VisitLasts(Succeed(s, d), d, now, id); }
      case CallbackFails(_) =>
      case Resume(k, now) => VisitLasts(s, k, now, id);
      case Sweep(now, expired) =>
        SweepLetsGoExactly(s, now, expired);
        ExpireAllLeaves(ForgetStale(s, now), expired);
      case Dispose =>
    }
  }

  /** A callback that ends settles its delivery so, and frees its message; a failure leaves all
      that waits for it parked; `dispose` discards exactly what is parked. */
  lemma {:induction false} EndingsAnswer(s: State, d: Delivery, now: int)
    requires Inv(s) && Running(s, d)
    ensures var t := Step(s, CallbackFails(d));
            t.log == s.log + [Settle(d, Failure)] && t.pending == s.pending && t.index == s.index && d !in t.frames &&
            (d.id.Some? ==> d.id.value !in t.processing)
    ensures Step(s, CallbackSucceeds(d, now)).log[|s.log|..][..1] == [Settle(d, Success)]
    ensures var t := Step(s, Dispose);
            t.pending == map[] && t.processing == map[] && t.index == map[] && t.frames == s.frames &&
            forall x :: x in t.discarded <==> x in s.discarded || IsParked(s, x)
  {
    var u := Succeed(s, d);
    if d in u.frames { VisitGrows(u, d, now); }
    assert u.log == s.log + [Settle(d, Success)] && u.log <= Step(s, CallbackSucceeds(d, now)).log;
    forall x
      ensures x in Step(s, Dispose).discarded <==> x in s.discarded || IsParked(s, x)
    {
      if x in Step(s, Dispose).discarded && x !in s.discarded {
        var id :| id in s.pending && s.pending[id].delivery == x;
      }
    }
  }
}
