/** Dependency order over whole runs: a parked message starts only after its dependency
    succeeded, provided no delivery is parked while an open release loop still has its id
    to visit. One parked delivery per message id is enough for that. */
module SequentialOrder {
  import opened Wrappers
  import opened SequentialSpec
  import opened SequentialInvariants

  /** Each message id is carried by at most one parked delivery. */
  ghost predicate OneParkedPerId(log: seq<Happening>) {
    forall i, j ::
      0 <= i < |log| && 0 <= j < |log| && log[i].Park? && log[j].Park? && log[i].delivery.id == log[j].delivery.id
      ==> log[i].delivery == log[j].delivery
  }

  predicate IsSuccess(h: Happening, id: MessageId) {
    h.Settle? && h.outcome == Success && h.delivery.id == Some(id)
  }

  ghost predicate SuccessBetween(log: seq<Happening>, id: MessageId, j: int, i: int) {
    exists m :: j < m < i && 0 <= m < |log| && IsSuccess(log[m], id)
  }

  /** Every start of a delivery that was parked has, after each of its parkings, a
      success of the message it depends on. */
  ghost predicate InOrder(log: seq<Happening>) {
    forall j, i :: 0 <= j < i < |log| && log[j].Park? && log[i] == Start(log[j].delivery) ==>
      log[j].delivery.dependsOn.Some? && SuccessBetween(log, log[j].delivery.dependsOn.value, j, i)
  }

  ghost predicate EverParked(log: seq<Happening>, id: MessageId) {
    exists j :: 0 <= j < |log| && log[j].Park? && log[j].delivery.id == Some(id)
  }

  // Since every parking of the id, the dependency succeeded.
  ghost predicate Freed(log: seq<Happening>, id: MessageId, dependency: MessageId) {
    forall j :: 0 <= j < |log| && log[j].Park? && log[j].delivery.id == Some(id) ==>
      SuccessBetween(log, dependency, j, |log|)
  }

  predicate InRest(s: State, k: Delivery, x: MessageId) {
    k in s.frames && s.frames[k].Releasing? && x in s.frames[k].rest
  }

  predicate InIndex(s: State, dependency: MessageId, x: MessageId) {
    dependency in s.index && x in s.index[dependency]
  }

  // The index holds parked ids only, each behind its own dependency.
  ghost predicate IndexExact(s: State) {
    forall y, x :: InIndex(s, y, x) ==> x in s.pending && s.pending[x].dependsOn == y
  }

  // What a release loop still has to visit and is parked waits for the loop's own message.
  ghost predicate LoopsExact(s: State) {
    forall k, x :: InRest(s, k, x) && x in s.pending ==> k.id == Some(s.pending[x].dependsOn)
  }

  ghost predicate LoopsRooted(s: State) {
    forall k, x :: InRest(s, k, x) ==> k.id.Some? && EverParked(s.log, x) && Freed(s.log, x, k.id.value)
  }

  // An id is waiting in the index or in one release loop, once.
  ghost predicate OnePlace(s: State) {
    && (forall y, k, x :: InIndex(s, y, x) ==> !InRest(s, k, x))
    && (forall k, l, x :: InRest(s, k, x) && InRest(s, l, x) ==> k == l)
    && (forall k :: k in s.frames && s.frames[k].Releasing? ==> Distinct(s.frames[k].rest))
    && (forall y :: y in s.index ==> Distinct(s.index[y]))
  }

  ghost predicate ParkedLogged(s: State) {
    forall x :: x in s.pending ==> Park(s.pending[x].delivery) in s.log
  }

  ghost predicate ParkedHanded(s: State) {
    forall h :: h in s.log && h.Park? ==> h.delivery in s.handed && h.delivery.id.Some? && h.delivery.dependsOn.Some?
  }

  ghost predicate Ordered(s: State) {
    && IndexExact(s) && LoopsExact(s) && LoopsRooted(s) && OnePlace(s)
    && ParkedLogged(s) && ParkedHanded(s) && InOrder(s.log)
  }

  ghost predicate Nowhere(s: State, x: MessageId) {
    (forall y :: !InIndex(s, y, x)) && (forall k :: !InRest(s, k, x))
  }

  lemma {:induction false} EverParkedGrows(log: seq<Happening>, h: Happening, x: MessageId)
    requires EverParked(log, x)
    ensures EverParked(log + [h], x)
  {
    var j :| 0 <= j < |log| && log[j].Park? && log[j].delivery.id == Some(x);
    assert (log + [h])[j] == log[j];
  }

  lemma {:induction false} SuccessGrows(log: seq<Happening>, h: Happening, y: MessageId, j: int, i: int)
    requires SuccessBetween(log, y, j, i)
    ensures SuccessBetween(log + [h], y, j, i) && SuccessBetween(log + [h], y, j, i + 1)
  {
    var m :| j < m < i && 0 <= m < |log| && IsSuccess(log[m], y);
    assert IsSuccess((log + [h])[m], y);
  }

  lemma {:induction false} FreedGrows(log: seq<Happening>, h: Happening, x: MessageId, y: MessageId)
    requires Freed(log, x, y)
    requires h.Park? ==> h.delivery.id != Some(x)
    ensures Freed(log + [h], x, y)
  {
    var all := log + [h];
    forall j | 0 <= j < |all| && all[j].Park? && all[j].delivery.id == Some(x)
      ensures SuccessBetween(all, y, j, |all|)
    {
      assert log[j] == all[j];
      SuccessGrows(log, h, y, j, |log|);
    }
  }

  lemma {:induction false} FreedBySuccess(log: seq<Happening>, h: Happening, x: MessageId, y: MessageId)
    requires IsSuccess(h, y)
    ensures Freed(log + [h], x, y)
  {
    var all := log + [h];
    forall j | 0 <= j < |all| && all[j].Park? && all[j].delivery.id == Some(x)
      ensures SuccessBetween(all, y, j, |all|)
    {
      assert IsSuccess(all[|log|], y);
      assert j != |log|;
    }
  }

  // Appending anything but the start of a parked delivery keeps the order; so does a
  // start whose dependency has succeeded since.
  lemma {:induction false} InOrderGrows(log: seq<Happening>, h: Happening)
    requires InOrder(log)
    requires h.Start? ==> forall j :: 0 <= j < |log| && log[j] == Park(h.delivery) ==>
      h.delivery.dependsOn.Some? && SuccessBetween(log, h.delivery.dependsOn.value, j, |log|)
    ensures InOrder(log + [h])
  {
    var all := log + [h];
    forall j, i | 0 <= j < i < |all| && all[j].Park? && all[i] == Start(all[j].delivery)
      ensures all[j].delivery.dependsOn.Some? && SuccessBetween(all, all[j].delivery.dependsOn.value, j, i)
    {
      assert all[j] == log[j];
      if i < |log| { assert all[i] == log[i]; }
      SuccessGrows(log, h, log[j].delivery.dependsOn.value, j, i);
    }
  }

  // A step that appends `h` and moves no waiting id.
  lemma {:induction false} QuietStep(s: State, t: State, h: Happening)
    requires Ordered(s) && t.log == s.log + [h] && t.index == s.index && s.handed <= t.handed
    requires t.pending == s.pending
    requires forall k :: k in t.frames && t.frames[k].Releasing? ==> k in s.frames && t.frames[k] == s.frames[k]
    requires !h.Park?
    requires h.Start? ==> forall j :: 0 <= j < |s.log| && s.log[j] == Park(h.delivery) ==>
      h.delivery.dependsOn.Some? && SuccessBetween(s.log, h.delivery.dependsOn.value, j, |s.log|)
    ensures Ordered(t)
  {
    assert forall k, x :: InRest(t, k, x) ==> InRest(s, k, x);
    assert forall y, x :: InIndex(t, y, x) <==> InIndex(s, y, x);
    forall k, x | InRest(t, k, x)
      ensures k.id.Some? && EverParked(t.log, x) && Freed(t.log, x, k.id.value)
    {
      assert InRest(s, k, x);
      EverParkedGrows(s.log, h, x);
      FreedGrows(s.log, h, x, k.id.value);
    }
    InOrderGrows(s.log, h);
  }

  lemma {:induction false} ParkStep(s: State, d: Delivery, now: int)
    requires Ordered(s) && d.id.Some? && d.dependsOn.Some? && d in s.handed
    requires Nowhere(s, d.id.value)
    ensures Ordered(ParkDelivery(s, d, now))
  {
    var x0, y0, t := d.id.value, d.dependsOn.value, ParkDelivery(s, d, now);
    assert t.log == s.log + [Park(d)];
    assert !InIndex(s, y0, x0);
    assert forall y, x :: InIndex(t, y, x) <==> InIndex(s, y, x) || (y == y0 && x == x0);
    assert forall k, x :: InRest(t, k, x) <==> InRest(s, k, x);
    forall k, x | InRest(t, k, x)
      ensures k.id.Some? && EverParked(t.log, x) && Freed(t.log, x, k.id.value)
    {
      assert InRest(s, k, x) && !InRest(s, k, x0);
      EverParkedGrows(s.log, Park(d), x);
      FreedGrows(s.log, Park(d), x, k.id.value);
    }
    InOrderGrows(s.log, Park(d));
  }

  // `d` may start: whatever it waited for has succeeded since each of its parkings.
  ghost predicate MayStart(s: State, d: Delivery) {
    forall j :: 0 <= j < |s.log| && s.log[j] == Park(d) ==>
      d.dependsOn.Some? && SuccessBetween(s.log, d.dependsOn.value, j, |s.log|)
  }

  lemma {:induction false} HandleNowOrders(s: State, d: Delivery, now: int)
    requires Ordered(s) && d in s.handed && MayStart(s, d)
    requires d in s.frames ==> s.frames[d].InCallback?
    requires MustWait(s, d) && d.id.value !in s.pending ==> forall k :: !InRest(s, k, d.id.value)
    ensures Ordered(HandleNow(s, d, now))
  {
    if MustWait(s, d) && d.id.value !in s.pending {
      ParkStep(s, d, now);
    } else {
      QuietStep(s, HandleNow(s, d, now), Reaction(s, d));
    }
  }

  lemma {:induction false} HandleNowAppends(s: State, d: Delivery, now: int)
    ensures HandleNow(s, d, now).log == s.log + [Reaction(s, d)]
  {
  }

  // `handle` parks the delivery.
  predicate Parks(s: State, d: Delivery) {
    MustWait(s, d) && d.id.value !in s.pending
  }

  /** The guard: a delivery is not parked while an open release loop still has its id to
      visit. */
  ghost predicate Clear(s: State, e: Event) {
    e.Deliver? && Enabled(s, e) && Parks(s, e.delivery) ==> forall k :: !InRest(s, k, e.delivery.id.value)
  }

  ghost predicate AllClear(staleTimeout: int, events: seq<Event>) {
    events == [] ||
    (var before := events[..|events| - 1];
     AllClear(staleTimeout, before) && Clear(Run(Init(staleTimeout), before), events[|events| - 1]))
  }

  // A fresh delivery has no history.
  lemma {:induction false} DeliverOrders(s: State, d: Delivery, now: int)
    requires Inv(s) && Ordered(s) && d !in s.handed && Clear(s, Deliver(d, now))
    ensures Ordered(HandleNow(s.(handed := s.handed + {d}), d, now))
  {
    var t := s.(handed := s.handed + {d});
    QuietFrames(s, t);
    assert Places(s, d) == Count(d in s.handed);
    assert d !in s.frames;
    assert Park(d) !in s.log;
    assert MayStart(t, d);
    assert Parks(t, d) == Parks(s, d);
    assert forall k, x :: InRest(t, k, x) ==> InRest(s, k, x);
    HandleNowOrders(t, d, now);
  }

  lemma {:induction false} DistinctSuffix(xs: seq<MessageId>, n: nat)
    requires Distinct(xs) && n < |xs|
    ensures Distinct(xs[n..]) && Distinct(xs[n..][1..]) && xs[n] !in xs[n..][1..]
  {
    assert forall i :: 0 <= i < |xs[n..]| ==> xs[n..][i] == xs[n + i];
    assert forall i :: 0 <= i < |xs[n..][1..]| ==> xs[n..][1..][i] == xs[n + 1 + i];
  }

  lemma {:induction false} TakeNextRests(s: State, k: Delivery)
    requires OnePlace(s) && k in s.frames && s.frames[k].Releasing?
    requires SkipGone(s.frames[k].rest, s.pending) != []
    ensures var x0 := SkipGone(s.frames[k].rest, s.pending)[0];
            InRest(s, k, x0) && (forall l, x :: InRest(TakeNext(s, k), l, x) ==> InRest(s, l, x) && x != x0)
    ensures Distinct(SkipGone(s.frames[k].rest, s.pending)[1..])
  {
    SkipGoneKeepsParked(s.frames[k].rest, s.pending);
    var rest, t := SkipGone(s.frames[k].rest, s.pending), TakeNext(s, k);
    DistinctSuffix(s.frames[k].rest, |s.frames[k].rest| - |rest|);
    assert InRest(s, k, rest[0]);
    forall l, x | InRest(t, l, x) ensures InRest(s, l, x) && x != rest[0] {
      if l == k {
        assert rest[0] !in rest[1..];
        assert x in rest[1..] && x in rest && x in s.frames[k].rest;
      } else {
        assert t.frames[l] == s.frames[l] && InRest(s, l, x);
        assert InRest(s, k, x) ==> l == k;
      }
    }
  }

  lemma {:induction false} TakeNextOrders(s: State, k: Delivery)
    requires Inv(s) && Ordered(s) && k in s.frames && s.frames[k].Releasing?
    requires SkipGone(s.frames[k].rest, s.pending) != []
    ensures Ordered(TakeNext(s, k)) && Nowhere(TakeNext(s, k), SkipGone(s.frames[k].rest, s.pending)[0])
  {
    var x0, t := SkipGone(s.frames[k].rest, s.pending)[0], TakeNext(s, k);
    TakeNextRests(s, k);
    assert forall y, x :: InIndex(t, y, x) <==> InIndex(s, y, x);
    FewerWaiting(s, t);
  }

  lemma {:induction false} ReleasedMayStart(s: State, k: Delivery, x: MessageId)
    requires Inv(s) && Ordered(s) && InRest(s, k, x) && x in s.pending
    ensures MayStart(s, s.pending[x].delivery)
  {
    var d := s.pending[x].delivery;
    assert Freed(s.log, x, k.id.value) && d.id == Some(x) && d.dependsOn == k.id;
  }

  lemma {:induction false} VisitOrders(s: State, k: Delivery, now: int)
    requires Inv(s) && Ordered(s) && k in s.frames && s.frames[k].Releasing?
    ensures Ordered(Visit(s, k, now))
  {
    var rest := SkipGone(s.frames[k].rest, s.pending);
    SkipGoneKeepsParked(s.frames[k].rest, s.pending);
    if rest == [] {
      QuietFrames(s, s.(frames := s.frames - {k}));
    } else {
      var d := s.pending[rest[0]].delivery;
      TakeNextOrders(s, k);
      TakeNextKeeps(s, k);
      ReleasedMayStart(s, k, rest[0]);
      var t := TakeNext(s, k);
      assert Places(t, d) == 0;
      HandleNowOrders(t, d, now);
    }
  }

  // A step without a log entry that adds no waiting id.
  lemma {:induction false} FewerWaiting(s: State, t: State)
    requires Ordered(s) && t.log == s.log && s.handed <= t.handed
    requires forall y, x :: InIndex(t, y, x) ==> InIndex(s, y, x) && x in t.pending
    requires forall k, x :: InRest(t, k, x) ==> InRest(s, k, x)
    requires forall y :: y in t.index ==> Distinct(t.index[y])
    requires forall k :: k in t.frames && t.frames[k].Releasing? ==> Distinct(t.frames[k].rest)
    requires forall x :: x in t.pending ==> x in s.pending && t.pending[x] == s.pending[x]
    ensures Ordered(t)
  {
  }

  lemma {:induction false} QuietFrames(s: State, t: State)
    requires Ordered(s) && t.log == s.log && s.handed <= t.handed
    requires forall y, x :: InIndex(t, y, x) ==> InIndex(s, y, x) && x in t.pending
    requires forall y :: y in t.index ==> Distinct(t.index[y])
    requires forall k :: k in t.frames && t.frames[k].Releasing? ==> k in s.frames && t.frames[k] == s.frames[k]
    requires forall x :: x in t.pending ==> x in s.pending && t.pending[x] == s.pending[x]
    ensures Ordered(t)
  {
    assert forall k, x :: InRest(t, k, x) ==> InRest(s, k, x);
    FewerWaiting(s, t);
  }

  lemma {:induction false} SucceedOnePlace(s: State, d: Delivery)
    requires Ordered(s) && Running(s, d)
    ensures OnePlace(Succeed(s, d))
  {
    var t := Succeed(s, d);
    assert forall y, x :: InIndex(t, y, x) ==> InIndex(s, y, x) && (d.id.Some? ==> y != d.id.value);
    assert forall k, x :: InRest(t, k, x) ==> InRest(s, k, x) || (k == d && d.id.Some? && InIndex(s, d.id.value, x));
    forall y, k, x | InIndex(t, y, x) ensures !InRest(t, k, x) {
      assert InIndex(s, y, x);
    }
  }

  // A parked id of the index becomes one that a loop will visit.
  lemma {:induction false} SucceedRoots(s: State, d: Delivery, x: MessageId)
    requires Inv(s) && Ordered(s) && d.id.Some? && InIndex(s, d.id.value, x)
    ensures var log := s.log + [Settle(d, Success)]; EverParked(log, x) && Freed(log, x, d.id.value)
  {
    assert Park(s.pending[x].delivery) in s.log && s.pending[x].delivery.id == Some(x);
    EverParkedGrows(s.log, Settle(d, Success), x);
    FreedBySuccess(s.log, Settle(d, Success), x, d.id.value);
  }

  lemma {:induction false} SucceedExact(s: State, d: Delivery)
    requires Ordered(s) && Running(s, d)
    ensures IndexExact(Succeed(s, d)) && LoopsExact(Succeed(s, d))
  {
    var t := Succeed(s, d);
    assert forall y, x :: InIndex(t, y, x) ==> InIndex(s, y, x);
    assert forall k, x :: InRest(t, k, x) ==> InRest(s, k, x) || (k == d && d.id.Some? && InIndex(s, d.id.value, x));
  }

  lemma {:induction false} SucceedOrders(s: State, d: Delivery)
    requires Inv(s) && Ordered(s) && Running(s, d)
    ensures Ordered(Succeed(s, d))
  {
    var t, h := Succeed(s, d), Settle(d, Success);
    assert t.log == s.log + [h];
    SucceedExact(s, d);
    assert forall k, x :: InRest(t, k, x) ==> InRest(s, k, x) || (k == d && d.id.Some? && InIndex(s, d.id.value, x));
    forall k, x | InRest(t, k, x)
      ensures k.id.Some? && EverParked(t.log, x) && Freed(t.log, x, k.id.value)
    {
      if InRest(s, k, x) {
        EverParkedGrows(s.log, h, x);
        FreedGrows(s.log, h, x, k.id.value);
      } else {
        SucceedRoots(s, d, x);
      }
    }
    SucceedOnePlace(s, d);
    InOrderGrows(s.log, h);
  }

  lemma {:induction false} WithoutDistinct(xs: seq<MessageId>, x: MessageId)
    requires Distinct(xs)
    ensures Distinct(Without(xs, x))
  {
    if xs != [] {
      assert forall i :: 0 < i < |xs| ==> xs[i] != xs[0];
      assert xs[0] !in xs[1..];
      WithoutDistinct(xs[1..], x);
    }
  }

  lemma {:induction false} RemovePendingOrders(s: State, id: MessageId)
    requires Ordered(s) && id in s.pending
    ensures Ordered(RemovePending(s, id, s.pending[id].dependsOn))
  {
    var dependency := s.pending[id].dependsOn;
    var t := RemovePending(s, id, dependency);
    if dependency in s.index { WithoutDistinct(s.index[dependency], id); }
    forall y, x | InIndex(t, y, x)
      ensures InIndex(s, y, x) && x in t.pending
    {
      assert InIndex(s, y, x);
      assert x != id;
    }
    QuietFrames(s, t);
  }

  lemma {:induction false} ExpireOneOrders(s: State, id: MessageId)
    requires Ordered(s) && id in s.pending
    ensures Ordered(ExpireOne(s, id))
  {
    var p := s.pending[id];
    RemovePendingOrders(s, id);
    QuietStep(RemovePending(s, id, p.dependsOn), ExpireOne(s, id), Settle(p.delivery, Expired));
  }

  lemma {:induction false} ExpireAllOrders(s: State, ids: seq<MessageId>)
    requires Ordered(s)
    ensures Ordered(ExpireAll(s, ids))
  {
    if ids != [] {
      var t := ExpireAll(s, ids[..|ids| - 1]);
      ExpireAllOrders(s, ids[..|ids| - 1]);
      if ids[|ids| - 1] in t.pending { ExpireOneOrders(t, ids[|ids| - 1]); }
    }
  }

  // The log only grows, so the hypothesis on a whole run holds at every point of it.
  lemma {:induction false} HandleNowGrows(s: State, d: Delivery, now: int)
    ensures s.log <= HandleNow(s, d, now).log
  {
  }

  lemma {:induction false} VisitGrows(s: State, k: Delivery, now: int)
    requires k in s.frames && s.frames[k].Releasing?
    ensures s.log <= Visit(s, k, now).log
  {
    if SkipGone(s.frames[k].rest, s.pending) != [] {
      HandleNowGrows(TakeNext(s, k), s.pending[SkipGone(s.frames[k].rest, s.pending)[0]].delivery, now);
    }
  }

  lemma {:induction false} ExpireAllGrows(s: State, ids: seq<MessageId>)
    ensures s.log <= ExpireAll(s, ids).log
  {
    if ids != [] { ExpireAllGrows(s, ids[..|ids| - 1]); }
  }

  lemma {:induction false} StepGrows(s: State, e: Event)
    ensures s.log <= Step(s, e).log
  {
    if Enabled(s, e) {
      match e
      case Deliver(d, now) => HandleNowGrows(s.(handed := s.handed + {d}), d, now);
      case CallbackSucceeds(d, now) => if d in Succeed(s, d).frames { VisitGrows(Succeed(s, d), d, now); }
      case CallbackFails(_) =>
      case Resume(k, now) => VisitGrows(s, k, now);
      case Sweep(now, expired) => ExpireAllGrows(ForgetStale(s, now), expired);
      case Dispose =>
    }
  }

  lemma {:induction false} OneParkedBefore(log: seq<Happening>, later: seq<Happening>)
    requires OneParkedPerId(later) && log <= later
    ensures OneParkedPerId(log)
  {
    assert forall i :: 0 <= i < |log| ==> log[i] == later[i];
  }

  lemma {:induction false} ForgetStaleOrders(s: State, now: int)
    requires Ordered(s)
    ensures Ordered(ForgetStale(s, now))
  {
    assert forall y, x :: InIndex(ForgetStale(s, now), y, x) ==> InIndex(s, y, x);
    QuietFrames(s, ForgetStale(s, now));
  }

  lemma {:induction false} StepOrders(s: State, e: Event)
    requires Inv(s) && Ordered(s) && Clear(s, e)
    ensures Ordered(Step(s, e))
  {
    if Enabled(s, e) {
      match e
      case Deliver(d, now) => DeliverOrders(s, d, now);
      case CallbackSucceeds(d, now) =>
        SucceedOrders(s, d);
        SucceedKeeps(s, d);
        if d in Succeed(s, d).frames { VisitOrders(Succeed(s, d), d, now); }
      case CallbackFails(d) => QuietStep(s, Fail(s, d), Settle(d, Failure));
      case Resume(k, now) => VisitOrders(s, k, now);
      case Sweep(now, expired) =>
        ForgetStaleOrders(s, now);
        ExpireAllOrders(ForgetStale(s, now), expired);
      case Dispose => QuietFrames(s, Discard(s));
    }
  }

  /** Dependency order, over every run from a new processor in which no delivery is parked
      while an open release loop still has its id to visit. */
  lemma {:induction false} RunOrders(staleTimeout: int, events: seq<Event>)
    requires AllClear(staleTimeout, events)
    ensures Ordered(Run(Init(staleTimeout), events))
    ensures InOrder(Run(Init(staleTimeout), events).log)
  {
    if events != [] {
      var before := events[..|events| - 1];
      RunOrders(staleTimeout, before);
      RunKeeps(staleTimeout, before);
      StepOrders(Run(Init(staleTimeout), before), events[|events| - 1]);
    }
  }

  lemma {:induction false} ParkedTwice(s: State, d: Delivery)
    requires ParkedHanded(s) && d !in s.handed && d.id.Some? && EverParked(s.log, d.id.value)
    ensures !OneParkedPerId(s.log + [Park(d)])
  {
    var log := s.log + [Park(d)];
    var j :| 0 <= j < |s.log| && s.log[j].Park? && s.log[j].delivery.id == d.id;
    assert log[|s.log|] == Park(d) && log[j] == s.log[j] && s.log[j] in s.log;
  }

  // An id that a loop still has to visit was parked before, by another delivery.
  lemma {:induction false} OneParkedClears(s: State, e: Event)
    requires Ordered(s) && OneParkedPerId(Step(s, e).log)
    ensures Clear(s, e)
  {
    if e.Deliver? && Enabled(s, e) && Parks(s, e.delivery) {
      var d := e.delivery;
      HandleNowAppends(s.(handed := s.handed + {d}), d, e.now);
      assert Step(s, e).log == s.log + [Park(d)];
      forall k
        ensures !InRest(s, k, d.id.value)
      {
        if InRest(s, k, d.id.value) { ParkedTwice(s, d); }
      }
    }
  }

  lemma {:induction false} OneParkedIsClear(staleTimeout: int, events: seq<Event>)
    requires OneParkedPerId(Run(Init(staleTimeout), events).log)
    ensures AllClear(staleTimeout, events)
  {
    if events != [] {
      var before, e := events[..|events| - 1], events[|events| - 1];
      StepGrows(Run(Init(staleTimeout), before), e);
      OneParkedBefore(Run(Init(staleTimeout), before).log, Run(Init(staleTimeout), events).log);
      OneParkedIsClear(staleTimeout, before);
      RunOrders(staleTimeout, before);
      OneParkedClears(Run(Init(staleTimeout), before), e);
    }
  }

  /** In particular, dependency order holds if each message id is carried by at most one
      parked delivery. */
  lemma {:induction false} OneParkedOrders(staleTimeout: int, events: seq<Event>)
    requires OneParkedPerId(Run(Init(staleTimeout), events).log)
    ensures InOrder(Run(Init(staleTimeout), events).log)
  {
    OneParkedIsClear(staleTimeout, events);
    RunOrders(staleTimeout, events);
  }
}
