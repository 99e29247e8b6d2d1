/** When dependency order is lost: exactly when a delivery is parked while an open release loop
    still has its id to visit. A sweep and failing callbacks are enough. */
module SequentialOrderLoss {
  import opened Wrappers
  import opened SequentialSpec
  import opened SequentialInvariants
  import opened SequentialOrder
  import opened SequentialLifecycle
  import opened SequentialCascade

  // ---------- a message being processed has a running callback ----------

  predicate RunsFor(s: State, d: Delivery, id: MessageId) {
    Running(s, d) && d.id == Some(id)
  }

  ghost predicate Backed(s: State) {
    forall id :: id in s.processing ==> exists d :: RunsFor(s, d, id)
  }

  // A step that neither adds to `processing` nor takes a running callback of it away.
  lemma {:induction false} StillBacked(s: State, t: State)
    requires Backed(s) && t.processing.Keys <= s.processing.Keys
    requires forall d :: Running(s, d) && d.id.Some? && d.id.value in t.processing ==> Running(t, d)
    ensures Backed(t)
  {
    forall id | id in t.processing
      ensures exists d :: RunsFor(t, d, id)
    {
      var d :| RunsFor(s, d, id);
      assert RunsFor(t, d, id);
    }
  }

  lemma {:induction false} HandleNowBacked(s: State, d: Delivery, now: int)
    requires Backed(s)
    ensures Backed(HandleNow(s, d, now))
  {
    var t := HandleNow(s, d, now);
    if MustWait(s, d) {
      StillBacked(s, t);
    } else {
      forall id | id in t.processing
        ensures exists e :: RunsFor(t, e, id)
      {
        if d.id == Some(id) {
          assert RunsFor(t, d, id);
        } else {
          var e :| RunsFor(s, e, id);
          assert RunsFor(t, e, id);
        }
      }
    }
  }

  lemma {:induction false} VisitBacked(s: State, k: Delivery, now: int)
    requires Backed(s) && k in s.frames && s.frames[k].Releasing?
    ensures Backed(Visit(s, k, now))
  {
    var rest := SkipGone(s.frames[k].rest, s.pending);
    if rest == [] {
      StillBacked(s, Visit(s, k, now));
    } else {
      StillBacked(s, TakeNext(s, k));
      HandleNowBacked(TakeNext(s, k), s.pending[rest[0]].delivery, now);
    }
  }

  lemma {:induction false} ExpireAllFrame(s: State, ids: seq<MessageId>)
    ensures ExpireAll(s, ids).processing == s.processing && ExpireAll(s, ids).frames == s.frames
  {
    if ids != [] { ExpireAllFrame(s, ids[..|ids| - 1]); }
  }

  lemma {:induction false} StepBacked(s: State, e: Event)
    requires Backed(s)
    ensures Backed(Step(s, e))
  {
    if Enabled(s, e) {
      match e
      case Deliver(d, now) =>
        StillBacked(s, s.(handed := s.handed + {d}));
        HandleNowBacked(s.(handed := s.handed + {d}), d, now);
      case CallbackSucceeds(d, now) =>
        StillBacked(s, Succeed(s, d));
        if d in Succeed(s, d).frames { VisitBacked(Succeed(s, d), d, now); }
      case CallbackFails(d) => StillBacked(s, Fail(s, d));
      case Resume(k, now) => VisitBacked(s, k, now);
      case Sweep(now, expired) =>
        ExpireAllFrame(ForgetStale(s, now), expired);
        StillBacked(s, Step(s, e));
      case Dispose => StillBacked(s, Discard(s));
    }
  }

  lemma {:induction false} RunBacked(staleTimeout: int, events: seq<Event>)
    ensures Backed(Run(Init(staleTimeout), events))
  {
    if events != [] {
      RunBacked(staleTimeout, events[..|events| - 1]);
      StepBacked(Run(Init(staleTimeout), events[..|events| - 1]), events[|events| - 1]);
    }
  }

  lemma {:induction false} RunReaches(staleTimeout: int, events: seq<Event>)
    ensures Reached(Run(Init(staleTimeout), events))
  {
    RunKeeps(staleTimeout, events);
    RunLives(staleTimeout, events);
    RunNests(staleTimeout, events);
  }

  // ---------- a delivery parked under the eyes of an open loop ----------

  // Parked at position `j`, in the unvisited rest of the loop of `k`, behind a message that
  // has not succeeded since.
  ghost predicate Waiting(s: State, k: Delivery, d: Delivery, j: nat) {
    && IsParked(s, d) && d.dependsOn.Some? && InRest(s, k, d.id.value)
    && j < |s.log| && s.log[j] == Park(d) && !SuccessBetween(s.log, d.dependsOn.value, j, |s.log|)
  }

  // Besides, that message is not parked, unless it is the delivery's own.
  ghost predicate Doomed(s: State, k: Delivery, d: Delivery, j: nat) {
    Waiting(s, k, d, j) && (d.dependsOn.value in s.pending ==> d.dependsOn == d.id)
  }

  lemma {:induction false} NoSuccessAppended(log: seq<Happening>, h: Happening, id: MessageId, j: nat)
    requires !SuccessBetween(log, id, j, |log|) && !IsSuccess(h, id)
    ensures !SuccessBetween(log + [h], id, j, |log| + 1) && !SuccessBetween(log + [h], id, j, |log|)
  {
    var all := log + [h];
    forall m | j < m < |all|
      ensures !IsSuccess(all[m], id)
    {
      if m < |log| { assert all[m] == log[m]; }
    }
  }

  lemma {:induction false} FailKeepsDoomed(s: State, k: Delivery, d: Delivery, j: nat, r: Delivery)
    requires Doomed(s, k, d, j) && Running(s, r)
    ensures Doomed(Fail(s, r), k, d, j)
  {
    NoSuccessAppended(s.log, Settle(r, Failure), d.dependsOn.value, j);
  }

  // With nothing running, the visit to the doomed id starts it: out of order.
  lemma {:induction false} VisitBreaks(s: State, k: Delivery, d: Delivery, j: nat, l: Delivery, now: int)
    requires Doomed(s, k, d, j) && s.processing == map[]
    requires l in s.frames && s.frames[l].Releasing?
    requires SkipGone(s.frames[l].rest, s.pending) != [] && Some(SkipGone(s.frames[l].rest, s.pending)[0]) == d.id
    ensures !InOrder(Visit(s, l, now).log)
  {
    var t := Visit(s, l, now);
    assert !MustWait(TakeNext(s, l), d);
    assert t.log == s.log + [Start(d)];
    NoSuccessAppended(s.log, Start(d), d.dependsOn.value, j);
    assert t.log[j] == Park(d) && t.log[|s.log|] == Start(d);
  }

  // The loop `k` is not the delivery that is taken next.
  lemma {:induction false} TakenIsNoLoop(s: State, k: Delivery, l: Delivery)
    requires Inv(s) && k in s.frames && s.frames[k].Releasing? && l in s.frames && s.frames[l].Releasing?
    requires SkipGone(s.frames[l].rest, s.pending) != []
    ensures s.pending[SkipGone(s.frames[l].rest, s.pending)[0]].delivery != k
  {
    TakenIsGone(s, l);
    SettlementsCount(s.log, k);
  }

  lemma {:induction false} SkipGoneLeaves(rest: seq<MessageId>, pending: map<MessageId, Parked>, x: MessageId)
    requires x in rest && x in pending
    requires SkipGone(rest, pending) != [] && SkipGone(rest, pending)[0] != x
    ensures x in SkipGone(rest, pending)[1..]
  {
    SkipGoneKeepsParked(rest, pending);
    var left := SkipGone(rest, pending);
    var i :| 0 <= i < |left| && left[i] == x;
    assert left[1..][i - 1] == x;
  }

  lemma {:induction false} TakeNextKeepsRest(s: State, k: Delivery, l: Delivery, x: MessageId)
    requires InRest(s, k, x) && x in s.pending && l in s.frames && s.frames[l].Releasing?
    requires SkipGone(s.frames[l].rest, s.pending) != [] && SkipGone(s.frames[l].rest, s.pending)[0] != x
    ensures InRest(TakeNext(s, l), k, x)
  {
    if l == k { SkipGoneLeaves(s.frames[l].rest, s.pending, x); }
  }

  lemma {:induction false} TakeNextKeepsDoomed(s: State, k: Delivery, d: Delivery, j: nat, l: Delivery)
    requires Doomed(s, k, d, j) && l in s.frames && s.frames[l].Releasing?
    requires SkipGone(s.frames[l].rest, s.pending) != [] && Some(SkipGone(s.frames[l].rest, s.pending)[0]) != d.id
    ensures Doomed(TakeNext(s, l), k, d, j)
  {
    TakeNextKeepsRest(s, k, l, d.id.value);
    var u := TakeNext(s, l);
    assert u.log == s.log && IsParked(u, d);
  }

  lemma {:induction false} HandleKeepsDoomed(s: State, k: Delivery, d: Delivery, j: nat, e: Delivery, now: int)
    requires Doomed(s, k, d, j) && e != k
    requires Parks(s, e) ==> e.id != d.dependsOn
    ensures Doomed(HandleNow(s, e, now), k, d, j)
  {
    HandleNowAppends(s, e, now);
    NoSuccessAppended(s.log, Reaction(s, e), d.dependsOn.value, j);
  }

  lemma {:induction false} EndKeepsDoomed(s: State, k: Delivery, d: Delivery, j: nat, l: Delivery, now: int)
    requires Doomed(s, k, d, j) && l in s.frames && s.frames[l].Releasing?
    requires SkipGone(s.frames[l].rest, s.pending) == []
    ensures Doomed(Visit(s, l, now), k, d, j)
  {
    SkipGoneKeepsParked(s.frames[l].rest, s.pending);
    assert l != k && Visit(s, l, now) == s.(frames := s.frames - {l});
  }

  lemma {:induction false} NextKeepsDoomed(s: State, k: Delivery, d: Delivery, j: nat, l: Delivery, now: int)
    requires Inv(s) && Doomed(s, k, d, j) && l in s.frames && s.frames[l].Releasing?
    requires SkipGone(s.frames[l].rest, s.pending) != [] && Some(SkipGone(s.frames[l].rest, s.pending)[0]) != d.id
    ensures Doomed(Visit(s, l, now), k, d, j)
  {
    TakenIsNoLoop(s, k, l);
    TakenIsNotIts(s, d, l);
    TakeNextKeepsDoomed(s, k, d, j, l);
    HandleKeepsDoomed(TakeNext(s, l), k, d, j, s.pending[SkipGone(s.frames[l].rest, s.pending)[0]].delivery, now);
  }

  // What is taken next is not the message the delivery waits for.
  lemma {:induction false} TakenIsNotIts(s: State, d: Delivery, l: Delivery)
    requires WellParked(s) && l in s.frames && s.frames[l].Releasing? && d.dependsOn.Some?
    requires SkipGone(s.frames[l].rest, s.pending) != [] && Some(SkipGone(s.frames[l].rest, s.pending)[0]) != d.id
    requires d.dependsOn.value in s.pending ==> d.dependsOn == d.id
    ensures s.pending[SkipGone(s.frames[l].rest, s.pending)[0]].delivery.id != d.dependsOn
  {
  }

  // ---------- failing callbacks lead to the loss ----------

  lemma {:induction false} SomeRunning(s: State) returns (r: Delivery)
    requires Backed(s) && s.processing != map[]
    ensures Running(s, r)
  {
    var id :| id in s.processing;
    r :| RunsFor(s, r, id);
  }

  lemma {:induction false} DoomedResume(s: State, k: Delivery, d: Delivery, j: nat, l: Delivery)
    requires Inv(s) && Doomed(s, k, d, j) && s.processing == map[] && l in s.frames && s.frames[l].Releasing?
    ensures !InOrder(Visit(s, l, 0).log) || Doomed(Visit(s, l, 0), k, d, j)
  {
    var rest := SkipGone(s.frames[l].rest, s.pending);
    if rest == [] { EndKeepsDoomed(s, k, d, j, l, 0); }
    else if Some(rest[0]) != d.id { NextKeepsDoomed(s, k, d, j, l, 0); }
    else { VisitBreaks(s, k, d, j, l, 0); }
  }

  // A running callback, or, with nothing in process, a loop that can go on.
  lemma {:induction false} SomeNext(s: State) returns (l: Delivery)
    requires Nested(s) && Backed(s) && s.frames != map[]
    ensures Running(s, l) || (CanResume(s, l) && s.processing == map[])
  {
    if s.processing != map[] { l := SomeRunning(s); } else { l := SomeFrameCanGoOn(s); }
  }

  // One more event: order is lost, or the delivery stays doomed in a smaller state.
  lemma {:induction false} DoomedGoesOn(s: State, k: Delivery, d: Delivery, j: nat) returns (e: Event)
    requires Inv(s) && Nested(s) && Backed(s) && Doomed(s, k, d, j)
    ensures Internal(e) && Enabled(s, e)
    ensures !InOrder(Step(s, e).log) || Doomed(Step(s, e), k, d, j)
  {
    assert k in s.frames;
    var l := SomeNext(s);
    if Running(s, l) {
      e := CallbackFails(l);
      FailKeepsDoomed(s, k, d, j, l);
    } else {
      e := Resume(l, 0);
      DoomedResume(s, k, d, j, l);
    }
  }

  lemma {:induction false} DoomedStep(s: State, k: Delivery, d: Delivery, j: nat) returns (e: Event, t: State)
    requires Reached(s) && Backed(s) && Doomed(s, k, d, j)
    ensures Internal(e) && t == Step(s, e) && Reached(t) && Backed(t) && Shrinks(s, t)
    ensures !InOrder(t.log) || Doomed(t, k, d, j)
  {
    e := DoomedGoesOn(s, k, d, j);
    t := InternalStep(s, e);
    StepBacked(s, e);
  }

  lemma {:induction false} LosesOrder(s: State, k: Delivery, d: Delivery, j: nat) returns (t: State, events: seq<Event>)
    requires Reached(s) && Backed(s) && Doomed(s, k, d, j)
    ensures t == Run(s, events) && (forall e :: e in events ==> Internal(e)) && !InOrder(t.log)
    decreases |s.pending| + |Active(s)|, |s.pending|, TotalLeft(s.frames)
  {
    var e, u := DoomedStep(s, k, d, j);
    t, events := u, [];
    if InOrder(u.log) { t, events := LosesOrder(u, k, d, j); }
    events := Prepend(s, e, u, t, events);
  }

  lemma {:induction false} RunConcat(s: State, a: seq<Event>, b: seq<Event>)
    ensures Run(s, a + b) == Run(Run(s, a), b)
  {
    if b == [] {
      assert a + b == a;
    } else {
      RunConcat(s, a, b[..|b| - 1]);
      assert (a + b)[..|a + b| - 1] == a + b[..|b| - 1];
    }
  }

  // ---------- a sweep frees a delivery parked behind an older one ----------

  lemma {:induction false} ExpireAllKeepsWaiting(s: State, ids: seq<MessageId>, k: Delivery, d: Delivery, j: nat)
    requires Waiting(s, k, d, j) && d.id.value !in ids
    ensures Waiting(ExpireAll(s, ids), k, d, j)
    ensures ExpireAll(s, ids).pending.Keys == s.pending.Keys - (set id | id in ids)
  {
    if ids != [] {
      var rest, last := ids[..|ids| - 1], ids[|ids| - 1];
      var t := ExpireAll(s, rest);
      assert ids == rest + [last];
      ExpireAllKeepsWaiting(s, rest, k, d, j);
      if last in t.pending { ExpireOneKeepsWaiting(t, last, k, d, j); }
    }
  }

  lemma {:induction false} ExpireOneKeepsWaiting(s: State, id: MessageId, k: Delivery, d: Delivery, j: nat)
    requires Waiting(s, k, d, j) && id in s.pending && Some(id) != d.id
    ensures Waiting(ExpireOne(s, id), k, d, j) && ExpireOne(s, id).pending == s.pending - {id}
  {
    NoSuccessAppended(s.log, Settle(s.pending[id].delivery, Expired), d.dependsOn.value, j);
  }

  // The stale messages, in some order.
  lemma {:induction false} Enumerated(ids: set<MessageId>) returns (order: seq<MessageId>)
    ensures Distinct(order) && forall id :: id in order <==> id in ids
  {
    order := [];
    var left := ids;
    while left != {}
      invariant left <= ids && Distinct(order) && forall id :: id in order <==> id in ids && id !in left
    {
      var id :| id in left;
      order, left := order + [id], left - {id};
    }
  }

  /** A sweep just before the delivery is stale expires what was parked earlier than it. */
  lemma {:induction false} SweepDooms(s: State, k: Delivery, d: Delivery, j: nat) returns (e: Event)
    requires Waiting(s, k, d, j)
    requires d.dependsOn.value in s.pending && s.pending[d.dependsOn.value].queuedAt < s.pending[d.id.value].queuedAt
    ensures e.Sweep? && Enabled(s, e) && Doomed(Step(s, e), k, d, j)
  {
    var now := s.pending[d.id.value].queuedAt + s.staleTimeout;
    var stale := set id | id in s.pending && IsStale(s, id, now);
    var order := Enumerated(stale);
    e := Sweep(now, order);
    assert d.dependsOn.value in stale && d.id.value !in stale;
    assert Waiting(ForgetStale(s, now), k, d, j);
    ExpireAllKeepsWaiting(ForgetStale(s, now), order, k, d, j);
  }

  // ---------- exactly when ----------

  // Callbacks end, loops go on, the sweep runs: nothing is delivered or disposed of.
  predicate Onward(e: Event) { Internal(e) || e.Sweep? }

  ghost predicate LosesOnward(staleTimeout: int, events: seq<Event>, after: seq<Event>) {
    (forall e :: e in after ==> Onward(e)) && !InOrder(Run(Init(staleTimeout), events + after).log)
  }

  lemma {:induction false} StaysClear(staleTimeout: int, events: seq<Event>, after: seq<Event>)
    requires AllClear(staleTimeout, events) && forall e :: e in after ==> Onward(e)
    ensures AllClear(staleTimeout, events + after)
  {
    if after == [] {
      assert events + after == events;
    } else {
      var rest, last := after[..|after| - 1], after[|after| - 1];
      assert last in after && forall e :: e in rest ==> e in after;
      StaysClear(staleTimeout, events, rest);
      assert (events + after)[..|events + after| - 1] == events + rest;
    }
  }

  lemma {:induction false} ParkedWaits(s: State, d: Delivery, now: int, k: Delivery)
    requires d !in s.handed && Parks(s, d) && InRest(s, k, d.id.value)
    ensures var t := Step(s, Deliver(d, now));
            Waiting(t, k, d, |s.log|) && t.pending == s.pending[d.id.value := Parked(d, d.dependsOn.value, now)]
  {
    HandleNowAppends(s.(handed := s.handed + {d}), d, now);
  }

  // What it waits for is not parked, or was parked earlier; or it waits for itself.
  ghost predicate BehindEarlier(s: State, d: Delivery)
    requires IsParked(s, d) && d.dependsOn.Some?
  {
    d.dependsOn.value in s.pending && d.dependsOn != d.id ==>
      s.pending[d.dependsOn.value].queuedAt < s.pending[d.id.value].queuedAt
  }

  lemma {:induction false} OneEvent(s: State, e: Event)
    requires Reached(s) && Backed(s)
    ensures Run(s, [e]) == Step(s, e) && Reached(Step(s, e)) && Backed(Step(s, e))
  {
    assert [e][..0] == [];
    StepReaches(s, e);
    StepBacked(s, e);
  }

  lemma {:induction false} LosesAfterSweep(s: State, k: Delivery, d: Delivery, j: nat) returns (events: seq<Event>)
    requires Reached(s) && Backed(s) && Waiting(s, k, d, j)
    requires d.dependsOn.value in s.pending && s.pending[d.dependsOn.value].queuedAt < s.pending[d.id.value].queuedAt
    ensures (forall e :: e in events ==> Onward(e)) && !InOrder(Run(s, events).log)
  {
    var e := SweepDooms(s, k, d, j);
    OneEvent(s, e);
    var t, rest := LosesOrder(Step(s, e), k, d, j);
    RunConcat(s, [e], rest);
    events := [e] + rest;
  }

  // At once, or after one sweep.
  lemma {:induction false} LosesSoon(s: State, k: Delivery, d: Delivery, j: nat) returns (events: seq<Event>)
    requires Reached(s) && Backed(s) && Waiting(s, k, d, j) && BehindEarlier(s, d)
    ensures (forall e :: e in events ==> Onward(e)) && !InOrder(Run(s, events).log)
  {
    if d.dependsOn.value in s.pending && d.dependsOn != d.id {
      events := LosesAfterSweep(s, k, d, j);
    } else {
      var t;
      t, events := LosesOrder(s, k, d, j);
    }
  }

  lemma {:induction false} UnclearLoses(staleTimeout: int, all: seq<Event>, k: Delivery, d: Delivery, j: nat)
    requires Waiting(Run(Init(staleTimeout), all), k, d, j) && BehindEarlier(Run(Init(staleTimeout), all), d)
    ensures exists after :: LosesOnward(staleTimeout, all, after)
  {
    RunReaches(staleTimeout, all);
    RunBacked(staleTimeout, all);
    var after := LosesSoon(Run(Init(staleTimeout), all), k, d, j);
    RunConcat(Init(staleTimeout), all, after);
    assert LosesOnward(staleTimeout, all, after);
  }

  /** In an orderly run, a delivery is parked, and what it waits for was not itself parked at
      the same clock value or later. Then without another delivery, by callbacks ending,
      loops going on and sweeps, a message can start before what it waits for has succeeded,
      exactly when an open release loop still has the parked delivery's id to visit. */
  lemma {:induction false} OrderLostExactly(staleTimeout: int, before: seq<Event>, d: Delivery, now: int)
    requires AllClear(staleTimeout, before)
    requires var s := Run(Init(staleTimeout), before);
             d !in s.handed && Parks(s, d) &&
             (d.dependsOn.value in s.pending ==> s.pending[d.dependsOn.value].queuedAt < now)
    ensures (exists after :: LosesOnward(staleTimeout, before + [Deliver(d, now)], after)) <==>
            exists k :: InRest(Run(Init(staleTimeout), before), k, d.id.value)
  {
    var s, all := Run(Init(staleTimeout), before), before + [Deliver(d, now)];
    assert all[..|before|] == before;
    if k :| InRest(s, k, d.id.value) {
      ParkedWaits(s, d, now, k);
      UnclearLoses(staleTimeout, all, k, d, |s.log|);
    } else {
      assert AllClear(staleTimeout, all);
      forall after
        ensures !LosesOnward(staleTimeout, all, after)
      {
        if forall e :: e in after ==> Onward(e) {
          StaysClear(staleTimeout, all, after);
          RunOrders(staleTimeout, all + after);
        }
      }
    }
  }
}
