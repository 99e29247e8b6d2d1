/** The release cascade ends: without new deliveries, whatever the callbacks answer and in
    whatever order the waiting frames go on, every run of them is finite and none of them
    is ever stuck. */
module SequentialCascade {
  import opened Wrappers
  import opened SequentialSpec
  import opened SequentialInvariants
  import opened SequentialLifecycle

  predicate Internal(e: Event) {
    e.CallbackSucceeds? || e.CallbackFails? || e.Resume?
  }

  // How much is left of one release loop, counting its end.
  function Left(f: Frame): nat {
    match f
    case InCallback => 0
    case Releasing(rest, _) => |rest| + 1
  }

  ghost function TotalLeft(frames: map<Delivery, Frame>): nat {
    if frames == map[] then 0
    else
      var k :| k in frames;
      Left(frames[k]) + TotalLeft(frames - {k})
  }

  lemma {:induction false} TotalLeftRemove(frames: map<Delivery, Frame>, k: Delivery)
    requires k in frames
    ensures TotalLeft(frames) == Left(frames[k]) + TotalLeft(frames - {k})
    decreases |frames|
  {
    var j :| j in frames && TotalLeft(frames) == Left(frames[j]) + TotalLeft(frames - {j});
    if j != k {
      assert |frames - {j}| < |frames| && |frames - {k}| < |frames| by { Smaller(frames, j); Smaller(frames, k); }
      TotalLeftRemove(frames - {j}, k);
      TotalLeftRemove(frames - {k}, j);
      assert frames - {j} - {k} == frames - {k} - {j};
    }
  }

  lemma {:induction false} Smaller<K, V>(m: map<K, V>, k: K)
    requires k in m
    ensures |m - {k}| == |m| - 1
  {
    assert (m - {k}).Keys == m.Keys - {k};
  }

  lemma {:induction false} Larger<K, V>(m: map<K, V>, k: K, v: V)
    ensures |m[k := v]| == if k in m then |m| else |m| + 1
  {
    assert m[k := v].Keys == m.Keys + {k};
  }

  lemma {:induction false} TotalLeftUpdate(frames: map<Delivery, Frame>, k: Delivery, f: Frame)
    ensures TotalLeft(frames[k := f]) + (if k in frames then Left(frames[k]) else 0) == TotalLeft(frames) + Left(f)
  {
    TotalLeftRemove(frames[k := f], k);
    if k in frames {
      TotalLeftRemove(frames, k);
      assert frames[k := f] - {k} == frames - {k};
    } else {
      assert frames[k := f] - {k} == frames;
    }
  }

  ghost function Active(s: State): set<Delivery> {
    set d | d in s.frames && s.frames[d].InCallback?
  }

  /** Lexicographic: parked or running deliveries; parked deliveries; what is left of the
      release loops. */
  ghost predicate Shrinks(s: State, t: State) {
    var before, after := |s.pending| + |Active(s)|, |t.pending| + |Active(t)|;
    after < before ||
    (after == before && (|t.pending| < |s.pending| ||
      (|t.pending| == |s.pending| && TotalLeft(t.frames) < TotalLeft(s.frames))))
  }

  lemma {:induction false} TakeNextCounts(s: State, k: Delivery)
    requires k in s.frames && s.frames[k].Releasing? && SkipGone(s.frames[k].rest, s.pending) != []
    ensures |TakeNext(s, k).pending| == |s.pending| - 1 && TakeNext(s, k).pending.Keys <= s.pending.Keys
    ensures Active(TakeNext(s, k)) == Active(s)
    ensures TotalLeft(TakeNext(s, k).frames) < TotalLeft(s.frames)
  {
    var next := TakeNext(s, k).frames[k];
    SkipGoneKeepsParked(s.frames[k].rest, s.pending);
    assert Left(next) < Left(s.frames[k]);
    Smaller(s.pending, SkipGone(s.frames[k].rest, s.pending)[0]);
    TotalLeftUpdate(s.frames, k, next);
  }

  lemma {:induction false} StartCounts(s: State, d: Delivery, now: int)
    requires d !in Active(s)
    ensures StartCallback(s, d, now).pending == s.pending
    ensures |Active(StartCallback(s, d, now))| == |Active(s)| + 1
  {
    assert Active(StartCallback(s, d, now)) == Active(s) + {d};
  }

  lemma {:induction false} ParkCounts(s: State, d: Delivery, now: int)
    requires d.id.Some? && d.dependsOn.Some? && d.id.value !in s.pending
    ensures |ParkDelivery(s, d, now).pending| == |s.pending| + 1
    ensures ParkDelivery(s, d, now).pending.Keys == s.pending.Keys + {d.id.value}
    ensures ParkDelivery(s, d, now).frames == s.frames
  {
    Larger(s.pending, d.id.value, Parked(d, d.dependsOn.value, now));
  }

  lemma {:induction false} VisitShrinks(s: State, k: Delivery, now: int)
    requires Inv(s) && k in s.frames && s.frames[k].Releasing?
    ensures Shrinks(s, Visit(s, k, now))
    ensures |Visit(s, k, now).pending| + |Active(Visit(s, k, now))| <= |s.pending| + |Active(s)|
    ensures Visit(s, k, now).pending.Keys <= s.pending.Keys
  {
    if SkipGone(s.frames[k].rest, s.pending) == [] {
      TotalLeftRemove(s.frames, k);
      assert Active(Visit(s, k, now)) == Active(s);
    } else {
      NextShrinks(s, k, now);
    }
  }

  lemma {:induction false} NextShrinks(s: State, k: Delivery, now: int)
    requires Inv(s) && k in s.frames && s.frames[k].Releasing? && SkipGone(s.frames[k].rest, s.pending) != []
    ensures var t := Visit(s, k, now);
            Shrinks(s, t) && |t.pending| + |Active(t)| <= |s.pending| + |Active(s)| && t.pending.Keys <= s.pending.Keys
  {
    TakeNextKeeps(s, k);
    TakeNextCounts(s, k);
    TakenIsGone(s, k);
    var d, u := s.pending[SkipGone(s.frames[k].rest, s.pending)[0]].delivery, TakeNext(s, k);
    if MustWait(u, d) { ParkCounts(u, d, now); } else { StartCounts(u, d, now); }
  }

  lemma {:induction false} TakenIsGone(s: State, k: Delivery)
    requires Inv(s) && k in s.frames && s.frames[k].Releasing? && SkipGone(s.frames[k].rest, s.pending) != []
    ensures var d := s.pending[SkipGone(s.frames[k].rest, s.pending)[0]].delivery;
            d.id == Some(SkipGone(s.frames[k].rest, s.pending)[0]) && !Running(s, d) && Unsettled(s.log, d)
  {
    var d := s.pending[SkipGone(s.frames[k].rest, s.pending)[0]].delivery;
    assert IsParked(s, d) && Places(s, d) == Count(d in s.handed);
    SettlementsCount(s.log, d);
  }

  lemma {:induction false} SuccessShrinks(s: State, d: Delivery, now: int)
    requires Inv(s) && Enabled(s, CallbackSucceeds(d, now))
    ensures var t := Step(s, CallbackSucceeds(d, now)); Shrinks(s, t) && t.pending.Keys <= s.pending.Keys
  {
    SucceedCounts(s, d);
    SucceedKeeps(s, d);
    if d in Succeed(s, d).frames {
      VisitShrinks(Succeed(s, d), d, now);
      FewerThenNoMore(s, Succeed(s, d), Visit(Succeed(s, d), d, now));
    }
  }

  lemma {:induction false} SucceedCounts(s: State, d: Delivery)
    requires Running(s, d)
    ensures Succeed(s, d).pending == s.pending && |Active(Succeed(s, d))| == |Active(s)| - 1
  {
    assert Active(Succeed(s, d)) == Active(s) - {d} && d in Active(s);
  }

  lemma {:induction false} FewerThenNoMore(s: State, t: State, u: State)
    requires |t.pending| + |Active(t)| < |s.pending| + |Active(s)|
    requires |u.pending| + |Active(u)| <= |t.pending| + |Active(t)|
    ensures Shrinks(s, u)
  {
  }

  /** Termination of the cascade: every internal event makes the state smaller, for every
      dependency graph and every outcome, and a message parked again was parked before. */
  lemma {:induction false} InternalStepShrinks(s: State, e: Event)
    requires Inv(s) && Internal(e) && Enabled(s, e)
    ensures Shrinks(s, Step(s, e)) && Step(s, e).pending.Keys <= s.pending.Keys
  {
    match e
    case CallbackSucceeds(d, now) => SuccessShrinks(s, d, now);
    case CallbackFails(d) => assert Active(Fail(s, d)) == Active(s) - {d} && d in Active(s);
    case Resume(k, now) => VisitShrinks(s, k, now);
  }

  lemma {:induction false} StepHands(s: State, e: Event)
    requires Internal(e)
    ensures Step(s, e).handed == s.handed
  {
  }

  // Every frame's delivery was started, and a loop waits only for later starts.
  ghost predicate FramesStarted(s: State) {
    forall k :: k in s.frames ==> Start(k) in s.log
  }

  ghost predicate ChildrenLater(s: State) {
    forall k, i, j ::
      (k in s.frames && s.frames[k].Releasing? && s.frames[k].child.Some? && 0 <= i < |s.log| && 0 <= j < |s.log| &&
       s.log[i] == Start(k) && s.log[j] == Start(s.frames[k].child.value))
      ==> i < j
  }

  ghost predicate ChildrenStarted(s: State) {
    forall k :: k in s.frames && s.frames[k].Releasing? && s.frames[k].child.Some? ==>
      Start(s.frames[k].child.value) in s.log
  }

  ghost predicate Nested(s: State) {
    FramesStarted(s) && ChildrenLater(s) && ChildrenStarted(s)
  }

  lemma {:induction false} StartedAppend(s: State, t: State, h: Happening)
    requires FramesStarted(s) && ChildrenStarted(s) && t.log == s.log + [h]
    requires forall k :: k in t.frames && t.frames[k].Releasing? && t.frames[k].child.Some? ==>
      k in s.frames && (t.frames[k] == s.frames[k] || h == Start(t.frames[k].child.value))
    requires forall k :: k in t.frames ==> k in s.frames || h == Start(k)
    ensures FramesStarted(t) && ChildrenStarted(t)
  {
    assert h in t.log && forall x :: x in s.log ==> x in t.log;
  }

  lemma {:induction false} NestedAppend(s: State, t: State, h: Happening)
    requires Nested(s) && t.log == s.log + [h]
    requires h.Start? ==> Start(h.delivery) !in s.log
    requires forall k :: k in t.frames && t.frames[k].Releasing? && t.frames[k].child.Some? ==>
      k in s.frames && (t.frames[k] == s.frames[k] || h == Start(t.frames[k].child.value))
    requires forall k :: k in t.frames ==> k in s.frames || h == Start(k)
    ensures Nested(t)
  {
    StartedAppend(s, t, h);
    forall k, i, j |
      k in t.frames && t.frames[k].Releasing? && t.frames[k].child.Some? && 0 <= i < |t.log| && 0 <= j < |t.log| &&
      t.log[i] == Start(k) && t.log[j] == Start(t.frames[k].child.value)
      ensures i < j
    {
      LaterStart(s, k, t.frames[k].child.value, h, i, j);
    }
  }

  lemma {:induction false} LaterStart(s: State, k: Delivery, c: Delivery, h: Happening, i: nat, j: nat)
    requires Nested(s) && k in s.frames && (h.Start? ==> Start(h.delivery) !in s.log)
    requires h == Start(c) || (s.frames[k].Releasing? && s.frames[k].child == Some(c))
    requires i <= |s.log| && j <= |s.log| && (s.log + [h])[i] == Start(k) && (s.log + [h])[j] == Start(c)
    ensures i < j
  {
    assert Start(k) in s.log;
    assert i < |s.log| ==> s.log[i] == Start(k);
    assert j < |s.log| ==> s.log[j] == Start(c) && Start(c) in s.log;
  }

  lemma {:induction false} HandleNowNests(s: State, u: State, d: Delivery, now: int)
    requires Nested(s) && u.log == s.log && Start(d) !in s.log
    requires forall j :: j in u.frames ==> j in s.frames
    requires forall j :: j in u.frames && u.frames[j].Releasing? && u.frames[j].child.Some? ==>
      u.frames[j] == s.frames[j] || (!MustWait(u, d) && u.frames[j].child.value == d)
    ensures Nested(HandleNow(u, d, now))
  {
    NestedAppend(s, HandleNow(u, d, now), Reaction(u, d));
  }

  lemma {:induction false} FewerFramesNest(s: State, t: State)
    requires Nested(s) && t.log == s.log
    requires forall k :: k in t.frames ==> k in s.frames && t.frames[k] == s.frames[k]
    ensures Nested(t)
  {
    forall k, i, j |
      k in t.frames && t.frames[k].Releasing? && t.frames[k].child.Some? && 0 <= i < |t.log| && 0 <= j < |t.log| &&
      t.log[i] == Start(k) && t.log[j] == Start(t.frames[k].child.value)
      ensures i < j
    {
      assert s.frames[k] == t.frames[k];
    }
  }

  lemma {:induction false} TakenNeverStarted(s: State, k: Delivery)
    requires Inv(s) && Lived(s) && k in s.frames && s.frames[k].Releasing?
    requires SkipGone(s.frames[k].rest, s.pending) != []
    ensures Start(s.pending[SkipGone(s.frames[k].rest, s.pending)[0]].delivery) !in s.log
  {
    TakenIsGone(s, k);
  }

  // Only the loop that goes on has a new child, and only if it starts.
  lemma {:induction false} TakeNextChildren(s: State, k: Delivery)
    requires k in s.frames && s.frames[k].Releasing? && SkipGone(s.frames[k].rest, s.pending) != []
    ensures var d, u := s.pending[SkipGone(s.frames[k].rest, s.pending)[0]].delivery, TakeNext(s, k);
            u.log == s.log && (forall j :: j in u.frames ==> j in s.frames) &&
            forall j :: j in u.frames && u.frames[j].Releasing? && u.frames[j].child.Some? ==>
              u.frames[j] == s.frames[j] || (!MustWait(u, d) && u.frames[j].child.value == d)
  {
    var x := SkipGone(s.frames[k].rest, s.pending)[0];
    var d, u := s.pending[x].delivery, TakeNext(s, k);
    assert MustWait(s.(pending := s.pending - {x}), d) == MustWait(u, d);
  }

  lemma {:induction false} TakeNextNests(s: State, k: Delivery, now: int)
    requires Nested(s) && k in s.frames && s.frames[k].Releasing? && SkipGone(s.frames[k].rest, s.pending) != []
    requires Start(s.pending[SkipGone(s.frames[k].rest, s.pending)[0]].delivery) !in s.log
    ensures Nested(Visit(s, k, now))
  {
    TakeNextChildren(s, k);
    HandleNowNests(s, TakeNext(s, k), s.pending[SkipGone(s.frames[k].rest, s.pending)[0]].delivery, now);
  }

  lemma {:induction false} VisitNests(s: State, k: Delivery, now: int)
    requires Inv(s) && Lived(s) && Nested(s) && k in s.frames && s.frames[k].Releasing?
    ensures Nested(Visit(s, k, now))
  {
    if SkipGone(s.frames[k].rest, s.pending) == [] {
      FewerFramesNest(s, Visit(s, k, now));
    } else {
      TakenNeverStarted(s, k);
      TakeNextNests(s, k, now);
    }
  }

  lemma {:induction false} DeliverNests(s: State, d: Delivery, now: int)
    requires Nested(s) && Lived(s) && d !in s.handed
    ensures Nested(HandleNow(s.(handed := s.handed + {d}), d, now))
  {
    assert Start(d) !in s.log;
    HandleNowNests(s, s.(handed := s.handed + {d}), d, now);
  }

  lemma {:induction false} SettleNests(s: State, d: Delivery)
    requires Nested(s) && Running(s, d)
    ensures Nested(Succeed(s, d)) && Nested(Fail(s, d))
  {
    NestedAppend(s, Succeed(s, d), Settle(d, Success));
    NestedAppend(s, Fail(s, d), Settle(d, Failure));
  }

  lemma {:induction false} ExpireAllNests(s: State, ids: seq<MessageId>)
    requires Nested(s)
    ensures Nested(ExpireAll(s, ids))
  {
    if ids != [] {
      var t := ExpireAll(s, ids[..|ids| - 1]);
      ExpireAllNests(s, ids[..|ids| - 1]);
      if ids[|ids| - 1] in t.pending {
        NestedAppend(t, ExpireOne(t, ids[|ids| - 1]), Settle(t.pending[ids[|ids| - 1]].delivery, Expired));
      }
    }
  }

  lemma {:induction false} SucceedReaches(s: State, d: Delivery) returns (u: State)
    requires Inv(s) && Lived(s) && Nested(s) && Running(s, d)
    ensures u == Succeed(s, d) && Inv(u) && Lived(u) && Nested(u)
    ensures d in u.frames ==> u.frames[d].Releasing?
  {
    SettleNests(s, d);
    SucceedKeeps(s, d);
    SettleLives(s, d);
    u := Succeed(s, d);
  }

  lemma {:induction false} SweepNests(s: State, now: int, expired: seq<MessageId>)
    requires Nested(s)
    ensures Nested(ExpireAll(ForgetStale(s, now), expired))
  {
    FewerFramesNest(s, ForgetStale(s, now));
    ExpireAllNests(ForgetStale(s, now), expired);
  }

  lemma {:induction false} StepNests(s: State, e: Event)
    requires Inv(s) && Lived(s) && Nested(s)
    ensures Nested(Step(s, e))
  {
    if Enabled(s, e) {
      match e
      case Deliver(d, now) => DeliverNests(s, d, now);
      case CallbackSucceeds(d, now) =>
        var u := SucceedReaches(s, d);
        if d in u.frames { VisitNests(u, d, now); }
      case CallbackFails(d) => SettleNests(s, d);
      case Resume(k, now) => VisitNests(s, k, now);
      case Sweep(now, expired) => SweepNests(s, now, expired);
      case Dispose => FewerFramesNest(s, Discard(s));
    }
  }

  lemma {:induction false} RunNests(staleTimeout: int, events: seq<Event>)
    ensures Nested(Run(Init(staleTimeout), events))
  {
    if events != [] {
      var before := events[..|events| - 1];
      RunNests(staleTimeout, before);
      RunKeeps(staleTimeout, before);
      RunLives(staleTimeout, before);
      StepNests(Run(Init(staleTimeout), before), events[|events| - 1]);
    }
  }

  // The open frame whose start is the last in the log.
  lemma {:induction false} LastStarted(s: State) returns (d: Delivery, i: nat)
    requires FramesStarted(s) && s.frames != map[]
    ensures d in s.frames && i < |s.log| && s.log[i] == Start(d)
    ensures forall h :: i < h < |s.log| ==> !(s.log[h].Start? && s.log[h].delivery in s.frames)
  {
    var k :| k in s.frames;
    assert Start(k) in s.log;
    i := |s.log| - 1;
    while !(s.log[i].Start? && s.log[i].delivery in s.frames)
      invariant 0 <= i < |s.log|
      invariant forall h :: i < h < |s.log| ==> !(s.log[h].Start? && s.log[h].delivery in s.frames)
      decreases i
    {
      i := i - 1;
    }
    d := s.log[i].delivery;
  }

  /** No release loop deadlocks: while a frame is open, some callback is running or some
      loop can go on. */
  lemma {:induction false} SomeFrameCanGoOn(s: State) returns (d: Delivery)
    requires Nested(s) && s.frames != map[]
    ensures d in s.frames && (s.frames[d].InCallback? || CanResume(s, d))
  {
    var i;
    d, i := LastStarted(s);
    LastHasNoChild(s, d, i);
  }

  // The open frame started last waits for no other.
  lemma {:induction false} LastHasNoChild(s: State, d: Delivery, i: nat)
    requires Nested(s) && d in s.frames && i < |s.log| && s.log[i] == Start(d)
    requires forall h :: i < h < |s.log| ==> !(s.log[h].Start? && s.log[h].delivery in s.frames)
    ensures s.frames[d].InCallback? || CanResume(s, d)
  {
    if s.frames[d].Releasing? && s.frames[d].child.Some? {
      var j :| 0 <= j < |s.log| && s.log[j] == Start(s.frames[d].child.value);
      assert i < j;
    }
  }

  ghost predicate Reached(s: State) {
    Inv(s) && Lived(s) && Nested(s)
  }

  lemma {:induction false} StepReaches(s: State, e: Event)
    requires Reached(s)
    ensures Reached(Step(s, e))
  {
    StepKeeps(s, e);
    StepLives(s, e);
    StepNests(s, e);
  }

  lemma {:induction false} InternalStep(s: State, e: Event) returns (t: State)
    requires Reached(s) && Internal(e) && Enabled(s, e)
    ensures t == Step(s, e) && Reached(t) && t.handed == s.handed
    ensures Shrinks(s, t) && t.pending.Keys <= s.pending.Keys
  {
    InternalStepShrinks(s, e);
    StepReaches(s, e);
    StepHands(s, e);
    t := Step(s, e);
  }

  lemma {:induction false} SomeEvent(s: State) returns (e: Event)
    requires Nested(s) && s.frames != map[]
    ensures Internal(e) && Enabled(s, e)
  {
    var d := SomeFrameCanGoOn(s);
    assert Enabled(s, Resume(d, 0)) || Enabled(s, CallbackFails(d));
    e :| Internal(e) && Enabled(s, e);
  }

  /** From every reachable state, letting the open frames go on leads to a state in which
      none is open: the choice of the next event is left open, and each one counts down. */
  lemma {:induction false} Drain(s0: State) returns (s: State, events: seq<Event>)
    requires Reached(s0)
    ensures s == Run(s0, events) && (forall e :: e in events ==> Internal(e))
    ensures s.frames == map[] && Reached(s) && s.handed == s0.handed && s.pending.Keys <= s0.pending.Keys
    decreases |s0.pending| + |Active(s0)|, |s0.pending|, TotalLeft(s0.frames)
  {
    if s0.frames == map[] {
      s, events := s0, [];
    } else {
      var e := SomeEvent(s0);
      var t := InternalStep(s0, e);
      s, events := Drain(t);
      events := Prepend(s0, e, t, s, events);
    }
  }

  lemma {:induction false} Prepend(s0: State, e: Event, t: State, s: State, events: seq<Event>)
    returns (all: seq<Event>)
    requires Internal(e) && t == Step(s0, e) && s == Run(t, events) && forall e :: e in events ==> Internal(e)
    ensures s == Run(s0, all) && forall e :: e in all ==> Internal(e)
  {
    RunFirst(s0, e, events);
    all := [e] + events;
  }

  lemma {:induction false} RunFirst(s: State, e: Event, events: seq<Event>)
    ensures Run(s, [e] + events) == Run(Step(s, e), events)
  {
    var all := [e] + events;
    if events == [] {
      assert all[..0] == [] && all == [e];
    } else {
      RunFirst(s, e, events[..|events| - 1]);
      assert all[..|all| - 1] == [e] + events[..|events| - 1];
    }
  }
}
