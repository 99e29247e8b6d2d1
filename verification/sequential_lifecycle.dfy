/** The life of one delivery: what may follow what in the log, how every parked delivery
    ends, and the order in which a chain of parked deliveries starts. */
module SequentialLifecycle {
  import opened SequentialSpec
  import opened SequentialInvariants
  import opened SequentialOrder

  ghost predicate Unsettled(log: seq<Happening>, d: Delivery) {
    forall outcome :: Settle(d, outcome) !in log
  }

  /** What the log before an entry must and must not hold. */
  ghost predicate Lawful(log: seq<Happening>, h: Happening) {
    && Unsettled(log, h.delivery)
    && match h
       case Park(d) => Start(d) !in log
       case Start(d) => Start(d) !in log
       case Settle(d, outcome) =>
         match outcome
         case Success => Start(d) in log
         case Failure => Start(d) in log
         case Expired => Park(d) in log && Start(d) !in log
         case Duplicate => Park(d) !in log && Start(d) !in log
  }

  ghost predicate LawfulLog(log: seq<Happening>) {
    forall i :: 0 <= i < |log| ==> Lawful(log[..i], log[i])
  }

  ghost predicate StartedRuns(s: State) {
    forall d :: Start(d) in s.log ==> Running(s, d) || Settle(d, Success) in s.log || Settle(d, Failure) in s.log
  }

  ghost predicate RunningStarted(s: State) {
    forall d :: Running(s, d) ==> Start(d) in s.log
  }

  ghost predicate Lived(s: State) {
    && LawfulLog(s.log) && StartedRuns(s) && RunningStarted(s) && ParkedLogged(s)
    && (forall h :: h in s.log ==> h.delivery in s.handed)
  }

  lemma {:induction false} SettlementsCount(log: seq<Happening>, d: Delivery)
    ensures Settlements(log, d) == 0 <==> Unsettled(log, d)
  {
    if log != [] {
      var last := log[|log| - 1];
      assert log == log[..|log| - 1] + [last];
      SettlementsCount(log[..|log| - 1], d);
      if last.Settle? && last.delivery == d { assert Settle(d, last.outcome) in log; }
    }
  }

  lemma {:induction false} LawfulAppend(log: seq<Happening>, h: Happening)
    requires LawfulLog(log) && Lawful(log, h)
    ensures LawfulLog(log + [h])
  {
    var all := log + [h];
    forall i | 0 <= i < |all| ensures Lawful(all[..i], all[i]) {
      if i == |log| { assert all[..i] == log; } else { assert all[..i] == log[..i]; }
    }
  }

  lemma {:induction false} StartedRunsOn(s: State, t: State, h: Happening)
    requires StartedRuns(s) && t.log == s.log + [h]
    requires forall d :: d != h.delivery ==> Running(t, d) == Running(s, d)
    requires Running(t, h.delivery) == h.Start?
    requires h.Settle? && Start(h.delivery) in s.log ==> h.outcome in {Success, Failure}
    requires h.Park? ==> Start(h.delivery) !in s.log
    ensures StartedRuns(t)
  {
    forall d | Start(d) in t.log ensures Running(t, d) || Settle(d, Success) in t.log || Settle(d, Failure) in t.log {
      if d == h.delivery && h.Settle? { assert h in t.log; }
    }
  }

  // One lawful entry is appended, and only its own delivery changes place.
  lemma {:induction false} LivesOn(s: State, t: State, h: Happening)
    requires Lived(s) && t.log == s.log + [h] && Lawful(s.log, h) && s.handed <= t.handed && h.delivery in t.handed
    requires forall d :: d != h.delivery ==> Running(t, d) == Running(s, d)
    requires Running(t, h.delivery) == h.Start?
    requires h.Settle? && Start(h.delivery) in s.log ==> h.outcome in {Success, Failure}
    requires forall x :: x in t.pending ==>
      (x in s.pending && t.pending[x] == s.pending[x]) || h == Park(t.pending[x].delivery)
    requires h.Park? ==> Start(h.delivery) !in s.log
    ensures Lived(t)
  {
    LawfulAppend(s.log, h);
    StartedRunsOn(s, t, h);
    forall d | Running(t, d) ensures Start(d) in t.log {
      if d == h.delivery { assert h in t.log; }
    }
  }

  lemma {:induction false} HandleNowLives(s: State, d: Delivery, now: int)
    requires Lived(s) && d in s.handed && Places(s, d) == 0
    requires MustWait(s, d) && d.id.value in s.pending ==> Park(d) !in s.log
    ensures Lived(HandleNow(s, d, now))
  {
    SettlementsCount(s.log, d);
    assert Start(d) !in s.log;
    LivesOn(s, HandleNow(s, d, now), Reaction(s, d));
  }

  lemma {:induction false} TakenLives(s: State, k: Delivery, now: int)
    requires Inv(s) && Lived(s) && k in s.frames && s.frames[k].Releasing?
    requires SkipGone(s.frames[k].rest, s.pending) != []
    ensures Lived(TakeNext(s, k))
    ensures Places(TakeNext(s, k), s.pending[SkipGone(s.frames[k].rest, s.pending)[0]].delivery) == 0
  {
    TakeNextKeeps(s, k);
    assert forall e :: Running(TakeNext(s, k), e) == Running(s, e);
  }

  lemma {:induction false} VisitLives(s: State, k: Delivery, now: int)
    requires Inv(s) && Lived(s) && k in s.frames && s.frames[k].Releasing?
    ensures Lived(Visit(s, k, now))
  {
    if SkipGone(s.frames[k].rest, s.pending) != [] {
      var d, t := s.pending[SkipGone(s.frames[k].rest, s.pending)[0]].delivery, TakeNext(s, k);
      TakenLives(s, k, now);
      TakeNextKeeps(s, k);
      HandleNowLives(t, d, now);
    } else {
      assert forall e :: Running(Visit(s, k, now), e) == Running(s, e);
    }
  }

  lemma {:induction false} RunningUnsettled(s: State, d: Delivery)
    requires Inv(s) && Running(s, d)
    ensures Unsettled(s.log, d) && d in s.handed
  {
    assert Places(s, d) == Count(d in s.handed);
    SettlementsCount(s.log, d);
  }

  lemma {:induction false} SucceedLives(s: State, d: Delivery)
    requires Lived(s) && Running(s, d) && Unsettled(s.log, d) && d in s.handed
    ensures Lived(Succeed(s, d))
  {
    LivesOn(s, Succeed(s, d), Settle(d, Success));
  }

  lemma {:induction false} FailLives(s: State, d: Delivery)
    requires Lived(s) && Running(s, d) && Unsettled(s.log, d) && d in s.handed
    ensures Lived(Fail(s, d))
  {
    LivesOn(s, Fail(s, d), Settle(d, Failure));
  }

  lemma {:induction false} SettleLives(s: State, d: Delivery)
    requires Inv(s) && Lived(s) && Running(s, d)
    ensures Lived(Succeed(s, d)) && Lived(Fail(s, d))
  {
    RunningUnsettled(s, d);
    SucceedLives(s, d);
    FailLives(s, d);
  }

  lemma {:induction false} ExpireOneLives(s: State, id: MessageId)
    requires Inv(s) && Lived(s) && id in s.pending
    ensures Lived(ExpireOne(s, id))
  {
    var d := s.pending[id].delivery;
    assert IsParked(s, d) && Places(s, d) == Count(d in s.handed);
    SettlementsCount(s.log, d);
    assert Start(d) !in s.log;
    LivesOn(s, ExpireOne(s, id), Settle(d, Expired));
  }

  lemma {:induction false} ExpireAllLives(s: State, ids: seq<MessageId>)
    requires Inv(s) && Lived(s)
    ensures Lived(ExpireAll(s, ids))
  {
    if ids != [] {
      var t := ExpireAll(s, ids[..|ids| - 1]);
      ExpireAllLives(s, ids[..|ids| - 1]);
      ExpireAllKeeps(s, ids[..|ids| - 1]);
      if ids[|ids| - 1] in t.pending { ExpireOneLives(t, ids[|ids| - 1]); }
    }
  }

  lemma {:induction false} StepLives(s: State, e: Event)
    requires Inv(s) && Lived(s)
    ensures Lived(Step(s, e))
  {
    if Enabled(s, e) {
      match e
      case Deliver(d, now) =>
        assert Places(s, d) == Count(d in s.handed);
        var t := s.(handed := s.handed + {d});
        assert forall x :: Running(t, x) == Running(s, x);
        HandleNowLives(t, d, now);
      case CallbackSucceeds(d, now) =>
        SettleLives(s, d);
        SucceedKeeps(s, d);
        if d in Succeed(s, d).frames { VisitLives(Succeed(s, d), d, now); }
      case CallbackFails(d) => SettleLives(s, d);
      case Resume(k, now) => VisitLives(s, k, now);
      case Sweep(now, expired) =>
        ForgetStaleKeeps(s, now);
        assert forall d :: Running(ForgetStale(s, now), d) == Running(s, d);
        ExpireAllLives(ForgetStale(s, now), expired);
      case Dispose => assert forall d :: Running(Discard(s), d) == Running(s, d);
    }
  }

  lemma {:induction false} RunLives(staleTimeout: int, events: seq<Event>)
    ensures Lived(Run(Init(staleTimeout), events))
  {
    if events != [] {
      RunLives(staleTimeout, events[..|events| - 1]);
      RunKeeps(staleTimeout, events[..|events| - 1]);
      StepLives(Run(Init(staleTimeout), events[..|events| - 1]), events[|events| - 1]);
    }
  }

  lemma {:induction false} LawfulMembers(log: seq<Happening>, d: Delivery)
    requires LawfulLog(log)
    ensures Settle(d, Expired) in log ==> Park(d) in log && Start(d) !in log
    ensures Settle(d, Duplicate) in log ==> Park(d) !in log && Start(d) !in log
    ensures Settle(d, Success) in log || Settle(d, Failure) in log ==> Start(d) in log
  {
    if log != [] {
      var before, last := log[..|log| - 1], log[|log| - 1];
      assert log == before + [last];
      forall i | 0 <= i < |before| ensures Lawful(before[..i], before[i]) {
        assert before[..i] == log[..i] && before[i] == log[i];
      }
      LawfulMembers(before, d);
      assert Lawful(log[..|log| - 1], last);
    }
  }

  lemma {:induction false} FateOf(s: State, d: Delivery)
    requires Inv(s) && Lived(s) && Park(d) in s.log
    ensures IsParked(s, d) || d in s.discarded || (Start(d) in s.log <==> Settle(d, Expired) !in s.log)
    ensures Settle(d, Expired) in s.log ==> Start(d) !in s.log && !IsParked(s, d)
  {
    LawfulMembers(s.log, d);
    assert Places(s, d) == Count(d in s.handed);
    SettlementsCount(s.log, d);
    if Settlements(s.log, d) != 0 {
      var outcome :| Settle(d, outcome) in s.log;
    }
  }

  /** How a parked delivery ends, over every run: once it is no longer parked, it was
      dropped by `dispose`, or it was started, or it was settled by expiry and never
      started. */
  lemma {:induction false} ParkedFate(staleTimeout: int, events: seq<Event>, d: Delivery)
    requires Park(d) in Run(Init(staleTimeout), events).log
    ensures var s := Run(Init(staleTimeout), events);
            IsParked(s, d) || d in s.discarded || (Start(d) in s.log <==> Settle(d, Expired) !in s.log)
    ensures var s := Run(Init(staleTimeout), events);
            Settle(d, Expired) in s.log ==> Start(d) !in s.log && !IsParked(s, d)
  {
    RunKeeps(staleTimeout, events);
    RunLives(staleTimeout, events);
    FateOf(Run(Init(staleTimeout), events), d);
  }

  // `d` waits for the message of `c`, and no other delivery of that message succeeded.
  ghost predicate Links(log: seq<Happening>, c: Delivery, d: Delivery) {
    && c.id.Some? && d.dependsOn == c.id
    && (forall h :: h in log && IsSuccess(h, c.id.value) ==> h.delivery == c)
  }

  ghost predicate IsChain(log: seq<Happening>, chain: seq<Delivery>) {
    && (forall n :: 0 < n < |chain| ==> Links(log, chain[n - 1], chain[n]))
    && (forall n :: 0 < n < |chain| ==> Park(chain[n]) in log)
  }

  ghost predicate StartedBefore(log: seq<Happening>, d: Delivery, i: nat) {
    exists h :: 0 <= h < i <= |log| && log[h] == Start(d)
  }

  // A parking comes before the start of the same delivery.
  lemma {:induction false} ParkedFirst(log: seq<Happening>, d: Delivery, j: nat, i: nat)
    requires LawfulLog(log) && j < |log| && i < |log| && log[j] == Park(d) && log[i] == Start(d)
    ensures j < i
  {
    assert Lawful(log[..j], log[j]);
    assert forall h :: 0 <= h < j ==> log[..j][h] == log[h];
  }

  // What succeeded had started before.
  lemma {:induction false} SuccessStarted(log: seq<Happening>, c: Delivery, m: nat)
    requires LawfulLog(log) && m < |log| && log[m] == Settle(c, Success)
    ensures StartedBefore(log, c, m)
  {
    assert Lawful(log[..m], log[m]);
    var h :| 0 <= h < m && log[..m][h] == Start(c);
    assert log[h] == Start(c);
  }

  lemma {:induction false} StartAfterLink(log: seq<Happening>, c: Delivery, d: Delivery, i: nat)
    requires LawfulLog(log) && InOrder(log) && Links(log, c, d) && Park(d) in log
    requires i < |log| && log[i] == Start(d)
    ensures StartedBefore(log, c, i)
  {
    var j :| 0 <= j < |log| && log[j] == Park(d);
    ParkedFirst(log, d, j, i);
    assert SuccessBetween(log, c.id.value, j, i);
    var m :| j < m < i && 0 <= m < |log| && IsSuccess(log[m], c.id.value);
    assert log[m] in log;
    SuccessStarted(log, c, m);
  }

  // Each link of the chain starts after the one before it.
  ghost predicate StepsBack(log: seq<Happening>, chain: seq<Delivery>) {
    forall n, i :: 0 < n < |chain| && 0 <= i < |log| && log[i] == Start(chain[n]) ==>
      StartedBefore(log, chain[n - 1], i)
  }

  lemma {:induction false} ChainStepsBack(log: seq<Happening>, chain: seq<Delivery>)
    requires LawfulLog(log) && InOrder(log) && IsChain(log, chain)
    ensures StepsBack(log, chain)
  {
    forall n, i | 0 < n < |chain| && 0 <= i < |log| && log[i] == Start(chain[n])
      ensures StartedBefore(log, chain[n - 1], i)
    {
      StartAfterLink(log, chain[n - 1], chain[n], i);
    }
  }

  lemma {:induction false} ChainInLog(log: seq<Happening>, chain: seq<Delivery>, a: nat, b: nat, i: nat)
    requires StepsBack(log, chain) && a < b < |chain|
    requires i < |log| && log[i] == Start(chain[b])
    ensures exists h :: 0 <= h < i && log[h] == Start(chain[a])
    decreases b
  {
    assert StartedBefore(log, chain[b - 1], i);
    if a < b - 1 {
      var h :| 0 <= h < i && log[h] == Start(chain[b - 1]);
      ChainInLog(log, chain, a, b - 1, h);
    }
  }

  /** A chain of parked deliveries starts in chain order, over every run in which no delivery
      is parked while an open release loop still has its id to visit. */
  lemma {:induction false} ChainOrder(
    staleTimeout: int, events: seq<Event>, chain: seq<Delivery>, a: nat, b: nat, i: nat)
    requires AllClear(staleTimeout, events)
    requires IsChain(Run(Init(staleTimeout), events).log, chain) && a < b < |chain|
    requires i < |Run(Init(staleTimeout), events).log|
    requires Run(Init(staleTimeout), events).log[i] == Start(chain[b])
    ensures var log := Run(Init(staleTimeout), events).log; exists h :: 0 <= h < i && log[h] == Start(chain[a])
  {
    RunOrders(staleTimeout, events);
    RunLives(staleTimeout, events);
    ChainStepsBack(Run(Init(staleTimeout), events).log, chain);
    ChainInLog(Run(Init(staleTimeout), events).log, chain, a, b, i);
  }
}
