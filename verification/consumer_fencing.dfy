/** The fences of a recovery loop over every continuation: what keeps it from beginning a
    setup, what keeps it from giving up, and exactly where they leave a gap. */
module ConsumerFencing {
  import opened ConsumerSpec
  import opened ConsumerLifecycle
  import opened ConsumerRecovery

  // What a step can do to one loop.
  lemma {:induction false} StepMovesLoop(s: State, e: Event, n: nat)
    requires Linked(s) && n < |s.loops|
    ensures var t := Step(s, e);
            n < |t.loops| && (t.loops[n] == s.loops[n] || (e == LoopWakes(n) && t == WakeLoop(s, n)) ||
                              (e == LoopResumes(n) && Enabled(s, e) && t == ResumeLoop(s, n)))
  {
    if e.RecreateAll? { RecreateEachFrame(s, e.order); }
  }

  // A step revives no consumer.
  lemma {:induction false} StepRevivesNobody(s: State, e: Event, c: ConsumerId)
    requires Linked(s) && c in s.infos
    ensures c in Step(s, e).infos && (s.infos[c].cancelled ==> Step(s, e).infos[c].cancelled)
    ensures c !in s.active ==> c !in Step(s, e).active
  {
    StepKeepsCancelled(s, e, c);
    if c !in s.active { StepKeepsGone(s, e, c); }
  }

  lemma {:induction false} StepKeepsCancelled(s: State, e: Event, c: ConsumerId)
    requires Linked(s) && c in s.infos
    ensures c in Step(s, e).infos && (s.infos[c].cancelled ==> Step(s, e).infos[c].cancelled)
  {
    if e.RecreateAll? { RecreateEachFrame(s, e.order); }
  }

  // A step brings no earlier pool back.
  lemma {:induction false} StepNewPool(s: State, e: Event)
    ensures Step(s, e).pool == s.pool || Step(s, e).pool.None? || Step(s, e).pool.value !in s.pools
  {
    if e.RecreateAll? { RecreateEachFrame(s, e.order); }
  }

  // A step counts no epoch down.
  lemma {:induction false} StepEpochs(s: State, e: Event, c: ConsumerId)
    requires Linked(s) && c in s.infos
    ensures c in Step(s, e).infos && s.infos[c].epoch <= Step(s, e).infos[c].epoch
  {
    if Enabled(s, e) {
      match e
      case RecreateAll(order) => RecreateEachEpochs(s, order, c);
      case DisposeAll =>
      case _ =>
    }
  }

  lemma {:induction false} RecreateEachEpochs(s: State, order: seq<ConsumerId>, c: ConsumerId)
    requires c in s.infos
    ensures c in RecreateEach(s, order).infos && s.infos[c].epoch <= RecreateEach(s, order).infos[c].epoch
  {
    if order != [] { RecreateEachEpochs(s, order[..|order| - 1], c); }
  }

  lemma {:induction false} RunNext(before: seq<Event>, e: Event)
    ensures Run(INIT, before + [e]) == Step(Run(INIT, before), e)
  {
    assert (before + [e])[..|before|] == before;
  }

  // ---------- cancelled, dropped, or on another pool ----------

  // The loop's consumer was cancelled or dropped.
  predicate LetGo(s: State, n: nat) {
    n < |s.loops| && s.loops[n].consumer in s.infos && !Live(s, s.loops[n].consumer)
  }

  // The loop began on a pool, and that pool is no longer installed.
  predicate OffItsPool(s: State, n: nat) {
    n < |s.loops| && s.loops[n].ownedPool.Some? && s.pool != s.loops[n].ownedPool
  }

  predicate FencedOut(s: State, n: nat) { LetGo(s, n) || OffItsPool(s, n) }

  lemma {:induction false} StepKeepsLetGo(s: State, e: Event, n: nat)
    requires Linked(s) && LetGo(s, n)
    ensures LetGo(Step(s, e), n)
  {
    StepMovesLoop(s, e, n);
    StepRevivesNobody(s, e, s.loops[n].consumer);
  }

  lemma {:induction false} StepKeepsOff(s: State, e: Event, n: nat)
    requires Linked(s) && PoolsSeen(s) && OffItsPool(s, n)
    ensures OffItsPool(Step(s, e), n)
  {
    StepMovesLoop(s, e, n);
    StepNewPool(s, e);
  }

  lemma {:induction false} StepOfFencedOut(s: State, e: Event, n: nat)
    requires Linked(s) && FencedOut(s, n)
    ensures n < |Step(s, e).loops| && Step(s, e).loops[n].started == s.loops[n].started
    ensures Step(s, e).loops[n].phase.GaveUp? ==> s.loops[n].phase.GaveUp?
  {
    StepMovesLoop(s, e, n);
  }

  lemma {:induction false} StaysOut(before: seq<Event>, e: Event, n: nat)
    requires FencedOut(Run(INIT, before), n)
    ensures FencedOut(Run(INIT, before + [e]), n)
    ensures Run(INIT, before + [e]).loops[n].started == Run(INIT, before).loops[n].started
    ensures Run(INIT, before + [e]).loops[n].phase.GaveUp? ==> Run(INIT, before).loops[n].phase.GaveUp?
  {
    var s := Run(INIT, before);
    RunNext(before, e);
    RunFences(before);
    StepOfFencedOut(s, e, n);
    if LetGo(s, n) { StepKeepsLetGo(s, e, n); } else { StepKeepsOff(s, e, n); }
  }

  /** Once the consumer was cancelled or dropped, or the pool a loop began on is no longer
      installed, the loop never begins a setup and never decides to give up, in any
      continuation of the run. */
  lemma {:induction false} OutForGood(before: seq<Event>, after: seq<Event>, n: nat)
    requires FencedOut(Run(INIT, before), n)
    ensures FencedOut(Run(INIT, before + after), n)
    ensures Run(INIT, before + after).loops[n].started == Run(INIT, before).loops[n].started
    ensures Run(INIT, before + after).loops[n].phase.GaveUp? ==> Run(INIT, before).loops[n].phase.GaveUp?
    decreases |after|
  {
    if after == [] {
      assert before + after == before;
    } else {
      var rest, last := after[..|after| - 1], after[|after| - 1];
      OutForGood(before, rest, n);
      StaysOut(before + rest, last, n);
      assert before + rest + [last] == before + after;
    }
  }

  // ---------- a loop begun while no pool was installed ----------

  // Asleep, of a live consumer that nobody else has recreated.
  predicate Waiting(s: State, n: nat) {
    n < |s.loops| && s.loops[n].phase.Sleeping? && Live(s, s.loops[n].consumer) &&
    s.infos[s.loops[n].consumer].epoch == s.loops[n].knownEpoch
  }

  // Without a pool, the setup of an attempt rejects at once.
  lemma {:induction false} AttemptWithoutPool(s: State, n: nat)
    requires Fenced(s) && Waiting(s, n) && s.pool.None? && s.loops[n].ownedPool.None?
    ensures var t := Step(Step(s, LoopWakes(n)), LoopResumes(n));
            t.pool.None? && n < |t.loops| && t.loops[n].ownedPool.None? &&
            t.loops[n].started == s.loops[n].started + 1 &&
            (if t.loops[n].started < MAX_ATTEMPTS then Waiting(t, n)
             else t.loops[n].phase.GaveUp? && t.loops[n].consumer in t.dropping)
  {
    var l := s.loops[n];
    assert LoopStamps(s, n);
    var u := Step(s, LoopWakes(n));
    assert u == WakeLoop(s, n);
    StepLinks(s, LoopWakes(n));
    assert u.loops[n].phase == Awaiting(|s.setups|) && u.setups[|s.setups|].stage == Failed;
    assert Step(u, LoopResumes(n)) == ResumeLoop(u, n);
  }

  // A waiting loop with no pool, neither then nor now.
  predicate Poolless(s: State, n: nat) {
    Waiting(s, n) && s.pool.None? && s.loops[n].ownedPool.None?
  }

  predicate GaveUpAndDrops(s: State, n: nat) {
    n < |s.loops| && s.loops[n].phase.GaveUp? && s.loops[n].consumer in s.dropping
  }

  function AnAttempt(n: nat): seq<Event> { [LoopWakes(n), LoopResumes(n)] }

  lemma {:induction false} NextAttempt(before: seq<Event>, n: nat)
    requires Poolless(Run(INIT, before), n)
    ensures var t := Run(INIT, before + AnAttempt(n));
            n < |t.loops| && t.loops[n].started == Run(INIT, before).loops[n].started + 1 &&
            (if t.loops[n].started < MAX_ATTEMPTS then Poolless(t, n) else GaveUpAndDrops(t, n))
  {
    RunFences(before);
    AttemptWithoutPool(Run(INIT, before), n);
    RunNext(before, LoopWakes(n));
    RunNext(before + [LoopWakes(n)], LoopResumes(n));
    assert before + [LoopWakes(n)] + [LoopResumes(n)] == before + AnAttempt(n);
  }

  lemma {:induction false} GivesUpWithoutPool(before: seq<Event>, n: nat) returns (after: seq<Event>)
    requires Poolless(Run(INIT, before), n)
    ensures GaveUpAndDrops(Run(INIT, before + after), n)
    decreases MAX_ATTEMPTS - Run(INIT, before).loops[n].started
  {
    NextAttempt(before, n);
    var next := before + AnAttempt(n);
    if Run(INIT, next).loops[n].started < MAX_ATTEMPTS {
      var rest := GivesUpWithoutPool(next, n);
      after := AnAttempt(n) + rest;
      assert next + rest == before + after;
    } else {
      after := AnAttempt(n);
    }
  }

  ghost predicate BeginsLater(before: seq<Event>, after: seq<Event>, n: nat) {
    n < |Run(INIT, before).loops| && n < |Run(INIT, before + after).loops| &&
    Run(INIT, before).loops[n].started < Run(INIT, before + after).loops[n].started
  }

  ghost predicate GivesUpLater(before: seq<Event>, after: seq<Event>, n: nat) {
    n < |Run(INIT, before + after).loops| && Run(INIT, before + after).loops[n].phase.GaveUp?
  }

  /** When the pool of a waiting loop has changed, some continuation lets it begin another
      setup, and some lets it give up, exactly when it began while no pool was installed:
      `getChannelPool() === ownedPool` then holds again as soon as the new pool is lost. */
  lemma {:induction false} PoolFencesExactly(before: seq<Event>, n: nat)
    requires Waiting(Run(INIT, before), n) && Run(INIT, before).pool != Run(INIT, before).loops[n].ownedPool
    ensures (exists after :: BeginsLater(before, after, n)) <==> Run(INIT, before).loops[n].ownedPool.None?
    ensures (exists after :: GivesUpLater(before, after, n)) <==> Run(INIT, before).loops[n].ownedPool.None?
  {
    if Run(INIT, before).loops[n].ownedPool.None? {
      BeginsAfterPoolLoss(before, n);
    } else {
      forall after
        ensures !BeginsLater(before, after, n) && !GivesUpLater(before, after, n)
      {
        OutForGood(before, after, n);
      }
    }
  }

  lemma {:induction false} PoolLossLeavesWaiting(before: seq<Event>, n: nat)
    requires Waiting(Run(INIT, before), n) && Run(INIT, before).loops[n].ownedPool.None?
    ensures Poolless(Run(INIT, before + [PoolLost]), n)
    ensures Run(INIT, before).loops[n].started < MAX_ATTEMPTS
  {
    RunFences(before);
    RunNext(before, PoolLost);
    assert LoopStamps(Run(INIT, before), n);
  }

  lemma {:induction false} BeginsAfterPoolLoss(before: seq<Event>, n: nat)
    requires Waiting(Run(INIT, before), n) && Run(INIT, before).loops[n].ownedPool.None?
    ensures exists after :: BeginsLater(before, after, n)
    ensures exists after :: GivesUpLater(before, after, n)
  {
    PoolLossLeavesWaiting(before, n);
    var rest := GivesUpWithoutPool(before + [PoolLost], n);
    var after := [PoolLost] + rest;
    assert before + [PoolLost] + rest == before + after;
    GaveUpStartedAll(before + after, n);
    assert GivesUpLater(before, after, n) && BeginsLater(before, after, n);
  }

  lemma {:induction false} GaveUpStartedAll(events: seq<Event>, n: nat)
    requires n < |Run(INIT, events).loops| && Run(INIT, events).loops[n].phase.GaveUp?
    ensures Run(INIT, events).loops[n].started == MAX_ATTEMPTS
  {
    RunFences(events);
    assert LoopStamps(Run(INIT, events), n);
  }

  // ---------- recreated by someone else ----------

  predicate StampedBy(s: State, c: ConsumerId, epoch: nat, i: nat) {
    i < |s.setups| && s.setups[i].consumer == c && s.setups[i].epoch == epoch
  }

  ghost predicate HasStamp(s: State, c: ConsumerId, epoch: nat) {
    exists i: nat :: StampedBy(s, c, epoch, i)
  }

  // Every epoch of a consumer was stamped by one of its setups.
  ghost predicate AllStamped(s: State) {
    forall c, k: nat :: c in s.infos && 0 < k <= s.infos[c].epoch ==> HasStamp(s, c, k)
  }

  lemma {:induction false} StampKept(s: State, t: State, c: ConsumerId, k: nat)
    requires Grows(s, t) && HasStamp(s, c, k)
    ensures HasStamp(t, c, k)
  {
    var i: nat :| StampedBy(s, c, k, i);
    assert StampedBy(t, c, k, i);
  }

  // No epoch moves.
  lemma {:induction false} SameEpochsStamped(s: State, t: State)
    requires AllStamped(s) && Grows(s, t)
    requires forall c :: c in t.infos ==> t.infos[c].epoch == if c in s.infos then s.infos[c].epoch else 0
    ensures AllStamped(t)
  {
    forall c, k: nat | c in t.infos && 0 < k <= t.infos[c].epoch
      ensures HasStamp(t, c, k)
    {
      StampKept(s, t, c, k);
    }
  }

  lemma {:induction false} RunSetupStampsAll(s: State, c: ConsumerId, owner: Owner)
    requires AllStamped(s) && Stamped(s) && c in s.infos
    ensures AllStamped(RunSetup(s, c, owner))
  {
    var t := RunSetup(s, c, owner);
    RunSetupStamps(s, c, owner);
    assert StampedBy(t, c, t.infos[c].epoch, |s.setups|);
    forall d, k: nat | d in t.infos && 0 < k <= t.infos[d].epoch
      ensures HasStamp(t, d, k)
    {
      if k <= s.infos[d].epoch { StampKept(s, t, d, k); }
    }
  }

  lemma {:induction false} RecreateEachStampsAll(s: State, order: seq<ConsumerId>)
    requires AllStamped(s) && Fenced(s)
    ensures AllStamped(RecreateEach(s, order))
  {
    if order != [] {
      var t := RecreateEach(s, order[..|order| - 1]);
      RecreateEachStampsAll(s, order[..|order| - 1]);
      RecreateEachFences(s, order[..|order| - 1]);
      if order[|order| - 1] in t.infos { RunSetupStampsAll(t, order[|order| - 1], Recreation); }
    }
  }

  lemma {:induction false} SubscribeStampsAll(s: State, c: ConsumerId, noAck: bool)
    requires AllStamped(s) && Fenced(s) && c !in s.infos
    ensures AllStamped(Step(s, Subscribe(c, noAck)))
  {
    var t := s.(infos := s.infos[c := Info(0, false, noAck, false)], active := s.active + {c});
    SameEpochsStamped(s, t);
    RunSetupStampsAll(t, c, Subscription);
  }

  lemma {:induction false} WakeStampsAll(s: State, n: nat)
    requires AllStamped(s) && Fenced(s) && Enabled(s, LoopWakes(n))
    ensures AllStamped(WakeLoop(s, n))
  {
    var l := s.loops[n];
    if StillOurs(s, l) && s.infos[l.consumer].epoch == l.knownEpoch {
      var t := RunSetup(s, l.consumer, Recovery(n));
      RunSetupStampsAll(s, l.consumer, Recovery(n));
      SameEpochsStamped(t, WakeLoop(s, n));
    } else {
      SameEpochsStamped(s, WakeLoop(s, n));
    }
  }

  lemma {:induction false} OtherStampsAll(s: State, e: Event)
    requires AllStamped(s) && Fenced(s) && !Moves(e)
    ensures AllStamped(Step(s, e))
  {
    OtherKeepsEpochs(s, e);
    OtherKeepsSetups(s, e);
    OtherAddsNobody(s, e);
    SameEpochsStamped(s, Step(s, e));
  }

  lemma {:induction false} OtherAddsNobody(s: State, e: Event)
    requires !Moves(e)
    ensures Step(s, e).infos.Keys == s.infos.Keys
  {
  }

  lemma {:induction false} LossStampsAll(s: State, e: Event)
    requires AllStamped(s) && Fenced(s) && (e.BrokerCancels? || e.ChannelCloses? || e.LoopResumes?)
    ensures AllStamped(Step(s, e))
  {
    SameEpochsStamped(s, Step(s, e));
  }

  lemma {:induction false} StepStampsAll(s: State, e: Event)
    requires AllStamped(s) && Fenced(s)
    ensures AllStamped(Step(s, e))
  {
    if Enabled(s, e) {
      match e
      case Subscribe(c, noAck) => SubscribeStampsAll(s, c, noAck);
      case BrokerCancels(_) => LossStampsAll(s, e);
      case ChannelCloses(_) => LossStampsAll(s, e);
      case LoopWakes(n) => WakeStampsAll(s, n);
      case LoopResumes(_) => LossStampsAll(s, e);
      case RecreateAll(order) => RecreateEachStampsAll(s, order);
      case _ => OtherStampsAll(s, e);
    }
  }

  lemma {:induction false} RunStampsAll(events: seq<Event>)
    ensures AllStamped(Run(INIT, events))
  {
    if events != [] {
      RunStampsAll(events[..|events| - 1]);
      RunFences(events[..|events| - 1]);
      StepStampsAll(Run(INIT, events[..|events| - 1]), events[|events| - 1]);
    }
  }

  // The epoch moved past the loop's fence.
  predicate Overtaken(s: State, n: nat) {
    n < |s.loops| && s.loops[n].consumer in s.infos && s.infos[s.loops[n].consumer].epoch > s.loops[n].knownEpoch
  }

  // Since the loop began, someone else began a setup of its consumer.
  ghost predicate RecreatedByAnother(s: State, n: nat)
    requires n < |s.loops|
  {
    exists i :: 0 <= i < |s.setups| && s.setups[i].consumer == s.loops[n].consumer &&
                s.setups[i].epoch > s.loops[n].readEpoch && s.setups[i].owner != Recovery(n)
  }

  /** The fence compares epochs; over every run this tells exactly whether someone else has
      recreated the consumer since the loop began. */
  lemma {:induction false} RecreatedExactly(events: seq<Event>, n: nat)
    requires n < |Run(INIT, events).loops|
    ensures RecreatedByAnother(Run(INIT, events), n) <==> Overtaken(Run(INIT, events), n)
  {
    var s := Run(INIT, events);
    var l := s.loops[n];
    RunFences(events);
    RunStampsAll(events);
    assert LoopStamps(s, n);
    if Overtaken(s, n) {
      assert HasStamp(s, l.consumer, l.knownEpoch + 1);
      var i: nat :| StampedBy(s, l.consumer, l.knownEpoch + 1, i);
      assert s.setups[i].owner != Recovery(n);
    } else if RecreatedByAnother(s, n) {
      var i :| 0 <= i < |s.setups| && s.setups[i].consumer == l.consumer &&
               s.setups[i].epoch > l.readEpoch && s.setups[i].owner != Recovery(n);
      NoOtherSetupBetween(events, n, i);
    }
  }

  lemma {:induction false} StepKeepsOvertaken(s: State, e: Event, n: nat)
    requires Linked(s) && Overtaken(s, n)
    ensures Overtaken(Step(s, e), n) && Step(s, e).loops[n].started == s.loops[n].started
  {
    StepMovesLoop(s, e, n);
    StepEpochs(s, e, s.loops[n].consumer);
  }

  lemma {:induction false} StaysOvertaken(before: seq<Event>, e: Event, n: nat)
    requires Overtaken(Run(INIT, before), n)
    ensures Overtaken(Run(INIT, before + [e]), n)
    ensures Run(INIT, before + [e]).loops[n].started == Run(INIT, before).loops[n].started
  {
    RunNext(before, e);
    RunFences(before);
    StepKeepsOvertaken(Run(INIT, before), e, n);
  }

  /** A loop overtaken by another recreation of its consumer never begins another setup, in
      any continuation of the run. */
  lemma {:induction false} OvertakenForGood(before: seq<Event>, after: seq<Event>, n: nat)
    requires Overtaken(Run(INIT, before), n)
    ensures Overtaken(Run(INIT, before + after), n)
    ensures Run(INIT, before + after).loops[n].started == Run(INIT, before).loops[n].started
    decreases |after|
  {
    if after == [] {
      assert before + after == before;
    } else {
      var rest, last := after[..|after| - 1], after[|after| - 1];
      OvertakenForGood(before, rest, n);
      StaysOvertaken(before + rest, last, n);
      assert before + rest + [last] == before + after;
    }
  }

  // The third setup failed while consumer and pool are still the loop's.
  predicate OutOfAttempts(s: State, n: nat) {
    n < |s.loops| && s.loops[n].phase.Awaiting? && s.loops[n].phase.setup < |s.setups| &&
    s.setups[s.loops[n].phase.setup].stage.Failed? && s.loops[n].started == MAX_ATTEMPTS && StillOurs(s, s.loops[n])
  }

  /** Giving up, over every run: with the third setup failed and pool and consumer its own. */
  lemma {:induction false} GivesUpExactly(events: seq<Event>, n: nat)
    requires Enabled(Run(INIT, events), LoopResumes(n))
    ensures var s := Run(INIT, events); Step(s, LoopResumes(n)).loops[n].phase.GaveUp? <==> OutOfAttempts(s, n)
  {
    RunFences(events);
    assert LoopStamps(Run(INIT, events), n);
  }

  /** Giving up on a consumer that someone else has recreated meanwhile happens exactly when
      the third setup failed, pool and consumer are still the loop's, and the epoch, which
      is not consulted here, is no longer the one the loop knows. */
  lemma {:induction false} GivesUpOverAnotherExactly(events: seq<Event>, n: nat)
    requires Enabled(Run(INIT, events), LoopResumes(n))
    ensures var s := Run(INIT, events);
            Step(s, LoopResumes(n)).loops[n].phase.GaveUp? && RecreatedByAnother(s, n) <==>
            OutOfAttempts(s, n) && s.infos[s.loops[n].consumer].epoch != s.loops[n].knownEpoch
  {
    var s := Run(INIT, events);
    GivesUpExactly(events, n);
    RecreatedExactly(events, n);
    RunFences(events);
    assert LoopStamps(s, n);
  }
}
