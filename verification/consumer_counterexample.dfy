/** Two gaps in the fences of a recovery loop, as reachable runs. Giving up is not fenced by
    the epoch: `recreateAll` restores a consumer while a loop on the same pool awaits its
    third setup; that setup fails, and the loop drops the consumer that had just been
    restored. And a loop begun while no pool is installed is not fenced by the pool. */
module ConsumerCounterexample {
  import opened Wrappers
  import opened ConsumerSpec
  import opened ConsumerFencing

  function At(
    epoch: nat, watched: bool, tags: map<Tag, ConsumerId>, setups: seq<Setup>, loops: seq<Loop>): State
  {
    State(map[0 := Info(epoch, false, true, watched)], {0}, tags, Some(0), {0}, setups, loops, multiset{}, multiset{})
  }

  function First(started: nat, phase: Phase): Loop { Loop(0, Some(0), 1, 1 + started, started, phase) }

  function Own(stage: Stage): Setup { Setup(0, Subscription, 1, stage) }

  function Try(n: nat, stage: Stage): Setup { Setup(0, Recovery(0), n + 1, stage) }

  function Again(stage: Stage): Setup { Setup(0, Recreation, 5, stage) }

  const TAG: map<Tag, ConsumerId> := map[7 := 0]
  const TAGS: map<Tag, ConsumerId> := map[7 := 0, 8 := 0]
  const FAILED: seq<Setup> := [Own(Succeeded), Try(1, Failed), Try(2, Failed)]

  // A restore has installed its pool and awaits ensureExchange; a subscribe uses that pool.
  const S1 := INIT.(pool := Some(0), pools := {0})
  const S2 := At(1, false, map[], [Own(Opening)], [])
  const S3 := At(1, false, map[], [Own(Consuming)], [])
  const S4 := At(1, true, TAG, [Own(Succeeded)], [])
  // A channel error closes the consumer's channel, and opening another one fails twice.
  const S5 := At(1, false, TAG, [Own(Succeeded)], [First(0, Sleeping)])
  const S6 := At(2, false, TAG, [Own(Succeeded), Try(1, Opening)], [First(1, Awaiting(1))])
  const S7 := At(2, false, TAG, [Own(Succeeded), Try(1, Failed)], [First(1, Awaiting(1))])
  const S8 := At(2, false, TAG, [Own(Succeeded), Try(1, Failed)], [First(1, Sleeping)])
  const S9 := At(3, false, TAG, [Own(Succeeded), Try(1, Failed), Try(2, Opening)], [First(2, Awaiting(2))])
  const S10 := At(3, false, TAG, FAILED, [First(2, Awaiting(2))])
  const S11 := At(3, false, TAG, FAILED, [First(2, Sleeping)])
  const S12 := At(4, false, TAG, FAILED + [Try(3, Opening)], [First(3, Awaiting(3))])
  // ensureExchange answers while the third attempt is opening its channel: recreateAll runs.
  const S13 := At(5, false, TAG, FAILED + [Try(3, Opening), Again(Opening)], [First(3, Awaiting(3))])
  const S14 := At(5, false, TAG, FAILED + [Try(3, Opening), Again(Consuming)], [First(3, Awaiting(3))])
  const S15 := At(5, true, TAGS, FAILED + [Try(3, Opening), Again(Succeeded)], [First(3, Awaiting(3))])
  // The recreation has restored the consumer; now the third attempt fails.
  const S16 := At(5, true, TAGS, FAILED + [Try(3, Failed), Again(Succeeded)], [First(3, Awaiting(3))])
  const S17 := At(5, true, TAGS, FAILED + [Try(3, Failed), Again(Succeeded)], [First(3, GaveUp)])
    .(dropping := multiset{0})

  // Field by field, so that maps and sequences are compared by their elements.
  ghost predicate Same(s: State, t: State)
    ensures Same(s, t) ==> s == t
  {
    && s.infos == t.infos && s.active == t.active && s.tags == t.tags && s.pool == t.pool && s.pools == t.pools
    && s.setups == t.setups && s.loops == t.loops && s.unsubscribing == t.unsubscribing && s.dropping == t.dropping
  }

  lemma {:induction false} Subscribes()
    ensures Step(INIT, PoolInstalled(0)) == S1 &&
            Step(S1, Subscribe(0, true)) == S2 &&
            Step(S2, ChannelAnswered(0, true)) == S3 &&
            Step(S3, ConsumeAnswered(0, Some(7))) == S4
  {
    assert Same(Step(INIT, PoolInstalled(0)), S1);
    assert Same(Step(S1, Subscribe(0, true)), S2);
    FirstTag();
  }

  lemma {:induction false} FirstTag()
    ensures Step(S2, ChannelAnswered(0, true)) == S3 && Step(S3, ConsumeAnswered(0, Some(7))) == S4
  {
    assert Same(Step(S2, ChannelAnswered(0, true)), S3);
    assert Same(Step(S3, ConsumeAnswered(0, Some(7))), S4);
  }

  lemma {:induction false} FirstAttempt()
    ensures Step(S4, ChannelCloses(0)) == S5 &&
            Step(S5, LoopWakes(0)) == S6 &&
            Step(S6, ChannelAnswered(1, false)) == S7
  {
    assert Same(Step(S4, ChannelCloses(0)), S5);
    FirstWakes();
    assert Same(Step(S6, ChannelAnswered(1, false)), S7);
  }

  lemma {:induction false} FirstWakes()
    ensures Step(S5, LoopWakes(0)) == S6
  {
    assert Same(Step(S5, LoopWakes(0)), S6);
  }

  lemma {:induction false} SecondAttempt()
    ensures Step(S7, LoopResumes(0)) == S8 &&
            Step(S8, LoopWakes(0)) == S9 &&
            Step(S9, ChannelAnswered(2, false)) == S10
  {
    assert Same(Step(S7, LoopResumes(0)), S8);
    assert Same(Step(S8, LoopWakes(0)), S9);
    assert Same(Step(S9, ChannelAnswered(2, false)), S10);
  }

  lemma {:induction false} ThirdAttempt()
    ensures Step(S10, LoopResumes(0)) == S11 && Step(S11, LoopWakes(0)) == S12
  {
    assert Same(Step(S10, LoopResumes(0)), S11);
    assert Same(Step(S11, LoopWakes(0)), S12);
  }

  lemma {:induction false} Recreates()
    ensures Step(S12, RecreateAll([0])) == S13
  {
    assert Enabled(S12, RecreateAll([0])) && Linked(S12);
    assert [0][..0] == [] && RecreateEach(S12, []) == S12;
    assert RecreateEach(S12, [0]) == RunSetup(S12, 0, Recreation);
    assert Same(Step(S12, RecreateAll([0])), S13);
  }

  lemma {:induction false} Restores()
    ensures Step(S13, ChannelAnswered(4, true)) == S14 && Step(S14, ConsumeAnswered(4, Some(8))) == S15
  {
    assert Same(Step(S13, ChannelAnswered(4, true)), S14);
    assert Same(Step(S14, ConsumeAnswered(4, Some(8))), S15);
  }

  lemma {:induction false} GivesUp()
    ensures Step(S15, ChannelAnswered(3, false)) == S16 && Step(S16, LoopResumes(0)) == S17
  {
    assert Same(Step(S15, ChannelAnswered(3, false)), S16);
    assert Same(Step(S16, LoopResumes(0)), S17);
  }

  lemma {:induction false} Dropped()
    ensures var t := Step(S17, Drained(0)); 0 !in t.active && t.tags == map[] && t.pool == Some(0)
  {
    assert Linked(S17);
    assert DropTags(S17.tags, 0) == map[];
  }

  ghost predicate Reachable(s: State) {
    exists events :: Run(INIT, events) == s
  }

  lemma {:induction false} ReachNext(s: State, e: Event)
    requires Reachable(s)
    ensures Reachable(Step(s, e))
  {
    var events :| Run(INIT, events) == s;
    RunNext(events, e);
  }

  lemma {:induction false} SubscriptionIsReachable()
    ensures Reachable(S4)
  {
    assert Run(INIT, []) == INIT;
    Subscribes();
    ReachNext(INIT, PoolInstalled(0));
    ReachNext(S1, Subscribe(0, true));
    ReachNext(S2, ChannelAnswered(0, true));
    ReachNext(S3, ConsumeAnswered(0, Some(7)));
  }

  lemma {:induction false} ThirdAttemptIsReachable()
    ensures Reachable(S12)
  {
    SubscriptionIsReachable();
    FirstAttempt();
    SecondAttempt();
    ThirdAttempt();
    ReachNext(S4, ChannelCloses(0));
    ReachNext(S5, LoopWakes(0));
    ReachNext(S6, ChannelAnswered(1, false));
    ReachNext(S7, LoopResumes(0));
    ReachNext(S8, LoopWakes(0));
    ReachNext(S9, ChannelAnswered(2, false));
    ReachNext(S10, LoopResumes(0));
    ReachNext(S11, LoopWakes(0));
  }

  /** S15 is reachable, and there the consumer is live, restored by `recreateAll`, and answers
      to two tags on a channel that lives. The failure of the overtaken third setup then
      drops it: the pool stayed in place and nobody cancelled the consumer. */
  lemma {:induction false} GiveUpDropsARecoveredConsumer()
    ensures Reachable(S15) && Live(S15, 0) && S15.setups[4] == Again(Succeeded) && S15.tags == TAGS &&
            S15.infos[0].watched
    ensures var t := Step(Step(Step(S15, ChannelAnswered(3, false)), LoopResumes(0)), Drained(0));
            Reachable(t) && 0 !in t.active && t.tags == map[] && t.pool == Some(0)
  {
    ThirdAttemptIsReachable();
    Recreates();
    Restores();
    GivesUp();
    Dropped();
    ReachNext(S12, RecreateAll([0]));
    ReachNext(S13, ChannelAnswered(4, true));
    ReachNext(S14, ConsumeAnswered(4, Some(8)));
    ReachNext(S15, ChannelAnswered(3, false));
    ReachNext(S16, LoopResumes(0));
    ReachNext(S17, Drained(0));
  }

  // ---------- no pool when the loop began ----------

  // The pool is lost, the broker's cancel arrives, and a reconnection installs another pool.
  const N5 := S4.(pool := None)
  const N6 := N5.(loops := [Loop(0, None, 1, 1, 0, Sleeping)])
  const N7 := N6.(pool := Some(1), pools := {0, 1})

  lemma {:induction false} CancelledWithoutPool()
    ensures Step(S4, PoolLost) == N5 && Step(N5, BrokerCancels(0)) == N6 && Step(N6, PoolInstalled(1)) == N7
  {
    assert Same(Step(S4, PoolLost), N5);
    RecoversWithoutPool();
    assert Same(Step(N6, PoolInstalled(1)), N7);
  }

  lemma {:induction false} RecoversWithoutPool()
    ensures Step(N5, BrokerCancels(0)) == N6
  {
    assert Same(Step(N5, BrokerCancels(0)), N6);
  }

  /** A reachable state in which the pool of a loop has changed, and from which it still gives
      up on its live consumer. */
  lemma {:induction false} PoollessLoopGivesUp()
    ensures exists before, after ::
      Run(INIT, before) == N7 && Live(N7, 0) && N7.pool != N7.loops[0].ownedPool && GivesUpLater(before, after, 0)
  {
    SubscriptionIsReachable();
    CancelledWithoutPool();
    ReachNext(S4, PoolLost);
    ReachNext(N5, BrokerCancels(0));
    ReachNext(N6, PoolInstalled(1));
    var before :| Run(INIT, before) == N7;
    PoolFencesExactly(before, 0);
    var after :| GivesUpLater(before, after, 0);
  }
}
