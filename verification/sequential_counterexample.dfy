/** How dependency order is lost: a run in which a redelivered message starts although its
    dependency never succeeded after it was parked. It is parked while the release loop of
    the first delivery still has its id to visit, and that stale loop picks it up. */
module SequentialCounterexample {
  import opened Wrappers
  import opened SequentialSpec
  import opened SequentialOrder

  const D := Delivery(0, Some(0), None)
  const M1 := Delivery(1, Some(1), Some(0))
  const M2 := Delivery(2, Some(2), Some(0))
  const D_AGAIN := Delivery(3, Some(0), None)
  const M2_AGAIN := Delivery(4, Some(2), Some(0))

  const EVENTS: seq<Event> :=
    [ Deliver(D, 0), Deliver(M1, 0), Deliver(M2, 0), CallbackSucceeds(D, 1), Sweep(11, [2]),
      Deliver(D_AGAIN, 12), Deliver(M2_AGAIN, 20), Sweep(23, []), CallbackSucceeds(M1, 24), Resume(D, 24) ]

  const S1 := Init(10).(processing := map[0 := 0], frames := map[D := InCallback], handed := {D}, log := [Start(D)])
  const S2 := S1.(pending := map[1 := Parked(M1, 0, 0)], index := map[0 := [1]], handed := {D, M1},
                  log := [Start(D), Park(M1)])
  const S3 := S2.(pending := map[1 := Parked(M1, 0, 0), 2 := Parked(M2, 0, 0)], index := map[0 := [1, 2]],
                  handed := {D, M1, M2}, log := [Start(D), Park(M1), Park(M2)])
  // The dependency succeeded and M1 runs; M2 is next in the release loop of D.
  const S4 := State(10, map[1 := 1], map[2 := Parked(M2, 0, 0)], map[],
                    map[D := Releasing([2], Some(M1)), M1 := InCallback], {D, M1, M2}, {},
                    [Start(D), Park(M1), Park(M2), Settle(D, Success), Start(M1)])
  // M2 expires while the loop waits for M1; its message is delivered again behind a second D.
  const S5 := S4.(pending := map[], log := S4.log + [Settle(M2, Expired)])
  const S6 := S5.(processing := map[1 := 1, 0 := 12], frames := S4.frames[D_AGAIN := InCallback],
                  handed := {D, M1, M2, D_AGAIN}, log := S5.log + [Start(D_AGAIN)])
  const S7 := S6.(pending := map[2 := Parked(M2_AGAIN, 0, 20)], index := map[0 := [2]],
                  handed := {D, M1, M2, D_AGAIN, M2_AGAIN}, log := S6.log + [Park(M2_AGAIN)])
  // The second D is forgotten as stale, without having succeeded.
  const S8 := S7.(processing := map[])
  const S9 := S8.(frames := map[D := Releasing([2], Some(M1)), D_AGAIN := InCallback],
                  log := S8.log + [Settle(M1, Success)])

  // Field by field, so that maps and sequences are compared by their elements.
  ghost predicate Same(s: State, t: State)
    ensures Same(s, t) ==> s == t
  {
    && s.staleTimeout == t.staleTimeout && s.processing == t.processing && s.pending == t.pending && s.index == t.index
    && s.frames == t.frames && s.handed == t.handed && s.discarded == t.discarded && s.log == t.log
  }

  lemma {:induction false} ParkSteps()
    ensures Step(Init(10), EVENTS[0]) == S1 && Step(S1, EVENTS[1]) == S2 && Step(S2, EVENTS[2]) == S3
  {
    assert Added([], 1) == [1];
    assert Same(Step(Init(10), EVENTS[0]), S1);
    assert Same(Step(S1, EVENTS[1]), S2);
    SecondParkStep();
  }

  lemma {:induction false} SecondParkStep()
    ensures Step(S2, EVENTS[2]) == S3
  {
    assert Added([1], 2) == [1, 2];
    assert Same(Step(S2, EVENTS[2]), S3);
  }

  lemma {:induction false} SuccessStep()
    ensures Step(S3, EVENTS[3]) == S4
  {
    var t := Succeed(S3, D);
    assert t.frames == map[D := Releasing([1, 2], None)];
    assert SkipGone([1, 2], t.pending) == [1, 2];
    assert TakeNext(t, D).pending == map[2 := Parked(M2, 0, 0)];
    assert Same(Step(S3, EVENTS[3]), S4);
  }

  lemma {:induction false} ExpiryStep()
    ensures Step(S4, EVENTS[4]) == S5
  {
    assert Enabled(S4, Sweep(11, [2]));
    assert Same(ForgetStale(S4, 11), S4);
    assert [2][..0] == [] && ExpireAll(S4, []) == S4;
    assert ExpireAll(S4, [2]) == ExpireOne(S4, 2);
    assert Same(Step(S4, EVENTS[4]), S5);
  }

  lemma {:induction false} RedeliverySteps()
    ensures Step(S5, EVENTS[5]) == S6 && Step(S6, EVENTS[6]) == S7
  {
    assert Added([], 2) == [2];
    assert Same(Step(S5, EVENTS[5]), S6);
    assert Same(Step(S6, EVENTS[6]), S7);
  }

  lemma {:induction false} StaleStep()
    ensures Step(S7, EVENTS[7]) == S8
  {
    assert Enabled(S7, Sweep(23, []));
    assert Same(Step(S7, EVENTS[7]), S8);
  }

  lemma {:induction false} LastSteps()
    ensures Step(S8, EVENTS[8]) == S9 && Step(S9, EVENTS[9]).log == S9.log + [Start(M2_AGAIN)]
  {
    assert Same(Step(S8, EVENTS[8]), S9);
    assert SkipGone([2], S9.pending) == [2];
    assert !MustWait(TakeNext(S9, D), M2_AGAIN);
  }

  lemma {:induction false} RunNext(n: nat, s: State, t: State)
    requires n < 10 && Run(Init(10), EVENTS[..n]) == s && Step(s, EVENTS[n]) == t
    ensures Run(Init(10), EVENTS[..n + 1]) == t
  {
    assert EVENTS[..n + 1][..n] == EVENTS[..n];
  }

  lemma {:induction false} RunToRelease()
    ensures Run(Init(10), EVENTS[..4]) == S4
  {
    ParkSteps();
    SuccessStep();
    RunNext(0, Init(10), S1);
    RunNext(1, S1, S2);
    RunNext(2, S2, S3);
    RunNext(3, S3, S4);
  }

  lemma {:induction false} RunToRedelivery()
    ensures Run(Init(10), EVENTS[..6]) == S6
  {
    RunToRelease();
    ExpiryStep();
    RedeliverySteps();
    RunNext(4, S4, S5);
    RunNext(5, S5, S6);
  }

  lemma {:induction false} RunToSecondPark()
    ensures Run(Init(10), EVENTS[..7]) == S7
  {
    RunToRedelivery();
    RedeliverySteps();
    RunNext(6, S6, S7);
  }

  lemma {:induction false} RunToStale()
    ensures Run(Init(10), EVENTS[..8]) == S8
  {
    RunToSecondPark();
    StaleStep();
    RunNext(7, S7, S8);
  }

  /** M2_AGAIN is parked at position 7 and starts at position 9; only M1 succeeded between. */
  lemma {:induction false} StaleLoopBreaksOrder()
    ensures !InOrder(Run(Init(10), EVENTS).log)
  {
    RunToStale();
    LastSteps();
    RunNext(8, S8, S9);
    RunNext(9, S9, Step(S9, EVENTS[9]));
    assert EVENTS[..10] == EVENTS;
    var log := S9.log + [Start(M2_AGAIN)];
    assert log[7] == Park(M2_AGAIN) && log[8] == Settle(M1, Success) && log[9] == Start(M2_AGAIN);
    assert !SuccessBetween(log, 0, 7, 9);
  }
}
