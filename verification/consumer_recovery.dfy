/** Recovery fencing: which loop may start a setup, and how often. */
module ConsumerRecovery {
  import opened ConsumerSpec
  import opened ConsumerLifecycle

  // The stamps of one consumer's setups increase, up to its current epoch.
  ghost predicate Stamped(s: State) {
    && (forall i :: 0 <= i < |s.setups| ==>
          s.setups[i].consumer in s.infos && 0 < s.setups[i].epoch <= s.infos[s.setups[i].consumer].epoch)
    && (forall i, j :: 0 <= i < j < |s.setups| && s.setups[i].consumer == s.setups[j].consumer ==>
          s.setups[i].epoch < s.setups[j].epoch)
  }

  predicate StartedAt(s: State, n: nat, epoch: nat, i: nat) {
    n < |s.loops| && i < |s.setups| &&
    s.setups[i].owner == Recovery(n) && s.setups[i].consumer == s.loops[n].consumer && s.setups[i].epoch == epoch
  }

  ghost predicate HasSetup(s: State, n: nat, epoch: nat) {
    exists i :: StartedAt(s, n, epoch, i)
  }

  // The setups of loop `n` carry the stamps after the epoch it read, one after another.
  ghost predicate LoopStamps(s: State, n: nat)
    requires n < |s.loops|
  {
    var l := s.loops[n];
    && l.consumer in s.infos
    && l.started <= MAX_ATTEMPTS
    && l.knownEpoch == l.readEpoch + l.started <= s.infos[l.consumer].epoch
    && (forall k :: l.readEpoch < k <= l.knownEpoch ==> HasSetup(s, n, k))
    && (l.phase.Awaiting? ==> StartedAt(s, n, l.knownEpoch, l.phase.setup) && l.started > 0)
    && (l.phase.Sleeping? ==> l.started < MAX_ATTEMPTS)
    && (l.phase.GaveUp? ==> l.started == MAX_ATTEMPTS)
  }

  ghost predicate PoolsSeen(s: State) {
    (s.pool.Some? ==> s.pool.value in s.pools) &&
    forall n :: 0 <= n < |s.loops| && s.loops[n].ownedPool.Some? ==> s.loops[n].ownedPool.value in s.pools
  }

  // Setups owned by a loop were begun by an existing loop, inside its range of stamps.
  ghost predicate OwnersKnown(s: State) {
    forall i :: 0 <= i < |s.setups| && s.setups[i].owner.Recovery? ==>
      var n := s.setups[i].owner.loop;
      n < |s.loops| && s.setups[i].consumer == s.loops[n].consumer &&
      s.loops[n].readEpoch < s.setups[i].epoch <= s.loops[n].knownEpoch
  }

  ghost predicate Fenced(s: State) {
    Linked(s) && Stamped(s) && PoolsSeen(s) && OwnersKnown(s) && forall n :: 0 <= n < |s.loops| ==> LoopStamps(s, n)
  }

  // Epochs and setups may only grow, stages may change; the loops stay the same.
  ghost predicate Grows(s: State, t: State) {
    && |s.setups| <= |t.setups|
    && (forall i :: 0 <= i < |s.setups| ==> t.setups[i] == s.setups[i].(stage := t.setups[i].stage))
    && (forall c :: c in s.infos ==> c in t.infos && s.infos[c].epoch <= t.infos[c].epoch)
  }

  lemma {:induction false} GrowsKeepsLoop(s: State, t: State, n: nat)
    requires Grows(s, t) && n < |s.loops| && n < |t.loops| && LoopStamps(s, n)
    requires t.loops[n] == s.loops[n]
    ensures LoopStamps(t, n)
  {
    var l := t.loops[n];
    forall k | l.readEpoch < k <= l.knownEpoch ensures HasSetup(t, n, k) {
      assert HasSetup(s, n, k);
      var i :| StartedAt(s, n, k, i);
      assert StartedAt(t, n, k, i);
    }
  }

  lemma {:induction false} RunSetupStamps(s: State, c: ConsumerId, owner: Owner)
    requires Stamped(s) && c in s.infos
    ensures Stamped(RunSetup(s, c, owner)) && Grows(s, RunSetup(s, c, owner))
  {
  }

  // A setup begun outside any loop.
  lemma {:induction false} RunSetupFences(s: State, c: ConsumerId, owner: Owner)
    requires Fenced(s) && c in s.infos && !owner.Recovery?
    ensures Fenced(RunSetup(s, c, owner))
  {
    var t := RunSetup(s, c, owner);
    RunSetupStamps(s, c, owner);
    forall n | 0 <= n < |t.loops| ensures LoopStamps(t, n) { GrowsKeepsLoop(s, t, n); }
  }

  lemma {:induction false} RecreateEachFences(s: State, order: seq<ConsumerId>)
    requires Fenced(s)
    ensures Fenced(RecreateEach(s, order))
  {
    if order != [] {
      var t := RecreateEach(s, order[..|order| - 1]);
      RecreateEachFences(s, order[..|order| - 1]);
      if order[|order| - 1] in t.infos { RunSetupFences(t, order[|order| - 1], Recreation); }
    }
  }

  // A step that begins no setup and moves no loop.
  lemma {:induction false} QuietFences(s: State, t: State)
    requires Fenced(s) && Linked(t) && PoolsSeen(t) && Grows(s, t) && |t.setups| == |s.setups| && t.loops == s.loops
    requires forall c :: c in s.infos ==> s.infos[c].epoch == t.infos[c].epoch
    ensures Fenced(t)
  {
    forall n | 0 <= n < |t.loops| ensures LoopStamps(t, n) { GrowsKeepsLoop(s, t, n); }
  }

  // A step that moves one loop without beginning a setup.
  lemma {:induction false} PhaseFences(s: State, t: State, n: nat, phase: Phase)
    requires Fenced(s) && Linked(t) && n < |s.loops| && t.loops == s.loops[n := s.loops[n].(phase := phase)]
    requires t.infos == s.infos && t.setups == s.setups && t.pool == s.pool && t.pools == s.pools
    requires !phase.Awaiting? && (phase.Sleeping? ==> s.loops[n].started < MAX_ATTEMPTS)
    requires phase.GaveUp? ==> s.loops[n].started == MAX_ATTEMPTS
    ensures Fenced(t)
  {
    forall m | 0 <= m < |t.loops| ensures LoopStamps(t, m) {
      assert LoopStamps(s, m);
      forall k | t.loops[m].readEpoch < k <= t.loops[m].knownEpoch ensures HasSetup(t, m, k) {
        assert HasSetup(s, m, k);
        var i :| StartedAt(s, m, k, i);
        assert StartedAt(t, m, k, i);
      }
    }
  }

  lemma {:induction false} AttemptStamps(s: State, n: nat)
    requires Fenced(s) && n < |s.loops| && s.loops[n].phase.Sleeping? && StillOurs(s, s.loops[n])
    requires s.infos[s.loops[n].consumer].epoch == s.loops[n].knownEpoch
    ensures LoopStamps(WakeLoop(s, n), n)
  {
    var l, t := s.loops[n], WakeLoop(s, n);
    assert LoopStamps(s, n);
    RunSetupStamps(s, l.consumer, Recovery(n));
    assert StartedAt(t, n, t.loops[n].knownEpoch, |s.setups|);
    forall k | t.loops[n].readEpoch < k <= t.loops[n].knownEpoch ensures HasSetup(t, n, k) {
      if k <= l.knownEpoch {
        assert HasSetup(s, n, k);
        var i :| StartedAt(s, n, k, i);
        assert StartedAt(t, n, k, i);
      }
    }
  }

  lemma {:induction false} WakeFences(s: State, n: nat)
    requires Fenced(s) && n < |s.loops| && s.loops[n].phase.Sleeping?
    ensures Fenced(WakeLoop(s, n))
  {
    var l, t := s.loops[n], WakeLoop(s, n);
    assert LoopStamps(s, n);
    if !StillOurs(s, l) || s.infos[l.consumer].epoch != l.knownEpoch {
      PhaseFences(s, t, n, StoodDown);
    } else {
      RunSetupStamps(s, l.consumer, Recovery(n));
      AttemptStamps(s, n);
      assert Grows(s, t) && PoolsSeen(t) && Linked(t) && Stamped(t);
      forall m | 0 <= m < |t.loops| ensures LoopStamps(t, m) {
        if m != n { GrowsKeepsLoop(s, t, m); }
      }
      forall i | 0 <= i < |t.setups| && t.setups[i].owner.Recovery?
        ensures t.setups[i].owner.loop < |t.loops| && t.setups[i].consumer == t.loops[t.setups[i].owner.loop].consumer
        ensures var m := t.setups[i].owner.loop; t.loops[m].readEpoch < t.setups[i].epoch <= t.loops[m].knownEpoch
      {
        if i < |s.setups| { assert t.setups[i] == s.setups[i]; }
      }
    }
  }

  lemma {:induction false} ResumeFences(s: State, n: nat)
    requires Fenced(s) && n < |s.loops| && s.loops[n].phase.Awaiting? && s.loops[n].phase.setup < |s.setups|
    ensures Fenced(ResumeLoop(s, n))
  {
    var t := ResumeLoop(s, n);
    assert LoopStamps(s, n);
    PhaseFences(s, t, n, t.loops[n].phase);
  }

  lemma {:induction false} BeginRecoveryFences(s: State, c: ConsumerId)
    requires Fenced(s)
    ensures Fenced(BeginRecovery(s, c))
  {
    var t := BeginRecovery(s, c);
    forall m | 0 <= m < |t.loops| ensures LoopStamps(t, m) {
      if m < |s.loops| { GrowsKeepsLoop(s, t, m); }
    }
  }

  lemma {:induction false} WatchFences(s: State, c: ConsumerId, watched: bool)
    requires Fenced(s) && c in s.infos
    ensures Fenced(s.(infos := Watch(s.infos, c, watched)))
  {
    QuietFences(s, s.(infos := Watch(s.infos, c, watched)));
  }

  lemma {:induction false} CloseFences(s: State, c: ConsumerId)
    requires Fenced(s) && Enabled(s, ChannelCloses(c))
    ensures Fenced(Step(s, ChannelCloses(c)))
  {
    WatchFences(s, c, false);
    BeginRecoveryFences(s.(infos := Watch(s.infos, c, false)), c);
  }

  lemma {:induction false} SubscribeFences(s: State, c: ConsumerId, noAck: bool)
    requires Fenced(s) && c !in s.infos
    ensures Fenced(Step(s, Subscribe(c, noAck)))
  {
    var t := s.(infos := s.infos[c := Info(0, false, noAck, false)], active := s.active + {c});
    QuietFences(s, t);
    RunSetupFences(t, c, Subscription);
  }

  // Begins a setup, or a recovery loop, or moves one.
  predicate Moves(e: Event) {
    e.Subscribe? || e.BrokerCancels? || e.ChannelCloses? || e.LoopWakes? || e.LoopResumes? || e.RecreateAll?
  }

  lemma {:induction false} OtherIsQuiet(s: State, e: Event)
    requires PoolsSeen(s) && Linked(s) && !Moves(e)
    ensures Step(s, e).loops == s.loops && PoolsSeen(Step(s, e))
  {
  }

  lemma {:induction false} OtherKeepsEpochs(s: State, e: Event)
    requires Linked(s) && !Moves(e)
    ensures forall c :: c in s.infos ==> c in Step(s, e).infos && s.infos[c].epoch == Step(s, e).infos[c].epoch
  {
  }

  lemma {:induction false} OtherKeepsSetups(s: State, e: Event)
    requires !Moves(e)
    ensures |Step(s, e).setups| == |s.setups|
    ensures forall i :: 0 <= i < |s.setups| ==>
              Step(s, e).setups[i] == s.setups[i].(stage := Step(s, e).setups[i].stage)
  {
  }

  // The events that begin no setup and touch no loop.
  lemma {:induction false} OtherFences(s: State, e: Event)
    requires Fenced(s) && Linked(Step(s, e))
    requires !Moves(e)
    ensures Fenced(Step(s, e))
  {
    OtherIsQuiet(s, e);
    OtherKeepsEpochs(s, e);
    OtherKeepsSetups(s, e);
    QuietFences(s, Step(s, e));
  }

  lemma {:induction false} RecoveryFences(s: State, e: Event)
    requires Fenced(s) && Enabled(s, e) && OfRecovery(e)
    ensures Fenced(Step(s, e))
  {
    match e
    case BrokerCancels(c) => BeginRecoveryFences(s, c);
    case ChannelCloses(c) => CloseFences(s, c);
    case LoopWakes(n) => WakeFences(s, n);
    case LoopResumes(n) => ResumeFences(s, n);
  }

  lemma {:induction false} RecreateFences(s: State, order: seq<ConsumerId>)
    requires Fenced(s) && Enabled(s, RecreateAll(order))
    ensures Fenced(Step(s, RecreateAll(order)))
  {
    RecreateEachFences(s, order);
  }

  lemma {:induction false} StepFences(s: State, e: Event)
    requires Fenced(s)
    ensures Fenced(Step(s, e))
  {
    StepLinks(s, e);
    if Enabled(s, e) {
      if e.Subscribe? { SubscribeFences(s, e.consumer, e.noAck); }
      else if OfRecovery(e) { RecoveryFences(s, e); }
      else if e.RecreateAll? { RecreateFences(s, e.order); }
      else { OtherFences(s, e); }
    }
  }

  lemma {:induction false} RunFences(events: seq<Event>)
    ensures Fenced(Run(INIT, events))
  {
    if events != [] {
      RunFences(events[..|events| - 1]);
      StepFences(Run(INIT, events[..|events| - 1]), events[|events| - 1]);
    }
  }

  // The setups that loop `n` has begun.
  function Begun(setups: seq<Setup>, n: nat): nat {
    if setups == [] then 0
    else Begun(setups[..|setups| - 1], n) + (if setups[|setups| - 1].owner == Recovery(n) then 1 else 0)
  }

  // Their stamps lie after the epoch the loop read, and grow.
  lemma {:induction false} BegunWithin(s: State, n: nat, k: nat)
    requires Fenced(s) && n < |s.loops| && k <= |s.setups|
    ensures Begun(s.setups[..k], n) == 0 ||
            exists i :: 0 <= i < k && s.setups[i].owner == Recovery(n) &&
                        Begun(s.setups[..k], n) <= s.setups[i].epoch - s.loops[n].readEpoch
  {
    if k > 0 {
      BegunWithin(s, n, k - 1);
      assert s.setups[..k][..k - 1] == s.setups[..k - 1];
      if s.setups[k - 1].owner == Recovery(n) && Begun(s.setups[..k - 1], n) > 0 {
        var i :| 0 <= i < k - 1 && s.setups[i].owner == Recovery(n) &&
                 Begun(s.setups[..k - 1], n) <= s.setups[i].epoch - s.loops[n].readEpoch;
        assert s.setups[i].epoch < s.setups[k - 1].epoch;
      }
    }
  }

  /** Each loop begins at most three setups, over every run. */
  lemma {:induction false} SetupsPerLoop(events: seq<Event>, n: nat)
    requires n < |Run(INIT, events).loops|
    ensures Begun(Run(INIT, events).setups, n) <= Run(INIT, events).loops[n].started <= MAX_ATTEMPTS
  {
    RunFences(events);
    var s := Run(INIT, events);
    assert LoopStamps(s, n);
    BegunWithin(s, n, |s.setups|);
    assert s.setups[..|s.setups|] == s.setups;
  }

  /** Of any number of overlapping loops that read the same epoch of a consumer, at most
      one ever begins a setup; and no loop begins more than three. */
  lemma {:induction false} AtMostOneLoopStarts(events: seq<Event>, m: nat, n: nat)
    requires var s := Run(INIT, events);
             m < |s.loops| && n < |s.loops| && s.loops[m].consumer == s.loops[n].consumer &&
             s.loops[m].readEpoch == s.loops[n].readEpoch && s.loops[m].started > 0 && s.loops[n].started > 0
    ensures m == n && Run(INIT, events).loops[m].started <= MAX_ATTEMPTS
  {
    var s := Run(INIT, events);
    RunFences(events);
    assert LoopStamps(s, m) && LoopStamps(s, n);
    var epoch := s.loops[m].readEpoch + 1;
    assert HasSetup(s, m, epoch) && HasSetup(s, n, epoch);
    var i :| StartedAt(s, m, epoch, i);
    var j :| StartedAt(s, n, epoch, j);
    assert i == j;
  }

  /** Between the moment a loop began and its latest setup, every setup of its consumer was
      its own. */
  lemma {:induction false} NoOtherSetupBetween(events: seq<Event>, n: nat, i: nat)
    requires var s := Run(INIT, events);
             n < |s.loops| && i < |s.setups| && s.setups[i].consumer == s.loops[n].consumer &&
             s.loops[n].readEpoch < s.setups[i].epoch <= s.loops[n].knownEpoch
    ensures Run(INIT, events).setups[i].owner == Recovery(n)
  {
    var s := Run(INIT, events);
    RunFences(events);
    assert LoopStamps(s, n);
    assert HasSetup(s, n, s.setups[i].epoch);
    var j :| StartedAt(s, n, s.setups[i].epoch, j);
    assert i == j;
  }
}
