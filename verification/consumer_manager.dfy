/** The class of src/consumers/consumer-manager.js, updated in place: the life cycle of
    its consumers. Each public method is one stretch of code between two awaits and is
    proved to be that event of the state machine. */
module ConsumerManagement {
  import opened Wrappers
  import opened ConsumerSpec
  import opened ConsumerLifecycle
  import opened ConsumerRecovery

  class ConsumerManager {
    // The consumer objects. `activeConsumers` is the set of keys of the source's map.
    var infos: map<ConsumerId, Info>
    var activeConsumers: set<ConsumerId>
    var consumersByTag: map<Tag, ConsumerId>
    // What `getChannelPool` answers.
    var channelPool: Option<PoolId>
    ghost var pools: set<PoolId>
    // The open setup closures, recovery loops, and waiting unsubscribe and drop calls.
    var setups: seq<Setup>
    var loops: seq<Loop>
    var unsubscribing: multiset<ConsumerId>
    var dropping: multiset<ConsumerId>

    ghost function View(): State
      reads this
    {
      State(infos, activeConsumers, consumersByTag, channelPool, pools, setups, loops, unsubscribing, dropping)
    }

    ghost predicate Valid()
      reads this
    {
      Fenced(View())
    }

    constructor ()
      ensures View() == INIT && Valid()
    {
      infos, activeConsumers, consumersByTag, channelPool := map[], {}, map[], None;
      pools, setups, loops, unsubscribing, dropping := {}, [], [], multiset{}, multiset{};
    }

    method RunSetupFor(c: ConsumerId, owner: Owner)
      requires c in infos
      modifies this`infos, this`setups
      ensures View() == RunSetup(old(View()), c, owner)
    {
      var epoch := infos[c].epoch + 1;
      infos := infos[c := infos[c].(epoch := epoch)];
      // getDedicatedChannel rejects when there is no pool.
      setups := setups + [Setup(c, owner, epoch, if channelPool.None? then Failed else Opening)];
    }

    /** `#subscribeCore`: register the consumer and begin its first setup. */
    method SubscribeCore(c: ConsumerId, noAck: bool)
      requires Valid() && c !in infos
      modifies this
      ensures Valid() && View() == Step(old(View()), Subscribe(c, noAck))
    {
      ghost var before := View();
      infos := infos[c := Info(0, false, noAck, false)];
      activeConsumers := activeConsumers + {c};
      RunSetupFor(c, Subscription);
      StepFences(before, Subscribe(c, noAck));
    }

    /** The first setup rejected: the registration is undone. */
    method SubscribeRejected(i: nat)
      requires Valid() && Enabled(View(), SubscriptionFailed(i))
      modifies this
      ensures Valid() && View() == Step(old(View()), SubscriptionFailed(i))
    {
      ghost var before := View();
      dropping := dropping + multiset{setups[i].consumer};
      setups := setups[i := setups[i].(stage := Handled)];
      StepFences(before, SubscriptionFailed(i));
    }

    /** The setup closure goes on after getDedicatedChannel. A channel opened for a consumer
        that is gone is released; a cancelled one releases its own later. */
    method SetupAfterChannel(i: nat, ok: bool) returns (release: bool)
      requires Valid() && Enabled(View(), ChannelAnswered(i, ok))
      modifies this
      ensures Valid() && View() == Step(old(View()), ChannelAnswered(i, ok))
      ensures release <==> ok && Gone(old(View()), old(setups)[i].consumer)
    {
      ghost var before := View();
      release := ok && setups[i].consumer !in activeConsumers;
      var c := setups[i].consumer;
      var stage := Failed;
      if ok {
        if c in activeConsumers && !infos[c].cancelled {
          stage := if infos[c].noAck then Consuming else Prefetching;
        }
      }
      setups := setups[i := setups[i].(stage := stage)];
      StepFences(before, ChannelAnswered(i, ok));
    }

    method SetupAfterPrefetch(i: nat, ok: bool)
      requires Valid() && Enabled(View(), PrefetchAnswered(i, ok))
      modifies this
      ensures Valid() && View() == Step(old(View()), PrefetchAnswered(i, ok))
    {
      ghost var before := View();
      setups := setups[i := setups[i].(stage := if ok then Consuming else Failed)];
      StepFences(before, PrefetchAnswered(i, ok));
    }

    /** The setup closure goes on after basic.consume: fenced once more, then the tag is
        tracked. A consume that came too late is cancelled at the broker instead. */
    method SetupAfterConsume(i: nat, answer: Option<Tag>) returns (cancel: Option<Tag>)
      requires Valid() && Enabled(View(), ConsumeAnswered(i, answer))
      modifies this
      ensures Valid() && View() == Step(old(View()), ConsumeAnswered(i, answer))
      ensures cancel == if Live(old(View()), old(setups)[i].consumer) then None else answer
    {
      ghost var before := View();
      cancel := None;
      var c := setups[i].consumer;
      if answer.None? || c !in activeConsumers || infos[c].cancelled {
        if c !in activeConsumers || infos[c].cancelled { cancel := answer; }
        setups := setups[i := setups[i].(stage := Failed)];
      } else {
        setups := setups[i := setups[i].(stage := Succeeded)];
        consumersByTag := consumersByTag[answer.value := c];
        infos := infos[c := infos[c].(watched := true)];
      }
      StepFences(before, ConsumeAnswered(i, answer));
    }

    /** `findQueueNameByTag` reads the consumer without a guard; that a found consumer is
        registered is what makes it safe. */
    method FindConsumerByTag(tag: Tag) returns (c: Option<ConsumerId>)
      requires Valid()
      ensures c == if tag in consumersByTag then Some(consumersByTag[tag]) else None
      ensures c.Some? ==> c.value in activeConsumers && c.value in infos
    {
      c := if tag in consumersByTag then Some(consumersByTag[tag]) else None;
    }

    /** `unsubscribe` up to its first await. */
    method UnsubscribeTag(tag: Tag) returns (found: bool)
      requires Valid()
      modifies this
      ensures Valid() && View() == Step(old(View()), Unsubscribe(tag))
      ensures found <==> tag in old(consumersByTag)
    {
      ghost var before := View();
      found := tag in consumersByTag;
      if found {
        var c := consumersByTag[tag];
        infos := infos[c := infos[c].(cancelled := true)];
        unsubscribing := unsubscribing + multiset{c};
      }
      StepFences(before, Unsubscribe(tag));
    }

    method UnsubscribeAfterCancel(c: ConsumerId)
      requires Valid() && c in unsubscribing
      modifies this
      ensures Valid() && View() == Step(old(View()), CancelAnswered(c))
    {
      ghost var before := View();
      unsubscribing := unsubscribing - multiset{c};
      dropping := dropping + multiset{c};
      StepFences(before, CancelAnswered(c));
    }

    method SweepTags(c: ConsumerId)
      modifies this`consumersByTag
      ensures consumersByTag == DropTags(old(consumersByTag), c)
    {
      var todo := consumersByTag.Keys;
      while todo != {}
        invariant todo <= consumersByTag.Keys
        invariant forall t :: t in consumersByTag <==>
          t in old(consumersByTag) && (t in todo || old(consumersByTag)[t] != c)
        invariant forall t :: t in consumersByTag ==> consumersByTag[t] == old(consumersByTag)[t]
        decreases todo
      {
        var t :| t in todo;
        if consumersByTag[t] == c {
          consumersByTag := consumersByTag - {t};
        }
        todo := todo - {t};
      }
    }

    /** `#dropConsumer` after its drain: every tag of the consumer goes, then the consumer. */
    method DropAfterDrain(c: ConsumerId)
      requires Valid() && c in dropping
      modifies this
      ensures Valid() && View() == Step(old(View()), Drained(c))
    {
      StepFences(View(), Drained(c));
      RemoveConsumer(c);
    }

    method RemoveConsumer(c: ConsumerId)
      modifies this`consumersByTag, this`activeConsumers, this`dropping
      ensures View() == Remove(old(View()), c)
    {
      SweepTags(c);
      activeConsumers := activeConsumers - {c};
      dropping := dropping - multiset{c};
    }

    /** `handleConsumerLoss` up to its first sleep. */
    method HandleConsumerLoss(c: ConsumerId)
      requires activeConsumers <= infos.Keys
      modifies this`loops
      ensures View() == BeginRecovery(old(View()), c)
    {
      if c in activeConsumers && !infos[c].cancelled {
        loops := loops + [Loop(c, channelPool, infos[c].epoch, infos[c].epoch, 0, Sleeping)];
      }
    }

    method HandleBrokerCancel(c: ConsumerId)
      requires Valid()
      modifies this
      ensures Valid() && View() == Step(old(View()), BrokerCancels(c))
    {
      StepFences(View(), BrokerCancels(c));
      HandleConsumerLoss(c);
    }

    /** The close listener of `#watchChannelLoss`, which asks for the pool first. */
    method WatchedChannelClosed(c: ConsumerId)
      requires Valid() && Enabled(View(), ChannelCloses(c))
      modifies this
      ensures Valid() && View() == Step(old(View()), ChannelCloses(c))
    {
      StepFences(View(), ChannelCloses(c));
      infos := infos[c := infos[c].(watched := false)];
      if channelPool.Some? { HandleConsumerLoss(c); }
    }

    method IsStillOurs(l: Loop) returns (ours: bool)
      requires l.consumer in infos
      ensures ours == StillOurs(View(), l)
    {
      ours := l.consumer in activeConsumers && !infos[l.consumer].cancelled && channelPool == l.ownedPool;
    }

    /** A recovery loop wakes up: fences first, then its next setup. */
    method WakeAfterSleep(n: nat)
      requires Valid() && Enabled(View(), LoopWakes(n))
      modifies this
      ensures Valid() && View() == Step(old(View()), LoopWakes(n))
    {
      ghost var before := View();
      var l := loops[n];
      var ours := IsStillOurs(l);
      if !ours || infos[l.consumer].epoch != l.knownEpoch {
        loops := loops[n := l.(phase := StoodDown)];
      } else {
        var i := |setups|;
        RunSetupFor(l.consumer, Recovery(n));
        loops := loops[n := l.(started := l.started + 1, knownEpoch := infos[l.consumer].epoch, phase := Awaiting(i))];
      }
      StepFences(before, LoopWakes(n));
    }

    /** A recovery loop goes on after its setup: done, next attempt, or giving up. */
    method ResumeAfterSetup(n: nat)
      requires Valid() && Enabled(View(), LoopResumes(n))
      modifies this
      ensures Valid() && View() == Step(old(View()), LoopResumes(n))
    {
      ghost var before := View();
      var l := loops[n];
      if setups[l.phase.setup].stage.Succeeded? {
        loops := loops[n := l.(phase := Recovered)];
      } else if l.started < MAX_ATTEMPTS {
        loops := loops[n := l.(phase := Sleeping)];
      } else {
        var ours := IsStillOurs(l);
        if ours {
          dropping := dropping + multiset{l.consumer};
          loops := loops[n := l.(phase := GaveUp)];
        } else {
          loops := loops[n := l.(phase := StoodDown)];
        }
      }
      StepFences(before, LoopResumes(n));
    }

    /** `recreateAll`: a setup for every consumer, in the order it visited them. */
    method RecreateEveryConsumer() returns (order: seq<ConsumerId>)
      requires Valid()
      modifies this
      ensures forall c :: c in order <==> c in old(activeConsumers)
      ensures Valid() && View() == Step(old(View()), RecreateAll(order))
    {
      ghost var before := View();
      order := RunEverySetup();
      StepFences(before, RecreateAll(order));
    }

    method RunEverySetup() returns (order: seq<ConsumerId>)
      requires activeConsumers <= infos.Keys
      modifies this`infos, this`setups
      ensures forall c :: c in order <==> c in activeConsumers
      ensures forall i, j :: 0 <= i < j < |order| ==> order[i] != order[j]
      ensures View() == RecreateEach(old(View()), order)
    {
      ghost var before := View();
      var todo := activeConsumers;
      order := [];
      while todo != {}
        invariant todo <= activeConsumers == before.active
        invariant forall c :: c in order <==> c in activeConsumers && c !in todo
        invariant forall i, j :: 0 <= i < j < |order| ==> order[i] != order[j]
        invariant infos.Keys == before.infos.Keys && View() == RecreateEach(before, order)
        decreases todo
      {
        var c :| c in todo;
        todo := todo - {c};
        RunSetupFor(c, Recreation);
        assert (order + [c])[..|order|] == order;
        order := order + [c];
      }
    }

    method CancelEveryConsumer()
      requires activeConsumers <= infos.Keys
      modifies this`infos
      ensures infos == CancelAll(old(infos), activeConsumers)
    {
      var todo := activeConsumers;
      while todo != {}
        invariant todo <= activeConsumers && infos.Keys == old(infos).Keys
        invariant forall c :: c in infos ==>
          infos[c] == if c in activeConsumers && c !in todo then old(infos)[c].(cancelled := true) else old(infos)[c]
        decreases todo
      {
        var c :| c in todo;
        infos := infos[c := infos[c].(cancelled := true)];
        todo := todo - {c};
      }
    }

    /** `disposeAll`, after the worker pools are gone. */
    method DisposeEverything()
      requires Valid()
      modifies this
      ensures Valid() && View() == Step(old(View()), DisposeAll)
    {
      StepFences(View(), DisposeAll);
      CancelEveryConsumer();
      activeConsumers, consumersByTag := {}, map[];
    }

    /** The facade's pool goes away, or a new one is installed. */
    method LosePool()
      requires Valid()
      modifies this
      ensures Valid() && View() == Step(old(View()), PoolLost)
    {
      ghost var before := View();
      channelPool := None;
      StepFences(before, PoolLost);
    }

    method InstallPool(p: PoolId)
      requires Valid() && p !in pools
      modifies this
      ensures Valid() && View() == Step(old(View()), PoolInstalled(p))
    {
      ghost var before := View();
      channelPool, pools := Some(p), pools + {p};
      StepFences(before, PoolInstalled(p));
    }
  }
}
