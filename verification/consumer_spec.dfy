/** The life cycle of src/consumers/consumer-manager.js as a state machine: subscription,
    setup, tag tracking, drop, loss recovery, recreation. One event is one stretch of
    code between two awaits; broker answers and timers are the events' parameters. */
module ConsumerSpec {
  import opened Wrappers

  type ConsumerId = nat
  type Tag = nat
  type PoolId = nat

  const MAX_ATTEMPTS := 3

  /** The consumer object. Closures keep it alive after the consumer was dropped. `watched`:
      its current channel lives, under the close listener of `#watchChannelLoss`. */
  datatype Info = Info(epoch: nat, cancelled: bool, noAck: bool, watched: bool)

  datatype Owner = Subscription | Recovery(loop: nat) | Recreation

  /** Where a setup closure waits, or how it ended. Handled: its subscription failed and
      the failure has been acted on. */
  datatype Stage = Opening | Prefetching | Consuming | Succeeded | Failed | Handled

  // One call of `runSetup`; `epoch` is the value it stamped.
  datatype Setup = Setup(consumer: ConsumerId, owner: Owner, epoch: nat, stage: Stage)

  datatype Phase = Sleeping | Awaiting(setup: nat) | Recovered | StoodDown | GaveUp

  /** One loss-recovery loop. `readEpoch` is what it read when it began, `knownEpoch` its
      fence, `started` how many setups it began. */
  datatype Loop = Loop(
    consumer: ConsumerId, ownedPool: Option<PoolId>, readEpoch: nat, knownEpoch: nat, started: nat, phase: Phase)

  /** `infos` holds every consumer ever registered, `active` the keys of activeConsumers.
      `pools` is history: a new pool is a new object. The two multisets are the calls of
      `unsubscribe` waiting for basic.cancel and of `#dropConsumer` waiting to drain. */
  datatype State = State(
    infos: map<ConsumerId, Info>,
    active: set<ConsumerId>,
    tags: map<Tag, ConsumerId>,
    pool: Option<PoolId>,
    pools: set<PoolId>,
    setups: seq<Setup>,
    loops: seq<Loop>,
    unsubscribing: multiset<ConsumerId>,
    dropping: multiset<ConsumerId>)

  /** BrokerCancels: a null delivery reaches `handleBrokerCancel`. ChannelCloses: the close
      listener's microtask. RecreateAll carries the iteration order of the consumer map. */
  datatype Event =
    | Subscribe(consumer: ConsumerId, noAck: bool)
    | SubscriptionFailed(setup: nat)
    | ChannelAnswered(setup: nat, ok: bool)
    | PrefetchAnswered(setup: nat, ok: bool)
    | ConsumeAnswered(setup: nat, answer: Option<Tag>)
    | Unsubscribe(tag: Tag)
    | CancelAnswered(consumer: ConsumerId)
    | Drained(consumer: ConsumerId)
    | BrokerCancels(consumer: ConsumerId)
    | ChannelCloses(consumer: ConsumerId)
    | LoopWakes(loop: nat)
    | LoopResumes(loop: nat)
    | RecreateAll(order: seq<ConsumerId>)
    | DisposeAll
    | PoolLost
    | PoolInstalled(pool: PoolId)

  const INIT := State(map[], {}, map[], None, {}, [], [], multiset{}, multiset{})

  /** `runSetup`: the epoch is stamped before the setup's first await. Without a pool the
      setup rejects at once. */
  function RunSetup(s: State, c: ConsumerId, owner: Owner): State
    requires c in s.infos
  {
    var epoch := s.infos[c].epoch + 1;
    s.(infos := s.infos[c := s.infos[c].(epoch := epoch)],
       setups := s.setups + [Setup(c, owner, epoch, if s.pool.None? then Failed else Opening)])
  }

  function WithStage(s: State, i: nat, stage: Stage): State
    requires i < |s.setups|
  {
    s.(setups := s.setups[i := s.setups[i].(stage := stage)])
  }

  predicate Live(s: State, c: ConsumerId) {
    c in s.active && c in s.infos && !s.infos[c].cancelled
  }

  // `stillOurs` of handleConsumerLoss.
  predicate StillOurs(s: State, l: Loop) {
    Live(s, l.consumer) && s.pool == l.ownedPool
  }

  function DropTags(tags: map<Tag, ConsumerId>, c: ConsumerId): map<Tag, ConsumerId> {
    map t | t in tags && tags[t] != c :: tags[t]
  }

  // `#dropConsumer`, from the point where its drain is over.
  function Remove(s: State, c: ConsumerId): State {
    s.(tags := DropTags(s.tags, c), active := s.active - {c}, dropping := s.dropping - multiset{c})
  }

  function Cancel(s: State, c: ConsumerId): State
    requires c in s.infos
  {
    s.(infos := s.infos[c := s.infos[c].(cancelled := true)])
  }

  function CancelAll(infos: map<ConsumerId, Info>, active: set<ConsumerId>): map<ConsumerId, Info> {
    map c | c in infos :: if c in active then infos[c].(cancelled := true) else infos[c]
  }

  function Watch(infos: map<ConsumerId, Info>, c: ConsumerId, watched: bool): map<ConsumerId, Info>
    requires c in infos
  {
    infos[c := infos[c].(watched := watched)]
  }

  // `handleConsumerLoss`, up to its first sleep.
  function BeginRecovery(s: State, c: ConsumerId): State {
    if !Live(s, c) then s
    else s.(loops := s.loops + [Loop(c, s.pool, s.infos[c].epoch, s.infos[c].epoch, 0, Sleeping)])
  }

  function WakeLoop(s: State, n: nat): State
    requires n < |s.loops| && s.loops[n].consumer in s.infos
  {
    var l := s.loops[n];
    if !StillOurs(s, l) || s.infos[l.consumer].epoch != l.knownEpoch then
      s.(loops := s.loops[n := l.(phase := StoodDown)])
    else
      var t := RunSetup(s, l.consumer, Recovery(n));
      t.(loops := s.loops[n := l.(started := l.started + 1, knownEpoch := t.infos[l.consumer].epoch,
                                  phase := Awaiting(|s.setups|))])
  }

  function ResumeLoop(s: State, n: nat): State
    requires n < |s.loops| && s.loops[n].phase.Awaiting? && s.loops[n].phase.setup < |s.setups|
  {
    var l := s.loops[n];
    if s.setups[l.phase.setup].stage.Succeeded? then s.(loops := s.loops[n := l.(phase := Recovered)])
    else if l.started < MAX_ATTEMPTS then s.(loops := s.loops[n := l.(phase := Sleeping)])
    else if !StillOurs(s, l) then s.(loops := s.loops[n := l.(phase := StoodDown)])
    else s.(loops := s.loops[n := l.(phase := GaveUp)], dropping := s.dropping + multiset{l.consumer})
  }

  function RecreateEach(s: State, order: seq<ConsumerId>): State {
    if order == [] then s
    else
      var t := RecreateEach(s, order[..|order| - 1]);
      if order[|order| - 1] in t.infos then RunSetup(t, order[|order| - 1], Recreation) else t
  }

  ghost predicate Enabled(s: State, e: Event) {
    match e
    case Subscribe(c, _) => c !in s.infos
    case SubscriptionFailed(i) => i < |s.setups| && s.setups[i].owner.Subscription? && s.setups[i].stage.Failed?
    case ChannelAnswered(i, _) => i < |s.setups| && s.setups[i].stage.Opening?
    case PrefetchAnswered(i, _) => i < |s.setups| && s.setups[i].stage.Prefetching?
    case ConsumeAnswered(i, _) => i < |s.setups| && s.setups[i].stage.Consuming?
    case Unsubscribe(_) => true
    case CancelAnswered(c) => c in s.unsubscribing
    case Drained(c) => c in s.dropping
    case BrokerCancels(_) => true
    case ChannelCloses(c) => c in s.infos && s.infos[c].watched
    case LoopWakes(n) => n < |s.loops| && s.loops[n].phase.Sleeping?
    case LoopResumes(n) => n < |s.loops| && s.loops[n].phase.Awaiting? && s.loops[n].phase.setup < |s.setups| &&
      s.setups[s.loops[n].phase.setup].stage in {Succeeded, Failed}
    case RecreateAll(order) => (forall c :: c in order <==> c in s.active) &&
      (forall i, j :: 0 <= i < j < |order| ==> order[i] != order[j])
    case DisposeAll => true
    case PoolLost => true
    case PoolInstalled(p) => p !in s.pools
  }

  /** The references every reachable state keeps intact. */
  ghost predicate Linked(s: State) {
    && s.active <= s.infos.Keys
    && (forall i :: 0 <= i < |s.setups| ==> s.setups[i].consumer in s.infos)
    && (forall n :: 0 <= n < |s.loops| ==> s.loops[n].consumer in s.infos)
    && (forall t :: t in s.tags ==> s.tags[t] in s.active)
  }

  ghost function Apply(s: State, e: Event): State
    requires Enabled(s, e) && Linked(s)
  {
    match e
    case Subscribe(c, noAck) =>
      RunSetup(s.(infos := s.infos[c := Info(0, false, noAck, false)], active := s.active + {c}), c, Subscription)
    case SubscriptionFailed(i) =>
      WithStage(s, i, Handled).(dropping := s.dropping + multiset{s.setups[i].consumer})
    case ChannelAnswered(i, ok) =>
      var c := s.setups[i].consumer;
      if !ok || !Live(s, c) then WithStage(s, i, Failed)
      else WithStage(s, i, if s.infos[c].noAck then Consuming else Prefetching)
    case PrefetchAnswered(i, ok) => WithStage(s, i, if ok then Consuming else Failed)
    case ConsumeAnswered(i, answer) =>
      var c := s.setups[i].consumer;
      if answer.None? || !Live(s, c) then WithStage(s, i, Failed)
      else WithStage(s, i, Succeeded).(tags := s.tags[answer.value := c], infos := Watch(s.infos, c, true))
    case Unsubscribe(tag) =>
      if tag !in s.tags then s
      else Cancel(s, s.tags[tag]).(unsubscribing := s.unsubscribing + multiset{s.tags[tag]})
    case CancelAnswered(c) =>
      s.(unsubscribing := s.unsubscribing - multiset{c}, dropping := s.dropping + multiset{c})
    case Drained(c) => Remove(s, c)
    case BrokerCancels(c) => BeginRecovery(s, c)
    // Without a pool the connection went with the channel, and recovery is recreateAll's.
    case ChannelCloses(c) =>
      var t := s.(infos := Watch(s.infos, c, false));
      if s.pool.None? then t else BeginRecovery(t, c)
    case LoopWakes(n) => WakeLoop(s, n)
    case LoopResumes(n) => ResumeLoop(s, n)
    case RecreateAll(order) => RecreateEach(s, order)
    case DisposeAll =>
      s.(infos := CancelAll(s.infos, s.active), active := {}, tags := map[])
    case PoolLost => s.(pool := None)
    case PoolInstalled(p) => s.(pool := Some(p), pools := s.pools + {p})
  }

  ghost function Step(s: State, e: Event): State {
    if Linked(s) && Enabled(s, e) then Apply(s, e) else s
  }

  ghost function Run(s: State, events: seq<Event>): State {
    if events == [] then s
    else Step(Run(s, events[..|events| - 1]), events[|events| - 1])
  }
}
