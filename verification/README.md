# A verified model of the RabbitMQ client's stateful core

This project models, in Dafny, the parts of the client whose correctness depends on how
asynchronous steps interleave, and the arithmetic of its rate limiter, and proves properties
of whole runs.

Each stretch of code between two `await`s is one atomic step. A component has

- a `*Spec` module: its state as a value, the events that can happen next (`Enabled`), what each
  does (`Step`), and runs of them (`Run`);
- one or more property modules: the invariants every step keeps, and what follows for every run;
- an `*Answers` module: what each event must do, stated on maps, logs and event histories without
  the functions that compute it, so that the invariants cannot be met by doing nothing;
- a class with the source's own fields, updated in place. Its methods are the atomic steps, and
  each is proved to be that event of the state machine (`View() == Step(old(View()), event)`), so
  the lemmas about runs speak about the object.

Broker answers, callback outcomes, timers, worker exits and the order in which awaited calls
resume are carried by the events and left open. A disabled event changes nothing.

| component | modules |
|---|---|
| src/consumers/sequential-processor.js | SequentialSpec, SequentialInvariants, SequentialOrder, SequentialLifecycle, SequentialCascade, SequentialOrderLoss, SequentialAnswers, SequentialCounterexample, SequentialProcessing |
| src/consumers/consumer-manager.js | ConsumerSpec, ConsumerLifecycle, ConsumerRecovery, ConsumerFencing, ConsumerAnswers, ConsumerCounterexample, ConsumerManagement, RetryPolicy |
| src/connection/connection.js | ConnectionSpec, ConnectionProperties, ConnectionAnswers, Connecting |
| src/index.js | FacadeSpec (on top of ConnectionSpec), FacadeProperties, FacadeAnswers, Facade |
| src/connection/channel-pool.js | ChannelPoolSpec, ChannelPoolProperties, ChannelPoolAnswers, ChannelPooling |
| src/consumers/worker-pool.js | WorkerPoolSpec, WorkerPoolProperties, WorkerPoolAnswers, WorkerPooling |
| src/resilience | RateSpec, RateSweep, RateTransparency, RateWindows, RateTokens, RateAnswers, RateLimiting |
| src/messaging/rpc.js | RpcSpec, RpcProperties, RpcAnswers, RemoteCalls |
| src/messaging/publisher.js | PublishBatchSpec, PublishBatchProperties, PublishBatchAnswers, PublishingBatch |

## Assumptions

- Settlement callbacks do not throw; consumer ids, correlation ids, tags, deliveries and
  connections are fresh.
- A channel pool is initialised once, and `close()` is not called while `initialize()` runs.
- An explicit `disconnect()` does not overlap a dial, a restore or a new `connect()`.
- Promise continuations run before the next timer or socket event.
- Rate-limiter costs are not negative, and its clock is monotone except in `RateTokens`, where it
  is arbitrary. Clock values, costs and tokens are exact reals.
- The retry library runs an operation at most `attempts` times and may stop earlier.

## What the proofs found

- **Giving up is not fenced by the epoch.** A recovery loop whose third setup fails checks the
  pool and the cancellation but not whether someone else has recreated the consumer since.
  `ConsumerFencing.GivesUpOverAnotherExactly` is the exact condition: third setup failed, pool and
  consumer still its own, epoch no longer the one it knows. `RecreatedExactly` says that the epoch
  tells this exactly, and `OvertakenForGood` that an overtaken loop begins no further setup.
  `ConsumerCounterexample.GiveUpDropsARecoveredConsumer` is a run. A restore installs its pool
  (src/index.js:361) before it awaits `ensureExchange` and `recreateAll` (264-265); a `subscribe`
  in between has its channel on that pool. A channel error closes that channel, so
  `#watchChannelLoss` begins a loop; `createConfirmChannel` rejects two attempts; while the third
  is in flight `ensureExchange` answers and `recreateAll`, on the same pool, restores the consumer.
  Then the third attempt rejects, and the loop drops the restored consumer.
- **A loop begun while no pool is installed is not fenced by the pool.** `stillOurs` compares
  `getChannelPool() === ownedPool` (src/consumers/consumer-manager.js:369-372), and `null === null`
  holds again whenever a later pool is lost. `handleBrokerCancel` (339-345) does not ask for a pool
  before it begins a loop; `#watchChannelLoss` (307) does. `ConsumerFencing.PoolFencesExactly`:
  once the pool of a waiting loop has changed, some continuation lets it begin a setup, and some
  lets it give up, exactly when it began without a pool. `PoollessLoopGivesUp` is a run. Whether
  the broker's cancel can still reach the manager while no pool is installed is up to amqplib,
  which is not part of this model. The cancelled-or-dropped fence has no such gap (`OutForGood`).
- **Dependency order is lost when a delivery is parked while an open release loop still has its id
  to visit.** Where that never happens, order holds (`SequentialOrder.RunOrders`); at most one parked
  delivery per message id is enough for it (`OneParkedOrders`). Conversely
  (`SequentialOrderLoss.OrderLostExactly`): in an orderly run a delivery is parked, and what it waits
  for is running, or was parked at an earlier clock value. Then callbacks ending, loops going on and
  sweeps can lose the order exactly when such a loop is open. The sweep matters: it expires an older
  parked dependency, which has not succeeded, and leaves the delivery to the stale loop. Open is
  only whether order can also be lost when the dependency was parked at the same clock value or a
  later one: every sweep that expires it then expires the delivery too, and the answer hangs on
  whether that message is released before the loop arrives, so on its whole chain of dependencies.
- **The token bucket's sweep is unobservable exactly when `bucketSize <= 2 * maxRequests`**
  (`RateTransparency.SweepHiddenExactly`, `RefillsInTimeExactly`). With a larger `burstLimit` the
  sweep hands back a full bucket early.
- **Under a clock that steps back, the token bound is about the largest clock value read for that
  key**, not about the clock's own progress (`RateTokens.TokenBound`, `MarkIsLargestClock`).
- **On a queue that counts deliveries, a dropped connection spends the retry budget too**: the
  counter does not tell the two apart (`RetryPolicy.SettledExactly`).

## Model

| member | source | states |
|---|---|---|
| SequentialInvariants.RunKeeps | src/consumers/sequential-processor.js:29-176 | Over every run each delivery handed in is exactly one of running, parked, settled once or discarded, and every parked one can be found in the index or in the unvisited rest of a release loop for its dependency |
| SequentialInvariants.StepKeeps | src/consumers/sequential-processor.js:29-176 | Conservation and findability survive every single event, a sweep in the middle of a release included |
| SequentialInvariants.VisitKeeps | src/consumers/sequential-processor.js:123-140 | One turn of a release loop (release, park again, settle a duplicate, or end) keeps both |
| SequentialInvariants.ExpireAllKeeps | src/consumers/sequential-processor.js:151-168 | The sweep keeps both, whichever siblings it removes |
| SequentialOrder.RunOrders | src/consumers/sequential-processor.js:29-55 | Over every run in which no delivery is parked while an open release loop still has its id to visit, a parked message starts only after a callback for its dependency succeeded after the parking |
| SequentialOrder.OneParkedOrders | src/consumers/sequential-processor.js:29-55 | So it does if each message id is carried by at most one parked delivery |
| SequentialOrder.OneParkedIsClear | src/consumers/sequential-processor.js:34-52 | One parked delivery per message id implies that no delivery is parked under an open loop |
| SequentialOrderLoss.OrderLostExactly | src/consumers/sequential-processor.js:123-168 | For a delivery parked in an orderly run, behind a message that is running or was parked earlier: callbacks ending, loops going on and sweeps can break dependency order exactly when an open release loop still has its id to visit |
| SequentialOrderLoss.SweepDooms | src/consumers/sequential-processor.js:155-168 | A sweep just before the delivery is stale expires the older message it waits for, and leaves it to the open loop |
| SequentialOrderLoss.LosesOrder | src/consumers/sequential-processor.js:109-140 | From every reachable state with a delivery in the rest of an open loop, behind a message that is not parked and has not succeeded since, failing the callbacks leads to a start out of order |
| SequentialOrderLoss.RunBacked | src/consumers/sequential-processor.js:90-111 | Over every run each id in `processing` is that of a running callback |
| SequentialLifecycle.ParkedFate | src/consumers/sequential-processor.js:95-168 | A delivery once parked is still parked, or discarded, or started, or expired without ever starting; never both |
| SequentialLifecycle.ChainOrder | src/consumers/sequential-processor.js:29-55 | A chain of parked messages, each the only delivery of its id that succeeded, starts in chain order, over every run in which no delivery is parked under an open loop |
| SequentialLifecycle.RunLives | src/consumers/sequential-processor.js:82-121 | Over every run: no delivery starts twice, settles before starting (except by expiry or as a duplicate), or does anything after being settled |
| SequentialAnswers.DeliverAnswers | src/consumers/sequential-processor.js:29-55 | A delivery starts at once exactly when it has no id or dependency, or its dependency is neither in process nor parked; otherwise it is parked, or acknowledged as a duplicate when its id is parked already |
| SequentialAnswers.StepStartsFree | src/consumers/sequential-processor.js:29-55 | Whatever starts a delivery, arrival or release: afterwards its dependency is neither in process nor parked |
| SequentialAnswers.ParkedBeforeIsOver | src/consumers/sequential-processor.js:29-55 | When a delivery starts, every parked delivery of the message it depends on has started, expired or been discarded |
| SequentialAnswers.ChainBeforeLast | src/consumers/sequential-processor.js:29-55 | Chain order for any last link, parked or not: when it starts, all links before have started, unless the one it depends on expired or was discarded |
| SequentialAnswers.NobodyIsPassedBy | src/consumers/sequential-processor.js:123-140 | Over every run whoever is parked is still to be visited by an open release loop of its dependency, or that dependency has not succeeded since it was parked |
| SequentialAnswers.SweepLetsGoExactly | src/consumers/sequential-processor.js:142-169 | A sweep removes exactly what is older than the timeout, in process or parked, and no open call |
| SequentialAnswers.WhatLasts | src/consumers/sequential-processor.js:29-169 | A message in process is known until it ends, is stale or all is disposed of; a parked delivery stays until it starts, is stale or all is disposed of |
| SequentialAnswers.EndingsAnswer | src/consumers/sequential-processor.js:95-120 | A callback that ends settles its delivery so; a failure leaves its dependents parked; dispose discards exactly what is parked |
| SequentialCascade.InternalStepShrinks | src/consumers/sequential-processor.js:82-140 | Every callback outcome and every turn of a release loop shrinks a lexicographic measure, for every dependency graph; a re-park adds no id |
| SequentialCascade.SomeFrameCanGoOn | src/consumers/sequential-processor.js:123-140 | Release loops never deadlock: among the open calls, one runs its callback or can go on |
| SequentialCascade.Drain | src/consumers/sequential-processor.js:82-140 | From every reachable state the open calls all finish without new deliveries, with no more parked ids than before |
| SequentialCascade.RunNests | src/consumers/sequential-processor.js:123-140 | A release loop waits only for a call started after it |
| SequentialCounterexample.StaleLoopBreaksOrder | src/consumers/sequential-processor.js:123-168 | A ten-event run from a new processor whose log is out of dependency order |
| SequentialProcessing.SequentialProcessor.constructor | src/consumers/sequential-processor.js:5-27 | Starts empty; a timeout of 0 or none is 30000 |
| SequentialProcessing.SequentialProcessor.Handle | src/consumers/sequential-processor.js:29-55 | Is the Deliver event: start, park, or settle a duplicate |
| SequentialProcessing.SequentialProcessor.IndexPendingId | src/consumers/sequential-processor.js:57-66 | Adds the id behind its dependency, once, and touches nothing else |
| SequentialProcessing.SequentialProcessor.RemovePendingId | src/consumers/sequential-processor.js:68-80 | Takes the id out of both maps, an emptied index entry included |
| SequentialProcessing.SequentialProcessor.CallbackSucceeded | src/consumers/sequential-processor.js:82-121 | Settles the delivery as a success and begins its release loop |
| SequentialProcessing.SequentialProcessor.CallbackFailed | src/consumers/sequential-processor.js:109-120 | Settles it as a failure; its dependents stay parked |
| SequentialProcessing.SequentialProcessor.ResumeRelease | src/consumers/sequential-processor.js:123-140 | Is the Resume event of the loop whose awaited call ended |
| SequentialProcessing.SequentialProcessor.Cleanup | src/consumers/sequential-processor.js:142-169 | Is the Sweep event for the order in which it settled the expired messages, which are exactly the stale ones |
| SequentialProcessing.SequentialProcessor.DisposeAll | src/consumers/sequential-processor.js:171-176 | Is the Dispose event |
| ConsumerLifecycle.RunLinks | src/consumers/consumer-manager.js:205-273 | Over every run every value of the tag map is an active consumer, which makes the unguarded lookups safe |
| ConsumerLifecycle.StepLinks | src/consumers/consumer-manager.js:205-249 | Every event keeps that, setups resuming after a drop included |
| ConsumerLifecycle.DroppedForGood | src/consumers/consumer-manager.js:214-249 | Once dropped, a consumer never comes back and no tag of it is ever registered again, whatever setups were in flight |
| ConsumerAnswers.DropTakesItsOwn | src/consumers/consumer-manager.js:224-234 | A drop removes exactly the consumer and its own tags; every other tag keeps its value |
| ConsumerAnswers.TagLeadsOn | src/consumers/consumer-manager.js:205-249 | Over every continuation a registered tag leads to its consumer until that is drained, all is disposed of, or the broker hands out the same tag again |
| ConsumerAnswers.SetupGoesOn | src/consumers/consumer-manager.js:461-569 | Every good answer takes the setup of a registered, uncancelled consumer on, the last one registers the tag and watches the channel; any other fails it |
| ConsumerAnswers.SubscriptionBegins | src/consumers/consumer-manager.js:175-195 | A subscription registers its consumer with one setup; if that fails the registration is undone |
| ConsumerAnswers.RecreatesEveryoneOnce | src/consumers/consumer-manager.js:865-877 | `recreateAll` begins exactly one setup for every registered consumer, and none else |
| ConsumerAnswers.RunLeaves | src/consumers/consumer-manager.js:694-721 | Over every run whoever is cancelled and still registered has an `unsubscribe` or a drop running |
| ConsumerAnswers.UnsubscribeRemoves | src/consumers/consumer-manager.js:694-721 | `unsubscribe` ends with the consumer and all its tags gone and every other tag in place |
| ConsumerAnswers.DisposeEndsAll | src/consumers/consumer-manager.js:879-893 | `disposeAll` leaves nothing registered and cancels exactly who was |
| ConsumerAnswers.LossBeginsALoop | src/consumers/consumer-manager.js:284-353 | A broker's cancel begins a recovery exactly for a registered, uncancelled consumer; a closed channel only while a pool is installed |
| ConsumerAnswers.WakesExactly | src/consumers/consumer-manager.js:376-392 | A loop that wakes begins a setup exactly when consumer, pool and epoch are still its own |
| ConsumerAnswers.ResumesExactly | src/consumers/consumer-manager.js:394-412 | Done when its setup succeeded, asleep for the next attempt while one is left, else given up or stood down |
| ConsumerRecovery.RunFences | src/consumers/consumer-manager.js:257-261 | Over every run each setup carries its own epoch, and what each loop has read and started accounts for the epochs it knows |
| ConsumerRecovery.AtMostOneLoopStarts | src/consumers/consumer-manager.js:347-415 | Of the loops of one consumer that read the same epoch at most one ever starts a setup, and at most three |
| ConsumerRecovery.SetupsPerLoop | src/consumers/consumer-manager.js:360-404 | Over every run a recovery loop begins at most three setups |
| ConsumerRecovery.NoOtherSetupBetween | src/consumers/consumer-manager.js:374-392 | Over every run the setups of a consumer between the epoch its loop read and the epoch it knows are all the loop's own |
| ConsumerFencing.OutForGood | src/consumers/consumer-manager.js:369-384 | Once the consumer was cancelled or dropped, or the pool a loop began on is no longer installed, the loop starts no setup and does not decide to give up, in any continuation |
| ConsumerFencing.PoolFencesExactly | src/consumers/consumer-manager.js:369-379 | When the pool of a waiting loop has changed, some continuation lets it begin a setup, and some lets it give up, exactly when it began while no pool was installed |
| ConsumerFencing.OvertakenForGood | src/consumers/consumer-manager.js:381-384 | A loop overtaken by another recreation begins no further setup, in any continuation |
| ConsumerFencing.RecreatedExactly | src/consumers/consumer-manager.js:251-261 | Over every run someone else has recreated the consumer since the loop began exactly when its epoch has moved past the one the loop knows |
| ConsumerFencing.RunStampsAll | src/consumers/consumer-manager.js:257-261 | Over every run each epoch of a consumer was stamped by one of its setups |
| ConsumerFencing.GivesUpExactly | src/consumers/consumer-manager.js:394-412 | Over every run it gives up exactly when its third setup failed while pool and consumer are still its own |
| ConsumerFencing.GivesUpOverAnotherExactly | src/consumers/consumer-manager.js:406-412 | It gives up on a consumer that someone else has recreated meanwhile exactly when, besides, the epoch is no longer the one it knows |
| ConsumerCounterexample.GiveUpDropsARecoveredConsumer | src/consumers/consumer-manager.js:406-415 | A reachable run, from a closed channel, in which giving up drops a live consumer that recreateAll had restored on the same pool |
| ConsumerCounterexample.PoollessLoopGivesUp | src/consumers/consumer-manager.js:339-372 | A reachable state in which a loop begun without a pool is on a healthy pool, and a continuation in which it gives up on its live consumer |
| ConsumerManagement.ConsumerManager.SubscribeCore | src/consumers/consumer-manager.js:175-195 | Registers the consumer and begins its first setup |
| ConsumerManagement.ConsumerManager.SubscribeRejected | src/consumers/consumer-manager.js:571-586 | A failed first setup begins the drop |
| ConsumerManagement.ConsumerManager.RunSetupFor | src/consumers/consumer-manager.js:257-261 | One more epoch for the consumer and a setup that carries it |
| ConsumerManagement.ConsumerManager.SetupAfterChannel | src/consumers/consumer-manager.js:461-495 | Fails unless the consumer is still registered and not cancelled; says exactly when the reopened channel must be released |
| ConsumerManagement.ConsumerManager.SetupAfterPrefetch | src/consumers/consumer-manager.js:493-495 | Goes on to consume, or fails |
| ConsumerManagement.ConsumerManager.SetupAfterConsume | src/consumers/consumer-manager.js:542-569 | Registers the tag only behind the second fence; says which consume came too late and must be cancelled |
| ConsumerManagement.ConsumerManager.FindConsumerByTag | src/consumers/consumer-manager.js:263-273 | A tag found leads to an active consumer |
| ConsumerManagement.ConsumerManager.UnsubscribeTag | src/consumers/consumer-manager.js:694-712 | Cancels the consumer of the tag; an unknown tag changes nothing |
| ConsumerManagement.ConsumerManager.UnsubscribeAfterCancel | src/consumers/consumer-manager.js:714-721 | Goes on to the drop |
| ConsumerManagement.ConsumerManager.DropAfterDrain | src/consumers/consumer-manager.js:214-249 | Removes every tag of the consumer, then the consumer, and nothing of another |
| ConsumerManagement.ConsumerManager.HandleConsumerLoss | src/consumers/consumer-manager.js:347-377 | Opens a recovery loop with the epoch and pool it reads, unless the consumer is gone or cancelled |
| ConsumerManagement.ConsumerManager.HandleBrokerCancel | src/consumers/consumer-manager.js:339-345 | Begins recovery without asking for a pool |
| ConsumerManagement.ConsumerManager.WatchedChannelClosed | src/consumers/consumer-manager.js:284-315 | The consumer's channel is gone; begins recovery only while a pool is installed |
| ConsumerManagement.ConsumerManager.WakeAfterSleep | src/consumers/consumer-manager.js:376-392 | Starts the loop's next setup behind all three fences, or stands down |
| ConsumerManagement.ConsumerManager.ResumeAfterSetup | src/consumers/consumer-manager.js:394-415 | Recovered, next attempt, stood down, or given up |
| ConsumerManagement.ConsumerManager.RecreateEveryConsumer | src/consumers/consumer-manager.js:865-877 | One new setup for every active consumer, each exactly once |
| ConsumerManagement.ConsumerManager.DisposeEverything | src/consumers/consumer-manager.js:879-893 | Cancels every active consumer and empties both maps |
| RetryPolicy.Resolve | src/consumers/consumer-manager.js:122-134 | Accepts exactly what is absent, a keyword or a positive number of attempts; answers the default, or the policy as written |
| RetryPolicy.DeliveredExactly | src/consumers/consumer-manager.js:151-173 | Against a counting queue, an always-failing message is delivered exactly N times under N attempts |
| RetryPolicy.RequeuesBounded | src/consumers/consumer-manager.js:151-173 | With connection drops interleaved anyhow, the client asks for at most N-1 requeues, 1 without a counter or under once, 0 under never |
| RetryPolicy.SettledExactly | src/consumers/consumer-manager.js:518-532 | It lets a message go exactly at the first failure that is not retryable or outside the budget, drops counting like failures |
| ConnectionProperties.RunKeeps | src/connection/connection.js:97-233 | Over every run: while reconnecting a timer is armed or a dial is in flight; attempts stay in budget; armed delays never shrink and respect the cap; a dial walks the endpoints in turn |
| ConnectionProperties.StepKeeps | src/connection/connection.js:97-271 | Every event, an explicit disconnect included, keeps all of that |
| ConnectionProperties.EveryEndpointOnce | src/connection/connection.js:107-178 | A dial that failed tried every endpoint exactly once |
| ConnectionProperties.IndexReturns | src/connection/connection.js:107-178 | Afterwards the endpoint index is where the dial began |
| ConnectionProperties.AttemptsBounded | src/connection/connection.js:194-233 | Without a success in between, at most maxReconnectAttempts timer attempts run |
| ConnectionProperties.FailedMeansSpent | src/connection/connection.js:194-221 | Over every run, state failed means that the attempt counter stands at maxReconnectAttempts, and no timer is armed |
| ConnectionProperties.GivesUpWhenSpent | src/connection/connection.js:194-221 | Reconnecting ends in no way but success, failure or disconnect |
| ConnectionProperties.LossIsAnnounced | src/connection/connection.js:147-190 | A connection lost without a disconnect is announced, and a connection is never reused |
| ConnectionProperties.DelayGrows | src/connection/connection.js:206-209 | Backoff is monotone in the attempt and capped |
| ConnectionAnswers.SuccessInstalls | src/connection/connection.js:130-162 | A dial that succeeds installs its connection and resets the attempts; after a shutdown it installs nothing |
| ConnectionAnswers.AttemptsSinceSuccess | src/connection/connection.js:155-160 | A success refills the budget: until the next one the counter is exactly the number of timer attempts since this one |
| ConnectionAnswers.GivesUpAfterExactly | src/connection/connection.js:194-204 | Giving up after a success takes exactly maxReconnectAttempts timer attempts after it |
| ConnectionAnswers.ArmedDelayExactly | src/connection/connection.js:206-220 | After n timer attempts since the last success the armed timer waits the base interval doubled min(n, 4) times, capped |
| ConnectionAnswers.ClosedRetries | src/connection/connection.js:147-153 | An open connection that closes is announced and, unless no attempt is allowed, a retry with the shortest delay is armed |
| ConnectionAnswers.DialBegins | src/connection/connection.js:97-122 | `connect` dials exactly when no dial is in flight and none is open; the retry timer too, counting an attempt |
| ConnectionAnswers.RefusedGoesOn | src/connection/connection.js:163-178 | A refused endpoint is followed by the next; after the last a retry is armed while the budget lasts, else it fails and says so |
| ConnectionAnswers.DisconnectEnds | src/connection/connection.js:242-271 | `disconnect` leaves neither connection nor timer |
| Connecting.RabbitMQConnection.ConnectBody | src/connection/connection.js:97-124 | Joins a dial in flight, keeps an open connection, or begins a dial |
| Connecting.RabbitMQConnection.DialAnswered | src/connection/connection.js:124-162 | Installs the connection and resets the retry state, or discards it after a shutdown |
| Connecting.RabbitMQConnection.DialFailed | src/connection/connection.js:163-178 | Moves to the next endpoint; after the last one retries or gives up |
| Connecting.RabbitMQConnection.ConnectionClosed | src/connection/connection.js:147-153 | Announces the loss and schedules a retry |
| Connecting.RabbitMQConnection.StartReconnecting | src/connection/connection.js:180-190 | Announces once, schedules every time |
| Connecting.RabbitMQConnection.ScheduleReconnect | src/connection/connection.js:194-221 | Arms the timer with the capped delay, or fails with the budget spent |
| Connecting.RabbitMQConnection.RetryTimerFired | src/connection/connection.js:223-233 | Counts an attempt and dials, unless already connected |
| Connecting.RabbitMQConnection.DisconnectNow | src/connection/connection.js:242-271 | Clears timer, connection and reconnecting |
| FacadeProperties.RunKeeps | src/index.js:221-364 | Over every run of the connection and the restores on top: the slot is owned by exactly the current restore in flight, and the installed pool is built on the current connection by a current restore that has not failed |
| FacadeProperties.OneRestoreAtATime | src/index.js:221-250 | At most one restore begun since the last disconnection is in flight, and it owns the slot |
| FacadeProperties.StaleTouchesNothing | src/index.js:258-285 | No step of a stale restore changes the slot, replaces a pool or tears one down |
| FacadeProperties.RestingPoolIsComplete | src/index.js:258-285 | A pool left installed with no restore in flight is on the current connection and comes from a restore whose pool opened, whose exchange was then asserted and whose consumers were then recreated |
| FacadeProperties.CompletedDidItAll | src/index.js:258-285 | Over every run, read off its events: a restore that completed had its pool opened, then the exchange asserted, then the consumers recreated |
| FacadeProperties.ReconnectedFindsNoPool | src/index.js:287-303 | The ungated handler never meets an installed pool |
| FacadeAnswers.SuccessIsHandled | src/index.js:287-303 | A dial that succeeds outside a shutdown is followed by both recoveries |
| FacadeAnswers.RestoreBegins | src/index.js:221-250 | A restore begins exactly when none owns the slot, and for a resuming `connect` only without a pool |
| FacadeAnswers.PoolIsInstalled | src/index.js:332-364 | An opened pool is installed exactly when the connection it was built on is still open |
| FacadeAnswers.FailedExchangeTakesBack | src/index.js:266-280 | A failed exchange takes back exactly the restore's own pool |
| FacadeAnswers.RestoreCompletes | src/index.js:258-285 | With every answer good the restore completes, its pool installed and the slot free |
| FacadeAnswers.PoolLasts | src/index.js:266-325 | Over every run an installed pool stays until its connection is lost, its own restore fails, or an explicit disconnect |
| FacadeAnswers.LossDropsAll | src/index.js:305-325 | A connection that goes away on its own takes pool and slot with it |
| FacadeAnswers.ShutdownEnds | src/index.js:470-501 | An explicit disconnect leaves neither pool nor connection |
| Facade.RabbitMQ.RestoreStateShared | src/index.js:221-250 | Joins the restore in the slot or begins one |
| Facade.RabbitMQ.HandleDisconnected | src/index.js:305-330 | Drops slot and pool, hands back the stale pool to be closed, and every restore begun before becomes stale |
| Facade.RabbitMQ.OnConnectionEvent | src/index.js:305-330 | A connection event with its disconnection handler is one step of the composed machine |
| Facade.RabbitMQ.DoConnectResumes | src/index.js:379-393 | Restores only when no pool is installed |
| Facade.RabbitMQ.HandleReconnection | src/index.js:287-303 | Restores without a gate |
| Facade.RabbitMQ.PoolInitialized | src/index.js:332-364 | Installs the pool only on the connection it was built on |
| Facade.RabbitMQ.ExchangeAnswered | src/index.js:258-280 | On failure takes back its own pool and no other |
| Facade.RabbitMQ.RestoreFinally | src/index.js:221-250 | Only the owner frees the slot |
| Facade.RabbitMQ.RestoreEnds | src/index.js:264-285 | Settles as completed after recreateAll, as failed after closing the pool it gave up |
| Facade.RabbitMQ.DisconnectAll | src/index.js:470-519 | An explicit disconnect while nothing is in flight leaves no pool, slot or connection |
| ChannelPoolProperties.RunKeeps | src/connection/channel-pool.js:27-117 | Over every run: never two loops at work on a slot, a loop only for an empty slot, every live channel in its slot, and in a closed pool every live channel on its way out |
| ChannelPoolProperties.EverySlotIsServed | src/connection/channel-pool.js:53-117 | Every slot of a ready pool has a live occupant, or exactly one loop that can still dial or has used its attempts |
| ChannelPoolProperties.OpensPerLoss | src/connection/channel-pool.js:90-117 | There are no more replacement loops than lost channels, and each has at most five opens answered: one loss costs at most five |
| ChannelPoolProperties.NothingLeaks | src/connection/channel-pool.js:27-117 | After close or a failed initialize, with no open in flight, every channel opened for a slot is closed or asked to close, late ones included |
| ChannelPoolAnswers.InitializeSettlesExactly | src/connection/channel-pool.js:40-50 | Once every first open has answered, the pool is ready and open exactly when all of them brought a channel, and refused and closed exactly when one did not, read off the run's events |
| ChannelPoolAnswers.ReadyIsFilled | src/connection/channel-pool.js:53-64 | In a pool that becomes ready every slot had its first channel placed |
| ChannelPoolAnswers.InitializeOpensAll | src/connection/channel-pool.js:27-40 | `initialize` opens every slot at once |
| ChannelPoolAnswers.LossIsReplaced | src/connection/channel-pool.js:75-81 | A channel that dies in an open pool leaves its slot to exactly one new loop |
| ChannelPoolAnswers.LoopGoesOn | src/connection/channel-pool.js:90-117 | A loop takes the channel it is answered, sleeps without one, dials five times in all, and in a closed pool only closes |
| ChannelPoolAnswers.CloseCloses | src/connection/channel-pool.js:188-199 | `close` closes the pool, asks exactly its occupants to close, and empties it |
| ChannelPoolAnswers.ClosedStaysEmpty | src/connection/channel-pool.js:56-64 | A pool once closed and emptied is never opened or filled again |
| ChannelPooling.ChannelPool.BeginInitialize | src/connection/channel-pool.js:27-40 | Opens every slot at once |
| ChannelPooling.ChannelPool.FirstOpen | src/connection/channel-pool.js:53-84 | Places the first channel of a slot, or marks the slot failed |
| ChannelPooling.ChannelPool.FinishInitialize | src/connection/channel-pool.js:27-51 | Ready only if every slot opened; otherwise closes what did |
| ChannelPooling.ChannelPool.ChannelLost | src/connection/channel-pool.js:75-81 | Starts a replacement only if the dead channel still holds its slot in an open pool |
| ChannelPooling.ChannelPool.ReplacementAnswered | src/connection/channel-pool.js:90-117 | Takes the new channel, sleeps for the next attempt, or is exhausted |
| ChannelPooling.ChannelPool.ReplacementChecks | src/connection/channel-pool.js:96-106 | Keeps the channel in an open pool, closes it in a closed one |
| ChannelPooling.ChannelPool.ReplacementWakes | src/connection/channel-pool.js:90-117 | The next attempt, or the end of the loop |
| ChannelPooling.ChannelPool.BeginClosing | src/connection/channel-pool.js:188-195 | Closes the pool and asks every occupant to close |
| ChannelPooling.ChannelPool.FinishClosing | src/connection/channel-pool.js:197-199 | Empties the slots |
| ChannelPooling.ChannelPool.ClaimSlot | src/connection/channel-pool.js:53-64 | Writes the slot unless the pool is closed; a closed pool stays empty |
| ChannelPooling.ChannelPool.CloseChannels | src/connection/channel-pool.js:188-195 | The loop over the slots asks exactly the occupants to close |
| ChannelPooling.ChannelPool.GetChannel | src/connection/channel-pool.js:157-171 | The first usable slot at or after the cursor, round the ring once; fails exactly when none is usable, and hands out no dead channel of an open pool |
| WorkerPoolProperties.RunKeeps | src/consumers/worker-pool.js:30-152 | Over every run: every live worker is idle once or held by one run; while anyone waits nobody idles, a worker lives and the pool is not terminated; the queue is first come first served |
| WorkerPoolProperties.SpawnsBounded | src/consumers/worker-pool.js:30-73 | At most workerCount * (1 + maxRespawns) workers are ever spawned |
| WorkerPoolProperties.ServedInOrder | src/consumers/worker-pool.js:84-116 | Whoever has left the queue left after everyone queued before |
| WorkerPoolProperties.WaiterIsServedNext | src/consumers/worker-pool.js:84-94 | While someone waits there is a run whose end hands its live worker to the first waiter |
| WorkerPoolAnswers.RespawnedExactly | src/consumers/worker-pool.js:39-67 | Over every run a slot was respawned as often as its workers exited, up to the limit; until a termination exactly one worker serves it while the exits are within the limit, none after |
| WorkerPoolAnswers.CallAnswers | src/consumers/worker-pool.js:96-116 | A call gets the first idle worker, waits last in line exactly when none idles but some live, and is refused otherwise |
| WorkerPoolAnswers.EndAnswers | src/consumers/worker-pool.js:84-94 | A run that ends hands its worker to the first in line, or back to the idle ones, unless it is dead |
| WorkerPoolAnswers.LastExitRejects | src/consumers/worker-pool.js:60-66 | The exit that leaves no worker alive rejects all who wait; no other exit does |
| WorkerPoolAnswers.TerminateAnswers | src/consumers/worker-pool.js:154-169 | `terminate` rejects all who wait, and no later call is served |
| WorkerPooling.WorkerPool.constructor | src/consumers/worker-pool.js:5-24 | Spawns every worker, all idle |
| WorkerPooling.WorkerPool.SpawnWorker | src/consumers/worker-pool.js:30-73 | A fresh worker for the slot |
| WorkerPooling.WorkerPool.ReleaseWorker | src/consumers/worker-pool.js:84-94 | To the first waiter, else idle, unless it is gone |
| WorkerPooling.WorkerPool.AcquireWorker | src/consumers/worker-pool.js:96-116 | The first idle worker still alive, else the end of the queue, else refused |
| WorkerPooling.WorkerPool.RunCall | src/consumers/worker-pool.js:118-120 | A run begins, waits or is refused |
| WorkerPooling.WorkerPool.RunFinally | src/consumers/worker-pool.js:149-152 | A run that ends gives its worker back |
| WorkerPooling.WorkerPool.OnExit | src/consumers/worker-pool.js:39-73 | Respawns within the slot's budget; when the last worker is gone rejects every waiter |
| WorkerPooling.WorkerPool.BeginTerminate | src/consumers/worker-pool.js:154-160 | Rejects every waiter and accepts no more |
| WorkerPooling.WorkerPool.FinishTerminate | src/consumers/worker-pool.js:168-169 | Forgets workers and idle list |
| WorkerPooling.WorkerPool.RejectAllWaiters | src/consumers/worker-pool.js:75-82 | Empties the queue, rejecting all of it |
| WorkerPooling.WorkerPool.ExitListener | src/consumers/worker-pool.js:39-67 | Takes the worker out of both lists, then respawns or gives the slot up |
| RateTransparency.SweepsAreUnobservable | src/resilience/rate-limiter.js:64-152 | On a monotone clock, wherever the sweep runs, every answer is that of the run without sweeps; block expiry included |
| RateTransparency.SweepHiddenExactly | src/resilience/strategies/token-bucket.js:53-59 | That holds for every run from a new limiter exactly when a bucket refills within two windows |
| RateTransparency.RefillsInTimeExactly | src/resilience/strategies/token-bucket.js:2-7 | Which, as the constructor sets the rate, means bucketSize <= 2 * maxRequests |
| RateTransparency.OpAlike | src/resilience/rate-limiter.js:77-145 | Simulation: states alike in what later answers read give the same answer and stay alike |
| RateTransparency.SweepAlike | src/resilience/rate-limiter.js:64-75 | Sweeping one side alone keeps them alike |
| RateSweep.ResidueAges | src/resilience/strategies/window-log-strategy.js:32-36 | What is left of a key's state later is a function of what is left now: evicting, rolling over or refilling in two stages equals doing it once |
| RateSweep.SweepAt | src/resilience/strategies/token-bucket.js:53-59 | What each strategy's sweep drops had nothing left to say |
| RateWindows.EvictionIsFiltering | src/resilience/strategies/window-log-strategy.js:32-36 | Front eviction with a running total is filter-and-sum over entries of age at most windowMs |
| RateWindows.RunIsNaive | src/resilience/strategies/window-log-strategy.js:32-73 | Over a whole run, sweeps included, the state of a window strategy is the naive filter and sum over all it ever admitted |
| RateWindows.AdmitsLikeNaive | src/resilience/strategies/window-log-strategy.js:40-53 | After any run a check admits exactly when the naive sum plus the cost is within the limit, and the reported occupancy is that sum |
| RateWindows.AdmissionsBounded | src/resilience/strategies/fixed-window.js:21-36 | In any interval of length windowMs a window log admits at most its limit; in any fixed window at most maxRequests |
| RateTokens.TokenBound | src/resilience/strategies/token-bucket.js:17-47 | Under any clock, between any two points of a run without reset or sweep: admitted cost plus balance is at most the old balance plus the refill of the growth of the largest clock value seen |
| RateTokens.AdmittedAtMost | src/resilience/strategies/token-bucket.js:17-47 | So the admitted cost is at most bucketSize plus that refill |
| RateTokens.MarkIsLargestClock | src/resilience/strategies/token-bucket.js:29-36 | The refill mark is the largest clock value at which the bucket was read |
| RateTokens.RunStaysInBounds | src/resilience/strategies/token-bucket.js:17-63 | Over every run, sweeps and resets included, every balance stays between 0 and bucketSize, whatever the clock does |
| RateTokens.RemainingTellsExactly | src/resilience/strategies/token-bucket.js:49-51 | A check succeeds exactly when its (for tokens: integer) cost is at most `remaining`, and asking changes no verdict |
| RateAnswers.ImpossibleExactly | src/resilience/rate-limiter.js:85-90 | A cost is refused as impossible exactly when it is above the capacity, and changes nothing |
| RateAnswers.BlockedExactly | src/resilience/rate-limiter.js:92-118 | A blocked key is refused until its block is over, whatever else happens, sweeps included; then the strategy decides |
| RateAnswers.CheckUnblocks | src/resilience/rate-limiter.js:95-106 | A check that reaches the strategy forgets the key's expired block, and no other |
| RateAnswers.ResetRestores | src/resilience/rate-limiter.js:140-145 | A reset gives the key its full capacity, unblocked, and changes no other key |
| RateAnswers.SweepDropsTheRest | src/resilience/rate-limiter.js:62-75 | The sweep keeps only logs with an entry of the last window, counters of the current one, buckets read within two windows, and blocks that hold |
| RateAnswers.SharedWindowExactly | src/resilience/strategies/fixed-window.js:17-19 | Two instants share a fixed window exactly when one multiple of windowMs and the next enclose both |
| RateAnswers.FixedWindowBound | src/resilience/strategies/fixed-window.js:21-36 | Between any multiple of windowMs and the next a fixed window admits at most maxRequests, over every run without a reset |
| RateLimiting.WindowLogStrategy.EvictExpired | src/resilience/strategies/window-log-strategy.js:32-36 | The loop evicts what the specification evicts |
| RateLimiting.WindowLogStrategy.Occupy | src/resilience/strategies/window-log-strategy.js:40-53 | State and answer of a check |
| RateLimiting.WindowLogStrategy.Remaining | src/resilience/strategies/window-log-strategy.js:55-63 | State and answer of a read |
| RateLimiting.WindowLogStrategy.Cleanup | src/resilience/strategies/window-log-strategy.js:65-73 | Evicts in every log and drops exactly the emptied ones, in whatever order |
| RateLimiting.FixedWindowStrategy.Check | src/resilience/strategies/fixed-window.js:21-36 | State and answer of a check, a refused one that rolls the window over included |
| RateLimiting.FixedWindowStrategy.Remaining | src/resilience/strategies/fixed-window.js:38-44 | Answer of a read, state unchanged |
| RateLimiting.FixedWindowStrategy.Cleanup | src/resilience/strategies/fixed-window.js:46-54 | Drops exactly the counters of other windows |
| RateLimiting.TokenBucketStrategy.BucketFor | src/resilience/strategies/token-bucket.js:17-37 | Creates or refills, never shrinks |
| RateLimiting.TokenBucketStrategy.Check | src/resilience/strategies/token-bucket.js:39-47 | State and answer of a check |
| RateLimiting.TokenBucketStrategy.Remaining | src/resilience/strategies/token-bucket.js:49-51 | State and answer of a read, which refills too |
| RateLimiting.TokenBucketStrategy.Cleanup | src/resilience/strategies/token-bucket.js:53-59 | Drops exactly the buckets untouched for more than two windows |
| RateLimiting.RateLimiter.CheckRateLimit | src/resilience/rate-limiter.js:77-113 | Unsatisfiable, blocked, or the strategy's verdict with an expired block removed |
| RateLimiting.RateLimiter.Cleanup | src/resilience/rate-limiter.js:64-75 | Sweeps the strategy and unblocks exactly the expired keys |
| RateLimiting.RateLimiter.BlockKey | src/resilience/rate-limiter.js:115-118 | Blocks the key until now + duration |
| RateLimiting.RateLimiter.GetStatus | src/resilience/rate-limiter.js:124-138 | Tokens left and whether the block still holds |
| RateLimiting.RateLimiter.GetRemainingTokens | src/resilience/rate-limiter.js:120-122 | The strategy's `remaining` and its effect |
| RateLimiting.RateLimiter.UnblockExpiredKeys | src/resilience/rate-limiter.js:69-74 | Unblocks exactly the keys whose time has come, in whatever order |
| RateLimiting.RateLimiter.Reset | src/resilience/rate-limiter.js:140-145 | Forgets one key, blocks included, and no other |
| RpcProperties.RunKeeps | src/messaging/rpc.js:37-188 | Over every run each request is in exactly one place (waiting, handed a channel, refused, pending, decoding, settled once), its timer armed exactly while pending; an installed reply channel is of the current epoch and carries the only listener pair; setups never overlap |
| RpcProperties.FirstSettlementStands | src/messaging/rpc.js:37-47 | Whichever settler comes first wins: no continuation settles the request again |
| RpcProperties.SettlesExactly | src/messaging/rpc.js:37-79 | Each event settles exactly the requests it may: a timeout, return, failed publish or decoded reply its own, a loss all pending |
| RpcProperties.OnlyItsOwnReply | src/messaging/rpc.js:158-188 | Without a reply carrying its correlation id, no run settles a request by a reply |
| RpcProperties.LossClears | src/messaging/rpc.js:54-71 | After a loss nothing is pending, armed or attached, and all that was pending is rejected with it |
| RpcProperties.OvertakenSetupNeverInstalls | src/messaging/rpc.js:96-146 | A setup overtaken by a connection loss never installs its channel nor leaves listeners, however the run goes on |
| RpcProperties.WaitersGoOnTogether | src/messaging/rpc.js:84-94 | When the shared setup settles, all its waiters get its channel or all are refused |
| RpcAnswers.AskAnswers | src/messaging/rpc.js:84-104 | A new request gets the installed channel, else joins the setup in flight, else begins one |
| RpcAnswers.ChannelAnswers | src/messaging/rpc.js:103-112 | The setup consumes on the channel it is answered, or ends without one |
| RpcAnswers.SetupInstallsExactly | src/messaging/rpc.js:129-146 | A confirmed setup installs its channel exactly when no connection was lost since it began; otherwise no channel and no listener is left |
| RpcAnswers.SetupServesItsWaiters | src/messaging/rpc.js:84-146 | Left alone, a setup installs its channel and hands it to everyone who waited |
| RpcAnswers.RequestGoesOn | src/messaging/rpc.js:158-255 | Registering arms exactly this request's timer; its reply disarms it; a failed publish settles it if it is pending |
| RpcAnswers.GoneChannelClears | src/messaging/rpc.js:73-79 | A channel that goes away clears exactly the route installed on it |
| RemoteCalls.Rpc.RejectAll | src/messaging/rpc.js:64-71 | Rejects every pending request, in order, and disarms its timer |
| RemoteCalls.Rpc.DetachReplyListeners | src/messaging/rpc.js:148-156 | Takes the recorded pair off its channel, if there is one |
| RemoteCalls.Rpc.Settle | src/messaging/rpc.js:37-47 | Settles a pending request and says whether there was one |
| RemoteCalls.Rpc.HandleConnectionLoss | src/messaging/rpc.js:54-62 | Is the ConnectionLoss event |
| RemoteCalls.Rpc.InvalidateReplyChannel | src/messaging/rpc.js:73-79 | Acts only on the installed channel |
| RemoteCalls.Rpc.AskForReplyChannel | src/messaging/rpc.js:84-104 | The installed channel, else the shared setup, else a new one |
| RemoteCalls.Rpc.ConsumeAnswered | src/messaging/rpc.js:106-146 | Attaches, then installs behind the fence or detaches again |
| RemoteCalls.Rpc.SetupSettled | src/messaging/rpc.js:87-93 | Frees the slot and releases the waiters |
| RemoteCalls.Rpc.RegisterRequest | src/messaging/rpc.js:221-232 | Registers and arms before publishing |
| RemoteCalls.Rpc.HandleReply | src/messaging/rpc.js:158-170 | Takes the request out of pending; discards unknown replies |
| RemoteCalls.Rpc.ReplyDecoded | src/messaging/rpc.js:172-188 | Settles it as resolved, failed by the responder, or undecodable |
| RemoteCalls.Rpc.TimedOutNow | src/messaging/rpc.js:223-226 | The timer settles its request without looking |
| RemoteCalls.Rpc.OnReturn | src/messaging/rpc.js:119-123 | An unroutable request fails fast |
| RemoteCalls.Rpc.PublishFailedFor | src/messaging/rpc.js:247-255 | Settles the request unless something else did, and says which |
| PublishBatchProperties.ResolvesExactlyWhenConfirmed | src/messaging/publisher.js:178-217 | For any verdicts the call resolves exactly when every message was confirmed |
| PublishBatchProperties.RetriesOnlyUnconfirmed | src/messaging/publisher.js:187-206 | A message confirmed in one attempt is published in no later one |
| PublishBatchProperties.PublishedInRound | src/messaging/publisher.js:200-206 | An attempt that publishes at all publishes exactly the messages not confirmed so far |
| PublishBatchProperties.OpenIsUnconfirmed | src/messaging/publisher.js:193-206 | Confirmed and unconfirmed partition the batch after every attempt |
| PublishBatchProperties.BoundedPublishes | src/messaging/publisher.js:130-159 | At most max(1, maxRetries ?? 3) attempts and that many times the batch size in publishes |
| PublishBatchProperties.PublishesBalance | src/messaging/publisher.js:193-206 | Publishes plus open messages equal the batch size plus the failed publishes: no publish is lost or repeated without a failure |
| PublishBatchProperties.EncodedOnce | src/messaging/publisher.js:192-198 | The batch is encoded successfully at most once, and before any publish |
| PublishBatchAnswers.BatchExactly | src/messaging/publisher.js:130-217 | By the answers it meets alone: every attempt that gets through publishes exactly what no earlier one had confirmed; it stops once all is confirmed, at a failure that is not retried, or after max(1, maxRetries ?? 3) attempts; it resolves exactly when all is confirmed |
| PublishBatchAnswers.NothingPublished | src/messaging/publisher.js:181-185 | An empty batch is invalid, and one that is not admitted never begins |
| PublishingBatch.PublishUnconfirmed | src/messaging/publisher.js:200-211 | Publishes what is unconfirmed, in order, and keeps what was not confirmed |
| PublishingBatch.BatchOperation | src/messaging/publisher.js:195-214 | One attempt with its three ways to fail before publishing |
| PublishingBatch.PublishBatch | src/messaging/publisher.js:178-217 | The retry loop: an empty or unadmitted batch publishes nothing |

## Left out

- Brokers, sockets, worker threads, timers and amqplib: nondeterministic events.
- The retry library and src/resilience/circuit-breaker.js: a bounded loop that may stop early.
- Codecs, compression, loggers, emitted event payloads and error wording.
- Map and Set iteration order, where nothing proved depends on it: the event carries the order.
- In-flight counts, drain timers and dedicated channels of a consumer: a drain is one awaited step that ends at any time.
- Dedicated-channel caching (`getDedicatedChannel`), for which no leak freedom is claimed.
- At most one live broker consumer per subscription while `subscribe` overlaps a restore: the source does not promise it.
- The prefetch optimiser, sequential and parallel subscription wrappers and the worker payloads of subscribeParallel.
- The leaky bucket's sleep: its occupancy is modelled, its delay is that number times the leak rate.
- The rate limiter's `dispose` and the strategies' `clear`, and the cadence of the sweep.
- The responder's side of RPC (`respond`): a sequential handler around a reply.
- Single `publish`, delayed and fire-and-forget publishing, topology, cache, graceful shutdown and option validation.
- Linked lists or promises as objects: promises are the stage a caller waits in; objects stored in maps are values, so aliasing of a counter or bucket outside its map is not modelled.
- Connecting.RabbitMQConnection.DisconnectNow: one step, because `disconnect` is assumed not to overlap a dial.
- ConsumerManagement.ConsumerManager.DropAfterDrain: does not model terminating the worker pool, disposing the sequential processor and releasing the dedicated channel, which touch neither map.
- ConsumerManagement.ConsumerManager.DisposeEverything: does not model terminating the worker pools and disposing the sequential processors.
- Facade.RabbitMQ.HandleDisconnected: does not model the RPC rejection of the same handler, which is RemoteCalls.Rpc.HandleConnectionLoss.
- Facade.RabbitMQ.DisconnectAll: is the pool and the connection only; disposing consumers and rejecting RPC requests are DisposeEverything and HandleConnectionLoss.
- SequentialOrderLoss.OrderLostExactly: its converse half is not stated for a dependency parked at the same clock value as the delivery or later, where no sweep separates the two; that order holds without an open loop is proved for it too (SequentialOrder.RunOrders).
- SequentialLifecycle.ChainOrder: says nothing of a chain one of whose ids had another delivery that succeeded, since that success may release the next link.
- ConsumerManagement.ConsumerManager.WatchedChannelClosed: does not model a pool that is closed but still installed, as during an explicit disconnect, nor disposing the sequential processor.
- Rounding: `RateSpec` computes with exact reals, so a drift of the running total by floating point is not modelled.
