/** What the consumer manager does with each answer, stated on its maps, setups and loops: whose
    tags go, which setups begin and succeed, which loops begin, go on and stop. */
module ConsumerAnswers {
  import opened Wrappers
  import opened ConsumerSpec
  import opened ConsumerLifecycle
  import opened ConsumerRecovery
  import opened ConsumerFencing

  // ---------- tags ----------

  /** A drop takes exactly the consumer and its own tags. */
  lemma {:induction false} DropTakesItsOwn(s: State, c: ConsumerId)
    requires Linked(s) && c in s.dropping
    ensures var t := Step(s, Drained(c));
            (forall tag :: tag in t.tags <==> tag in s.tags && s.tags[tag] != c) &&
            (forall tag :: tag in t.tags ==> t.tags[tag] == s.tags[tag]) &&
            t.active == s.active - {c} && t.infos == s.infos
  {
  }

  // The event takes the tag away from its consumer, or gives it to another setup.
  predicate Takes(e: Event, tag: Tag, c: ConsumerId) {
    e == Drained(c) || e.DisposeAll? || (e.ConsumeAnswered? && e.answer == Some(tag))
  }

  lemma {:induction false} StepKeepsTag(s: State, e: Event, tag: Tag)
    requires Linked(s) && tag in s.tags && !Takes(e, tag, s.tags[tag])
    ensures tag in Step(s, e).tags && Step(s, e).tags[tag] == s.tags[tag]
  {
    if e.RecreateAll? { RecreateEachFrame(s, e.order); }
  }

  predicate LeadsTo(s: State, tag: Tag, c: ConsumerId) {
    tag in s.tags && s.tags[tag] == c
  }

  lemma {:induction false} LeadsOn(before: seq<Event>, e: Event, tag: Tag, c: ConsumerId)
    requires LeadsTo(Run(INIT, before), tag, c) && !Takes(e, tag, c)
    ensures LeadsTo(Run(INIT, before + [e]), tag, c)
  {
    RunNext(before, e);
    RunLinks(before);
    StepKeepsTag(Run(INIT, before), e, tag);
  }

  /** A registered tag leads to its consumer until that consumer is drained, everything is
      disposed of, or the broker hands out the same tag again. */
  lemma {:induction false} TagLeadsOn(before: seq<Event>, more: seq<Event>, tag: Tag, c: ConsumerId)
    requires LeadsTo(Run(INIT, before), tag, c) && forall e :: e in more ==> !Takes(e, tag, c)
    ensures LeadsTo(Run(INIT, before + more), tag, c)
    decreases |more|
  {
    if more == [] {
      assert before + more == before;
    } else {
      var rest, last := more[..|more| - 1], more[|more| - 1];
      assert last in more && forall e :: e in rest ==> e in more;
      TagLeadsOn(before, rest, tag, c);
      LeadsOn(before + rest, last, tag, c);
      assert before + rest + [last] == before + more;
    }
  }

  // ---------- setups ----------

  /** How a setup goes on: without a pool it fails at once; for a consumer that is registered
      and not cancelled every good answer takes it on, and the last one registers the tag. */
  lemma {:induction false} SetupGoesOn(s: State, e: Event)
    requires Linked(s) && Enabled(s, e) && (e.ChannelAnswered? || e.PrefetchAnswered? || e.ConsumeAnswered?)
    ensures var t, c, stage := Step(s, e), s.setups[e.setup].consumer, Step(s, e).setups[e.setup].stage;
            var live := c in s.active && !s.infos[c].cancelled;
            |t.setups| == |s.setups| &&
            (e.ChannelAnswered? ==>
              stage == if e.ok && live then (if s.infos[c].noAck then Consuming else Prefetching) else Failed) &&
            (e.PrefetchAnswered? ==> stage == if e.ok then Consuming else Failed) &&
            (e.ConsumeAnswered? ==>
              stage == (if e.answer.Some? && live then Succeeded else Failed) &&
              (t.tags == if e.answer.Some? && live then s.tags[e.answer.value := c] else s.tags) &&
              (stage == Succeeded ==> t.infos[c].watched))
  {
  }

  // The setups of one consumer.
  function SetupsOf(setups: seq<Setup>, c: ConsumerId): nat {
    if setups == [] then 0
    else SetupsOf(setups[..|setups| - 1], c) + (if setups[|setups| - 1].consumer == c then 1 else 0)
  }

  lemma {:induction false} OneMoreSetup(s: State, c: ConsumerId, owner: Owner, d: ConsumerId)
    requires c in s.infos
    ensures SetupsOf(RunSetup(s, c, owner).setups, d) == SetupsOf(s.setups, d) + (if c == d then 1 else 0)
  {
    var t := RunSetup(s, c, owner);
    assert t.setups[..|t.setups| - 1] == s.setups;
  }

  lemma {:induction false} RecreateEachCounts(s: State, order: seq<ConsumerId>, d: ConsumerId)
    requires forall i, j :: 0 <= i < j < |order| ==> order[i] != order[j]
    requires forall c :: c in order ==> c in s.infos
    ensures var t := RecreateEach(s, order);
            t.infos.Keys == s.infos.Keys &&
            SetupsOf(t.setups, d) == SetupsOf(s.setups, d) + (if d in order then 1 else 0)
  {
    if order != [] {
      var rest, last := order[..|order| - 1], order[|order| - 1];
      assert order == rest + [last];
      RecreateEachCounts(s, rest, d);
      OneMoreSetup(RecreateEach(s, rest), last, Recreation, d);
    }
  }

  /** `recreateAll` begins exactly one setup for every registered consumer, and none else. */
  lemma {:induction false} RecreatesEveryoneOnce(s: State, order: seq<ConsumerId>, d: ConsumerId)
    requires Linked(s) && Enabled(s, RecreateAll(order))
    ensures SetupsOf(Step(s, RecreateAll(order)).setups, d) == SetupsOf(s.setups, d) + (if d in s.active then 1 else 0)
  {
    RecreateEachCounts(s, order, d);
  }

  /** A subscription registers its consumer, not cancelled, with a setup that awaits a channel,
      or has failed if there is no pool; when that setup fails the registration is undone. */
  lemma {:induction false} SubscriptionBegins(s: State, c: ConsumerId, noAck: bool)
    requires Linked(s) && c !in s.infos
    ensures var t := Step(s, Subscribe(c, noAck));
            c in t.active && !t.infos[c].cancelled && t.tags == s.tags && |t.setups| == |s.setups| + 1 &&
            t.setups[|s.setups|] == Setup(c, Subscription, 1, if s.pool.Some? then Opening else Failed)
    ensures var t := Step(s, Subscribe(c, noAck));
            s.pool.None? ==> c in Step(t, SubscriptionFailed(|s.setups|)).dropping
  {
    StepLinks(s, Subscribe(c, noAck));
  }

  // ---------- leaving ----------

  /** Whoever is cancelled and still registered is on its way out: an `unsubscribe` or a drop
      of it is running. */
  ghost predicate CancelledLeaves(s: State) {
    forall c :: c in s.active && c in s.infos && s.infos[c].cancelled ==> c in s.unsubscribing || c in s.dropping
  }

  lemma {:induction false} StepLeaves(s: State, e: Event)
    requires Linked(s) && CancelledLeaves(s)
    ensures CancelledLeaves(Step(s, e))
  {
    if e.RecreateAll? { RecreateEachFrame(s, e.order); }
    else if OfSetup(e) { SetupLeaves(s, e); }
    else if OfRecovery(e) { RecoveryLeaves(s, e); }
  }

  lemma {:induction false} SetupLeaves(s: State, e: Event)
    requires Linked(s) && CancelledLeaves(s) && OfSetup(e)
    ensures CancelledLeaves(Step(s, e))
  {
  }

  lemma {:induction false} RecoveryLeaves(s: State, e: Event)
    requires Linked(s) && CancelledLeaves(s) && OfRecovery(e)
    ensures CancelledLeaves(Step(s, e))
  {
  }

  /** Over every run: nobody stays registered and cancelled with no call left to remove it. */
  lemma {:induction false} RunLeaves(events: seq<Event>)
    ensures CancelledLeaves(Run(INIT, events))
  {
    if events != [] {
      RunLeaves(events[..|events| - 1]);
      RunLinks(events[..|events| - 1]);
      StepLeaves(Run(INIT, events[..|events| - 1]), events[|events| - 1]);
    }
  }

  /** `unsubscribe` with a registered tag ends, after the broker's cancel and the drain, with
      the consumer and all its tags gone and every other tag in place. */
  lemma {:induction false} UnsubscribeRemoves(s: State, tag: Tag)
    requires Linked(s) && tag in s.tags
    ensures var c := s.tags[tag];
            var t := Step(Step(Step(s, Unsubscribe(tag)), CancelAnswered(c)), Drained(c));
            c !in t.active && tag !in t.tags && t.infos[c].cancelled &&
            forall other :: other in t.tags <==> other in s.tags && s.tags[other] != c
  {
    var c := s.tags[tag];
    StepLinks(s, Unsubscribe(tag));
    StepLinks(Step(s, Unsubscribe(tag)), CancelAnswered(c));
    DropTakesItsOwn(Step(Step(s, Unsubscribe(tag)), CancelAnswered(c)), c);
  }

  /** `disposeAll` leaves nothing registered, and cancels exactly who was. */
  lemma {:induction false} DisposeEndsAll(s: State)
    requires Linked(s)
    ensures var t := Step(s, DisposeAll);
            t.active == {} && t.tags == map[] && t.infos.Keys == s.infos.Keys &&
            forall c :: c in s.infos ==>
              t.infos[c] == if c in s.active then s.infos[c].(cancelled := true) else s.infos[c]
  {
  }

  // ---------- recovery ----------

  /** A broker's cancel begins a loop exactly for a consumer that is registered and not
      cancelled; a closed channel does only while a pool is installed. */
  lemma {:induction false} LossBeginsALoop(s: State, c: ConsumerId)
    requires Linked(s)
    ensures var t := Step(s, BrokerCancels(c));
            |t.loops| == |s.loops| + (if c in s.active && !s.infos[c].cancelled then 1 else 0)
    ensures var t := Step(s, ChannelCloses(c));
            c in s.infos && s.infos[c].watched ==>
              |t.loops| == |s.loops| + (if c in s.active && !s.infos[c].cancelled && s.pool.Some? then 1 else 0)
    ensures var t := Step(s, BrokerCancels(c));
            |t.loops| > |s.loops| ==>
              t.loops[|s.loops|] == Loop(c, s.pool, s.infos[c].epoch, s.infos[c].epoch, 0, Sleeping)
  {
  }

  /** A loop that wakes begins a setup exactly when its consumer is registered and not
      cancelled, the pool is the one it began on, and nobody else recreated the consumer. */
  lemma {:induction false} WakesExactly(s: State, n: nat)
    requires Linked(s) && n < |s.loops| && s.loops[n].phase.Sleeping?
    ensures var t, l := Step(s, LoopWakes(n)), s.loops[n];
            |t.setups| == |s.setups| + 1 <==>
              l.consumer in s.active && !s.infos[l.consumer].cancelled && s.pool == l.ownedPool &&
              s.infos[l.consumer].epoch == l.knownEpoch
    ensures var t := Step(s, LoopWakes(n));
            if |t.setups| == |s.setups| + 1 then
              t.loops[n].phase == Awaiting(|s.setups|) && t.setups[|s.setups|].owner == Recovery(n)
            else t.loops[n].phase == StoodDown && t.setups == s.setups
  {
  }

  /** After its setup a loop is done when that succeeded, sleeps for the next attempt while it
      has one left, and after the third gives up or stands down. */
  lemma {:induction false} ResumesExactly(s: State, n: nat)
    requires Fenced(s) && Enabled(s, LoopResumes(n))
    ensures var phase, l := Step(s, LoopResumes(n)).loops[n].phase, s.loops[n];
            (phase.Recovered? <==> s.setups[l.phase.setup].stage.Succeeded?) &&
            (phase.Sleeping? <==> s.setups[l.phase.setup].stage.Failed? && l.started < 3) &&
            (phase.GaveUp? ==> l.consumer in Step(s, LoopResumes(n)).dropping && l.started == 3)
  {
    assert LoopStamps(s, n);
  }
}
