/** The tag map never dangles, and a dropped consumer never comes back. */
module ConsumerLifecycle {
  import opened ConsumerSpec

  lemma {:induction false} RecreateEachFrame(s: State, order: seq<ConsumerId>)
    ensures var t := RecreateEach(s, order);
            t == s.(infos := t.infos, setups := t.setups) && t.infos.Keys == s.infos.Keys && s.setups <= t.setups
    ensures forall c :: c in s.infos ==> RecreateEach(s, order).infos[c].cancelled == s.infos[c].cancelled
    ensures forall i :: |s.setups| <= i < |RecreateEach(s, order).setups| ==>
              RecreateEach(s, order).setups[i].consumer in s.infos
  {
    if order != [] {
      RecreateEachFrame(s, order[..|order| - 1]);
    }
  }

  lemma {:induction false} LoopLinks(s: State, n: nat)
    requires Linked(s) && n < |s.loops|
    ensures Linked(WakeLoop(s, n))
    ensures s.loops[n].phase.Awaiting? && s.loops[n].phase.setup < |s.setups| ==> Linked(ResumeLoop(s, n))
  {
  }

  predicate OfSetup(e: Event) {
    e.Subscribe? || e.SubscriptionFailed? || e.ChannelAnswered? || e.PrefetchAnswered? || e.ConsumeAnswered?
  }

  lemma {:induction false} SetupLinks(s: State, e: Event)
    requires Linked(s) && Enabled(s, e) && OfSetup(e)
    ensures Linked(Apply(s, e))
  {
  }

  predicate OfRecovery(e: Event) {
    e.BrokerCancels? || e.ChannelCloses? || e.LoopWakes? || e.LoopResumes?
  }

  lemma {:induction false} RecoveryLinks(s: State, e: Event)
    requires Linked(s) && Enabled(s, e) && OfRecovery(e)
    ensures Linked(Apply(s, e))
  {
    match e
    case LoopWakes(n) => LoopLinks(s, n);
    case LoopResumes(n) => LoopLinks(s, n);
    case _ =>
  }

  lemma {:induction false} OtherLinks(s: State, e: Event)
    requires Linked(s) && Enabled(s, e) && !OfSetup(e) && !OfRecovery(e) && !e.RecreateAll?
    ensures Linked(Apply(s, e))
  {
  }

  /** The lookups by tag are safe: every step keeps every tag's consumer registered. */
  lemma {:induction false} StepLinks(s: State, e: Event)
    requires Linked(s)
    ensures Linked(Step(s, e))
  {
    if Enabled(s, e) {
      if e.RecreateAll? { RecreateEachFrame(s, e.order); }
      else if OfSetup(e) { SetupLinks(s, e); }
      else if OfRecovery(e) { RecoveryLinks(s, e); }
      else { OtherLinks(s, e); }
    }
  }

  lemma {:induction false} RunLinks(events: seq<Event>)
    ensures Linked(Run(INIT, events))
  {
    if events != [] {
      RunLinks(events[..|events| - 1]);
      StepLinks(Run(INIT, events[..|events| - 1]), events[|events| - 1]);
    }
  }

  /** Registered once, and no longer: dropped or disposed of. */
  predicate Gone(s: State, c: ConsumerId) {
    c in s.infos && c !in s.active
  }

  lemma {:induction false} StepKeepsGone(s: State, e: Event, c: ConsumerId)
    requires Linked(s) && Gone(s, c)
    ensures Gone(Step(s, e), c)
  {
    if e.RecreateAll? {
      RecreateEachFrame(s, e.order);
    }
  }

  lemma {:induction false} StaysGone(before: seq<Event>, e: Event, c: ConsumerId)
    requires Gone(Run(INIT, before), c)
    ensures Gone(Run(INIT, before + [e]), c)
  {
    assert (before + [e])[..|before|] == before;
    RunLinks(before);
    StepKeepsGone(Run(INIT, before), e, c);
  }

  lemma {:induction false} NoTagOfGone(s: State, c: ConsumerId)
    requires Linked(s) && Gone(s, c)
    ensures forall t :: t in s.tags ==> s.tags[t] != c
  {
  }

  /** Once a consumer is dropped, none of its tags is registered again: in every later
      state of the run it is unknown to both maps, whatever setups were in flight. */
  lemma {:induction false} DroppedForGood(before: seq<Event>, after: seq<Event>, c: ConsumerId)
    requires Gone(Run(INIT, before), c)
    ensures Gone(Run(INIT, before + after), c)
    ensures forall t :: t in Run(INIT, before + after).tags ==> Run(INIT, before + after).tags[t] != c
    decreases |after|
  {
    if after == [] {
      assert before + after == before;
    } else {
      var rest, last := after[..|after| - 1], after[|after| - 1];
      DroppedForGood(before, rest, c);
      StaysGone(before + rest, last, c);
      assert before + rest + [last] == before + after;
    }
    RunLinks(before + after);
    NoTagOfGone(Run(INIT, before + after), c);
  }
}
