/** When a pool becomes ready, and what it does with each answer, loss and close. */
module ChannelPoolAnswers {
  import opened Wrappers
  import opened ChannelPoolSpec
  import opened ChannelPoolProperties

  // At position `j` of the run, the first open of the slot was answered so.
  ghost predicate FirstAnswer(size: nat, events: seq<Event>, j: int, slot: nat, answer: Option<Channel>) {
    0 <= j < |events| && events[j] == FirstOpenAnswered(slot, answer) && Enabled(Run(size, events[..j]), events[j])
  }

  ghost predicate WasRefused(size: nat, events: seq<Event>, slot: nat) {
    exists j :: FirstAnswer(size, events, j, slot, None)
  }

  ghost predicate WasAnswered(size: nat, events: seq<Event>, slot: nat) {
    exists j, answer :: FirstAnswer(size, events, j, slot, answer)
  }

  /** What an initialising pool remembers is what its run was answered. */
  ghost predicate Remembers(size: nat, events: seq<Event>) {
    var s := Run(size, events);
    (s.phase.New? ==> forall slot: nat :: !WasAnswered(size, events, slot)) &&
    (s.phase.Initializing? ==>
      forall slot: nat ::
        (slot in s.phase.failed <==> WasRefused(size, events, slot)) &&
        (slot < size <==> slot in s.opening || WasAnswered(size, events, slot)))
  }

  lemma {:induction false} AnswerGrows(
    size: nat, events: seq<Event>, e: Event, j: int, slot: nat, answer: Option<Channel>)
    ensures FirstAnswer(size, events + [e], j, slot, answer) <==>
              FirstAnswer(size, events, j, slot, answer) ||
              (j == |events| && e == FirstOpenAnswered(slot, answer) && Enabled(Run(size, events), e))
  {
    var all := events + [e];
    if 0 <= j < |events| { assert all[..j] == events[..j]; }
    if j == |events| { assert all[..j] == events; }
  }

  lemma {:induction false} AnsweredGrows(size: nat, events: seq<Event>, e: Event, slot: nat)
    ensures WasAnswered(size, events + [e], slot) <==>
              WasAnswered(size, events, slot) ||
              (e.FirstOpenAnswered? && e.slot == slot && Enabled(Run(size, events), e))
    ensures WasRefused(size, events + [e], slot) <==>
              WasRefused(size, events, slot) ||
              (e == FirstOpenAnswered(slot, None) && Enabled(Run(size, events), e))
  {
    var all := events + [e];
    forall j, answer
      ensures FirstAnswer(size, all, j, slot, answer) <==>
                FirstAnswer(size, events, j, slot, answer) ||
                (j == |events| && e == FirstOpenAnswered(slot, answer) && Enabled(Run(size, events), e))
    {
      AnswerGrows(size, events, e, j, slot, answer);
    }
    if e.FirstOpenAnswered? && e.slot == slot && Enabled(Run(size, events), e) {
      assert FirstAnswer(size, all, |events|, slot, e.answer);
    }
  }

  lemma {:induction false} StepRemembers(size: nat, events: seq<Event>, e: Event)
    requires Remembers(size, events) && Inv(Run(size, events)) && Run(size, events).size == size
    ensures Remembers(size, events + [e])
  {
    var s := Run(size, events);
    assert (events + [e])[..|events|] == events;
    forall slot: nat
      ensures WasAnswered(size, events + [e], slot) <==>
                WasAnswered(size, events, slot) || (e.FirstOpenAnswered? && e.slot == slot && Enabled(s, e))
      ensures WasRefused(size, events + [e], slot) <==>
                WasRefused(size, events, slot) || (e == FirstOpenAnswered(slot, None) && Enabled(s, e))
    {
      AnsweredGrows(size, events, e, slot);
    }
    forall slot: nat
      ensures WasRefused(size, events, slot) ==> WasAnswered(size, events, slot)
    {
      if j :| FirstAnswer(size, events, j, slot, None) { assert WasAnswered(size, events, slot); }
    }
  }

  lemma {:induction false} SizeStays(size: nat, events: seq<Event>)
    ensures Run(size, events).size == size
  {
    if events != [] { SizeStays(size, events[..|events| - 1]); }
  }

  lemma {:induction false} RunRemembers(size: nat, events: seq<Event>)
    ensures Remembers(size, events)
  {
    if events != [] {
      var before := events[..|events| - 1];
      RunRemembers(size, before);
      RunKeeps(size, before);
      SizeStays(size, before);
      StepRemembers(size, before, events[|events| - 1]);
      assert before + [events[|events| - 1]] == events;
    }
  }

  /** Once every first open has answered, the pool is ready and open exactly when all of them
      brought a channel, and refused and closed exactly when one did not. */
  lemma {:induction false} InitializeSettlesExactly(size: nat, events: seq<Event>)
    requires Enabled(Run(size, events), InitializeSettles)
    ensures var t := Step(Run(size, events), InitializeSettles);
            (t.phase.Ready? && !t.closed <==> forall slot: nat :: !WasRefused(size, events, slot)) &&
            (t.phase.Refused? && t.closed <==> exists slot: nat :: WasRefused(size, events, slot)) &&
            (t.phase.Ready? || t.phase.Refused?)
    ensures forall slot: nat :: slot < size <==> WasAnswered(size, events, slot)
  {
    var s := Run(size, events);
    RunRemembers(size, events);
    RunKeeps(size, events);
    assert forall slot: nat :: slot in s.phase.failed <==> WasRefused(size, events, slot);
    if s.phase.failed != {} {
      var slot :| slot in s.phase.failed;
      assert WasRefused(size, events, slot);
    }
  }

  // ---------- placed ----------

  // The slot's first open brought a channel, which went to the slot.
  ghost predicate PlacedAt(size: nat, events: seq<Event>, slot: nat, j: int, c: Channel) {
    FirstAnswer(size, events, j, slot, Some(c)) &&
    (var t := Run(size, events[..j + 1]); slot < |t.channels| && t.channels[slot] == Some(c) && c in t.live)
  }

  ghost predicate WasPlaced(size: nat, events: seq<Event>, slot: nat) {
    exists j, c: Channel :: PlacedAt(size, events, slot, j, c)
  }

  lemma {:induction false} AnswerPlaces(s: State, slot: nat, c: Channel)
    requires Inv(s) && Enabled(s, FirstOpenAnswered(slot, Some(c)))
    ensures var t := Step(s, FirstOpenAnswered(slot, Some(c)));
            slot < |t.channels| && t.channels[slot] == Some(c) && c in t.live && slot !in t.opening
  {
  }

  /** In a pool that becomes ready every slot had its first channel placed. */
  lemma {:induction false} ReadyIsFilled(size: nat, events: seq<Event>, slot: nat)
    requires Enabled(Run(size, events), InitializeSettles) && slot < size
    requires Step(Run(size, events), InitializeSettles).phase.Ready?
    ensures WasPlaced(size, events, slot)
  {
    InitializeSettlesExactly(size, events);
    assert WasAnswered(size, events, slot) && !WasRefused(size, events, slot);
    var j, answer :| FirstAnswer(size, events, j, slot, answer);
    assert answer.Some?;
    RunKeeps(size, events[..j]);
    assert events[..j + 1][..j] == events[..j];
    AnswerPlaces(Run(size, events[..j]), slot, answer.value);
    assert PlacedAt(size, events, slot, j, answer.value);
  }

  // ---------- each event ----------

  /** `initialize` opens every slot at once. */
  lemma {:induction false} InitializeOpensAll(s: State)
    requires s.phase.New?
    ensures var t := Step(s, Initialize);
            t.phase == Initializing({}) && !t.closed && forall slot: nat :: slot in t.opening <==> slot < s.size
  {
  }

  /** A channel that dies leaves its slot to one new loop, exactly when it still holds the slot
      of an open pool. */
  lemma {:induction false} LossIsReplaced(s: State, c: Channel)
    requires Inv(s) && c in s.live
    ensures var t, slot := Step(s, ChannelDies(c)), s.home[c];
            c !in t.live &&
            if !s.closed then
              t.loops == s.loops + [Loop(slot, 1, Dialing)] && t.channels == s.channels[slot := None]
            else t.loops == s.loops && t.channels == s.channels
  {
    assert c in s.home;
  }

  /** A loop takes the channel it is answered, in an open pool into its slot, and sleeps
      without one; awake, it dials again five times in all, while the pool is open. */
  lemma {:induction false} LoopGoesOn(s: State, n: nat, c: Channel)
    requires Inv(s) && n < |s.loops|
    ensures var t, l := Step(s, LoopOpenAnswered(n, Some(c))), s.loops[n];
            l.stage.Dialing? && c !in s.home ==>
              t.loops[n].stage == Opened(c) && c in t.live &&
              (if s.closed then t.channels == s.channels else Occupant(t, l.slot) == Some(c))
    ensures s.loops[n].stage.Dialing? ==> Step(s, LoopOpenAnswered(n, None)).loops[n].stage == Sleeping
    ensures var t, l := Step(s, LoopWakes(n)), s.loops[n];
            l.stage.Sleeping? ==>
              t.loops[n] == if s.closed then l.(stage := Done)
                            else if l.attempt < 5 then Loop(l.slot, l.attempt + 1, Dialing) else l.(stage := Exhausted)
    ensures var t, l := Step(s, LoopChecks(n)), s.loops[n];
            l.stage.Opened? ==>
              t.loops[n].stage == Done && t.channels == s.channels && t.live == s.live &&
              t.closeRequested == if s.closed then s.closeRequested + {l.stage.channel} else s.closeRequested
  {
  }

  /** A pool once closed and emptied is never opened or filled again. */
  lemma {:induction false} ClosedStaysEmpty(s: State, e: Event)
    requires Inv(s) && s.closed && s.channels == []
    ensures Step(s, e).closed && Step(s, e).channels == []
  {
  }

  /** `close` closes the pool, asks exactly its occupants to close, and empties it. */
  lemma {:induction false} CloseCloses(s: State)
    requires s.phase.Ready?
    ensures var t := Step(s, Close);
            t.closed && t.channels == s.channels &&
            (forall c :: c in t.closeRequested <==> c in s.closeRequested || Some(c) in s.channels) &&
            Step(t, CloseEnds).channels == []
  {
    var t := Step(s, Close);
    forall c
      ensures c in t.closeRequested <==> c in s.closeRequested || Some(c) in s.channels
    {
      if Some(c) in s.channels {
        var i :| 0 <= i < |s.channels| && s.channels[i] == Some(c);
        assert c in Occupants(s);
      }
    }
  }
}
