/** What every run keeps of the pool's slots, and that no channel is left open behind. */
module ChannelPoolProperties {
  import opened Wrappers
  import opened ChannelPoolSpec

  // A loop that has not ended: it may still fill its slot, or has run out of attempts.
  predicate Active(l: Loop) {
    l.stage.Dialing? || l.stage.Sleeping? || l.stage.Exhausted?
  }

  predicate CanDial(l: Loop) {
    l.stage.Dialing? || (l.stage.Sleeping? && l.attempt < MAX_REPLACE_ATTEMPTS)
  }

  predicate OutOfAttempts(l: Loop) {
    l.stage.Exhausted? || (l.stage.Sleeping? && l.attempt == MAX_REPLACE_ATTEMPTS)
  }

  predicate ActiveFor(s: State, n: nat, slot: nat) {
    n < |s.loops| && s.loops[n].slot == slot && Active(s.loops[n])
  }

  // Slots still waiting for their first channel, or refused one.
  predicate NeverFilled(s: State, slot: nat) {
    slot in s.opening || (s.phase.Initializing? && slot in s.phase.failed) || s.phase.New?
  }

  ghost predicate LoopsBounded(s: State) {
    forall n :: 0 <= n < |s.loops| ==>
      s.loops[n].slot < s.size && 1 <= s.loops[n].attempt <= MAX_REPLACE_ATTEMPTS &&
      (s.loops[n].stage.Opened? ==> s.loops[n].stage.channel in s.home) &&
      (s.loops[n].stage.Exhausted? ==> s.loops[n].attempt == MAX_REPLACE_ATTEMPTS)
  }

  /** At most one loop works on a slot, and only while the slot is empty. */
  ghost predicate OneLoop(s: State) {
    && (forall m: nat, n: nat, slot: nat :: ActiveFor(s, m, slot) && ActiveFor(s, n, slot) ==> m == n)
    && (!s.closed ==> forall n: nat, slot: nat :: ActiveFor(s, n, slot) ==> Occupant(s, slot).None?)
    && (!s.closed ==> forall n: nat, slot: nat :: ActiveFor(s, n, slot) ==> !NeverFilled(s, slot))
  }

  /** In an open pool every occupant is live and at home, and every live channel is an
      occupant. */
  ghost predicate Housed(s: State) {
    && s.live <= s.home.Keys
    && (!s.closed ==> |s.channels| <= s.size)
    && (!s.closed ==> forall slot: nat :: Occupant(s, slot).Some? ==>
          var c := Occupant(s, slot).value; c in s.live && s.home[c] == slot)
    && (!s.closed ==> forall c :: c in s.live ==> Occupant(s, s.home[c]) == Some(c))
    && (!s.closed ==> forall slot: nat :: NeverFilled(s, slot) ==> Occupant(s, slot).None?)
  }

  // Every slot that had its first channel is occupied or has its loop.
  ghost predicate Served(s: State) {
    !s.closed ==> forall slot: nat :: slot < s.size && !NeverFilled(s, slot) ==>
      Occupant(s, slot).Some? || exists n: nat :: ActiveFor(s, n, slot)
  }

  /** In a closed pool every channel still open has been asked to close, or is in the hands
      of a loop that is about to close it. */
  ghost predicate ClosingAll(s: State) {
    s.closed ==> forall c :: c in s.live ==>
      c in s.closeRequested || exists n :: 0 <= n < |s.loops| && s.loops[n].stage == Opened(c)
  }

  ghost predicate Phases(s: State) {
    && (forall i :: i in s.opening ==> s.phase.Initializing? && i < s.size)
    && (s.phase.Refused? ==> s.closed)
    && (s.phase.New? ==> s.channels == [] && s.loops == [] && s.live == {} && !s.closed)
    && (s.phase.Initializing? ==> !s.closed && s.opening !! s.phase.failed)
  }

  ghost predicate Inv(s: State) {
    LoopsBounded(s) && OneLoop(s) && Housed(s) && Served(s) && ClosingAll(s) && Phases(s)
  }

  lemma {:induction false} InitHolds(size: nat)
    ensures Inv(Init(size))
  {
  }

  lemma {:induction false} InitializeKeeps(s: State)
    requires Inv(s) && s.phase.New?
    ensures Inv(Step(s, Initialize))
  {
  }

  lemma {:induction false} FirstOpenKeeps(s: State, slot: nat, answer: Option<Channel>)
    requires Inv(s) && Enabled(s, FirstOpenAnswered(slot, answer))
    ensures Inv(Step(s, FirstOpenAnswered(slot, answer)))
  {
    var t := Step(s, FirstOpenAnswered(slot, answer));
    assert forall n: nat, i: nat :: ActiveFor(t, n, i) == ActiveFor(s, n, i);
    assert forall i: nat :: i != slot ==> NeverFilled(t, i) == NeverFilled(s, i) && Occupant(t, i) == Occupant(s, i);
    assert NeverFilled(s, slot);
  }

  lemma {:induction false} SettlesKeeps(s: State)
    requires Inv(s) && Enabled(s, InitializeSettles)
    ensures Inv(Step(s, InitializeSettles))
  {
    var t := Step(s, InitializeSettles);
    assert forall n: nat, i: nat :: ActiveFor(t, n, i) == ActiveFor(s, n, i);
    assert forall i: nat :: Occupant(t, i) == Occupant(s, i);
    if s.phase.failed == {} {
      assert forall i: nat :: NeverFilled(t, i) == NeverFilled(s, i);
    } else {
      OccupantsAreLive(s);
    }
  }

  lemma {:induction false} OccupantsAreLive(s: State)
    requires Inv(s) && !s.closed
    ensures s.live <= Occupants(s)
  {
    forall c | c in s.live ensures c in Occupants(s) {
      assert Occupant(s, s.home[c]) == Some(c);
    }
  }

  lemma {:induction false} DieKeeps(s: State, c: Channel)
    requires Inv(s) && c in s.live && c in s.home
    ensures Inv(Die(s, c))
  {
    var t, slot := Die(s, c), s.home[c];
    assert forall i: nat :: NeverFilled(t, i) == NeverFilled(s, i);
    if s.closed {
      assert forall n: nat, i: nat :: ActiveFor(t, n, i) == ActiveFor(s, n, i);
    } else {
      assert Occupant(s, slot) == Some(c);
      assert forall i: nat :: i != slot ==> Occupant(t, i) == Occupant(s, i);
      assert forall n: nat, i: nat :: ActiveFor(t, n, i) <==> ActiveFor(s, n, i) || (n == |s.loops| && i == slot);
      assert ActiveFor(t, |s.loops|, slot);
    }
  }

  lemma {:induction false} AnswerKeeps(s: State, n: nat, answer: Option<Channel>)
    requires Inv(s) && Enabled(s, LoopOpenAnswered(n, answer))
    ensures Inv(AnswerLoop(s, n, answer))
  {
    var t, slot := AnswerLoop(s, n, answer), s.loops[n].slot;
    assert ActiveFor(s, n, slot);
    assert forall i: nat :: NeverFilled(t, i) == NeverFilled(s, i);
    assert forall i: nat :: i != slot ==> Occupant(t, i) == Occupant(s, i);
    if answer.None? {
      assert forall m: nat, i: nat :: ActiveFor(t, m, i) == ActiveFor(s, m, i);
    } else {
      assert forall m: nat, i: nat :: ActiveFor(t, m, i) == (ActiveFor(s, m, i) && m != n);
      assert t.loops[n].stage == Opened(answer.value);
    }
    KeepsClosing(s, t, n);
  }

  // Moving one loop that holds no channel does not lose sight of any channel.
  lemma {:induction false} KeepsClosing(s: State, t: State, n: nat)
    requires ClosingAll(s) && n < |s.loops| && |t.loops| == |s.loops| && t.closed == s.closed
    requires forall m :: 0 <= m < |s.loops| && m != n ==> t.loops[m] == s.loops[m]
    requires s.loops[n].stage.Opened? ==> s.closed ==> s.loops[n].stage.channel in t.closeRequested
    requires s.closeRequested <= t.closeRequested
    requires forall c :: c in t.live ==> c in s.live || t.loops[n].stage == Opened(c)
    ensures ClosingAll(t)
  {
    if t.closed {
      forall c | c in t.live && c !in t.closeRequested
        ensures exists m :: 0 <= m < |t.loops| && t.loops[m].stage == Opened(c)
      {
        if t.loops[n].stage != Opened(c) {
          var m :| 0 <= m < |s.loops| && s.loops[m].stage == Opened(c);
          assert t.loops[m].stage == Opened(c);
        }
      }
    }
  }

  lemma {:induction false} CheckKeeps(s: State, n: nat)
    requires Inv(s) && n < |s.loops| && s.loops[n].stage.Opened?
    ensures Inv(CheckLoop(s, n))
  {
    var t := CheckLoop(s, n);
    assert forall i: nat :: NeverFilled(t, i) == NeverFilled(s, i) && Occupant(t, i) == Occupant(s, i);
    assert forall m: nat, i: nat :: ActiveFor(t, m, i) == ActiveFor(s, m, i);
    KeepsClosing(s, t, n);
  }

  lemma {:induction false} WakeKeeps(s: State, n: nat)
    requires Inv(s) && n < |s.loops| && s.loops[n].stage.Sleeping?
    ensures Inv(WakeLoop(s, n))
  {
    var t := WakeLoop(s, n);
    assert forall i: nat :: NeverFilled(t, i) == NeverFilled(s, i) && Occupant(t, i) == Occupant(s, i);
    if s.closed {
      assert forall m: nat, i: nat :: ActiveFor(t, m, i) == (ActiveFor(s, m, i) && m != n);
    } else {
      assert forall m: nat, i: nat :: ActiveFor(t, m, i) == ActiveFor(s, m, i);
    }
    KeepsClosing(s, t, n);
  }

  lemma {:induction false} CloseKeeps(s: State)
    requires Inv(s) && s.phase.Ready?
    ensures Inv(BeginClose(s))
  {
    var t := BeginClose(s);
    assert forall m: nat, i: nat :: ActiveFor(t, m, i) == ActiveFor(s, m, i);
    if !s.closed { OccupantsAreLive(s); }
  }

  lemma {:induction false} CloseEndsKeeps(s: State)
    requires Inv(s) && s.closed
    ensures Inv(s.(channels := []))
  {
    var t := s.(channels := []);
    assert forall m: nat, i: nat :: ActiveFor(t, m, i) == ActiveFor(s, m, i);
  }

  lemma {:induction false} StepKeeps(s: State, e: Event)
    requires Inv(s)
    ensures Inv(Step(s, e))
  {
    if Enabled(s, e) {
      match e
      case Initialize => InitializeKeeps(s);
      case FirstOpenAnswered(slot, answer) => FirstOpenKeeps(s, slot, answer);
      case InitializeSettles => SettlesKeeps(s);
      case ChannelDies(c) => DieKeeps(s, c);
      case LoopOpenAnswered(n, answer) => AnswerKeeps(s, n, answer);
      case LoopChecks(n) => CheckKeeps(s, n);
      case LoopWakes(n) => WakeKeeps(s, n);
      case Close => CloseKeeps(s);
      case CloseEnds => CloseEndsKeeps(s);
    }
  }

  lemma {:induction false} RunKeeps(size: nat, events: seq<Event>)
    ensures Inv(Run(size, events))
  {
    if events == [] {
      InitHolds(size);
    } else {
      RunKeeps(size, events[..|events| - 1]);
      StepKeeps(Run(size, events[..|events| - 1]), events[|events| - 1]);
    }
  }

  /** In an open, initialised pool each slot has a live occupant, or exactly one loop that
      can still dial, or exactly one that is out of attempts; never two loops. */
  lemma {:induction false} EverySlotIsServed(size: nat, events: seq<Event>, slot: nat)
    requires var s := Run(size, events); s.phase.Ready? && !s.closed && slot < s.size
    ensures var s := Run(size, events);
            (Occupant(s, slot).Some? && Occupant(s, slot).value in s.live && forall n: nat :: !ActiveFor(s, n, slot)) ||
            (Occupant(s, slot).None? && exists n: nat ::
               ActiveFor(s, n, slot) && (CanDial(s.loops[n]) || OutOfAttempts(s.loops[n])) &&
               forall m: nat :: ActiveFor(s, m, slot) ==> m == n)
  {
    RunKeeps(size, events);
    var s := Run(size, events);
    assert !NeverFilled(s, slot);
    if Occupant(s, slot).None? {
      var n: nat :| ActiveFor(s, n, slot);
      assert CanDial(s.loops[n]) || OutOfAttempts(s.loops[n]);
    }
  }

  // The channels lost in a run, and the opens that loop `n` had answered.
  ghost function Losses(size: nat, events: seq<Event>): nat {
    if events == [] then 0
    else
      var before, e := events[..|events| - 1], events[|events| - 1];
      Losses(size, before) + (if e.ChannelDies? && Enabled(Run(size, before), e) then 1 else 0)
  }

  ghost function Opens(size: nat, events: seq<Event>, n: nat): nat {
    if events == [] then 0
    else
      var before, e := events[..|events| - 1], events[|events| - 1];
      Opens(size, before, n) + (if e.LoopOpenAnswered? && e.loop == n && Enabled(Run(size, before), e) then 1 else 0)
  }

  // The opens a loop asked for, less the one it still awaits.
  function Answered(s: State, n: nat): int {
    if n < |s.loops| then s.loops[n].attempt - (if s.loops[n].stage.Dialing? then 1 else 0) else 0
  }

  lemma {:induction false} StepAnswers(s: State, e: Event, n: nat)
    ensures Answered(Step(s, e), n)
         == Answered(s, n) + (if e.LoopOpenAnswered? && e.loop == n && Enabled(s, e) then 1 else 0)
    ensures |Step(s, e).loops| <= |s.loops| + (if e.ChannelDies? && Enabled(s, e) then 1 else 0)
  {
  }

  lemma {:induction false} OpensCounted(size: nat, events: seq<Event>, n: nat)
    ensures Opens(size, events, n) == Answered(Run(size, events), n)
    ensures |Run(size, events).loops| <= Losses(size, events)
  {
    if events != [] {
      OpensCounted(size, events[..|events| - 1], n);
      StepAnswers(Run(size, events[..|events| - 1]), events[|events| - 1], n);
    }
  }

  /** One loss costs at most five opens: there are no more replacement loops than channels
      lost, and of the opens made for any one loop at most five are ever answered. */
  lemma {:induction false} OpensPerLoss(size: nat, events: seq<Event>, n: nat)
    ensures |Run(size, events).loops| <= Losses(size, events)
    ensures Opens(size, events, n) <= MAX_REPLACE_ATTEMPTS
    ensures n >= |Run(size, events).loops| ==> Opens(size, events, n) == 0
  {
    OpensCounted(size, events, n);
    RunKeeps(size, events);
  }

  /** After close, or after an initialize that was refused, no channel opened for a slot is
      left behind, however late it was opened: once no loop is mid-dial, each one is dead or
      has been asked to close. */
  lemma {:induction false} NothingLeaks(size: nat, events: seq<Event>, c: Channel)
    requires var s := Run(size, events);
             (s.closed || s.phase.Refused?) && c in s.home &&
             forall n :: 0 <= n < |s.loops| ==> !s.loops[n].stage.Opened? && !s.loops[n].stage.Dialing?
    ensures c !in Run(size, events).live || c in Run(size, events).closeRequested
  {
    RunKeeps(size, events);
  }
}
