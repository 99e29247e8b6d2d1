/** Reconnection never stalls, keeps to its budget, and tries every endpoint once. */
module ConnectionProperties {
  import opened Wrappers
  import opened ConnectionSpec
  import opened Modular

  /** While reconnecting, a retry timer is armed or a dial is in flight. */
  ghost predicate NeverStalls(s: State) {
    s.reconnecting ==> s.timer.Some? || s.dial.Some?
  }

  /** `attempt` counts the timer attempts since the last success, and stays in budget. */
  ghost predicate InBudget(config: Config, s: State) {
    config.maxAttempts.Some? ==>
      s.attempt <= config.maxAttempts.value && (s.timer.Some? ==> s.attempt < config.maxAttempts.value)
  }

  // The dial has tried the endpoints from its start onwards, one after another.
  ghost predicate Rotates(config: Config, d: Dial) {
    d.start < config.endpoints && |d.refused| <= config.endpoints &&
    forall i :: 0 <= i < |d.refused| ==> d.refused[i] == Around(d.start, i, config.endpoints)
  }

  ghost predicate Dialing(config: Config, s: State) {
    && s.index < config.endpoints
    && (s.dial.Some? ==>
          Rotates(config, s.dial.value) && |s.dial.value.refused| < config.endpoints &&
          s.index == Around(s.dial.value.start, |s.dial.value.refused|, config.endpoints))
    && (s.lastFailure.Some? ==>
          Rotates(config, s.lastFailure.value) && |s.lastFailure.value.refused| == config.endpoints)
  }

  /** Between two successes the armed delays never shrink and respect the cap. */
  ghost predicate BacksOff(config: Config, s: State) {
    && (forall i, j :: 0 <= i < j < |s.delays| ==> s.delays[i] <= s.delays[j])
    && (forall i :: 0 <= i < |s.delays| ==> s.delays[i] <= Delay(config, s.attempt) <= config.maxInterval)
  }

  ghost predicate Attached(s: State) {
    && (s.connection.Some? <==> s.phase.Connected?)
    && (s.connection.Some? ==> s.dial.None? && s.timer.None? && !s.reconnecting && !s.shuttingDown)
    && (s.connection.Some? ==> s.connection.value in s.used)
    && (s.shuttingDown ==> !s.reconnecting && s.timer.None?)
  }

  ghost predicate Inv(config: Config, s: State) {
    NeverStalls(s) && InBudget(config, s) && Dialing(config, s) && BacksOff(config, s) && Attached(s)
  }

  lemma {:induction false} DelayGrows(config: Config, a: nat, b: nat)
    requires a <= b
    ensures Delay(config, a) <= Delay(config, b) <= config.maxInterval
  {
    assert Pow2(0) == 1 && Pow2(1) == 2 && Pow2(2) == 4 && Pow2(3) == 8 && Pow2(4) == 16;
    var x, y := Pow2(Min(a, 4)), Pow2(Min(b, 4));
    assert x <= y;
    assert config.interval * x <= config.interval * y by {
      assert config.interval * y - config.interval * x == config.interval * (y - x);
    }
  }

  lemma {:induction false} ScheduleKeeps(config: Config, s: State)
    requires InBudget(config, s.(timer := None)) && Dialing(config, s) && BacksOff(config, s)
    requires s.connection.None? && !s.phase.Connected? && !s.shuttingDown
    ensures Inv(config, Schedule(config, s))
  {
    DelayGrows(config, s.attempt, s.attempt);
  }

  lemma {:induction false} RefuseKeeps(config: Config, s: State)
    requires config.endpoints > 0 && Inv(config, s) && s.dial.Some?
    ensures Inv(config, Refuse(config, s))
  {
    var d := s.dial.value;
    NextAround(d.start, |d.refused|, config.endpoints);
    var e := d.(refused := d.refused + [s.index]);
    assert Rotates(config, e);
    if |e.refused| == config.endpoints && !s.shuttingDown {
      AllRefusedKeeps(config, s, e, (s.index + 1) % config.endpoints);
    }
  }

  lemma {:induction false} AllRefusedKeeps(config: Config, s: State, d: Dial, next: nat)
    requires Inv(config, s) && s.connection.None? && !s.shuttingDown
    requires Rotates(config, d) && |d.refused| == config.endpoints && next < config.endpoints
    ensures var u := s.(index := next, dial := None, connection := None, lastFailure := Some(d));
            Inv(config, StartReconnection(config, u))
  {
    var u := s.(index := next, dial := None, connection := None, lastFailure := Some(d));
    var v := u.(reconnecting := true, phase := Reconnecting, signals := s.signals + [Lost]);
    SameBackoff(config, s, u);
    SameBackoff(config, s, v);
    if s.reconnecting { ScheduleKeeps(config, u); } else { ScheduleKeeps(config, v); }
  }

  lemma {:induction false} SameBackoff(config: Config, s: State, t: State)
    requires BacksOff(config, s) && t.delays == s.delays && t.attempt == s.attempt
    ensures BacksOff(config, t)
  {
    assert Delay(config, t.attempt) == Delay(config, s.attempt);
  }

  lemma {:induction false} FireKeeps(config: Config, s: State)
    requires Inv(config, s) && s.timer.Some?
    ensures Inv(config, Fire(s))
  {
    DelayGrows(config, s.attempt, s.attempt + 1);
  }

  lemma {:induction false} StepKeeps(config: Config, s: State, e: Event)
    requires config.endpoints > 0 && Inv(config, s)
    ensures Inv(config, Step(config, s, e))
  {
    if Enabled(s, e) {
      match e
      case DialRefused => RefuseKeeps(config, s);
      case Closed =>
        var u := s.(connection := None, reconnecting := true, phase := Reconnecting, signals := s.signals + [Lost]);
        SameBackoff(config, s, u);
        ScheduleKeeps(config, u);
      case TimerFires => FireKeeps(config, s);
      case Connect => SameBackoff(config, s, Step(config, s, e));
      case Disconnect => SameBackoff(config, s, Step(config, s, e));
      case DialSucceeds(_) =>
    }
  }

  lemma {:induction false} RunKeeps(config: Config, events: seq<Event>)
    requires config.endpoints > 0
    ensures Inv(config, Run(config, events))
  {
    if events != [] {
      RunKeeps(config, events[..|events| - 1]);
      StepKeeps(config, Run(config, events[..|events| - 1]), events[|events| - 1]);
    }
  }

  /** A dial that found no endpoint tried each of them exactly once. */
  lemma {:induction false} EveryEndpointOnce(config: Config, events: seq<Event>)
    requires config.endpoints > 0 && Run(config, events).lastFailure.Some?
    ensures var refused := Run(config, events).lastFailure.value.refused;
            && (forall i, j :: 0 <= i < j < |refused| ==> refused[i] != refused[j])
            && (forall x :: x in refused <==> 0 <= x < config.endpoints)
  {
    RunKeeps(config, events);
    var n, d := config.endpoints, Run(config, events).lastFailure.value;
    forall x | 0 <= x < n ensures x in d.refused {
      var i := if x >= d.start then x - d.start else x + n - d.start;
      assert d.refused[i] == x;
    }
  }

  /** After it, the next dial starts where that one started. */
  lemma {:induction false} IndexReturns(config: Config, s: State)
    requires config.endpoints > 0 && Inv(config, s) && s.dial.Some?
    requires |s.dial.value.refused| == config.endpoints - 1
    ensures var t := Step(config, s, DialRefused); t.dial.None? && t.connection.None? && t.index == s.dial.value.start
  {
    var n, d := config.endpoints, s.dial.value;
    NextAround(d.start, n - 1, n);
  }

  // How many timer attempts ran in the part `more` of a run.
  ghost function Attempts(config: Config, before: seq<Event>, more: seq<Event>): nat
    requires config.endpoints > 0
  {
    if more == [] then 0
    else
      var rest, last := more[..|more| - 1], more[|more| - 1];
      var s := Run(config, before + rest);
      Attempts(config, before, rest) + (if last.TimerFires? && s.timer.Some? && !s.phase.Connected? then 1 else 0)
  }

  /** `attempt` moves by the timer attempts alone, as long as no dial succeeds. */
  lemma {:induction false} AttemptsCounted(config: Config, before: seq<Event>, more: seq<Event>)
    requires config.endpoints > 0
    requires forall e :: e in more ==> !e.DialSucceeds?
    ensures Run(config, before).attempt + Attempts(config, before, more) == Run(config, before + more).attempt
  {
    if more == [] {
      assert before + more == before;
    } else {
      var rest, last := more[..|more| - 1], more[|more| - 1];
      assert (before + more)[..|before + more| - 1] == before + rest && last in more;
      AttemptsCounted(config, before, rest);
    }
  }

  /** Between two successes at most `maxAttempts` timer attempts run. */
  lemma {:induction false} AttemptsBounded(config: Config, before: seq<Event>, more: seq<Event>)
    requires config.endpoints > 0 && config.maxAttempts.Some?
    requires forall e :: e in more ==> !e.DialSucceeds?
    ensures Attempts(config, before, more) <= config.maxAttempts.value
  {
    AttemptsCounted(config, before, more);
    RunKeeps(config, before + more);
  }

  /** Giving up means that the whole budget was spent; reconnecting ends in no other way
      than success, giving up, or an explicit disconnect. */
  lemma {:induction false} GivesUpWhenSpent(config: Config, s: State, e: Event)
    requires config.endpoints > 0 && Inv(config, s)
    ensures var t := Step(config, s, e);
            t.phase.Failed? && !s.phase.Failed? ==> config.maxAttempts == Some(t.attempt)
    ensures var t := Step(config, s, e);
            s.reconnecting && !t.reconnecting ==> t.phase.Connected? || t.phase.Failed? || e.Disconnect?
  {
    StepKeeps(config, s, e);
  }

  /** Over every run: state failed means that as many timer attempts as allowed have run since
      the last success, and that none is armed any more. */
  lemma {:induction false} FailedMeansSpent(config: Config, events: seq<Event>)
    requires config.endpoints > 0 && Run(config, events).phase.Failed?
    ensures config.maxAttempts == Some(Run(config, events).attempt) && Run(config, events).timer.None?
  {
    var before, e := events[..|events| - 1], events[|events| - 1];
    var s := Run(config, before);
    RunKeeps(config, before);
    if s.phase.Failed? { FailedMeansSpent(config, before); }
    FailsWhenSpent(config, s, e);
  }

  lemma {:induction false} FailsWhenSpent(config: Config, s: State, e: Event)
    requires config.endpoints > 0 && InBudget(config, s)
    requires s.phase.Failed? ==> config.maxAttempts == Some(s.attempt) && s.timer.None?
    ensures var t := Step(config, s, e); t.phase.Failed? ==> config.maxAttempts == Some(t.attempt) && t.timer.None?
  {
  }

  /** A lost connection announces itself before it can be replaced: the connection never
      changes from one to another, and it goes away only with a Lost or a disconnect. */
  lemma {:induction false} LossIsAnnounced(config: Config, s: State, e: Event)
    requires config.endpoints > 0 && Inv(config, s)
    ensures var t := Step(config, s, e);
            s.connection.Some? && t.connection != s.connection ==>
              t.connection.None? && (e.Disconnect? || Lost in t.signals[|s.signals|..])
    ensures var t := Step(config, s, e);
            s.signals <= t.signals && (Lost in t.signals[|s.signals|..] ==> t.connection.None?)
    ensures var t := Step(config, s, e);
            t.connection.Some? && t.connection != s.connection ==> t.connection.value !in s.used
    ensures s.used <= Step(config, s, e).used
  {
    var t := Step(config, s, e);
    if e.Closed? && s.connection.Some? {
      assert t.signals[|s.signals|] == Lost;
    }
  }
}
