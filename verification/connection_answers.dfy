/** What the connection does at each event, and what a success gives back: the whole retry
    budget, and the shortest delay. */
module ConnectionAnswers {
  import opened Wrappers
  import opened ConnectionSpec
  import opened ConnectionProperties

  lemma {:induction false} RunNext(config: Config, before: seq<Event>, e: Event)
    requires config.endpoints > 0
    ensures Run(config, before + [e]) == Step(config, Run(config, before), e)
  {
    assert (before + [e])[..|before|] == before;
  }

  /** A dial that succeeds installs its connection with the whole budget before it; after a
      shutdown it installs nothing. */
  lemma {:induction false} SuccessInstalls(config: Config, s: State, c: ConnId)
    requires config.endpoints > 0 && s.dial.Some? && c !in s.used
    ensures var t := Step(config, s, DialSucceeds(c));
            t.dial.None? &&
            if s.shuttingDown then t.connection == s.connection && t.phase.Disconnected? && t.timer == s.timer
            else 
              t.connection == Some(c) && t.phase.Connected? && t.attempt == 0 && t.timer.None? && !t.reconnecting &&
              t.signals == s.signals + [Up(c)]
  {
  }

  /** A success refills the budget: until the next one, `attempt` counts the timer attempts
      since this one. */
  lemma {:induction false} AttemptsSinceSuccess(config: Config, before: seq<Event>, c: ConnId, more: seq<Event>)
    requires config.endpoints > 0
    requires Enabled(Run(config, before), DialSucceeds(c)) && !Run(config, before).shuttingDown
    requires forall e :: e in more ==> !e.DialSucceeds?
    ensures var up := before + [DialSucceeds(c)]; Run(config, up + more).attempt == Attempts(config, up, more)
  {
    RunNext(config, before, DialSucceeds(c));
    SuccessInstalls(config, Run(config, before), c);
    AttemptsCounted(config, before + [DialSucceeds(c)], more);
  }

  /** So giving up after a success takes the full number of timer attempts after it. */
  lemma {:induction false} GivesUpAfterExactly(config: Config, before: seq<Event>, c: ConnId, more: seq<Event>)
    requires config.endpoints > 0
    requires Enabled(Run(config, before), DialSucceeds(c)) && !Run(config, before).shuttingDown
    requires forall e :: e in more ==> !e.DialSucceeds?
    requires Run(config, before + [DialSucceeds(c)] + more).phase.Failed?
    ensures config.maxAttempts == Some(Attempts(config, before + [DialSucceeds(c)], more))
  {
    AttemptsSinceSuccess(config, before, c, more);
    FailedMeansSpent(config, before + [DialSucceeds(c)] + more);
  }

  // ---------- delays ----------

  // Doubling, four times.
  function Factor(attempts: nat): nat {
    if attempts == 0 then 1 else if attempts == 1 then 2 else if attempts == 2 then 4
    else if attempts == 3 then 8 else 16
  }

  function Backoff(config: Config, attempts: nat): nat {
    var delay := config.interval * Factor(attempts);
    if delay < config.maxInterval then delay else config.maxInterval
  }

  lemma {:induction false} DelayIsBackoff(config: Config, attempts: nat)
    ensures Delay(config, attempts) == Backoff(config, attempts)
  {
    assert Pow2(0) == 1 && Pow2(1) == 2 && Pow2(2) == 4 && Pow2(3) == 8 && Pow2(4) == 16;
    assert Pow2(Min(attempts, 4)) == Factor(attempts);
  }

  predicate ArmedRight(config: Config, s: State) {
    s.timer.Some? ==> s.timer.value == Delay(config, s.attempt)
  }

  lemma {:induction false} StepArms(config: Config, s: State, e: Event)
    requires config.endpoints > 0 && ArmedRight(config, s)
    ensures ArmedRight(config, Step(config, s, e))
  {
  }

  lemma {:induction false} RunArms(config: Config, events: seq<Event>)
    requires config.endpoints > 0
    ensures ArmedRight(config, Run(config, events))
  {
    if events != [] {
      RunArms(config, events[..|events| - 1]);
      StepArms(config, Run(config, events[..|events| - 1]), events[|events| - 1]);
    }
  }

  /** The timer that is armed after `n` timer attempts since the last success waits the base
      interval doubled n times, at most four times, and never longer than the cap. */
  lemma {:induction false} ArmedDelayExactly(config: Config, before: seq<Event>, c: ConnId, more: seq<Event>)
    requires config.endpoints > 0
    requires Enabled(Run(config, before), DialSucceeds(c)) && !Run(config, before).shuttingDown
    requires forall e :: e in more ==> !e.DialSucceeds?
    requires Run(config, before + [DialSucceeds(c)] + more).timer.Some?
    ensures Run(config, before + [DialSucceeds(c)] + more).timer.value
         == Backoff(config, Attempts(config, before + [DialSucceeds(c)], more))
  {
    AttemptsSinceSuccess(config, before, c, more);
    RunArms(config, before + [DialSucceeds(c)] + more);
    DelayIsBackoff(config, Attempts(config, before + [DialSucceeds(c)], more));
  }

  // ---------- each event ----------

  predicate UpIsFresh(s: State) { s.connection.Some? ==> s.attempt == 0 }

  lemma {:induction false} StepUpIsFresh(config: Config, s: State, e: Event)
    requires config.endpoints > 0 && Inv(config, s) && UpIsFresh(s)
    ensures UpIsFresh(Step(config, s, e))
  {
  }

  lemma {:induction false} RunUpIsFresh(config: Config, events: seq<Event>)
    requires config.endpoints > 0
    ensures UpIsFresh(Run(config, events))
  {
    if events != [] {
      RunUpIsFresh(config, events[..|events| - 1]);
      RunKeeps(config, events[..|events| - 1]);
      StepUpIsFresh(config, Run(config, events[..|events| - 1]), events[|events| - 1]);
    }
  }

  /** An open connection that closes is given up, announced, and, unless no attempt is allowed
      at all, a retry is armed with the shortest delay. */
  lemma {:induction false} ClosedRetries(config: Config, events: seq<Event>)
    requires config.endpoints > 0 && Run(config, events).connection.Some?
    ensures var s, t := Run(config, events), Step(config, Run(config, events), Closed);
            t.connection.None? && Lost in t.signals[|s.signals|..] &&
            if config.maxAttempts == Some(0) then t.phase.Failed? && t.timer.None?
            else t.reconnecting && t.timer == Some(Backoff(config, 0))
  {
    RunKeeps(config, events);
    RunUpIsFresh(config, events);
    DelayIsBackoff(config, 0);
    var s := Run(config, events);
    var t := Step(config, s, Closed);
    assert t.signals[|s.signals|] == Lost;
  }

  /** `connect` dials exactly when no dial is in flight and none is open, from the current
      endpoint on; the retry timer does so too, and counts an attempt. */
  lemma {:induction false} DialBegins(config: Config, s: State)
    requires config.endpoints > 0
    ensures var t := Step(config, s, Connect);
            if s.dial.None? && !(s.phase.Connected? && s.connection.Some?) then
              t.dial == Some(Dial(s.index, [])) && t.phase.Connecting? && !t.shuttingDown
            else t == s
    ensures var t := Step(config, s, TimerFires);
            s.timer.Some? && !s.phase.Connected? ==>
              t.attempt == s.attempt + 1 && t.timer.None? &&
              t.dial == if s.dial.Some? then s.dial else Some(Dial(s.index, []))
  {
  }

  /** A refused endpoint is followed by the next one; after the last, outside a shutdown, a
      retry is armed while the budget lasts. */
  lemma {:induction false} RefusedGoesOn(config: Config, s: State)
    requires config.endpoints > 0 && s.dial.Some?
    ensures var t, tried := Step(config, s, DialRefused), |s.dial.value.refused| + 1;
            t.index == (s.index + 1) % config.endpoints &&
            if tried < config.endpoints then
              t.dial == Some(Dial(s.dial.value.start, s.dial.value.refused + [s.index])) && t.phase == s.phase
            else
              t.dial.None? && t.lastFailure == Some(Dial(s.dial.value.start, s.dial.value.refused + [s.index])) &&
              if s.shuttingDown then t.phase.Disconnected?
              else if config.maxAttempts.Some? && s.attempt >= config.maxAttempts.value then
                t.phase.Failed? && !t.reconnecting && |s.signals| < |t.signals| && t.signals[|t.signals| - 1] == GaveUp
              else t.timer.Some? && t.reconnecting
  {
  }

  /** `disconnect` leaves neither connection nor timer, and stops reconnecting. */
  lemma {:induction false} DisconnectEnds(config: Config, s: State)
    requires config.endpoints > 0
    ensures var t := Step(config, s, Disconnect);
            t.connection.None? && t.timer.None? && !t.reconnecting && t.shuttingDown && t.phase.Disconnected?
  {
  }
}
