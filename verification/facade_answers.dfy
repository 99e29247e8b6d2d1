/** What each step of the restore protocol answers: when a restore begins, what it installs,
    when it completes, and what takes a pool away. */
module FacadeAnswers {
  import opened Wrappers
  import opened FacadeSpec
  import opened FacadeProperties

  /** A restore begins exactly when none owns the slot, and for a resuming `connect` only while
      no pool is installed; it awaits its pool, or has failed without a connection. */
  lemma {:induction false} RestoreBegins(config: C.Config, s: State)
    requires config.endpoints > 0
    ensures var t := Step(config, s, ConnectResumes);
            s.net.connection.Some? ==>
              if s.pool.None? && s.slot.None? then
                t.restores == s.restores + [Restore(s.generation, s.net.connection, Building)] &&
                t.slot == Some(|s.restores|)
              else t == s
    ensures var t := Step(config, s, Reconnected);
            Enabled(s, Reconnected) ==>
              if s.slot.None? then
                t.restores == s.restores + [Restore(s.generation, s.net.connection, Building)] &&
                t.slot == Some(|s.restores|)
              else t.restores == s.restores && t.slot == s.slot
  {
  }

  /** A dial that succeeds outside a shutdown is followed by both recoveries: the resuming
      `connect`, and the connection's 'reconnected'. */
  lemma {:induction false} SuccessIsHandled(config: C.Config, s: State, c: C.ConnId)
    requires config.endpoints > 0 && s.net.dial.Some? && c !in s.net.used && !s.net.shuttingDown
    ensures var t := Step(config, s, Net(C.DialSucceeds(c)));
            t.net.connection == Some(c) && Enabled(t, ConnectResumes) && Enabled(t, Reconnected)
  {
  }

  /** An opened pool is installed exactly when the connection it was built on is still open. */
  lemma {:induction false} PoolIsInstalled(config: C.Config, s: State, r: RestoreId, ok: bool)
    requires config.endpoints > 0 && IsAt(s, r, Building)
    ensures var t := Step(config, s, PoolBuilt(r, ok));
            if ok && s.net.connection.Some? && s.net.connection == s.restores[r].connection then
              t.pool == Some(Pool(r, s.net.connection.value)) && t.restores[r].stage == Asserting
            else t.pool == s.pool && t.restores[r].stage == if ok then Unwinding else Ended(false)
  {
  }

  /** A failed exchange takes back exactly the restore's own pool, to be closed. */
  lemma {:induction false} FailedExchangeTakesBack(config: C.Config, s: State, r: RestoreId)
    requires config.endpoints > 0 && IsAt(s, r, Asserting)
    ensures var t := Step(config, s, ExchangeAsserted(r, false));
            if s.pool.Some? && s.pool.value.builder == r then t.pool.None? && t.restores[r].stage == Unwinding
            else t.pool == s.pool && t.restores[r].stage == Ended(false)
  {
  }

  // The answers of a restore whose every step succeeds.
  function GoodAnswers(r: RestoreId): seq<Event> {
    [PoolBuilt(r, true), ExchangeAsserted(r, true), ConsumersRecreated(r), Finally(r)]
  }

  function After(config: C.Config, s: State, events: seq<Event>): State
    requires config.endpoints > 0
    decreases |events|
  {
    if events == [] then s else After(config, Step(config, s, events[0]), events[1..])
  }

  /** A restore on the open connection completes when every answer is good: its pool is
      installed and the slot is free again. */
  lemma {:induction false} RestoreCompletes(config: C.Config, s: State, r: RestoreId)
    requires config.endpoints > 0 && Inv(config, s) && IsAt(s, r, Building) && Current(s, r)
    requires s.net.connection.Some? && s.net.connection == s.restores[r].connection
    ensures var t := After(config, s, GoodAnswers(r));
            IsAt(t, r, Released(true)) && t.slot.None? && t.pool == Some(Pool(r, s.net.connection.value)) &&
            t.net == s.net && t.generation == s.generation
  {
    var answers := GoodAnswers(r);
    var s1 := Step(config, s, answers[0]);
    var s2 := Step(config, s1, answers[1]);
    var s3 := Step(config, s2, answers[2]);
    var s4 := Step(config, s3, answers[3]);
    assert answers[1..][0] == answers[1] && answers[1..][1..][0] == answers[2];
    assert answers[1..][1..][1..] == [answers[3]];
    assert InFlight(s, r) && s.slot == Some(r);
    assert s1.slot == Some(r) && s2.slot == Some(r) && s3.slot == Some(r);
    assert [answers[3]][1..] == [];
    assert After(config, s3, [answers[3]]) == s4;
    assert After(config, s2, answers[1..][1..]) == s4;
    assert After(config, s1, answers[1..]) == s4;
  }

  /** An installed pool stays until its connection is lost, its own restore fails, or an
      explicit disconnect. */
  lemma {:induction false} PoolLasts(config: C.Config, events: seq<Event>, e: Event)
    requires config.endpoints > 0 && Run(config, events).pool.Some?
    ensures var s, t := Run(config, events), Step(config, Run(config, events), e);
            t.pool == s.pool || t.generation == s.generation + 1 || e.Shutdown? ||
            (e == ExchangeAsserted(s.pool.value.builder, false) && t.pool.None?)
  {
    var s := Run(config, events);
    RunKeeps(config, events);
    RunPoolOwnsSlot(config, events);
    if e.PoolBuilt? && Enabled(s, e) { BuildsAlone(config, s, e.restore); }
  }

  // While a pool is installed, only its own restore can be in flight.
  predicate PoolOwnsSlot(s: State) {
    s.pool.Some? && s.slot.Some? ==> s.slot.value == s.pool.value.builder
  }

  lemma {:induction false} StepPoolOwnsSlot(config: C.Config, s: State, e: Event)
    requires config.endpoints > 0 && Inv(config, s) && PoolOwnsSlot(s)
    ensures PoolOwnsSlot(Step(config, s, e))
  {
    if e.PoolBuilt? && Enabled(s, e) { BuildsCurrent(config, s, e.restore); }
  }

  lemma {:induction false} RunPoolOwnsSlot(config: C.Config, events: seq<Event>)
    requires config.endpoints > 0
    ensures PoolOwnsSlot(Run(config, events))
  {
    if events != [] {
      RunPoolOwnsSlot(config, events[..|events| - 1]);
      RunKeeps(config, events[..|events| - 1]);
      StepPoolOwnsSlot(config, Run(config, events[..|events| - 1]), events[|events| - 1]);
    }
  }

  // A restore that builds on the open connection owns the slot.
  lemma {:induction false} BuildsCurrent(config: C.Config, s: State, r: RestoreId)
    requires Inv(config, s) && IsAt(s, r, Building)
    ensures s.net.connection.Some? && s.net.connection == s.restores[r].connection ==> s.slot == Some(r)
  {
    assert InFlight(s, r);
  }

  lemma {:induction false} BuildsAlone(config: C.Config, s: State, r: RestoreId)
    requires Inv(config, s) && PoolOwnsSlot(s) && s.pool.Some? && IsAt(s, r, Building)
    ensures s.net.connection != s.restores[r].connection
  {
    BuildsCurrent(config, s, r);
  }

  /** A connection that goes away on its own takes pool and slot with it. */
  lemma {:induction false} LossDropsAll(config: C.Config, s: State, e: Event)
    requires config.endpoints > 0 && Inv(config, s) && e.Net? && Enabled(s, e)
    requires s.net.connection.Some? && Step(config, s, e).net.connection != s.net.connection
    ensures var t := Step(config, s, e); t.pool.None? && t.slot.None? && t.generation == s.generation + 1
  {
    P.LossIsAnnounced(config, s.net, e.event);
  }

  /** An explicit disconnect leaves neither pool nor connection. */
  lemma {:induction false} ShutdownEnds(config: C.Config, s: State)
    requires config.endpoints > 0 && Enabled(s, Shutdown)
    ensures var t := Step(config, s, Shutdown); t.pool.None? && t.net.connection.None? && t.net.timer.None?
  {
  }
}
