/** Restore ownership: what every run of connects, losses and restores keeps. */
module FacadeProperties {
  import opened Wrappers
  import C = ConnectionSpec
  import P = ConnectionProperties
  import opened FacadeSpec

  predicate InFlight(s: State, r: RestoreId) {
    r < |s.restores| && !s.restores[r].stage.Released?
  }

  // Begun since the last disconnection.
  predicate Current(s: State, r: RestoreId) {
    r < |s.restores| && s.restores[r].generation == s.generation
  }

  /** A restore in flight begun since the last disconnection owns the slot, and only such a
      restore does. */
  ghost predicate SlotOwned(s: State) {
    && (forall r: RestoreId :: InFlight(s, r) && Current(s, r) ==> s.slot == Some(r))
    && (s.slot.Some? ==> InFlight(s, s.slot.value) && Current(s, s.slot.value))
  }

  /** A restore that outlived a disconnection was built on a connection that is gone. */
  ghost predicate StaleIsDead(s: State) {
    forall r :: 0 <= r < |s.restores| ==>
      && s.restores[r].generation <= s.generation
      && (s.restores[r].stage.Building? ==> s.restores[r].connection.Some?)
      && (s.restores[r].connection.Some? ==> s.restores[r].connection.value in s.net.used)
      && (InFlight(s, r) && s.restores[r].generation < s.generation && s.restores[r].connection.Some? ==>
            s.net.connection != s.restores[r].connection)
  }

  /** The installed pool is built on the current connection, by a current restore that has
      not failed. */
  ghost predicate PoolIsCurrent(s: State) {
    s.pool.Some? ==>
      var r := s.pool.value.builder;
      && s.net.connection == Some(s.pool.value.connection)
      && Current(s, r) && s.restores[r].connection == s.net.connection
      && s.restores[r].stage in {Asserting, Recreating, Ended(true), Released(true)}
  }

  // Nothing has been installed yet right after a dial.
  ghost predicate JustUpIsEmpty(s: State) {
    s.justUp ==> s.pool.None?
  }

  ghost predicate Inv(config: C.Config, s: State) {
    P.Inv(config, s.net) && SlotOwned(s) && StaleIsDead(s) && PoolIsCurrent(s) && JustUpIsEmpty(s)
  }

  lemma {:induction false} NetKeeps(config: C.Config, s: State, event: C.Event)
    requires config.endpoints > 0 && Inv(config, s) && Enabled(s, Net(event))
    ensures Inv(config, NetStep(config, s, event))
  {
    P.StepKeeps(config, s.net, event);
    P.LossIsAnnounced(config, s.net, event);
    var t := NetStep(config, s, event);
    assert t.restores == s.restores;
    if t.generation == s.generation {
      assert s.net.connection.Some? ==> t.net.connection == s.net.connection;
    }
  }

  lemma {:induction false} RestoreKeeps(config: C.Config, s: State)
    requires Inv(config, s)
    ensures Inv(config, RestoreState(s))
  {
  }

  // A restore that moves on without ending stays in flight and as current as it was.
  lemma {:induction false} MoveKeepsOwners(s: State, r: RestoreId, stage: Stage, pool: Option<Pool>)
    requires SlotOwned(s) && StaleIsDead(s) && InFlight(s, r) && !stage.Released? && !stage.Building?
    ensures var t := WithStage(s, r, stage).(pool := pool, justUp := false); SlotOwned(t) && StaleIsDead(t)
  {
    var t := WithStage(s, r, stage).(pool := pool, justUp := false);
    assert forall q: RestoreId :: InFlight(t, q) == InFlight(s, q) && Current(t, q) == Current(s, q);
  }

  lemma {:induction false} BuildKeeps(config: C.Config, s: State, r: RestoreId, ok: bool)
    requires Inv(config, s) && IsAt(s, r, Building)
    ensures Inv(config, Build(s, r, ok).(justUp := false))
  {
    var t := Build(s, r, ok);
    MoveKeepsOwners(s, r, t.restores[r].stage, t.pool);
  }

  lemma {:induction false} AssertKeeps(config: C.Config, s: State, r: RestoreId, ok: bool)
    requires Inv(config, s) && IsAt(s, r, Asserting)
    ensures Inv(config, Assert(s, r, ok).(justUp := false))
  {
    var t := Assert(s, r, ok);
    MoveKeepsOwners(s, r, t.restores[r].stage, t.pool);
  }

  lemma {:induction false} EndKeeps(config: C.Config, s: State, r: RestoreId, ok: bool)
    requires Inv(config, s) && IsAt(s, r, if ok then Recreating else Unwinding)
    ensures Inv(config, WithStage(s, r, Ended(ok)).(justUp := false))
  {
    var t := WithStage(s, r, Ended(ok));
    assert forall q: RestoreId :: InFlight(t, q) == InFlight(s, q) && Current(t, q) == Current(s, q);
  }

  lemma {:induction false} ReleaseKeeps(config: C.Config, s: State, r: RestoreId)
    requires Inv(config, s) && r < |s.restores| && s.restores[r].stage.Ended?
    ensures Inv(config, Release(s, r))
  {
    var t := Release(s, r);
    assert forall q: RestoreId :: InFlight(t, q) == (InFlight(s, q) && q != r) && Current(t, q) == Current(s, q);
  }

  lemma {:induction false} StepKeeps(config: C.Config, s: State, e: Event)
    requires config.endpoints > 0 && Inv(config, s)
    ensures Inv(config, Step(config, s, e))
  {
    if Enabled(s, e) {
      match e
      case Net(event) => NetKeeps(config, s, event);
      case ConnectResumes => RestoreKeeps(config, s);
      case Reconnected => RestoreKeeps(config, s);
      case Shutdown => P.StepKeeps(config, s.net, C.Disconnect);
      case PoolBuilt(r, ok) => BuildKeeps(config, s, r, ok);
      case ExchangeAsserted(r, ok) => AssertKeeps(config, s, r, ok);
      case ConsumersRecreated(r) => EndKeeps(config, s, r, true);
      case PoolClosed(r) => EndKeeps(config, s, r, false);
      case Finally(r) => ReleaseKeeps(config, s, r);
    }
  }

  lemma {:induction false} RunKeeps(config: C.Config, events: seq<Event>)
    requires config.endpoints > 0
    ensures Inv(config, Run(config, events))
  {
    if events != [] {
      RunKeeps(config, events[..|events| - 1]);
      StepKeeps(config, Run(config, events[..|events| - 1]), events[|events| - 1]);
    } else {
      P.RunKeeps(config, []);
    }
  }

  /** At most one restore begun since the last disconnection is in flight. */
  lemma {:induction false} OneRestoreAtATime(config: C.Config, events: seq<Event>, q: RestoreId, r: RestoreId)
    requires config.endpoints > 0
    requires var s := Run(config, events); InFlight(s, q) && Current(s, q) && InFlight(s, r) && Current(s, r)
    ensures q == r && Run(config, events).slot == Some(r)
  {
    RunKeeps(config, events);
  }

  predicate Moves(e: Event, r: RestoreId) {
    match e
    case PoolBuilt(q, _) => q == r
    case ExchangeAsserted(q, _) => q == r
    case ConsumersRecreated(q) => q == r
    case PoolClosed(q) => q == r
    case Finally(q) => q == r
    case _ => false
  }

  /** Whatever a stale restore still does, it neither frees nor takes the slot, and neither
      replaces nor tears down the installed pool. */
  lemma {:induction false} StaleTouchesNothing(config: C.Config, events: seq<Event>, e: Event, r: RestoreId)
    requires config.endpoints > 0 && Moves(e, r)
    requires var s := Run(config, events); InFlight(s, r) && !Current(s, r)
    ensures var s := Run(config, events); var t := Step(config, s, e);
            t.slot == s.slot && t.pool == s.pool && t.generation == s.generation
  {
    RunKeeps(config, events);
  }

  // ---------- what a completed restore has done ----------

  // At position `j` of the run this event happened, enabled.
  ghost predicate Happened(config: C.Config, events: seq<Event>, j: int, e: Event)
    requires config.endpoints > 0
  {
    0 <= j < |events| && events[j] == e && Enabled(Run(config, events[..j]), e)
  }

  ghost predicate Built(config: C.Config, events: seq<Event>, r: RestoreId, a: int)
    requires config.endpoints > 0
  {
    Happened(config, events, a, PoolBuilt(r, true))
  }

  ghost predicate BuiltAndAsserted(config: C.Config, events: seq<Event>, r: RestoreId, a: int, b: int)
    requires config.endpoints > 0
  {
    Built(config, events, r, a) && a < b && Happened(config, events, b, ExchangeAsserted(r, true))
  }

  // Its pool opened, then the exchange was asserted, then the consumers were recreated.
  ghost predicate Restored(config: C.Config, events: seq<Event>, r: RestoreId, a: int, b: int, c: int)
    requires config.endpoints > 0
  {
    BuiltAndAsserted(config, events, r, a, b) && b < c && Happened(config, events, c, ConsumersRecreated(r))
  }

  /** What the stage of a restore says about the run so far. */
  ghost predicate Earned(config: C.Config, events: seq<Event>, r: RestoreId, stage: Stage)
    requires config.endpoints > 0
  {
    (stage.Asserting? ==> exists a :: Built(config, events, r, a)) &&
    (stage.Recreating? ==> exists a, b :: BuiltAndAsserted(config, events, r, a, b)) &&
    (stage in {Ended(true), Released(true)} ==> exists a, b, c :: Restored(config, events, r, a, b, c))
  }

  lemma {:induction false} HappenedGrows(config: C.Config, events: seq<Event>, next: Event, j: int, e: Event)
    requires config.endpoints > 0 && Happened(config, events, j, e)
    ensures Happened(config, events + [next], j, e)
  {
    assert (events + [next])[..j] == events[..j];
  }

  lemma {:induction false} EarnedGrows(config: C.Config, events: seq<Event>, next: Event, r: RestoreId, stage: Stage)
    requires config.endpoints > 0 && Earned(config, events, r, stage)
    ensures Earned(config, events + [next], r, stage)
  {
    var all := events + [next];
    if stage.Asserting? {
      var a :| Built(config, events, r, a);
      HappenedGrows(config, events, next, a, PoolBuilt(r, true));
      assert Built(config, all, r, a);
    } else if stage.Recreating? {
      var a, b :| BuiltAndAsserted(config, events, r, a, b);
      HappenedGrows(config, events, next, a, PoolBuilt(r, true));
      HappenedGrows(config, events, next, b, ExchangeAsserted(r, true));
      assert BuiltAndAsserted(config, all, r, a, b);
    } else if stage in {Ended(true), Released(true)} {
      var a, b, c :| Restored(config, events, r, a, b, c);
      HappenedGrows(config, events, next, a, PoolBuilt(r, true));
      HappenedGrows(config, events, next, b, ExchangeAsserted(r, true));
      HappenedGrows(config, events, next, c, ConsumersRecreated(r));
      assert BuiltAndAsserted(config, all, r, a, b) && Restored(config, all, r, a, b, c);
    }
  }

  // How a stage follows another.
  lemma {:induction false} StageFollows(config: C.Config, s: State, e: Event, r: RestoreId)
    requires config.endpoints > 0 && r < |Step(config, s, e).restores|
    ensures var stage := Step(config, s, e).restores[r].stage;
            (r < |s.restores| && stage == s.restores[r].stage) ||
            stage in {Building, Unwinding, Ended(false), Released(false)} ||
            (Enabled(s, e) && stage.Asserting? && e == PoolBuilt(r, true)) ||
            (Enabled(s, e) && stage.Recreating? && e == ExchangeAsserted(r, true) && IsAt(s, r, Asserting)) ||
            (Enabled(s, e) && stage == Ended(true) && e == ConsumersRecreated(r) && IsAt(s, r, Recreating)) ||
            (stage == Released(true) && IsAt(s, r, Ended(true)))
  {
  }

  lemma {:induction false} StepEarns(config: C.Config, events: seq<Event>, e: Event, r: RestoreId)
    requires config.endpoints > 0 && r < |Run(config, events + [e]).restores|
    requires r < |Run(config, events).restores| ==> Earned(config, events, r, Run(config, events).restores[r].stage)
    ensures Earned(config, events + [e], r, Run(config, events + [e]).restores[r].stage)
  {
    var all, s := events + [e], Run(config, events);
    assert all[..|events|] == events;
    var stage := Run(config, all).restores[r].stage;
    StageFollows(config, s, e, r);
    if r < |s.restores| {
      EarnedGrows(config, events, e, r, s.restores[r].stage);
      if stage != s.restores[r].stage { NewlyEarned(config, events, e, r, stage); }
    }
  }

  lemma {:induction false} NewlyEarned(config: C.Config, events: seq<Event>, e: Event, r: RestoreId, stage: Stage)
    requires config.endpoints > 0 && r < |Run(config, events).restores|
    requires Earned(config, events, r, Run(config, events).restores[r].stage)
    requires var s := Run(config, events);
             (Enabled(s, e) && stage.Asserting? && e == PoolBuilt(r, true)) ||
             (Enabled(s, e) && stage.Recreating? && e == ExchangeAsserted(r, true) && IsAt(s, r, Asserting)) ||
             (Enabled(s, e) && stage == Ended(true) && e == ConsumersRecreated(r) && IsAt(s, r, Recreating)) ||
             (stage == Released(true) && IsAt(s, r, Ended(true))) ||
             stage in {Building, Unwinding, Ended(false), Released(false)}
    ensures Earned(config, events + [e], r, stage)
  {
    var all, s := events + [e], Run(config, events);
    assert all[..|events|] == events;
    EarnedGrows(config, events, e, r, s.restores[r].stage);
    if stage.Asserting? {
      assert Built(config, all, r, |events|);
    } else if stage.Recreating? {
      var a :| Built(config, all, r, a) && a < |events|;
      assert BuiltAndAsserted(config, all, r, a, |events|);
    } else if stage == Ended(true) {
      var a, b :| BuiltAndAsserted(config, all, r, a, b) && b < |events|;
      assert Restored(config, all, r, a, b, |events|);
    }
  }

  /** Over every run: a restore that completed has opened its pool, then asserted the exchange,
      then recreated the consumers. */
  lemma {:induction false} CompletedDidItAll(config: C.Config, events: seq<Event>, r: RestoreId)
    requires config.endpoints > 0 && r < |Run(config, events).restores|
    ensures Earned(config, events, r, Run(config, events).restores[r].stage)
  {
    if events != [] {
      var before, e := events[..|events| - 1], events[|events| - 1];
      if r < |Run(config, before).restores| { CompletedDidItAll(config, before, r); }
      StepEarns(config, before, e, r);
      assert before + [e] == events;
    }
  }

  /** A pool left installed once every restore has ended comes from one that completed, with
      exchange and consumers, on the connection that is open now. */
  lemma {:induction false} RestingPoolIsComplete(config: C.Config, events: seq<Event>)
    requires config.endpoints > 0
    requires var s := Run(config, events); s.pool.Some? && forall r: RestoreId :: !InFlight(s, r)
    ensures var s := Run(config, events); var r := s.pool.value.builder;
            IsAt(s, r, Released(true)) && s.net.connection == Some(s.pool.value.connection) &&
            exists a, b, c :: Restored(config, events, r, a, b, c)
  {
    RunKeeps(config, events);
    var s := Run(config, events);
    assert !InFlight(s, s.pool.value.builder);
    CompletedDidItAll(config, events, s.pool.value.builder);
  }

  /** The ungated restore after a reconnection never meets an installed pool, so it never
      replaces one. */
  lemma {:induction false} ReconnectedFindsNoPool(config: C.Config, events: seq<Event>)
    requires config.endpoints > 0 && Enabled(Run(config, events), Reconnected)
    ensures Run(config, events).pool.None?
  {
    RunKeeps(config, events);
  }
}
