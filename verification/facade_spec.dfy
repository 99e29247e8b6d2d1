/** The restore protocol of src/index.js on top of the connection's state machine: which
    restore owns the slot, and which channel pool is installed. */
module FacadeSpec {
  import opened Wrappers
  import C = ConnectionSpec

  type RestoreId = nat

  // The restore that built the pool names it.
  datatype Pool = Pool(builder: RestoreId, connection: C.ConnId)

  /** Where `#doRestoreState` waits: the pool's initialize, ensureExchange, recreateAll, or
      the close of a pool it gives up. Ended: settled, its `finally` has not run yet.
      Released: the `finally` has run. */
  datatype Stage = Building | Asserting | Recreating | Unwinding | Ended(ok: bool) | Released(ok: bool)

  /** `generation` counts the disconnections before the restore began. */
  datatype Restore = Restore(generation: nat, connection: Option<C.ConnId>, stage: Stage)

  /** `justUp` holds from a successful dial until the next timer or socket event. */
  datatype State = State(
    net: C.State,
    pool: Option<Pool>,
    slot: Option<RestoreId>,
    restores: seq<Restore>,
    generation: nat,
    justUp: bool)

  /** ConnectResumes: `#doConnect` after its dial, with the gate on the pool. Reconnected:
      the connection's event, without a gate. */
  datatype Event =
    | Net(event: C.Event)
    | ConnectResumes
    | Reconnected
    | PoolBuilt(restore: RestoreId, ok: bool)
    | ExchangeAsserted(restore: RestoreId, ok: bool)
    | ConsumersRecreated(restore: RestoreId)
    | PoolClosed(restore: RestoreId)
    | Finally(restore: RestoreId)
    | Shutdown

  const INIT := State(C.INIT, None, None, [], 0, false)

  function WithStage(s: State, r: RestoreId, stage: Stage): State
    requires r < |s.restores|
  {
    s.(restores := s.restores[r := s.restores[r].(stage := stage)])
  }

  /** `#restoreState`: join the restore in the slot, or begin one. Without a connection it
      rejects at once. */
  function RestoreState(s: State): State {
    if s.slot.Some? then s
    else
      var stage := if s.net.connection.Some? then Building else Ended(false);
      s.(restores := s.restores + [Restore(s.generation, s.net.connection, stage)], slot := Some(|s.restores|))
  }

  function HandleDisconnection(s: State): State {
    s.(slot := None, pool := None, generation := s.generation + 1)
  }

  function Build(s: State, r: RestoreId, ok: bool): State
    requires r < |s.restores|
  {
    if !ok then WithStage(s, r, Ended(false))
    else if s.net.connection != s.restores[r].connection || s.net.connection.None? then WithStage(s, r, Unwinding)
    else WithStage(s, r, Asserting).(pool := Some(Pool(r, s.net.connection.value)))
  }

  function Assert(s: State, r: RestoreId, ok: bool): State
    requires r < |s.restores|
  {
    if ok then WithStage(s, r, Recreating)
    else if s.pool.Some? && s.pool.value.builder == r then WithStage(s, r, Unwinding).(pool := None)
    else WithStage(s, r, Ended(false))
  }

  function Release(s: State, r: RestoreId): State
    requires r < |s.restores| && s.restores[r].stage.Ended?
  {
    WithStage(s, r, Released(s.restores[r].stage.ok)).(slot := if s.slot == Some(r) then None else s.slot)
  }

  predicate IsAt(s: State, r: RestoreId, stage: Stage) {
    r < |s.restores| && s.restores[r].stage == stage
  }

  predicate Resting(s: State) {
    s.slot.None? && s.net.dial.None? && forall r :: 0 <= r < |s.restores| ==> s.restores[r].stage.Released?
  }

  predicate Enabled(s: State, e: Event) {
    match e
    case Net(event) => !event.Disconnect? && C.Enabled(s.net, event)
    case ConnectResumes => s.net.connection.Some?
    case Reconnected => s.justUp && s.net.connection.Some?
    case PoolBuilt(r, _) => IsAt(s, r, Building)
    case ExchangeAsserted(r, _) => IsAt(s, r, Asserting)
    case ConsumersRecreated(r) => IsAt(s, r, Recreating)
    case PoolClosed(r) => IsAt(s, r, Unwinding)
    case Finally(r) => r < |s.restores| && s.restores[r].stage.Ended?
    case Shutdown => Resting(s)
  }

  // The connection's step, with the facade's 'disconnected' listener inside it.
  function NetStep(config: C.Config, s: State, event: C.Event): State
    requires config.endpoints > 0
  {
    var net := C.Step(config, s.net, event);
    var t := s.(net := net, justUp := event.DialSucceeds? && net.connection.Some?);
    if |s.net.signals| <= |net.signals| && C.Lost in net.signals[|s.net.signals|..] then HandleDisconnection(t) else t
  }

  function Step(config: C.Config, s: State, e: Event): State
    requires config.endpoints > 0
  {
    if !Enabled(s, e) then s
    else
      match e
      case Net(event) => NetStep(config, s, event)
      case ConnectResumes => if s.pool.None? then RestoreState(s) else s
      case Reconnected => RestoreState(s)
      case PoolBuilt(r, ok) => Build(s, r, ok).(justUp := false)
      case ExchangeAsserted(r, ok) => Assert(s, r, ok).(justUp := false)
      case ConsumersRecreated(r) => WithStage(s, r, Ended(true)).(justUp := false)
      case PoolClosed(r) => WithStage(s, r, Ended(false)).(justUp := false)
      case Finally(r) => Release(s, r)
      case Shutdown => s.(net := C.Step(config, s.net, C.Disconnect), pool := None, justUp := false)
  }

  function Run(config: C.Config, events: seq<Event>): State
    requires config.endpoints > 0
  {
    if events == [] then INIT
    else Step(config, Run(config, events[..|events| - 1]), events[|events| - 1])
  }
}
