/** The reconnection state machine of src/connection/connection.js. The promise of a
    settled dial is cleared before any timer or socket event, as JavaScript runs it. */
module ConnectionSpec {
  import opened Wrappers

  type ConnId = nat

  datatype Config = Config(endpoints: nat, interval: nat, maxInterval: nat, maxAttempts: Option<nat>)

  datatype Phase = Disconnected | Connecting | Connected | Reconnecting | Failed

  /** One `#doConnect` loop: the endpoint it started at and those that have refused. */
  datatype Dial = Dial(start: nat, refused: seq<nat>)

  datatype Signal = Up(connection: ConnId) | Lost | GaveUp

  /** `timer` is the delay of the armed retry timer. `used`, `signals`, `delays` (armed since
      the last success) and `lastFailure` (the last dial that found no endpoint) are history. */
  datatype State = State(
    phase: Phase,
    connection: Option<ConnId>,
    timer: Option<nat>,
    attempt: nat,
    index: nat,
    shuttingDown: bool,
    reconnecting: bool,
    dial: Option<Dial>,
    used: set<ConnId>,
    signals: seq<Signal>,
    delays: seq<nat>,
    lastFailure: Option<Dial>)

  datatype Event =
    | Connect
    | DialSucceeds(connection: ConnId)
    | DialRefused
    | Closed
    | TimerFires
    | Disconnect

  const INIT := State(Disconnected, None, None, 0, 0, false, false, None, {}, [], [], None)

  function Min(a: nat, b: nat): nat { if a < b then a else b }

  function Pow2(n: nat): nat { if n == 0 then 1 else 2 * Pow2(n - 1) }

  function Delay(config: Config, attempt: nat): nat {
    Min(config.interval * Pow2(Min(attempt, 4)), config.maxInterval)
  }

  predicate Spent(config: Config, attempt: nat) {
    config.maxAttempts.Some? && attempt >= config.maxAttempts.value
  }

  function Schedule(config: Config, s: State): State {
    if Spent(config, s.attempt) then
      s.(timer := None, reconnecting := false, phase := Failed, signals := s.signals + [GaveUp])
    else
      s.(timer := Some(Delay(config, s.attempt)), delays := s.delays + [Delay(config, s.attempt)])
  }

  function StartReconnection(config: Config, s: State): State {
    if s.shuttingDown then s
    else if s.reconnecting then Schedule(config, s)
    else Schedule(config, s.(reconnecting := true, phase := Reconnecting, signals := s.signals + [Lost]))
  }

  // `connect`: joins a dial in flight, returns an open connection, or begins a dial.
  function BeginConnect(s: State): State {
    if s.dial.Some? || (s.phase.Connected? && s.connection.Some?) then s
    else s.(shuttingDown := false, phase := Connecting, dial := Some(Dial(s.index, [])))
  }

  function Install(s: State, c: ConnId): State {
    if s.shuttingDown then s.(dial := None, phase := Disconnected)
    else
      s.(dial := None, connection := Some(c), used := s.used + {c}, timer := None, reconnecting := false,
         attempt := 0, delays := [], phase := Connected, signals := s.signals + [Up(c)])
  }

  function Refuse(config: Config, s: State): State
    requires s.dial.Some? && config.endpoints > 0
  {
    var d := s.dial.value.(refused := s.dial.value.refused + [s.index]);
    var t := s.(index := (s.index + 1) % config.endpoints, dial := Some(d));
    if |d.refused| < config.endpoints then t
    else
      var u := t.(dial := None, connection := None, lastFailure := Some(d));
      if u.shuttingDown then u.(phase := Disconnected) else StartReconnection(config, u)
  }

  function Drop(config: Config, s: State): State {
    if s.shuttingDown then s else StartReconnection(config, s.(connection := None))
  }

  function Fire(s: State): State {
    var t := s.(timer := None);
    if s.phase.Connected? then t else BeginConnect(t.(attempt := s.attempt + 1))
  }

  function Shut(s: State): State {
    s.(shuttingDown := true, reconnecting := false, timer := None, connection := None, phase := Disconnected)
  }

  predicate Enabled(s: State, e: Event) {
    match e
    case Connect => true
    case DialSucceeds(c) => s.dial.Some? && c !in s.used
    case DialRefused => s.dial.Some?
    case Closed => s.connection.Some?
    case TimerFires => s.timer.Some?
    case Disconnect => true
  }

  function Step(config: Config, s: State, e: Event): State
    requires config.endpoints > 0
  {
    if !Enabled(s, e) then s
    else
      match e
      case Connect => BeginConnect(s)
      case DialSucceeds(c) => Install(s, c)
      case DialRefused => Refuse(config, s)
      case Closed => Drop(config, s)
      case TimerFires => Fire(s)
      case Disconnect => Shut(s)
  }

  function Run(config: Config, events: seq<Event>): State
    requires config.endpoints > 0
  {
    if events == [] then INIT
    else Step(config, Run(config, events[..|events| - 1]), events[|events| - 1])
  }
}
