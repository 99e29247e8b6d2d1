/** The class of src/connection/connection.js, updated in place; each public method is one
    stretch of code between two awaits, a timer or a socket event. */
module Connecting {
  import opened Wrappers
  import opened ConnectionSpec
  import opened ConnectionProperties

  class RabbitMQConnection {
    const config: Config
    var connectionState: Phase
    var connection: Option<ConnId>
    var reconnectTimeout: Option<nat>
    var reconnectAttempt: nat
    var currentEndpointIndex: nat
    var isShuttingDown: bool
    var isReconnecting: bool
    // The dial behind `#connectPromise`.
    var connectPromise: Option<Dial>
    ghost var used: set<ConnId>
    // What the connection has emitted to its listeners.
    var signals: seq<Signal>
    ghost var delays: seq<nat>
    ghost var lastFailure: Option<Dial>

    ghost function View(): State
      reads this
    {
      State(connectionState, connection, reconnectTimeout, reconnectAttempt, currentEndpointIndex, isShuttingDown,
            isReconnecting, connectPromise, used, signals, delays, lastFailure)
    }

    ghost predicate Valid()
      reads this
    {
      config.endpoints > 0 && Inv(config, View())
    }

    constructor (config: Config)
      requires config.endpoints > 0
      ensures this.config == config && View() == INIT && Valid()
    {
      this.config := config;
      connectionState, connection, reconnectTimeout, reconnectAttempt := Disconnected, None, None, 0;
      currentEndpointIndex, isShuttingDown, isReconnecting, connectPromise := 0, false, false, None;
      used, signals, delays, lastFailure := {}, [], [], None;
    }

    /** `connect`, up to its first await: a second caller joins the dial in flight. */
    method BeginConnecting()
      requires Valid()
      modifies this
      ensures Valid() && View() == Step(config, old(View()), Connect)
    {
      ghost var before := View();
      ConnectBody();
      StepKeeps(config, before, Connect);
    }

    method ConnectBody()
      modifies this
      ensures View() == BeginConnect(old(View()))
    {
      if connectPromise.Some? || (connectionState == Connected && connection.Some?) {
        return;
      }
      isShuttingDown := false;
      connectionState := Phase.Connecting;
      connectPromise := Some(Dial(currentEndpointIndex, []));
    }

    /** The endpoint answered. A dial landing after a shutdown discards its connection. */
    method DialAnswered(c: ConnId)
      requires Valid() && connectPromise.Some? && c !in used
      modifies this
      ensures Valid() && View() == Step(config, old(View()), DialSucceeds(c))
    {
      StepKeeps(config, View(), DialSucceeds(c));
      connectPromise := None;
      if isShuttingDown {
        connectionState := Disconnected;
      } else {
        connection, used := Some(c), used + {c};
        reconnectTimeout, isReconnecting, reconnectAttempt, delays := None, false, 0, [];
        connectionState := Connected;
        signals := signals + [Up(c)];
      }
    }

    /** The endpoint refused: try the next one, or conclude that none answers. */
    method DialFailed()
      requires Valid() && connectPromise.Some?
      modifies this
      ensures Valid() && View() == Step(config, old(View()), DialRefused)
    {
      StepKeeps(config, View(), DialRefused);
      var dial := connectPromise.value.(refused := connectPromise.value.refused + [currentEndpointIndex]);
      currentEndpointIndex := (currentEndpointIndex + 1) % config.endpoints;
      connectPromise := Some(dial);
      if |dial.refused| >= config.endpoints {
        connectPromise, connection, lastFailure := None, None, Some(dial);
        if isShuttingDown {
          connectionState := Disconnected;
        } else {
          StartReconnecting();
        }
      }
    }

    /** The open connection closes on its own. */
    method ConnectionClosed()
      requires Valid() && connection.Some?
      modifies this
      ensures Valid() && View() == Step(config, old(View()), Closed)
    {
      ghost var before := View();
      if !isShuttingDown {
        connection := None;
        StartReconnecting();
      }
      StepKeeps(config, before, Closed);
    }

    method StartReconnecting()
      modifies this
      ensures View() == StartReconnection(config, old(View()))
    {
      if isShuttingDown {
        return;
      }
      if !isReconnecting {
        isReconnecting := true;
        connectionState := Reconnecting;
        signals := signals + [Lost];
      }
      ScheduleReconnect();
    }

    method ScheduleReconnect()
      modifies this
      ensures View() == Schedule(config, old(View()))
    {
      reconnectTimeout := None;
      if config.maxAttempts.Some? && reconnectAttempt >= config.maxAttempts.value {
        isReconnecting := false;
        connectionState := Failed;
        signals := signals + [GaveUp];
        return;
      }
      var delay := Delay(config, reconnectAttempt);
      reconnectTimeout, delays := Some(delay), delays + [delay];
    }

    /** The retry timer fires: `#attemptReconnect`, up to its first await. */
    method RetryTimerFired()
      requires Valid() && reconnectTimeout.Some?
      modifies this
      ensures Valid() && View() == Step(config, old(View()), TimerFires)
    {
      ghost var before := View();
      reconnectTimeout := None;
      if connectionState != Connected {
        reconnectAttempt := reconnectAttempt + 1;
        ConnectBody();
      }
      StepKeeps(config, before, TimerFires);
    }

    /** An explicit `disconnect`, as one step. */
    method DisconnectNow()
      requires Valid()
      modifies this
      ensures Valid() && View() == Step(config, old(View()), Disconnect)
    {
      ghost var before := View();
      isShuttingDown, isReconnecting, reconnectTimeout := true, false, None;
      if connectionState != Disconnected {
        connection := None;
        connectionState := Disconnected;
      }
      StepKeeps(config, before, Disconnect);
    }
  }
}
