/** The restore protocol of src/index.js, updated in place on top of the connection object
    whose events it listens to. */
module Facade {
  import opened Wrappers
  import C = ConnectionSpec
  import P = ConnectionProperties
  import Connecting
  import opened FacadeSpec
  import opened FacadeProperties

  class RabbitMQ {
    const connection: Connecting.RabbitMQConnection
    var channelPool: Option<Pool>
    // The restore behind `#restorePromise`, and every restore begun so far.
    var restorePromise: Option<RestoreId>
    var restores: seq<Restore>
    var generation: nat
    ghost var justUp: bool

    ghost function View(): State
      reads this, connection
    {
      State(connection.View(), channelPool, restorePromise, restores, generation, justUp)
    }

    ghost predicate Valid()
      reads this, connection
    {
      connection.Valid() && Inv(connection.config, View())
    }

    constructor (config: C.Config)
      requires config.endpoints > 0
      ensures Valid() && fresh(connection) && connection.config == config && View() == INIT
    {
      connection := new Connecting.RabbitMQConnection(config);
      channelPool, restorePromise, restores, generation, justUp := None, None, [], 0, false;
    }

    method RestoreStateShared()
      modifies this
      ensures View() == RestoreState(old(View()))
    {
      if restorePromise.None? {
        var live := connection.connection;
        // Without a connection, setupChannelPool throws before its first await.
        var stage := if live.Some? then Building else Ended(false);
        restorePromise := Some(|restores|);
        restores := restores + [Restore(generation, live, stage)];
      }
    }

    // The stale pool, for its close().
    method HandleDisconnected() returns (stale: Option<Pool>)
      modifies this
      ensures View() == HandleDisconnection(old(View())) && stale == old(channelPool)
    {
      stale := channelPool;
      restorePromise, channelPool, generation := None, None, generation + 1;
    }

    /** A timer or socket event of the connection, with the listener for its 'disconnected'. */
    method OnConnectionEvent(e: C.Event)
      requires Valid() && Enabled(View(), Net(e))
      modifies this, connection
      ensures Valid() && View() == Step(connection.config, old(View()), Net(e))
    {
      ghost var before := View();
      var emitted := |connection.signals|;
      StepKeeps(connection.config, before, Net(e));
      P.LossIsAnnounced(connection.config, before.net, e);
      match e {
        case Connect => connection.BeginConnecting();
        case DialSucceeds(c) => connection.DialAnswered(c);
        case DialRefused => connection.DialFailed();
        case Closed => connection.ConnectionClosed();
        case TimerFires => connection.RetryTimerFired();
      }
      justUp := e.DialSucceeds? && connection.connection.Some?;
      if C.Lost in connection.signals[emitted..] {
        var stale := HandleDisconnected();
      }
    }

    /** `#doConnect` after its dial: the gate, then the shared restore. */
    method DoConnectResumes()
      requires Valid() && connection.connection.Some?
      modifies this
      ensures Valid() && View() == Step(connection.config, old(View()), ConnectResumes)
    {
      ghost var before := View();
      StepKeeps(connection.config, before, ConnectResumes);
      if channelPool.None? {
        RestoreStateShared();
      }
    }

    /** `#handleReconnection`, which has no gate of its own. */
    method HandleReconnection()
      requires Valid() && Enabled(View(), Reconnected)
      modifies this
      ensures Valid() && View() == Step(connection.config, old(View()), Reconnected)
    {
      ghost var before := View();
      StepKeeps(connection.config, before, Reconnected);
      RestoreStateShared();
    }

    /** `#setupChannelPool` after the pool's initialize: installed only on the connection it
        was built on. */
    method PoolInitialized(r: RestoreId, ok: bool)
      requires Valid() && IsAt(View(), r, Building)
      modifies this
      ensures Valid() && View() == Step(connection.config, old(View()), PoolBuilt(r, ok))
    {
      ghost var before := View();
      StepKeeps(connection.config, before, PoolBuilt(r, ok));
      var stage := Ended(false);
      if ok {
        var live := connection.connection;
        if live.None? || live != restores[r].connection {
          stage := Unwinding;
        } else {
          channelPool := Some(Pool(r, live.value));
          stage := Asserting;
        }
      }
      restores := restores[r := restores[r].(stage := stage)];
      justUp := false;
    }

    /** `#doRestoreState` after ensureExchange: on failure it takes back its own pool only. */
    method ExchangeAnswered(r: RestoreId, ok: bool)
      requires Valid() && IsAt(View(), r, Asserting)
      modifies this
      ensures Valid() && View() == Step(connection.config, old(View()), ExchangeAsserted(r, ok))
    {
      ghost var before := View();
      StepKeeps(connection.config, before, ExchangeAsserted(r, ok));
      var stage := Recreating;
      if !ok {
        if channelPool.Some? && channelPool.value.builder == r {
          channelPool := None;
          stage := Unwinding;
        } else {
          stage := Ended(false);
        }
      }
      restores := restores[r := restores[r].(stage := stage)];
      justUp := false;
    }

    /** `#doRestoreState` settles: after recreateAll, or after closing the pool it gave up. */
    method RestoreEnds(r: RestoreId)
      requires Valid() && (IsAt(View(), r, Recreating) || IsAt(View(), r, Unwinding))
      modifies this
      ensures Valid()
      ensures View() == Step(connection.config, old(View()),
                             if IsAt(old(View()), r, Recreating) then ConsumersRecreated(r) else PoolClosed(r))
    {
      ghost var before := View();
      var ok := restores[r].stage == Recreating;
      StepKeeps(connection.config, before, if ok then ConsumersRecreated(r) else PoolClosed(r));
      restores := restores[r := restores[r].(stage := Ended(ok))];
      justUp := false;
    }

    /** The `finally` of `#restoreState`: only the owner releases the slot. */
    method RestoreFinally(r: RestoreId)
      requires Valid() && r < |restores| && restores[r].stage.Ended?
      modifies this
      ensures Valid() && View() == Step(connection.config, old(View()), Finally(r))
    {
      ghost var before := View();
      StepKeeps(connection.config, before, Finally(r));
      restores := restores[r := restores[r].(stage := Released(restores[r].stage.ok))];
      if restorePromise == Some(r) {
        restorePromise := None;
      }
    }

    /** An explicit `disconnect` while nothing is in flight, as one step. */
    method DisconnectAll()
      requires Valid() && Resting(View())
      modifies this, connection
      ensures Valid() && View() == Step(connection.config, old(View()), Shutdown)
    {
      ghost var before := View();
      StepKeeps(connection.config, before, Shutdown);
      channelPool, justUp := None, false;
      connection.DisconnectNow();
    }
  }
}
