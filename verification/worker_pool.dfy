/** The class of src/consumers/worker-pool.js, updated in place. */
module WorkerPooling {
  import opened WorkerPoolSpec
  import opened WorkerPoolProperties

  // What a call of `run` meets first.
  datatype Acquired = Granted(worker: Worker) | Queued | Refused

  class WorkerPool {
    const workerCount: nat
    const maxRespawns: nat
    var workers: set<Worker>
    var idleWorkers: seq<Worker>
    var waiters: seq<RunId>
    var respawnCounts: map<nat, nat>
    var terminated: bool
    var spawned: nat
    var slotOf: map<Worker, nat>
    // The workers the open calls of `run` hold.
    var runs: map<RunId, Worker>
    ghost var exited: set<Worker>
    ghost var called: set<RunId>
    ghost var queued: seq<RunId>
    ghost var left: seq<RunId>

    ghost function View(): State
      reads this
    {
      State(workerCount, maxRespawns, workers, idleWorkers, waiters, respawnCounts, terminated, spawned, slotOf, runs,
            exited, called, queued, left)
    }

    ghost predicate Valid()
      reads this
    {
      Inv(View(), workerCount)
    }

    constructor (workerCount: nat, maxRespawns: nat)
      ensures View() == Init(workerCount, maxRespawns) && Valid()
    {
      this.workerCount, this.maxRespawns := workerCount, maxRespawns;
      workers, idleWorkers, waiters, respawnCounts, terminated := {}, [], [], map[], false;
      spawned, slotOf, runs := 0, map[], map[];
      exited, called, queued, left := {}, {}, [], [];
      new;
      for i := 0 to workerCount
        invariant View() == SpawnFirst(Empty(workerCount, maxRespawns), i)
      {
        SpawnWorker(i);
      }
      InitHolds(workerCount, maxRespawns);
    }

    method SpawnWorker(slot: nat)
      modifies this
      ensures View() == Spawn(old(View()), slot)
    {
      var worker := spawned;
      spawned := spawned + 1;
      slotOf := slotOf[worker := slot];
      workers := workers + {worker};
      ReleaseWorker(worker);
    }

    method ReleaseWorker(w: Worker)
      modifies this
      ensures View() == Release(old(View()), w)
    {
      if w !in workers {
        return;
      }
      if |waiters| > 0 {
        runs := runs[waiters[0] := w];
        left := left + [waiters[0]];
        waiters := waiters[1..];
      } else {
        idleWorkers := idleWorkers + [w];
      }
    }

    method RejectAllWaiters()
      modifies this`waiters, this`left
      ensures View() == RejectAll(old(View()))
    {
      left := left + waiters;
      waiters := [];
    }

    // `#acquire`: dead workers at the front of the idle list are skipped.
    method AcquireWorker(r: RunId) returns (got: Acquired)
      modifies this
      ensures View() == Acquire(old(View()), r)
      ensures got.Granted? ==> got.worker in workers && r in runs && runs[r] == got.worker
      ensures got.Queued? ==> r in waiters && !terminated
      ensures got.Refused? ==> waiters == old(waiters) && (terminated || workers == {})
    {
      called := called + {r};
      if terminated {
        return Refused;
      }
      while |idleWorkers| > 0
        invariant SkipDead(idleWorkers, workers) == SkipDead(old(idleWorkers), workers)
        invariant View() == old(View()).(called := called, idle := idleWorkers) && called == old(called) + {r}
        decreases |idleWorkers|
      {
        var w := idleWorkers[0];
        idleWorkers := idleWorkers[1..];
        if w in workers {
          runs := runs[r := w];
          return Granted(w);
        }
      }
      if workers == {} {
        return Refused;
      }
      waiters := waiters + [r];
      queued := queued + [r];
      got := Queued;
    }

    /** `run` up to the worker it gets, waits for, or is refused. */
    method RunCall(r: RunId) returns (got: Acquired)
      requires Valid() && r !in called
      modifies this
      ensures Valid() && View() == Step(old(View()), RunCalled(r))
      ensures got.Granted? ==> got.worker in workers && r in runs && runs[r] == got.worker
      ensures got.Queued? ==> r in waiters && !terminated
      ensures got.Refused? ==> waiters == old(waiters) && (terminated || workers == {})
    {
      StepKeeps(View(), RunCalled(r), workerCount);
      got := AcquireWorker(r);
    }

    /** `run` ends, by a message, an error or an exit: its worker is released. */
    method RunFinally(r: RunId)
      requires Valid() && r in runs
      modifies this
      ensures Valid() && View() == Step(old(View()), RunEnds(r))
    {
      ghost var before := View();
      StepKeeps(before, RunEnds(r), workerCount);
      var w := runs[r];
      runs := runs - {r};
      ReleaseWorker(w);
    }

    method Unlist(w: Worker)
      modifies this
      ensures View() == Removed(old(View()), w)
    {
      workers := workers - {w};
      idleWorkers := Without(idleWorkers, w);
      exited := exited + {w};
    }

    // The pool's 'exit' listener.
    method ExitListener(w: Worker)
      requires w in slotOf
      modifies this
      ensures View() == Exit(old(View()), w)
    {
      var slot := slotOf[w];
      Unlist(w);
      if terminated {
        return;
      }
      var respawns := if slot in respawnCounts then respawnCounts[slot] else 0;
      if respawns < maxRespawns {
        respawnCounts := respawnCounts[slot := respawns + 1];
        SpawnWorker(slot);
      } else if workers == {} {
        RejectAllWaiters();
      }
    }

    /** A worker exits: respawned within its slot's budget, or lost. */
    method OnExit(w: Worker)
      requires Valid() && w in slotOf && w !in exited
      modifies this
      ensures Valid() && View() == Step(old(View()), WorkerExits(w))
    {
      StepKeeps(View(), WorkerExits(w), workerCount);
      ExitListener(w);
    }

    /** `terminate` up to its await, and after it. */
    method BeginTerminate()
      requires Valid()
      modifies this
      ensures Valid() && View() == Step(old(View()), Terminate)
    {
      StepKeeps(View(), Terminate, workerCount);
      terminated := true;
      RejectAllWaiters();
    }

    method FinishTerminate()
      requires Valid() && terminated
      modifies this
      ensures Valid() && View() == Step(old(View()), TerminateEnds)
    {
      StepKeeps(View(), TerminateEnds, workerCount);
      workers, idleWorkers := {}, [];
    }
  }
}
