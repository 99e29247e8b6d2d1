/** The scheduler of src/consumers/worker-pool.js as a state machine. A promise handed a
    worker resumes before the next message, error or exit of any worker. */
module WorkerPoolSpec {

  // Workers are numbered in the order they are created; runs are the calls of `run`.
  type Worker = nat
  type RunId = nat

  /** `slotOf` is the worker id each worker was spawned for, `runs` the worker each running
      call holds. `called`, `exited`, `queued` and `left` (the calls that waited and those
      that no longer do, in order) are history. */
  datatype State = State(
    workerCount: nat,
    maxRespawns: nat,
    workers: set<Worker>,
    idle: seq<Worker>,
    waiters: seq<RunId>,
    respawns: map<nat, nat>,
    terminated: bool,
    spawned: nat,
    slotOf: map<Worker, nat>,
    runs: map<RunId, Worker>,
    exited: set<Worker>,
    called: set<RunId>,
    queued: seq<RunId>,
    left: seq<RunId>)

  datatype Event =
    | RunCalled(run: RunId)
    | RunEnds(run: RunId)
    | WorkerExits(worker: Worker)
    | Terminate
    | TerminateEnds

  function Empty(workerCount: nat, maxRespawns: nat): State {
    State(workerCount, maxRespawns, {}, [], [], map[], false, 0, map[], map[], {}, {}, [], [])
  }

  function Release(s: State, w: Worker): State {
    if w !in s.workers then s
    else if s.waiters != [] then
      s.(runs := s.runs[s.waiters[0] := w], waiters := s.waiters[1..], left := s.left + [s.waiters[0]])
    else s.(idle := s.idle + [w])
  }

  function Spawn(s: State, slot: nat): State {
    Release(s.(workers := s.workers + {s.spawned}, slotOf := s.slotOf[s.spawned := slot], spawned := s.spawned + 1),
            s.spawned)
  }

  function SpawnFirst(s: State, n: nat): State {
    if n == 0 then s else Spawn(SpawnFirst(s, n - 1), n - 1)
  }

  // The constructor.
  function Init(workerCount: nat, maxRespawns: nat): State {
    SpawnFirst(Empty(workerCount, maxRespawns), workerCount)
  }

  function SkipDead(idle: seq<Worker>, workers: set<Worker>): (r: seq<Worker>)
    ensures r != [] ==> r[0] in workers
  {
    if idle == [] || idle[0] in workers then idle else SkipDead(idle[1..], workers)
  }

  function Acquire(s: State, r: RunId): State {
    var t := s.(called := s.called + {r});
    var idle := SkipDead(s.idle, s.workers);
    if s.terminated then t
    else if idle != [] then t.(idle := idle[1..], runs := s.runs[r := idle[0]])
    else if s.workers == {} then t.(idle := [])
    else t.(idle := [], waiters := s.waiters + [r], queued := s.queued + [r])
  }

  function RejectAll(s: State): State {
    s.(waiters := [], left := s.left + s.waiters)
  }

  function Without(idle: seq<Worker>, w: Worker): seq<Worker> {
    if idle == [] then [] else if idle[0] == w then idle[1..] else [idle[0]] + Without(idle[1..], w)
  }

  function Respawns(s: State, slot: nat): nat {
    if slot in s.respawns then s.respawns[slot] else 0
  }

  // The worker is gone from the pool, and from the idle list.
  function Removed(s: State, w: Worker): State {
    s.(workers := s.workers - {w}, idle := Without(s.idle, w), exited := s.exited + {w})
  }

  function Respawn(s: State, slot: nat): State {
    Spawn(s.(respawns := s.respawns[slot := Respawns(s, slot) + 1]), slot)
  }

  function Exit(s: State, w: Worker): State
    requires w in s.slotOf
  {
    if s.terminated then Removed(s, w)
    else if Respawns(s, s.slotOf[w]) < s.maxRespawns then Respawn(Removed(s, w), s.slotOf[w])
    else if Removed(s, w).workers == {} then RejectAll(Removed(s, w))
    else Removed(s, w)
  }

  predicate Enabled(s: State, e: Event) {
    match e
    case RunCalled(r) => r !in s.called
    case RunEnds(r) => r in s.runs
    case WorkerExits(w) => w in s.slotOf && w !in s.exited
    case Terminate => true
    case TerminateEnds => s.terminated
  }

  function Step(s: State, e: Event): State {
    if !Enabled(s, e) then s
    else
      match e
      case RunCalled(r) => Acquire(s, r)
      case RunEnds(r) => Release(s.(runs := s.runs - {r}), s.runs[r])
      case WorkerExits(w) => Exit(s, w)
      case Terminate => RejectAll(s.(terminated := true))
      case TerminateEnds => s.(workers := {}, idle := [])
  }

  function Run(workerCount: nat, maxRespawns: nat, events: seq<Event>): State {
    if events == [] then Init(workerCount, maxRespawns)
    else Step(Run(workerCount, maxRespawns, events[..|events| - 1]), events[|events| - 1])
  }
}
