/** What every run of the worker pool keeps: where each worker is, who waits, and how many
    workers are ever spawned. */
module WorkerPoolProperties {
  import opened WorkerPoolSpec

  predicate Holds(s: State, r: RunId, w: Worker) {
    r in s.runs && s.runs[r] == w
  }

  predicate NoDup(xs: seq<nat>) {
    xs == [] || (xs[0] !in xs[1..] && NoDup(xs[1..]))
  }

  ghost predicate Held(s: State, w: Worker) {
    exists r :: Holds(s, r, w)
  }

  ghost predicate IdleOnce(s: State) {
    NoDup(s.idle) && forall w :: w in s.idle ==> w in s.workers
  }

  /** Every live worker is idle, once, or held by exactly one run. */
  ghost predicate Placed(s: State) {
    && IdleOnce(s)
    && (forall q, r :: q in s.runs && r in s.runs && s.runs[q] == s.runs[r] ==> q == r)
    && (forall r :: r in s.runs ==> s.runs[r] !in s.idle)
    && (forall w :: w in s.workers ==> w in s.idle || Held(s, w))
  }

  /** No waiter is stranded: while someone waits, nobody idles, a worker lives, and the pool
      has not been terminated. */
  ghost predicate NobodyStranded(s: State) {
    s.waiters != [] ==> s.idle == [] && s.workers != {} && !s.terminated
  }

  ghost predicate Waiting(s: State) {
    && (forall r :: r in s.waiters ==> r in s.called && r !in s.runs)
    && NoDup(s.waiters)
    && (forall r :: r in s.runs ==> r in s.called)
  }

  /** First come, first served: whoever has left the queue arrived before whoever waits. */
  ghost predicate FirstComeFirstServed(s: State) {
    s.queued == s.left + s.waiters
  }

  function TotalRespawns(respawns: map<nat, nat>, slots: nat): nat {
    if slots == 0 then 0
    else TotalRespawns(respawns, slots - 1) + if slots - 1 in respawns then respawns[slots - 1] else 0
  }

  ghost predicate Counted(s: State, constructed: int) {
    && s.spawned == constructed + TotalRespawns(s.respawns, s.workerCount)
    && (forall slot :: slot in s.respawns ==> s.respawns[slot] <= s.maxRespawns && slot < s.workerCount)
    && (forall w :: w in s.slotOf <==> 0 <= w < s.spawned)
    && (forall w :: w in s.slotOf ==> s.slotOf[w] < s.workerCount)
    && (forall w :: w in s.workers ==> w in s.slotOf && w !in s.exited)
    && (forall r :: r in s.runs ==> s.runs[r] in s.slotOf)
    && s.exited <= s.slotOf.Keys
  }

  ghost predicate Inv(s: State, constructed: int) {
    Placed(s) && NobodyStranded(s) && Waiting(s) && FirstComeFirstServed(s) && Counted(s, constructed)
  }

  // `w` is live but neither idle nor held: the caller is about to release it.
  ghost predicate InHand(s: State, w: Worker) {
    && IdleOnce(s) && w in s.workers && w !in s.idle
    && (forall r :: r in s.runs ==> s.runs[r] != w)
    && (forall q, r :: q in s.runs && r in s.runs && s.runs[q] == s.runs[r] ==> q == r)
    && (forall r :: r in s.runs ==> s.runs[r] !in s.idle)
    && (forall v :: v in s.workers && v != w ==> v in s.idle || Held(s, v))
    && (s.waiters != [] ==> s.idle == [] && !s.terminated)
  }

  lemma {:induction false} StillHeld(s: State, t: State, v: Worker)
    requires Held(s, v) && forall r :: Holds(s, r, v) ==> Holds(t, r, v)
    ensures Held(t, v)
  {
    var r :| Holds(s, r, v);
    assert Holds(t, r, v);
  }

  lemma {:induction false} NoDupAppend(xs: seq<nat>, x: nat)
    requires NoDup(xs) && x !in xs
    ensures NoDup(xs + [x])
  {
    if xs != [] {
      NoDupAppend(xs[1..], x);
      assert (xs + [x])[1..] == xs[1..] + [x];
    }
  }

  lemma {:induction false} ReleasePlaces(s: State, w: Worker)
    requires InHand(s, w) && (forall r :: r in s.waiters ==> r !in s.runs)
    ensures Placed(Release(s, w))
  {
    var t := Release(s, w);
    if s.waiters != [] {
      assert Holds(t, s.waiters[0], w);
    } else {
      NoDupAppend(s.idle, w);
    }
    forall v | v in t.workers ensures v in t.idle || Held(t, v) {
      if v != w && v !in s.idle { StillHeld(s, t, v); }
    }
  }

  lemma {:induction false} ReleaseQueues(s: State, w: Worker)
    requires Waiting(s) && FirstComeFirstServed(s)
    ensures Waiting(Release(s, w)) && FirstComeFirstServed(Release(s, w))
  {
    if w in s.workers && s.waiters != [] {
      assert s.waiters == [s.waiters[0]] + s.waiters[1..];
    }
  }

  lemma {:induction false} ReleaseCounts(s: State, w: Worker, constructed: int)
    requires Counted(s, constructed) && w in s.slotOf
    ensures Counted(Release(s, w), constructed)
  {
  }

  lemma {:induction false} ReleaseKeeps(s: State, w: Worker, constructed: int)
    requires InHand(s, w) && Waiting(s) && FirstComeFirstServed(s) && Counted(s, constructed)
    ensures Inv(Release(s, w), constructed)
  {
    ReleasePlaces(s, w);
    ReleaseQueues(s, w);
    ReleaseCounts(s, w, constructed);
    assert NobodyStranded(Release(s, w));
  }

  lemma {:induction false} TotalOfUpdate(respawns: map<nat, nat>, slot: nat, n: nat, slots: nat)
    ensures TotalRespawns(respawns[slot := n], slots) ==
      TotalRespawns(respawns, slots) +
      (if slot < slots then n - (if slot in respawns then respawns[slot] else 0) else 0)
  {
    if slots > 0 {
      TotalOfUpdate(respawns, slot, n, slots - 1);
    }
  }

  lemma {:induction false} TotalBounded(respawns: map<nat, nat>, slots: nat, max: nat)
    requires forall slot :: slot in respawns ==> respawns[slot] <= max
    ensures TotalRespawns(respawns, slots) <= slots * max
  {
    if slots > 0 {
      TotalBounded(respawns, slots - 1, max);
      assert slots * max == (slots - 1) * max + max;
    }
  }

  // Everything but a live worker for those who wait.
  ghost predicate Settled(s: State, constructed: int) {
    && Placed(s) && Waiting(s) && FirstComeFirstServed(s) && Counted(s, constructed)
    && (s.waiters != [] ==> s.idle == [] && !s.terminated)
  }

  // The new worker, before it is released.
  function Arrive(s: State, slot: nat): State {
    s.(workers := s.workers + {s.spawned}, slotOf := s.slotOf[s.spawned := slot], spawned := s.spawned + 1)
  }

  lemma {:induction false} ArriveInHand(s: State, slot: nat, constructed: int)
    requires Settled(s, constructed)
    ensures InHand(Arrive(s, slot), s.spawned)
  {
    var t := Arrive(s, slot);
    assert s.spawned !in s.slotOf;
    forall v | v in t.workers && v != s.spawned ensures v in t.idle || Held(t, v) {
      if v !in s.idle { StillHeld(s, t, v); }
    }
  }

  lemma {:induction false} ArriveCounts(s: State, slot: nat, constructed: int)
    requires Counted(s, constructed) && slot < s.workerCount
    ensures Counted(Arrive(s, slot), constructed + 1)
  {
  }

  lemma {:induction false} ArriveWaits(s: State, slot: nat, constructed: int)
    requires Settled(s, constructed)
    ensures Waiting(Arrive(s, slot)) && FirstComeFirstServed(Arrive(s, slot))
  {
  }

  lemma {:induction false} SpawnKeeps(s: State, slot: nat, constructed: int)
    requires Settled(s, constructed) && slot < s.workerCount
    ensures Inv(Spawn(s, slot), constructed + 1)
  {
    ArriveInHand(s, slot, constructed);
    ArriveCounts(s, slot, constructed);
    ArriveWaits(s, slot, constructed);
    ReleaseKeeps(Arrive(s, slot), s.spawned, constructed + 1);
  }

  lemma {:induction false} InvSettled(s: State, constructed: int)
    requires Inv(s, constructed)
    ensures Settled(s, constructed)
  {
  }

  lemma {:induction false} SettledInv(s: State, constructed: int)
    requires Settled(s, constructed) && (s.waiters != [] ==> s.workers != {})
    ensures Inv(s, constructed)
  {
  }

  lemma {:induction false} EmptyHolds(workerCount: nat, maxRespawns: nat)
    ensures Inv(Empty(workerCount, maxRespawns), 0)
  {
    NoRespawns(workerCount);
  }

  // The pool after the first `n` workers of the constructor.
  ghost predicate Constructed(t: State, workerCount: nat, maxRespawns: nat, n: nat) {
    Inv(t, n) && t.workerCount == workerCount && t.maxRespawns == maxRespawns
  }

  lemma {:induction false} ConstructNext(u: State, workerCount: nat, maxRespawns: nat, slot: nat, n: nat)
    requires Constructed(u, workerCount, maxRespawns, slot) && n == slot + 1 <= workerCount
    ensures Constructed(Spawn(u, slot), workerCount, maxRespawns, n)
  {
    InvSettled(u, slot);
    SpawnKeeps(u, slot, slot);
  }

  lemma {:induction false} SpawnFirstKeeps(s: State, workerCount: nat, maxRespawns: nat, n: nat)
    requires Constructed(s, workerCount, maxRespawns, 0) && n <= workerCount
    ensures Constructed(SpawnFirst(s, n), workerCount, maxRespawns, n)
  {
    var i, t := 0, s;
    while i < n
      invariant 0 <= i <= n && t == SpawnFirst(s, i) && Constructed(t, workerCount, maxRespawns, i)
    {
      ConstructNext(t, workerCount, maxRespawns, i, i + 1);
      i, t := i + 1, Spawn(t, i);
    }
  }

  lemma {:induction false} NoRespawns(slots: nat)
    ensures TotalRespawns(map[], slots) == 0
  {
    if slots > 0 { NoRespawns(slots - 1); }
  }

  lemma {:induction false} InitHolds(workerCount: nat, maxRespawns: nat)
    ensures Inv(Init(workerCount, maxRespawns), workerCount)
    ensures Init(workerCount, maxRespawns).workerCount == workerCount
    ensures Init(workerCount, maxRespawns).maxRespawns == maxRespawns
  {
    EmptyHolds(workerCount, maxRespawns);
    SpawnFirstKeeps(Empty(workerCount, maxRespawns), workerCount, maxRespawns, workerCount);
  }

  lemma {:induction false} SkipDeadNone(idle: seq<Worker>, workers: set<Worker>)
    requires forall w :: w in idle ==> w in workers
    ensures SkipDead(idle, workers) == idle
  {
  }

  lemma {:induction false} TakeIdleKeeps(s: State, r: RunId, constructed: int)
    requires Inv(s, constructed) && r !in s.called && s.idle != []
    ensures Inv(s.(called := s.called + {r}, idle := s.idle[1..], runs := s.runs[r := s.idle[0]]), constructed)
  {
    var t := s.(called := s.called + {r}, idle := s.idle[1..], runs := s.runs[r := s.idle[0]]);
    assert Holds(t, r, s.idle[0]);
    assert s.idle == [s.idle[0]] + t.idle;
    forall v | v in t.workers ensures v in t.idle || Held(t, v) {
      if v !in s.idle { StillHeld(s, t, v); }
    }
  }

  lemma {:induction false} QueueKeeps(s: State, r: RunId, constructed: int)
    requires Inv(s, constructed) && r !in s.called && s.idle == [] && s.workers != {} && !s.terminated
    ensures Inv(s.(called := s.called + {r}, waiters := s.waiters + [r], queued := s.queued + [r]), constructed)
  {
    var t := s.(called := s.called + {r}, waiters := s.waiters + [r], queued := s.queued + [r]);
    NoDupAppend(s.waiters, r);
    forall v | v in t.workers ensures v in t.idle || Held(t, v) { StillHeld(s, t, v); }
  }

  lemma {:induction false} CallKeeps(s: State, r: RunId, constructed: int)
    requires Inv(s, constructed)
    ensures Inv(s.(called := s.called + {r}), constructed)
  {
    var t := s.(called := s.called + {r});
    forall v | v in t.workers && v !in t.idle ensures Held(t, v) { StillHeld(s, t, v); }
  }

  lemma {:induction false} AcquireKeeps(s: State, r: RunId, constructed: int)
    requires Inv(s, constructed) && r !in s.called
    ensures Inv(Acquire(s, r), constructed)
  {
    SkipDeadNone(s.idle, s.workers);
    if s.terminated {
      CallKeeps(s, r, constructed);
    } else if s.idle != [] {
      TakeIdleKeeps(s, r, constructed);
    } else if s.workers == {} {
      CallKeeps(s, r, constructed);
    } else {
      QueueKeeps(s, r, constructed);
    }
  }

  lemma {:induction false} EndKeeps(s: State, r: RunId, constructed: int)
    requires Inv(s, constructed) && r in s.runs
    ensures Inv(Release(s.(runs := s.runs - {r}), s.runs[r]), constructed)
  {
    var w, t := s.runs[r], s.(runs := s.runs - {r});
    forall v | v in t.workers && v != w ensures v in t.idle || Held(t, v) {
      if v !in s.idle { StillHeld(s, t, v); }
    }
    if w in s.workers {
      ReleaseKeeps(t, w, constructed);
    }
  }

  lemma {:induction false} WithoutRest(idle: seq<Worker>, w: Worker)
    requires NoDup(idle)
    ensures NoDup(Without(idle, w)) && forall v :: v in Without(idle, w) <==> v in idle && v != w
  {
    if idle != [] {
      assert forall v :: v in idle <==> v == idle[0] || v in idle[1..];
      WithoutRest(idle[1..], w);
      if idle[0] != w {
        assert ([idle[0]] + Without(idle[1..], w))[1..] == Without(idle[1..], w);
      }
    }
  }

  lemma {:induction false} RemoveKeeps(s: State, w: Worker, constructed: int)
    requires Inv(s, constructed) && w in s.slotOf
    ensures Settled(Removed(s, w), constructed)
  {
    var t := Removed(s, w);
    WithoutRest(s.idle, w);
    forall v | v in t.workers ensures v in t.idle || Held(t, v) {
      if v !in s.idle { StillHeld(s, t, v); }
    }
  }

  // The respawn counter of a slot goes up; the new worker does not exist yet.
  function Charged(s: State, slot: nat): State {
    s.(respawns := s.respawns[slot := Respawns(s, slot) + 1])
  }

  lemma {:induction false} ChargeKeeps(s: State, slot: nat, constructed: int)
    requires Settled(s, constructed) && slot < s.workerCount && Respawns(s, slot) < s.maxRespawns
    ensures Settled(Charged(s, slot), constructed - 1)
  {
    var u := Charged(s, slot);
    TotalOfUpdate(s.respawns, slot, Respawns(s, slot) + 1, s.workerCount);
    forall v | v in u.workers && v !in u.idle ensures Held(u, v) { StillHeld(s, u, v); }
  }

  lemma {:induction false} ChargedRespawns(s: State, slot: nat)
    ensures Respawn(s, slot) == Spawn(Charged(s, slot), slot) && Charged(s, slot).workerCount == s.workerCount
  {
  }

  lemma {:induction false} RespawnKeeps(s: State, slot: nat, constructed: int)
    requires Settled(s, constructed) && slot < s.workerCount && Respawns(s, slot) < s.maxRespawns
    ensures Inv(Respawn(s, slot), constructed)
  {
    var charged := Charged(s, slot);
    ChargeKeeps(s, slot, constructed);
    ChargedRespawns(s, slot);
    SpawnKeeps(charged, slot, constructed - 1);
  }

  lemma {:induction false} RejectKeeps(s: State, constructed: int)
    requires Settled(s, constructed)
    ensures Inv(RejectAll(s), constructed)
  {
    forall v | v in s.workers && v !in s.idle ensures Held(RejectAll(s), v) { StillHeld(s, RejectAll(s), v); }
  }

  lemma {:induction false} ExitKeeps(s: State, w: Worker, constructed: int)
    requires Inv(s, constructed) && w in s.slotOf
    ensures Inv(Exit(s, w), constructed)
  {
    var t := Removed(s, w);
    RemoveKeeps(s, w, constructed);
    if !s.terminated && Respawns(s, s.slotOf[w]) < s.maxRespawns {
      RespawnKeeps(t, s.slotOf[w], constructed);
    } else if !s.terminated && t.workers == {} {
      RejectKeeps(t, constructed);
    } else {
      SettledInv(t, constructed);
    }
  }

  lemma {:induction false} TerminateKeeps(s: State, constructed: int)
    requires Inv(s, constructed)
    ensures Inv(RejectAll(s.(terminated := true)), constructed)
  {
    var t := RejectAll(s.(terminated := true));
    forall v | v in s.workers && v !in s.idle ensures Held(t, v) { StillHeld(s, t, v); }
  }

  lemma {:induction false} ClearKeeps(s: State, constructed: int)
    requires Inv(s, constructed) && s.terminated
    ensures Inv(s.(workers := {}, idle := []), constructed)
  {
  }

  lemma {:induction false} StepKeeps(s: State, e: Event, constructed: int)
    requires Inv(s, constructed)
    ensures Inv(Step(s, e), constructed)
    ensures Step(s, e).workerCount == s.workerCount && Step(s, e).maxRespawns == s.maxRespawns
  {
    if Enabled(s, e) {
      match e
      case RunCalled(r) => AcquireKeeps(s, r, constructed);
      case RunEnds(r) => EndKeeps(s, r, constructed);
      case WorkerExits(w) => ExitKeeps(s, w, constructed);
      case Terminate => TerminateKeeps(s, constructed);
      case TerminateEnds => ClearKeeps(s, constructed);
    }
  }

  lemma {:induction false} RunKeeps(workerCount: nat, maxRespawns: nat, events: seq<Event>)
    ensures var s := Run(workerCount, maxRespawns, events);
            Inv(s, workerCount) && s.workerCount == workerCount && s.maxRespawns == maxRespawns
  {
    if events == [] {
      InitHolds(workerCount, maxRespawns);
    } else {
      RunKeeps(workerCount, maxRespawns, events[..|events| - 1]);
      StepKeeps(Run(workerCount, maxRespawns, events[..|events| - 1]), events[|events| - 1], workerCount);
    }
  }

  /** However often workers exit, the pool spawns at most workerCount * (1 + maxRespawns). */
  lemma {:induction false} SpawnsBounded(workerCount: nat, maxRespawns: nat, events: seq<Event>)
    ensures Run(workerCount, maxRespawns, events).spawned <= workerCount * (1 + maxRespawns)
  {
    var s := Run(workerCount, maxRespawns, events);
    RunKeeps(workerCount, maxRespawns, events);
    TotalBounded(s.respawns, workerCount, maxRespawns);
    assert workerCount * (1 + maxRespawns) == workerCount + workerCount * maxRespawns;
  }

  /** Waiters leave the queue in the order they came: if the j-th call that ever waited has
      left, so has every earlier one. */
  lemma {:induction false} ServedInOrder(workerCount: nat, maxRespawns: nat, events: seq<Event>, i: nat, j: nat)
    requires var s := Run(workerCount, maxRespawns, events);
             i < j < |s.queued| && s.queued[j] !in s.waiters
    ensures var s := Run(workerCount, maxRespawns, events); i < |s.left| && s.left[i] == s.queued[i]
  {
    var s := Run(workerCount, maxRespawns, events);
    RunKeeps(workerCount, maxRespawns, events);
    assert s.queued[|s.left|..] == s.waiters;
    assert forall k :: |s.left| <= k < |s.queued| ==> s.queued[k] in s.queued[|s.left|..];
  }

  /** Whoever waits has someone to wait for: some live worker is held by a run in flight, and
      when that run ends the first waiter gets it. */
  lemma {:induction false} WaiterIsServedNext(workerCount: nat, maxRespawns: nat, events: seq<Event>) returns (r: RunId)
    requires Run(workerCount, maxRespawns, events).waiters != []
    ensures var s := Run(workerCount, maxRespawns, events);
            r in s.runs && s.runs[r] in s.workers && Step(s, RunEnds(r)).waiters == s.waiters[1..] &&
            s.waiters[0] in Step(s, RunEnds(r)).runs && Step(s, RunEnds(r)).runs[s.waiters[0]] == s.runs[r]
  {
    var s := Run(workerCount, maxRespawns, events);
    RunKeeps(workerCount, maxRespawns, events);
    var w :| w in s.workers;
    r :| Holds(s, r, w);
  }
}
