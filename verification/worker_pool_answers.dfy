/** What the worker pool answers a call, and how often a slot is refilled: exactly as often as
    its workers exit, up to the limit. */
module WorkerPoolAnswers {
  import opened WorkerPoolSpec
  import opened WorkerPoolProperties

  /** A call gets the first idle worker; it waits, last in line, exactly when none idles but some
      live; it is refused by a terminated pool or when all are dead. */
  lemma {:induction false} CallAnswers(s: State, r: RunId, constructed: int)
    requires Inv(s, constructed) && r !in s.called
    ensures var t := Step(s, RunCalled(r));
            if !s.terminated && s.idle != [] then
              r in t.runs && t.runs[r] == s.idle[0] && t.idle == s.idle[1..] && t.waiters == s.waiters
            else if !s.terminated && s.workers != {} then r !in t.runs && t.waiters == s.waiters + [r]
            else r !in t.runs && t.waiters == s.waiters
    ensures r !in s.runs
  {
    if s.idle != [] { assert s.idle[0] in s.idle; }
  }

  /** A run that ends hands its worker, if still alive, to the first in line, or back to the
      idle ones. */
  lemma {:induction false} EndAnswers(s: State, r: RunId)
    requires r in s.runs
    ensures var t, w := Step(s, RunEnds(r)), s.runs[r];
            if w !in s.workers then t.idle == s.idle && t.waiters == s.waiters && t.runs == s.runs - {r}
            else if s.waiters != [] then
              t.waiters == s.waiters[1..] && t.idle == s.idle && s.waiters[0] in t.runs && t.runs[s.waiters[0]] == w
            else t.idle == s.idle + [w] && t.runs == s.runs - {r} && t.waiters == []
  {
  }

  /** `terminate` rejects all who wait, and no later call is served. */
  lemma {:induction false} TerminateAnswers(s: State, r: RunId)
    ensures var t := Step(s, Terminate);
            t.terminated && t.waiters == [] && t.workers == s.workers && t.runs == s.runs &&
            (r !in t.called ==> Step(t, RunCalled(r)).runs == t.runs && Step(t, RunCalled(r)).waiters == []) &&
            Step(t, TerminateEnds).workers == {} && Step(t, TerminateEnds).idle == []
  {
  }

  // ---------- respawning ----------

  // The exits of the slot's workers before any termination.
  function Exits(workerCount: nat, maxRespawns: nat, events: seq<Event>, slot: nat): nat {
    if events == [] then 0
    else
      var before, e := events[..|events| - 1], events[|events| - 1];
      Exits(workerCount, maxRespawns, before, slot) +
      (if ExitsFrom(Run(workerCount, maxRespawns, before), e, slot) then 1 else 0)
  }

  predicate ExitsFrom(s: State, e: Event, slot: nat) {
    e.WorkerExits? && Enabled(s, e) && !s.terminated && s.slotOf[e.worker] == slot
  }

  predicate LiveIn(s: State, w: Worker, slot: nat) {
    w in s.workers && w in s.slotOf && s.slotOf[w] == slot
  }

  ghost predicate Staffed(s: State, slot: nat) {
    exists w :: LiveIn(s, w, slot)
  }

  // Before any termination: everyone who has not exited is alive, each slot has one worker at
  // most, and one exactly as long as its exits are within the limit.
  ghost predicate SlotLife(s: State, slot: nat, exits: nat) {
    (if slot in s.respawns then s.respawns[slot] else 0) == (if exits < s.maxRespawns then exits else s.maxRespawns) &&
    (!s.terminated ==>
      (forall w :: w in s.slotOf && w !in s.exited ==> w in s.workers) &&
      (forall v, w :: LiveIn(s, v, slot) && LiveIn(s, w, slot) ==> v == w) &&
      (Staffed(s, slot) <==> exits <= s.maxRespawns))
  }

  // A step without an exit or a termination.
  lemma {:induction false} SameLife(s: State, t: State, slot: nat, exits: nat)
    requires SlotLife(s, slot, exits) && t.slotOf == s.slotOf && t.respawns == s.respawns
    requires t.maxRespawns == s.maxRespawns && (s.terminated ==> t.terminated)
    requires !t.terminated ==> t.workers == s.workers && t.exited == s.exited
    ensures SlotLife(t, slot, exits)
  {
    if !t.terminated {
      assert forall w :: LiveIn(t, w, slot) == LiveIn(s, w, slot);
    }
  }

  // The worker goes, and its slot is refilled.
  lemma {:induction false} RespawnLife(s: State, w: Worker, slot: nat, exits: nat, constructed: int)
    requires Inv(s, constructed) && SlotLife(s, slot, exits) && w in s.slotOf && w !in s.exited && !s.terminated
    requires (if s.slotOf[w] in s.respawns then s.respawns[s.slotOf[w]] else 0) < s.maxRespawns
    ensures SlotLife(Step(s, WorkerExits(w)), slot, if s.slotOf[w] == slot then exits + 1 else exits)
  {
    var t := Step(s, WorkerExits(w));
    assert s.spawned !in s.slotOf;
    assert t.workers == s.workers - {w} + {s.spawned} && t.slotOf == s.slotOf[s.spawned := s.slotOf[w]];
    assert t.exited == s.exited + {w};
    if s.slotOf[w] == slot {
      assert LiveIn(t, s.spawned, slot) && LiveIn(s, w, slot);
      assert forall v :: LiveIn(t, v, slot) ==> v == s.spawned || LiveIn(s, v, slot);
    } else {
      assert forall v :: LiveIn(t, v, slot) == LiveIn(s, v, slot);
    }
  }

  // The worker goes for good.
  lemma {:induction false} LossLife(s: State, w: Worker, slot: nat, exits: nat)
    requires SlotLife(s, slot, exits) && w in s.slotOf && w !in s.exited && !s.terminated
    requires (if s.slotOf[w] in s.respawns then s.respawns[s.slotOf[w]] else 0) >= s.maxRespawns
    ensures SlotLife(Step(s, WorkerExits(w)), slot, if s.slotOf[w] == slot then exits + 1 else exits)
  {
    var t := Step(s, WorkerExits(w));
    assert t.workers == s.workers - {w} && t.slotOf == s.slotOf && t.exited == s.exited + {w};
    if s.slotOf[w] == slot {
      assert LiveIn(s, w, slot);
      assert forall v :: LiveIn(t, v, slot) ==> LiveIn(s, v, slot) && v != w;
    } else {
      assert forall v :: LiveIn(t, v, slot) == LiveIn(s, v, slot);
    }
  }

  lemma {:induction false} ExitLife(s: State, w: Worker, slot: nat, exits: nat, constructed: int)
    requires Inv(s, constructed) && SlotLife(s, slot, exits) && w in s.slotOf && w !in s.exited && !s.terminated
    ensures SlotLife(Step(s, WorkerExits(w)), slot, if s.slotOf[w] == slot then exits + 1 else exits)
  {
    var home := s.slotOf[w];
    if (if home in s.respawns then s.respawns[home] else 0) < s.maxRespawns {
      RespawnLife(s, w, slot, exits, constructed);
    } else {
      LossLife(s, w, slot, exits);
    }
  }

  lemma {:induction false} NoExit(s: State, e: Event)
    requires !(e.WorkerExits? && Enabled(s, e) && !s.terminated)
    ensures var t := Step(s, e);
            t.slotOf == s.slotOf && t.respawns == s.respawns && t.maxRespawns == s.maxRespawns &&
            (s.terminated ==> t.terminated) && (!t.terminated ==> t.workers == s.workers && t.exited == s.exited)
  {
  }

  lemma {:induction false} StepLife(s: State, e: Event, slot: nat, exits: nat, constructed: int)
    requires Inv(s, constructed) && SlotLife(s, slot, exits)
    ensures SlotLife(Step(s, e), slot, if ExitsFrom(s, e, slot) then exits + 1 else exits)
  {
    if e.WorkerExits? && Enabled(s, e) && !s.terminated {
      ExitLife(s, e.worker, slot, exits, constructed);
    } else {
      NoExit(s, e);
      SameLife(s, Step(s, e), slot, exits);
    }
  }

  lemma {:induction false} FirstLife(workerCount: nat, maxRespawns: nat, n: nat)
    ensures var s := SpawnFirst(Empty(workerCount, maxRespawns), n);
            s.spawned == n && s.respawns == map[] && !s.terminated && s.exited == {} && s.maxRespawns == maxRespawns &&
            (forall w: nat :: w in s.workers <==> w < n) && (forall w: nat :: w in s.slotOf <==> w < n) &&
            forall w: nat :: w < n ==> s.slotOf[w] == w
  {
    if n > 0 { FirstLife(workerCount, maxRespawns, n - 1); }
  }

  /** Over every run, for every slot: it was respawned as often as its workers exited, up to the
      limit; until a termination exactly one worker serves it while the exits are within the
      limit, and none after. */
  lemma {:induction false} RespawnedExactly(workerCount: nat, maxRespawns: nat, events: seq<Event>, slot: nat)
    requires slot < workerCount
    ensures SlotLife(Run(workerCount, maxRespawns, events), slot, Exits(workerCount, maxRespawns, events, slot))
    ensures Run(workerCount, maxRespawns, events).maxRespawns == maxRespawns
  {
    RunKeeps(workerCount, maxRespawns, events);
    if events == [] {
      FirstLife(workerCount, maxRespawns, workerCount);
      var s := Run(workerCount, maxRespawns, []);
      assert LiveIn(s, slot, slot);
    } else {
      var before := events[..|events| - 1];
      RespawnedExactly(workerCount, maxRespawns, before, slot);
      RunKeeps(workerCount, maxRespawns, before);
      StepLife(Run(workerCount, maxRespawns, before), events[|events| - 1], slot,
               Exits(workerCount, maxRespawns, before, slot), workerCount);
    }
  }

  /** The exit that leaves no worker alive rejects all who wait; no other exit does. */
  lemma {:induction false} LastExitRejects(s: State, w: Worker, constructed: int)
    requires Inv(s, constructed) && w in s.slotOf && w !in s.exited && !s.terminated && s.waiters != []
    ensures var t := Step(s, WorkerExits(w));
            t.workers == {} ==> t.waiters == []
    ensures var t := Step(s, WorkerExits(w));
            t.workers != {} ==> t.waiters == s.waiters || (|t.workers - s.workers| == 1 && t.waiters == s.waiters[1..])
  {
    var t := Step(s, WorkerExits(w));
    if s.spawned in t.workers { assert t.workers - s.workers == {s.spawned}; }
  }
}
