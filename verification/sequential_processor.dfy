/** The class of src/consumers/sequential-processor.js, updated in place. Each public
    method is one stretch of code between two awaits and is proved to be that event of
    the state machine; the lemmas about runs then speak about the object. */
module SequentialProcessing {
  import opened Wrappers
  import opened SequentialSpec
  import opened SequentialCascade

  lemma ExpireAllNext(s: State, ids: seq<MessageId>, id: MessageId)
    requires id in ExpireAll(s, ids).pending
    ensures ExpireAll(s, ids + [id]) == ExpireOne(ExpireAll(s, ids), id)
  {
    assert (ids + [id])[..|ids|] == ids;
  }

  class SequentialProcessor {
    const staleTimeout: int
    var processing: map<MessageId, int>
    var pending: map<MessageId, Parked>
    var pendingByDependency: map<MessageId, seq<MessageId>>
    // The open `#process` calls, which JavaScript keeps on its own.
    var frames: map<Delivery, Frame>
    ghost var handed: set<Delivery>
    ghost var discarded: set<Delivery>
    ghost var log: seq<Happening>

    ghost function View(): State
      reads this
    {
      State(staleTimeout, processing, pending, pendingByDependency, frames, handed, discarded, log)
    }

    /** Every delivery in exactly one place, every parked one findable, lawful lives. */
    ghost predicate Valid()
      reads this
    {
      Reached(View())
    }

    // A timeout of 0 falls back to the default, like a missing one.
    constructor (staleTimeout: Option<int>)
      ensures Valid()
      ensures View() == Init(if staleTimeout.None? || staleTimeout == Some(0) then 30000 else staleTimeout.value)
    {
      this.staleTimeout := if staleTimeout.None? || staleTimeout == Some(0) then 30000 else staleTimeout.value;
      processing, pending, pendingByDependency, frames := map[], map[], map[], map[];
      handed, discarded, log := {}, {}, [];
    }

    /** A delivery arrives: `handle`, up to its first await. */
    method Handle(d: Delivery, now: int)
      requires Valid() && d !in handed
      modifies this
      ensures Valid() && View() == Step(old(View()), Deliver(d, now))
    {
      ghost var before := View();
      handed := handed + {d};
      HandleBody(d, now);
      StepReaches(before, Deliver(d, now));
    }

    // Shared by deliveries from the channel and by released dependents.
    method HandleBody(d: Delivery, now: int)
      modifies this
      ensures View() == HandleNow(old(View()), d, now)
    {
      var unresolved := d.dependsOn.Some? && (d.dependsOn.value in processing || d.dependsOn.value in pending);
      if d.id.Some? && unresolved {
        if d.id.value in pending {
          log := log + [Settle(d, Duplicate)];
          return;
        }
        pending := pending[d.id.value := Parked(d, d.dependsOn.value, now)];
        log := log + [Park(d)];
        IndexPendingId(d.id.value, d.dependsOn.value);
        return;
      }
      if d.id.Some? {
        processing := processing[d.id.value := now];
      }
      frames := frames[d := InCallback];
      log := log + [Start(d)];
    }

    method IndexPendingId(id: MessageId, dependency: MessageId)
      modifies this
      ensures View() == IndexPending(old(View()), id, dependency)
    {
      var dependents := [];
      if dependency in pendingByDependency {
        dependents := pendingByDependency[dependency];
      }
      if id !in dependents {
        dependents := dependents + [id];
      }
      pendingByDependency := pendingByDependency[dependency := dependents];
    }

    method RemovePendingId(id: MessageId, dependency: MessageId)
      modifies this
      ensures View() == RemovePending(old(View()), id, dependency)
    {
      pending := pending - {id};
      if dependency in pendingByDependency {
        var dependents := Without(pendingByDependency[dependency], id);
        if |dependents| == 0 {
          pendingByDependency := pendingByDependency - {dependency};
        } else {
          pendingByDependency := pendingByDependency[dependency := dependents];
        }
      }
    }

    /** The callback of a running delivery resolves: settle it, then begin its release
        loop, up to the loop's first await. */
    method CallbackSucceeded(d: Delivery, now: int)
      requires Valid() && d in frames && frames[d].InCallback?
      modifies this
      ensures Valid() && View() == Step(old(View()), CallbackSucceeds(d, now))
    {
      ghost var before := View();
      if d.id.Some? {
        processing := processing - {d.id.value};
      }
      log := log + [Settle(d, Success)];
      if d.id.Some? && d.id.value in pendingByDependency {
        frames := frames[d := Releasing(pendingByDependency[d.id.value], None)];
        pendingByDependency := pendingByDependency - {d.id.value};
      } else {
        frames := frames - {d};
        assert d.id.Some? ==> pendingByDependency - {d.id.value} == pendingByDependency;
      }
      assert View() == Succeed(before, d);
      if d in frames {
        VisitDependents(d, now);
      }
      StepReaches(before, CallbackSucceeds(d, now));
    }

    /** The callback of a running delivery throws. */
    method CallbackFailed(d: Delivery)
      requires Valid() && d in frames && frames[d].InCallback?
      modifies this
      ensures Valid() && View() == Step(old(View()), CallbackFails(d))
    {
      ghost var before := View();
      if d.id.Some? {
        processing := processing - {d.id.value};
      }
      log := log + [Settle(d, Failure)];
      frames := frames - {d};
      assert View() == Fail(before, d);
      StepReaches(before, CallbackFails(d));
    }

    /** The release loop of `k` goes on after an awaited `handle`. */
    method ResumeRelease(k: Delivery, now: int)
      requires Valid() && CanResume(View(), k)
      modifies this
      ensures Valid() && View() == Step(old(View()), Resume(k, now))
    {
      ghost var before := View();
      VisitDependents(k, now);
      StepReaches(before, Resume(k, now));
    }

    // One run of the loop of `#processDependents`, up to its next await or its end.
    method VisitDependents(k: Delivery, now: int)
      requires k in frames && frames[k].Releasing?
      modifies this
      ensures View() == Visit(old(View()), k, now)
    {
      var rest := frames[k].rest;
      while |rest| > 0 && rest[0] !in pending
        invariant SkipGone(rest, pending) == SkipGone(frames[k].rest, pending)
        invariant View() == old(View())
      {
        rest := rest[1..];
      }
      if |rest| == 0 {
        frames := frames - {k};
        return;
      }
      var d := pending[rest[0]].delivery;
      pending := pending - {rest[0]};
      var waits := d.id.Some? && d.dependsOn.Some? && (d.dependsOn.value in processing || d.dependsOn.value in pending);
      frames := frames[k := Releasing(rest[1..], if waits then None else Some(d))];
      assert View() == TakeNext(old(View()), k);
      HandleBody(d, now);
    }

    // One parked message expires: it leaves the maps and is settled as a failure.
    method ExpireId(id: MessageId)
      requires id in pending
      modifies this
      ensures View() == ExpireOne(old(View()), id) && pending == old(pending) - {id}
    {
      var p := pending[id];
      RemovePendingId(id, p.dependsOn);
      log := log + [Settle(p.delivery, Expired)];
    }

    /** The periodic sweep. The messages come out in the order they were settled. */
    method Cleanup(now: int) returns (expired: seq<MessageId>)
      requires Valid()
      modifies this
      ensures Distinct(expired) && forall id :: id in expired <==> IsStale(old(View()), id, now)
      ensures Valid() && View() == Step(old(View()), Sweep(now, expired))
    {
      ghost var before := View();
      processing := map id | id in processing && now - processing[id] <= staleTimeout :: processing[id];
      assert View() == ForgetStale(before, now);
      expired := ExpirePending(now);
      StepReaches(before, Sweep(now, expired));
    }

    method ExpirePending(now: int) returns (expired: seq<MessageId>)
      modifies this
      ensures Distinct(expired) && forall id :: id in expired <==> IsStale(old(View()), id, now)
      ensures View() == ExpireAll(old(View()), expired)
    {
      ghost var swept := View();
      var todo := pending.Keys;
      expired := [];
      while todo != {}
        invariant todo <= pending.Keys
        invariant forall id :: id in old(pending) <==> id in pending || id in expired
        invariant forall id :: id in pending ==> pending[id] == old(pending)[id]
        invariant forall id :: id in expired ==> id !in pending && now - old(pending)[id].queuedAt > staleTimeout
        invariant forall id :: id in pending && id !in todo ==> now - pending[id].queuedAt <= staleTimeout
        invariant Distinct(expired)
        invariant View() == ExpireAll(swept, expired)
        decreases todo
      {
        var id :| id in todo;
        todo := todo - {id};
        if now - pending[id].queuedAt > staleTimeout {
          ExpireAllNext(swept, expired, id);
          ExpireId(id);
          expired := expired + [id];
        }
      }
    }

    /** Forgets everything but the calls that are still open. */
    method DisposeAll()
      requires Valid()
      modifies this
      ensures Valid() && View() == Step(old(View()), Dispose)
    {
      ghost var before := View();
      discarded := discarded + (set id | id in pending :: pending[id].delivery);
      processing, pending, pendingByDependency := map[], map[], map[];
      StepReaches(before, Dispose);
    }
  }
}
