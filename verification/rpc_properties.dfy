/** Exactly-once settlement and the reply route's fence, over whole runs. */
module RpcProperties {
  import opened Wrappers
  import opened RpcSpec

  // ---------- counting ----------

  function Count(ids: seq<Id>, id: Id): nat {
    if ids == [] then 0 else Count(ids[..|ids| - 1], id) + (if ids[|ids| - 1] == id then 1 else 0)
  }

  function Settlements(log: seq<Settlement>, id: Id): nat {
    if log == [] then 0 else Settlements(log[..|log| - 1], id) + (if log[|log| - 1].id == id then 1 else 0)
  }

  function One(b: bool): nat { if b then 1 else 0 }

  /** All the places where a request can be. */
  function Places(s: State, id: Id): nat {
    One(id in s.waiting) + One(id in s.handed) + One(id in s.refused) +
    Count(s.pending, id) + One(id in s.decoding) + Settlements(s.settled, id)
  }

  // Every request is in exactly one place, its settlement counting as one.
  ghost predicate Accounted(s: State) {
    forall id: Id :: Places(s, id) == One(id in s.asked)
  }

  // A timer is armed exactly while its request is pending.
  predicate Timed(s: State) { s.timers == (set id | id in s.pending) }

  /** An installed channel carries the only listener pair, and its setup began in this epoch. */
  predicate Routed(s: State) {
    (s.replyChannel.Some? ==>
      s.replyListeners.Some? && s.replyListeners.value.channel == s.replyChannel.value && s.installedIn == s.epoch) &&
    (s.replyChannel.None? ==> s.replyListeners.None?) &&
    s.attached == (if s.replyListeners.Some? then {s.replyListeners.value} else {})
  }

  /** One setup at a time, and none runs while a channel is installed. */
  predicate SingleFlight(s: State) {
    (s.setup.Some? ==> s.setup.value.number + 1 == s.setups && s.setup.value.epoch <= s.epoch) &&
    (s.setup.Some? && !s.setup.value.stage.Settled? ==> s.replyChannel.None?) &&
    (s.waiting != {} ==> s.setup.Some?) &&
    (s.replyListeners.Some? ==> s.replyListeners.value.setup < s.setups)
  }

  ghost predicate Inv(s: State) {
    Accounted(s) && Timed(s) && Routed(s) && SingleFlight(s)
  }

  lemma {:induction false} CountMember(ids: seq<Id>, id: Id)
    ensures Count(ids, id) > 0 <==> id in ids
  {
    if ids != [] {
      CountMember(ids[..|ids| - 1], id);
      assert ids == ids[..|ids| - 1] + [ids[|ids| - 1]];
    }
  }

  lemma {:induction false} CountAppend(ids: seq<Id>, next: Id, id: Id)
    ensures Count(ids + [next], id) == Count(ids, id) + One(next == id)
  {
    assert (ids + [next])[..|ids|] == ids;
  }

  lemma {:induction false} CountWithout(ids: seq<Id>, gone: Id, id: Id)
    ensures Count(Without(ids, gone), id) == if id == gone then 0 else Count(ids, id)
  {
    if ids != [] {
      var n := |ids| - 1;
      CountWithout(ids[..n], gone, id);
      var kept := Without(ids[..n], gone);
      if ids[n] == gone {
        assert Without(ids, gone) == kept;
      } else {
        assert Without(ids, gone) == kept + [ids[n]];
        CountAppend(kept, ids[n], id);
      }
    }
  }

  lemma {:induction false} WithoutMembers(ids: seq<Id>, gone: Id)
    ensures (set id | id in Without(ids, gone)) == (set id | id in ids) - {gone}
  {
    forall id: Id
      ensures id in Without(ids, gone) <==> id in ids && id != gone
    {
      CountWithout(ids, gone, id);
      CountMember(ids, id);
      CountMember(Without(ids, gone), id);
    }
  }

  lemma {:induction false} SettlementsConcat(a: seq<Settlement>, b: seq<Settlement>, id: Id)
    ensures Settlements(a + b, id) == Settlements(a, id) + Settlements(b, id)
  {
    if b == [] { assert a + b == a; }
    else {
      var n := |b| - 1;
      assert (a + b)[..|a| + n] == a + b[..n];
      SettlementsConcat(a, b[..n], id);
    }
  }

  lemma {:induction false} SettlesOne(log: seq<Settlement>, next: Settlement, id: Id)
    ensures Settlements(log + [next], id) == Settlements(log, id) + One(next.id == id)
  {
    assert (log + [next])[..|log|] == log;
  }

  lemma {:induction false} LostCounts(ids: seq<Id>, id: Id)
    ensures Settlements(AllLost(ids), id) == Count(ids, id)
  {
    if ids != [] {
      var n := |ids| - 1;
      LostCounts(ids[..n], id);
      SettlesOne(AllLost(ids[..n]), Settlement(ids[n], ConnectionLost), id);
    }
  }

  // ---------- every step keeps the invariant ----------

  lemma {:induction false} LossPlaces(s: State, id: Id)
    ensures Places(DropReplyChannel(s), id) == Places(s, id)
  {
    LostCounts(s.pending, id);
    SettlementsConcat(s.settled, AllLost(s.pending), id);
  }

  lemma {:induction false} SettlePlaces(s: State, done: Id, outcome: Outcome, id: Id)
    requires Count(s.pending, done) <= 1
    ensures Places(SettlePending(s, done, outcome), id) == Places(s, id)
  {
    CountMember(s.pending, done);
    CountWithout(s.pending, done, id);
    SettlesOne(s.settled, Settlement(done, outcome), id);
  }

  lemma {:induction false} ReplyPlaces(s: State, reply: Id, id: Id)
    requires Places(s, reply) <= 1
    ensures Places(Step(s, Reply(reply)), id) == Places(s, id)
  {
    CountMember(s.pending, reply);
    CountWithout(s.pending, reply, id);
  }

  lemma {:induction false} DecodedPlaces(s: State, e: Event, id: Id)
    requires e.Decoded? && Enabled(s, e)
    ensures Places(Step(s, e), id) == Places(s, id)
  {
    var t := Step(s, e);
    SettlesOne(s.settled, Settlement(e.id, e.outcome), id);
    assert t.settled == s.settled + [Settlement(e.id, e.outcome)] && t.pending == s.pending;
  }

  lemma {:induction false} TimerPlaces(s: State, e: Event, id: Id)
    requires e.TimerFires? && Enabled(s, e) && Timed(s) && Count(s.pending, e.id) <= 1
    ensures Places(Step(s, e), id) == Places(s, id)
  {
    CountMember(s.pending, e.id);
    CountWithout(s.pending, e.id, id);
    SettlesOne(s.settled, Settlement(e.id, TimedOut), id);
  }

  lemma {:induction false} RegisterPlaces(s: State, e: Event, id: Id)
    requires e.Register? && Enabled(s, e)
    ensures Places(Step(s, e), id) == Places(s, id)
  {
    CountAppend(s.pending, e.id, id);
  }

  lemma {:induction false} ReleasePlaces(s: State, installed: Option<Channel>, id: Id)
    requires Places(s, id) <= 1
    ensures Places(ReleaseWaiting(s, installed), id) == Places(s, id)
  {
  }

  lemma {:induction false} AskPlaces(s: State, e: Event, id: Id)
    requires e.Ask? && Enabled(s, e) && Places(s, e.id) == 0
    ensures Places(Step(s, e), id) == Places(s, id) + One(id == e.id)
  {
  }

  predicate OfRequest(e: Event) { e.Reply? || e.Decoded? || e.TimerFires? || e.Returned? || e.PublishFails? }

  lemma {:induction false} RequestPlaces(s: State, e: Event, id: Id)
    requires OfRequest(e) && Enabled(s, e) && Timed(s) && Places(s, e.id) <= 1
    ensures Places(Step(s, e), id) == Places(s, id)
  {
    match e {
      case Reply(other) => ReplyPlaces(s, other, id);
      case Decoded(_, _) => DecodedPlaces(s, e, id);
      case TimerFires(_) => TimerPlaces(s, e, id);
      case Returned(_, other) => SettlePlaces(s, other, Unroutable, id);
      case PublishFails(other) => SettlePlaces(s, other, PublishFailed, id);
    }
  }

  lemma {:induction false} RequestAsks(s: State, e: Event)
    requires OfRequest(e)
    ensures Step(s, e).asked == s.asked
  {
  }

  // The setup of the reply consumer, and the requests that wait for it.
  predicate OfSetup(e: Event) { e.ChannelAnswered? || e.Consumed? || e.SetupFinally? || e.Register? }

  lemma {:induction false} SetupPlaces(s: State, e: Event, id: Id)
    requires OfSetup(e) && Enabled(s, e) && Places(s, id) <= 1
    ensures Places(Step(s, e), id) == Places(s, id) && Step(s, e).asked == s.asked
  {
    match e {
      case ChannelAnswered(_) =>
      case Consumed(_) =>
      case SetupFinally => ReleasePlaces(s, s.setup.value.stage.installed, id);
      case Register(_) => RegisterPlaces(s, e, id);
    }
  }

  lemma {:induction false} DropPlaces(s: State, e: Event, id: Id)
    requires e.ConnectionLoss? || e.ChannelGone?
    ensures Places(Step(s, e), id) == Places(s, id) && Step(s, e).asked == s.asked
  {
    if e.ConnectionLoss? { LossPlaces(s.(epoch := s.epoch + 1), id); } else { LossPlaces(s, id); }
  }

  lemma {:induction false} StepPlaces(s: State, e: Event, id: Id)
    requires Accounted(s) && Timed(s)
    ensures Places(Step(s, e), id) == One(id in Step(s, e).asked)
  {
    assert Places(s, id) == One(id in s.asked);
    if Enabled(s, e) && OfRequest(e) {
      assert Places(s, e.id) == One(e.id in s.asked);
      RequestPlaces(s, e, id);
      RequestAsks(s, e);
    } else if Enabled(s, e) && OfSetup(e) {
      SetupPlaces(s, e, id);
    } else if Enabled(s, e) && e.Ask? {
      assert Places(s, e.id) == One(e.id in s.asked);
      AskPlaces(s, e, id);
    } else if Enabled(s, e) {
      DropPlaces(s, e, id);
    }
  }

  lemma {:induction false} StepTimed(s: State, e: Event)
    requires Timed(s)
    ensures Timed(Step(s, e))
  {
    if Enabled(s, e) {
      match e {
        case Reply(id) => WithoutMembers(s.pending, id);
        case TimerFires(id) => WithoutMembers(s.pending, id);
        case Returned(_, id) => WithoutMembers(s.pending, id);
        case PublishFails(id) => WithoutMembers(s.pending, id);
        case _ =>
      }
    }
  }

  lemma {:induction false} StepRouted(s: State, e: Event)
    requires Routed(s) && SingleFlight(s)
    ensures Routed(Step(s, e)) && SingleFlight(Step(s, e))
  {
  }

  lemma {:induction false} StepKeeps(s: State, e: Event)
    requires Inv(s)
    ensures Inv(Step(s, e))
  {
    forall id: Id
      ensures Places(Step(s, e), id) == One(id in Step(s, e).asked)
    {
      StepPlaces(s, e, id);
    }
    StepTimed(s, e);
    StepRouted(s, e);
  }

  lemma {:induction false} InitInv()
    ensures Inv(INIT)
  {
  }

  /** Over every run: each request is in exactly one place and settled at most once, its timer
      armed exactly while it is pending; the reply channel is of this epoch and has the only
      listeners; setups never overlap. */
  lemma {:induction false} RunKeeps(s: State, events: seq<Event>)
    requires Inv(s)
    ensures Inv(Run(s, events))
    decreases |events|
  {
    if events != [] {
      StepKeeps(s, events[0]);
      RunKeeps(Step(s, events[0]), events[1..]);
    }
  }

  // ---------- who settles whom ----------

  // The requests an event may settle, and with what.
  predicate MaySettle(s: State, e: Event, x: Settlement) {
    match e
    case Decoded(id, outcome) => x == Settlement(id, outcome) && id in s.decoding
    case TimerFires(id) => x == Settlement(id, TimedOut) && id in s.pending
    case Returned(_, id) => x == Settlement(id, Unroutable) && id in s.pending
    case PublishFails(id) => x == Settlement(id, PublishFailed) && id in s.pending
    case ConnectionLoss => x.outcome == ConnectionLost && x.id in s.pending
    case ChannelGone(channel) => x.outcome == ConnectionLost && x.id in s.pending && s.replyChannel == Some(channel)
    case _ => false
  }

  lemma {:induction false} LostMembers(ids: seq<Id>)
    ensures forall x :: x in AllLost(ids) <==> x.outcome == ConnectionLost && x.id in ids
  {
    if ids != [] {
      LostMembers(ids[..|ids| - 1]);
      assert ids == ids[..|ids| - 1] + [ids[|ids| - 1]];
    }
  }

  /** An event appends to the log exactly the settlements it may make: a reply, a timeout, a
      return or a failed publish concerns its own request only; a loss settles all pending. */
  lemma {:induction false} SettlesExactly(s: State, e: Event)
    requires Inv(s)
    ensures s.settled <= Step(s, e).settled
    ensures Enabled(s, e) ==>
      forall x :: x in Step(s, e).settled[|s.settled|..] <==> MaySettle(s, e, x)
  {
    LostMembers(s.pending);
    if Enabled(s, e) {
      var more := Step(s, e).settled[|s.settled|..];
      match e {
        case Decoded(id, outcome) => assert more == [Settlement(id, outcome)];
        case TimerFires(id) => assert more == [Settlement(id, TimedOut)];
        case Returned(_, id) => assert id in s.pending ==> more == [Settlement(id, Unroutable)];
        case PublishFails(id) => assert id in s.pending ==> more == [Settlement(id, PublishFailed)];
        case ConnectionLoss => assert more == AllLost(s.pending);
        case ChannelGone(channel) => assert s.replyChannel == Some(channel) ==> more == AllLost(s.pending);
        case _ => assert more == [];
      }
    }
  }

  lemma {:induction false} RunExtends(s: State, events: seq<Event>)
    requires Inv(s)
    ensures s.settled <= Run(s, events).settled
    decreases |events|
  {
    if events != [] {
      SettlesExactly(s, events[0]);
      StepKeeps(s, events[0]);
      RunExtends(Step(s, events[0]), events[1..]);
    }
  }

  lemma {:induction false} SettledMember(log: seq<Settlement>, i: nat)
    requires i < |log|
    ensures Settlements(log, log[i].id) > 0
  {
    if i < |log| - 1 { SettledMember(log[..|log| - 1], i); }
  }

  lemma {:induction false} SettledTwice(log: seq<Settlement>, i: nat, j: nat)
    requires i < j < |log| && log[i].id == log[j].id
    ensures Settlements(log, log[i].id) > 1
  {
    if j < |log| - 1 { SettledTwice(log[..|log| - 1], i, j); }
    else { SettledMember(log[..j], i); }
  }

  /** The first settlement stands: whatever follows, it stays the only one of its request. */
  lemma {:induction false} FirstSettlementStands(s: State, events: seq<Event>, i: nat)
    requires Inv(s) && i < |s.settled|
    ensures var log := Run(s, events).settled;
            i < |log| && log[i] == s.settled[i] &&
            forall j :: 0 <= j < |log| && log[j].id == s.settled[i].id ==> j == i
  {
    var end := Run(s, events);
    RunKeeps(s, events);
    RunExtends(s, events);
    var id := s.settled[i].id;
    assert Places(end, id) == One(id in end.asked);
    forall j | 0 <= j < |end.settled| && end.settled[j].id == id
      ensures j == i
    {
      if j < i { SettledTwice(end.settled, j, i); }
      if i < j { SettledTwice(end.settled, i, j); }
    }
  }

  predicate ByDecoding(x: Settlement) { x.outcome.Replied? || x.outcome.ResponderFailed? || x.outcome.Undecodable? }

  lemma {:induction false} StepWithoutReply(s: State, e: Event, id: Id)
    requires Inv(s) && e != Reply(id) && id !in s.decoding
    ensures id !in Step(s, e).decoding
    ensures forall x <- Step(s, e).settled :: x.id == id && ByDecoding(x) ==> x in s.settled
  {
    SettlesExactly(s, e);
    var log := Step(s, e).settled;
    assert log == s.settled + log[|s.settled|..];
  }

  /** A reply settles only its own request: without a reply that carries its correlation id, a
      request is settled by a timeout, a return, a failed publish or a loss. */
  lemma {:induction false} OnlyItsOwnReply(s: State, events: seq<Event>, id: Id)
    requires Inv(s) && Reply(id) !in events && id !in s.decoding
    ensures forall x <- Run(s, events).settled :: x.id == id && ByDecoding(x) ==> x in s.settled
    decreases |events|
  {
    if events != [] {
      assert events[0] in events && forall e <- events[1..] :: e in events;
      StepWithoutReply(s, events[0], id);
      StepKeeps(s, events[0]);
      OnlyItsOwnReply(Step(s, events[0]), events[1..], id);
    }
  }

  /** A connection loss leaves nothing pending, no timer armed and no listener attached. */
  lemma {:induction false} LossClears(s: State)
    requires Inv(s)
    ensures var t := Step(s, ConnectionLoss);
            t.pending == [] && t.timers == {} && t.attached == {} && t.replyChannel.None? &&
            t.epoch == s.epoch + 1 && t.decoding == s.decoding &&
            forall id <- s.pending :: Settlement(id, ConnectionLost) in t.settled[|s.settled|..]
  {
    LostMembers(s.pending);
    assert Step(s, ConnectionLoss).settled[|s.settled|..] == AllLost(s.pending);
  }

  // ---------- the fence ----------

  // Setup `number` is in flight but outdated, or over without having installed a channel.
  predicate Fenced(s: State, number: nat) {
    number < s.setups &&
    (s.replyListeners.Some? ==> s.replyListeners.value.setup != number) &&
    (s.setup.Some? && s.setup.value.number == number ==>
      s.setup.value.epoch < s.epoch && (s.setup.value.stage.Settled? ==> s.setup.value.stage.installed.None?))
  }

  lemma {:induction false} StepFenced(s: State, e: Event, number: nat)
    requires Fenced(s, number) && SingleFlight(s)
    ensures Fenced(Step(s, e), number)
  {
  }

  lemma {:induction false} RunFenced(s: State, events: seq<Event>, number: nat)
    requires Inv(s) && Fenced(s, number)
    ensures Fenced(Run(s, events), number)
    decreases |events|
  {
    if events != [] {
      StepFenced(s, events[0], number);
      StepKeeps(s, events[0]);
      RunFenced(Step(s, events[0]), events[1..], number);
    }
  }

  /** A setup overtaken by a connection loss never installs its channel nor leaves its
      listeners behind, however the run goes on. */
  lemma {:induction false} OvertakenSetupNeverInstalls(s: State, events: seq<Event>)
    requires Inv(s) && s.setup.Some? && !s.setup.value.stage.Settled?
    ensures var t := Run(Step(s, ConnectionLoss), events);
            var number := s.setup.value.number;
            (forall l <- t.attached :: l.setup != number) &&
            (t.replyChannel.Some? ==> t.replyListeners.Some? && t.replyListeners.value.setup != number)
  {
    var t := Step(s, ConnectionLoss);
    StepKeeps(s, ConnectionLoss);
    RunFenced(t, events, s.setup.value.number);
    RunKeeps(t, events);
  }

  /** When a setup ends, every request that shared it goes on, all with its channel or all
      refused; until then each of them waits for a setup in flight. */
  lemma {:induction false} WaitersGoOnTogether(s: State)
    requires Inv(s) && Enabled(s, SetupFinally)
    ensures var t := Step(s, SetupFinally);
            t.waiting == {} && t.setup.None? &&
            (forall id <- s.waiting :: id in t.handed || id in t.refused) &&
            forall id <- s.waiting ::
              if s.setup.value.stage.installed.Some?
              then id in t.handed && t.handed[id] == s.setup.value.stage.installed.value
              else id in t.refused && id !in t.handed
  {
    forall id <- s.waiting
      ensures id !in s.handed
    {
      assert Places(s, id) == One(id in s.asked);
    }
  }
}
