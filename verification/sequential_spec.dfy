/** The state machine of src/consumers/sequential-processor.js.

    One event is one stretch of JavaScript between two awaits. The awaiting call
    frames of `#process` and `#processDependents` are state here (`frames`), keyed by
    the delivery they were called for: every delivery is processed at most once, so
    the key is unique. `handed`, `discarded` and `log` are history. */
module SequentialSpec {
  import opened Wrappers

  // Message ids are only compared for equality. A missing or empty id is None.
  type MessageId = nat

  // The tag tells two deliveries of one message apart.
  datatype Delivery = Delivery(tag: nat, id: Option<MessageId>, dependsOn: Option<MessageId>)

  datatype Parked = Parked(delivery: Delivery, dependsOn: MessageId, queuedAt: int)

  /** InCallback: `#process` awaits the callback. Releasing: the callback succeeded and
      `#processDependents` still has `rest` to visit. If its last `handle` call started
      a callback, that delivery is `child`, and the loop waits until the frame of
      `child` is gone; a `handle` call that parked returned at once. */
  datatype Frame = InCallback | Releasing(rest: seq<MessageId>, child: Option<Delivery>)

  datatype Outcome = Success | Duplicate | Failure | Expired

  datatype Happening =
    | Park(delivery: Delivery)
    | Start(delivery: Delivery)
    | Settle(delivery: Delivery, outcome: Outcome)

  datatype State = State(
    staleTimeout: int,
    processing: map<MessageId, int>,
    pending: map<MessageId, Parked>,
    index: map<MessageId, seq<MessageId>>,
    frames: map<Delivery, Frame>,
    handed: set<Delivery>,
    discarded: set<Delivery>,
    log: seq<Happening>)

  /** Sweep carries the order in which expired messages are settled: the iteration
      order of the JavaScript map is left open. */
  datatype Event =
    | Deliver(delivery: Delivery, now: int)
    | CallbackSucceeds(delivery: Delivery, now: int)
    | CallbackFails(delivery: Delivery)
    | Resume(delivery: Delivery, now: int)
    | Sweep(now: int, expired: seq<MessageId>)
    | Dispose

  function Init(staleTimeout: int): State {
    State(staleTimeout, map[], map[], map[], map[], {}, {}, [])
  }

  predicate Unresolved(s: State, dependency: MessageId) {
    dependency in s.processing || dependency in s.pending
  }

  predicate MustWait(s: State, d: Delivery) {
    d.id.Some? && d.dependsOn.Some? && Unresolved(s, d.dependsOn.value)
  }

  // A JavaScript Set in insertion order.
  function Added(xs: seq<MessageId>, x: MessageId): seq<MessageId> {
    if x in xs then xs else xs + [x]
  }

  function Without(xs: seq<MessageId>, x: MessageId): (r: seq<MessageId>)
    ensures forall y :: y in r <==> y in xs && y != x
  {
    if xs == [] then []
    else if xs[0] == x then Without(xs[1..], x)
    else
      assert forall y :: y in xs <==> y == xs[0] || y in xs[1..];
      [xs[0]] + Without(xs[1..], x)
  }

  function Dependents(s: State, dependency: MessageId): seq<MessageId> {
    if dependency in s.index then s.index[dependency] else []
  }

  function IndexPending(s: State, id: MessageId, dependency: MessageId): State {
    s.(index := s.index[dependency := Added(Dependents(s, dependency), id)])
  }

  function RemovePending(s: State, id: MessageId, dependency: MessageId): State {
    var t := s.(pending := s.pending - {id});
    if dependency !in s.index then t
    else
      var left := Without(s.index[dependency], id);
      t.(index := if left == [] then s.index - {dependency} else s.index[dependency := left])
  }

  function ParkDelivery(s: State, d: Delivery, now: int): State
    requires d.id.Some? && d.dependsOn.Some?
  {
    var id, dependency := d.id.value, d.dependsOn.value;
    IndexPending(
      s.(pending := s.pending[id := Parked(d, dependency, now)], log := s.log + [Park(d)]),
      id, dependency)
  }

  function StartCallback(s: State, d: Delivery, now: int): State {
    s.(processing := if d.id.Some? then s.processing[d.id.value := now] else s.processing,
       frames := s.frames[d := InCallback],
       log := s.log + [Start(d)])
  }

  /** The synchronous part of `handle`: acknowledge a duplicate, park, or start. */
  function HandleNow(s: State, d: Delivery, now: int): State {
    if MustWait(s, d) then
      if d.id.value in s.pending then s.(log := s.log + [Settle(d, Duplicate)])
      else ParkDelivery(s, d, now)
    else StartCallback(s, d, now)
  }

  function StopProcessing(s: State, d: Delivery): map<MessageId, int> {
    if d.id.Some? then s.processing - {d.id.value} else s.processing
  }

  // The ids at the front that are no longer parked are skipped without an await.
  function SkipGone(rest: seq<MessageId>, pending: map<MessageId, Parked>): (r: seq<MessageId>)
    ensures r != [] ==> r[0] in pending
  {
    if rest == [] || rest[0] in pending then rest else SkipGone(rest[1..], pending)
  }

  /** The release loop of `k` takes the next parked message out of `pending`. */
  function TakeNext(s: State, k: Delivery): State
    requires k in s.frames && s.frames[k].Releasing? && SkipGone(s.frames[k].rest, s.pending) != []
  {
    var rest := SkipGone(s.frames[k].rest, s.pending);
    var d, t := s.pending[rest[0]].delivery, s.(pending := s.pending - {rest[0]});
    t.(frames := s.frames[k := Releasing(rest[1..], if MustWait(t, d) then None else Some(d))])
  }

  /** One turn of the release loop of `k`: up to and including the next `handle`. */
  function Visit(s: State, k: Delivery, now: int): State
    requires k in s.frames && s.frames[k].Releasing?
  {
    var rest := SkipGone(s.frames[k].rest, s.pending);
    if rest == [] then s.(frames := s.frames - {k})
    else HandleNow(TakeNext(s, k), s.pending[rest[0]].delivery, now)
  }

  function Succeed(s: State, d: Delivery): State {
    s.(processing := StopProcessing(s, d), log := s.log + [Settle(d, Success)],
       frames := if d.id.Some? && d.id.value in s.index
                 then s.frames[d := Releasing(s.index[d.id.value], None)] else s.frames - {d},
       index := if d.id.Some? then s.index - {d.id.value} else s.index)
  }

  function Fail(s: State, d: Delivery): State {
    s.(processing := StopProcessing(s, d), log := s.log + [Settle(d, Failure)], frames := s.frames - {d})
  }

  function ForgetStale(s: State, now: int): State {
    s.(processing := map id | id in s.processing && now - s.processing[id] <= s.staleTimeout :: s.processing[id])
  }

  predicate IsStale(s: State, id: MessageId, now: int) {
    id in s.pending && now - s.pending[id].queuedAt > s.staleTimeout
  }

  function ExpireOne(s: State, id: MessageId): State
    requires id in s.pending
  {
    var p := s.pending[id];
    var t := RemovePending(s, id, p.dependsOn);
    t.(log := t.log + [Settle(p.delivery, Expired)])
  }

  function ExpireAll(s: State, ids: seq<MessageId>): State {
    if ids == [] then s
    else
      var t := ExpireAll(s, ids[..|ids| - 1]);
      if ids[|ids| - 1] in t.pending then ExpireOne(t, ids[|ids| - 1]) else t
  }

  predicate Distinct(ids: seq<MessageId>) {
    forall i, j :: 0 <= i < j < |ids| ==> ids[i] != ids[j]
  }

  function Discard(s: State): State {
    s.(processing := map[], pending := map[], index := map[],
       discarded := s.discarded + (set id | id in s.pending :: s.pending[id].delivery))
  }

  // A release loop goes on once the delivery it handed to `handle` is done or parked.
  predicate CanResume(s: State, k: Delivery) {
    k in s.frames && s.frames[k].Releasing? &&
    (s.frames[k].child.Some? ==> s.frames[k].child.value !in s.frames)
  }

  ghost predicate Enabled(s: State, e: Event) {
    match e
    case Deliver(d, _) => d !in s.handed
    case CallbackSucceeds(d, _) => d in s.frames && s.frames[d].InCallback?
    case CallbackFails(d) => d in s.frames && s.frames[d].InCallback?
    case Resume(k, _) => CanResume(s, k)
    case Sweep(now, expired) => Distinct(expired) && forall id :: id in expired <==> IsStale(s, id, now)
    case Dispose => true
  }

  ghost function Apply(s: State, e: Event): State
    requires Enabled(s, e)
  {
    match e
    case Deliver(d, now) => HandleNow(s.(handed := s.handed + {d}), d, now)
    case CallbackSucceeds(d, now) =>
      var t := Succeed(s, d);
      if d in t.frames then Visit(t, d, now) else t
    case CallbackFails(d) => Fail(s, d)
    case Resume(k, now) => Visit(s, k, now)
    case Sweep(now, expired) => ExpireAll(ForgetStale(s, now), expired)
    case Dispose => Discard(s)
  }

  // An event that cannot happen in a state changes nothing.
  ghost function Step(s: State, e: Event): State {
    if Enabled(s, e) then Apply(s, e) else s
  }

  ghost function Run(s: State, events: seq<Event>): State {
    if events == [] then s
    else Step(Run(s, events[..|events| - 1]), events[|events| - 1])
  }
}
