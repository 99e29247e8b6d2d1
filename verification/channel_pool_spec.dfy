/** The slots of src/connection/channel-pool.js as a state machine: initialisation,
    replacement of lost channels, close. One event is one stretch between two awaits. */
module ChannelPoolSpec {
  import opened Wrappers

  type Channel = nat

  const MAX_REPLACE_ATTEMPTS := 5

  /** Dialing: createConfirmChannel is awaited. Opened: the channel is there (its slot
      claimed, unless the pool was closed) and the loop has not looked at `closed` yet. */
  datatype LoopStage = Dialing | Opened(channel: Channel) | Sleeping | Exhausted | Done

  // One `#replacePoolChannel`: its slot and the number of opens it has asked for.
  datatype Loop = Loop(slot: nat, attempt: nat, stage: LoopStage)

  datatype Phase = New | Initializing(failed: set<nat>) | Ready | Refused

  /** `live` are the channels the broker keeps open, `closeRequested` those the pool has
      called close() on; `home` is the slot each channel was opened for. */
  datatype State = State(
    size: nat,
    phase: Phase,
    channels: seq<Option<Channel>>,
    closed: bool,
    opening: set<nat>,
    loops: seq<Loop>,
    live: set<Channel>,
    closeRequested: set<Channel>,
    home: map<Channel, nat>)

  datatype Event =
    | Initialize
    | FirstOpenAnswered(slot: nat, answer: Option<Channel>)
    | InitializeSettles
    | ChannelDies(channel: Channel)
    | LoopOpenAnswered(loop: nat, answer: Option<Channel>)
    | LoopChecks(loop: nat)
    | LoopWakes(loop: nat)
    | Close
    | CloseEnds

  function Init(size: nat): State {
    State(size, New, [], false, {}, [], {}, {}, map[])
  }

  // Writing past the end of a JavaScript array leaves holes, which read as undefined.
  function Written(channels: seq<Option<Channel>>, slot: nat, c: Channel): (r: seq<Option<Channel>>)
    ensures |r| == if slot < |channels| then |channels| else slot + 1
  {
    if slot < |channels| then channels[slot := Some(c)]
    else channels + seq(slot - |channels|, _ => None) + [Some(c)]
  }

  function Occupant(s: State, slot: nat): Option<Channel> {
    if slot < |s.channels| then s.channels[slot] else None
  }

  // `#createPoolChannel` after its await: a closed pool claims nothing.
  function Claim(s: State, slot: nat, c: Channel): State {
    s.(channels := if s.closed then s.channels else Written(s.channels, slot, c),
       live := s.live + {c}, home := s.home[c := slot])
  }

  function Occupants(s: State): set<Channel> {
    set i | 0 <= i < |s.channels| && s.channels[i].Some? :: s.channels[i].value
  }

  function BeginClose(s: State): State {
    s.(closed := true, closeRequested := s.closeRequested + Occupants(s))
  }

  function WithLoop(s: State, n: nat, l: Loop): State
    requires n < |s.loops|
  {
    s.(loops := s.loops[n := l])
  }

  // The 'close' listener of a channel.
  function Die(s: State, c: Channel): State
    requires c in s.home
  {
    var t, slot := s.(live := s.live - {c}), s.home[c];
    if s.closed || Occupant(s, slot) != Some(c) then t
    else t.(channels := s.channels[slot := None], loops := s.loops + [Loop(slot, 1, Dialing)])
  }

  function AnswerLoop(s: State, n: nat, answer: Option<Channel>): State
    requires n < |s.loops|
  {
    var l := s.loops[n];
    if answer.None? then WithLoop(s, n, l.(stage := Sleeping))
    else WithLoop(Claim(s, l.slot, answer.value), n, l.(stage := Opened(answer.value)))
  }

  function CheckLoop(s: State, n: nat): State
    requires n < |s.loops| && s.loops[n].stage.Opened?
  {
    var l := s.loops[n];
    var t := WithLoop(s, n, l.(stage := Done));
    if s.closed then t.(closeRequested := s.closeRequested + {l.stage.channel}) else t
  }

  function WakeLoop(s: State, n: nat): State
    requires n < |s.loops|
  {
    var l := s.loops[n];
    if s.closed then WithLoop(s, n, l.(stage := Done))
    else if l.attempt < MAX_REPLACE_ATTEMPTS then WithLoop(s, n, Loop(l.slot, l.attempt + 1, Dialing))
    else WithLoop(s, n, l.(stage := Exhausted))
  }

  function Slots(size: nat): (r: set<nat>)
    ensures forall i: nat :: i in r <==> i < size
  {
    if size == 0 then {} else Slots(size - 1) + {size - 1}
  }

  predicate Enabled(s: State, e: Event) {
    match e
    case Initialize => s.phase.New?
    case FirstOpenAnswered(slot, answer) =>
      s.phase.Initializing? && slot in s.opening && (answer.Some? ==> answer.value !in s.home)
    case InitializeSettles => s.phase.Initializing? && s.opening == {}
    case ChannelDies(c) => c in s.live && c in s.home
    case LoopOpenAnswered(n, answer) =>
      n < |s.loops| && s.loops[n].stage.Dialing? && (answer.Some? ==> answer.value !in s.home)
    case LoopChecks(n) => n < |s.loops| && s.loops[n].stage.Opened?
    case LoopWakes(n) => n < |s.loops| && s.loops[n].stage.Sleeping?
    case Close => s.phase.Ready?
    case CloseEnds => s.closed
  }

  function Step(s: State, e: Event): State {
    if !Enabled(s, e) then s
    else
      match e
      case Initialize => s.(phase := Initializing({}), closed := false, opening := Slots(s.size))
      case FirstOpenAnswered(slot, answer) =>
        var t := s.(opening := s.opening - {slot});
        if answer.Some? then Claim(t, slot, answer.value)
        else t.(phase := Initializing(s.phase.failed + {slot}))
      case InitializeSettles => if s.phase.failed == {} then s.(phase := Ready) else BeginClose(s.(phase := Refused))
      case ChannelDies(c) => Die(s, c)
      case LoopOpenAnswered(n, answer) => AnswerLoop(s, n, answer)
      case LoopChecks(n) => CheckLoop(s, n)
      case LoopWakes(n) => WakeLoop(s, n)
      case Close => BeginClose(s)
      case CloseEnds => s.(channels := [])
  }

  function Run(size: nat, events: seq<Event>): State {
    if events == [] then Init(size)
    else Step(Run(size, events[..|events| - 1]), events[|events| - 1])
  }
}
