/** The requester's side of src/messaging/rpc.js: pending requests, the competing settlers,
    and the shared reply-consumer setup with its epoch fence. */
module RpcSpec {
  import opened Wrappers

  // A request and its correlation id.
  type Id = nat
  type Channel = nat

  datatype Outcome = Replied | ResponderFailed | Undecodable | TimedOut | Unroutable | PublishFailed | ConnectionLost

  datatype Settlement = Settlement(id: Id, outcome: Outcome)

  /** Where a setup waits: for its dedicated channel, for the broker's consume-ok, or, settled,
      for its `finally`. */
  datatype Stage = Opening | Consuming(channel: Channel) | Settled(installed: Option<Channel>)

  datatype Setup = Setup(number: nat, epoch: nat, stage: Stage)

  // One return/close listener pair; every setup creates its own.
  datatype Listeners = Listeners(channel: Channel, setup: nat)

  /** `attached`: the pairs registered on channels. `installedIn`: the epoch in which the setup
      of the installed channel began. `asked`: every request so far. `waiting` requests share
      the setup's promise, `handed` ones hold a channel and encode, `refused` ones were
      rejected with the setup. */
  datatype State = State(
    epoch: nat,
    replyChannel: Option<Channel>,
    replyListeners: Option<Listeners>,
    attached: set<Listeners>,
    installedIn: nat,
    setup: Option<Setup>,
    setups: nat,
    asked: set<Id>,
    waiting: set<Id>,
    handed: map<Id, Channel>,
    refused: set<Id>,
    pending: seq<Id>,
    timers: set<Id>,
    decoding: set<Id>,
    settled: seq<Settlement>)

  const INIT := State(0, None, None, {}, 0, None, 0, {}, {}, map[], {}, [], {}, {}, [])

  datatype Event =
    | Ask(id: Id, connected: bool)
    | ChannelAnswered(answer: Option<Channel>)
    | Consumed(ok: bool)
    | SetupFinally
    | Register(id: Id)
    | Reply(id: Id)
    | Decoded(id: Id, outcome: Outcome)
    | TimerFires(id: Id)
    | Returned(channel: Channel, id: Id)
    | PublishFails(id: Id)
    | ConnectionLoss
    | ChannelGone(channel: Channel)

  predicate Enabled(s: State, e: Event) {
    match e
    case Ask(id, _) => id !in s.asked
    case ChannelAnswered(_) => s.setup.Some? && s.setup.value.stage.Opening?
    case Consumed(_) => s.setup.Some? && s.setup.value.stage.Consuming?
    case SetupFinally => s.setup.Some? && s.setup.value.stage.Settled?
    case Register(id) => id in s.handed
    case Reply(_) => true
    case Decoded(id, outcome) =>
      id in s.decoding && (outcome.Replied? || outcome.ResponderFailed? || outcome.Undecodable?)
    case TimerFires(id) => id in s.timers
    case Returned(channel, _) => exists l <- s.attached :: l.channel == channel
    case PublishFails(_) => true
    case ConnectionLoss => true
    case ChannelGone(_) => true
  }

  function Without(ids: seq<Id>, id: Id): seq<Id> {
    if ids == [] then []
    else Without(ids[..|ids| - 1], id) + (if ids[|ids| - 1] == id then [] else [ids[|ids| - 1]])
  }

  function AllLost(ids: seq<Id>): seq<Settlement> {
    if ids == [] then [] else AllLost(ids[..|ids| - 1]) + [Settlement(ids[|ids| - 1], ConnectionLost)]
  }

  function Detach(s: State): State {
    if s.replyListeners.None? then s
    else s.(attached := s.attached - {s.replyListeners.value}, replyListeners := None)
  }

  function RejectAllPending(s: State): State {
    s.(pending := [], timers := s.timers - (set id | id in s.pending), settled := s.settled + AllLost(s.pending))
  }

  function DropReplyChannel(s: State): State {
    RejectAllPending(Detach(s).(replyChannel := None))
  }

  function SettlePending(s: State, id: Id, outcome: Outcome): State {
    if id !in s.pending then s
    else s.(pending := Without(s.pending, id), timers := s.timers - {id},
            settled := s.settled + [Settlement(id, outcome)])
  }

  function EnsureReplyConsumer(s: State, id: Id, connected: bool): State {
    if s.replyChannel.Some? then s.(handed := s.handed[id := s.replyChannel.value])
    else
      var shared := if s.setup.Some? then s
        else s.(setup := Some(Setup(s.setups, s.epoch, if connected then Opening else Settled(None))),
                setups := s.setups + 1);
      shared.(waiting := shared.waiting + {id})
  }

  function WithStage(s: State, stage: Stage): State
    requires s.setup.Some?
  {
    s.(setup := Some(s.setup.value.(stage := stage)))
  }

  // The listeners go on before the fence, and come off again behind it.
  function FinishSetup(s: State, setup: Setup, channel: Channel): State {
    var l := Listeners(channel, setup.number);
    var listening := s.(attached := s.attached + {l}, replyListeners := Some(l));
    if setup.epoch != s.epoch then Detach(listening).(setup := Some(setup.(stage := Settled(None))))
    else listening.(replyChannel := Some(channel), installedIn := setup.epoch,
                    setup := Some(setup.(stage := Settled(Some(channel)))))
  }

  function ReleaseWaiting(s: State, installed: Option<Channel>): State {
    var free := s.(setup := None, waiting := {});
    if installed.Some? then free.(handed := s.handed + (map id | id in s.waiting :: installed.value))
    else free.(refused := s.refused + s.waiting)
  }

  function Step(s: State, e: Event): State {
    if !Enabled(s, e) then s else
    match e
    case Ask(id, connected) => EnsureReplyConsumer(s, id, connected).(asked := s.asked + {id})
    case ChannelAnswered(answer) =>
      WithStage(s, if answer.Some? then Consuming(answer.value) else Settled(None))
    case Consumed(ok) =>
      if !ok then WithStage(s, Settled(None)) else FinishSetup(s, s.setup.value, s.setup.value.stage.channel)
    case SetupFinally => ReleaseWaiting(s, s.setup.value.stage.installed)
    case Register(id) => s.(handed := s.handed - {id}, pending := s.pending + [id], timers := s.timers + {id})
    case Reply(id) =>
      if id !in s.pending then s
      else s.(pending := Without(s.pending, id), timers := s.timers - {id}, decoding := s.decoding + {id})
    case Decoded(id, outcome) => s.(decoding := s.decoding - {id}, settled := s.settled + [Settlement(id, outcome)])
    // The timer's callback does not look whether its request is still pending.
    case TimerFires(id) =>
      s.(pending := Without(s.pending, id), timers := s.timers - {id},
         settled := s.settled + [Settlement(id, TimedOut)])
    case Returned(_, id) => SettlePending(s, id, Unroutable)
    case PublishFails(id) => SettlePending(s, id, PublishFailed)
    case ConnectionLoss => DropReplyChannel(s.(epoch := s.epoch + 1))
    case ChannelGone(channel) => if s.replyChannel == Some(channel) then DropReplyChannel(s) else s
  }

  function Run(s: State, events: seq<Event>): State
    decreases |events|
  {
    if events == [] then s else Run(Step(s, events[0]), events[1..])
  }
}
