/** What each event does to a request and to the reply route: who is handed which channel, and
    when a setup installs. */
module RpcAnswers {
  import opened Wrappers
  import opened RpcSpec
  import opened RpcProperties

  /** A new request gets the installed channel; without one it joins the setup in flight, or
      begins one, stamped with the current epoch. */
  lemma {:induction false} AskAnswers(s: State, id: Id, connected: bool)
    requires Inv(s) && id !in s.asked
    ensures var t := Step(s, Ask(id, connected));
            if s.replyChannel.Some? then
              id in t.handed && t.handed[id] == s.replyChannel.value && t.setup == s.setup && id !in t.waiting
            else
              id in t.waiting && id !in t.handed &&
              t.setup == if s.setup.Some? then s.setup
                         else Some(Setup(s.setups, s.epoch, if connected then Opening else Settled(None)))
  {
    assert Places(s, id) == One(id in s.asked);
  }

  /** A setup whose consume is confirmed installs its channel exactly when no connection was
      lost since it began; otherwise it leaves no channel and no listener. */
  lemma {:induction false} SetupInstallsExactly(s: State)
    requires Inv(s) && s.setup.Some? && s.setup.value.stage.Consuming?
    ensures var t, channel := Step(s, Consumed(true)), s.setup.value.stage.channel;
            if s.setup.value.epoch == s.epoch then
              t.replyChannel == Some(channel) && t.attached == {Listeners(channel, s.setup.value.number)} &&
              t.setup == Some(s.setup.value.(stage := Settled(Some(channel))))
            else
              t.replyChannel.None? && t.attached == {} && t.setup == Some(s.setup.value.(stage := Settled(None)))
    ensures var t := Step(s, Consumed(false));
            t.replyChannel.None? && t.setup == Some(s.setup.value.(stage := Settled(None)))
  {
  }

  lemma {:induction false} ChannelAnswers(s: State, answer: Option<Channel>)
    requires s.setup.Some? && s.setup.value.stage.Opening?
    ensures Step(s, ChannelAnswered(answer)).setup ==
            Some(s.setup.value.(stage := if answer.Some? then Consuming(answer.value) else Settled(None)))
  {
  }

  // A run of events from a state, first event first.
  function After(s: State, events: seq<Event>): State
    decreases |events|
  {
    if events == [] then s else After(Step(s, events[0]), events[1..])
  }

  function GoodSetup(channel: Channel): seq<Event> {
    [ChannelAnswered(Some(channel)), Consumed(true), SetupFinally]
  }

  /** Left alone, a setup installs its channel and hands it to everyone who waited. */
  lemma {:induction false} SetupServesItsWaiters(s: State, channel: Channel)
    requires Inv(s) && s.setup.Some? && s.setup.value.stage.Opening? && s.setup.value.epoch == s.epoch
    ensures var t := After(s, GoodSetup(channel));
            t.replyChannel == Some(channel) && t.setup.None? && t.waiting == {} && t.pending == s.pending &&
            forall id <- s.waiting :: id in t.handed && t.handed[id] == channel
  {
    var answers := GoodSetup(channel);
    var s1 := Step(s, answers[0]);
    var s2 := Step(s1, answers[1]);
    var s3 := Step(s2, answers[2]);
    StepKeeps(s, answers[0]);
    SetupInstallsExactly(s1);
    assert answers[1..] == [answers[1], answers[2]] && answers[1..][1..] == [answers[2]] && [answers[2]][1..] == [];
    assert After(s2, [answers[2]]) == s3;
    assert After(s1, answers[1..]) == s3;
  }

  /** Registering arms the timer of exactly this request; its reply disarms it and takes it to
      the codec; any other settler settles it, if it is pending. */
  lemma {:induction false} RequestGoesOn(s: State, id: Id)
    requires Inv(s)
    ensures var t := Step(s, Register(id));
            id in s.handed ==> t.pending == s.pending + [id] && t.timers == s.timers + {id} && id !in t.handed
    ensures var t := Step(s, Reply(id));
            if id in s.pending then
              id in t.decoding && id !in t.pending && id !in t.timers && t.settled == s.settled &&
              forall other: Id :: other != id ==> (other in t.pending <==> other in s.pending)
            else t == s
    ensures var t := Step(s, PublishFails(id));
            if id in s.pending then
              t.settled == s.settled + [Settlement(id, PublishFailed)] && id !in t.pending && id !in t.timers
            else t == s
  {
    forall other: Id
      ensures other in Without(s.pending, id) <==> other in s.pending && other != id
    {
      CountWithout(s.pending, id, other);
      CountMember(s.pending, other);
      CountMember(Without(s.pending, id), other);
    }
  }

  /** A channel that goes away clears exactly the route that is installed on it. */
  lemma {:induction false} GoneChannelClears(s: State, channel: Channel)
    requires Inv(s)
    ensures var t := Step(s, ChannelGone(channel));
            if s.replyChannel == Some(channel) then
              t.replyChannel.None? && t.attached == {} && t.pending == [] && t.timers == {} && t.epoch == s.epoch
            else t == s
  {
  }
}
