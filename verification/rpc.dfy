/** The RPC client of src/messaging/rpc.js, updated in place. */
module RemoteCalls {
  import opened Wrappers
  import opened RpcSpec
  import opened RpcProperties

  class Rpc {
    // Insertion order, as a Map iterates.
    var pendingRequests: seq<Id>
    var timers: set<Id>
    var decoding: set<Id>
    var replyChannel: Option<Channel>
    var replySetupPromise: Option<Setup>
    var replyListeners: Option<Listeners>
    var attached: set<Listeners>
    var connectionEpoch: nat
    var setups: nat
    var waiting: set<Id>
    var handed: map<Id, Channel>
    ghost var installedIn: nat
    ghost var asked: set<Id>
    ghost var refused: set<Id>
    ghost var settled: seq<Settlement>

    ghost function View(): State reads this {
      State(connectionEpoch, replyChannel, replyListeners, attached, installedIn, replySetupPromise, setups,
        asked, waiting, handed, refused, pendingRequests, timers, decoding, settled)
    }

    ghost predicate Valid() reads this { Inv(View()) }

    constructor ()
      ensures Valid() && View() == INIT
    {
      pendingRequests, timers, decoding := [], {}, {};
      replyChannel, replySetupPromise, replyListeners, attached := None, None, None, {};
      connectionEpoch, setups, waiting, handed := 0, 0, {}, map[];
      installedIn, asked, refused, settled := 0, {}, {}, [];
      new;
      InitInv();
    }

    method DetachReplyListeners()
      modifies this
      ensures View() == Detach(old(View()))
    {
      if replyListeners.None? { return; }
      attached := attached - {replyListeners.value};
      replyListeners := None;
    }

    method RejectAll()
      modifies this
      ensures View() == RejectAllPending(old(View()))
    {
      var i := 0;
      while i < |pendingRequests|
        invariant 0 <= i <= |pendingRequests| && pendingRequests == old(pendingRequests)
        invariant timers == old(timers) - (set id | id in pendingRequests[..i])
        invariant settled == old(settled) + AllLost(pendingRequests[..i])
        invariant View() == old(View()).(timers := timers, settled := settled)
      {
        assert pendingRequests[..i + 1][..i] == pendingRequests[..i];
        timers := timers - {pendingRequests[i]};
        settled := settled + [Settlement(pendingRequests[i], ConnectionLost)];
        i := i + 1;
      }
      assert pendingRequests[..i] == pendingRequests;
      pendingRequests := [];
    }

    method Settle(id: Id, outcome: Outcome) returns (found: bool)
      modifies this
      ensures found == (id in old(pendingRequests)) && View() == SettlePending(old(View()), id, outcome)
    {
      found := id in pendingRequests;
      if found {
        Forget(id);
        settled := settled + [Settlement(id, outcome)];
      }
    }

    method Forget(id: Id)
      modifies this
      ensures View() == old(View()).(pending := Without(old(pendingRequests), id), timers := old(timers) - {id})
    {
      pendingRequests := Without(pendingRequests, id);
      timers := timers - {id};
    }

    method HandleConnectionLoss()
      requires Valid()
      modifies this
      ensures Valid() && View() == Step(old(View()), ConnectionLoss)
    {
      StepKeeps(View(), ConnectionLoss);
      connectionEpoch := connectionEpoch + 1;
      DetachReplyListeners();
      replyChannel := None;
      RejectAll();
    }

    // The channel closed, or the broker cancelled a reply consumer on it.
    method InvalidateReplyChannel(channel: Channel)
      requires Valid()
      modifies this
      ensures Valid() && View() == Step(old(View()), ChannelGone(channel))
    {
      StepKeeps(View(), ChannelGone(channel));
      if replyChannel != Some(channel) { return; }
      DetachReplyListeners();
      replyChannel := None;
      RejectAll();
    }

    method AskForReplyChannel(id: Id, connected: bool)
      requires Valid() && Enabled(View(), Ask(id, connected))
      modifies this
      ensures Valid() && View() == Step(old(View()), Ask(id, connected))
    {
      StepKeeps(View(), Ask(id, connected));
      asked := asked + {id};
      if replyChannel.Some? {
        handed := handed[id := replyChannel.value];
        return;
      }
      if replySetupPromise.None? {
        replySetupPromise := Some(Setup(setups, connectionEpoch, if connected then Opening else Settled(None)));
        setups := setups + 1;
      }
      waiting := waiting + {id};
    }

    method ChannelOpened(answer: Option<Channel>)
      requires Valid() && Enabled(View(), ChannelAnswered(answer))
      modifies this
      ensures Valid() && View() == Step(old(View()), ChannelAnswered(answer))
    {
      StepKeeps(View(), ChannelAnswered(answer));
      replySetupPromise := Some(replySetupPromise.value.(
        stage := if answer.Some? then Consuming(answer.value) else Settled(None)));
    }

    method ConsumeAnswered(ok: bool)
      requires Valid() && Enabled(View(), Consumed(ok))
      modifies this
      ensures Valid() && View() == Step(old(View()), Consumed(ok))
    {
      StepKeeps(View(), Consumed(ok));
      var setup := replySetupPromise.value;
      if !ok {
        replySetupPromise := Some(setup.(stage := Settled(None)));
        return;
      }
      var listeners := Listeners(setup.stage.channel, setup.number);
      attached := attached + {listeners};
      replyListeners := Some(listeners);
      if setup.epoch != connectionEpoch {
        DetachReplyListeners();
        replySetupPromise := Some(setup.(stage := Settled(None)));
        return;
      }
      replyChannel := Some(setup.stage.channel);
      installedIn := setup.epoch;
      replySetupPromise := Some(setup.(stage := Settled(Some(setup.stage.channel))));
    }

    method SetupSettled()
      requires Valid() && Enabled(View(), Event.SetupFinally)
      modifies this
      ensures Valid() && View() == Step(old(View()), Event.SetupFinally)
    {
      StepKeeps(View(), Event.SetupFinally);
      var installed := replySetupPromise.value.stage.installed;
      if installed.Some? { handed := handed + (map id | id in waiting :: installed.value); }
      else { refused := refused + waiting; }
      replySetupPromise, waiting := None, {};
    }

    method RegisterRequest(id: Id) returns (channel: Channel)
      requires Valid() && Enabled(View(), Register(id))
      modifies this
      ensures Valid() && View() == Step(old(View()), Register(id)) && channel == old(handed)[id]
    {
      StepKeeps(View(), Register(id));
      channel := handed[id];
      handed := handed - {id};
      timers := timers + {id};
      pendingRequests := pendingRequests + [id];
    }

    method HandleReply(id: Id)
      requires Valid()
      modifies this
      ensures Valid() && View() == Step(old(View()), Reply(id))
    {
      StepKeeps(View(), Reply(id));
      if id !in pendingRequests { return; }
      Forget(id);
      decoding := decoding + {id};
    }

    method ReplyDecoded(id: Id, outcome: Outcome)
      requires Valid() && Enabled(View(), Decoded(id, outcome))
      modifies this
      ensures Valid() && View() == Step(old(View()), Decoded(id, outcome))
    {
      StepKeeps(View(), Decoded(id, outcome));
      decoding := decoding - {id};
      settled := settled + [Settlement(id, outcome)];
    }

    method TimedOutNow(id: Id)
      requires Valid() && Enabled(View(), TimerFires(id))
      modifies this
      ensures Valid() && View() == Step(old(View()), TimerFires(id))
    {
      StepKeeps(View(), TimerFires(id));
      Forget(id);
      settled := settled + [Settlement(id, TimedOut)];
    }

    method OnReturn(channel: Channel, id: Id)
      requires Valid() && Enabled(View(), Returned(channel, id))
      modifies this
      ensures Valid() && View() == Step(old(View()), Returned(channel, id))
    {
      StepKeeps(View(), Returned(channel, id));
      var found := Settle(id, Unroutable);
    }

    // The result says whether the failure settled the request or came too late.
    method PublishFailedFor(id: Id) returns (inTime: bool)
      requires Valid()
      modifies this
      ensures Valid() && View() == Step(old(View()), PublishFails(id))
      ensures inTime == (id in old(pendingRequests))
    {
      StepKeeps(View(), PublishFails(id));
      inTime := Settle(id, PublishFailed);
    }
  }
}
