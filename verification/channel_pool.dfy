/** The class of src/connection/channel-pool.js, updated in place: its slots and the
    round-robin over them. */
module ChannelPooling {
  import opened Wrappers
  import opened Modular
  import opened ChannelPoolSpec
  import opened ChannelPoolProperties

  datatype Pick = Picked(channel: Channel) | NotInitialized | NoneUsable

  class ChannelPool {
    const size: nat
    var phase: Phase
    var channels: seq<Option<Channel>>
    var index: nat
    var closed: bool
    var opening: set<nat>
    var loops: seq<Loop>
    ghost var live: set<Channel>
    var closeRequested: set<Channel>
    var home: map<Channel, nat>

    ghost function View(): State
      reads this
    {
      State(size, phase, channels, closed, opening, loops, live, closeRequested, home)
    }

    ghost predicate Valid()
      reads this
    {
      Inv(View()) && if channels == [] then index == 0 else index < |channels|
    }

    constructor (size: nat)
      ensures View() == Init(size) && Valid()
    {
      this.size := size;
      phase, channels, index, closed, opening, loops := New, [], 0, false, {}, [];
      live, closeRequested, home := {}, {}, map[];
      new;
      InitHolds(size);
    }

    /** `initialize`, up to the opens it awaits together. */
    method BeginInitialize()
      requires Valid() && phase == New
      modifies this
      ensures Valid() && View() == Step(old(View()), Initialize)
    {
      StepKeeps(View(), Initialize);
      phase, closed, opening := Initializing({}), false, Slots(size);
    }

    method ClaimSlot(slot: nat, c: Channel)
      modifies this
      ensures View() == Claim(old(View()), slot, c) && index == old(index)
    {
      if !closed {
        channels := Written(channels, slot, c);
      }
      live := live + {c};
      home := home[c := slot];
    }

    /** One of the first opens answers. */
    method FirstOpen(slot: nat, answer: Option<Channel>)
      requires Valid() && Enabled(View(), FirstOpenAnswered(slot, answer))
      modifies this
      ensures Valid() && View() == Step(old(View()), FirstOpenAnswered(slot, answer))
    {
      StepKeeps(View(), FirstOpenAnswered(slot, answer));
      opening := opening - {slot};
      if answer.Some? {
        ClaimSlot(slot, answer.value);
      } else {
        phase := Initializing(phase.failed + {slot});
      }
    }

    /** Every first open has answered: the pool is ready, or closes what did open. */
    method FinishInitialize()
      requires Valid() && Enabled(View(), InitializeSettles)
      modifies this
      ensures Valid() && View() == Step(old(View()), InitializeSettles)
    {
      StepKeeps(View(), InitializeSettles);
      if phase.failed == {} {
        phase := Ready;
      } else {
        phase := Refused;
        CloseChannels();
      }
    }

    method CloseChannels()
      modifies this`closed, this`closeRequested
      ensures View() == BeginClose(old(View()))
    {
      closed := true;
      var i := 0;
      while i < |channels|
        invariant 0 <= i <= |channels| && closed
        invariant closeRequested == old(closeRequested) +
          set j | 0 <= j < i && channels[j].Some? :: channels[j].value
      {
        if channels[i].Some? {
          closeRequested := closeRequested + {channels[i].value};
        }
        i := i + 1;
      }
      assert closeRequested == old(closeRequested) + Occupants(old(View()));
    }

    /** A channel closes: if it still holds its slot, a replacement loop begins. */
    method ChannelLost(c: Channel)
      requires Valid() && c in live && c in home
      modifies this
      ensures Valid() && View() == Step(old(View()), ChannelDies(c))
    {
      StepKeeps(View(), ChannelDies(c));
      var slot := home[c];
      live := live - {c};
      if !closed && slot < |channels| && channels[slot] == Some(c) {
        channels := channels[slot := None];
        loops := loops + [Loop(slot, 1, Dialing)];
      }
    }

    method ReplacementAnswered(n: nat, answer: Option<Channel>)
      requires Valid() && Enabled(View(), LoopOpenAnswered(n, answer))
      modifies this
      ensures Valid() && View() == Step(old(View()), LoopOpenAnswered(n, answer))
    {
      StepKeeps(View(), LoopOpenAnswered(n, answer));
      var l := loops[n];
      if answer.Some? {
        ClaimSlot(l.slot, answer.value);
        loops := loops[n := l.(stage := Opened(answer.value))];
      } else {
        loops := loops[n := l.(stage := Sleeping)];
      }
    }

    /** The loop looks at `closed` after a successful open. */
    method ReplacementChecks(n: nat)
      requires Valid() && Enabled(View(), LoopChecks(n))
      modifies this
      ensures Valid() && View() == Step(old(View()), LoopChecks(n))
    {
      StepKeeps(View(), LoopChecks(n));
      if closed {
        closeRequested := closeRequested + {loops[n].stage.channel};
      }
      loops := loops[n := loops[n].(stage := Done)];
    }

    /** The loop wakes up: the next attempt, or the end. */
    method ReplacementWakes(n: nat)
      requires Valid() && Enabled(View(), LoopWakes(n))
      modifies this
      ensures Valid() && View() == Step(old(View()), LoopWakes(n))
    {
      StepKeeps(View(), LoopWakes(n));
      var l := loops[n];
      if closed {
        loops := loops[n := l.(stage := Done)];
      } else if l.attempt < MAX_REPLACE_ATTEMPTS {
        loops := loops[n := Loop(l.slot, l.attempt + 1, Dialing)];
      } else {
        loops := loops[n := l.(stage := Exhausted)];
      }
    }

    method BeginClosing()
      requires Valid() && phase == Ready
      modifies this
      ensures Valid() && View() == Step(old(View()), Close)
    {
      StepKeeps(View(), Close);
      CloseChannels();
    }

    method FinishClosing()
      requires Valid() && closed
      modifies this
      ensures Valid() && View() == Step(old(View()), CloseEnds)
    {
      StepKeeps(View(), CloseEnds);
      channels, index := [], 0;
    }

    // Going round from `start`, the slots before the k-th are empty and the k-th is not.
    static ghost predicate FirstUsable(channels: seq<Option<Channel>>, start: nat, k: nat) {
      start < |channels| && k < |channels| && channels[Around(start, k, |channels|)].Some? &&
      forall j: nat :: j < k ==> channels[Around(start, j, |channels|)].None?
    }

    static ghost predicate PickedAt(channels: seq<Option<Channel>>, start: nat, k: nat, c: Channel, next: nat) {
      && FirstUsable(channels, start, k)
      && channels[Around(start, k, |channels|)] == Some(c)
      && next == (Around(start, k, |channels|) + 1) % |channels|
    }

    /** `getChannel`: the first usable slot at or after the cursor, going round once; the
        cursor moves just past it. It fails exactly when no slot is usable, and hands out no
        dead channel while the pool is open. */
    method GetChannel() returns (r: Pick)
      requires Valid()
      modifies this`index
      ensures Valid()
      ensures r.NotInitialized? <==> channels == []
      ensures r.NoneUsable? <==> channels != [] && forall i :: 0 <= i < |channels| ==> channels[i].None?
      ensures r.NoneUsable? ==> index == old(index)
      ensures r.Picked? ==> exists k: nat :: PickedAt(channels, old(index), k, r.channel, index)
      ensures r.Picked? && !closed ==> r.channel in live
    {
      if |channels| == 0 {
        return NotInitialized;
      }
      ghost var start := index;
      var n := |channels|;
      for k := 0 to n
        invariant index == if k < n then Around(start, k, n) else start
        invariant forall j: nat :: j < k ==> channels[Around(start, j, n)].None?
      {
        var slot := index;
        index := (index + 1) % n;
        ModOnce(slot + 1, n);
        if channels[slot].Some? {
          assert channels[slot] == Occupant(View(), slot);
          assert PickedAt(channels, start, k, channels[slot].value, index);
          return Picked(channels[slot].value);
        }
      }
      forall i | 0 <= i < n ensures channels[i].None? {
        assert i == Around(start, if i >= start then i - start else i + n - start, n);
      }
      r := NoneUsable;
    }
  }
}
