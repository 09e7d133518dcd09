/**
The bus itself (pkg/bus/bus.go): its channels, its two flags, and the sections of publish, of a consumer and of Close.
Each method is a step, or a row of steps, of BusSpec.

The publishers inside are ghost; a channel is a sequence with its flag, and what went in and came out is kept beside it.
*/
module Bus {
  import opened Wrappers
  import opened BusSpec

  class MessageBus {
    var channels: seq<Channel>
    var done: bool
    var closed: bool
    ghost var closer: Closer
    ghost var pubs: seq<Publisher>

    ghost function View(): State
      reads this
    {
      State(channels, closer, pubs, false)
    }

    ghost predicate Valid()
      reads this
    {
      Inv(View()) && done == DoneIsClosed(closer) && closed == FlagIsSet(closer)
    }

    constructor ()
      ensures Valid() && View() == INIT
    {
      channels := [Channel([], false, [], []), Channel([], false, [], []), Channel([], false, [], [])];
      done, closed, closer, pubs := false, false, Open, [];
    }

    // bus.go:46-48, under the read lock
    method CheckClosed(ghost i: nat) returns (refused: bool)
      requires Valid() && i < |pubs| && pubs[i].pc.Checking?
      modifies this`pubs
      ensures Valid() && View() == Step(old(View()), ACheck(i))
      ensures refused <==> pubs[i].pc == BusSpec.Leaving(ErrClosed)
    {
      StepInv(View(), ACheck(i));
      refused := closed;
      pubs := Step(View(), ACheck(i)).pubs;
    }

    // bus.go:50-56
    method FirstSelect(cancelled: bool, ghost i: nat) returns (r: Option<Result>)
      requires Valid() && i < |pubs| && pubs[i].pc.Looking? && pubs[i].cancelled == cancelled
      modifies this`pubs
      ensures Valid() && (View() == Step(old(View()), ALook(i)) || exists b :: View() == Step(old(View()), AGiveUp(i, b)))
      ensures r.None? <==> pubs[i].pc.Blocked?
      ensures r.Some? ==> pubs[i].pc == BusSpec.Leaving(r.value)
    {
      if cancelled {
        r := Some(ErrContext);
        TakeStep(AGiveUp(i, false));
      } else if done {
        r := Some(ErrClosed);
        TakeStep(AGiveUp(i, true));
      } else {
        r := None;
        TakeStep(ALook(i));
      }
    }

    // What a step of publisher i that touches no channel does to the record of publishers.
    ghost method TakeStep(a: Action)
      requires Valid() && Step(View(), a) == View().(pubs := Step(View(), a).pubs)
      modifies this`pubs
      ensures Valid() && View() == Step(old(View()), a)
    {
      StepInv(View(), a);
      pubs := Step(View(), a).pubs;
    }

    // bus.go:58-60, when the channel has room: it is never closed here.
    method Send(ch: nat, msg: nat)
      requires Valid() && msg < |pubs| && pubs[msg].pc.Blocked? && pubs[msg].ch == ch && ch < CHANNELS
      requires |channels[ch].buf| < CAPACITY
      modifies this`channels, this`pubs
      ensures Valid() && View() == Step(old(View()), ASend(msg))
      ensures channels[ch].buf == old(channels[ch].buf) + [msg]
    {
      SendInv(View(), msg);
      assert !channels[ch].closed;
      ghost var after := Step(View(), ASend(msg));
      channels := channels[ch := channels[ch].(buf := channels[ch].buf + [msg], sent := channels[ch].sent + [msg])];
      pubs := after.pubs;
    }

    // A consumer's receive; None from a channel that is empty.
    method Receive(ch: nat) returns (msg: Option<nat>)
      requires Valid() && ch < CHANNELS
      modifies this`channels
      ensures Valid() && View() == Step(old(View()), AReceive(ch))
      ensures msg.None? <==> old(channels[ch].buf) == []
      ensures msg.Some? ==> old(channels[ch].buf) == [msg.value] + channels[ch].buf
      ensures forall k | 0 <= k < CHANNELS && k != ch :: channels[k] == old(channels)[k]
      ensures channels[ch].closed == old(channels[ch].closed)
    {
      TakeInv(View(), ch);
      var c := channels[ch];
      if c.buf == [] {
        return None;
      }
      msg := Some(c.buf[0]);
      channels := channels[ch := c.(buf := c.buf[1..], taken := c.taken + [c.buf[0]])];
    }

    // bus.go:110-131, with the write lock; consumers receive meanwhile what they receive.
    method CloseAndDrain() returns (drained: nat, received: nat)
      requires Valid() && closer == Closing(0)
      modifies this`channels, this`closer
      ensures Valid() && closer == BusSpec.Closed && pubs == old(pubs)
      ensures forall ch | 0 <= ch < CHANNELS ::
                channels[ch].closed && channels[ch].buf == [] && channels[ch].sent == old(channels[ch].sent) == channels[ch].taken
      ensures drained + received == Buffered(old(channels), CHANNELS)
    {
      received := CloseChannels();
      var more: nat;
      drained, more := DrainChannels();
      received := received + more;
      CloseInv(View());
      closer := BusSpec.Closed;
      forall ch | 0 <= ch < CHANNELS ensures channels[ch].taken == channels[ch].sent {
        assert ChannelOk(View(), ch);
      }
      NothingBuffered(channels, CHANNELS);
    }

    // Some receives of the consumers, from any channels.
    method ConsumersReceive() returns (received: nat)
      requires Valid()
      modifies this`channels
      ensures Valid() && SameChannels(old(channels), channels)
      ensures received + Buffered(channels, CHANNELS) == Buffered(old(channels), CHANNELS)
      ensures forall ch | 0 <= ch < CHANNELS && old(channels)[ch].buf == [] :: channels[ch].buf == []
    {
      received := 0;
      for ch := 0 to CHANNELS
        invariant Valid() && SameChannels(old(channels), channels)
        invariant received + Buffered(channels, CHANNELS) == Buffered(old(channels), CHANNELS)
        invariant forall k | 0 <= k < CHANNELS && old(channels)[k].buf == [] :: channels[k].buf == []
      {
        var goesOn: bool := *;
        while goesOn && channels[ch].buf != []
          invariant Valid() && SameChannels(old(channels), channels)
          invariant received + Buffered(channels, CHANNELS) == Buffered(old(channels), CHANNELS)
          invariant forall k | 0 <= k < CHANNELS && old(channels)[k].buf == [] :: channels[k].buf == []
          decreases |channels[ch].buf|
        {
          TakeOne(ch);
          received := received + 1;
          goesOn := *;
        }
      }
    }

    method TakeOne(ch: nat)
      requires Valid() && ch < CHANNELS && channels[ch].buf != []
      modifies this`channels
      ensures Valid() && SameChannels(old(channels), channels)
      ensures Buffered(channels, CHANNELS) + 1 == Buffered(old(channels), CHANNELS)
      ensures |channels[ch].buf| + 1 == |old(channels)[ch].buf|
      ensures forall k | 0 <= k < CHANNELS && k != ch :: channels[k] == old(channels)[k]
    {
      var msg := Receive(ch);
      BufferedTook(old(channels), channels, ch, CHANNELS);
    }

    // bus.go:111-113
    method CloseChannels() returns (received: nat)
      requires Valid() && closer == Closing(0)
      modifies this`channels, this`closer
      ensures Valid() && closer == Draining(0)
      ensures forall ch | 0 <= ch < CHANNELS :: channels[ch].closed && channels[ch].sent == old(channels)[ch].sent
      ensures received + Buffered(channels, CHANNELS) == Buffered(old(channels), CHANNELS)
    {
      received := 0;
      for n := 0 to CHANNELS
        invariant Valid() && closer == Closing(n)
        invariant forall ch | 0 <= ch < CHANNELS ::
                    channels[ch].sent == old(channels)[ch].sent && (ch < n ==> channels[ch].closed)
        invariant received + Buffered(channels, CHANNELS) == Buffered(old(channels), CHANNELS)
      {
        var some := ConsumersReceive();
        received := received + some;
        CloseInv(View());
        ghost var before := channels;
        channels := channels[n := channels[n].(closed := true)];
        closer := Closing(n + 1);
        BufferedSame(channels, before, CHANNELS);
      }
      CloseInv(View());
      closer := Draining(0);
    }

    // bus.go:116-125
    method DrainChannels() returns (drained: nat, received: nat)
      requires Valid() && closer == Draining(0)
      modifies this`channels, this`closer
      ensures Valid() && closer == Draining(CHANNELS) && SameChannels(old(channels), channels)
      ensures forall ch | 0 <= ch < CHANNELS :: channels[ch].buf == []
      ensures drained + received + Buffered(channels, CHANNELS) == Buffered(old(channels), CHANNELS)
    {
      drained, received := 0, 0;
      for n := 0 to CHANNELS
        invariant Valid() && closer == Draining(n) && SameChannels(old(channels), channels)
        invariant forall ch | 0 <= ch < n :: channels[ch].buf == []
        invariant drained + received + Buffered(channels, CHANNELS) == Buffered(old(channels), CHANNELS)
      {
        var mine, others := DrainChannel(n);
        drained, received := drained + mine, received + others;
        CloseInv(View());
        closer := Draining(n + 1);
      }
    }

    // for range over a closed channel
    method DrainChannel(n: nat) returns (drained: nat, received: nat)
      requires Valid() && n < CHANNELS && closer == Draining(n)
      modifies this`channels
      ensures Valid() && SameChannels(old(channels), channels) && channels[n].buf == []
      ensures forall k | 0 <= k < CHANNELS && old(channels)[k].buf == [] :: channels[k].buf == []
      ensures drained + received + Buffered(channels, CHANNELS) == Buffered(old(channels), CHANNELS)
    {
      drained := 0;
      received := ConsumersReceive();
      while channels[n].buf != []
        invariant Valid() && closer == Draining(n) && pubs == old(pubs) && SameChannels(old(channels), channels)
        invariant forall k | 0 <= k < CHANNELS && old(channels)[k].buf == [] :: channels[k].buf == []
        invariant drained + received + Buffered(channels, CHANNELS) == Buffered(old(channels), CHANNELS)
        decreases Buffered(channels, CHANNELS)
      {
        TakeOne(n);
        drained := drained + 1;
        var others := ConsumersReceive();
        received := received + others;
      }
    }
  }

  // What receiving leaves of the channels.
  predicate SameChannels(a: seq<Channel>, b: seq<Channel>) {
    |b| == |a| && forall k | 0 <= k < |a| :: b[k].closed == a[k].closed && b[k].sent == a[k].sent
  }

  function Buffered(channels: seq<Channel>, n: nat): nat
    requires n <= |channels|
  {
    if n == 0 then 0 else Buffered(channels, n - 1) + |channels[n - 1].buf|
  }

  lemma {:induction false} BufferedSame(a: seq<Channel>, b: seq<Channel>, n: nat)
    requires n <= |a| && n <= |b| && forall k | 0 <= k < n :: a[k].buf == b[k].buf
    ensures Buffered(a, n) == Buffered(b, n)
  {
    if n > 0 {
      BufferedSame(a, b, n - 1);
    }
  }

  lemma {:induction false} BufferedTook(a: seq<Channel>, b: seq<Channel>, ch: nat, n: nat)
    requires n <= |a| == |b| && ch < |a| && |a[ch].buf| == |b[ch].buf| + 1
    requires forall k | 0 <= k < |a| && k != ch :: a[k].buf == b[k].buf
    ensures Buffered(a, n) == Buffered(b, n) + if ch < n then 1 else 0
  {
    if n > 0 {
      BufferedTook(a, b, ch, n - 1);
    }
  }

  lemma {:induction false} NothingBuffered(a: seq<Channel>, n: nat)
    requires n <= |a| && forall k | 0 <= k < n :: a[k].buf == []
    ensures Buffered(a, n) == 0
  {
    if n > 0 {
      NothingBuffered(a, n - 1);
    }
  }
}
