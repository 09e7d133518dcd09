/**
The message bus as a state machine (pkg/bus/bus.go:41-133): any number of publishers, each a goroutine inside publish,
any number of consumers, and one Close. The read-write lock lets publishers in together, keeps new ones out as soon
as Close asks for it, and lets Close in when the last one has left.
*/
module BusSpec {
  const CAPACITY := 64
  const CHANNELS: nat := 3

  datatype Result = Delivered | ErrClosed | ErrContext

  datatype Pc =
    | Arriving                 // before the read lock
    | Checking                 // with the read lock, before it looks at closed
    | Looking                  // before the first select
    | Blocked                  // in the second select
    | Leaving(result: Result)  // before the read lock is given back
    | Returned(result: Result)

  datatype Publisher = Publisher(ch: nat, cancelled: bool, pc: Pc)

  // How far Close has come: it closes done, sets closed, asks for the lock, has it, closes the channels one by one,
  // drains them one by one, and gives the lock back.
  datatype Closer = Open | DoneClosed | FlagSet | Asking | Closing(n: nat) | Draining(n: nat) | Closed

  // A message is known by the publisher that sent it. sent and taken are what went into the channel and what came out
  // of it, to a consumer or to the drain.
  datatype Channel = Channel(buf: seq<nat>, closed: bool, sent: seq<nat>, taken: seq<nat>)

  datatype State = State(channels: seq<Channel>, closer: Closer, pubs: seq<Publisher>, panicked: bool)

  const INIT := State([Channel([], false, [], []), Channel([], false, [], []), Channel([], false, [], [])], Open, [], false)

  predicate DoneIsClosed(c: Closer) { !c.Open? }

  predicate FlagIsSet(c: Closer) { !c.Open? && !c.DoneClosed? }

  predicate HasWriteLock(c: Closer) { c.Closing? || c.Draining? }

  predicate HasReadLock(p: Publisher) { !p.pc.Arriving? && !p.pc.Returned? }

  predicate NoReaders(pubs: seq<Publisher>) {
    forall i | 0 <= i < |pubs| :: !HasReadLock(pubs[i])
  }

  predicate Shaped(s: State) {
    |s.channels| == CHANNELS && forall i | 0 <= i < |s.pubs| :: s.pubs[i].ch < CHANNELS
  }

  datatype Action =
    | APublish(ch: nat, cancelled: bool) | ACancel(i: nat)
    | AEnter(i: nat) | ACheck(i: nat) | ALook(i: nat) | ASend(i: nat) | AGiveUp(i: nat, seesDone: bool) | ALeave(i: nat)
    | AReceive(ch: nat)
    | AClose

  function Move(s: State, i: nat, pc: Pc): State
    requires i < |s.pubs|
  {
    s.(pubs := s.pubs[i := s.pubs[i].(pc := pc)])
  }

  // bus.go:58-60: a send into a closed channel panics.
  function Send(s: State, i: nat): State
    requires Shaped(s) && i < |s.pubs|
  {
    var p := s.pubs[i];
    var c := s.channels[p.ch];
    if !p.pc.Blocked? then s
    else if c.closed then s.(panicked := true)
    else if |c.buf| >= CAPACITY then s
    else Move(s.(channels := s.channels[p.ch := c.(buf := c.buf + [i], sent := c.sent + [i])]), i, Leaving(Delivered))
  }

  // The context's branch, or the done branch, of either select.
  function GiveUp(s: State, i: nat, seesDone: bool): State
    requires i < |s.pubs|
  {
    var p := s.pubs[i];
    if !p.pc.Looking? && !p.pc.Blocked? then s
    else if seesDone && DoneIsClosed(s.closer) then Move(s, i, Leaving(ErrClosed))
    else if !seesDone && p.cancelled then Move(s, i, Leaving(ErrContext))
    else s
  }

  // bus.go:50-56: the first select goes on only when neither branch is ready.
  function Look(s: State, i: nat): State
    requires i < |s.pubs|
  {
    var p := s.pubs[i];
    if p.pc.Looking? && !DoneIsClosed(s.closer) && !p.cancelled then Move(s, i, Blocked) else s
  }

  function TakeFrom(s: State, ch: nat): State
    requires Shaped(s) && ch < CHANNELS
  {
    var c := s.channels[ch];
    if c.buf == [] then s else s.(channels := s.channels[ch := c.(buf := c.buf[1..], taken := c.taken + [c.buf[0]])])
  }

  // bus.go:99-133
  function CloseNext(s: State): State
    requires Shaped(s)
  {
    match s.closer
    case Open => s.(closer := DoneClosed)
    case DoneClosed => s.(closer := FlagSet)
    case FlagSet => s.(closer := Asking)
    case Asking => if NoReaders(s.pubs) then s.(closer := Closing(0)) else s
    case Closing(n) =>
      if n < CHANNELS then s.(channels := s.channels[n := s.channels[n].(closed := true)], closer := Closing(n + 1))
      else s.(closer := Draining(0))
    case Draining(n) =>
      if n >= CHANNELS then s.(closer := Closed)
      else if s.channels[n].buf == [] then s.(closer := Draining(n + 1))
      else TakeFrom(s, n)
    case Closed => s
  }

  function Step(s: State, a: Action): (s': State)
    requires Shaped(s)
    ensures Shaped(s')
  {
    match a
    case APublish(ch, cancelled) => if ch < CHANNELS then s.(pubs := s.pubs + [Publisher(ch, cancelled, Arriving)]) else s
    case ACancel(i) => if i < |s.pubs| then s.(pubs := s.pubs[i := s.pubs[i].(cancelled := true)]) else s
    case AEnter(i) =>
      if i < |s.pubs| && s.pubs[i].pc.Arriving? && !s.closer.Asking? && !HasWriteLock(s.closer) then Move(s, i, Checking) else s
    case ACheck(i) =>
      if i < |s.pubs| && s.pubs[i].pc.Checking? then
        Move(s, i, if FlagIsSet(s.closer) then Leaving(ErrClosed) else Looking)
      else s
    case ALook(i) => if i < |s.pubs| then Look(s, i) else s
    case ASend(i) => if i < |s.pubs| then Send(s, i) else s
    case AGiveUp(i, seesDone) => if i < |s.pubs| then GiveUp(s, i, seesDone) else s
    case ALeave(i) => if i < |s.pubs| && s.pubs[i].pc.Leaving? then Move(s, i, Returned(s.pubs[i].pc.result)) else s
    case AReceive(ch) => if ch < CHANNELS then TakeFrom(s, ch) else s
    case AClose => CloseNext(s)
  }

  // ---- the invariant ------------------------------------------------------------------------------------------------

  predicate WasSent(s: State, i: nat)
    requires i < |s.pubs|
  {
    s.pubs[i].pc == Leaving(Delivered) || s.pubs[i].pc == Returned(Delivered)
  }

  predicate Distinct(xs: seq<nat>) {
    forall j, k | 0 <= j < k < |xs| :: xs[j] != xs[k]
  }

  // What went in came out, or is still there, in order; and it is what the publishers of this channel sent, once each.
  predicate ChannelOk(s: State, ch: nat)
    requires Shaped(s) && ch < CHANNELS
  {
    var c := s.channels[ch];
    && c.sent == c.taken + c.buf
    && Distinct(c.sent)
    && (forall i | i in c.sent :: i < |s.pubs| && s.pubs[i].ch == ch && WasSent(s, i))
    && (forall i | 0 <= i < |s.pubs| && s.pubs[i].ch == ch && WasSent(s, i) :: i in c.sent)
  }

  predicate ClosedAsFar(s: State)
    requires Shaped(s)
  {
    match s.closer
    case Closing(n) => forall ch | 0 <= ch < CHANNELS :: s.channels[ch].closed <==> ch < n
    case Draining(n) => forall ch | 0 <= ch < CHANNELS :: s.channels[ch].closed && (ch < n ==> s.channels[ch].buf == [])
    case Closed => forall ch | 0 <= ch < CHANNELS :: s.channels[ch].closed && s.channels[ch].buf == []
    case _ => forall ch | 0 <= ch < CHANNELS :: !s.channels[ch].closed
  }

  // Nobody is between the look at closed and the end of its send.
  predicate NobodySends(s: State) {
    forall i | 0 <= i < |s.pubs| :: !s.pubs[i].pc.Looking? && !s.pubs[i].pc.Blocked?
  }

  predicate Inv(s: State) {
    && Shaped(s)
    && !s.panicked
    && (HasWriteLock(s.closer) ==> NoReaders(s.pubs))
    && (HasWriteLock(s.closer) || s.closer.Closed? ==> NobodySends(s))
    && ClosedAsFar(s)
    && (forall ch | 0 <= ch < CHANNELS :: ChannelOk(s, ch))
  }

  function Run(s: State, actions: seq<Action>): (s': State)
    requires Inv(s)
    ensures Inv(s')
  {
    if actions == [] then s
    else
      var s1 := Run(s, actions[..|actions| - 1]);
      StepInv(s1, actions[|actions| - 1]);
      Step(s1, actions[|actions| - 1])
  }

  // A publisher's step that sends nothing.
  lemma MoveInv(s: State, i: nat, p: Publisher)
    requires Inv(s) && i < |s.pubs| && p.ch == s.pubs[i].ch
    requires WasSent(s.(pubs := s.pubs[i := p]), i) == WasSent(s, i)
    requires HasReadLock(p) ==> HasReadLock(s.pubs[i]) || !HasWriteLock(s.closer)
    requires p.pc.Looking? || p.pc.Blocked? ==> s.pubs[i].pc.Looking? || s.pubs[i].pc.Blocked? || !FlagIsSet(s.closer)
    ensures Inv(s.(pubs := s.pubs[i := p]))
  {
    var s' := s.(pubs := s.pubs[i := p]);
    forall ch | 0 <= ch < CHANNELS ensures ChannelOk(s', ch) {
      assert ChannelOk(s, ch);
      assert forall j | 0 <= j < |s.pubs| :: WasSent(s', j) == WasSent(s, j);
    }
  }

  lemma ArriveInv(s: State, p: Publisher)
    requires Inv(s) && p.ch < CHANNELS && p.pc.Arriving?
    ensures Inv(s.(pubs := s.pubs + [p]))
  {
    var s' := s.(pubs := s.pubs + [p]);
    forall ch | 0 <= ch < CHANNELS ensures ChannelOk(s', ch) {
      assert ChannelOk(s, ch);
      assert forall j | 0 <= j < |s.pubs| :: WasSent(s', j) == WasSent(s, j);
    }
  }

  // Publisher i has put its message into its channel.
  lemma SentChannelOk(s: State, i: nat, ch: nat)
    requires Inv(s) && i < |s.pubs| && s.pubs[i].pc.Blocked? && ch < CHANNELS && Send(s, i) != s && !Send(s, i).panicked
    ensures ChannelOk(Send(s, i), ch)
  {
    hide ClosedAsFar, NobodySends, NoReaders;
    var s' := Send(s, i);
    assert ChannelOk(s, ch);
    assert forall j | 0 <= j < |s.pubs| && j != i :: WasSent(s', j) == WasSent(s, j);
  }

  lemma SendInv(s: State, i: nat)
    requires Inv(s) && i < |s.pubs|
    ensures Inv(Send(s, i))
  {
    hide ChannelOk;
    var p, s' := s.pubs[i], Send(s, i);
    if p.pc.Blocked? {
      assert !HasWriteLock(s.closer) && !s.closer.Closed?;
      assert !s.channels[p.ch].closed;
      if s' != s {
        forall ch | 0 <= ch < CHANNELS ensures ChannelOk(s', ch) {
          SentChannelOk(s, i, ch);
        }
      }
    }
  }

  lemma TakeInv(s: State, ch: nat)
    requires Inv(s) && ch < CHANNELS
    ensures Inv(TakeFrom(s, ch))
  {
    var c, s' := s.channels[ch], TakeFrom(s, ch);
    if c.buf != [] {
      forall k | 0 <= k < CHANNELS ensures ChannelOk(s', k) {
        assert ChannelOk(s, k);
        assert c.taken + [c.buf[0]] + c.buf[1..] == c.taken + c.buf;
        assert forall j | 0 <= j < |s.pubs| :: WasSent(s', j) == WasSent(s, j);
      }
    }
  }

  // A channel with the same messages, and the same publishers.
  lemma SameChannelOk(s: State, s': State, ch: nat)
    requires Shaped(s) && Shaped(s') && ch < CHANNELS && ChannelOk(s, ch) && s'.pubs == s.pubs
    requires s'.channels[ch] == s.channels[ch].(closed := s'.channels[ch].closed)
    ensures ChannelOk(s', ch)
  {
    assert forall j | 0 <= j < |s.pubs| :: WasSent(s', j) == WasSent(s, j);
  }

  lemma CloseInv(s: State)
    requires Inv(s)
    ensures Inv(CloseNext(s))
  {
    hide ChannelOk;
    var s' := CloseNext(s);
    if s.closer.Draining? && s.closer.n < CHANNELS && s.channels[s.closer.n].buf != [] {
      TakeInv(s, s.closer.n);
    } else {
      forall ch | 0 <= ch < CHANNELS ensures ChannelOk(s', ch) {
        SameChannelOk(s, s', ch);
      }
    }
  }

  lemma StepInv(s: State, a: Action)
    requires Inv(s)
    ensures Inv(Step(s, a))
  {
    match a {
      case APublish(ch, cancelled) => if ch < CHANNELS { ArriveInv(s, Publisher(ch, cancelled, Arriving)); }
      case ASend(i) => if i < |s.pubs| { SendInv(s, i); }
      case AReceive(ch) => if ch < CHANNELS { TakeInv(s, ch); }
      case AClose => CloseInv(s);
      case ACancel(i) => PublisherInv(s, a, i);
      case AEnter(i) => PublisherInv(s, a, i);
      case ACheck(i) => PublisherInv(s, a, i);
      case ALook(i) => PublisherInv(s, a, i);
      case AGiveUp(i, seesDone) => PublisherInv(s, a, i);
      case ALeave(i) => PublisherInv(s, a, i);
    }
  }

  lemma PublisherInv(s: State, a: Action, i: nat)
    requires Inv(s)
    requires a == ACancel(i) || a == AEnter(i) || a == ACheck(i) || a == ALook(i) || a == ALeave(i) || (a.AGiveUp? && a.i == i)
    ensures Inv(Step(s, a))
  {
    if i < |s.pubs| {
      var p := Step(s, a).pubs[i];
      assert Step(s, a) == s.(pubs := s.pubs[i := p]);
      MoveInv(s, i, p);
    }
  }

  lemma InitInv()
    ensures Inv(INIT)
  {
  }

  // ---- what the bus promises ----------------------------------------------------------------------------------------

  /** No send reaches a closed channel. */
  lemma NeverPanics(actions: seq<Action>)
    ensures !Run(INIT, actions).panicked
    ensures var s := Run(INIT, actions);
            forall i | 0 <= i < |s.pubs| && s.pubs[i].pc.Blocked? :: !s.channels[s.pubs[i].ch].closed
  {
    InitInv();
    hide ChannelOk, NoReaders;
    var s := Run(INIT, actions);
    forall i | 0 <= i < |s.pubs| && s.pubs[i].pc.Blocked? ensures !s.channels[s.pubs[i].ch].closed {
      assert !NobodySends(s);
    }
  }

  // How often x is in xs.
  function Times(x: nat, xs: seq<nat>): nat {
    if xs == [] then 0 else Times(x, xs[..|xs| - 1]) + if xs[|xs| - 1] == x then 1 else 0
  }

  lemma {:induction false} TimesConcat(x: nat, a: seq<nat>, b: seq<nat>)
    ensures Times(x, a + b) == Times(x, a) + Times(x, b)
  {
    if b == [] {
      assert a + b == a;
    } else {
      TimesConcat(x, a, b[..|b| - 1]);
      assert (a + b)[..|a + b| - 1] == a + b[..|b| - 1];
    }
  }

  lemma {:induction false} DistinctOnce(x: nat, xs: seq<nat>)
    requires Distinct(xs)
    ensures Times(x, xs) == if x in xs then 1 else 0
  {
    if xs != [] {
      DistinctOnce(x, xs[..|xs| - 1]);
      assert xs == xs[..|xs| - 1] + [xs[|xs| - 1]];
    }
  }

  /** A publish that returned nil put its message in the channel once: it is still there, or was taken once. */
  lemma DeliveredOnce(actions: seq<Action>, i: nat)
    requires i < |Run(INIT, actions).pubs|
    ensures var s := Run(INIT, actions); var c := s.channels[s.pubs[i].ch];
            Times(i, c.taken) + Times(i, c.buf) == if WasSent(s, i) then 1 else 0
  {
    var s := Run(INIT, actions);
    var c := s.channels[s.pubs[i].ch];
    assert ChannelOk(s, s.pubs[i].ch);
    TimesConcat(i, c.taken, c.buf);
    DistinctOnce(i, c.sent);
  }

  lemma ChannelHolds(s: State, ch: nat)
    requires Inv(s) && ch < CHANNELS
    ensures s.channels[ch].taken <= s.channels[ch].sent
    ensures s.closer.Closed? ==> s.channels[ch].taken == s.channels[ch].sent
  {
    var c := s.channels[ch];
    assert ChannelOk(s, ch);
    if s.closer.Closed? {
      assert c.buf == [];
    }
  }

  /** Messages leave a channel in the order they were sent; once Close has returned, all of them have left. */
  lemma NothingIsLeftBehind(actions: seq<Action>, ch: nat)
    requires ch < CHANNELS
    ensures var c := Run(INIT, actions).channels[ch];
            c.taken <= c.sent && (Run(INIT, actions).closer.Closed? ==> c.taken == c.sent)
  {
    ChannelHolds(Run(INIT, actions), ch);
  }

  // ---- Close does not wait for ever -----------------------------------------------------------------------------------

  // The steps a publisher is from giving the read lock back, at most.
  function Distance(pc: Pc): nat {
    match pc
    case Checking => 4
    case Looking => 3
    case Blocked => 2
    case Leaving(_) => 1
    case _ => 0
  }

  function Remaining(pubs: seq<Publisher>): nat {
    if pubs == [] then 0 else Remaining(pubs[..|pubs| - 1]) + Distance(pubs[|pubs| - 1].pc)
  }

  lemma {:induction false} RemainingMove(pubs: seq<Publisher>, i: nat, p: Publisher)
    requires i < |pubs|
    ensures Remaining(pubs[i := p]) == Remaining(pubs) - Distance(pubs[i].pc) + Distance(p.pc)
  {
    var front := pubs[..|pubs| - 1];
    if i == |front| {
      assert pubs[i := p][..i] == front;
    } else {
      RemainingMove(front, i, p);
      assert pubs[i := p][..|front|] == front[i := p];
    }
  }

  lemma {:induction false} NothingRemains(pubs: seq<Publisher>)
    ensures Remaining(pubs) == 0 <==> NoReaders(pubs)
  {
    if pubs != [] {
      var front, last := pubs[..|pubs| - 1], pubs[|pubs| - 1];
      NothingRemains(front);
      assert pubs == front + [last];
      if NoReaders(front) && !HasReadLock(last) {
        assert forall i | 0 <= i < |pubs| :: i < |front| ==> pubs[i] == front[i];
      }
    }
  }

  /** While Close asks for the lock nobody comes in: whatever happens, the publishers inside only get nearer to the end. */
  lemma AskingOnlyDrains(s: State, a: Action)
    requires Inv(s) && s.closer.Asking?
    ensures Remaining(Step(s, a).pubs) <= Remaining(s.pubs)
    ensures Step(s, a).closer.Asking? || (Step(s, a).closer == Closing(0) && NoReaders(s.pubs))
  {
    hide ChannelOk, ClosedAsFar, NobodySends;
    var s' := Step(s, a);
    if a.APublish? {
      if a.ch < CHANNELS { assert s'.pubs[..|s.pubs|] == s.pubs; }
    } else if !a.AReceive? && !a.AClose? {
      if a.i < |s.pubs| {
        RemainingMove(s.pubs, a.i, s'.pubs[a.i]);
        assert s'.pubs == s.pubs[a.i := s'.pubs[a.i]];
      }
    }
  }

  // The step with which publisher i can always go on once done is closed.
  function WayOut(s: State, i: nat): Action
    requires i < |s.pubs|
  {
    match s.pubs[i].pc
    case Checking => ACheck(i)
    case Leaving(_) => ALeave(i)
    case _ => AGiveUp(i, true)
  }

  /** Once done is closed every publisher inside has a step that takes it nearer to the end, whoever else does not move. */
  lemma EveryReaderHasAWayOut(s: State, i: nat)
    requires Inv(s) && DoneIsClosed(s.closer) && i < |s.pubs| && HasReadLock(s.pubs[i])
    ensures Remaining(Step(s, WayOut(s, i)).pubs) < Remaining(s.pubs)
  {
    RemainingMove(s.pubs, i, Step(s, WayOut(s, i)).pubs[i]);
  }

  // The first publisher inside.
  function Reader(pubs: seq<Publisher>, i: nat): (r: nat)
    requires i <= |pubs| && exists k | i <= k < |pubs| :: HasReadLock(pubs[k])
    ensures r < |pubs| && HasReadLock(pubs[r])
    decreases |pubs| - i
  {
    if HasReadLock(pubs[i]) then i else Reader(pubs, i + 1)
  }

  // The next step with which a publisher inside gets on.
  function NextOut(s: State): Action
    requires !NoReaders(s.pubs)
  {
    WayOut(s, Reader(s.pubs, 0))
  }

  // The publishers inside leave one after the other.
  function LetOut(s: State, n: nat): (actions: seq<Action>)
    requires Inv(s)
    decreases n
  {
    if n == 0 || NoReaders(s.pubs) then []
    else
      StepInv(s, NextOut(s));
      [NextOut(s)] + LetOut(Step(s, NextOut(s)), n - 1)
  }

  lemma {:induction false} RunFirst(s: State, a: Action, rest: seq<Action>)
    requires Inv(s)
    ensures Inv(Step(s, a)) && Run(s, [a] + rest) == Run(Step(s, a), rest)
  {
    StepInv(s, a);
    if rest == [] {
      assert ([a] + rest)[..0] == [] && [a] + rest == [a];
    } else {
      RunFirst(s, a, rest[..|rest| - 1]);
      assert ([a] + rest)[..|rest|] == [a] + rest[..|rest| - 1];
    }
  }

  lemma LettingOneOut(s: State)
    requires Inv(s) && s.closer.Asking? && !NoReaders(s.pubs)
    ensures Inv(Step(s, NextOut(s))) && Step(s, NextOut(s)).closer.Asking?
    ensures Remaining(Step(s, NextOut(s)).pubs) < Remaining(s.pubs)
  {
    EveryReaderHasAWayOut(s, Reader(s.pubs, 0));
    StepInv(s, NextOut(s));
  }

  lemma LetOutFirst(s: State, n: nat)
    requires Inv(s) && s.closer.Asking? && !NoReaders(s.pubs) && n > 0
    ensures Inv(Step(s, NextOut(s)))
    ensures |LetOut(s, n)| == 1 + |LetOut(Step(s, NextOut(s)), n - 1)|
    ensures Run(s, LetOut(s, n)) == Run(Step(s, NextOut(s)), LetOut(Step(s, NextOut(s)), n - 1))
  {
    StepInv(s, NextOut(s));
    RunFirst(s, NextOut(s), LetOut(Step(s, NextOut(s)), n - 1));
  }

  // Close, waiting in s, is let in by these actions.
  predicate LetsIn(s: State, actions: seq<Action>)
    requires Inv(s)
  {
    CloseNext(Run(s, actions)).closer == Closing(0)
  }

  lemma EmptyLetsIn(s: State, n: nat)
    requires Inv(s) && s.closer.Asking? && NoReaders(s.pubs)
    ensures LetOut(s, n) == [] && LetsIn(s, [])
  {
  }

  lemma LetsInAfter(s: State, n: nat)
    requires Inv(s) && s.closer.Asking? && !NoReaders(s.pubs) && n > 0
    requires Inv(Step(s, NextOut(s))) && LetsIn(Step(s, NextOut(s)), LetOut(Step(s, NextOut(s)), n - 1))
    ensures LetsIn(s, LetOut(s, n)) && |LetOut(s, n)| == 1 + |LetOut(Step(s, NextOut(s)), n - 1)|
  {
    LetOutFirst(s, n);
  }

  // Letting the publishers of s out one after the other lets Close in, in no more actions than they have left.
  predicate WaysOut(s: State, n: nat)
    requires Inv(s)
  {
    |LetOut(s, n)| <= Remaining(s.pubs) && LetsIn(s, LetOut(s, n))
  }

  lemma NoWayOutNeeded(s: State, n: nat)
    requires Inv(s) && s.closer.Asking? && NoReaders(s.pubs)
    ensures WaysOut(s, n)
  {
    EmptyLetsIn(s, n);
  }

  lemma WaysOutNext(s: State, n: nat)
    requires Inv(s) && s.closer.Asking? && !NoReaders(s.pubs) && n > 0
    requires Inv(Step(s, NextOut(s))) && WaysOut(Step(s, NextOut(s)), n - 1)
    requires Remaining(Step(s, NextOut(s)).pubs) < Remaining(s.pubs)
    ensures WaysOut(s, n)
  {
    LetsInAfter(s, n);
  }

  lemma {:induction false} LetOutLetsIn(s: State, n: nat)
    requires Inv(s) && s.closer.Asking? && Remaining(s.pubs) <= n
    ensures WaysOut(s, n)
    decreases n
  {
    hide ChannelOk, ClosedAsFar, NobodySends;
    NothingRemains(s.pubs);
    if NoReaders(s.pubs) {
      NoWayOutNeeded(s, n);
    } else {
      LettingOneOut(s);
      LetOutLetsIn(Step(s, NextOut(s)), n - 1);
      WaysOutNext(s, n);
    }
  }

  /** From any state in which Close waits, the publishers alone can let it in, in as many steps as they have left. */
  lemma CloseIsLetIn(s: State)
    requires Inv(s) && s.closer.Asking?
    ensures var actions := LetOut(s, Remaining(s.pubs));
            |actions| <= Remaining(s.pubs) && CloseNext(Run(s, actions)).closer == Closing(0)
  {
    LetOutLetsIn(s, Remaining(s.pubs));
  }
}
