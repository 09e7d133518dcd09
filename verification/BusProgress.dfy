/**
How a publish ends (pkg/bus/bus.go:41-133): a message gets in while there is room, an error says what happened, who looks
after Close has begun sends nothing, messages come out in turn, and Close comes to its end.
*/
module BusProgress {
  import opened BusSpec

  lemma RunLast(s: State, actions: seq<Action>, a: Action)
    requires Inv(s)
    ensures Run(s, actions + [a]) == Step(Run(s, actions), a)
  {
    assert (actions + [a])[..|actions|] == actions;
  }

  // ---- a message gets in ----------------------------------------------------------------------------------------------------

  /**
  In the second select a publisher sends, at the end of its channel, exactly while fewer than 64 messages wait there; it gives
  up with its context's error exactly when it is cancelled, and as closed exactly when Close has begun.
  */
  lemma TheSelectIs(s: State, i: nat)
    requires Inv(s) && i < |s.pubs| && s.pubs[i].pc == Blocked
    ensures var p, s1, s2, s3 := s.pubs[i], Step(s, ASend(i)), Step(s, AGiveUp(i, false)), Step(s, AGiveUp(i, true));
            && p.ch < |s.channels|
            && (var c := s.channels[p.ch];
                s1 == if |c.buf| < 64 then
                        s.(channels := s.channels[p.ch := Channel(c.buf + [i], c.closed, c.sent + [i], c.taken)],
                           pubs := s.pubs[i := Publisher(p.ch, p.cancelled, Leaving(Delivered))])
                      else s)
            && s2 == (if p.cancelled then s.(pubs := s.pubs[i := Publisher(p.ch, true, Leaving(ErrContext))]) else s)
            && s3 == (if s.closer == Open then s else s.(pubs := s.pubs[i := Publisher(p.ch, p.cancelled, Leaving(ErrClosed))]))
  {
    assert !NobodySends(s);
    assert !s.channels[s.pubs[i].ch].closed;
  }

  // The steps of a publish that is not disturbed.
  function Publish(i: nat, ch: nat): seq<Action> {
    [APublish(ch, false)] + [AEnter(i)] + [ACheck(i)] + [ALook(i)] + [ASend(i)] + [ALeave(i)]
  }

  lemma Publishes(s: State, i: nat, ch: nat)
    requires Inv(s) && ch < 3 && i == |s.pubs| && s.closer == Open && |s.channels[ch].buf| < 64
    ensures var s4 := Step(Step(Step(Step(s, APublish(ch, false)), AEnter(i)), ACheck(i)), ALook(i));
            s4.channels == s.channels && s4.closer == Open && s4.pubs == s.pubs + [Publisher(ch, false, Blocked)]
  {
    hide ChannelOk, ClosedAsFar, NobodySends, NoReaders;
    var p := s.pubs;
    var s2 := Step(Step(s, APublish(ch, false)), AEnter(i));
    assert s2.pubs == p + [Publisher(ch, false, Checking)];
    var s3 := Step(s2, ACheck(i));
    assert s3.pubs == p + [Publisher(ch, false, Looking)];
  }

  /** While the bus is open and there is room, a publish delivers its message, whoever else is inside. */
  lemma AMessageGetsIn(s: State, ch: nat)
    requires Inv(s) && ch < 3 && s.closer == Open && |s.channels[ch].buf| < 64
    ensures var i := |s.pubs|; var s' := Run(s, Publish(i, ch));
            && s'.pubs == s.pubs + [Publisher(ch, false, Returned(Delivered))]
            && s'.channels[ch].buf == s.channels[ch].buf + [i] && s'.channels[ch].taken == s.channels[ch].taken
            && forall k | 0 <= k < 3 && k != ch :: s'.channels[k] == s.channels[k]
  {
    hide ChannelOk, ClosedAsFar, NobodySends, NoReaders, Step, Run;
    var i := |s.pubs|;
    Publishes(s, i, ch);
    var none: seq<Action> := [];
    assert Run(s, none) == s by { RunNone(s); }
    RunLast(s, none, APublish(ch, false));
    assert none + [APublish(ch, false)] == [APublish(ch, false)];
    RunLast(s, [APublish(ch, false)], AEnter(i));
    RunLast(s, [APublish(ch, false)] + [AEnter(i)], ACheck(i));
    RunLast(s, [APublish(ch, false)] + [AEnter(i)] + [ACheck(i)], ALook(i));
    var s4 := Run(s, [APublish(ch, false)] + [AEnter(i)] + [ACheck(i)] + [ALook(i)]);
    RunLast(s, [APublish(ch, false)] + [AEnter(i)] + [ACheck(i)] + [ALook(i)], ASend(i));
    RunLast(s, [APublish(ch, false)] + [AEnter(i)] + [ACheck(i)] + [ALook(i)] + [ASend(i)], ALeave(i));
    TheSelectIs(s4, i);
    var s5 := Step(s4, ASend(i));
    assert s5.pubs[i].pc == Leaving(Delivered);
    LeavesWith(s5, i);
    assert s5.pubs[i := Publisher(ch, false, Returned(Delivered))] == s.pubs + [Publisher(ch, false, Returned(Delivered))];
  }

  lemma RunNone(s: State)
    requires Inv(s)
    ensures Run(s, []) == s
  {
  }

  lemma LeavesWith(s: State, i: nat)
    requires Shaped(s) && i < |s.pubs| && s.pubs[i].pc.Leaving?
    ensures Step(s, ALeave(i)) == s.(pubs := s.pubs[i := s.pubs[i].(pc := Returned(s.pubs[i].pc.result))])
  {
  }

  // ---- what a result says -----------------------------------------------------------------------------------------------------

  // Has, or will return, this result.
  predicate Ends(p: Publisher, r: Result) {
    p.pc == Leaving(r) || p.pc == Returned(r)
  }

  predicate ResultsFit(s: State) {
    && (forall i | 0 <= i < |s.pubs| && Ends(s.pubs[i], ErrContext) :: s.pubs[i].cancelled)
    && (forall i | 0 <= i < |s.pubs| && Ends(s.pubs[i], ErrClosed) :: s.closer != Open)
  }

  lemma StepResults(s: State, a: Action)
    requires Inv(s) && ResultsFit(s)
    ensures ResultsFit(Step(s, a))
  {
    hide ChannelOk, ClosedAsFar, NobodySends, NoReaders;
  }

  /** The context's error comes only to who was cancelled, the bus's only once Close has begun. */
  lemma {:induction false} ResultsAreTrue(actions: seq<Action>)
    ensures var s := Run(INIT, actions);
            && (forall i | 0 <= i < |s.pubs| && s.pubs[i].pc == Returned(ErrContext) :: s.pubs[i].cancelled)
            && (forall i | 0 <= i < |s.pubs| && s.pubs[i].pc == Returned(ErrClosed) :: s.closer != Open)
    ensures ResultsFit(Run(INIT, actions))
  {
    InitInv();
    if actions != [] {
      ResultsAreTrue(actions[..|actions| - 1]);
      StepResults(Run(INIT, actions[..|actions| - 1]), actions[|actions| - 1]);
    }
  }

  // Close has begun, or i is cancelled, and i has not passed its look at it.
  predicate IsLate(s: State, i: nat) {
    i < |s.pubs| && (s.closer != Open || s.pubs[i].cancelled) && s.pubs[i].pc != Blocked && !Ends(s.pubs[i], Delivered)
  }

  lemma StepLate(s: State, a: Action, i: nat)
    requires Inv(s) && IsLate(s, i)
    ensures IsLate(Step(s, a), i)
  {
    hide ChannelOk, ClosedAsFar, NobodySends, NoReaders;
  }

  /** Who has not passed the first select when Close begins, or when it is cancelled, never sends. */
  lemma {:induction false} WhoIsLateSendsNothing(s: State, actions: seq<Action>, i: nat)
    requires Inv(s) && IsLate(s, i)
    ensures i < |Run(s, actions).pubs| && !Ends(Run(s, actions).pubs[i], Delivered)
    ensures IsLate(Run(s, actions), i)
  {
    if actions != [] {
      WhoIsLateSendsNothing(s, actions[..|actions| - 1], i);
      StepLate(Run(s, actions[..|actions| - 1]), actions[|actions| - 1], i);
    }
  }

  /** A publisher in either select that is cancelled can leave with its context's error, whatever the others do. */
  lemma TheCancelledGetOut(s: State, i: nat)
    requires Inv(s) && i < |s.pubs| && s.pubs[i].cancelled && (s.pubs[i].pc == Looking || s.pubs[i].pc == Blocked)
    ensures Run(s, [AGiveUp(i, false)] + [ALeave(i)]) == s.(pubs := s.pubs[i := s.pubs[i].(pc := Returned(ErrContext))])
  {
    hide ChannelOk, ClosedAsFar, NobodySends, NoReaders;
    StepInv(s, AGiveUp(i, false));
    RunFirst(s, AGiveUp(i, false), [ALeave(i)]);
    var s1 := Step(s, AGiveUp(i, false));
    RunNone(s1);
    RunLast(s1, [], ALeave(i));
    assert [] + [ALeave(i)] == [ALeave(i)];
  }

  // ---- messages come out in turn ------------------------------------------------------------------------------------------------

  function Receives(ch: nat, n: nat): seq<Action> {
    seq(n, k => AReceive(ch))
  }

  lemma OneReceive(s: State, ch: nat)
    requires Inv(s) && ch < 3 && s.channels[ch].buf != []
    ensures var c := s.channels[ch];
            Step(s, AReceive(ch)) == s.(channels := s.channels[ch := Channel(c.buf[1..], c.closed, c.sent, c.taken + [c.buf[0]])])
  {
  }

  /** A consumer that receives n times takes the n oldest messages, in the order they were sent. */
  lemma {:induction false} MessagesComeInTurn(s: State, ch: nat, n: nat)
    requires Inv(s) && ch < 3 && n <= |s.channels[ch].buf|
    ensures var c := s.channels[ch];
            Run(s, Receives(ch, n)) == s.(channels := s.channels[ch := Channel(c.buf[n..], c.closed, c.sent, c.taken + c.buf[..n])])
  {
    hide ChannelOk, ClosedAsFar, NobodySends, NoReaders, Step;
    var c := s.channels[ch];
    if n == 0 {
      assert Receives(ch, 0) == [];
      assert c.taken + c.buf[..0] == c.taken && c.buf[0..] == c.buf;
      assert s.channels[ch := c] == s.channels;
    } else {
      MessagesComeInTurn(s, ch, n - 1);
      assert Receives(ch, n) == Receives(ch, n - 1) + [AReceive(ch)];
      RunLast(s, Receives(ch, n - 1), AReceive(ch));
      var s1 := Run(s, Receives(ch, n - 1));
      OneReceive(s1, ch);
      assert c.buf[n - 1..][0] == c.buf[n - 1] && c.buf[n - 1..][1..] == c.buf[n..];
      assert c.taken + c.buf[..n - 1] + [c.buf[n - 1]] == c.taken + c.buf[..n];
    }
  }

  // ---- Close comes to its end -----------------------------------------------------------------------------------------------------

  // How far Close is from its end, the publishers and the messages apart.
  function StepsOfClose(c: Closer): nat {
    match c
    case Open => 12
    case DoneClosed => 11
    case FlagSet => 10
    case Asking => 9
    case Closing(n) => if n < 3 then 8 - n else 5
    case Draining(n) => if n < 3 then 4 - n else 1
    case Closed => 0
  }

  function Waiting(s: State): nat
    requires Shaped(s)
  {
    |s.channels[0].buf| + |s.channels[1].buf| + |s.channels[2].buf|
  }

  function CloseLeft(s: State): nat
    requires Shaped(s)
  {
    StepsOfClose(s.closer) + Remaining(s.pubs) + Waiting(s)
  }

  // Close's own step, or while it waits for the lock the step of a publisher that is inside.
  function NextOfClose(s: State): Action {
    if s.closer.Asking? && !NoReaders(s.pubs) then NextOut(s) else AClose
  }

  lemma WayOutSendsNothing(s: State, i: nat)
    requires Inv(s) && i < |s.pubs|
    ensures var s' := Step(s, WayOut(s, i)); s'.channels == s.channels && s'.closer == s.closer && |s'.pubs| == |s.pubs|
  {
    hide ChannelOk, ClosedAsFar, NobodySends, NoReaders;
  }

  lemma CloseStepsOn(s: State)
    requires Inv(s) && s.closer != Closed && (s.closer.Asking? ==> NoReaders(s.pubs))
    ensures CloseLeft(Step(s, AClose)) < CloseLeft(s) && Step(s, AClose).pubs == s.pubs
  {
    hide ChannelOk, ClosedAsFar, NobodySends, NoReaders;
  }

  lemma CloseGoesOn(s: State)
    requires Inv(s) && s.closer != Closed
    ensures CloseLeft(Step(s, NextOfClose(s))) < CloseLeft(s)
  {
    if s.closer.Asking? && !NoReaders(s.pubs) {
      LettingOneOut(s);
      WayOutSendsNothing(s, Reader(s.pubs, 0));
    } else {
      CloseStepsOn(s);
    }
  }

  predicate OnlyEnds(actions: seq<Action>) {
    forall k | 0 <= k < |actions| :: !actions[k].APublish? && !actions[k].ASend? && !actions[k].AReceive? && !actions[k].AEnter?
  }

  lemma NextOnlyEnds(s: State)
    ensures OnlyEnds([NextOfClose(s)])
  {
  }

  lemma {:induction false} Closes(s: State) returns (more: seq<Action>)
    requires Inv(s)
    ensures OnlyEnds(more) && |more| <= CloseLeft(s) && Run(s, more).closer == Closed
    decreases CloseLeft(s)
  {
    hide Step, NextOfClose, CloseLeft, ChannelOk, ClosedAsFar, NobodySends, NoReaders;
    if s.closer == Closed {
      more := [];
      RunNone(s);
    } else {
      var a := NextOfClose(s);
      StepInv(s, a);
      CloseGoesOn(s);
      NextOnlyEnds(s);
      var rest := Closes(Step(s, a));
      more := [a] + rest;
      RunFirst(s, a, rest);
    }
  }

  /**
  From every state Close comes to its end, with nobody receiving and the publishers doing no more than leave: then all three
  channels are closed and empty, and all that was ever sent has been taken.
  */
  lemma CloseEnds(actions: seq<Action>) returns (more: seq<Action>)
    ensures OnlyEnds(more)
    ensures var s := Run(Run(INIT, actions), more);
            && s.closer == Closed && |s.channels| == 3
            && forall ch | 0 <= ch < 3 :: s.channels[ch].closed && s.channels[ch].buf == [] && s.channels[ch].taken == s.channels[ch].sent
  {
    InitInv();
    more := Closes(Run(INIT, actions));
    var s := Run(Run(INIT, actions), more);
    forall ch | 0 <= ch < 3 ensures s.channels[ch].taken == s.channels[ch].sent {
      ChannelHolds(s, ch);
    }
  }
}
