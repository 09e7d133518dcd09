/**
That the session locks let everybody through (pkg/agent/sessionlock.go): each call takes a bounded number of steps, some
call can always take one, and a caller that gives up needs nobody for it.
*/
module SessionLocksProgress {
  import opened Wrappers
  import opened SessionLocksSpec
  import opened SessionLocksInv
  import opened SessionLocksSafety

  // The call has returned for good: as a pass, with its context's error, or unlocked.
  predicate IsOver(c: Call) {
    c.pc == Nested || c.pc == Failed || c.pc == Done
  }

  // At most how many steps are left of a call.
  function StepsOf(pc: Pc): nat {
    match pc
    case Starting => 7
    case Entering => 6
    case Waiting(_) => 5
    case Acquired(_) => 4
    case Held(_, _) => 3
    case Backing(_) => 2
    case Unlocking(_) => 2
    case Leaving(_, _) => 1
    case _ => 0
  }

  function StepsLeft(calls: seq<Call>): nat {
    if calls == [] then 0 else StepsLeft(calls[..|calls| - 1]) + StepsOf(calls[|calls| - 1].pc)
  }

  lemma {:induction false} StepsSet(calls: seq<Call>, i: nat, c: Call)
    requires i < |calls|
    ensures StepsLeft(calls[i := c]) + StepsOf(calls[i].pc) == StepsLeft(calls) + StepsOf(c.pc)
  {
    var n := |calls| - 1;
    if i < n {
      StepsSet(calls[..n], i, c);
      assert calls[i := c][..n] == calls[..n][i := c];
    } else {
      assert calls[i := c][..n] == calls[..n];
    }
  }

  // A step of a call that was made; nobody comes, and nobody is cancelled.
  predicate IsMove(a: Action) {
    !a.ACall? && !a.ACancel?
  }

  function Mover(a: Action): nat
    requires IsMove(a)
  {
    match a
    case ABegin(i) => i
    case AEnter(i) => i
    case AAcquire(i) => i
    case AAbandon(i) => i
    case ACheck(i) => i
    case AUnlock(i) => i
    case ATakeBack(i) => i
    case ALeave(i) => i
  }

  // The calls are the same but for one, which got on.
  predicate GotOn(s: State, s': State, i: nat) {
    && i < |s.calls| == |s'.calls|
    && s'.calls == s.calls[i := s.calls[i].(pc := s'.calls[i].pc)]
    && StepsOf(s'.calls[i].pc) < StepsOf(s.calls[i].pc)
  }

  lemma ComingGetsOn(s: State, a: Action)
    requires Inv(s) && (a.ABegin? || a.AEnter? || a.AAcquire? || a.AAbandon?) && Step(s, a) != s
    ensures GotOn(s, Step(s, a), Mover(a))
  {
    hide Holds, EntryOk, CallFits, LinkFits;
  }

  lemma GoingGetsOn(s: State, a: Action)
    requires Inv(s) && (a.ACheck? || a.AUnlock? || a.ATakeBack? || a.ALeave?) && Step(s, a) != s
    ensures GotOn(s, Step(s, a), Mover(a))
  {
    hide EntryOk, CallFits, LinkFits;
  }

  /** Each step takes its own call nearer to its end, and no other. */
  lemma EachStepGetsOn(s: State, a: Action)
    requires Inv(s) && IsMove(a) && Step(s, a) != s
    ensures GotOn(s, Step(s, a), Mover(a)) && StepsLeft(Step(s, a).calls) < StepsLeft(s.calls)
  {
    hide Step, EntryOk, CallFits, LinkFits;
    if a.ABegin? || a.AEnter? || a.AAcquire? || a.AAbandon? { ComingGetsOn(s, a); } else { GoingGetsOn(s, a); }
    var i := Mover(a);
    StepsSet(s.calls, i, s.calls[i].(pc := Step(s, a).calls[i].pc));
  }

  lemma HolderMoves(s: State, j: nat) returns (a: Action)
    requires Inv(s) && j < |s.calls| && TokenIn(s.calls[j].pc).Some?
    ensures IsMove(a) && Step(s, a) != s
  {
    CountedIsKept(s, j);
    var pc := s.calls[j].pc;
    a := if pc.Acquired? then ACheck(j) else if pc.Held? then AUnlock(j) else ATakeBack(j);
    assert EntryOk(s, TokenIn(pc).value);
    assert CallOk(s, s.calls[j]);
    CountedAt(s.calls, j, TokenIn(pc).value);
    assert Step(s, a).calls[j].pc != pc;
  }

  /** While a call is not over, some call can move. */
  lemma SomebodyMoves(s: State, i: nat) returns (a: Action)
    requires Inv(s) && i < |s.calls| && !IsOver(s.calls[i])
    ensures IsMove(a) && Step(s, a) != s
  {
    var pc := s.calls[i].pc;
    if TokenIn(pc).Some? {
      a := HolderMoves(s, i);
    } else if pc.Waiting? {
      CountedIsKept(s, i);
      assert EntryOk(s, pc.e) && CallOk(s, s.calls[i]);
      if s.table[pc.e].full {
        var j := FindToken(s.calls, pc.e);
        a := HolderMoves(s, j);
      } else {
        a := AAcquire(i);
        assert Step(s, a).calls[i].pc != pc;
      }
    } else {
      a := if pc.Starting? then ABegin(i) else if pc.Entering? then AEnter(i) else ALeave(i);
      PlainMoves(s, i);
    }
  }

  lemma PlainMoves(s: State, i: nat)
    requires Inv(s) && i < |s.calls| && (s.calls[i].pc.Starting? || s.calls[i].pc.Entering? || s.calls[i].pc.Leaving?)
    ensures var pc := s.calls[i].pc;
            Step(s, if pc.Starting? then ABegin(i) else if pc.Entering? then AEnter(i) else ALeave(i)).calls[i].pc != pc
  {
    hide EntryOk, CallFits, LinkFits, Holds;
  }

  // ---- every run ----------------------------------------------------------------------------------------------------------

  // Who failed, or is about to, was cancelled.
  predicate FailsCancelled(c: Call) {
    c.pc.Failed? || c.pc.Backing? || (c.pc.Leaving? && !c.pc.had) ==> c.cancelled
  }

  predicate AllFailCancelled(s: State) {
    forall i | 0 <= i < |s.calls| :: FailsCancelled(s.calls[i])
  }

  lemma MoveFailsCancelled(s: State, a: Action, i: nat)
    requires Inv(s) && i < |s.calls| && FailsCancelled(s.calls[i])
    ensures i < |Step(s, a).calls| && FailsCancelled(Step(s, a).calls[i])
  {
    hide EntryOk, CallFits, LinkFits, Holds;
  }

  /** Only a call that was cancelled returns an error; any other comes away with the lock, or as a pass under a holder. */
  lemma {:induction false} OnlyTheCancelledFail(actions: seq<Action>)
    ensures var calls := Run(INIT, actions).calls;
            forall i | 0 <= i < |calls| && calls[i].pc == Failed :: calls[i].cancelled
    ensures AllFailCancelled(Run(INIT, actions))
  {
    if actions != [] {
      var s, a := Run(INIT, actions[..|actions| - 1]), actions[|actions| - 1];
      OnlyTheCancelledFail(actions[..|actions| - 1]);
      forall i | 0 <= i < |Step(s, a).calls| ensures FailsCancelled(Step(s, a).calls[i]) {
        if i < |s.calls| { MoveFailsCancelled(s, a, i); } else { NewFailsCancelled(s, a, i); }
      }
    }
  }

  lemma NewFailsCancelled(s: State, a: Action, i: nat)
    requires Inv(s) && |s.calls| <= i < |Step(s, a).calls|
    ensures FailsCancelled(Step(s, a).calls[i])
  {
    hide EntryOk, CallFits, LinkFits, Holds;
  }

  predicate AllMoves(actions: seq<Action>) {
    forall k | 0 <= k < |actions| :: IsMove(actions[k])
  }

  lemma {:induction false} RunBoth(s: State, a: Action, rest: seq<Action>)
    requires Inv(s) && Inv(Step(s, a))
    ensures Run(s, [a] + rest) == Run(Step(s, a), rest)
  {
    hide Step, EntryOk, CallFits, LinkFits;
    if rest == [] {
      assert [a] + rest == [a] && [a][..0] == [];
      assert Run(s, [a]) == Step(Run(s, []), a);
    } else {
      RunBoth(s, a, rest[..|rest| - 1]);
      assert ([a] + rest)[..|rest|] == [a] + rest[..|rest| - 1];
    }
  }

  lemma {:induction false} GetsThrough(s: State) returns (more: seq<Action>)
    requires Inv(s)
    ensures AllMoves(more) && |more| <= StepsLeft(s.calls)
    ensures |Run(s, more).calls| == |s.calls| && forall i | 0 <= i < |s.calls| :: IsOver(Run(s, more).calls[i])
    decreases StepsLeft(s.calls)
  {
    hide Step, IsOver, EntryOk, CallFits, LinkFits;
    if i :| 0 <= i < |s.calls| && !IsOver(s.calls[i]) {
      var a := SomebodyMoves(s, i);
      EachStepGetsOn(s, a);
      StepInv(s, a);
      var rest := GetsThrough(Step(s, a));
      RunBoth(s, a, rest);
      more := [a] + rest;
    } else {
      more := [];
    }
  }

  lemma {:induction false} SevenEach(calls: seq<Call>)
    ensures StepsLeft(calls) <= 7 * |calls|
  {
    if calls != [] { SevenEach(calls[..|calls| - 1]); }
  }

  /**
  From every state that can be reached the calls that were made can all be brought to their end, by at most seven steps
  each, and then no entry is left.
  */
  lemma EverybodyGetsThrough(actions: seq<Action>) returns (more: seq<Action>)
    ensures AllMoves(more) && |more| <= 7 * |Run(INIT, actions).calls|
    ensures var s := Run(Run(INIT, actions), more);
            s.entries == map[] && |s.calls| == |Run(INIT, actions).calls| && forall i | 0 <= i < |s.calls| :: IsOver(s.calls[i])
  {
    var s := Run(INIT, actions);
    SevenEach(s.calls);
    more := GetsThrough(s);
    RestingIsEmpty(Run(s, more));
  }

  /**
  A call that is cancelled while it waits gets out by its own two steps; one that is cancelled before it looks, and has no
  holder around it, is refused at once and leaves the entries alone.
  */
  lemma TheCancelledNeedNobody(s: State, i: nat)
    requires Inv(s) && i < |s.calls| && s.calls[i].cancelled
    ensures s.calls[i].pc.Waiting? ==>
              var s1 := Step(s, AAbandon(i));
              s1.table == s.table && Inv(s1) && i < |s1.calls| && s1.calls[i].pc.Leaving? && Step(s1, ALeave(i)).calls[i].pc == Failed
    ensures s.calls[i].pc == Starting && !HeldOnChain(s, s.calls[i].chain, s.calls[i].key) ==>
              Step(s, ABegin(i)) == s.(calls := s.calls[i := s.calls[i].(pc := Failed)])
  {
    assert CallOk(s, s.calls[i]);
    if s.calls[i].pc.Waiting? {
      StepInv(s, AAbandon(i));
    }
    if s.calls[i].pc == Starting {
      ReentrantOnlyUnderAHolder(s, i);
    }
  }
}
