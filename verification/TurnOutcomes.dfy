/**
What a root turn leaves in the history of its session (pkg/agent/turn_state.go:407-492, loop.go:1559-1638): all it wrote
when nobody aborts it, nothing when somebody does, however late it learns of it.
*/
module TurnOutcomes {
  import opened Wrappers
  import opened TurnHistory

  function Writes(t: nat, texts: seq<string>): seq<Action> {
    seq(|texts|, k requires 0 <= k < |texts| => AWrite(t, texts[k]))
  }

  function Entries(t: nat, texts: seq<string>): seq<Entry> {
    seq(|texts|, k requires 0 <= k < |texts| => Entry(Some(t), texts[k]))
  }

  lemma {:induction false} RunConcat(s: State, a: seq<Action>, b: seq<Action>)
    ensures Run(s, a + b) == Run(Run(s, a), b)
  {
    hide Step;
    if b == [] {
      assert a + b == a;
    } else {
      RunConcat(s, a, b[..|b| - 1]);
      assert (a + b)[..|a + b| - 1] == a + b[..|b| - 1];
    }
  }

  lemma RunOne(s: State, a: Action)
    ensures Run(s, [a]) == Step(s, a)
  {
    hide Step;
    assert [a][..0] == [];
    assert Run(s, [a][..0]) == s;
  }

  lemma RunLast(s: State, actions: seq<Action>, a: Action)
    ensures Run(s, actions + [a]) == Step(Run(s, actions), a)
  {
    RunConcat(s, actions, [a]);
    RunOne(Run(s, actions), a);
  }

  lemma {:induction false} Writing(s: State, t: nat, texts: seq<string>)
    requires t < |s.turns| && s.holder == Some(t) && !s.turns[t].exited && s.turns[t].snapshot.Some?
    ensures Run(s, Writes(t, texts)) == s.(history := s.history + Entries(t, texts))
  {
    if texts == [] {
      assert Writes(t, texts) == [] && s.history + Entries(t, texts) == s.history;
    } else {
      var n := |texts| - 1;
      Writing(s, t, texts[..n]);
      assert Writes(t, texts) == Writes(t, texts[..n]) + [AWrite(t, texts[n])];
      RunLast(s, Writes(t, texts[..n]), AWrite(t, texts[n]));
      assert s.history + Entries(t, texts[..n]) + [Entry(Some(t), texts[n])] == s.history + Entries(t, texts);
    }
  }

  // Turn t has not begun, and the session is free.
  predicate MayBegin(s: State, t: nat) {
    t < |s.turns| && s.holder.None? && s.turns[t] == WAITING
  }

  // The turn has the lock and knows how long the history was.
  lemma Beginning(s: State, t: nat)
    requires MayBegin(s, t)
    ensures var x := Turn(true, Some(|s.history|), false, false, s.history, [], false);
            Run(s, [ALock(t)] + [ASnapshot(t)]) == State(s.history, s.turns[t := x], Some(t))
  {
    RunOne(s, ALock(t));
    RunLast(s, [ALock(t)], ASnapshot(t));
  }

  // What is done from the lock to the unlock; the turn may be asked to take all back after so many writes.
  function ATurn(t: nat, texts: seq<string>): seq<Action> {
    [ALock(t)] + [ASnapshot(t)] + Writes(t, texts) + [AExit(t)] + [AUnlock(t)]
  }

  function AnAskedTurn(t: nat, before: seq<string>, after: seq<string>): seq<Action> {
    [ALock(t)] + [ASnapshot(t)] + Writes(t, before) + [AAsk(t)] + Writes(t, after) + [AExit(t)] + [AUnlock(t)]
  }

  /** A turn that nobody aborts leaves all it wrote, in order, behind what it found. */
  lemma AnUndisturbedTurnKeepsAll(s: State, t: nat, texts: seq<string>)
    requires MayBegin(s, t)
    ensures var s' := Run(s, ATurn(t, texts));
            s'.history == s.history + Entries(t, texts) && s'.holder.None? && t < |s'.turns| && s'.turns[t].exited
  {
    hide Run;
    var begun := [ALock(t)] + [ASnapshot(t)];
    Beginning(s, t);
    RunConcat(s, begun, Writes(t, texts));
    Writing(Run(s, begun), t, texts);
    RunLast(s, begun + Writes(t, texts), AExit(t));
    RunLast(s, begun + Writes(t, texts) + [AExit(t)], AUnlock(t));
  }

  /** A turn that is asked to take back what it wrote leaves the history as it found it, whatever it wrote before and after. */
  lemma AnAskedTurnLeavesNothing(s: State, t: nat, before: seq<string>, after: seq<string>)
    requires MayBegin(s, t)
    ensures var s' := Run(s, AnAskedTurn(t, before, after));
            s'.history == s.history && s'.holder.None? && t < |s'.turns| && s'.turns[t].exited
  {
    hide Run;
    var begun := [ALock(t)] + [ASnapshot(t)];
    Beginning(s, t);
    RunConcat(s, begun, Writes(t, before));
    Writing(Run(s, begun), t, before);
    var asked := begun + Writes(t, before) + [AAsk(t)];
    RunLast(s, begun + Writes(t, before), AAsk(t));
    RunConcat(s, asked, Writes(t, after));
    Writing(Run(s, asked), t, after);
    RunLast(s, asked + Writes(t, after), AExit(t));
    RunLast(s, asked + Writes(t, after) + [AExit(t)], AUnlock(t));
    assert (s.history + Entries(t, before) + Entries(t, after))[..|s.history|] == s.history;
  }

  /** In any run, a rollback of the turn that has the session gives back at once the history it found. */
  lemma ARollbackRestores(s: State, t: nat)
    requires Inv(s) && t < |s.turns| && s.holder == Some(t) && !s.turns[t].exited
    ensures Step(s, ARollback(t)) == s.(history := s.turns[t].atLock)
    ensures s.turns[t].atLock <= s.history
  {
    assert TurnOk(s, t);
  }
}
