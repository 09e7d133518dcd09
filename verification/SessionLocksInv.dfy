/**
Every step of the session locks keeps the invariant of SessionLocksSpec. What follows from it for every run is in
SessionLocksSafety.

The invariant counts, for each entry, the calls that refer to it and the calls whose token is in its channel, so
most steps come down to what they do to these two counts:

  - "counting" says how a count changes when one call moves, and that two different calls with a token make two;
  - "every step keeps the invariant" begins with the moves that leave every count alone (MoveInv) and with those
    that change one entry (TableInv), and takes the actions in the order of a call: a new call, entering with a new
    entry or an old one, acquiring, giving up, looking at the chain again, holding, unlocking and leaving;
  - Run is the state after any list of actions from a state that has the invariant.
*/
module SessionLocksInv {
  import opened Wrappers
  import opened SessionLocksSpec

  // ---- counting -----------------------------------------------------------------------------------------------------

  lemma {:induction false} CountMove(calls: seq<Call>, i: nat, c: Call, e: nat)
    requires i < |calls|
    ensures Counted(calls[i := c], e) == Counted(calls, e) - One(EntryOf(calls[i].pc) == Some(e)) + One(EntryOf(c.pc) == Some(e))
    ensures Tokens(calls[i := c], e) == Tokens(calls, e) - One(TokenIn(calls[i].pc) == Some(e)) + One(TokenIn(c.pc) == Some(e))
  {
    var front := calls[..|calls| - 1];
    if i == |front| {
      assert calls[i := c][..i] == front;
    } else {
      CountMove(front, i, c, e);
      assert calls[i := c][..|front|] == front[i := c];
    }
  }

  lemma {:induction false} CountedAt(calls: seq<Call>, i: nat, e: nat)
    requires i < |calls|
    ensures EntryOf(calls[i].pc) == Some(e) ==> Counted(calls, e) > 0
    ensures TokenIn(calls[i].pc) == Some(e) ==> Tokens(calls, e) > 0
  {
    if i < |calls| - 1 {
      CountedAt(calls[..|calls| - 1], i, e);
    }
  }

  lemma {:induction false} TwoTokens(calls: seq<Call>, i: nat, j: nat, e: nat)
    requires i < j < |calls|
    requires TokenIn(calls[i].pc) == Some(e) && TokenIn(calls[j].pc) == Some(e)
    ensures Tokens(calls, e) >= 2
  {
    if j < |calls| - 1 {
      TwoTokens(calls[..|calls| - 1], i, j, e);
    } else {
      CountedAt(calls[..j], i, e);
    }
  }

  lemma {:induction false} NewEntryUncounted(calls: seq<Call>, e: nat)
    requires forall i | 0 <= i < |calls| :: EntryOf(calls[i].pc).Some? ==> EntryOf(calls[i].pc).value < e
    ensures Counted(calls, e) == 0 && Tokens(calls, e) == 0
  {
    if calls != [] {
      NewEntryUncounted(calls[..|calls| - 1], e);
    }
  }

  // ---- every step keeps the invariant ---------------------------------------------------------------------------------

  // A call that goes on without touching the table or the links.
  lemma MoveInv(s: State, i: nat, pc: Pc)
    requires Inv(s) && i < |s.calls|
    requires EntryOf(pc) == EntryOf(s.calls[i].pc) && TokenIn(pc) == TokenIn(s.calls[i].pc)
    requires !pc.Held? && !s.calls[i].pc.Held?
    ensures Inv(Move(s, i, pc))
  {
    var s' := Move(s, i, pc);
    assert CallOk(s, s.calls[i]) && CallFits(s, i);
    forall e | 0 <= e < |s'.table| ensures EntryOk(s', e) {
      assert EntryOk(s, e);
      CountMove(s.calls, i, s'.calls[i], e);
    }
    assert forall j | 0 <= j < |s'.calls| && j != i :: CallOk(s, s.calls[j]) && CallFits(s, j);
    forall l | 0 <= l < |s'.links| ensures LinkFits(s', l) {
      assert LinkFits(s, l);
    }
  }

  lemma CallInv(s: State, c: Call)
    requires Inv(s) && c.pc.Starting? && ValidChain(s.links, c.chain)
    ensures Inv(s.(calls := s.calls + [c]))
  {
    var s' := s.(calls := s.calls + [c]);
    assert s'.calls[..|s.calls|] == s.calls;
    forall e | 0 <= e < |s.table| ensures EntryOk(s', e) {
      assert EntryOk(s, e);
    }
    assert forall j | 0 <= j < |s.calls| :: CallOk(s, s.calls[j]) && CallFits(s, j);
    forall l | 0 <= l < |s'.links| ensures LinkFits(s', l) {
      assert LinkFits(s, l);
    }
  }

  lemma CancelInv(s: State, i: nat)
    requires Inv(s) && i < |s.calls|
    ensures Inv(Step(s, ACancel(i)))
  {
    var s' := Step(s, ACancel(i));
    forall e | 0 <= e < |s'.table| ensures EntryOk(s', e) {
      assert EntryOk(s, e);
      CountMove(s.calls, i, s'.calls[i], e);
    }
    assert forall j | 0 <= j < |s.calls| :: CallOk(s, s.calls[j]) && CallFits(s, j);
    forall l | 0 <= l < |s'.links| ensures LinkFits(s', l) {
      assert LinkFits(s, l);
    }
  }

  // A call changes entry e, and what it has in it.
  lemma TableInv(s: State, i: nat, pc: Pc, e: nat, x: Entry, entries: map<string, nat>)
    requires Inv(s) && i < |s.calls| && e < |s.table| && x.key == s.table[e].key == s.calls[i].key
    requires !pc.Held? && !s.calls[i].pc.Held?
    requires EntryOf(pc) in {None, Some(e)} && EntryOf(s.calls[i].pc) in {None, Some(e)}
    requires TokenIn(pc) in {None, Some(e)} && TokenIn(s.calls[i].pc) in {None, Some(e)}
    requires x.refs == s.table[e].refs - One(EntryOf(s.calls[i].pc) == Some(e)) + One(EntryOf(pc) == Some(e))
    requires One(x.full) == One(s.table[e].full) - One(TokenIn(s.calls[i].pc) == Some(e)) + One(TokenIn(pc) == Some(e))
    requires entries == if x.refs > 0 then s.entries else s.entries - {x.key}
    requires x.refs > 0 || s.table[e].refs > 0
    requires s.table[e].refs > 0
    ensures Inv(Move(s.(table := s.table[e := x], entries := entries), i, pc))
  {
    hide Counted, Tokens, Holds, ValidLinks;
    var s' := Move(s.(table := s.table[e := x], entries := entries), i, pc);
    assert EntryOk(s, e);
    forall f | 0 <= f < |s'.table| ensures EntryOk(s', f) {
      assert EntryOk(s, f);
      CountMove(s.calls, i, s'.calls[i], f);
    }
    forall j | 0 <= j < |s'.calls| ensures CallOk(s', s'.calls[j]) && CallFits(s', j) {
      assert CallOk(s, s.calls[j]) && CallFits(s, j);
    }
    forall l | 0 <= l < |s'.links| ensures LinkFits(s', l) {
      assert LinkFits(s, l);
    }
  }

  lemma EnterInv(s: State, i: nat)
    requires Inv(s) && i < |s.calls|
    ensures Inv(Enter(s, i))
  {
    var c := s.calls[i];
    if c.pc.Entering? {
      if c.key in s.entries {
        var e := s.entries[c.key];
        assert EntryOk(s, e);
        TableInv(s, i, Waiting(e), e, s.table[e].(refs := s.table[e].refs + 1), s.entries);
      } else {
        NewEntryInv(s, i);
      }
    }
  }

  lemma NewEntryInv(s: State, i: nat)
    requires Inv(s) && i < |s.calls| && s.calls[i].pc.Entering? && s.calls[i].key !in s.entries
    ensures Inv(Enter(s, i))
  {
    hide Counted, Tokens, Holds, ValidLinks;
    var s', n := Enter(s, i), |s.table|;
    assert forall j | 0 <= j < |s.calls| :: CallOk(s, s.calls[j]) && CallFits(s, j);
    NewEntryUncounted(s.calls, n);
    forall f | 0 <= f < |s'.table| ensures EntryOk(s', f) {
      if f < n { assert EntryOk(s, f); }
      CountMove(s.calls, i, s'.calls[i], f);
    }
    assert forall j | 0 <= j < |s'.calls| && j != i :: s'.calls[j] == s.calls[j];
    forall l | 0 <= l < |s'.links| ensures LinkFits(s', l) {
      assert LinkFits(s, l);
    }
  }

  // The call that is counted keeps its entry in the map.
  lemma CountedIsKept(s: State, i: nat)
    requires Inv(s) && i < |s.calls| && EntryOf(s.calls[i].pc).Some?
    ensures CallOk(s, s.calls[i])
    ensures var e := EntryOf(s.calls[i].pc).value;
            && s.table[e].key == s.calls[i].key && s.table[e].refs > 0
            && s.table[e].key in s.entries && s.entries[s.table[e].key] == e
            && (TokenIn(s.calls[i].pc).Some? ==> s.table[e].full)
  {
    assert CallOk(s, s.calls[i]) && CallFits(s, i);
    var e := EntryOf(s.calls[i].pc).value;
    CountedAt(s.calls, i, e);
    assert EntryOk(s, e);
  }

  lemma AcquireInv(s: State, i: nat)
    requires Inv(s) && i < |s.calls|
    ensures Inv(Acquire(s, i))
  {
    var pc := s.calls[i].pc;
    if pc.Waiting? {
      CountedIsKept(s, i);
      if !s.table[pc.e].full {
        TableInv(s, i, Acquired(pc.e), pc.e, s.table[pc.e].(full := true), s.entries);
      }
    }
  }

  lemma TakeBackInv(s: State, i: nat)
    requires Inv(s) && i < |s.calls|
    ensures Inv(TakeBack(s, i))
  {
    var pc := s.calls[i].pc;
    if pc.Backing? || pc.Unlocking? {
      CountedIsKept(s, i);
      TableInv(s, i, Leaving(pc.e, pc.Unlocking?), pc.e, s.table[pc.e].(full := false), s.entries);
    }
  }

  lemma LeaveInv(s: State, i: nat)
    requires Inv(s) && i < |s.calls|
    ensures Inv(Leave(s, i))
  {
    var c := s.calls[i];
    if c.pc.Leaving? {
      CountedIsKept(s, i);
      var x := s.table[c.pc.e].(refs := s.table[c.pc.e].refs - 1);
      TableInv(s, i, if c.pc.had then Done else Failed, c.pc.e, x, if x.refs == 0 then s.entries - {c.key} else s.entries);
    }
  }

  lemma CheckInv(s: State, i: nat)
    requires Inv(s) && i < |s.calls|
    ensures Inv(Check(s, i))
  {
    var c := s.calls[i];
    if c.pc.Acquired? {
      if c.cancelled {
        MoveInv(s, i, Backing(c.pc.e));
      } else {
        HoldInv(s, i);
      }
    }
  }

  lemma HoldInv(s: State, i: nat)
    requires Inv(s) && i < |s.calls| && s.calls[i].pc.Acquired? && !s.calls[i].cancelled
    ensures Inv(Check(s, i))
  {
    var s', n := Check(s, i), |s.links|;
    assert CallOk(s, s.calls[i]) && CallFits(s, i);
    forall e | 0 <= e < |s'.table| ensures EntryOk(s', e) {
      assert EntryOk(s, e);
      CountMove(s.calls, i, s'.calls[i], e);
    }
    forall j | 0 <= j < |s'.calls| ensures CallOk(s', s'.calls[j]) && CallFits(s', j) {
      assert CallOk(s, s.calls[j]) && CallFits(s, j);
    }
    forall l | 0 <= l < |s'.links| ensures LinkFits(s', l) {
      if l < n { assert LinkFits(s, l); }
    }
  }

  lemma UnlockInv(s: State, i: nat)
    requires Inv(s) && i < |s.calls|
    ensures Inv(Unlock(s, i))
  {
    if s.calls[i].pc.Held? {
      var s' := Unlock(s, i);
      assert CallOk(s, s.calls[i]) && CallFits(s, i);
      forall e | 0 <= e < |s'.table| ensures EntryOk(s', e) {
        assert EntryOk(s, e);
        CountMove(s.calls, i, s'.calls[i], e);
      }
      forall j | 0 <= j < |s'.calls| ensures CallOk(s', s'.calls[j]) && CallFits(s', j) {
        assert CallOk(s, s.calls[j]) && CallFits(s, j);
      }
      forall l | 0 <= l < |s'.links| ensures LinkFits(s', l) {
        assert LinkFits(s, l);
      }
    }
  }

  lemma StepInv(s: State, a: Action)
    requires Inv(s)
    ensures Inv(Step(s, a))
  {
    match a {
      case ACall(key, chain, cancelled) => if ValidChain(s.links, chain) { CallInv(s, Call(key, chain, cancelled, Starting)); }
      case ACancel(i) => if i < |s.calls| { CancelInv(s, i); }
      case ABegin(i) => if i < |s.calls| && s.calls[i].pc.Starting? { MoveInv(s, i, Begin(s, i).calls[i].pc); }
      case AEnter(i) => if i < |s.calls| { EnterInv(s, i); }
      case AAcquire(i) => if i < |s.calls| { AcquireInv(s, i); }
      case AAbandon(i) =>
        if i < |s.calls| && s.calls[i].pc.Waiting? && s.calls[i].cancelled { MoveInv(s, i, Leaving(s.calls[i].pc.e, false)); }
      case ACheck(i) => if i < |s.calls| { CheckInv(s, i); }
      case AUnlock(i) => if i < |s.calls| { UnlockInv(s, i); }
      case ATakeBack(i) => if i < |s.calls| { TakeBackInv(s, i); }
      case ALeave(i) => if i < |s.calls| { LeaveInv(s, i); }
    }
  }

  lemma InitInv()
    ensures Inv(INIT)
  {
  }

  function Run(s: State, actions: seq<Action>): (s': State)
    requires Inv(s)
    ensures Inv(s')
  {
    if actions == [] then s
    else
      var s1 := Run(s, actions[..|actions| - 1]);
      StepInv(s1, actions[|actions| - 1]);
      Step(s1, actions[|actions| - 1])
  }
}
