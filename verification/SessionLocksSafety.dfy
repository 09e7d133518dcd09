/**
What callers of the session locks rely on, in every run: one holder per key, one entry in use per key, no lock after
a cancel, no pass without an ancestor that holds, an empty map when all is quiet, and no call that waits for nobody.
*/
module SessionLocksSafety {
  import opened Wrappers
  import opened SessionLocksSpec
  import opened SessionLocksInv

  // ---- the properties callers rely on ----------------------------------------------------------------------------------

  // A call that has the lock: from the moment its token is in until it takes it back.
  predicate HasToken(s: State, i: nat, key: string)
    requires i < |s.calls|
  {
    s.calls[i].key == key && TokenIn(s.calls[i].pc).Some?
  }

  /** At most one holder per key. */
  lemma MutualExclusion(actions: seq<Action>, i: nat, j: nat, key: string)
    requires i < |Run(INIT, actions).calls| && j < |Run(INIT, actions).calls|
    requires HasToken(Run(INIT, actions), i, key) && HasToken(Run(INIT, actions), j, key)
    ensures i == j
  {
    var s := Run(INIT, actions);
    CountedIsKept(s, i);
    CountedIsKept(s, j);
    var e := TokenIn(s.calls[i].pc).value;
    assert EntryOk(s, e);
    if i < j { TwoTokens(s.calls, i, j, e); }
    if j < i { TwoTokens(s.calls, j, i, e); }
  }

  /** An entry counts exactly the calls that refer to it, and one that counts any is the map's only entry for its key. */
  lemma EntriesAreCounted(actions: seq<Action>, e: nat)
    requires e < |Run(INIT, actions).table|
    ensures var s := Run(INIT, actions); s.table[e].refs == Counted(s.calls, e) && (s.table[e].refs > 0 <==> InMap(s, e))
  {
    assert EntryOk(Run(INIT, actions), e);
  }

  predicate InMap(s: State, e: nat)
    requires e < |s.table|
  {
    s.table[e].key in s.entries && s.entries[s.table[e].key] == e
  }

  lemma OneEntryPerKey(actions: seq<Action>, e: nat, f: nat)
    requires e < |Run(INIT, actions).table| && f < |Run(INIT, actions).table|
    requires var s := Run(INIT, actions); s.table[e].key == s.table[f].key && s.table[e].refs > 0 && s.table[f].refs > 0
    ensures e == f
  {
    assert EntryOk(Run(INIT, actions), e) && EntryOk(Run(INIT, actions), f);
  }

  // The call is over, or has not begun.
  predicate Resting(c: Call) {
    EntryOf(c.pc).None?
  }

  lemma {:induction false} RestingUncounted(calls: seq<Call>, e: nat)
    requires forall i | 0 <= i < |calls| :: Resting(calls[i])
    ensures Counted(calls, e) == 0
  {
    if calls != [] {
      RestingUncounted(calls[..|calls| - 1], e);
    }
  }

  lemma RestingIsEmpty(s: State)
    requires Inv(s) && forall i | 0 <= i < |s.calls| :: Resting(s.calls[i])
    ensures s.entries == map[]
  {
    forall k | k in s.entries ensures false {
      var e := s.entries[k];
      assert EntryOk(s, e);
      RestingUncounted(s.calls, e);
    }
  }

  /** When nobody holds or waits the map is empty. */
  lemma EmptyAtQuiescence(actions: seq<Action>)
    requires forall i | 0 <= i < |Run(INIT, actions).calls| :: Resting(Run(INIT, actions).calls[i])
    ensures Run(INIT, actions).entries == map[]
  {
    RestingIsEmpty(Run(INIT, actions));
  }

  // The call has returned with the lock, now or earlier.
  predicate CameAwayHolding(pc: Pc) {
    pc.Held? || pc.Unlocking? || pc.Done? || (pc.Leaving? && pc.had)
  }

  // It is cancelled, and has not.
  predicate StaysOut(s: State, i: nat) {
    i < |s.calls| && s.calls[i].cancelled && !CameAwayHolding(s.calls[i].pc)
  }

  // The first half of a call, of whichever, and the second.
  lemma ComingStaysOut(s: State, j: nat, i: nat)
    requires Ok(s) && j < |s.calls| && StaysOut(s, i)
    ensures StaysOut(Begin(s, j), i) && StaysOut(Enter(s, j), i) && StaysOut(Acquire(s, j), i) && StaysOut(Abandon(s, j), i)
  {
  }

  lemma GoingStaysOut(s: State, j: nat, i: nat)
    requires Ok(s) && j < |s.calls| && StaysOut(s, i)
    ensures StaysOut(Check(s, j), i) && StaysOut(Unlock(s, j), i) && StaysOut(TakeBack(s, j), i) && StaysOut(Leave(s, j), i)
  {
  }

  lemma StepCancelled(s: State, a: Action, i: nat)
    requires Ok(s) && StaysOut(s, i)
    ensures StaysOut(Step(s, a), i)
  {
    hide Begin, Enter, Acquire, Abandon, Check, Unlock, TakeBack, Leave;
    match a {
      case ACall(_, _, _) =>
      case ACancel(_) =>
      case ABegin(j) => if j < |s.calls| { ComingStaysOut(s, j, i); }
      case AEnter(j) => if j < |s.calls| { ComingStaysOut(s, j, i); }
      case AAcquire(j) => if j < |s.calls| { ComingStaysOut(s, j, i); }
      case AAbandon(j) => if j < |s.calls| { ComingStaysOut(s, j, i); }
      case ACheck(j) => if j < |s.calls| { GoingStaysOut(s, j, i); }
      case AUnlock(j) => if j < |s.calls| { GoingStaysOut(s, j, i); }
      case ATakeBack(j) => if j < |s.calls| { GoingStaysOut(s, j, i); }
      case ALeave(j) => if j < |s.calls| { GoingStaysOut(s, j, i); }
    }
  }

  /** A caller cancelled before it has the lock never comes away holding it. */
  lemma {:induction false} CancelledNeverHolds(s: State, actions: seq<Action>, i: nat)
    requires Inv(s) && i < |s.calls| && s.calls[i].cancelled && !CameAwayHolding(s.calls[i].pc)
    ensures i < |Run(s, actions).calls| && !CameAwayHolding(Run(s, actions).calls[i].pc) && Run(s, actions).calls[i].cancelled
  {
    if actions != [] {
      CancelledNeverHolds(s, actions[..|actions| - 1], i);
      StepCancelled(Run(s, actions[..|actions| - 1]), actions[|actions| - 1], i);
    }
  }

  lemma {:induction false} HoldsHasLink(links: seq<Link>, from: Option<nat>, key: string) returns (l: nat)
    requires ValidLinks(links) && ValidChain(links, from) && Holds(links, from, key)
    ensures l < |links| && OnChain(links, from, l) && links[l].key == key && !links[l].released
    decreases if from.Some? then from.value + 1 else 0
  {
    if links[from.value].key == key && !links[from.value].released {
      l := from.value;
    } else {
      l := HoldsHasLink(links, links[from.value].parent, key);
    }
  }

  // Some call that made a link on this chain holds the key at this moment.
  predicate HeldOnChain(s: State, chain: Option<nat>, key: string)
    requires Ok(s) && ValidChain(s.links, chain)
  {
    exists l | 0 <= l < |s.links| :: OnChain(s.links, chain, l) && HeldBy(s, l, key)
  }

  predicate HeldBy(s: State, l: nat, key: string)
    requires l < |s.links|
  {
    var o := s.links[l].owner;
    o < |s.calls| && s.calls[o].pc.Held? && s.calls[o].pc.link == l && s.calls[o].key == key
  }

  /** A call passes without the lock exactly when a context around its own holds it at that moment. */
  lemma ReentrantOnlyUnderAHolder(s: State, i: nat)
    requires Inv(s) && i < |s.calls| && s.calls[i].pc.Starting?
    ensures CallOk(s, s.calls[i])
    ensures Begin(s, i).calls[i].pc.Nested? <==> HeldOnChain(s, s.calls[i].chain, s.calls[i].key)
  {
    var c := s.calls[i];
    assert CallOk(s, c);
    if Holds(s.links, c.chain, c.key) {
      var l := HoldsHasLink(s.links, c.chain, c.key);
      assert LinkFits(s, l) && CallFits(s, s.links[l].owner);
    }
    forall l | 0 <= l < |s.links| && OnChain(s.links, c.chain, l) && HeldBy(s, l, c.key)
      ensures Holds(s.links, c.chain, c.key)
    {
      assert LinkFits(s, l) && CallFits(s, s.links[l].owner);
      LinkHolds(s.links, c.chain, c.key, l);
    }
  }

  lemma {:induction false} LinkHolds(links: seq<Link>, from: Option<nat>, key: string, l: nat)
    requires ValidLinks(links) && ValidChain(links, from) && OnChain(links, from, l)
    requires l < |links| && links[l].key == key && !links[l].released
    ensures Holds(links, from, key)
    decreases if from.Some? then from.value + 1 else 0
  {
    if l != from.value {
      LinkHolds(links, links[from.value].parent, key, l);
    }
  }

  // Call i can take a step by itself.
  predicate CanMove(s: State, i: nat)
    requires Ok(s) && i < |s.calls|
  {
    Enter(s, i) != s || Acquire(s, i) != s || Check(s, i) != s || TakeBack(s, i) != s || Leave(s, i) != s
  }

  lemma {:induction false} FindToken(calls: seq<Call>, e: nat) returns (j: nat)
    requires Tokens(calls, e) > 0
    ensures j < |calls| && TokenIn(calls[j].pc) == Some(e)
  {
    if TokenIn(calls[|calls| - 1].pc) == Some(e) {
      j := |calls| - 1;
    } else {
      j := FindToken(calls[..|calls| - 1], e);
    }
  }

  /**
  A call that waits can acquire, or somebody has the lock: a caller who has returned with it, or one who can move on.
  Nobody waits for a lock that no one will give back.
  */
  lemma NobodyWaitsForNobody(s: State, i: nat)
    requires Inv(s) && i < |s.calls| && s.calls[i].pc.Waiting?
    ensures CanMove(s, i) || exists j | 0 <= j < |s.calls| :: HasToken(s, j, s.calls[i].key) && (s.calls[j].pc.Held? || CanMove(s, j))
  {
    CountedIsKept(s, i);
    var e := s.calls[i].pc.e;
    assert EntryOk(s, e);
    if s.table[e].full {
      var j := FindToken(s.calls, e);
      CountedIsKept(s, j);
      assert HasToken(s, j, s.calls[i].key);
    }
  }
}
