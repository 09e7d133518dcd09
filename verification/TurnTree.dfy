/**
Every step of the turn tree keeps the invariant of TurnTreeSpec, whatever is spawned while aborts are walking. What
follows from it for every run is in TurnAborts.

Each action has a lemma that says which part of the invariant it could break. Shaped is about indices only and goes
first, because the rest cannot be stated without it; the two indexes change together, in RegisterInv and
UnregisterInv; a turn's place in its parent's list (PhaseFits) changes when a sub-turn is listed and unlisted; and
what an abort still has to visit (AbortFits) changes when a child is added under a turn that is being aborted, and
when the abort takes its next step, which marks one turn and takes up that turn's list of children:

  - "every step keeps the invariant" has the actions of a turn's own life;
  - "cancelling" has the two actions of an abort, and StepInv puts all of them together;
  - Run is the state after any list of actions from a state that has the invariant.
*/
module TurnTree {
  import opened Wrappers
  import opened TurnTreeSpec

  // ---- every step keeps the invariant -------------------------------------------------------------------------------

  lemma {:induction false} WithoutMembers(xs: seq<nat>, x: nat)
    requires NoRepeats(xs)
    ensures forall y :: y in Without(xs, x) <==> y in xs && y != x
    ensures NoRepeats(Without(xs, x))
  {
    if xs != [] {
      assert NoRepeats(xs[1..]) by { assert forall k | 0 <= k < |xs| - 1 :: xs[1..][k] == xs[k + 1]; }
      WithoutMembers(xs[1..], x);
      assert xs == [xs[0]] + xs[1..];
      if xs[0] != x {
        var ys := Without(xs[1..], x);
        assert Without(xs, x) == [xs[0]] + ys;
        assert forall k | 0 <= k < |ys| :: ys[k] in ys;
      }
    }
  }

  // ---- the shape -------------------------------------------------------------------------------------------------------

  // s' has the turns of s, in the same tree, some with other flags, and perhaps one more.
  ghost predicate SameTree(s: State, s': State) {
    && |s.turns| <= |s'.turns|
    && (forall t | 0 <= t < |s.turns| :: SameTurn(s.turns[t], s'.turns[t]))
  }

  predicate SameTurn(x: Turn, x': Turn) {
    x'.id == x.id && x'.session == x.session && x'.parent == x.parent && x'.children == x.children
  }

  lemma SameTreeShaped(s: State, s': State)
    requires Shaped(s) && SameTree(s, s')
    requires forall t | |s.turns| <= t < |s'.turns| :: TurnShaped(s'.turns, t)
    requires forall t | t in s'.subTurns :: t < |s'.turns|
    requires forall id | id in s'.byId :: s'.byId[id] < |s'.turns|
    requires forall key | key in s'.bySession :: Exist(s'.turns, s'.bySession[key])
    requires forall k | 0 <= k < |s'.aborts| :: Exist(s'.turns, s'.aborts[k])
    ensures Shaped(s')
  {
    forall t | 0 <= t < |s'.turns| ensures TurnShaped(s'.turns, t) {
      if t < |s.turns| {
        assert TurnShaped(s.turns, t) && SameTurn(s.turns[t], s'.turns[t]);
        forall k | 0 <= k < |s'.turns[t].children| ensures IsChild(s'.turns, t, s'.turns[t].children[k]) {
          assert IsChild(s.turns, t, s.turns[t].children[k]);
          assert SameTurn(s.turns[s.turns[t].children[k]], s'.turns[s.turns[t].children[k]]);
        }
      }
    }
  }

  // ---- registering -----------------------------------------------------------------------------------------------------

  lemma RegisterShaped(s: State, id: string, minted: string, session: string)
    requires Shaped(s) && NewId(s, id, minted) !in s.byId
    ensures Shaped(Register(s, id, minted, session))
  {
    var s' := Register(s, id, minted, session);
    assert Exist(s.turns, Of(s.bySession, session));
    SameTreeShaped(s, s');
  }

  lemma RegisteredKeyFits(s: State, id: string, minted: string, session: string, key: string)
    requires Shaped(s) && IndexesAgree(s) && NewId(s, id, minted) !in s.byId
    requires Shaped(Register(s, id, minted, session)) && key in Register(s, id, minted, session).bySession
    ensures KeyFits(Register(s, id, minted, session), key)
  {
    hide TurnShaped;
    if key in s.bySession { assert KeyFits(s, key); }
  }

  lemma RegisterIndexes(s: State, id: string, minted: string, session: string)
    requires Shaped(s) && IndexesAgree(s) && NewId(s, id, minted) !in s.byId && Shaped(Register(s, id, minted, session))
    ensures IndexesAgree(Register(s, id, minted, session))
  {
    hide KeyFits;
    var t, s' := |s.turns|, Register(s, id, minted, session);
    forall x | x in s'.byId ensures IdFits(s', x) {
      if x in s.byId { assert IdFits(s, x); }
    }
    forall key | key in s'.bySession ensures KeyFits(s', key) {
      RegisteredKeyFits(s, id, minted, session, key);
    }
    forall u | 0 <= u < |s'.turns| ensures Findable(s', u) {
      if u < t { assert Findable(s, u); }
    }
  }

  lemma RegisterInv(s: State, id: string, minted: string, session: string)
    requires Inv(s)
    ensures Inv(Register(s, id, minted, session))
  {
    if NewId(s, id, minted) !in s.byId {
      RegisterShaped(s, id, minted, session);
      RegisterIndexes(s, id, minted, session);
      FlagsFit(s, Register(s, id, minted, session));
    }
  }

  // Turns whose lists and phases are the same, and whose aborts are no fewer.
  lemma FlagsFit(s: State, s': State)
    requires Inv(s) && Shaped(s') && SameTree(s, s') && s'.subTurns == s.subTurns
    requires forall t | 0 <= t < |s.turns| :: s'.turns[t].phase == s.turns[t].phase && s'.turns[t].hardAborted == s.turns[t].hardAborted
    requires forall t | |s.turns| <= t < |s'.turns| ::
               s'.turns[t].parent.None? && s'.turns[t].phase.Rooted? && s'.turns[t].children == [] && !s'.turns[t].hardAborted
    requires forall c | InAborts(s, c) :: InAborts(s', c)
    ensures forall t | 0 <= t < |s'.turns| :: PhaseFits(s', t)
    ensures forall t | 0 <= t < |s'.turns| :: AbortFits(s', t)
  {
    forall t | 0 <= t < |s'.turns| ensures PhaseFits(s', t) {
      if t < |s.turns| {
        assert PhaseFits(s, t) && TurnShaped(s.turns, t) && SameTurn(s.turns[t], s'.turns[t]);
        if s.turns[t].parent.Some? { assert SameTurn(s.turns[s.turns[t].parent.value], s'.turns[s.turns[t].parent.value]); }
      }
    }
    forall t | 0 <= t < |s'.turns| ensures AbortFits(s', t) {
      if t < |s.turns| {
        assert AbortFits(s, t) && SameTurn(s.turns[t], s'.turns[t]);
        forall k | 0 <= k < |s'.turns[t].children| && s'.turns[t].hardAborted ensures Covered(s', s'.turns[t].children[k]) {
          assert Covered(s, s.turns[t].children[k]);
        }
      }
    }
  }

  predicate RegisteredIn(s: State, t: nat, key: string) {
    t < |s.turns| && IsRegistered(s, t) && s.turns[t].session == key
  }

  // What is left of the session's list is registered still.
  lemma UnregisterRest(s: State, t: nat)
    requires Shaped(s) && IndexesAgree(s) && t < |s.turns| && IsRegistered(s, t)
    ensures var key := s.turns[t].session; var rest := Without(Of(s.bySession, key), t);
            && key in s.bySession && NoRepeats(rest)
            && forall k | 0 <= k < |rest| :: rest[k] != t && RegisteredIn(s, rest[k], key)
  {
    hide TurnShaped, IdFits;
    var key := s.turns[t].session;
    assert Findable(s, t) && KeyFits(s, key);
    var before := s.bySession[key];
    WithoutMembers(before, t);
    var rest := Without(before, t);
    forall k | 0 <= k < |rest| ensures rest[k] != t && RegisteredIn(s, rest[k], key) {
      assert rest[k] in rest;
      var j :| 0 <= j < |before| && before[j] == rest[k];
    }
  }

  lemma UnregisterShaped(s: State, t: nat)
    requires Shaped(s) && IndexesAgree(s) && t < |s.turns| && IsRegistered(s, t)
    ensures Shaped(Unregister(s, t))
  {
    hide IndexesAgree, Without, IsRegistered;
    UnregisterRest(s, t);
    SameTreeShaped(s, Unregister(s, t));
  }

  lemma UnregisteredKeyFits(s: State, t: nat, key: string)
    requires Shaped(s) && IndexesAgree(s) && t < |s.turns| && IsRegistered(s, t)
    requires Shaped(Unregister(s, t)) && key in Unregister(s, t).bySession
    ensures KeyFits(Unregister(s, t), key)
  {
    hide TurnShaped, Without;
    var s' := Unregister(s, t);
    UnregisterRest(s, t);
    assert Findable(s, t);
    if key != s.turns[t].session {
      assert KeyFits(s, key);
      forall k | 0 <= k < |s'.bySession[key]| ensures IsRegistered(s', s'.bySession[key][k]) {
        assert IsRegistered(s, s.bySession[key][k]);
      }
    }
  }

  lemma UnregisteredFindable(s: State, t: nat, u: nat)
    requires Shaped(s) && IndexesAgree(s) && t < |s.turns| && IsRegistered(s, t) && u < |s.turns|
    ensures Findable(Unregister(s, t), u)
  {
    hide TurnShaped, IdFits;
    assert Findable(s, t) && Findable(s, u) && KeyFits(s, s.turns[t].session);
    WithoutMembers(s.bySession[s.turns[t].session], t);
  }

  lemma UnregisterIndexes(s: State, t: nat)
    requires Shaped(s) && IndexesAgree(s) && t < |s.turns| && IsRegistered(s, t) && Shaped(Unregister(s, t))
    ensures IndexesAgree(Unregister(s, t))
  {
    hide KeyFits, Findable, Without;
    var s' := Unregister(s, t);
    forall id | id in s'.byId ensures IdFits(s', id) {
      assert IdFits(s, id);
    }
    forall u | 0 <= u < |s'.turns| ensures Findable(s', u) {
      UnregisteredFindable(s, t, u);
    }
    forall key | key in s'.bySession ensures KeyFits(s', key) {
      UnregisteredKeyFits(s, t, key);
    }
  }

  lemma UnregisterInv(s: State, t: nat)
    requires Inv(s) && t < |s.turns|
    ensures Inv(Unregister(s, t))
  {
    if IsRegistered(s, t) {
      UnregisterShaped(s, t);
      UnregisterIndexes(s, t);
      FlagsFit(s, Unregister(s, t));
    }
  }

  // A turn changes in nothing that the indexes look at.
  lemma SetIndexes(s: State, s': State)
    requires Inv(s) && Shaped(s') && |s.turns| <= |s'.turns| && s'.byId == s.byId && s'.bySession == s.bySession
    requires forall u | 0 <= u < |s.turns| ::
               s'.turns[u].id == s.turns[u].id && s'.turns[u].session == s.turns[u].session && s'.turns[u].parent == s.turns[u].parent
    ensures IndexesAgree(s')
  {
    forall u | 0 <= u < |s'.turns| ensures IsRegistered(s', u) <==> u < |s.turns| && IsRegistered(s, u) {
    }
    forall id | id in s'.byId ensures IdFits(s', id) {
      assert IdFits(s, id);
    }
    forall u | 0 <= u < |s'.turns| ensures Findable(s', u) {
      assert u < |s.turns| ==> Findable(s, u);
    }
    forall key | key in s'.bySession ensures KeyFits(s', key) {
      assert KeyFits(s, key) && Exist(s.turns, s.bySession[key]);
    }
  }

  lemma StartInv(s: State, t: nat)
    requires Inv(s) && t < |s.turns|
    ensures Inv(Set(s, t, s.turns[t].(started := true)))
  {
    var s' := Set(s, t, s.turns[t].(started := true));
    SameTreeShaped(s, s');
    SetIndexes(s, s');
    FlagsFit(s, s');
  }

  // ---- spawning --------------------------------------------------------------------------------------------------------

  lemma AddChildShaped(s: State, p: nat)
    requires Shaped(s) && p < |s.turns| && !s.turns[p].hardAborted
    ensures Shaped(AddChild(s, p))
  {
    var s', c := AddChild(s, p), |s.turns|;
    forall t | 0 <= t < |s'.turns| ensures TurnShaped(s'.turns, t) {
      if t < c {
        assert TurnShaped(s.turns, t);
        forall k | 0 <= k < |s'.turns[t].children| ensures IsChild(s'.turns, t, s'.turns[t].children[k]) {
          if k < |s.turns[t].children| { assert IsChild(s.turns, t, s.turns[t].children[k]); }
        }
      }
    }
    forall key | key in s'.bySession ensures Exist(s'.turns, s'.bySession[key]) {
      assert Exist(s.turns, s.bySession[key]);
    }
    forall k | 0 <= k < |s'.aborts| ensures Exist(s'.turns, s'.aborts[k]) {
      assert Exist(s.turns, s.aborts[k]);
    }
  }

  lemma AddChildFits(s: State, p: nat)
    requires Inv(s) && p < |s.turns| && !s.turns[p].hardAborted && Shaped(AddChild(s, p))
    ensures var s' := AddChild(s, p); forall t | 0 <= t < |s'.turns| :: PhaseFits(s', t)
    ensures var s' := AddChild(s, p); forall t | 0 <= t < |s'.turns| :: AbortFits(s', t)
  {
    var s', c := AddChild(s, p), |s.turns|;
    assert TurnShaped(s.turns, p);
    assert forall k | 0 <= k < |s.turns[p].children| :: IsChild(s.turns, p, s.turns[p].children[k]);
    forall t | 0 <= t < |s'.turns| ensures PhaseFits(s', t) {
      if t < c { assert PhaseFits(s, t); }
    }
    forall t | 0 <= t < |s'.turns| ensures AbortFits(s', t) {
      if t < c {
        assert AbortFits(s, t);
        forall k | 0 <= k < |s'.turns[t].children| && s'.turns[t].hardAborted ensures Covered(s', s'.turns[t].children[k]) {
          assert Covered(s, s.turns[t].children[k]);
        }
      }
    }
  }

  lemma AddChildInv(s: State, p: nat)
    requires Inv(s) && p < |s.turns|
    ensures Inv(AddChild(s, p))
  {
    if !s.turns[p].hardAborted {
      AddChildShaped(s, p);
      SetIndexes(s, AddChild(s, p));
      AddChildFits(s, p);
    }
  }

  lemma PhaseInv(s: State, c: nat, phase: Phase, subTurns: set<nat>)
    requires Inv(s) && c < |s.turns| && s.turns[c].parent.Some?
    requires IsListed(s.turns[c].phase) && IsListed(phase)
    requires subTurns == if phase.Running? then s.subTurns + {c} else s.subTurns - {c}
    ensures Inv(Set(s, c, s.turns[c].(phase := phase)).(subTurns := subTurns))
  {
    var s' := Set(s, c, s.turns[c].(phase := phase)).(subTurns := subTurns);
    SameTreeShaped(s, s');
    SetIndexes(s, s');
    forall t | 0 <= t < |s'.turns| ensures PhaseFits(s', t) {
      assert PhaseFits(s, t);
    }
    forall t | 0 <= t < |s'.turns| ensures AbortFits(s', t) {
      assert AbortFits(s, t);
      forall k | 0 <= k < |s'.turns[t].children| && s'.turns[t].hardAborted ensures Covered(s', s'.turns[t].children[k]) {
        assert Covered(s, s.turns[t].children[k]);
      }
    }
  }

  lemma RemoveChildShaped(s: State, c: nat, p: nat)
    requires Inv(s) && c < |s.turns| && s.turns[c].phase.Unlisting? && s.turns[c].parent == Some(p) && p < c
    ensures Shaped(RemoveChild(s, c))
    ensures forall y :: y in Without(s.turns[p].children, c) <==> y in s.turns[p].children && y != c
    ensures NoRepeats(Without(s.turns[p].children, c))
  {
    var s' := RemoveChild(s, c);
    assert PhaseFits(s, p);
    var before := s.turns[p].children;
    WithoutMembers(before, c);
    forall t | 0 <= t < |s'.turns| ensures TurnShaped(s'.turns, t) {
      assert TurnShaped(s.turns, t);
      forall k | 0 <= k < |s'.turns[t].children| ensures IsChild(s'.turns, t, s'.turns[t].children[k]) {
        var x := s'.turns[t].children[k];
        assert x in s'.turns[t].children && x in s.turns[t].children;
        var j :| 0 <= j < |s.turns[t].children| && s.turns[t].children[j] == x;
        assert IsChild(s.turns, t, s.turns[t].children[j]);
      }
    }
    forall key | key in s'.bySession ensures Exist(s'.turns, s'.bySession[key]) {
      assert Exist(s.turns, s.bySession[key]);
    }
    forall k | 0 <= k < |s'.aborts| ensures Exist(s'.turns, s'.aborts[k]) {
      assert Exist(s.turns, s.aborts[k]);
    }
  }

  lemma RemoveChildAborts(s: State, c: nat, t: nat)
    requires Inv(s) && c < |s.turns| && s.turns[c].phase.Unlisting? && s.turns[c].parent.Some?
    requires Shaped(RemoveChild(s, c)) && t < |s.turns| == |RemoveChild(s, c).turns|
    requires forall x | x in RemoveChild(s, c).turns[t].children :: x in s.turns[t].children
    ensures AbortFits(RemoveChild(s, c), t)
  {
    hide IndexesAgree, PhaseFits, Without;
    assert TurnShaped(s.turns, c) && AbortFits(s, t);
    var s' := RemoveChild(s, c);
    forall k | 0 <= k < |s'.turns[t].children| && s'.turns[t].hardAborted ensures Covered(s', s'.turns[t].children[k]) {
      var x := s'.turns[t].children[k];
      assert x in s'.turns[t].children;
      var j :| 0 <= j < |s.turns[t].children| && s.turns[t].children[j] == x;
      assert Covered(s, s.turns[t].children[j]);
    }
  }

  lemma RemoveChildInv(s: State, c: nat)
    requires Inv(s) && c < |s.turns|
    ensures Inv(RemoveChild(s, c))
  {
    if s.turns[c].phase.Unlisting? && s.turns[c].parent.Some? {
      assert TurnShaped(s.turns, c);
      var s', p := RemoveChild(s, c), s.turns[c].parent.value;
      RemoveChildShaped(s, c, p);
      SetIndexes(s, s');
      forall t | 0 <= t < |s'.turns| ensures PhaseFits(s', t) {
        assert PhaseFits(s, t) && PhaseFits(s, c);
      }
      forall t | 0 <= t < |s'.turns| ensures AbortFits(s', t) {
        RemoveChildAborts(s, c, t);
      }
    }
  }

  // ---- cancelling ------------------------------------------------------------------------------------------------------

  lemma {:induction false} UnstartedMembers(s: State, ts: seq<nat>)
    requires Exist(s.turns, ts)
    ensures forall t | t in Unstarted(s, ts) :: t in ts
    ensures Exist(s.turns, Unstarted(s, ts))
  {
    if ts != [] {
      UnstartedMembers(s, ts[..|ts| - 1]);
    }
  }

  lemma CancelInv(s: State, work: seq<nat>)
    requires Inv(s) && Exist(s.turns, work)
    ensures Inv(s.(aborts := s.aborts + [work]))
  {
    var s' := s.(aborts := s.aborts + [work]);
    SameTreeShaped(s, s');
    SetIndexes(s, s');
    forall t | InAborts(s, t) ensures InAborts(s', t) {
      var k :| 0 <= k < |s.aborts| && t in s.aborts[k];
      assert t in s'.aborts[k];
    }
    FlagsFit(s, s');
  }

  // What an abort has yet to come to, it has still to come to, or has just marked.
  lemma FinishKeepsAborts(s: State, k: nat, c: nat)
    requires Shaped(s) && k < |s.aborts| && s.aborts[k] != [] && InAborts(s, c)
    ensures c == s.aborts[k][0] || InAborts(FinishNext(s, k), c)
  {
    var s' := FinishNext(s, k);
    var work, work' := s.aborts[k], s'.aborts[k];
    var j :| 0 <= j < |s.aborts| && c in s.aborts[j];
    if j == k && c != work[0] {
      assert c in work[1..];
      assert c in work';
    } else if j != k {
      assert c in s'.aborts[j];
    }
  }

  lemma FinishShaped(s: State, k: nat)
    requires Shaped(s) && k < |s.aborts|
    ensures Shaped(FinishNext(s, k))
  {
    var work := s.aborts[k];
    if work != [] {
      var s', t := FinishNext(s, k), work[0];
      assert Exist(s.turns, work) && TurnShaped(s.turns, t);
      var visit := ToVisit(s, t);
      assert forall j | 0 <= j < |visit| :: IsChild(s.turns, t, visit[j]);
      assert forall j | 0 < j < |work| :: work[1..][j - 1] == work[j];
      forall i | 0 <= i < |s'.aborts| ensures Exist(s'.turns, s'.aborts[i]) {
        assert Exist(s.turns, s.aborts[i]);
      }
      SameTreeShaped(s, s');
    }
  }

  lemma FinishCovers(s: State, k: nat, t: nat)
    requires Inv(s) && k < |s.aborts| && s.aborts[k] != [] && t < |s.turns| && Shaped(FinishNext(s, k))
    ensures AbortFits(FinishNext(s, k), t)
  {
    var s', m := FinishNext(s, k), s.aborts[k][0];
    assert AbortFits(s, t) && TurnShaped(s.turns, t);
    forall j | 0 <= j < |s'.turns[t].children| && s'.turns[t].hardAborted ensures Covered(s', s'.turns[t].children[j]) {
      var c := s.turns[t].children[j];
      assert IsChild(s.turns, t, c);
      if s.turns[t].hardAborted {
        assert Covered(s, c);
        if InAborts(s, c) { FinishKeepsAborts(s, k, c); }
      } else {
        assert t == m && c in ToVisit(s, m) && c in s'.aborts[k];
      }
    }
  }

  lemma FinishInv(s: State, k: nat)
    requires Inv(s) && k < |s.aborts|
    ensures Inv(FinishNext(s, k))
  {
    if s.aborts[k] != [] {
      var s' := FinishNext(s, k);
      FinishShaped(s, k);
      SetIndexes(s, s');
      forall t | 0 <= t < |s'.turns| ensures PhaseFits(s', t) && AbortFits(s', t) {
        assert PhaseFits(s, t);
        FinishCovers(s, k, t);
      }
    }
  }

  lemma StepInv(s: State, a: Action)
    requires Inv(s)
    ensures Inv(Step(s, a))
  {
    if Exists(s, a) {
      match a {
        case ARegister(id, minted, session) => RegisterInv(s, id, minted, session);
        case AUnregister(t) => UnregisterInv(s, t);
        case AStart(t) => StartInv(s, t);
        case AAddChild(p) => AddChildInv(s, p);
        case AAddSub(c) => assert PhaseFits(s, c); if s.turns[c].phase.Listed? { PhaseInv(s, c, Running, s.subTurns + {c}); }
        case ARemoveSub(c) => assert PhaseFits(s, c); if s.turns[c].phase.Running? { PhaseInv(s, c, Unlisting, s.subTurns - {c}); }
        case ARemoveChild(c) => RemoveChildInv(s, c);
        case ACancel(session, all, registered, orphaned) =>
          if AreTargets(s, session, all, registered, orphaned) {
            UnstartedMembers(s, registered);
            CancelInv(s, AbortOrder(s, registered, orphaned));
          }
        case AFinishNext(k) => FinishInv(s, k);
      }
    }
  }

  ghost function Run(s: State, actions: seq<Action>): (s': State)
    requires Inv(s)
    ensures Inv(s')
  {
    if actions == [] then s
    else
      var s1 := Run(s, actions[..|actions| - 1]);
      StepInv(s1, actions[|actions| - 1]);
      Step(s1, actions[|actions| - 1])
  }
}
