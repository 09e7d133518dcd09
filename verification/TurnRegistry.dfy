/**
The registry and the turns it knows, as they are updated in place (pkg/agent/turn_state.go:143-266 and 380-405,
steering.go:227-327, subturn.go:354-362). Each method is an action of TurnTreeSpec, or an abort that runs to its end.

The maps and the list of turns are fields; the aborts that are in progress elsewhere are ghost.
*/
module TurnRegistry {
  import opened Wrappers
  import opened TurnTreeSpec
  import opened TurnTree
  import opened TurnAborts

  lemma ExistBoth(turns: seq<Turn>, a: seq<nat>, b: seq<nat>)
    requires Exist(turns, a) && Exist(turns, b)
    ensures Exist(turns, a + b)
  {
    assert forall k | |a| <= k < |a + b| :: (a + b)[k] == b[k - |a|];
  }

  lemma FinishFirst(s: State, work: seq<nat>)
    requires Shaped(s) && work != [] && Exist(s.turns, work)
    ensures Shaped(Marked(s, work[0])) && Exist(Marked(s, work[0]).turns, NextWork(s, work))
    ensures FinishAll(s, work) == FinishAll(Marked(s, work[0]), NextWork(s, work))
  {
    MarkingIsFine(s, work);
  }

  lemma FinishFirstOfBoth(s: State, a: seq<nat>, b: seq<nat>)
    requires Shaped(s) && a != [] && Exist(s.turns, a) && Exist(s.turns, b) && Exist(s.turns, a + b)
    ensures Shaped(Marked(s, a[0])) && Exist(Marked(s, a[0]).turns, NextWork(s, a) + b)
    ensures FinishAll(s, a + b) == FinishAll(Marked(s, a[0]), NextWork(s, a) + b)
  {
    assert NextWork(s, a + b) == NextWork(s, a) + b;
    FinishFirst(s, a + b);
  }

  // Finishing one list after another is finishing both.
  lemma {:induction false} FinishAllConcat(s: State, a: seq<nat>, b: seq<nat>)
    requires Shaped(s) && Exist(s.turns, a) && Exist(s.turns, b)
    ensures Exist(s.turns, a + b) && Exist(FinishAll(s, a).turns, b)
    ensures FinishAll(s, a + b) == FinishAll(FinishAll(s, a), b)
    decreases Unaborted(s.turns), |a|
  {
    ExistBoth(s.turns, a, b);
    if a == [] {
      assert a + b == b;
    } else {
      MarkingIsFine(s, a);
      FinishFirst(s, a);
      FinishFirstOfBoth(s, a, b);
      FinishAllConcat(Marked(s, a[0]), NextWork(s, a), b);
    }
  }

  lemma {:induction false} FinishAllMarksMore(s: State, work: seq<nat>)
    requires Shaped(s) && Exist(s.turns, work)
    ensures Unaborted(FinishAll(s, work).turns) <= Unaborted(s.turns)
    decreases Unaborted(s.turns), |work|
  {
    if work != [] {
      MarkingIsFine(s, work);
      FinishAllMarksMore(Marked(s, work[0]), NextWork(s, work));
    }
  }

  lemma {:induction false} WithoutAt(xs: seq<nat>, x: nat, i: nat)
    requires i <= |xs| && (i < |xs| ==> xs[i] == x)
    requires forall k | 0 <= k < i :: xs[k] != x
    ensures Without(xs, x) == if i == |xs| then xs else xs[..i] + xs[i + 1..]
    decreases i
  {
    if i > 0 {
      var rest := xs[1..];
      assert xs == [xs[0]] + rest;
      WithoutAt(rest, x, i - 1);
      if i < |xs| {
        assert rest[..i - 1] == xs[1..i] && rest[i..] == xs[i + 1..];
        assert [xs[0]] + xs[1..i] == xs[..i];
        assert [xs[0]] + (xs[1..i] + xs[i + 1..]) == ([xs[0]] + xs[1..i]) + xs[i + 1..];
      }
    }
  }

  lemma PrefixExists(turns: seq<Turn>, ts: seq<nat>, k: nat)
    requires Exist(turns, ts) && k < |ts|
    ensures Exist(turns, ts[..k]) && Exist(turns, [ts[k]]) && ts[..k + 1] == ts[..k] + [ts[k]]
  {
  }

  lemma FinishOneMore(s: State, ts: seq<nat>, k: nat)
    requires Shaped(s) && Exist(s.turns, ts) && k < |ts|
    ensures Exist(s.turns, ts[..k]) && Exist(s.turns, ts[..k + 1]) && Exist(FinishAll(s, ts[..k]).turns, [ts[k]])
    ensures FinishAll(s, ts[..k + 1]) == FinishAll(FinishAll(s, ts[..k]), [ts[k]])
  {
    PrefixExists(s.turns, ts, k);
    FinishAllConcat(s, ts[..k], [ts[k]]);
  }

  class Registry {
    var turns: seq<Turn>
    var byId: map<string, nat>
    var bySession: map<string, seq<nat>>
    var subTurns: set<nat>
    ghost var aborts: seq<seq<nat>>

    ghost function View(): State
      reads this
    {
      State(turns, byId, bySession, subTurns, aborts)
    }

    ghost predicate Valid()
      reads this
    {
      Inv(View())
    }

    constructor ()
      ensures Valid() && View() == INIT
    {
      turns, byId, bySession, subTurns, aborts := [], map[], map[], {}, [];
    }

    // turn_state.go:223-235
    method RegisterTurn(id: string, minted: string, session: string) returns (t: nat)
      requires Valid() && NewId(View(), id, minted) !in byId
      modifies this`turns, this`byId, this`bySession
      ensures Valid() && View() == Step(old(View()), ARegister(id, minted, session))
      ensures t == |old(turns)| && IsRegistered(View(), t)
    {
      StepInv(View(), ARegister(id, minted, session));
      t := |turns|;
      var name := id;
      if id in byId || id == "" {
        name := id + "#" + minted;
      }
      turns := turns + [Turn(name, session, None, Rooted, false, [], false)];
      byId := byId[name := t];
      bySession := bySession[session := (if session in bySession then bySession[session] else []) + [t]];
    }

    // turn_state.go:239-258: removes exactly t, wherever it stands in its session's list.
    method UnregisterTurn(t: nat)
      requires Valid() && t < |turns|
      modifies this`byId, this`bySession
      ensures Valid() && View() == Step(old(View()), AUnregister(t))
      ensures !IsRegistered(View(), t)
      ensures forall u | 0 <= u < |turns| && u != t :: IsRegistered(View(), u) == old(IsRegistered(View(), u))
    {
      StepInv(View(), AUnregister(t));
      assert Shaped(View()) && Findable(View(), t);
      var x := turns[t];
      if x.id !in byId || byId[x.id] != t {
        return;
      }
      byId := byId - {x.id};
      var rest := DropFirst(if x.session in bySession then bySession[x.session] else [], t);
      if rest == [] {
        bySession := bySession - {x.session};
      } else {
        bySession := bySession[x.session := rest];
      }
    }

    // The deletion loops of turn_state.go:247-252 and 399-404.
    method DropFirst(xs: seq<nat>, x: nat) returns (rest: seq<nat>)
      ensures rest == Without(xs, x)
    {
      var i := 0;
      while i < |xs| && xs[i] != x
        invariant 0 <= i <= |xs|
        invariant forall k | 0 <= k < i :: xs[k] != x
      {
        i := i + 1;
      }
      WithoutAt(xs, x, i);
      return if i == |xs| then xs else xs[..i] + xs[i + 1..];
    }

    // turn_state.go:383-392
    method AddChildOf(p: nat) returns (ok: bool)
      requires Valid() && p < |turns|
      modifies this`turns
      ensures Valid() && View() == Step(old(View()), AAddChild(p))
      ensures ok <==> !old(turns[p]).hardAborted
      ensures ok <==> |turns| == |old(turns)| + 1
    {
      StepInv(View(), AAddChild(p));
      if turns[p].hardAborted {
        return false;
      }
      var c := |turns|;
      turns := turns[p := turns[p].(children := turns[p].children + [c])] + [Turn("", "", Some(p), Listed, false, [], false)];
      return true;
    }

    // turn_state.go:396-405
    method RemoveChildOf(c: nat, p: nat)
      requires Valid() && c < |turns| && turns[c].parent == Some(p) && turns[c].phase.Unlisting?
      modifies this`turns
      ensures Valid() && View() == Step(old(View()), ARemoveChild(c))
    {
      StepInv(View(), ARemoveChild(c));
      assert TurnShaped(turns, c);
      var left := DropFirst(turns[p].children, c);
      turns := turns[c := turns[c].(phase := Gone)];
      turns := turns[p := turns[p].(children := left)];
    }

    // turn_state.go:165-178
    method ListSubTurn(c: nat)
      requires Valid() && c < |turns| && turns[c].phase.Listed?
      modifies this`turns, this`subTurns
      ensures Valid() && View() == Step(old(View()), AAddSub(c)) && c in subTurns
    {
      StepInv(View(), AAddSub(c));
      turns := turns[c := turns[c].(phase := Running)];
      subTurns := subTurns + {c};
    }

    method UnlistSubTurn(c: nat)
      requires Valid() && c < |turns| && turns[c].phase.Running?
      modifies this`turns, this`subTurns
      ensures Valid() && View() == Step(old(View()), ARemoveSub(c)) && c !in subTurns
    {
      StepInv(View(), ARemoveSub(c));
      turns := turns[c := turns[c].(phase := Unlisting)];
      subTurns := subTurns - {c};
    }

    // turn_state.go:428-433
    method RootOf(t: nat) returns (r: nat)
      requires Valid() && t < |turns|
      ensures r == Root(View(), t)
    {
      r := t;
      while turns[r].parent.Some?
        invariant r < |turns| && Root(View(), r) == Root(View(), t)
        decreases r
      {
        assert TurnShaped(turns, r);
        r := turns[r].parent.value;
      }
    }

    // turn_state.go:190-216
    method CancelTargets(session: string, all: bool) returns (registered: seq<nat>, orphaned: seq<nat>)
      requires Valid()
      ensures AreTargets(View(), session, all, registered, orphaned)
    {
      if all {
        registered := Registered();
      } else {
        registered := if session in bySession then bySession[session] else [];
        TargetsBySession(View(), session);
      }
      orphaned := Orphans(session, all);
    }

    // The turns of byID, in the order of a map, which is none.
    method Registered() returns (registered: seq<nat>)
      requires Valid()
      ensures NoRepeats(registered) && Exist(turns, registered)
      ensures forall t | 0 <= t < |turns| :: t in registered <==> IsRegistered(View(), t)
    {
      registered := [];
      var rest := byId.Keys;
      while rest != {}
        invariant rest <= byId.Keys
        invariant NoRepeats(registered) && Exist(turns, registered)
        invariant forall t | t in registered :: IsRegistered(View(), t) && turns[t].id !in rest
        invariant forall id | id in byId && id !in rest :: byId[id] in registered
        decreases |rest|
      {
        var id :| id in rest;
        rest := rest - {id};
        assert IdFits(View(), id);
        registered := registered + [byId[id]];
      }
    }

    method Orphans(session: string, all: bool) returns (orphaned: seq<nat>)
      requires Valid()
      ensures NoRepeats(orphaned) && Exist(turns, orphaned)
      ensures forall r | r in orphaned :: IsOrphaned(View(), r, session, all)
      ensures forall r | 0 <= r < |turns| && IsOrphaned(View(), r, session, all) :: r in orphaned
    {
      orphaned := [];
      var rest := subTurns;
      while rest != {}
        invariant rest <= subTurns
        invariant NoRepeats(orphaned) && Exist(turns, orphaned)
        invariant forall r | r in orphaned :: IsOrphaned(View(), r, session, all)
        invariant forall t | t in subTurns && t !in rest :: Seen(View(), session, all, t, orphaned)
        decreases |rest|
      {
        var t :| t in rest;
        rest := rest - {t};
        var r := RootOf(t);
        if !(turns[r].id in byId && byId[turns[r].id] == r) && (all || turns[r].session == session) && r !in orphaned {
          assert IsOrphaned(View(), r, session, all);
          orphaned := orphaned + [r];
        }
      }
      forall r | 0 <= r < |turns| && IsOrphaned(View(), r, session, all) ensures r in orphaned {
        var t :| t in subTurns && Root(View(), t) == r;
        assert Seen(View(), session, all, t, orphaned);
      }
    }

    // ---- aborting ---------------------------------------------------------------------------------------------------

    // turn_state.go:529-574: Finish(true), with its recursion over the children.
    method FinishFrom(t: nat)
      requires Shaped(View()) && t < |turns|
      modifies this`turns
      ensures Shaped(View()) && View() == FinishAll(old(View()), [t])
      decreases Unaborted(turns), 0
    {
      ghost var s := View();
      MarkingIsFine(s, [t]);
      assert NextWork(s, [t]) == ToVisit(s, t);
      if turns[t].hardAborted {
        assert Marked(s, t).turns == s.turns;
        assert FinishAll(s, [t]) == FinishAll(s, []);
        return;
      }
      var children := turns[t].children;
      turns := turns[t := turns[t].(hardAborted := true)];
      MarkingCounts(s.turns, t);
      ghost var marked := View();
      for k := 0 to |children|
        invariant Exist(marked.turns, children) && Shaped(marked)
        invariant Shaped(View()) && View() == FinishAll(marked, children[..k])
        invariant Unaborted(turns) < Unaborted(s.turns)
      {
        FinishOneMore(marked, children, k);
        FinishAllMarksMore(View(), [children[k]]);
        FinishFrom(children[k]);
      }
      assert children[..|children|] == children;
    }

    // steering.go:272-284
    method AbortTurns(registered: seq<nat>, orphaned: seq<nat>)
      requires Valid() && Exist(turns, registered) && Exist(turns, orphaned)
      modifies this`turns
      ensures Exist(old(turns), AbortOrder(old(View()), registered, orphaned))
      ensures View() == FinishAll(old(View()), AbortOrder(old(View()), registered, orphaned))
    {
      ghost var s := View();
      AbortOrderMembers(s, registered, orphaned);
      UnstartedMembers(s, registered);
      var waiting := Waiting(registered);
      FinishEach(waiting);
      FinishAllConcat(s, waiting, registered);
      FinishEach(registered);
      FinishAllConcat(s, waiting + registered, orphaned);
      FinishEach(orphaned);
    }

    method Waiting(ts: seq<nat>) returns (waiting: seq<nat>)
      requires Exist(turns, ts)
      ensures waiting == Unstarted(View(), ts)
    {
      waiting := [];
      for k := 0 to |ts|
        invariant Exist(turns, ts[..k]) && waiting == Unstarted(View(), ts[..k])
      {
        assert ts[..k + 1][..k] == ts[..k];
        if !turns[ts[k]].started {
          waiting := waiting + [ts[k]];
        }
      }
      assert ts[..|ts|] == ts;
    }

    method FinishEach(ts: seq<nat>)
      requires Shaped(View()) && Exist(turns, ts)
      modifies this`turns
      ensures Shaped(View()) && View() == FinishAll(old(View()), ts)
    {
      for k := 0 to |ts|
        invariant Shaped(View()) && Exist(old(turns), ts[..k]) && View() == FinishAll(old(View()), ts[..k])
      {
        FinishOneMore(old(View()), ts, k);
        FinishFrom(ts[k]);
      }
      assert ts[..|ts|] == ts;
    }

    // steering.go:299-327, for one session or for all: how many turns a cancel stops, and that it stops the registered
    // ones and what runs under them, or under one that has returned. Another abort may be in progress.
    method CancelTurns(session: string, all: bool) returns (stopped: nat)
      requires Valid()
      modifies this`turns
      ensures exists registered, orphaned ::
                && AreTargets(old(View()), session, all, registered, orphaned) && stopped == |registered| + |orphaned|
                && Exist(old(turns), AbortOrder(old(View()), registered, orphaned))
                && View() == FinishAll(old(View()), AbortOrder(old(View()), registered, orphaned))
      ensures |turns| == |old(turns)|
      ensures forall t | 0 <= t < |turns| && old(IsTarget(View(), t, session, all)) :: turns[t].hardAborted
      ensures old(Shallow(View())) ==>
                forall t | t in subTurns && t < |turns| && old(Concerns(View(), session, all, t)) ::
                  turns[t].hardAborted || old(InAborts(View(), t))
    {
      var registered, orphaned := CancelTargets(session, all);
      ghost var s := View();
      AbortTurns(registered, orphaned);
      stopped := |registered| + |orphaned|;
      ghost var order := AbortOrder(s, registered, orphaned);
      AbortOrderMembers(s, registered, orphaned);
      forall t | 0 <= t < |turns| && IsTarget(s, t, session, all) ensures turns[t].hardAborted {
        FinishAllMarksWork(s, order, t);
      }
      if Shallow(s) {
        forall t | t in subTurns && t < |turns| && Concerns(s, session, all, t) ensures turns[t].hardAborted || InAborts(s, t) {
          CancelBesideOthers(s, session, all, registered, orphaned, t);
        }
      }
    }
  }

  // The root of t is in orphaned, unless it is registered or not meant.
  ghost predicate Seen(s: State, session: string, all: bool, t: nat, orphaned: seq<nat>)
    requires Shaped(s) && t < |s.turns|
  {
    IsRegistered(s, Root(s, t)) || !(all || s.turns[Root(s, t)].session == session) || Root(s, t) in orphaned
  }

  lemma TargetsBySession(s: State, session: string)
    requires Inv(s)
    ensures var ts := Of(s.bySession, session);
            && NoRepeats(ts) && Exist(s.turns, ts)
            && (forall t | t in ts :: t < |s.turns| && IsTarget(s, t, session, false))
            && (forall t | 0 <= t < |s.turns| && IsTarget(s, t, session, false) :: t in ts)
  {
    var ts := Of(s.bySession, session);
    if session in s.bySession {
      assert KeyFits(s, session) && Exist(s.turns, s.bySession[session]);
    }
    forall t | 0 <= t < |s.turns| && IsTarget(s, t, session, false) ensures t in ts {
      assert Findable(s, t);
    }
  }
}
