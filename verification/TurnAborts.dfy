/**
What the registry and the turn tree guarantee in every run: both indexes have the same turns, no sub-turn can hide
from an abort that is in progress, and what a cancel reaches, exactly.
*/
module TurnAborts {
  import opened Wrappers
  import opened TurnTreeSpec
  import opened TurnTree

  // ---- the indexes ----------------------------------------------------------------------------------------------------

  /** A turn is found by its id exactly when it is found by its session, once; and an index entry leads to a root. */
  lemma IndexesHaveTheSameTurns(actions: seq<Action>, t: nat)
    requires t < |Run(INIT, actions).turns|
    ensures var s := Run(INIT, actions);
            && (IsRegistered(s, t) <==> t in Of(s.bySession, s.turns[t].session))
            && (IsRegistered(s, t) ==> s.turns[t].parent.None?)
            && NoRepeats(Of(s.bySession, s.turns[t].session))
  {
    var s := Run(INIT, actions);
    assert Findable(s, t);
    if IsRegistered(s, t) { assert IdFits(s, s.turns[t].id); }
    if s.turns[t].session in s.bySession {
      assert KeyFits(s, s.turns[t].session);
    }
  }

  /** The two lists a cancel works from have no turn in common, and the root of every running sub-turn it is about. */
  lemma TargetsCoverRunningSubTurns(s: State, session: string, all: bool, registered: seq<nat>, orphaned: seq<nat>)
    requires Inv(s) && AreTargets(s, session, all, registered, orphaned)
    ensures forall t :: !(t in registered && t in orphaned)
    ensures forall t | t in s.subTurns && (all || s.turns[Root(s, t)].session == session) ::
              Root(s, t) in registered || Root(s, t) in orphaned
  {
    forall t | t in s.subTurns && (all || s.turns[Root(s, t)].session == session)
      ensures Root(s, t) in registered || Root(s, t) in orphaned
    {
      var r := Root(s, t);
      if IsRegistered(s, r) {
        assert IsTarget(s, r, session, all);
      } else {
        assert IsOrphaned(s, r, session, all);
      }
    }
  }

  // ---- what an abort leaves -------------------------------------------------------------------------------------------

  // t hangs under r by the lists of children.
  ghost predicate Linked(s: State, r: nat, t: nat)
    requires Shaped(s) && t < |s.turns|
    decreases t
  {
    t == r || (ListedUnderParent(s, t) && Linked(s, r, s.turns[t].parent.value))
  }

  ghost predicate ListedUnderParent(s: State, t: nat)
    requires Shaped(s) && t < |s.turns|
    ensures ListedUnderParent(s, t) ==> s.turns[t].parent.Some? && s.turns[t].parent.value < t
  {
    assert TurnShaped(s.turns, t);
    s.turns[t].parent.Some? && t in s.turns[s.turns[t].parent.value].children
  }

  // The children of a hard-aborted turn are hard-aborted, or are in work.
  ghost predicate QuietAt(s: State, work: seq<nat>, t: nat)
    requires t < |s.turns|
  {
    s.turns[t].hardAborted ==> forall c | c in s.turns[t].children :: c in work || (c < |s.turns| && s.turns[c].hardAborted)
  }

  ghost predicate QuietBut(s: State, work: seq<nat>) {
    forall t | 0 <= t < |s.turns| :: QuietAt(s, work, t)
  }

  // Every turn listed under a hard-aborted turn is hard-aborted.
  ghost predicate Quiet(s: State) {
    QuietBut(s, [])
  }

  lemma {:induction false} QuietReaches(s: State, r: nat, t: nat)
    requires Shaped(s) && Quiet(s) && r < |s.turns| && s.turns[r].hardAborted
    requires t < |s.turns| && Linked(s, r, t)
    ensures s.turns[t].hardAborted
    decreases t
  {
    if t != r {
      var p := s.turns[t].parent.value;
      QuietReaches(s, r, p);
      assert QuietAt(s, [], p);
    }
  }

  lemma NoAbortsIsQuiet(s: State)
    requires Inv(s) && forall k | 0 <= k < |s.aborts| :: s.aborts[k] == []
    ensures Quiet(s)
  {
    forall t | 0 <= t < |s.turns| ensures QuietAt(s, [], t) {
      assert AbortFits(s, t);
      forall c | c in s.turns[t].children && s.turns[t].hardAborted ensures c < |s.turns| && s.turns[c].hardAborted {
        var k :| 0 <= k < |s.turns[t].children| && s.turns[t].children[k] == c;
        assert Covered(s, s.turns[t].children[k]);
      }
    }
  }

  /**
  When no abort is in progress, whatever was spawned while they were: all that hangs under a hard-aborted turn is
  hard-aborted, and no turn can be spawned there.
  */
  lemma NothingEscapesAnAbort(actions: seq<Action>, r: nat, t: nat)
    requires forall k | 0 <= k < |Run(INIT, actions).aborts| :: Run(INIT, actions).aborts[k] == []
    requires var s := Run(INIT, actions); r < |s.turns| && s.turns[r].hardAborted && t < |s.turns| && Linked(s, r, t)
    ensures var s := Run(INIT, actions); s.turns[t].hardAborted && Step(s, AAddChild(t)) == s
  {
    var s := Run(INIT, actions);
    NoAbortsIsQuiet(s);
    QuietReaches(s, r, t);
  }

  // ---- what a cancel reaches ------------------------------------------------------------------------------------------

  function Unaborted(turns: seq<Turn>): nat {
    if turns == [] then 0 else Unaborted(turns[..|turns| - 1]) + if turns[|turns| - 1].hardAborted then 0 else 1
  }

  lemma {:induction false} MarkingCounts(turns: seq<Turn>, t: nat)
    requires t < |turns|
    ensures Unaborted(turns[t := turns[t].(hardAborted := true)]) == Unaborted(turns) - if turns[t].hardAborted then 0 else 1
  {
    var front, turns' := turns[..|turns| - 1], turns[t := turns[t].(hardAborted := true)];
    if t == |front| {
      assert turns'[..t] == front;
    } else {
      MarkingCounts(front, t);
      assert turns'[..|front|] == front[t := front[t].(hardAborted := true)];
    }
  }

  // The turns an abort has yet to finish, after the next one.
  function NextWork(s: State, work: seq<nat>): seq<nat>
    requires work != [] && work[0] < |s.turns|
  {
    ToVisit(s, work[0]) + work[1..]
  }

  lemma MarkingIsFine(s: State, work: seq<nat>)
    requires Shaped(s) && work != [] && Exist(s.turns, work)
    ensures Shaped(Marked(s, work[0])) && Exist(Marked(s, work[0]).turns, NextWork(s, work))
    ensures Unaborted(Marked(s, work[0]).turns) < Unaborted(s.turns)
            || (Unaborted(Marked(s, work[0]).turns) == Unaborted(s.turns) && |NextWork(s, work)| < |work|)
  {
    var s', t := Marked(s, work[0]), work[0];
    MarkingCounts(s.turns, t);
    assert TurnShaped(s.turns, t);
    var visit := ToVisit(s, t);
    assert forall j | 0 <= j < |visit| :: IsChild(s.turns, t, visit[j]);
    assert forall j | 0 < j < |work| :: work[1..][j - 1] == work[j];
    forall key | key in s'.bySession ensures Exist(s'.turns, s'.bySession[key]) {
      assert Exist(s.turns, s.bySession[key]);
    }
    forall k | 0 <= k < |s'.aborts| ensures Exist(s'.turns, s'.aborts[k]) {
      assert Exist(s.turns, s.aborts[k]);
    }
    SameTreeShaped(s, s');
  }

  // An abort that nothing interrupts.
  ghost function FinishAll(s: State, work: seq<nat>): (s': State)
    requires Shaped(s) && Exist(s.turns, work)
    ensures Shaped(s') && |s'.turns| == |s.turns|
    decreases Unaborted(s.turns), |work|
  {
    if work == [] then s
    else
      MarkingIsFine(s, work);
      FinishAll(Marked(s, work[0]), NextWork(s, work))
  }

  lemma QuietButNext(s: State, work: seq<nat>)
    requires Shaped(s) && work != [] && Exist(s.turns, work) && QuietBut(s, work)
    ensures QuietBut(Marked(s, work[0]), NextWork(s, work))
  {
    var s', work' := Marked(s, work[0]), NextWork(s, work);
    forall t | 0 <= t < |s'.turns| ensures QuietAt(s', work', t) {
      assert QuietAt(s, work, t);
      forall c | c in s'.turns[t].children && s'.turns[t].hardAborted
        ensures c in work' || (c < |s'.turns| && s'.turns[c].hardAborted)
      {
        if s.turns[t].hardAborted {
          if c in work && c != work[0] { assert c in work[1..]; }
        } else {
          assert c in ToVisit(s, work[0]);
        }
      }
    }
  }

  // What an abort was given is marked in the end, what was marked stays so, and everything under it is.
  ghost predicate Finished(s: State, s': State, work: seq<nat>) {
    && |s'.turns| == |s.turns|
    && Quiet(s')
    && (forall t | t in work :: t < |s.turns| && s'.turns[t].hardAborted)
    && (forall t | 0 <= t < |s.turns| && s.turns[t].hardAborted :: s'.turns[t].hardAborted)
  }

  lemma {:induction false} FinishAllMarks(s: State, work: seq<nat>)
    requires Shaped(s) && Exist(s.turns, work) && QuietBut(s, work)
    ensures Finished(s, FinishAll(s, work), work)
    decreases Unaborted(s.turns), |work|
  {
    if work != [] {
      MarkingIsFine(s, work);
      QuietButNext(s, work);
      var s1, work1 := Marked(s, work[0]), NextWork(s, work);
      FinishAllMarks(s1, work1);
      FinishedBefore(s, FinishAll(s1, work1), work);
    }
  }

  lemma FinishedBefore(s: State, s': State, work: seq<nat>)
    requires work != [] && Exist(s.turns, work) && Finished(Marked(s, work[0]), s', NextWork(s, work))
    ensures Finished(s, s', work)
  {
    forall t | t in work ensures t < |s.turns| && s'.turns[t].hardAborted {
      if t != work[0] { assert t in work[1..]; }
      assert Marked(s, work[0]).turns[work[0]].hardAborted;
    }
  }

  lemma {:induction false} MarkingKeepsLinks(s: State, m: nat, r: nat, t: nat)
    requires Shaped(s) && m < |s.turns| && t < |s.turns| && Shaped(Marked(s, m))
    ensures Linked(Marked(s, m), r, t) == Linked(s, r, t)
    decreases t
  {
    assert ListedUnderParent(Marked(s, m), t) == ListedUnderParent(s, t);
    if t != r && ListedUnderParent(s, t) {
      MarkingKeepsLinks(s, m, r, s.turns[t].parent.value);
    }
  }

  lemma {:induction false} LinkedThroughChild(s: State, w: nat, c: nat, t: nat)
    requires Shaped(s) && w < |s.turns| && t < |s.turns| && c in s.turns[w].children && Linked(s, c, t)
    ensures Linked(s, w, t)
    decreases t
  {
    if t == c {
      assert TurnShaped(s.turns, w);
      var k :| 0 <= k < |s.turns[w].children| && s.turns[w].children[k] == c;
      assert IsChild(s.turns, w, s.turns[w].children[k]);
      assert Linked(s, w, w);
    } else {
      LinkedThroughChild(s, w, c, s.turns[t].parent.value);
    }
  }

  // What is newly aborted hangs under a turn the abort was given.
  lemma {:induction false} FinishAllOnlyLinked(s: State, work: seq<nat>, t: nat)
    requires Shaped(s) && Exist(s.turns, work)
    requires t < |s.turns| && !s.turns[t].hardAborted && FinishAll(s, work).turns[t].hardAborted
    ensures LinkedFromSome(s, work, t)
    decreases Unaborted(s.turns), |work|
  {
    var w := work[0];
    MarkingIsFine(s, work);
    if t == w {
      assert Linked(s, w, t);
    } else {
      var s1, work1 := Marked(s, w), NextWork(s, work);
      FinishAllOnlyLinked(s1, work1, t);
      var r :| r in work1 && Linked(s1, r, t);
      MarkingKeepsLinks(s, w, r, t);
      if r in ToVisit(s, w) {
        LinkedThroughChild(s, w, r, t);
      }
    }
  }

  ghost predicate LinkedFromSome(s: State, work: seq<nat>, t: nat)
    requires Shaped(s) && t < |s.turns|
  {
    exists r | r in work :: Linked(s, r, t)
  }

  lemma {:induction false} FinishAllKeepsLinks(s: State, work: seq<nat>, r: nat, t: nat)
    requires Shaped(s) && Exist(s.turns, work) && t < |s.turns|
    ensures Linked(FinishAll(s, work), r, t) == Linked(s, r, t)
    decreases Unaborted(s.turns), |work|
  {
    if work != [] {
      MarkingIsFine(s, work);
      MarkingKeepsLinks(s, work[0], r, t);
      FinishAllKeepsLinks(Marked(s, work[0]), NextWork(s, work), r, t);
    }
  }

  lemma QuietWithMore(s: State, work: seq<nat>)
    requires Quiet(s)
    ensures QuietBut(s, work)
  {
    forall t | 0 <= t < |s.turns| ensures QuietAt(s, work, t) {
      assert QuietAt(s, [], t);
    }
  }

  /** An abort reaches exactly what hangs under its turns by the lists of children. */
  lemma AbortReachesTheLinked(s: State, work: seq<nat>, t: nat)
    requires Shaped(s) && Quiet(s) && Exist(s.turns, work) && t < |s.turns|
    ensures FinishAll(s, work).turns[t].hardAborted <==> s.turns[t].hardAborted || LinkedFromSome(s, work, t)
  {
    var s' := FinishAll(s, work);
    QuietWithMore(s, work);
    FinishAllMarks(s, work);
    if s'.turns[t].hardAborted && !s.turns[t].hardAborted {
      FinishAllOnlyLinked(s, work, t);
    }
    forall r | r in work && Linked(s, r, t) ensures s'.turns[t].hardAborted {
      FinishAllKeepsLinks(s, work, r, t);
      QuietReaches(s', r, t);
    }
  }

  lemma {:induction false} LinkedHasTheRoot(s: State, r: nat, t: nat)
    requires Shaped(s) && r < |s.turns| && t < |s.turns| && Linked(s, r, t)
    ensures Root(s, t) == Root(s, r)
    decreases t
  {
    if t != r {
      LinkedHasTheRoot(s, r, s.turns[t].parent.value);
    }
  }

  // A sub-turn has no sub-turns, as runTurn sees to (subturn.go:562-569).
  ghost predicate Shallow(s: State)
    requires Shaped(s)
  {
    forall t | 0 <= t < |s.turns| :: ShallowAt(s, t)
  }

  ghost predicate ShallowAt(s: State, t: nat)
    requires Shaped(s) && t < |s.turns|
  {
    assert TurnShaped(s.turns, t);
    s.turns[t].parent.Some? ==> s.turns[s.turns[t].parent.value].parent.None?
  }

  ghost predicate Concerns(s: State, session: string, all: bool, t: nat)
    requires Shaped(s) && t < |s.turns|
  {
    all || s.turns[Root(s, t)].session == session
  }

  lemma AbortOrderMembers(s: State, registered: seq<nat>, orphaned: seq<nat>)
    requires Exist(s.turns, registered) && Exist(s.turns, orphaned)
    ensures forall t :: t in AbortOrder(s, registered, orphaned) <==> t in registered || t in orphaned
    ensures Exist(s.turns, AbortOrder(s, registered, orphaned))
  {
    UnstartedMembers(s, registered);
  }

  lemma TargetsAreRoots(s: State, session: string, all: bool, registered: seq<nat>, orphaned: seq<nat>, r: nat)
    requires Inv(s) && AreTargets(s, session, all, registered, orphaned) && (r in registered || r in orphaned)
    ensures r < |s.turns| && s.turns[r].parent.None? && Root(s, r) == r
  {
    if r in registered {
      assert IsTarget(s, r, session, all);
      assert IdFits(s, s.turns[r].id);
    } else {
      assert IsOrphaned(s, r, session, all);
    }
  }

  lemma LinkedFromItsRoot(s: State, session: string, all: bool, registered: seq<nat>, orphaned: seq<nat>, order: seq<nat>, t: nat)
    requires Inv(s) && AreTargets(s, session, all, registered, orphaned) && t < |s.turns|
    requires forall r :: r in order <==> r in registered || r in orphaned
    requires Root(s, t) in order
    ensures LinkedFromSome(s, order, t) <==> Linked(s, Root(s, t), t)
  {
    forall r | r in order && Linked(s, r, t) ensures r == Root(s, t) {
      TargetsAreRoots(s, session, all, registered, orphaned, r);
      LinkedHasTheRoot(s, r, t);
    }
  }

  /**
  After a cancel a running sub-turn of the session is hard-aborted if and only if it hangs under its root by the lists
  of children (or was aborted before); every registered turn of the session is.
  */
  lemma CancelReachesTheLinked(s: State, session: string, all: bool, registered: seq<nat>, orphaned: seq<nat>, t: nat)
    requires Inv(s) && Quiet(s) && AreTargets(s, session, all, registered, orphaned)
    requires t in s.subTurns && Concerns(s, session, all, t)
    ensures Exist(s.turns, AbortOrder(s, registered, orphaned))
    ensures var s' := FinishAll(s, AbortOrder(s, registered, orphaned));
            && (s'.turns[t].hardAborted <==> s.turns[t].hardAborted || Linked(s, Root(s, t), t))
            && (forall r | r in registered :: s'.turns[r].hardAborted)
  {
    AbortOrderMembers(s, registered, orphaned);
    var order := AbortOrder(s, registered, orphaned);
    TargetsCoverRunningSubTurns(s, session, all, registered, orphaned);
    AbortReachesTheLinked(s, order, t);
    LinkedFromItsRoot(s, session, all, registered, orphaned, order, t);
    QuietWithMore(s, order);
    FinishAllMarks(s, order);
  }

  /** While sub-turns have no sub-turns of their own, a cancel reaches every one that is running. */
  lemma CancelReachesAll(s: State, session: string, all: bool, registered: seq<nat>, orphaned: seq<nat>, t: nat)
    requires Inv(s) && Quiet(s) && Shallow(s) && AreTargets(s, session, all, registered, orphaned)
    requires t in s.subTurns && Concerns(s, session, all, t)
    ensures Exist(s.turns, AbortOrder(s, registered, orphaned))
    ensures FinishAll(s, AbortOrder(s, registered, orphaned)).turns[t].hardAborted
  {
    CancelReachesTheLinked(s, session, all, registered, orphaned, t);
    assert PhaseFits(s, t) && ShallowAt(s, t);
    var r := s.turns[t].parent.value;
    assert Root(s, r) == r && Root(s, t) == r;
    assert Linked(s, r, r) && Linked(s, r, t);
  }

  // ---- a child that is not yet listed loop-wide ------------------------------------------------------------------------

  // A cancel of the session can find this root: it is registered, or a sub-turn of it is listed loop-wide.
  ghost predicate HasTarget(s: State, r: nat)
    requires Shaped(s) && r < |s.turns|
  {
    IsRegistered(s, r) || exists u :: u in s.subTurns && Root(s, u) == r
  }

  /** The two lists of a cancel miss the root of a turn if and only if it is unregistered and has nothing in subTurns. */
  lemma TargetsHold(s: State, session: string, all: bool, registered: seq<nat>, orphaned: seq<nat>, t: nat)
    requires Inv(s) && AreTargets(s, session, all, registered, orphaned)
    requires t < |s.turns| && Concerns(s, session, all, t)
    ensures Root(s, t) in registered || Root(s, t) in orphaned <==> HasTarget(s, Root(s, t))
  {
    hide Shaped, IndexesAgree, PhaseFits, AbortFits;
    var r := Root(s, t);
    if IsRegistered(s, r) {
      assert IsTarget(s, r, session, all);
    } else if HasTarget(s, r) {
      assert IsOrphaned(s, r, session, all);
    }
  }

  lemma LinkedFromTargets(s: State, session: string, all: bool, registered: seq<nat>, orphaned: seq<nat>, order: seq<nat>, t: nat)
    requires Inv(s) && AreTargets(s, session, all, registered, orphaned) && t < |s.turns|
    requires forall r :: r in order <==> r in registered || r in orphaned
    ensures LinkedFromSome(s, order, t) <==> Root(s, t) in order && Linked(s, Root(s, t), t)
  {
    if Root(s, t) in order {
      LinkedFromItsRoot(s, session, all, registered, orphaned, order, t);
    } else {
      forall r | r in order && Linked(s, r, t) ensures false {
        TargetsAreRoots(s, session, all, registered, orphaned, r);
        LinkedHasTheRoot(s, r, t);
      }
    }
  }

  /**
  So a cancel reaches a turn of the session, in whichever phase, if and only if its root can be found and it hangs
  under it (or it was aborted before).
  */
  lemma CancelReachesExactly(s: State, session: string, all: bool, registered: seq<nat>, orphaned: seq<nat>, t: nat)
    requires Inv(s) && Quiet(s) && AreTargets(s, session, all, registered, orphaned)
    requires t < |s.turns| && Concerns(s, session, all, t)
    ensures Exist(s.turns, AbortOrder(s, registered, orphaned))
    ensures FinishAll(s, AbortOrder(s, registered, orphaned)).turns[t].hardAborted
            <==> s.turns[t].hardAborted || (HasTarget(s, Root(s, t)) && Linked(s, Root(s, t), t))
  {
    hide IndexesAgree, Quiet, FinishAll, AbortOrder, IsTarget, IsOrphaned, HasTarget, Shaped, PhaseFits, AbortFits;
    AbortOrderMembers(s, registered, orphaned);
    var order := AbortOrder(s, registered, orphaned);
    TargetsHold(s, session, all, registered, orphaned, t);
    AbortReachesTheLinked(s, order, t);
    LinkedFromTargets(s, session, all, registered, orphaned, order, t);
  }

  // ---- a cancel among other things -------------------------------------------------------------------------------------

  // Abort k is still to come to r, or has.
  ghost predicate Reached(s: State, k: nat, r: nat) {
    k < |s.aborts| && r < |s.turns| && (s.turns[r].hardAborted || r in s.aborts[k])
  }

  lemma FinishReached(s: State, j: nat, k: nat, r: nat)
    requires Shaped(s) && j < |s.aborts| && s.aborts[j] != [] && Reached(s, k, r)
    ensures Reached(FinishNext(s, j), k, r)
  {
    assert Exist(s.turns, s.aborts[j]);
    var t, rest := s.aborts[j][0], s.aborts[j][1..];
    if j == k && r in s.aborts[j] && r != t {
      assert r in rest;
      assert r in ToVisit(s, t) + rest;
    }
  }

  lemma StepReached(s: State, a: Action, k: nat, r: nat)
    requires Inv(s) && Reached(s, k, r)
    ensures Reached(Step(s, a), k, r)
  {
    if Exists(s, a) {
      match a {
        case AFinishNext(j) => if s.aborts[j] != [] { FinishReached(s, j, k, r); }
        case ARemoveChild(c) => assert TurnShaped(s.turns, c);
        case _ =>
      }
    }
  }

  lemma {:induction false} RunReached(s: State, actions: seq<Action>, k: nat, r: nat)
    requires Inv(s) && Reached(s, k, r)
    ensures Reached(Run(s, actions), k, r)
  {
    if actions != [] {
      RunReached(s, actions[..|actions| - 1], k, r);
      StepReached(Run(s, actions[..|actions| - 1]), actions[|actions| - 1], k, r);
    }
  }

  lemma CancelReached(s: State, cancel: Action, r: nat)
    requires Inv(s) && cancel.ACancel? && AreTargets(s, cancel.session, cancel.all, cancel.registered, cancel.orphaned)
    requires r in cancel.registered || r in cancel.orphaned
    ensures Inv(Step(s, cancel)) && Reached(Step(s, cancel), |s.aborts|, r)
  {
    StepInv(s, cancel);
    hide AreTargets, Shaped, IndexesAgree, PhaseFits, AbortFits;
    AbortOrderMembers(s, cancel.registered, cancel.orphaned);
    TargetsAreRoots(s, cancel.session, cancel.all, cancel.registered, cancel.orphaned, r);
  }

  lemma QuietUnder(s: State, r: nat)
    requires Inv(s) && r < |s.turns| && s.turns[r].hardAborted && forall k | 0 <= k < |s.aborts| :: s.aborts[k] == []
    ensures forall t | 0 <= t < |s.turns| && Linked(s, r, t) :: s.turns[t].hardAborted && Step(s, AAddChild(t)) == s
  {
    hide Quiet, Shaped, IndexesAgree, PhaseFits, AbortFits;
    NoAbortsIsQuiet(s);
    forall t | 0 <= t < |s.turns| && Linked(s, r, t) ensures s.turns[t].hardAborted {
      QuietReaches(s, r, t);
    }
  }

  /**
  A cancel, and whatever happens then, in any order: other aborts, turns that come and go, sub-turns that are spawned
  and return. When the cancel's own list is empty, each of its targets is hard-aborted; and when no abort is in
  progress, so is everything that is still listed under one, and nothing can be spawned there.
  */
  lemma ACancelAmongOthers(s: State, cancel: Action, actions: seq<Action>, r: nat)
    requires Inv(s) && cancel.ACancel? && AreTargets(s, cancel.session, cancel.all, cancel.registered, cancel.orphaned)
    requires r in cancel.registered || r in cancel.orphaned
    ensures Inv(Step(s, cancel))
    ensures var s' := Run(Step(s, cancel), actions);
            && |s.aborts| < |s'.aborts| && r < |s'.turns|
            && (s'.aborts[|s.aborts|] == [] ==> s'.turns[r].hardAborted)
            && ((forall k | 0 <= k < |s'.aborts| :: s'.aborts[k] == []) ==>
                  forall t | 0 <= t < |s'.turns| && Linked(s', r, t) :: s'.turns[t].hardAborted && Step(s', AAddChild(t)) == s')
  {
    hide AreTargets, Linked, Step, Run, Shaped, IndexesAgree, PhaseFits, AbortFits;
    CancelReached(s, cancel, r);
    RunReached(Step(s, cancel), actions, |s.aborts|, r);
    var s' := Run(Step(s, cancel), actions);
    if forall k | 0 <= k < |s'.aborts| :: s'.aborts[k] == [] {
      QuietUnder(s', r);
    }
  }

  // ---- an abort beside other aborts -----------------------------------------------------------------------------------

  // Whatever else is in progress: what was marked stays so, and what an abort was given is.
  lemma {:induction false} FinishAllMarksWork(s: State, work: seq<nat>, t: nat)
    requires Shaped(s) && Exist(s.turns, work) && t < |s.turns| && (t in work || s.turns[t].hardAborted)
    ensures FinishAll(s, work).turns[t].hardAborted
    decreases Unaborted(s.turns), |work|
  {
    if work != [] {
      MarkingIsFine(s, work);
      if t in work && t != work[0] { assert t in work[1..]; }
      FinishAllMarksWork(Marked(s, work[0]), NextWork(s, work), t);
    }
  }

  lemma {:induction false} FinishAllMarksChildren(s: State, work: seq<nat>, r: nat, c: nat)
    requires Shaped(s) && Exist(s.turns, work) && r in work && r < |s.turns| && !s.turns[r].hardAborted
    requires c in s.turns[r].children && c < |s.turns|
    ensures FinishAll(s, work).turns[c].hardAborted
    decreases Unaborted(s.turns), |work|
  {
    MarkingIsFine(s, work);
    if work[0] == r {
      FinishAllMarksWork(Marked(s, r), NextWork(s, work), c);
    } else {
      assert r in work[1..];
      FinishAllMarksChildren(Marked(s, work[0]), NextWork(s, work), r, c);
    }
  }

  /** With one level of sub-turns a cancel reaches every running one of the session, or another abort is about to. */
  lemma CancelBesideOthers(s: State, session: string, all: bool, registered: seq<nat>, orphaned: seq<nat>, t: nat)
    requires Inv(s) && Shallow(s) && AreTargets(s, session, all, registered, orphaned)
    requires t in s.subTurns && Concerns(s, session, all, t)
    ensures Exist(s.turns, AbortOrder(s, registered, orphaned))
    ensures FinishAll(s, AbortOrder(s, registered, orphaned)).turns[t].hardAborted || InAborts(s, t)
  {
    AbortOrderMembers(s, registered, orphaned);
    TargetsCoverRunningSubTurns(s, session, all, registered, orphaned);
    assert PhaseFits(s, t) && ShallowAt(s, t);
    var r := s.turns[t].parent.value;
    assert Root(s, r) == r && Root(s, t) == r;
    if s.turns[r].hardAborted {
      assert AbortFits(s, r);
      var k :| 0 <= k < |s.turns[r].children| && s.turns[r].children[k] == t;
      assert Covered(s, s.turns[r].children[k]);
      if s.turns[t].hardAborted { FinishAllMarksWork(s, AbortOrder(s, registered, orphaned), t); }
    } else {
      FinishAllMarksChildren(s, AbortOrder(s, registered, orphaned), r, t);
    }
  }

  // ---- a sub-turn that a cancel misses --------------------------------------------------------------------------------

  function RootTurn(started: bool, children: seq<nat>): Turn {
    Turn("r", "s", None, Rooted, started, children, false)
  }

  function SubTurn(parent: nat, phase: Phase, children: seq<nat>): Turn {
    Turn("", "", Some(parent), phase, false, children, false)
  }

  function Tree(turns: seq<Turn>, running: set<nat>): State {
    State(turns, map["r" := 0], map["s" := [0]], running, [])
  }

  // A root's sub-turn starts a sub-turn of its own, and returns.
  function Escape(): seq<Action> {
    [ARegister("r", "", "s"), AStart(0), AAddChild(0), AAddSub(1), AAddChild(1), AAddSub(2), ARemoveSub(1), ARemoveChild(1)]
  }

  // The states on the way.
  function Escaping(k: nat): State {
    match k
    case 0 => INIT
    case 1 => Tree([RootTurn(false, [])], {})
    case 2 => Tree([RootTurn(true, [])], {})
    case 3 => Tree([RootTurn(true, [1]), SubTurn(0, Listed, [])], {})
    case 4 => Tree([RootTurn(true, [1]), SubTurn(0, Running, [])], {1})
    case 5 => Tree([RootTurn(true, [1]), SubTurn(0, Running, [2]), SubTurn(1, Listed, [])], {1})
    case 6 => Tree([RootTurn(true, [1]), SubTurn(0, Running, [2]), SubTurn(1, Running, [])], {1, 2})
    case 7 => Tree([RootTurn(true, [1]), SubTurn(0, Unlisting, [2]), SubTurn(1, Running, [])], {2})
    case _ => Tree([RootTurn(true, []), SubTurn(0, Gone, [2]), SubTurn(1, Running, [])], {2})
  }

  lemma EscapeRegisters()
    requires Shaped(Escaping(0)) && Shaped(Escaping(1))
    ensures Step(Escaping(0), Escape()[0]) == Escaping(1)
    ensures Step(Escaping(1), Escape()[1]) == Escaping(2)
  {
    assert Of(map[], "s") + [0] == [0];
  }

  lemma EscapeSpawns(k: nat)
    requires k == 2 || k == 4
    requires Shaped(Escaping(k))
    ensures Step(Escaping(k), Escape()[k]) == Escaping(k + 1)
  {
    if k == 2 {
      assert [] + [1] == [1];
    } else {
      assert [] + [2] == [2];
    }
  }

  lemma EscapeLists(k: nat)
    requires k == 3 || k == 5 || k == 6
    requires Shaped(Escaping(k))
    ensures Step(Escaping(k), Escape()[k]) == Escaping(k + 1)
  {
    if k == 6 { assert {1, 2} - {1} == {2}; }
  }

  lemma EscapeReturns()
    requires Shaped(Escaping(7))
    ensures Step(Escaping(7), Escape()[7]) == Escaping(8)
  {
    assert Without([1], 1) == [];
  }

  lemma EscapeStep(k: nat)
    requires k < 8 && Inv(Escaping(k))
    ensures Step(Escaping(k), Escape()[k]) == Escaping(k + 1)
  {
    if k == 0 {
      StepInv(Escaping(0), Escape()[0]);
      assert Shaped(Escaping(1)) by { ShapedOne(Escaping(1)); }
      EscapeRegisters();
    } else if k == 1 {
      ShapedOne(INIT);
      EscapeRegisters();
    } else if k == 2 || k == 4 {
      EscapeSpawns(k);
    } else if k == 7 {
      EscapeReturns();
    } else {
      EscapeLists(k);
    }
  }

  lemma ShapedOne(s: State)
    requires s == INIT || s == Escaping(1)
    ensures Shaped(s)
  {
  }

  lemma {:induction false} EscapeRuns(k: nat)
    requires k <= 8
    ensures Run(INIT, Escape()[..k]) == Escaping(k)
  {
    if k > 0 {
      EscapeRuns(k - 1);
      assert Escape()[..k][..k - 1] == Escape()[..k - 1];
      EscapeStep(k - 1);
    }
  }

  lemma EscapedTargets(s: State)
    requires s == Escaping(8) && Shaped(s)
    ensures AreTargets(s, "s", false, [0], []) && Root(s, 2) == 0
    ensures 2 in s.subTurns && Concerns(s, "s", false, 2) && s.aborts == []
  {
    assert Root(s, 0) == 0 && Root(s, 1) == 0 && Root(s, 2) == 0;
    assert IsRegistered(s, 0);
    assert forall t | 0 <= t < 3 :: IsRegistered(s, t) ==> t == 0;
  }

  lemma EscapeIsLoose(s: State)
    requires s == Escaping(8) && Shaped(s)
    ensures !Linked(s, 0, 2) && !s.turns[2].hardAborted
  {
    assert !ListedUnderParent(s, 1) && ListedUnderParent(s, 2);
    assert !Linked(s, 0, 1);
  }

  lemma EscapeEnds()
    ensures Run(INIT, Escape()) == Escaping(8)
  {
    hide Step;
    EscapeRuns(8);
    assert Escape()[..8] == Escape();
  }

  lemma EscapeMisses(s: State)
    requires Inv(s) && s == Escaping(8)
    ensures AreTargets(s, "s", false, [0], []) && 2 in s.subTurns && Concerns(s, "s", false, 2)
    ensures Exist(s.turns, AbortOrder(s, [0], [])) && !FinishAll(s, AbortOrder(s, [0], [])).turns[2].hardAborted
  {
    hide Escaping, AreTargets, FinishAll, Quiet, AbortOrder, Linked, Concerns, Shaped, IndexesAgree, PhaseFits, AbortFits;
    EscapedTargets(s);
    NoAbortsIsQuiet(s);
    EscapeIsLoose(s);
    CancelReachesTheLinked(s, "s", false, [0], [], 2);
  }

  /** With sub-turns of sub-turns allowed, a cancel of the session does not stop the one whose parent has returned. */
  lemma ACancelCanMiss()
    ensures var s := Run(INIT, Escape());
            && AreTargets(s, "s", false, [0], []) && 2 in s.subTurns && Concerns(s, "s", false, 2)
            && Exist(s.turns, AbortOrder(s, [0], []))
            && !FinishAll(s, AbortOrder(s, [0], [])).turns[2].hardAborted
  {
    hide Step, Run, Escaping, FinishAll, AreTargets, AbortOrder, Concerns, Shaped, IndexesAgree, PhaseFits, AbortFits;
    InitInv();
    EscapeEnds();
    EscapeMisses(Run(INIT, Escape()));
  }

  // ---- a listed child that a cancel misses ------------------------------------------------------------------------------

  // A root spawns, and is done while its sub-turn stands between the two lists; the cancel comes then.
  function Slip(): seq<Action> {
    [ARegister("r", "", "s"), AStart(0), AAddChild(0), AUnregister(0), ACancel("s", false, [], []), AAddSub(1)]
  }

  function Orphan(sub: Phase, running: set<nat>, aborts: seq<seq<nat>>): State {
    State([RootTurn(true, [1]), SubTurn(0, sub, [])], map[], map[], running, aborts)
  }

  function Slipping(k: nat): State {
    match k
    case 0 => INIT
    case 1 => Tree([RootTurn(false, [])], {})
    case 2 => Tree([RootTurn(true, [])], {})
    case 3 => Tree([RootTurn(true, [1]), SubTurn(0, Listed, [])], {})
    case 4 => Orphan(Listed, {}, [])
    case 5 => Orphan(Listed, {}, [[]])
    case _ => Orphan(Running, {1}, [[]])
  }

  lemma SlipReturns(s: State)
    requires s == Slipping(3) && Shaped(s)
    ensures Step(s, AUnregister(0)) == Slipping(4)
  {
    assert IsRegistered(s, 0) && Of(s.bySession, "s") == [0] && Without([0], 0) == [];
  }

  // Nothing is registered, nothing is listed loop-wide: the cancel has no target.
  lemma SlipIsCancelled(s: State)
    requires s == Slipping(4) && Shaped(s)
    ensures AreTargets(s, "s", false, [], []) && Step(s, ACancel("s", false, [], [])) == Slipping(5)
  {
    assert forall t | 0 <= t < 2 :: !IsRegistered(s, t);
    assert AbortOrder(s, [], []) == [];
  }

  lemma SlipStep(k: nat)
    requires k < 6 && Inv(Slipping(k))
    ensures Step(Slipping(k), Slip()[k]) == Slipping(k + 1)
  {
    if k < 3 {
      EscapeStep(k);
    } else if k == 3 {
      SlipReturns(Slipping(3));
    } else if k == 4 {
      SlipIsCancelled(Slipping(4));
    }
  }

  lemma SlipStarts()
    ensures Slipping(0) == INIT
  {
  }

  lemma {:induction false} SlipRuns(k: nat)
    requires k <= 6
    ensures Run(INIT, Slip()[..k]) == Slipping(k)
  {
    hide Step, Slipping, Shaped, IndexesAgree, PhaseFits, AbortFits;
    if k > 0 {
      SlipRuns(k - 1);
      assert Slip()[..k][..k - 1] == Slip()[..k - 1];
      SlipStep(k - 1);
    } else {
      assert Slipping(0) == INIT by { SlipStarts(); }
    }
  }

  lemma SlipHasNone(s: State)
    requires s == Slipping(4) && Shaped(s)
    ensures s.turns == [RootTurn(true, [1]), SubTurn(0, Listed, [])] && !HasTarget(s, 0)
  {
  }

  lemma SlipEnds(s: State)
    requires s == Slipping(6)
    ensures |s.turns| == 2 && s.turns[1].phase.Running? && 1 in s.subTurns && !s.turns[1].hardAborted && forall c :: !InAborts(s, c)
  {
  }

  lemma SlipStates()
    ensures Run(INIT, Slip()[..4]) == Slipping(4) && Run(INIT, Slip()) == Slipping(6)
  {
    hide Step;
    SlipRuns(4);
    SlipRuns(6);
    assert Slip()[..6] == Slip();
  }

  /**
  An asynchronous sub-turn that its root has listed and the loop has not: the root returns, a cancel of the session
  finds neither, and the sub-turn then runs, not aborted and with no abort under way that would come to it.
  */
  lemma ACancelMissesAListedChild()
    ensures var s := Run(INIT, Slip()[..4]);
            s.turns == [RootTurn(true, [1]), SubTurn(0, Listed, [])] && !HasTarget(s, 0) && AreTargets(s, "s", false, [], [])
    ensures var s := Run(INIT, Slip());
            && |s.turns| == 2 && s.turns[1].phase.Running? && 1 in s.subTurns && !s.turns[1].hardAborted
            && forall c :: !InAborts(s, c)
  {
    hide Step, Run, Slipping, AreTargets, HasTarget, InAborts, Shaped, IndexesAgree, PhaseFits, AbortFits;
    InitInv();
    SlipStates();
    SlipHasNone(Run(INIT, Slip()[..4]));
    SlipIsCancelled(Run(INIT, Slip()[..4]));
    SlipEnds(Run(INIT, Slip()));
  }
}
