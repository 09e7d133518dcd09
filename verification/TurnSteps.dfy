/**
How an abort goes through the tree (pkg/agent/turn_state.go:514-548, steering.go:264-300): turn by turn it does what the
recursion of Finish does, it ends, and the turns that wait for their session come first.
*/
module TurnSteps {
  import opened Wrappers
  import opened TurnTreeSpec
  import opened TurnTree
  import opened TurnAborts

  // The same but for the aborts that are in progress.
  predicate SameButAborts(s: State, s': State) {
    s' == s.(aborts := s'.aborts)
  }

  lemma {:induction false} FinishAllIgnoresAborts(s: State, s': State, work: seq<nat>)
    requires Shaped(s) && Shaped(s') && SameButAborts(s, s') && Exist(s.turns, work)
    ensures SameButAborts(FinishAll(s, work), FinishAll(s', work))
    decreases Unaborted(s.turns), |work|
  {
    if work != [] {
      MarkingIsFine(s, work);
      MarkingIsFine(s', work);
      FinishAllIgnoresAborts(Marked(s, work[0]), Marked(s', work[0]), NextWork(s, work));
    }
  }

  function Each(k: nat, n: nat): seq<Action> {
    seq(n, i => AFinishNext(k))
  }

  lemma {:induction false} RunBoth(s: State, a: Action, rest: seq<Action>)
    requires Inv(s) && Inv(Step(s, a))
    ensures Run(s, [a] + rest) == Run(Step(s, a), rest)
  {
    hide Step, IndexesAgree, PhaseFits, AbortFits;
    if rest == [] {
      assert [a] + rest == [a] && [a][..0] == [];
      assert Run(s, [a]) == Step(Run(s, []), a);
    } else {
      RunBoth(s, a, rest[..|rest| - 1]);
      assert ([a] + rest)[..|rest|] == [a] + rest[..|rest| - 1];
    }
  }

  // What abort k has done when it is over: all the recursion does, and nothing to the other aborts and the indexes.
  ghost predicate IsThrough(s: State, s': State, k: nat)
    requires Shaped(s) && k < |s.aborts| && Exist(s.turns, s.aborts[k])
  {
    && s'.turns == FinishAll(s, s.aborts[k]).turns
    && s' == s.(turns := s'.turns, aborts := s.aborts[k := []])
  }

  lemma OneStep(s: State, k: nat)
    requires Inv(s) && k < |s.aborts| && s.aborts[k] != []
    ensures Exist(s.turns, s.aborts[k])
    ensures Step(s, AFinishNext(k)) == Marked(s, s.aborts[k][0]).(aborts := s.aborts[k := NextWork(s, s.aborts[k])])
  {
    hide IndexesAgree, PhaseFits, AbortFits;
    assert Exist(s.turns, s.aborts[k]);
  }

  lemma ThroughBefore(s: State, s1: State, s': State, k: nat)
    requires Shaped(s) && Shaped(s1) && k < |s.aborts| && s.aborts[k] != [] && Exist(s.turns, s.aborts[k])
    requires s1 == Marked(s, s.aborts[k][0]).(aborts := s.aborts[k := NextWork(s, s.aborts[k])])
    requires Exist(s1.turns, s1.aborts[k]) && IsThrough(s1, s', k)
    ensures IsThrough(s, s', k)
  {
    var work := s.aborts[k];
    MarkingIsFine(s, work);
    FinishAllIgnoresAborts(Marked(s, work[0]), s1, NextWork(s, work));
    assert s1.aborts[k := []] == s.aborts[k := []];
  }

  /** Left to itself an abort ends, and then has marked exactly what the recursion marks. */
  lemma {:induction false} AnAbortEnds(s: State, k: nat) returns (n: nat)
    requires Inv(s) && k < |s.aborts|
    ensures Exist(s.turns, s.aborts[k]) && IsThrough(s, Run(s, Each(k, n)), k)
    decreases Unaborted(s.turns), |s.aborts[k]|
  {
    hide Step, IndexesAgree, PhaseFits, AbortFits, IsThrough;
    assert Exist(s.turns, s.aborts[k]);
    if s.aborts[k] == [] {
      n := 0;
      NothingLeft(s, k);
    } else {
      OneStep(s, k);
      MarkingIsFine(s, s.aborts[k]);
      var s1 := Step(s, AFinishNext(k));
      StepInv(s, AFinishNext(k));
      var m := AnAbortEnds(s1, k);
      n := m + 1;
      assert Each(k, n) == [AFinishNext(k)] + Each(k, m);
      RunBoth(s, AFinishNext(k), Each(k, m));
      ThroughBefore(s, s1, Run(s1, Each(k, m)), k);
    }
  }

  lemma NothingLeft(s: State, k: nat)
    requires Inv(s) && k < |s.aborts| && s.aborts[k] == [] && Exist(s.turns, s.aborts[k])
    ensures IsThrough(s, Run(s, Each(k, 0)), k)
  {
    assert Each(k, 0) == [];
    assert s.aborts[k := []] == s.aborts;
  }

  /**
  A cancel goes to every turn it has found and to no other, and to every turn that still waits for its session before any
  that has it.
  */
  lemma TheWaitingGoFirst(s: State, session: string, all: bool, registered: seq<nat>, orphaned: seq<nat>)
    requires Inv(s) && AreTargets(s, session, all, registered, orphaned)
    ensures var s' := Step(s, ACancel(session, all, registered, orphaned));
            && |s'.aborts| == |s.aborts| + 1 && s' == s.(aborts := s'.aborts) && s'.aborts[..|s.aborts|] == s.aborts
            && var order := s'.aborts[|s.aborts|];
            && (forall t :: t in order <==> t in registered || t in orphaned)
            && (forall p, t | 0 <= p < |order| && t in registered && order[p] < |s.turns| && t < |s.turns| ::
                  !s.turns[t].started && (s.turns[order[p]].started || order[p] !in registered) ==> t in order[..p])
  {
    UnstartedMembers(s, registered);
    UnstartedAre(s, registered);
    var order, first := AbortOrder(s, registered, orphaned), Unstarted(s, registered);
    assert s.aborts + [order] == Step(s, ACancel(session, all, registered, orphaned)).aborts;
    forall p, t | 0 <= p < |order| && t in registered && order[p] < |s.turns| && t < |s.turns|
                  && !s.turns[t].started && (s.turns[order[p]].started || order[p] !in registered)
      ensures t in order[..p]
    {
      assert t in first;
      assert order[..p][..|first|] == first;
      var j :| 0 <= j < |first| && first[j] == t;
      assert order[..p][j] == t;
    }
  }

  lemma {:induction false} UnstartedAre(s: State, ts: seq<nat>)
    requires Exist(s.turns, ts)
    ensures forall t :: t in Unstarted(s, ts) <==> t in ts && t < |s.turns| && !s.turns[t].started
  {
    if ts != [] {
      var front, t := ts[..|ts| - 1], ts[|ts| - 1];
      UnstartedAre(s, front);
      assert ts == front + [t];
    }
  }

  // ---- the indexes --------------------------------------------------------------------------------------------------------

  /**
  A root turn keeps the id it comes with, unless that is empty or taken; it is then found by its id, and last of its session.
  */
  lemma ATurnKeepsItsId(s: State, id: string, minted: string, session: string)
    requires Inv(s)
    ensures var s', t := Step(s, ARegister(id, minted, session)), |s.turns|;
            var name := if id != "" && id !in s.byId then id else id + "#" + minted;
            name !in s.byId ==>
              && s'.turns == s.turns + [Turn(name, session, None, Rooted, false, [], false)]
              && s'.byId == s.byId[name := t]
              && s'.bySession == s.bySession[session := if session in s.bySession then s.bySession[session] + [t] else [t]]
              && s'.subTurns == s.subTurns && s'.aborts == s.aborts
  {
    var none: seq<nat> := [];
    assert none + [|s.turns|] == [|s.turns|];
  }

  /** A turn that unregisters leaves both indexes, its session's list keeps the others in their order, and a list of none goes. */
  lemma ATurnLeavesTheIndexes(s: State, t: nat)
    requires Inv(s) && t < |s.turns| && s.turns[t].id in s.byId && s.byId[s.turns[t].id] == t
    ensures var s', key := Step(s, AUnregister(t)), s.turns[t].session;
            && key in s.bySession
            && s'.byId == s.byId - {s.turns[t].id} && s'.turns == s.turns
            && exists k | 0 <= k < |s.bySession[key]| :: s.bySession[key][k] == t
                 && s'.bySession == if |s.bySession[key]| == 1 then s.bySession - {key}
                                    else s.bySession[key := s.bySession[key][..k] + s.bySession[key][k + 1..]]
  {
    hide PhaseFits, AbortFits, KeyFits;
    assert Findable(s, t);
    var key := s.turns[t].session;
    var k := WithoutIs(s.bySession[key], t);
    assert s.bySession[key][k] == t;
  }

  lemma {:induction false} WithoutIs(xs: seq<nat>, x: nat) returns (k: nat)
    requires x in xs
    ensures k < |xs| && xs[k] == x && Without(xs, x) == xs[..k] + xs[k + 1..]
  {
    if xs[0] == x {
      k := 0;
    } else {
      var j := WithoutIs(xs[1..], x);
      k := j + 1;
      assert xs[..k] == [xs[0]] + xs[1..][..j] && xs[k + 1..] == xs[1..][j + 1..];
    }
  }
}
