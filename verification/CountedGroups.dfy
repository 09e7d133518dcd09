/**
Messages of which the budget counts only a part (pkg/attention/store.go:309-365). The outbox cuts all the decisions it
accepts into groups; sendsToday cuts only those it counts. What the two cuts have to do with each other is a fact about
lists of times, and is stated and proved here for any list of things with a time, some of which are counted.
*/
module CountedGroups {
  import opened Windows

  // Things cut into the groups that open with the first one a window after the opening of the group before.
  function Cut<A>(at: A -> int, xs: seq<A>, w: int): seq<seq<A>> {
    if xs == [] then []
    else
      var groups, x := Cut(at, Front(xs), w), Last(xs);
      if groups == [] || Last(groups) == [] || at(x) - at(Last(groups)[0]) >= w then groups + [[x]]
      else Front(groups) + [Last(groups) + [x]]
  }

  function Flat<A>(groups: seq<seq<A>>): seq<A> {
    if groups == [] then [] else Flat(Front(groups)) + Last(groups)
  }

  lemma FlatAppend<A>(groups: seq<seq<A>>, g: seq<A>)
    ensures Flat(groups + [g]) == Flat(groups) + g
  {
    assert Front(groups + [g]) == groups;
  }

  ghost predicate Ordered<A>(at: A -> int, xs: seq<A>) {
    forall i, j | 0 <= i < j < |xs| :: at(xs[i]) <= at(xs[j])
  }

  // ---- what a cut is ---------------------------------------------------------------------------------------------------

  // Not empty, and inside the window that its first opens.
  predicate IsGroup<A>(at: A -> int, g: seq<A>, w: int) {
    g != [] && forall i | 0 <= i < |g| :: at(g[i]) - at(g[0]) < w
  }

  // Groups that open a window apart, each from the one before.
  predicate Apart<A>(at: A -> int, groups: seq<seq<A>>, w: int) {
    |groups| > 1 ==> Apart(at, Front(groups), w) && Later(at, groups[|groups| - 2], Last(groups), w)
  }

  predicate Later<A>(at: A -> int, g: seq<A>, g': seq<A>, w: int) {
    g != [] && g' != [] && at(g'[0]) - at(g[0]) >= w
  }

  ghost predicate AreGroups<A>(at: A -> int, groups: seq<seq<A>>, w: int) {
    forall k | 0 <= k < |groups| :: IsGroup(at, groups[k], w)
  }

  lemma {:induction false} CutShape<A>(at: A -> int, xs: seq<A>, w: int)
    requires w > 0
    ensures var groups := Cut(at, xs, w);
            Flat(groups) == xs && AreGroups(at, groups, w) && Apart(at, groups, w) && (xs != [] ==> groups != [])
  {
    if xs != [] {
      CutShape(at, Front(xs), w);
      var groups, x := Cut(at, Front(xs), w), Last(xs);
      assert xs == Front(xs) + [x];
      if groups != [] { assert IsGroup(at, Last(groups), w); }
      if groups == [] || at(x) - at(Last(groups)[0]) >= w {
        NewGroup(at, groups, x, w);
      } else {
        LongerGroup(at, groups, x, w);
      }
    }
  }

  lemma NewGroup<A>(at: A -> int, groups: seq<seq<A>>, x: A, w: int)
    requires w > 0 && AreGroups(at, groups, w) && Apart(at, groups, w)
    requires groups != [] ==> Last(groups) != [] && at(x) - at(Last(groups)[0]) >= w
    ensures var all := groups + [[x]]; Flat(all) == Flat(groups) + [x] && AreGroups(at, all, w) && Apart(at, all, w)
  {
    var all := groups + [[x]];
    assert Front(all) == groups && Last(all) == [x];
    if groups != [] { assert all[|all| - 2] == Last(groups); }
  }

  lemma LongerGroup<A>(at: A -> int, groups: seq<seq<A>>, x: A, w: int)
    requires AreGroups(at, groups, w) && Apart(at, groups, w)
    requires groups != [] && Last(groups) != [] && at(x) - at(Last(groups)[0]) < w
    ensures var all := Front(groups) + [Last(groups) + [x]];
            Flat(all) == Flat(groups) + [x] && AreGroups(at, all, w) && Apart(at, all, w)
  {
    var g := Last(groups) + [x];
    var all := Front(groups) + [g];
    assert Front(all) == Front(groups) && Last(all) == g;
    assert IsGroup(at, Last(groups), w);
    assert g[0] == Last(groups)[0];
    assert IsGroup(at, g, w);
    if |groups| > 1 { assert all[|all| - 2] == groups[|groups| - 2]; }
  }

  // There is only one such cut.
  lemma {:induction false} CutIsUnique<A>(at: A -> int, groups: seq<seq<A>>, w: int)
    requires w > 0 && AreGroups(at, groups, w) && Apart(at, groups, w)
    ensures Cut(at, Flat(groups), w) == groups
    decreases |Flat(groups)|
  {
    if groups != [] {
      assert IsGroup(at, Last(groups), w);
      if |Last(groups)| == 1 {
        CutIsUnique(at, Front(groups), w);
        LastAlone(at, groups, w);
      } else {
        Shortened(at, groups, w);
        CutIsUnique(at, Front(groups) + [Front(Last(groups))], w);
        LastLonger(at, groups, w);
      }
    }
  }

  lemma CutAppend<A>(at: A -> int, xs: seq<A>, x: A, w: int)
    ensures var groups := Cut(at, xs, w);
            Cut(at, xs + [x], w) == if groups == [] || Last(groups) == [] || at(x) - at(Last(groups)[0]) >= w then groups + [[x]]
                                    else Front(groups) + [Last(groups) + [x]]
  {
    assert Front(xs + [x]) == xs && Last(xs + [x]) == x;
  }

  lemma LastAlone<A>(at: A -> int, groups: seq<seq<A>>, w: int)
    requires groups != [] && |Last(groups)| == 1 && Apart(at, groups, w)
    requires Cut(at, Flat(Front(groups)), w) == Front(groups)
    ensures Cut(at, Flat(groups), w) == groups
  {
    var front, x := Front(groups), Last(groups)[0];
    assert Last(groups) == [x] && groups == front + [[x]];
    CutAppend(at, Flat(front), x, w);
    if front != [] { assert groups[|groups| - 2] == Last(front); }
  }

  lemma LastLonger<A>(at: A -> int, groups: seq<seq<A>>, w: int)
    requires groups != [] && |Last(groups)| > 1 && IsGroup(at, Last(groups), w)
    requires var shorter := Front(groups) + [Front(Last(groups))];
             Cut(at, Flat(shorter), w) == shorter && Flat(shorter) == Flat(Front(groups)) + Front(Last(groups))
    ensures Cut(at, Flat(groups), w) == groups
  {
    var front, g := Front(groups), Last(groups);
    var shorter, x := front + [Front(g)], Last(g);
    assert g == Front(g) + [x] && groups == front + [g];
    assert Flat(groups) == Flat(shorter) + [x];
    CutAppend(at, Flat(shorter), x, w);
    assert Last(shorter) == Front(g) && Front(shorter) == front;
  }

  // Without its last.
  lemma Shortened<A>(at: A -> int, groups: seq<seq<A>>, w: int)
    requires groups != [] && |Last(groups)| > 1 && AreGroups(at, groups, w) && Apart(at, groups, w)
    ensures var shorter := Front(groups) + [Front(Last(groups))];
            Flat(shorter) == Flat(Front(groups)) + Front(Last(groups)) && AreGroups(at, shorter, w) && Apart(at, shorter, w)
  {
    var shorter := Front(groups) + [Front(Last(groups))];
    assert Front(shorter) == Front(groups) && Last(shorter) == Front(Last(groups));
    assert IsGroup(at, Last(groups), w);
    assert IsGroup(at, Last(shorter), w);
    if |groups| > 1 { assert shorter[|shorter| - 2] == groups[|groups| - 2]; }
  }

  // A cut has as many groups as there are openings.
  lemma {:induction false} CutCount<A>(at: A -> int, xs: seq<A>, w: int)
    requires w > 0
    ensures var groups, starts := Cut(at, xs, w), Starts(Times(at, xs), w);
            |groups| == |starts| && forall k | 0 <= k < |groups| :: groups[k] != [] && at(groups[k][0]) == starts[k]
  {
    if xs != [] {
      CutCount(at, Front(xs), w);
      var groups, starts := Cut(at, Front(xs), w), Starts(Times(at, Front(xs)), w);
      assert Front(Times(at, xs)) == Times(at, Front(xs)) && Last(Times(at, xs)) == at(Last(xs));
      if groups != [] { assert at(Last(groups)[0]) == Last(starts); }
    }
  }

  function Times<A>(at: A -> int, xs: seq<A>): seq<int> {
    seq(|xs|, i requires 0 <= i < |xs| => at(xs[i]))
  }

  // ---- the part that is counted ------------------------------------------------------------------------------------------

  function Counted<A>(counts: A -> bool, xs: seq<A>): seq<A> {
    if xs == [] then []
    else if counts(Last(xs)) then Counted(counts, Front(xs)) + [Last(xs)]
    else Counted(counts, Front(xs))
  }

  // The groups with something counted in them, without the rest.
  function CountedIn<A>(counts: A -> bool, groups: seq<seq<A>>): seq<seq<A>> {
    if groups == [] then []
    else
      var front, g := CountedIn(counts, Front(groups)), Counted(counts, Last(groups));
      if g == [] then front else front + [g]
  }

  lemma {:induction false} CountedConcat<A>(counts: A -> bool, a: seq<A>, b: seq<A>)
    ensures Counted(counts, a + b) == Counted(counts, a) + Counted(counts, b)
  {
    if b == [] {
      assert a + b == a;
    } else {
      assert Front(a + b) == a + Front(b);
      CountedConcat(counts, a, Front(b));
    }
  }

  lemma {:induction false} CountedFlat<A>(counts: A -> bool, groups: seq<seq<A>>)
    ensures Flat(CountedIn(counts, groups)) == Counted(counts, Flat(groups))
  {
    if groups != [] {
      CountedFlat(counts, Front(groups));
      CountedConcat(counts, Flat(Front(groups)), Last(groups));
      var front, g := CountedIn(counts, Front(groups)), Counted(counts, Last(groups));
      if g != [] { assert Front(front + [g]) == front; }
    }
  }

  lemma {:induction false} CountedMembers<A>(counts: A -> bool, xs: seq<A>)
    ensures forall i | 0 <= i < |Counted(counts, xs)| :: Counted(counts, xs)[i] in xs
    ensures xs != [] && counts(xs[0]) ==> Counted(counts, xs) != [] && Counted(counts, xs)[0] == xs[0]
  {
    if xs != [] {
      CountedMembers(counts, Front(xs));
      assert xs == Front(xs) + [Last(xs)];
    }
  }

  // What is counted of a group of things in order lies inside the window of its own first.
  lemma CountedIsGroup<A>(at: A -> int, counts: A -> bool, g: seq<A>, w: int)
    requires IsGroup(at, g, w) && Ordered(at, g) && Counted(counts, g) != []
    ensures IsGroup(at, Counted(counts, g), w)
  {
    var c := Counted(counts, g);
    CountedMembers(counts, g);
    forall i | 0 <= i < |c| ensures at(c[i]) - at(c[0]) < w {
      var j :| 0 <= j < |g| && g[j] == c[i];
      var k :| 0 <= k < |g| && g[k] == c[0];
      assert at(g[0]) <= at(g[k]);
    }
  }

  lemma {:induction false} CountedAreGroups<A>(at: A -> int, counts: A -> bool, groups: seq<seq<A>>, w: int)
    requires AreGroups(at, groups, w) && forall g | g in groups :: Ordered(at, g)
    ensures AreGroups(at, CountedIn(counts, groups), w)
  {
    if groups != [] {
      CountedAreGroups(at, counts, Front(groups), w);
      assert IsGroup(at, Last(groups), w) && Last(groups) in groups;
      if Counted(counts, Last(groups)) != [] { CountedIsGroup(at, counts, Last(groups), w); }
    }
  }

  lemma {:induction false} GroupsAreOrdered<A>(at: A -> int, groups: seq<seq<A>>)
    requires Ordered(at, Flat(groups))
    ensures forall g | g in groups :: Ordered(at, g)
  {
    if groups != [] {
      var all, front, g := Flat(groups), Flat(Front(groups)), Last(groups);
      assert forall i | 0 <= i < |front| :: all[i] == front[i];
      assert forall i | 0 <= i < |g| :: all[|front| + i] == g[i];
      GroupsAreOrdered(at, Front(groups));
      assert groups == Front(groups) + [g];
    }
  }

  /**
  The groups, without what is not counted, are the cut of what is counted, if and only if those with something counted
  open it a window apart.
  */
  lemma CountedCut<A>(at: A -> int, counts: A -> bool, xs: seq<A>, w: int)
    requires w > 0 && Ordered(at, xs)
    ensures var groups := CountedIn(counts, Cut(at, xs, w));
            groups == Cut(at, Counted(counts, xs), w) <==> Apart(at, groups, w)
  {
    var groups := CountedIn(counts, Cut(at, xs, w));
    CutShape(at, xs, w);
    CountedFlat(counts, Cut(at, xs, w));
    GroupsAreOrdered(at, Cut(at, xs, w));
    CountedAreGroups(at, counts, Cut(at, xs, w), w);
    if Apart(at, groups, w) { CutIsUnique(at, groups, w); }
    CutShape(at, Counted(counts, xs), w);
  }

  // Every group opens with something counted.
  predicate OpenCounted<A>(counts: A -> bool, groups: seq<seq<A>>) {
    forall k | 0 <= k < |groups| :: groups[k] != [] && counts(groups[k][0])
  }

  lemma {:induction false} SameOpenings<A>(counts: A -> bool, groups: seq<seq<A>>)
    requires OpenCounted(counts, groups)
    ensures |CountedIn(counts, groups)| == |groups|
    ensures forall k | 0 <= k < |groups| :: CountedIn(counts, groups)[k] != [] && CountedIn(counts, groups)[k][0] == groups[k][0]
  {
    if groups != [] {
      SameOpenings(counts, Front(groups));
      CountedMembers(counts, Last(groups));
      assert groups[|groups| - 1] == Last(groups);
    }
  }

  lemma {:induction false} SameApart<A>(at: A -> int, groups: seq<seq<A>>, groups': seq<seq<A>>, w: int)
    requires Apart(at, groups, w) && |groups'| == |groups|
    requires forall k | 0 <= k < |groups| :: groups[k] != [] && groups'[k] != [] && groups'[k][0] == groups[k][0]
    ensures Apart(at, groups', w)
  {
    if |groups| > 1 {
      SameApart(at, Front(groups), Front(groups'), w);
      assert groups[|groups| - 1] == Last(groups) && groups'[|groups| - 1] == Last(groups');
    }
  }

  /** So they are when no group opens with something that is not counted. */
  lemma OpenedByCounted<A>(at: A -> int, counts: A -> bool, xs: seq<A>, w: int)
    requires w > 0 && Ordered(at, xs) && OpenCounted(counts, Cut(at, xs, w))
    ensures CountedIn(counts, Cut(at, xs, w)) == Cut(at, Counted(counts, xs), w)
  {
    CutShape(at, xs, w);
    SameOpenings(counts, Cut(at, xs, w));
    SameApart(at, Cut(at, xs, w), CountedIn(counts, Cut(at, xs, w)), w);
    CountedCut(at, counts, xs, w);
  }

  ghost function Openings<A>(at: A -> int, groups: seq<seq<A>>, w: int): set<int>
    requires AreGroups(at, groups, w)
  {
    if groups == [] then {}
    else
      assert IsGroup(at, Last(groups), w);
      Openings(at, Front(groups), w) + {at(Last(groups)[0])}
  }

  lemma {:induction false} OpeningsAreFew<A>(at: A -> int, groups: seq<seq<A>>, w: int)
    requires AreGroups(at, groups, w)
    ensures |Openings(at, groups, w)| <= |groups|
  {
    if groups != [] {
      OpeningsAreFew(at, Front(groups), w);
    }
  }

  lemma {:induction false} GroupOf<A>(at: A -> int, groups: seq<seq<A>>, w: int, i: nat)
    requires AreGroups(at, groups, w) && (forall g | g in groups :: Ordered(at, g)) && i < |Flat(groups)|
    ensures exists s | s in Openings(at, groups, w) :: Within(s, at(Flat(groups)[i]), w)
  {
    var front, g := Flat(Front(groups)), Last(groups);
    assert IsGroup(at, g, w) && g in groups;
    if i < |front| {
      GroupOf(at, Front(groups), w, i);
      var s :| s in Openings(at, Front(groups), w) && Within(s, at(front[i]), w);
      assert s in Openings(at, groups, w);
    } else {
      assert Flat(groups)[i] == g[i - |front|];
      assert at(g[0]) <= at(g[i - |front|]);
      assert Within(at(g[0]), at(Flat(groups)[i]), w);
    }
  }

  lemma {:induction false} CountedOrdered<A>(at: A -> int, counts: A -> bool, xs: seq<A>)
    requires Ordered(at, xs)
    ensures Ordered(at, Counted(counts, xs))
  {
    if xs != [] {
      CountedOrdered(at, counts, Front(xs));
      CountedMembers(counts, Front(xs));
      var c := Counted(counts, Front(xs));
      forall i | 0 <= i < |c| ensures at(c[i]) <= at(Last(xs)) {
        var j :| 0 <= j < |Front(xs)| && Front(xs)[j] == c[i];
        assert xs[j] == c[i];
      }
    }
  }

  lemma OpeningsCoverAll<A>(at: A -> int, groups: seq<seq<A>>, w: int)
    requires AreGroups(at, groups, w) && Ordered(at, Flat(groups))
    ensures Covers(Openings(at, groups, w), Times(at, Flat(groups)), w)
  {
    GroupsAreOrdered(at, groups);
    var times, windows := Times(at, Flat(groups)), Openings(at, groups, w);
    forall t | t in times ensures exists s | s in windows :: Within(s, t, w) {
      var i :| 0 <= i < |times| && times[i] == t;
      GroupOf(at, groups, w, i);
    }
  }

  /** In any case there are at least as many as the budget counts: each is a window that covers its own. */
  lemma CountedNeedsNoMore<A>(at: A -> int, counts: A -> bool, xs: seq<A>, w: int)
    requires w > 0 && Ordered(at, xs)
    ensures |Starts(Times(at, Counted(counts, xs)), w)| <= |CountedIn(counts, Cut(at, xs, w))|
  {
    var groups, c := CountedIn(counts, Cut(at, xs, w)), Counted(counts, xs);
    assert AreGroups(at, groups, w) && Flat(groups) == c by {
      CutShape(at, xs, w);
      CountedFlat(counts, Cut(at, xs, w));
      GroupsAreOrdered(at, Cut(at, xs, w));
      CountedAreGroups(at, counts, Cut(at, xs, w), w);
    }
    CountedOrdered(at, counts, xs);
    OpeningsCoverAll(at, groups, w);
    NoCoverIsSmaller(Times(at, c), w, Openings(at, groups, w));
    OpeningsAreFew(at, groups, w);
  }
}
