/**
The budget's view of grouping (pkg/attention/store.go:309-365): how many messages the decisions in flight will become.
It is the least number of windows that cover their times, and so what can change it, and by how much, is known.
*/
module Windows {
  function Last<T>(s: seq<T>): T
    requires s != []
  {
    s[|s| - 1]
  }

  function Front<T>(s: seq<T>): seq<T>
    requires s != []
  {
    s[..|s| - 1]
  }

  ghost predicate Sorted(times: seq<int>) {
    forall i, j | 0 <= i < j < |times| :: times[i] <= times[j]
  }

  // The times at which a message opens.
  function Starts(times: seq<int>, w: int): seq<int> {
    if times == [] then
      []
    else
      var rest := Starts(Front(times), w);
      if rest == [] || w <= 0 || Last(times) - Last(rest) >= w then rest + [Last(times)] else rest
  }

  // How many decisions go into each message.
  function Sizes(times: seq<int>, w: int): (sizes: seq<nat>)
    ensures |sizes| == |Starts(times, w)|
  {
    if times == [] then
      []
    else
      var starts, sizes := Starts(Front(times), w), Sizes(Front(times), w);
      if starts == [] || w <= 0 || Last(times) - Last(starts) >= w then sizes + [1]
      else sizes[|sizes| - 1 := Last(sizes) + 1]
  }

  // A set of window openings covers the times when each time lies in a window of length w opened by it.
  ghost predicate Covers(windows: set<int>, times: seq<int>, w: int) {
    forall t | t in times :: exists s | s in windows :: Within(s, t, w)
  }

  predicate Within(s: int, t: int, w: int) {
    s <= t < s + w
  }

  // ---- shape of the openings ------------------------------------------------------------------------

  lemma {:induction false} StartsShape(times: seq<int>, w: int)
    requires Sorted(times)
    ensures Starts(times, w) == [] <==> times == []
    ensures forall s | s in Starts(times, w) :: s in times
    ensures w <= 0 ==> Starts(times, w) == times
    ensures w > 0 ==> forall i, j | 0 <= i < j < |Starts(times, w)| :: Starts(times, w)[j] - Starts(times, w)[i] >= w
  {
    if times != [] {
      assert times == Front(times) + [Last(times)];
      StartsShape(Front(times), w);
    }
  }

  // The opening whose window holds times[i].
  ghost function OpeningFor(times: seq<int>, w: int, i: nat): (s: int)
    requires w > 0 && Sorted(times) && i < |times|
    ensures s in Starts(times, w) && Within(s, times[i], w)
  {
    StartsShape(Front(times), w);
    var rest := Starts(Front(times), w);
    if i < |times| - 1 then
      OpeningFor(Front(times), w, i)
    else if rest == [] || Last(times) - Last(rest) >= w then
      Last(times)
    else
      assert Last(rest) in Front(times);
      Last(rest)
  }

  // Openings a full window apart need a window each.
  lemma {:induction false} SpacedNeedOneEach(starts: seq<int>, windows: set<int>, w: int)
    requires w > 0
    requires forall i, j | 0 <= i < j < |starts| :: starts[j] - starts[i] >= w
    requires Covers(windows, starts, w)
    ensures |starts| <= |windows|
  {
    if starts != [] {
      var n := |starts| - 1;
      var x := starts[n];
      assert x in starts;
      var s :| s in windows && Within(s, x, w);
      forall t | t in Front(starts) ensures exists s' | s' in windows - {s} :: Within(s', t, w) {
        var i :| 0 <= i < n && starts[i] == t;
        assert starts[n] - starts[i] >= w;
        assert t in starts;
        var s' :| s' in windows && Within(s', t, w);
        assert s' in windows - {s};
      }
      SpacedNeedOneEach(Front(starts), windows - {s}, w);
    }
  }

  ghost function AsSet(s: seq<int>): set<int> {
    set x | x in s
  }

  lemma {:induction false} AsSetNoLarger(s: seq<int>)
    ensures |AsSet(s)| <= |s|
  {
    if s != [] {
      AsSetNoLarger(Front(s));
      assert s == Front(s) + [Last(s)];
      assert AsSet(s) == AsSet(Front(s)) + {Last(s)};
    }
  }

  /** No cover is smaller than the greedy count. */
  lemma NoCoverIsSmaller(times: seq<int>, w: int, windows: set<int>)
    requires w > 0 && Sorted(times) && Covers(windows, times, w)
    ensures |Starts(times, w)| <= |windows|
  {
    StartsShape(times, w);
    SpacedNeedOneEach(Starts(times, w), windows, w);
  }

  /** The greedy openings are themselves a cover of that size. */
  lemma OpeningsCover(times: seq<int>, w: int)
    requires w > 0 && Sorted(times)
    ensures Covers(AsSet(Starts(times, w)), times, w)
    ensures |AsSet(Starts(times, w))| == |Starts(times, w)|
  {
    var own := AsSet(Starts(times, w));
    forall t | t in times ensures exists s | s in own :: Within(s, t, w) {
      var i :| 0 <= i < |times| && times[i] == t;
      var s := OpeningFor(times, w, i);
      assert s in own && Within(s, t, w);
    }
    NoCoverIsSmaller(times, w, own);
    AsSetNoLarger(Starts(times, w));
  }

  /** Releasing decisions, or letting their lease lapse, never raises the count. */
  lemma FewerDecisionsNeverRaise(fewer: seq<int>, times: seq<int>, w: int)
    requires w > 0 && Sorted(fewer) && Sorted(times)
    requires forall t | t in fewer :: t in times
    ensures |Starts(fewer, w)| <= |Starts(times, w)|
  {
    OpeningsCover(times, w);
    NoCoverIsSmaller(fewer, w, AsSet(Starts(times, w)));
  }

  // Times of which no two fit into one window.
  ghost predicate Spaced(times: seq<int>, w: int) {
    forall i, j | 0 <= i < j < |times| :: times[j] - times[i] >= w
  }

  /**
  Fewer times need as many windows if and only if as many of them lie a window apart as there were openings.
  */
  lemma AsManyNeeded(fewer: seq<int>, times: seq<int>, w: int)
    requires w > 0 && Sorted(fewer) && Sorted(times)
    requires forall t | t in fewer :: t in times
    ensures |Starts(fewer, w)| == |Starts(times, w)| <==>
              exists spaced: seq<int> | |spaced| == |Starts(times, w)| :: Spaced(spaced, w) && forall t | t in spaced :: t in fewer
  {
    FewerDecisionsNeverRaise(fewer, times, w);
    StartsShape(fewer, w);
    if spaced: seq<int> :| |spaced| == |Starts(times, w)| && Spaced(spaced, w) && forall t | t in spaced :: t in fewer {
      OpeningsCover(fewer, w);
      SpacedNeedOneEach(spaced, AsSet(Starts(fewer, w)), w);
    }
    assert Spaced(Starts(fewer, w), w);
  }

  // store.go:349, the condition under which a candidate decided now joins the newest pending message.
  predicate JoinsPending(times: seq<int>, w: int, now: int) {
    var starts := Starts(times, w);
    starts != [] && w > 0 && now - Last(starts) < w
  }

  /** One more decision costs one message, or none exactly when it joins the one still open. */
  lemma AppendCost(times: seq<int>, w: int, now: int)
    ensures |Starts(times + [now], w)| == |Starts(times, w)| + if JoinsPending(times, w, now) then 0 else 1
    ensures Last(Starts(times + [now], w)) == if JoinsPending(times, w, now) then Last(Starts(times, w)) else now
  {
    assert Front(times + [now]) == times;
  }

  /** A message opened by the first decision, sent: the rest need exactly one message less. */
  lemma {:induction false} FirstGroupSent(times: seq<int>, w: int, k: nat)
    requires 0 < |times| && k <= |times|
    requires w > 0 && Sorted(times)
    requires forall i | 0 <= i < k :: times[i] - times[0] < w
    requires k < |times| ==> times[k] - times[0] >= w
    ensures |Starts(times[k..], w)| + 1 == |Starts(times, w)|
    ensures k < |times| ==> Starts(times, w) == [times[0]] + Starts(times[k..], w)
    ensures k == |times| ==> Starts(times, w) == [times[0]]
    decreases |times|
  {
    var prefix, at := Front(times), Last(times);
    if |times| == 1 {
      assert times == prefix + [at];
      assert Starts(prefix, w) == [];
      assert Starts(times, w) == [at];
    } else {
      var k' := if k == |times| then k - 1 else k;
      FirstGroupSent(prefix, w, k');
      if k < |times| {
        assert Front(times[k..]) == prefix[k..];
        assert Last(times[k..]) == at;
        if k == |prefix| {
          assert times[k..] == [at];
          assert Starts(times[k..], w) == [at] by { assert Front([at]) == []; }
        } else {
          assert Starts(prefix, w) == [times[0]] + Starts(prefix[k..], w);
        }
      }
    }
  }

  /** pendingMessages (store.go:357-365): no cover of ascending times is smaller, and the last opening. */
  method PendingMessages(atMs: seq<int>, windowMs: int) returns (n: nat, lastStart: int)
    ensures n == |Starts(atMs, windowMs)|
    ensures lastStart == if n == 0 then 0 else Last(Starts(atMs, windowMs))
    ensures windowMs <= 0 && Sorted(atMs) ==> n == |atMs|
    ensures windowMs > 0 && Sorted(atMs) ==> forall c | Covers(c, atMs, windowMs) :: n <= |c|
  {
    n, lastStart := 0, 0;
    for i := 0 to |atMs|
      invariant n == |Starts(atMs[..i], windowMs)|
      invariant lastStart == if n == 0 then 0 else Last(Starts(atMs[..i], windowMs))
      invariant n == 0 <==> i == 0
    {
      var at := atMs[i];
      assert Front(atMs[..i + 1]) == atMs[..i];
      if i == 0 || windowMs <= 0 || at - lastStart >= windowMs {
        n := n + 1;
        lastStart := at;
      }
    }
    assert atMs[..|atMs|] == atMs;
    if Sorted(atMs) {
      StartsShape(atMs, windowMs);
      if windowMs > 0 {
        forall c | Covers(c, atMs, windowMs) ensures n <= |c| {
          NoCoverIsSmaller(atMs, windowMs, c);
        }
      }
    }
  }
}
