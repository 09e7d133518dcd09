/**
Where the history may be cut (pkg/agent/context_budget.go:22-87), and the two places that cut it: the emergency
compression and the choice summarizeSession makes (pkg/agent/context_legacy.go:121-206).
*/
module Compaction {
  import opened History
  import opened Sanitizer

  // The places where a user speaks.
  function TurnStarts(h: seq<Message>): (starts: seq<nat>)
    ensures forall k | 0 <= k < |starts| :: starts[k] < |h| && h[starts[k]].role.User?
    ensures forall j, k | 0 <= j < k < |starts| :: starts[j] < starts[k]
    ensures starts != [] ==> HasUser(h)
    ensures forall i | 0 <= i < |h| && h[i].role.User? :: i in starts
  {
    if h == [] then []
    else
      var front := TurnStarts(h[..|h| - 1]);
      if h[|h| - 1].role.User? then front + [|h| - 1] else front
  }

  predicate HasUser(h: seq<Message>) {
    exists i | 0 <= i < |h| :: h[i].role.User?
  }

  // context_budget.go:35-40
  predicate IsSafeBoundary(h: seq<Message>, index: int) {
    index <= 0 || index >= |h| || h[index].role.User?
  }

  // The last turn that starts at or before target; -1 when there is none.
  predicate IsTurnBefore(h: seq<Message>, target: int, b: int) {
    && -1 <= b <= target && b < |h|
    && (b >= 0 ==> h[b].role.User?)
    && forall i | b < i <= target && i < |h| :: !h[i].role.User?
  }

  predicate IsTurnAfter(h: seq<Message>, target: int, b: int) {
    && target < b < |h| && b >= 0 && h[b].role.User?
    && forall i | target < i < b && i >= 0 :: !h[i].role.User?
  }

  // What findSafeBoundary returns for a target inside the history: the turn before it, unless that keeps everything;
  // else the turn after it; else, with no users at all, the target, and 0 for a history that is one turn.
  predicate IsCut(h: seq<Message>, target: int, cut: int)
    requires 0 < target < |h|
  {
    if !HasUser(h) then cut == target
    else
      || (cut > 0 && IsTurnBefore(h, target, cut))
      || (IsTurnAfter(h, target, cut) && forall i | 0 < i <= target :: !h[i].role.User?)
      || (cut == 0 && h[0].role.User? && forall i | 0 < i < |h| :: !h[i].role.User?)
  }

  predicate AreTurns(h: seq<Message>, turns: seq<nat>) {
    && (forall k | 0 <= k < |turns| :: turns[k] < |h| && h[turns[k]].role.User?)
    && (forall j, k | 0 <= j < k < |turns| :: turns[j] < turns[k])
    && (forall i | 0 <= i < |h| && h[i].role.User? :: i in turns)
  }

  // context_budget.go:22-30
  method ParseTurnBoundaries(h: seq<Message>) returns (starts: seq<nat>)
    ensures starts == TurnStarts(h)
  {
    starts := [];
    for i := 0 to |h|
      invariant starts == TurnStarts(h[..i])
    {
      assert h[..i + 1][..i] == h[..i];
      if h[i].role.User? {
        starts := starts + [i];
      }
    }
    assert h[..|h|] == h;
  }

  // context_budget.go:46-87
  method FindSafeBoundary(h: seq<Message>, target: int) returns (cut: int)
    ensures 0 <= cut <= |h|
    ensures target <= 0 ==> cut == 0
    ensures target >= |h| ==> cut == |h|
    ensures 0 < target < |h| ==> IsCut(h, target, cut)
    ensures HasUser(h) ==> IsSafeBoundary(h, cut)
  {
    if h == [] {
      return 0;
    }
    if target <= 0 {
      return 0;
    }
    if target >= |h| {
      return |h|;
    }
    var turns := ParseTurnBoundaries(h);
    if turns == [] {
      return target;
    }
    var backward := TurnBefore(h, turns, target);
    if backward > 0 {
      return backward;
    }
    cut := TurnAfter(h, turns, target);
    if cut < 0 {
      assert h[turns[0]].role.User?;
      return 0;
    }
  }

  // context_budget.go:64-69
  method TurnBefore(h: seq<Message>, turns: seq<nat>, target: nat) returns (backward: int)
    requires AreTurns(h, turns)
    ensures IsTurnBefore(h, target, backward)
  {
    backward := -1;
    for k := 0 to |turns|
      invariant -1 <= backward <= target && backward < |h|
      invariant backward >= 0 ==> h[backward].role.User?
      invariant forall j | 0 <= j < k && turns[j] <= target :: turns[j] <= backward
    {
      if turns[k] <= target {
        backward := turns[k];
      }
    }
    forall i | backward < i <= target && i < |h| ensures !h[i].role.User? {
      assert i !in turns;
    }
  }

  // context_budget.go:76-80; -1 when there is none
  method TurnAfter(h: seq<Message>, turns: seq<nat>, target: nat) returns (cut: int)
    requires AreTurns(h, turns)
    ensures cut >= 0 ==> IsTurnAfter(h, target, cut)
    ensures cut < 0 ==> forall i | target < i < |h| :: !h[i].role.User?
  {
    for k := 0 to |turns|
      invariant forall j | 0 <= j < k :: turns[j] <= target
    {
      if turns[k] > target {
        cut := turns[k];
        assert forall j | k < j < |turns| :: turns[j] > cut;
        forall i | target < i < cut ensures !h[i].role.User? {
          assert i !in turns;
        }
        return;
      }
    }
    return -1;
  }

  // ---- the emergency compression ------------------------------------------------------------------------------------

  // What is left of a history of more than two messages.
  ghost predicate IsCompressed(h: seq<Message>, kept: seq<Message>)
    requires |h| > 2
  {
    var turns := TurnStarts(h);
    if |turns| >= 2 then kept == h[turns[|turns| / 2]..]
    else if |turns| == 1 && turns[0] == 0 then kept == [h[0]]
    else exists mid | 0 < mid < |h| :: IsCut(h, |h| / 2, mid) && kept == h[mid..]
  }

  /**
  context_legacy.go:121-158. A history that is not compressed is left alone; what is kept of one that is starts where
  a user speaks, if one does.
  */
  method ForceCompress(h: seq<Message>) returns (kept: seq<Message>)
    ensures |h| <= 2 ==> kept == h
    ensures |h| > 2 ==> IsCompressed(h, kept)
  {
    if |h| <= 2 {
      return h;
    }
    var turns := ParseTurnBoundaries(h);
    var mid := 0;
    if |turns| >= 2 {
      mid := turns[|turns| / 2];
      assert turns[0] < mid;
    } else {
      mid := FindSafeBoundary(h, |h| / 2);
    }
    if mid <= 0 {
      kept := [];
      var i := |h|;
      while i > 0
        invariant 0 <= i <= |h| && kept == []
        invariant forall k | i <= k < |h| :: !h[k].role.User?
      {
        i := i - 1;
        if h[i].role.User? {
          kept := [h[i]];
          break;
        }
      }
      OneTurn(h);
    } else {
      kept := h[mid..];
      if |turns| == 1 { OneTurn(h); }
    }
  }

  lemma OneTurn(h: seq<Message>)
    requires |TurnStarts(h)| <= 1
    ensures forall i | 0 <= i < |h| :: h[i].role.User? <==> TurnStarts(h) == [i]
  {
    forall i | 0 <= i < |h| ensures h[i].role.User? <==> TurnStarts(h) == [i] {
      if TurnStarts(h) == [i] { assert TurnStarts(h)[0] == i; }
    }
  }

  /** Compression makes progress and keeps something; it keeps a whole number of turns, or the one user message. */
  lemma CompressionShrinks(h: seq<Message>, kept: seq<Message>)
    requires |h| > 2 && IsCompressed(h, kept)
    ensures 0 < |kept| < |h|
    ensures HasUser(h) ==> kept[0].role.User?
  {
    var turns := TurnStarts(h);
    if |turns| >= 2 {
      var k := |turns| / 2;
      assert turns[0] < turns[k];
    } else if |turns| == 1 {
      OneTurn(h);
    }
  }

  /** What is kept of a conversation the providers accept is one they accept, as long as a user speaks in it. */
  lemma CompressionKeepsGrammar(h: seq<Message>, kept: seq<Message>)
    requires |h| > 2 && IsCompressed(h, kept) && WellFormed(h) && HasUser(h)
    ensures WellFormed(kept)
  {
    var turns := TurnStarts(h);
    if |turns| >= 2 {
      CutAtUser(h, turns[|turns| / 2]);
    } else if |turns| == 1 && turns[0] == 0 {
      assert WellFormed([h[0]]);
    } else {
      OneTurn(h);
      var mid :| 0 < mid < |h| && IsCut(h, |h| / 2, mid) && kept == h[mid..];
      CutAtUser(h, mid);
    }
  }

  /** Without a user the cut can fall before an assistant text; then, and only then, what is kept is not well-formed. */
  lemma CompressionWithoutUsers(h: seq<Message>, kept: seq<Message>)
    requires |h| > 2 && IsCompressed(h, kept) && WellFormed(h) && !HasUser(h)
    ensures kept == h[|h| / 2..]
    ensures WellFormed(kept) <==> !h[|h| / 2].role.Assistant?
  {
    NoTurns(h);
    RegularWithoutUsers(h, |h| / 2);
  }

  lemma RegularWithoutUsers(h: seq<Message>, mid: nat)
    requires WellFormed(h) && !HasUser(h) && mid < |h|
    ensures Regular(h[mid..]) && !h[mid].role.Tool?
  {
    NoCallsWithoutUsers(h, |h|);
    var kept := h[mid..];
    forall i | 0 <= i < |kept| ensures FitsAt(kept, i) {
      assert FitsAt(h, mid + i) && kept[i] == h[mid + i];
      if i > 0 { assert kept[i - 1] == h[mid + i - 1]; }
    }
  }

  function Said(role: Role): Message {
    Message(role, "", [], "", "", [], "")
  }

  /** Such a history: what is kept begins with the assistant. */
  lemma NobodySpeaks()
    ensures var h := [Said(Other("note")), Said(Assistant), Said(Other("note"))];
            WellFormed(h) && IsCompressed(h, h[1..]) && !WellFormed(h[1..])
  {
    var h := [Said(Other("note")), Said(Assistant), Said(Other("note"))];
    NoTurns(h);
    assert IsCut(h, 1, 1);
    assert h[1..][0] == Said(Assistant);
  }

  lemma NoTurns(h: seq<Message>)
    requires !HasUser(h)
    ensures TurnStarts(h) == []
  {
  }

  lemma {:induction false} NoCallsWithoutUsers(h: seq<Message>, n: nat)
    requires WellFormed(h) && !HasUser(h) && n <= |h|
    ensures forall i | 0 <= i < n :: !IsCall(h[i]) && !h[i].role.Tool?
  {
    if n > 0 {
      NoCallsWithoutUsers(h, n - 1);
      assert FitsAt(h, n - 1);
    }
  }

  // A chain of histories, each compressed from the one before.
  ghost predicate Compressions(hs: seq<seq<Message>>) {
    forall k | 0 < k < |hs| :: CompressedAt(hs, k)
  }

  ghost predicate CompressedAt(hs: seq<seq<Message>>, k: nat)
    requires 0 < k < |hs|
  {
    |hs[k - 1]| > 2 && IsCompressed(hs[k - 1], hs[k])
  }

  /** Repeating the compression ends: after k of them at least k messages are gone. */
  lemma {:induction false} CompressingEnds(hs: seq<seq<Message>>, k: nat)
    requires Compressions(hs) && k < |hs|
    ensures |hs[k]| + k <= |hs[0]|
    ensures k > 0 ==> hs[k] != []
  {
    if k > 0 {
      CompressingEnds(hs, k - 1);
      assert CompressedAt(hs, k);
      CompressionShrinks(hs[k - 1], hs[k]);
    }
  }

  // ---- the summary's cut ----------------------------------------------------------------------------------------

  // context_legacy.go:194-204: how many of the last messages stay; None when there is nothing to summarize.
  method SummaryCut(h: seq<Message>) returns (cut: nat)
    ensures if |h| <= 4 then cut == 0 else cut < |h| && IsCut(h, |h| - 4, cut)
    ensures cut > 0 && HasUser(h) && WellFormed(h) ==> WellFormed(h[..cut]) && WellFormed(h[cut..])
  {
    if |h| <= 4 {
      return 0;
    }
    cut := FindSafeBoundary(h, |h| - 4);
    if cut > 0 && HasUser(h) && WellFormed(h) {
      CutAtUser(h, cut);
    }
  }
}
