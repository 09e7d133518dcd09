/**
sanitizeHistoryForProvider (pkg/agent/context.go:551-753): two passes and an opening. The functions say what each
pass computes, and the theorems are about them; SanitizerLoops has the loops of the source.
*/
module Sanitizer {
  import opened History

  // ---- the first pass ---------------------------------------------------------------------------------------------

  // Whether the last message of s that is not a tool result is an assistant message with tool calls.
  predicate AfterCall(s: seq<Message>) {
    s != [] && (var m := s[|s| - 1]; if m.role.Tool? then AfterCall(s[..|s| - 1]) else IsCall(m))
  }

  predicate Admits(s: seq<Message>, m: Message) {
    match m.role
    case System => false
    case Tool => AfterCall(s)
    case Assistant => m.calls == [] || (s != [] && (s[|s| - 1].role.User? || s[|s| - 1].role.Tool?))
    case _ => true
  }

  function Admitted(h: seq<Message>): (s: seq<Message>)
    ensures |s| <= |h|
  {
    if h == [] then []
    else
      var s, m := Admitted(h[..|h| - 1]), h[|h| - 1];
      if Admits(s, m) then s + [m] else s
  }

  // ---- the second pass --------------------------------------------------------------------------------------------

  // The results of run that answer a call, the first of each.
  function Block(ids: set<string>, run: seq<Message>): seq<Message> {
    if run == [] then []
    else
      var block, m := Block(ids, run[..|run| - 1]), run[|run| - 1];
      if m.callId in ids && !Answered(m.callId, block) then block + [m] else block
  }

  predicate Complete(m: Message, block: seq<Message>) {
    !HasEmptyId(m) && forall id | id in Ids(m) :: Answered(id, block)
  }

  // context.go:745-753
  function Join(a: string, b: string): string {
    if a == "" then b else if b == "" then a else a + "\n\n" + b
  }

  // context.go:739-743
  function Merge(a: Message, b: Message): Message {
    a.(content := Join(a.content, b.content), reasoning := Join(a.reasoning, b.reasoning))
  }

  function Put(final: seq<Message>, m: Message): seq<Message> {
    if final != [] && Mergeable(final[|final| - 1]) && Mergeable(m) then
      final[|final| - 1 := Merge(final[|final| - 1], m)]
    else final + [m]
  }

  // The first message after i that is not a tool result.
  function RunEnd(s: seq<Message>, i: nat): (j: nat)
    requires i < |s|
    ensures i < j <= |s|
  {
    i + 1 + RunLength(s, i + 1)
  }

  // A call is kept with the block that answers it, or dropped with its results.
  function PutCall(final: seq<Message>, s: seq<Message>, i: nat): seq<Message>
    requires i < |s|
  {
    var block := Block(Ids(s[i]), s[i + 1..RunEnd(s, i)]);
    if Complete(s[i], block) then final + [s[i]] + block else final
  }

  // The rest of the second pass, from message i of s on.
  function Paired(final: seq<Message>, s: seq<Message>, i: nat): seq<Message>
    requires i <= |s|
    decreases |s| - i
  {
    if i == |s| then final
    else if IsCall(s[i]) then Paired(PutCall(final, s, i), s, RunEnd(s, i))
    else if s[i].role.Tool? then Paired(final, s, i + 1)
    else Paired(Put(final, s[i]), s, i + 1)
  }

  // context.go:717-726
  function Opened(final: seq<Message>): seq<Message> {
    if final != [] && final[0].role.Assistant? && final[0].calls == [] then [PLACEHOLDER] + final else final
  }

  function Sanitize(h: seq<Message>): seq<Message> {
    Opened(Paired([], Admitted(h), 0))
  }

  // ---- what the first pass establishes ---------------------------------------------------------------------------

  predicate PlaceAt(s: seq<Message>, i: nat)
    requires i < |s|
  {
    && !s[i].role.System?
    && (IsCall(s[i]) ==> i > 0 && (s[i - 1].role.User? || s[i - 1].role.Tool?))
    && ToolAt(s, i)
  }

  predicate Placed(s: seq<Message>) {
    forall i | 0 <= i < |s| :: PlaceAt(s, i)
  }

  lemma PlacedAdmits(s: seq<Message>, m: Message)
    requires Placed(s)
    ensures Admits(s, m) <==> Placed(s + [m])
  {
    var t := s + [m];
    AfterCallIsLast(s);
    if Admits(s, m) {
      forall i | 0 <= i < |t| ensures PlaceAt(t, i) {
        assert i < |s| ==> PlaceAt(s, i);
      }
    } else {
      assert !PlaceAt(t, |s|);
    }
  }

  lemma {:induction false} AfterCallIsLast(s: seq<Message>)
    requires Placed(s)
    ensures AfterCall(s) <==> s != [] && (s[|s| - 1].role.Tool? || IsCall(s[|s| - 1]))
  {
    if s != [] && s[|s| - 1].role.Tool? {
      assert PlaceAt(s, |s| - 1);
      PlacedFront(s, |s| - 1);
      AfterCallIsLast(s[..|s| - 1]);
    }
  }

  lemma PlacedFront(s: seq<Message>, n: nat)
    requires Placed(s) && n <= |s|
    ensures Placed(s[..n])
  {
    forall i | 0 <= i < n ensures PlaceAt(s[..n], i) {
      assert PlaceAt(s, i);
    }
  }

  lemma {:induction false} AdmittedIsPlaced(h: seq<Message>)
    ensures Placed(Admitted(h))
  {
    if h != [] {
      AdmittedIsPlaced(h[..|h| - 1]);
      PlacedAdmits(Admitted(h[..|h| - 1]), h[|h| - 1]);
    }
  }

  lemma {:induction false} PlacedIsAdmitted(h: seq<Message>)
    requires Placed(h)
    ensures Admitted(h) == h
  {
    if h != [] {
      PlacedFront(h, |h| - 1);
      PlacedIsAdmitted(h[..|h| - 1]);
      assert h == h[..|h| - 1] + [h[|h| - 1]];
      PlacedAdmits(h[..|h| - 1], h[|h| - 1]);
    }
  }

  // ---- blocks -----------------------------------------------------------------------------------------------------

  // Results of calls among ids, at most one each.
  predicate Results(ids: set<string>, b: seq<Message>) {
    && (forall k | 0 <= k < |b| :: b[k].role.Tool? && b[k].callId in ids)
    && (forall j, k | 0 <= j < k < |b| :: b[j].callId != b[k].callId)
  }

  lemma {:induction false} BlockAnswers(ids: set<string>, run: seq<Message>)
    requires forall k | 0 <= k < |run| :: run[k].role.Tool?
    ensures Results(ids, Block(ids, run))
  {
    if run != [] {
      var block, m := Block(ids, run[..|run| - 1]), run[|run| - 1];
      BlockAnswers(ids, run[..|run| - 1]);
      if m.callId in ids && !Answered(m.callId, block) {
        assert Results(ids, block + [m]);
      }
    }
  }

  lemma {:induction false} AnsweringRunIsBlock(ids: set<string>, run: seq<Message>, n: nat)
    requires Answers(ids, run) && n <= |run|
    ensures Block(ids, run[..n]) == run[..n]
  {
    if n > 0 {
      AnsweringRunIsBlock(ids, run, n - 1);
      assert run[..n][..n - 1] == run[..n - 1];
      assert run[..n] == run[..n - 1] + [run[n - 1]];
    }
  }

  // ---- what the second pass establishes ----------------------------------------------------------------------------

  lemma PutRegular(final: seq<Message>, m: Message)
    requires Regular(final) && !IsCall(m) && !m.role.Tool? && !m.role.System?
    ensures Regular(Put(final, m)) && Put(final, m) != []
    ensures Put(final, m)[|Put(final, m)| - 1].role == m.role
  {
    if final != [] && Mergeable(final[|final| - 1]) && Mergeable(m) {
      ReplaceRegular(final, Merge(final[|final| - 1], m));
    } else {
      AppendRegular(final, [m]);
    }
  }

  // The last message can be replaced by another plain one of the same kind.
  lemma ReplaceRegular(final: seq<Message>, m: Message)
    requires Regular(final) && final != [] && Mergeable(final[|final| - 1]) && Mergeable(m)
    ensures Regular(final[|final| - 1 := m])
  {
    var front, last := final[..|final| - 1], final[|final| - 1];
    var t := final[|final| - 1 := m];
    assert final == front + [last] && t == front + [m];
    forall i | 0 <= i < |t| ensures FitsAt(t, i) {
      assert FitsAt(final, i);
      if i < |front| {
        CallBefore(front, [last], i);
        CallBefore(front, [m], i);
      }
    }
  }

  // t is a message that is not a tool result, with its results if it is a call.
  lemma AppendRegular(final: seq<Message>, t: seq<Message>)
    requires Regular(final) && t != [] && !t[0].role.Tool? && !t[0].role.System?
    requires forall k | 0 < k < |t| :: t[k].role.Tool?
    requires final != [] && Mergeable(final[|final| - 1]) ==> !Mergeable(t[0])
    requires |t| > 1 ==> IsCall(t[0])
    requires IsCall(t[0]) ==>
               && final != [] && (final[|final| - 1].role.User? || final[|final| - 1].role.Tool?)
               && !HasEmptyId(t[0]) && Answers(Ids(t[0]), t[1..])
    ensures Regular(final + t)
  {
    var h := final + t;
    forall i | 0 <= i < |h| ensures FitsAt(h, i) {
      if i < |final| {
        CallBefore(final, t, i);
        assert FitsAt(final, i);
      } else if i == |final| {
        RunAfter(final, t, 1);
        RunAll(t, 1);
        assert h[i + 1..i + 1 + (|t| - 1)] == t[1..];
      }
    }
  }

  // Where the second pass is: it has a regular result, and a call that comes next follows a user or a result in it.
  predicate Going(final: seq<Message>, s: seq<Message>, i: nat)
    requires i <= |s|
  {
    && Regular(final)
    && (final != [] ==> !final[0].role.Tool? && !IsCall(final[0]))
    && (i < |s| ==> !s[i].role.Tool?)
    && (i < |s| && IsCall(s[i]) ==> final != [] && (final[|final| - 1].role.User? || final[|final| - 1].role.Tool?))
  }

  lemma PutCallRegular(final: seq<Message>, s: seq<Message>, i: nat)
    requires Placed(s) && i < |s| && IsCall(s[i]) && Going(final, s, i)
    ensures var t := PutCall(final, s, i);
            Regular(t) && t != [] && t[0] == final[0] && (t[|t| - 1] == final[|final| - 1] || t[|t| - 1].role.Tool?)
  {
    var block := Block(Ids(s[i]), s[i + 1..RunEnd(s, i)]);
    BlockAnswers(Ids(s[i]), s[i + 1..RunEnd(s, i)]);
    if Complete(s[i], block) {
      assert final + [s[i]] + block == final + ([s[i]] + block) && ([s[i]] + block)[1..] == block;
      assert s[i].calls[0] in s[i].calls && s[i].calls[0].id in Ids(s[i]);
      assert Answered(s[i].calls[0].id, block);
      AppendRegular(final, [s[i]] + block);
    }
  }

  lemma GoingOverCall(final: seq<Message>, s: seq<Message>, i: nat)
    requires Placed(s) && i < |s| && IsCall(s[i]) && Going(final, s, i)
    ensures Going(PutCall(final, s, i), s, RunEnd(s, i))
  {
    PutCallRegular(final, s, i);
    var j := RunEnd(s, i);
    if j < |s| && IsCall(s[j]) {
      assert PlaceAt(s, j);
    }
  }

  lemma GoingOverOther(final: seq<Message>, s: seq<Message>, i: nat)
    requires Placed(s) && i < |s| && !IsCall(s[i]) && Going(final, s, i)
    ensures Going(Put(final, s[i]), s, i + 1)
  {
    assert PlaceAt(s, i) && (i + 1 < |s| ==> PlaceAt(s, i + 1));
    PutRegular(final, s[i]);
  }

  lemma {:induction false} PairedRegular(final: seq<Message>, s: seq<Message>, i: nat)
    requires Placed(s) && i <= |s| && Going(final, s, i)
    ensures Going(Paired(final, s, i), s, |s|)
    decreases |s| - i
  {
    if i < |s| {
      if IsCall(s[i]) {
        GoingOverCall(final, s, i);
        PairedRegular(PutCall(final, s, i), s, RunEnd(s, i));
      } else {
        GoingOverOther(final, s, i);
        PairedRegular(Put(final, s[i]), s, i + 1);
      }
    }
  }

  lemma StartsGoing(h: seq<Message>)
    ensures Placed(Admitted(h)) && Going([], Admitted(h), 0)
  {
    AdmittedIsPlaced(h);
    if Admitted(h) != [] { assert PlaceAt(Admitted(h), 0); }
  }

  /** Whatever the history, what the provider gets is well-formed. */
  lemma SanitizedIsWellFormed(h: seq<Message>)
    ensures WellFormed(Sanitize(h))
  {
    StartsGoing(h);
    var final := Paired([], Admitted(h), 0);
    PairedRegular([], Admitted(h), 0);
    if Opened(final) != final {
      var t := [PLACEHOLDER] + final;
      forall i | 0 <= i < |t| ensures FitsAt(t, i) {
        if i > 0 {
          if i > 1 { CallAfter([PLACEHOLDER], final, i - 1); }
          assert FitsAt(final, i - 1);
        }
      }
    }
  }

  // ---- the fixed points ---------------------------------------------------------------------------------------------

  lemma WellFormedIsPlaced(h: seq<Message>)
    requires WellFormed(h)
    ensures Placed(h)
  {
    forall i | 0 <= i < |h| ensures PlaceAt(h, i) {
      assert FitsAt(h, i);
    }
  }

  lemma PutCallCopies(h: seq<Message>, i: nat)
    requires Regular(h) && i < |h| && IsCall(h[i])
    ensures PutCall(h[..i], h, i) == h[..RunEnd(h, i)]
  {
    assert FitsAt(h, i);
    var run := h[i + 1..RunEnd(h, i)];
    AnsweringRunIsBlock(Ids(h[i]), run, |run|);
    assert run[..|run|] == run;
    assert h[..i] + [h[i]] + run == h[..RunEnd(h, i)];
  }

  // Over a regular history the second pass copies.
  lemma {:induction false} PairedCopies(h: seq<Message>, i: nat)
    requires Regular(h) && i <= |h| && (i < |h| ==> !h[i].role.Tool?)
    ensures Paired(h[..i], h, i) == h
    decreases |h| - i
  {
    if i == |h| {
      assert h[..i] == h;
    } else if IsCall(h[i]) {
      PutCallCopies(h, i);
      PairedCopies(h, RunEnd(h, i));
    } else {
      assert FitsAt(h, i) && (i + 1 < |h| ==> FitsAt(h, i + 1));
      assert h[..i] + [h[i]] == h[..i + 1];
      PairedCopies(h, i + 1);
    }
  }

  /** A history is left as it is exactly when it is well-formed. */
  lemma FixedPointsAreWellFormed(h: seq<Message>)
    ensures Sanitize(h) == h <==> WellFormed(h)
  {
    if Sanitize(h) == h {
      SanitizedIsWellFormed(h);
    }
    if WellFormed(h) {
      WellFormedIsPlaced(h);
      PlacedIsAdmitted(h);
      assert h[..0] == [];
      PairedCopies(h, 0);
    }
  }

  lemma SanitizeIsIdempotent(h: seq<Message>)
    ensures Sanitize(Sanitize(h)) == Sanitize(h)
  {
    SanitizedIsWellFormed(h);
    FixedPointsAreWellFormed(Sanitize(h));
  }

  // ---- what survives ------------------------------------------------------------------------------------------------

  // What is said: neither a system message, nor a tool result, nor a message that calls tools.
  predicate Spoken(m: Message) {
    !m.role.System? && !m.role.Tool? && !IsCall(m)
  }

  // What is said in h after o, with neighbouring assistant texts put together.
  function Outline(o: seq<Message>, h: seq<Message>): seq<Message> {
    if h == [] then o
    else
      var o', m := Outline(o, h[..|h| - 1]), h[|h| - 1];
      if Spoken(m) then Put(o', m) else o'
  }

  // The first thing said in h is said by the assistant.
  predicate OpensWithAssistant(h: seq<Message>) {
    exists i | 0 <= i < |h| :: FirstSpoken(h, i) && h[i].role.Assistant?
  }

  predicate FirstSpoken(h: seq<Message>, i: nat)
    requires i < |h|
  {
    Spoken(h[i]) && forall j | 0 <= j < i :: !Spoken(h[j])
  }

  lemma {:induction false} OutlineConcat(o: seq<Message>, a: seq<Message>, b: seq<Message>)
    ensures Outline(o, a + b) == Outline(Outline(o, a), b)
  {
    if b == [] {
      assert a + b == a;
    } else {
      OutlineConcat(o, a, b[..|b| - 1]);
      assert (a + b)[..|a + b| - 1] == a + b[..|b| - 1];
    }
  }

  lemma {:induction false} OutlineSilent(o: seq<Message>, h: seq<Message>)
    requires forall m | m in h :: !Spoken(m)
    ensures Outline(o, h) == o
  {
    if h != [] {
      OutlineSilent(o, h[..|h| - 1]);
      assert h[|h| - 1] in h;
    }
  }

  lemma JoinIsAssociative(a: string, b: string, c: string)
    ensures Join(Join(a, b), c) == Join(a, Join(b, c))
  {
    assert (a + "\n\n" + b) + "\n\n" + c == a + "\n\n" + (b + "\n\n" + c);
  }

  // Two texts put one after the other are the two put together.
  lemma PutTwice(o: seq<Message>, a: Message, m: Message)
    requires Mergeable(a) && Mergeable(m)
    ensures Put(Put(o, a), m) == Put(o, Merge(a, m))
  {
    if o != [] && Mergeable(o[|o| - 1]) {
      var l := o[|o| - 1];
      JoinIsAssociative(l.content, a.content, m.content);
      JoinIsAssociative(l.reasoning, a.reasoning, m.reasoning);
    } else {
      assert Put(o, a) == o + [a];
    }
  }

  lemma OutlinePut(final: seq<Message>, m: Message)
    requires Spoken(m)
    ensures Outline([], Put(final, m)) == Put(Outline([], final), m)
  {
    if final != [] && Mergeable(final[|final| - 1]) && Mergeable(m) {
      var front, a := final[..|final| - 1], final[|final| - 1];
      assert Put(final, m)[..|final| - 1] == front;
      PutTwice(Outline([], front), a, m);
    } else {
      assert (final + [m])[..|final|] == final;
    }
  }

  lemma {:induction false} AdmittedOutline(h: seq<Message>)
    ensures Outline([], Admitted(h)) == Outline([], h)
  {
    if h != [] {
      var s, m := Admitted(h[..|h| - 1]), h[|h| - 1];
      AdmittedOutline(h[..|h| - 1]);
      assert (s + [m])[..|s|] == s;
    }
  }

  lemma {:induction false} BlockIsSilent(ids: set<string>, run: seq<Message>)
    requires forall m | m in run :: !Spoken(m)
    ensures forall m | m in Block(ids, run) :: !Spoken(m)
  {
    if run != [] {
      BlockIsSilent(ids, run[..|run| - 1]);
      assert run[|run| - 1] in run;
    }
  }

  lemma OutlinePutCall(final: seq<Message>, s: seq<Message>, i: nat)
    requires i < |s| && IsCall(s[i])
    ensures Outline([], PutCall(final, s, i)) == Outline([], final)
    ensures Outline(Outline([], final), s[i..]) == Outline(Outline([], final), s[RunEnd(s, i)..])
  {
    var j := RunEnd(s, i);
    var run := s[i + 1..j];
    var block := Block(Ids(s[i]), run);
    BlockIsSilent(Ids(s[i]), run);
    assert final + [s[i]] + block == final + ([s[i]] + block);
    OutlineConcat([], final, [s[i]] + block);
    OutlineSilent(Outline([], final), [s[i]] + block);
    assert s[i..] == s[i..j] + s[j..];
    OutlineConcat(Outline([], final), s[i..j], s[j..]);
    OutlineSilent(Outline([], final), s[i..j]);
  }

  lemma OutlineHead(o: seq<Message>, t: seq<Message>)
    requires t != []
    ensures Outline(o, t) == Outline(if Spoken(t[0]) then Put(o, t[0]) else o, t[1..])
  {
    assert t == [t[0]] + t[1..] && [t[0]][..0] == [];
    OutlineConcat(o, [t[0]], t[1..]);
  }

  lemma {:induction false} PairedOutline(final: seq<Message>, s: seq<Message>, i: nat)
    requires i <= |s|
    ensures Outline([], Paired(final, s, i)) == Outline(Outline([], final), s[i..])
    decreases |s| - i
  {
    if i < |s| {
      if IsCall(s[i]) {
        OutlinePutCall(final, s, i);
        PairedOutline(PutCall(final, s, i), s, RunEnd(s, i));
      } else {
        OutlineHead(Outline([], final), s[i..]);
        if s[i].role.Tool? {
          PairedOutline(final, s, i + 1);
        } else if Spoken(s[i]) {
          OutlinePut(final, s[i]);
          PairedOutline(Put(final, s[i]), s, i + 1);
        } else {
          SystemOutline(final, s[i]);
          PairedOutline(Put(final, s[i]), s, i + 1);
        }
      }
    }
  }

  lemma SystemOutline(final: seq<Message>, m: Message)
    requires m.role.System?
    ensures Outline([], Put(final, m)) == Outline([], final)
  {
    assert (final + [m])[..|final|] == final;
  }

  // ---- the opening -----------------------------------------------------------------------------------------------

  lemma {:induction false} AdmittedOpens(h: seq<Message>)
    ensures OpensWithAssistant(h) <==> Admitted(h) != [] && Admitted(h)[0].role.Assistant?
    ensures Admitted(h) == [] <==> forall m | m in h :: !Spoken(m)
  {
    if h != [] {
      var front, m := h[..|h| - 1], h[|h| - 1];
      AdmittedOpens(front);
      assert h == front + [m];
      assert forall i | 0 <= i < |front| :: FirstSpoken(h, i) <==> FirstSpoken(front, i);
      if Admitted(front) == [] {
        assert forall j | 0 <= j < |front| :: front[j] in front && !Spoken(h[j]);
        assert FirstSpoken(h, |front|) <==> Spoken(m);
      } else {
        var k :| 0 <= k < |front| && Spoken(front[k]);
        assert !FirstSpoken(h, |front|);
      }
    }
  }

  // The first message of the result keeps its role, and stays without calls.
  lemma {:induction false} PairedFirst(final: seq<Message>, s: seq<Message>, i: nat)
    requires i <= |s| && final != []
    ensures var t := Paired(final, s, i); t != [] && t[0].role == final[0].role && t[0].calls == final[0].calls
    decreases |s| - i
  {
    if i < |s| {
      if IsCall(s[i]) {
        PairedFirst(PutCall(final, s, i), s, RunEnd(s, i));
      } else if s[i].role.Tool? {
        PairedFirst(final, s, i + 1);
      } else {
        PairedFirst(Put(final, s[i]), s, i + 1);
      }
    }
  }

  lemma OpeningIsForAssistants(h: seq<Message>)
    ensures var final := Paired([], Admitted(h), 0);
            Sanitize(h) == if OpensWithAssistant(h) then [PLACEHOLDER] + final else final
  {
    AdmittedOpens(h);
    AdmittedIsPlaced(h);
    var s := Admitted(h);
    if s != [] {
      assert PlaceAt(s, 0);
      PairedFirst(Put([], s[0]), s, 1);
    }
  }

  /**
  Nothing that was said is lost, added, or moved: up to putting neighbouring assistant texts together, the result says
  what the history says, after the opening if the assistant spoke first. Only system messages, tool calls and their
  results can go.
  */
  lemma WhatIsSaidSurvives(h: seq<Message>)
    ensures Outline([], Sanitize(h)) == Outline(if OpensWithAssistant(h) then [PLACEHOLDER] else [], h)
  {
    OpeningIsForAssistants(h);
    var s := Admitted(h);
    PairedOutline([], s, 0);
    AdmittedOutline(h);
    assert s[0..] == s;
    if OpensWithAssistant(h) {
      OutlineConcat([], [PLACEHOLDER], Paired([], s, 0));
      assert [PLACEHOLDER][..0] == [] && Outline([], [PLACEHOLDER]) == [PLACEHOLDER];
      OutlineAfter(PLACEHOLDER, Paired([], s, 0));
      OutlineAfter(PLACEHOLDER, h);
    }
  }

  // A message that is not an assistant text merges with nothing after it.
  lemma {:induction false} OutlineAfter(m: Message, h: seq<Message>)
    requires !Mergeable(m)
    ensures Outline([m], h) == [m] + Outline([], h)
  {
    if h != [] {
      OutlineAfter(m, h[..|h| - 1]);
      var o, l := Outline([], h[..|h| - 1]), h[|h| - 1];
      if Spoken(l) {
        assert Put([m] + o, l) == [m] + Put(o, l);
      }
    }
  }

  function Users(h: seq<Message>): seq<Message> {
    if h == [] then []
    else
      var front, m := Users(h[..|h| - 1]), h[|h| - 1];
      if m.role.User? then front + [m] else front
  }

  lemma {:induction false} UsersOfOutline(o: seq<Message>, h: seq<Message>)
    ensures Users(Outline(o, h)) == Users(o) + Users(h)
  {
    if h != [] {
      UsersOfOutline(o, h[..|h| - 1]);
      var o', m := Outline(o, h[..|h| - 1]), h[|h| - 1];
      if Spoken(m) {
        UsersOfPut(o', m);
      }
    }
  }

  lemma UsersOfPut(o: seq<Message>, m: Message)
    ensures Users(Put(o, m)) == Users(o) + if m.role.User? then [m] else []
  {
    if o != [] && Mergeable(o[|o| - 1]) && Mergeable(m) {
      assert Put(o, m)[..|o| - 1] == o[..|o| - 1];
    } else {
      assert (o + [m])[..|o|] == o;
    }
  }

  /** Every user message survives, in order; the placeholder is the only one that can be added. */
  lemma UsersSurvive(h: seq<Message>)
    ensures Users(Sanitize(h)) == (if OpensWithAssistant(h) then [PLACEHOLDER] else []) + Users(h)
  {
    WhatIsSaidSurvives(h);
    UsersOfOutline([], Sanitize(h));
    UsersOfOutline(if OpensWithAssistant(h) then [PLACEHOLDER] else [], h);
    assert [PLACEHOLDER][..0] == [];
    assert Users([PLACEHOLDER]) == [PLACEHOLDER];
  }

  // ---- damage stays where it is -----------------------------------------------------------------------------------

  lemma {:induction false} AdmittedExtends(a: seq<Message>, b: seq<Message>)
    ensures Admitted(a) <= Admitted(a + b)
  {
    if b == [] {
      assert a + b == a;
    } else {
      AdmittedExtends(a, b[..|b| - 1]);
      assert (a + b)[..|a + b| - 1] == a + b[..|b| - 1];
    }
  }

  // What is finished in the result stays as it is.
  lemma {:induction false} PairedKeeps(w: seq<Message>, final: seq<Message>, s: seq<Message>, i: nat)
    requires i <= |s| && w != [] && w <= final && !Mergeable(w[|w| - 1])
    ensures w <= Paired(final, s, i)
    decreases |s| - i
  {
    if i < |s| {
      if IsCall(s[i]) {
        PairedKeeps(w, PutCall(final, s, i), s, RunEnd(s, i));
      } else if s[i].role.Tool? {
        PairedKeeps(w, final, s, i + 1);
      } else {
        assert final[..|w|] == w && final[|w| - 1] == w[|w| - 1];
        assert Put(final, s[i])[..|w|] == w;
        PairedKeeps(w, Put(final, s[i]), s, i + 1);
      }
    }
  }

  lemma PutCallIgnoresTail(w: seq<Message>, t: seq<Message>, i: nat)
    requires i < |w| && (t == [] || !t[0].role.Tool?)
    ensures RunEnd(w + t, i) == RunEnd(w, i)
    ensures PutCall(w[..i], w + t, i) == PutCall(w[..i], w, i)
  {
    RunBefore(w, t, i + 1);
    assert (w + t)[i + 1..RunEnd(w, i)] == w[i + 1..RunEnd(w, i)];
  }

  lemma ReachesOverCall(w: seq<Message>, t: seq<Message>, i: nat)
    requires Regular(w) && i < |w| && IsCall(w[i]) && (t == [] || !t[0].role.Tool?)
    ensures Paired(w[..i], w + t, i) == Paired(w[..RunEnd(w, i)], w + t, RunEnd(w, i))
  {
    assert (w + t)[i] == w[i];
    PutCallIgnoresTail(w, t, i);
    PutCallCopies(w, i);
  }

  lemma ReachesOverOther(w: seq<Message>, t: seq<Message>, i: nat)
    requires Regular(w) && i < |w| && !IsCall(w[i]) && !w[i].role.Tool?
    ensures Paired(w[..i], w + t, i) == Paired(w[..i + 1], w + t, i + 1)
    ensures i + 1 < |w| ==> !w[i + 1].role.Tool?
  {
    assert (w + t)[i] == w[i];
    assert FitsAt(w, i) && (i + 1 < |w| ==> FitsAt(w, i + 1));
    assert w[..i] + [w[i]] == w[..i + 1];
  }

  lemma {:induction false} PairedReaches(w: seq<Message>, t: seq<Message>, i: nat)
    requires Regular(w) && i <= |w| && (i < |w| ==> !w[i].role.Tool?)
    requires t == [] || !t[0].role.Tool?
    ensures Paired(w[..i], w + t, i) == Paired(w, w + t, |w|)
    decreases |w| - i
  {
    if i == |w| {
      assert w[..i] == w;
    } else if IsCall(w[i]) {
      ReachesOverCall(w, t, i);
      PairedReaches(w, t, RunEnd(w, i));
    } else {
      ReachesOverOther(w, t, i);
      PairedReaches(w, t, i + 1);
    }
  }

  // The first pass keeps w, and after its last message, a user's, no tool result.
  lemma AdmittedAfter(w: seq<Message>, t: seq<Message>) returns (t': seq<Message>)
    requires Placed(w) && w != [] && w[|w| - 1].role.User?
    ensures Admitted(w + t) == w + t' && (t' == [] || !t'[0].role.Tool?)
  {
    PlacedIsAdmitted(w);
    AdmittedExtends(w, t);
    AdmittedIsPlaced(w + t);
    var s := Admitted(w + t);
    t' := s[|w|..];
    if t' != [] { assert PlaceAt(s, |w|); }
  }

  lemma PairedStart(w: seq<Message>, t: seq<Message>)
    requires Regular(w) && w != [] && w[|w| - 1].role.User? && !w[0].role.Tool?
    requires t == [] || !t[0].role.Tool?
    ensures w <= Paired([], w + t, 0)
  {
    assert w[..0] == [];
    PairedReaches(w, t, 0);
    PairedKeeps(w, w, w + t, |w|);
  }

  /** A conversation that is well-formed up to a user message is kept up to there, however broken the rest of it is. */
  lemma WellFormedStartSurvives(h: seq<Message>, u: Message, t: seq<Message>)
    requires WellFormed(h) && u.role.User?
    ensures h + [u] <= Sanitize(h + [u] + t)
  {
    var w := h + [u];
    AppendRegular(h, [u]);
    assert WellFormed(w);
    WellFormedIsPlaced(w);
    var t' := AdmittedAfter(w, t);
    PairedStart(w, t');
    assert !w[0].role.Assistant?;
  }
}
