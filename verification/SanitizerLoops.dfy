/**
The two passes as the loops of context.go:551-729, proved to compute the functions of Sanitizer.
*/
module SanitizerLoops {
  import opened History
  import opened Sanitizer

  // context.go:572-583: backwards over the tool results at the end.
  method FindsCall(sanitized: seq<Message>) returns (found: bool)
    ensures found == AfterCall(sanitized)
  {
    var i := |sanitized|;
    assert sanitized[..i] == sanitized;
    while i > 0 && sanitized[i - 1].role.Tool?
      invariant 0 <= i <= |sanitized|
      invariant AfterCall(sanitized) == AfterCall(sanitized[..i])
    {
      assert sanitized[..i][..i - 1] == sanitized[..i - 1];
      i := i - 1;
    }
    found := i > 0 && sanitized[i - 1].role.Assistant? && sanitized[i - 1].calls != [];
  }

  // context.go:556-611
  method FirstPass(history: seq<Message>) returns (sanitized: seq<Message>)
    ensures sanitized == Admitted(history)
    ensures Placed(sanitized)
  {
    sanitized := [];
    for i := 0 to |history|
      invariant sanitized == Admitted(history[..i])
    {
      var m := history[i];
      assert history[..i + 1][..i] == history[..i];
      match m.role {
        case System =>
        case Tool =>
          var found := FindsCall(sanitized);
          if found {
            sanitized := sanitized + [m];
          }
        case Assistant =>
          if m.calls == [] || (sanitized != [] && (sanitized[|sanitized| - 1].role.User? || sanitized[|sanitized| - 1].role.Tool?)) {
            sanitized := sanitized + [m];
          }
        case _ => sanitized := sanitized + [m];
      }
    }
    assert history[..|history|] == history;
    AdmittedIsPlaced(history);
  }

  // context.go:628-636
  method ExpectedIds(m: Message) returns (expected: set<string>, invalid: bool)
    ensures expected == Ids(m) && invalid == HasEmptyId(m)
  {
    expected, invalid := {}, false;
    for i := 0 to |m.calls|
      invariant expected == set c | c in m.calls[..i] && c.id != "" :: c.id
      invariant invalid == exists c | c in m.calls[..i] :: c.id == ""
    {
      assert m.calls[..i + 1] == m.calls[..i] + [m.calls[i]];
      if m.calls[i].id == "" {
        invalid := true;
      } else {
        expected := expected + {m.calls[i].id};
      }
    }
    assert m.calls[..|m.calls|] == m.calls;
  }

  lemma AnsweredBy(block: seq<Message>, m: Message)
    ensures forall id :: Answered(id, block + [m]) <==> Answered(id, block) || id == m.callId
  {
    forall id ensures Answered(id, block + [m]) <==> Answered(id, block) || id == m.callId {
      assert (block + [m])[|block|] == m;
      if Answered(id, block) {
        var k :| 0 <= k < |block| && block[k].callId == id;
        assert (block + [m])[k].callId == id;
      }
    }
  }

  lemma NothingCollected(ids: set<string>)
    ensures Block(ids, []) == [] && forall id :: !Answered(id, [])
  {
  }

  // The next result of the run, after the block collected before it.
  lemma OneMoreResult(ids: set<string>, s: seq<Message>, from: nat, j: nat)
    requires from <= j < |s|
    ensures var block := Block(ids, s[from..j]);
            Block(ids, s[from..j + 1]) == if s[j].callId in ids && !Answered(s[j].callId, block) then block + [s[j]] else block
  {
    assert s[from..j + 1][..j - from] == s[from..j];
  }

  // context.go:638-665: the run of results after i, the ones that answer, and the ids they answer.
  method CollectBlock(s: seq<Message>, i: nat, expected: set<string>) returns (j: nat, block: seq<Message>, seen: set<string>)
    requires i < |s|
    requires "" !in expected
    ensures j == RunEnd(s, i)
    ensures block == Block(expected, s[i + 1..j])
    ensures forall id :: id in seen <==> Answered(id, block)
  {
    hide Answered, Block;
    NothingCollected(expected);
    j, block, seen := i + 1, [], {};
    assert s[i + 1..j] == [];
    while j < |s| && s[j].role.Tool?
      invariant i + 1 <= j <= |s|
      invariant i + 1 + RunLength(s, i + 1) == j + RunLength(s, j)
      invariant block == Block(expected, s[i + 1..j])
      invariant forall id :: id in seen <==> Answered(id, block)
    {
      var next := s[j];
      ghost var before := block;
      OneMoreResult(expected, s, i + 1, j);
      if next.callId != "" && next.callId in expected && next.callId !in seen {
        seen := seen + {next.callId};
        block := block + [next];
        AnsweredBy(before, next);
      }
      j := j + 1;
    }
  }

  lemma NothingMissing(expected: set<string>, seen: set<string>)
    ensures expected - seen == {} <==> forall id | id in expected :: id in seen
  {
    assert forall id | id in expected && id !in seen :: id in expected - seen;
  }

  // context.go:623-715
  method SecondPass(s: seq<Message>) returns (final: seq<Message>)
    ensures final == Paired([], s, 0)
  {
    final := [];
    var i := 0;
    while i < |s|
      invariant 0 <= i <= |s|
      invariant Paired(final, s, i) == Paired([], s, 0)
    {
      var m := s[i];
      if m.role.Assistant? && m.calls != [] {
        var expected, invalid := ExpectedIds(m);
        var j, block, seen := CollectBlock(s, i, expected);
        var missing := expected - seen;
        NothingMissing(expected, seen);
        assert Complete(m, block) <==> !invalid && missing == {};
        if !invalid && missing == {} {
          final := final + [m] + block;
        }
        i := j;
      } else if m.role.Tool? {
        i := i + 1;
      } else {
        if final != [] && Mergeable(final[|final| - 1]) && Mergeable(m) {
          final := final[|final| - 1 := Merge(final[|final| - 1], m)];
        } else {
          final := final + [m];
        }
        i := i + 1;
      }
    }
  }

  /** context.go:551-729 */
  method SanitizeHistory(history: seq<Message>) returns (final: seq<Message>)
    ensures final == Sanitize(history)
    ensures WellFormed(final)
    ensures WellFormed(history) ==> final == history
    ensures Users(final) == (if OpensWithAssistant(history) then [PLACEHOLDER] else []) + Users(history)
  {
    SanitizedIsWellFormed(history);
    FixedPointsAreWellFormed(history);
    UsersSurvive(history);
    if history == [] {
      return history;
    }
    var sanitized := FirstPass(history);
    final := SecondPass(sanitized);
    if final != [] && final[0].role.Assistant? && final[0].calls == [] {
      final := [PLACEHOLDER] + final;
    }
  }
}
