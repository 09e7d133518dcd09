/**
Which tool calls the sanitiser keeps (pkg/agent/context.go:623-690): by the places of the messages, a call is kept, with the
first result for each of its ids, if and only if all its ids are named and answered in the run of results behind it.
*/
module SanitizerCalls {
  import opened History
  import opened Sanitizer

  // A call and the results that stand behind it.
  datatype Exchange = Exchange(call: Message, run: seq<Message>)

  function ExchangeAt(h: seq<Message>, i: nat): Exchange
    requires i < |h|
  {
    Exchange(h[i], h[i + 1..RunEnd(h, i)])
  }

  function Exchanges(h: seq<Message>, i: nat): seq<Exchange>
    requires i <= |h|
    decreases |h| - i
  {
    if i == |h| then []
    else if IsCall(h[i]) then [ExchangeAt(h, i)] + Exchanges(h, RunEnd(h, i))
    else Exchanges(h, i + 1)
  }

  // Every id of the call is named, and answered somewhere in the run.
  predicate AllAnswered(e: Exchange) {
    forall c | c in e.call.calls :: c.id != "" && exists k | 0 <= k < |e.run| :: e.run[k].callId == c.id
  }

  // The k-th result of the run is the first for one of the call's ids.
  predicate IsFirst(e: Exchange, k: nat) {
    && k < |e.run| && e.run[k].callId != "" && (exists c | c in e.call.calls :: c.id == e.run[k].callId)
    && forall j | 0 <= j < k :: e.run[j].callId != e.run[k].callId
  }

  function Firsts(e: Exchange, n: nat): seq<Message>
    requires n <= |e.run|
  {
    if n == 0 then [] else Firsts(e, n - 1) + if IsFirst(e, n - 1) then [e.run[n - 1]] else []
  }

  // What is kept of these, in order.
  function Kept(es: seq<Exchange>): seq<Exchange> {
    if es == [] then []
    else (if AllAnswered(es[0]) then [Exchange(es[0].call, Firsts(es[0], |es[0].run|))] else []) + Kept(es[1..])
  }

  // ---- the block of a call ----------------------------------------------------------------------------------------------

  lemma {:induction false} BlockIsFirsts(e: Exchange, n: nat)
    requires n <= |e.run|
    ensures Block(Ids(e.call), e.run[..n]) == Firsts(e, n)
    ensures forall id | id in Ids(e.call) :: Answered(id, Firsts(e, n)) <==> exists k | 0 <= k < n :: e.run[k].callId == id
  {
    if n > 0 {
      BlockIsFirsts(e, n - 1);
      assert e.run[..n][..n - 1] == e.run[..n - 1];
      FirstIsUnanswered(e, n - 1);
      OneMoreFirst(e, n - 1);
    }
  }

  lemma FirstIsUnanswered(e: Exchange, k: nat)
    requires k < |e.run|
    requires forall id | id in Ids(e.call) :: Answered(id, Firsts(e, k)) <==> exists j | 0 <= j < k :: e.run[j].callId == id
    ensures IsFirst(e, k) <==> e.run[k].callId in Ids(e.call) && !Answered(e.run[k].callId, Firsts(e, k))
  {
  }

  lemma OneMoreFirst(e: Exchange, k: nat)
    requires k < |e.run|
    requires forall id | id in Ids(e.call) :: Answered(id, Firsts(e, k)) <==> exists j | 0 <= j < k :: e.run[j].callId == id
    ensures forall id | id in Ids(e.call) :: Answered(id, Firsts(e, k + 1)) <==> exists j | 0 <= j < k + 1 :: e.run[j].callId == id
  {
    hide Ids;
    var before, after := Firsts(e, k), Firsts(e, k + 1);
    forall id | id in Ids(e.call) ensures Answered(id, after) <==> exists j | 0 <= j < k + 1 :: e.run[j].callId == id {
      if e.run[k].callId == id && !Answered(id, before) {
        FirstIsUnanswered(e, k);
        assert after[|before|].callId == id;
      }
      if Answered(id, before) {
        var j :| 0 <= j < |before| && before[j].callId == id;
        assert after[j].callId == id;
      }
      if Answered(id, after) {
        var j :| 0 <= j < |after| && after[j].callId == id;
        if j < |before| { assert before[j].callId == id; }
      }
    }
  }

  lemma CompleteIsAnswered(e: Exchange)
    ensures Complete(e.call, Block(Ids(e.call), e.run)) <==> AllAnswered(e)
    ensures Block(Ids(e.call), e.run) == Firsts(e, |e.run|)
  {
    BlockIsFirsts(e, |e.run|);
    assert e.run[..|e.run|] == e.run;
    forall c | c in e.call.calls && c.id != "" ensures c.id in Ids(e.call) {
    }
  }

  // ---- exchanges of histories put together ------------------------------------------------------------------------------

  lemma ExchangeBefore(a: seq<Message>, b: seq<Message>, i: nat)
    requires i < |a| && (b == [] || !b[0].role.Tool?)
    ensures RunEnd(a + b, i) == RunEnd(a, i) && ExchangeAt(a + b, i) == ExchangeAt(a, i)
  {
    RunBefore(a, b, i + 1);
    assert (a + b)[i + 1..RunEnd(a, i)] == a[i + 1..RunEnd(a, i)];
  }

  lemma ExchangeAfter(a: seq<Message>, b: seq<Message>, i: nat)
    requires i < |b|
    ensures RunEnd(a + b, |a| + i) == |a| + RunEnd(b, i) && ExchangeAt(a + b, |a| + i) == ExchangeAt(b, i)
  {
    RunAfter(a, b, i + 1);
    assert (a + b)[|a| + i + 1..|a| + RunEnd(b, i)] == b[i + 1..RunEnd(b, i)];
  }

  lemma Associative(a: seq<Exchange>, b: seq<Exchange>, c: seq<Exchange>)
    ensures a + (b + c) == (a + b) + c
  {
  }

  lemma {:induction false} ExchangesBefore(a: seq<Message>, b: seq<Message>, i: nat)
    requires i <= |a| && (b == [] || !b[0].role.Tool?)
    ensures Exchanges(a + b, i) == Exchanges(a, i) + Exchanges(b, 0)
    decreases |a| - i
  {
    hide RunEnd, ExchangeAt;
    if i == |a| {
      ExchangesAfter(a, b, 0);
    } else if IsCall(a[i]) {
      ExchangeBefore(a, b, i);
      ExchangesBefore(a, b, RunEnd(a, i));
      Associative([ExchangeAt(a, i)], Exchanges(a, RunEnd(a, i)), Exchanges(b, 0));
    } else {
      ExchangesBefore(a, b, i + 1);
    }
  }

  lemma {:induction false} ExchangesAfter(a: seq<Message>, b: seq<Message>, i: nat)
    requires i <= |b|
    ensures Exchanges(a + b, |a| + i) == Exchanges(b, i)
    decreases |b| - i
  {
    hide RunEnd, ExchangeAt;
    if i < |b| {
      if IsCall(b[i]) {
        ExchangeAfter(a, b, i);
        ExchangesAfter(a, b, RunEnd(b, i));
      } else {
        ExchangesAfter(a, b, i + 1);
      }
    }
  }

  lemma OneExchange(m: Message, block: seq<Message>)
    requires IsCall(m) && forall k | 0 <= k < |block| :: block[k].role.Tool?
    ensures Exchanges([m] + block, 0) == [Exchange(m, block)]
  {
    var h := [m] + block;
    RunAll(h, 1);
    assert h[1..] == block && RunEnd(h, 0) == |h|;
    assert Exchanges(h, |h|) == [];
  }

  lemma NoExchange(m: Message)
    requires !IsCall(m)
    ensures Exchanges([m], 0) == []
  {
  }

  // ---- the second pass --------------------------------------------------------------------------------------------------

  lemma PutMakesNone(final: seq<Message>, m: Message)
    requires !IsCall(m) && !m.role.Tool?
    ensures Exchanges(Put(final, m), 0) == Exchanges(final, 0)
  {
    NoExchange(m);
    if final != [] && Mergeable(final[|final| - 1]) && Mergeable(m) {
      var front, last := final[..|final| - 1], final[|final| - 1];
      var merged := Merge(last, m);
      assert final == front + [last] && Put(final, m) == front + [merged];
      NoExchange(last);
      NoExchange(merged);
      ExchangesBefore(front, [last], 0);
      ExchangesBefore(front, [merged], 0);
    } else {
      ExchangesBefore(final, [m], 0);
    }
  }

  lemma PutCallMakesOne(final: seq<Message>, s: seq<Message>, i: nat)
    requires i < |s| && IsCall(s[i])
    ensures Exchanges(PutCall(final, s, i), 0) == Exchanges(final, 0) + Kept([ExchangeAt(s, i)])
  {
    var e := ExchangeAt(s, i);
    var block := Block(Ids(e.call), e.run);
    CompleteIsAnswered(e);
    BlockAnswers(Ids(e.call), e.run);
    if AllAnswered(e) {
      OneExchange(s[i], block);
      ExchangesBefore(final, [s[i]] + block, 0);
      assert final + ([s[i]] + block) == final + [s[i]] + block;
    }
    assert Kept([e][1..]) == [];
  }

  lemma KeptConcat(e: Exchange, es: seq<Exchange>)
    ensures Kept([e] + es) == Kept([e]) + Kept(es)
  {
    assert ([e] + es)[1..] == es && [e][1..] == [];
  }

  lemma KeptNone(es: seq<Exchange>)
    ensures Kept([]) == [] && es + Kept([]) == es
  {
  }

  lemma {:induction false} PairedKeeps(final: seq<Message>, s: seq<Message>, i: nat)
    requires i <= |s|
    ensures Exchanges(Paired(final, s, i), 0) == Exchanges(final, 0) + Kept(Exchanges(s, i))
    decreases |s| - i
  {
    hide Put, PutCall, RunEnd, ExchangeAt, Kept;
    if i == |s| {
      KeptNone(Exchanges(Paired(final, s, i), 0));
    } else if IsCall(s[i]) {
      var e, rest := ExchangeAt(s, i), Exchanges(s, RunEnd(s, i));
      PutCallMakesOne(final, s, i);
      PairedKeeps(PutCall(final, s, i), s, RunEnd(s, i));
      KeptConcat(e, rest);
      Associative(Exchanges(final, 0), Kept([e]), Kept(rest));
    } else if s[i].role.Tool? {
      PairedKeeps(final, s, i + 1);
    } else {
      PutMakesNone(final, s[i]);
      PairedKeeps(Put(final, s[i]), s, i + 1);
    }
  }

  /**
  The calls of the result, each with the results behind it, are those the first pass placed that have every id named and
  answered in the run of results behind them: in order and unchanged, each with exactly the first results of its run that
  answer it, in their order.
  */
  lemma AnsweredCallsSurvive(h: seq<Message>)
    ensures Exchanges(Sanitize(h), 0) == Kept(Exchanges(Admitted(h), 0))
  {
    hide Paired;
    var final := Paired([], Admitted(h), 0);
    PairedKeeps([], Admitted(h), 0);
    if Opened(final) != final {
      ExchangesAfter([PLACEHOLDER], final, 0);
      assert Exchanges([PLACEHOLDER] + final, 0) == Exchanges([PLACEHOLDER] + final, 1);
    }
  }

  /**
  The first pass leaves out a system message, a call that follows neither a user nor a result, and a result that follows
  neither a call nor a result; anything else it places behind what it has placed so far.
  */
  lemma FirstPassPlaces(h: seq<Message>, m: Message)
    ensures var s := Admitted(h);
            Admitted(h + [m]) ==
              if m.role.System? then s
              else if IsCall(m) && (s == [] || !(s[|s| - 1].role.User? || s[|s| - 1].role.Tool?)) then s
              else if m.role.Tool? && (s == [] || !(s[|s| - 1].role.Tool? || IsCall(s[|s| - 1]))) then s
              else s + [m]
  {
    assert (h + [m])[..|h|] == h;
    AdmittedIsPlaced(h);
    AfterCallIsLast(Admitted(h));
  }
}
