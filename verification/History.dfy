/**
Messages as the providers take them, and the grammar the strict ones demand of a conversation
(pkg/providers/protocoltypes/types.go:66-92, pkg/agent/context.go:613-622 and 695-726).
*/
module History {

  datatype Role = User | Assistant | Tool | System | Other(name: string)

  datatype ToolCall = ToolCall(id: string, arguments: string)

  datatype Message = Message(
    role: Role, content: string, media: seq<string>, reasoning: string, parts: string, calls: seq<ToolCall>, callId: string)

  const PLACEHOLDER := Message(User, "(conversation start)", [], "", "", [], "")

  // An assistant message that calls tools.
  predicate IsCall(m: Message) {
    m.role.Assistant? && m.calls != []
  }

  // context.go:734-736
  predicate Mergeable(m: Message) {
    m.role.Assistant? && m.calls == [] && m.media == [] && m.callId == ""
  }

  predicate HasEmptyId(m: Message) {
    exists c | c in m.calls :: c.id == ""
  }

  function Ids(m: Message): set<string> {
    set c | c in m.calls && c.id != "" :: c.id
  }

  // How many tool messages stand in h from i on.
  function RunLength(h: seq<Message>, i: nat): (n: nat)
    requires i <= |h|
    ensures i + n <= |h|
    ensures forall k | i <= k < i + n :: h[k].role.Tool?
    ensures i + n < |h| ==> !h[i + n].role.Tool?
    decreases |h| - i
  {
    if i < |h| && h[i].role.Tool? then 1 + RunLength(h, i + 1) else 0
  }

  predicate Answered(id: string, run: seq<Message>) {
    exists k | 0 <= k < |run| :: run[k].callId == id
  }

  // The results answer exactly the calls made, each once.
  predicate Answers(ids: set<string>, run: seq<Message>) {
    && (forall k | 0 <= k < |run| :: run[k].callId in ids)
    && (forall j, k | 0 <= j < k < |run| :: run[j].callId != run[k].callId)
    && (forall id | id in ids :: Answered(id, run))
  }

  // ---- the grammar, message by message -------------------------------------------------------------------------

  predicate CallAt(h: seq<Message>, i: nat)
    requires i < |h|
  {
    IsCall(h[i]) ==>
      && i > 0 && (h[i - 1].role.User? || h[i - 1].role.Tool?)
      && !HasEmptyId(h[i])
      && Answers(Ids(h[i]), h[i + 1..i + 1 + RunLength(h, i + 1)])
  }

  predicate ToolAt(h: seq<Message>, i: nat)
    requires i < |h|
  {
    h[i].role.Tool? ==> i > 0 && (h[i - 1].role.Tool? || IsCall(h[i - 1]))
  }

  predicate ApartAt(h: seq<Message>, i: nat)
    requires i < |h|
  {
    i > 0 && Mergeable(h[i - 1]) ==> !Mergeable(h[i])
  }

  predicate FitsAt(h: seq<Message>, i: nat)
    requires i < |h|
  {
    !h[i].role.System? && CallAt(h, i) && ToolAt(h, i) && ApartAt(h, i)
  }

  predicate Regular(h: seq<Message>) {
    forall i | 0 <= i < |h| :: FitsAt(h, i)
  }

  predicate WellFormed(h: seq<Message>) {
    Regular(h) && (h != [] ==> !h[0].role.Assistant? && !h[0].role.Tool?)
  }

  // ---- runs of tool messages in longer histories ------------------------------------------------------------------

  lemma {:induction false} RunBefore(h: seq<Message>, t: seq<Message>, i: nat)
    requires i <= |h|
    requires t == [] || !t[0].role.Tool?
    ensures RunLength(h + t, i) == RunLength(h, i)
    decreases |h| - i
  {
    if i < |h| && h[i].role.Tool? {
      RunBefore(h, t, i + 1);
    }
  }

  lemma {:induction false} RunAfter(h: seq<Message>, t: seq<Message>, i: nat)
    requires i <= |t|
    ensures RunLength(h + t, |h| + i) == RunLength(t, i)
    decreases |t| - i
  {
    if i < |t| && t[i].role.Tool? {
      RunAfter(h, t, i + 1);
    }
  }

  lemma {:induction false} RunAll(t: seq<Message>, i: nat)
    requires i <= |t| && forall k | i <= k < |t| :: t[k].role.Tool?
    ensures RunLength(t, i) == |t| - i
    decreases |t| - i
  {
    if i < |t| {
      RunAll(t, i + 1);
    }
  }

  // What a place in h says of the messages after it does not change with what is put behind a run's end.
  lemma CallBefore(h: seq<Message>, t: seq<Message>, i: nat)
    requires i < |h|
    requires t == [] || !t[0].role.Tool?
    ensures CallAt(h + t, i) <==> CallAt(h, i)
  {
    hide Answers, HasEmptyId, Ids, IsCall, RunLength;
    RunBefore(h, t, i + 1);
    var n := RunLength(h, i + 1);
    assert (h + t)[i + 1..i + 1 + n] == h[i + 1..i + 1 + n];
  }

  lemma CallAfter(h: seq<Message>, t: seq<Message>, i: nat)
    requires 0 < i < |t|
    ensures CallAt(h + t, |h| + i) <==> CallAt(t, i)
  {
    hide Answers, HasEmptyId, Ids, IsCall, RunLength;
    RunAfter(h, t, i + 1);
    var n := RunLength(t, i + 1);
    assert (h + t)[|h| + i] == t[i] && (h + t)[|h| + i - 1] == t[i - 1];
    assert (h + t)[|h| + i + 1..|h| + i + 1 + n] == t[i + 1..i + 1 + n];
  }

  lemma FirstPart(a: seq<Message>, b: seq<Message>)
    requires Regular(a + b) && (b == [] || !b[0].role.Tool?)
    ensures Regular(a)
  {
    forall k | 0 <= k < |a| ensures FitsAt(a, k) {
      CallBefore(a, b, k);
      assert FitsAt(a + b, k);
    }
  }

  lemma SecondPart(a: seq<Message>, b: seq<Message>)
    requires Regular(a + b) && b != [] && b[0].role.User?
    ensures Regular(b)
  {
    forall k | 0 <= k < |b| ensures FitsAt(b, k) {
      if k > 0 { CallAfter(a, b, k); }
      assert FitsAt(a + b, |a| + k);
    }
  }

  /** A well-formed conversation can be cut where a user speaks: both parts are well-formed. */
  lemma CutAtUser(h: seq<Message>, i: nat)
    requires WellFormed(h) && i < |h| && h[i].role.User?
    ensures WellFormed(h[i..]) && WellFormed(h[..i])
  {
    assert h == h[..i] + h[i..];
    FirstPart(h[..i], h[i..]);
    SecondPart(h[..i], h[i..]);
  }
}
