/**
How the sanitiser puts neighbouring assistant texts together (pkg/agent/context.go:727-753): one message says what all of
them said, content and reasoning apart, the empty ones left out and a blank line between the others.
*/
module SanitizerTexts {
  import opened History
  import opened Sanitizer

  // The texts that are not empty, with blank lines between them.
  function Joined(texts: seq<string>): string {
    if texts == [] then ""
    else if |texts[|texts| - 1]| == 0 then Joined(texts[..|texts| - 1])
    else if forall k | 0 <= k < |texts| - 1 :: |texts[k]| == 0 then texts[|texts| - 1]
    else Joined(texts[..|texts| - 1]) + ['\n', '\n'] + texts[|texts| - 1]
  }

  lemma {:induction false} JoinedIsEmpty(texts: seq<string>)
    ensures Joined(texts) == "" <==> forall k | 0 <= k < |texts| :: |texts[k]| == 0
  {
    if texts != [] { JoinedIsEmpty(texts[..|texts| - 1]); }
  }

  lemma OneMoreText(texts: seq<string>, text: string)
    ensures Joined(texts + [text]) == Join(Joined(texts), text)
  {
    JoinedIsEmpty(texts);
    assert (texts + [text])[..|texts|] == texts;
    assert forall k | 0 <= k < |texts| :: (texts + [text])[k] == texts[k];
  }

  function Contents(ms: seq<Message>): seq<string> {
    seq(|ms|, k requires 0 <= k < |ms| => ms[k].content)
  }

  function Reasonings(ms: seq<Message>): seq<string> {
    seq(|ms|, k requires 0 <= k < |ms| => ms[k].reasoning)
  }

  predicate AllTexts(ms: seq<Message>) {
    forall k | 0 <= k < |ms| :: Mergeable(ms[k])
  }

  // The first of the messages, saying what they all say.
  function Together(ms: seq<Message>): Message
    requires ms != []
  {
    ms[0].(content := Joined(Contents(ms)), reasoning := Joined(Reasonings(ms)))
  }

  lemma OneAlone(m: Message)
    ensures Together([m]) == m
  {
    var none: seq<string> := [];
    OneMoreText(none, m.content);
    OneMoreText(none, m.reasoning);
    assert Contents([m]) == none + [m.content] && Reasonings([m]) == none + [m.reasoning];
  }

  lemma OneMore(ms: seq<Message>, m: Message)
    requires ms != []
    ensures Together(ms + [m]) == Merge(Together(ms), m)
  {
    OneMoreText(Contents(ms), m.content);
    OneMoreText(Reasonings(ms), m.reasoning);
    assert Contents(ms + [m]) == Contents(ms) + [m.content] && Reasonings(ms + [m]) == Reasonings(ms) + [m.reasoning];
  }

  lemma {:induction false} TextsAreAdmitted(u: Message, ms: seq<Message>)
    requires u.role.User? && AllTexts(ms)
    ensures Admitted([u] + ms) == [u] + ms
  {
    hide AfterCall;
    var h := [u] + ms;
    if ms == [] {
      assert h == [u] && h[..0] == [];
      assert Admitted(h[..0]) == [];
    } else {
      var front := ms[..|ms| - 1];
      TextsAreAdmitted(u, front);
      assert h[..|h| - 1] == [u] + front && h == [u] + front + [h[|h| - 1]];
    }
  }

  // The second pass at message n of ms.
  lemma {:induction false} TheRestIsJoined(u: Message, ms: seq<Message>, n: nat)
    requires u.role.User? && AllTexts(ms) && 0 < n <= |ms|
    ensures Paired([u, Together(ms[..n])], [u] + ms, n + 1) == [u, Together(ms)]
    decreases |ms| - n
  {
    hide Joined, Merge;
    var s, final := [u] + ms, [u, Together(ms[..n])];
    if n == |ms| {
      assert ms[..n] == ms;
    } else {
      OneMore(ms[..n], ms[n]);
      assert ms[..n] + [ms[n]] == ms[..n + 1] && s[n + 1] == ms[n];
      assert final[1 := Together(ms[..n + 1])] == [u, Together(ms[..n + 1])];
      TheRestIsJoined(u, ms, n + 1);
    }
  }

  /** After a user the assistant's texts in a row become one message that says all they said, in their order. */
  lemma NeighboursBecomeOne(u: Message, ms: seq<Message>)
    requires u.role.User? && ms != [] && AllTexts(ms)
    ensures Sanitize([u] + ms) == [u, Together(ms)]
  {
    hide Joined, Merge, Admitted;
    var s := [u] + ms;
    TextsAreAdmitted(u, ms);
    assert s[0] == u && s[1] == ms[0] && ms[..1] == [ms[0]];
    OneAlone(ms[0]);
    assert Put([], u) == [u] && Put([u], ms[0]) == [u, ms[0]];
    assert Paired([], s, 0) == Paired([u], s, 1) == Paired([u, ms[0]], s, 2);
    TheRestIsJoined(u, ms, 1);
  }
}
