/**
What a protective decision can count on (pkg/attention/handoff.go:322-411, retry.go:40-59): it is pending at once, only a
newer one for the same situation replaces it, and its message is tried fifteen times in an hour before it is given up.
*/
module OutboxAlarms {
  import opened Wrappers
  import opened Attention
  import opened OutboxSpec
  import opened OutboxBounds
  import opened OutboxLanes
  import opened OutboxAnswers

  // ---- the newer of two -----------------------------------------------------------------------------------------------

  // The last of all for its situation.
  predicate Newest(all: seq<Decision>, j: nat) {
    j < |all| && forall k | j < k < |all| :: all[k].candidate.key != all[j].candidate.key
  }

  // p has the last decision of all for each situation, in one place, and gone has the others.
  ghost predicate KeepsNewest(all: seq<Decision>, p: seq<Decision>, gone: seq<Decision>) {
    && DistinctKeys(p)
    && (forall j | 0 <= j < |all| && Newest(all, j) :: all[j] in p)
    && (forall d | d in p :: exists j | 0 <= j < |all| :: Newest(all, j) && all[j] == d)
    && multiset(p) + multiset(gone) == multiset(all)
  }

  lemma NewestGrows(all: seq<Decision>, d: Decision, j: nat)
    requires j < |all|
    ensures Newest(all + [d], j) <==> Newest(all, j) && all[j].candidate.key != d.candidate.key
    ensures Newest(all + [d], |all|)
  {
    var more := all + [d];
    assert forall k | 0 <= k < |all| :: more[k] == all[k];
    assert more[|all|] == d;
  }

  lemma AddsFresh(all: seq<Decision>, p: seq<Decision>, gone: seq<Decision>, d: Decision)
    requires KeepsNewest(all, p, gone) && forall x | x in p :: x.candidate.key != d.candidate.key
    ensures KeepsNewest(all + [d], p + [d], gone)
  {
    var more, p' := all + [d], p + [d];
    forall j | 0 <= j < |more| && Newest(more, j) ensures more[j] in p' {
      if j < |all| { NewestGrows(all, d, j); }
    }
    forall x | x in p' ensures exists j | 0 <= j < |more| :: Newest(more, j) && more[j] == x {
      if x in p {
        var j :| 0 <= j < |all| && Newest(all, j) && all[j] == x;
        NewestGrows(all, d, j);
        assert Newest(more, j) && more[j] == x;
      } else {
        assert Newest(more, |all|) && more[|all|] == x;
      }
    }
    forall i, k | 0 <= i < k < |p'| ensures p'[i].candidate.key != p'[k].candidate.key {
      assert p'[i] in p;
    }
  }

  lemma Exchanged(p: seq<Decision>, i: nat, d: Decision)
    requires i < |p|
    ensures multiset(p[i := d]) + multiset{p[i]} == multiset(p) + multiset{d}
  {
  }

  lemma Replaces(all: seq<Decision>, p: seq<Decision>, gone: seq<Decision>, d: Decision, i: nat)
    requires KeepsNewest(all, p, gone) && i < |p| && p[i].candidate.key == d.candidate.key
    ensures KeepsNewest(all + [d], p[i := d], gone + [p[i]])
  {
    var more, p' := all + [d], p[i := d];
    forall j | 0 <= j < |more| && Newest(more, j) ensures more[j] in p' {
      if j < |all| {
        NewestGrows(all, d, j);
        var k :| 0 <= k < |p| && p[k] == all[j];
        assert p'[k] == more[j];
      } else {
        assert p'[i] == more[j];
      }
    }
    forall x | x in p' ensures exists j | 0 <= j < |more| :: Newest(more, j) && more[j] == x {
      var k :| 0 <= k < |p'| && p'[k] == x;
      if k != i {
        assert p[k] in p;
        var j :| 0 <= j < |all| && Newest(all, j) && all[j] == p[k];
        NewestGrows(all, d, j);
        assert Newest(more, j) && more[j] == x;
      } else {
        assert Newest(more, |all|) && more[|all|] == x;
      }
    }
    Exchanged(p, i, d);
  }

  lemma NothingAdded(prot: seq<Decision>)
    requires DistinctKeys(prot)
    ensures KeepsNewest(prot, prot, [])
  {
    forall d | d in prot ensures exists j | 0 <= j < |prot| :: Newest(prot, j) && prot[j] == d {
      var j :| 0 <= j < |prot| && prot[j] == d;
      assert Newest(prot, j);
    }
  }

  /** Of two decisions for one situation the protective group keeps the later one, and the earlier one leaves. */
  lemma {:induction false} TheNewerStays(prot: seq<Decision>, ds: seq<Decision>)
    requires DistinctKeys(prot)
    ensures var (p, gone) := AddAllTo(prot, ds);
            && KeepsNewest(prot + ds, p, gone)
            && |prot| <= |p| && forall i | 0 <= i < |prot| :: p[i].candidate.key == prot[i].candidate.key
  {
    if ds == [] {
      assert prot + ds == prot;
      NothingAdded(prot);
    } else {
      var front, d := ds[..|ds| - 1], ds[|ds| - 1];
      TheNewerStays(prot, front);
      var (p, gone) := AddAllTo(prot, front);
      assert prot + ds == prot + front + [d];
      var i := SlotOf(p, d.candidate.key);
      if i < |p| {
        Replaces(prot + front, p, gone, d, i);
      } else {
        AddsFresh(prot + front, p, gone, d);
        assert gone + [] == gone;
      }
    }
  }

  // ---- at once ----------------------------------------------------------------------------------------------------------

  // The buffered group is not to be taken before the next decision joins it.
  predicate StillOpen(o: Shared) {
    |o.buf| < 64 && !(o.buf != [] && o.window > 0 && o.now >= o.windowStart + o.window)
  }

  // What was superseded is to be released, as far as the backlog has room.
  predicate LeftToRelease(o: Shared, o': Shared, gone: seq<Decision>) {
    var k := Min(|gone|, Room(o.deferred));
    && |o'.deferred| == |o.deferred| + k && o'.deferred[..|o.deferred|] == o.deferred
    && (forall n | 0 <= n < k :: o'.deferred[|o.deferred| + n] == Deferral(gone[n], true, 0))
  }

  /**
  A protective Critical goes to its lane when it is accepted, and takes all that is buffered along; the ordinary lane is
  not asked.
  */
  lemma AlarmsAreEscorted(s: State, d: Decision) returns (gone: seq<Decision>)
    requires Shaped(s) && !s.o.closed && DistinctKeys(s.o.prot) && StillOpen(s.o)
    requires d.disposition.Sent() && d.candidate.protective && d.candidate.severity.Critical?
    ensures var s' := Step(s, AAccept([d]));
            && s'.hands == s.hands && s'.o.buf == [] && s'.o.ord == s.o.ord && s'.o.retries == s.o.retries
            && KeepsNewest(s.o.prot + (s.o.buf + [d]), s'.o.prot, gone) && LeftToRelease(s.o, s'.o, gone)
  {
    var group := s.o.buf + [d];
    TheNewerStays(s.o.prot, group);
    gone := AddAllTo(s.o.prot, group).1;
    assert [d][..0] == [] && AcceptAll(s.o, [d]).0 == AcceptOne(s.o, d).0;
    Escorted(s.o, d);
  }

  lemma Escorted(o: Shared, d: Decision)
    requires !o.closed && StillOpen(o) && d.disposition.Sent() && IsProtectiveCritical(d.candidate)
    ensures var o', added := AcceptOne(o, d).0, AddAllTo(o.prot, o.buf + [d]);
            o'.buf == [] && o'.ord == o.ord && o'.retries == o.retries && o'.prot == added.0 && LeftToRelease(o, o', added.1)
  {
    assert Buffer(o, d) == Join(o, d) && Join(o, d).buf == o.buf + [d];
  }

  // ---- for an hour ------------------------------------------------------------------------------------------------------

  // The time of the try after so many failures, the first try being at t.
  function TryAt(failed: nat, t: int): int {
    if failed == 0 then t else NextDue(TryAt(failed - 1, t), failed - 1)
  }

  // The protective lane is at its try number failed + 1 of this message, and nothing else waits for a retry.
  predicate Trying(s: State, m: Message, failed: nat, start: int) {
    && Shaped(s) && s.hands[RUNNER].Idle? && !s.o.closed && s.o.retries == [] && s.o.protRetry == []
    && s.hands[PROTECTIVE] == Sending(m, failed, if failed == 0 then None else Some(start), Idle)
    && m.id < |s.o.log.mail| && s.o.log.mail[m.id] == Mail(m.decisions, failed + 1)
  }

  // The answer comes, the retry becomes due and is handed over, and the lane takes it and begins.
  function Again(due: int): seq<Action> {
    [ADelivered(PROTECTIVE, false), AClock(due), ADueRetries, APopRetry, ABegin(PROTECTIVE)]
  }

  lemma DueForProtective(r: Retry, now: int)
    requires r.due <= now && HasProtective(r.m.decisions)
    ensures DueFor([r], now, true) == [r] && DueFor([r], now, false) == [] && Waiting([r], now) == []
  {
    assert [r][..0] == [];
  }

  // The states on the way.
  function Waits(s: State, r: Retry): State
    requires Shaped(s)
  {
    State(s.o.(retries := [r]), s.hands[PROTECTIVE := Idle])
  }

  function IsDue(s: State, r: Retry): State
    requires Shaped(s)
  {
    State(s.o.(now := r.due, protRetry := [r]), s.hands[PROTECTIVE := Idle])
  }

  function Begins(s: State, r: Retry): State
    requires Shaped(s) && r.m.id < |s.o.log.mail|
  {
    State(CountTry(s.o.(now := r.due), PROTECTIVE, r.m), s.hands[PROTECTIVE := Sending(r.m, r.failed, r.since, Idle)])
  }

  lemma ItBecomesDue(s: State, r: Retry)
    requires Shaped(s) && s.hands[RUNNER].Idle? && s.o.protRetry == [] && s.o.retries == [] && s.o.now <= r.due && HasProtective(r.m.decisions)
    ensures Step(Step(Waits(s, r), AClock(r.due)), ADueRetries) == IsDue(s, r)
  {
    DueForProtective(r, r.due);
    assert s.o.ord + AsJobs([]) == s.o.ord && [] + [r] == [r];
  }

  lemma ItBegins(s: State, r: Retry)
    requires Shaped(s) && s.o.protRetry == [] && HasProtective(r.m.decisions) && r.m.id < |s.o.log.mail|
    ensures Step(Step(IsDue(s, r), APopRetry), ABegin(PROTECTIVE)) == Begins(s, r)
  {
    assert [r][1..] == [];
  }

  lemma FiveSteps(s: State, a: Action, b: Action, c: Action, d: Action, e: Action)
    requires Shaped(s)
    ensures Run(s, [a, b, c, d, e]) == Step(Step(Step(Step(Step(s, a), b), c), d), e)
  {
    hide Step;
    assert [a, b, c] + [d] == [a, b, c, d] && [a, b, c, d] + [e] == [a, b, c, d, e];
    ThreeSteps(s, a, b, c);
    RunLast(s, [a, b, c], d);
    RunLast(s, [a, b, c, d], e);
  }

  // The window began at start: when an old protective decision in it was made, or when it first failed.
  predicate Starts(s: State, m: Message, start: int) {
    IsWindowStart(m.decisions, None, s.o.now, start)
  }

  lemma FailsAndWaits(s: State, m: Message, failed: nat, start: int)
    requires Trying(s, m, failed, start) && exists d | d in m.decisions :: IsProtective(d)
    requires failed == 0 ==> Starts(s, m, start)
    requires NextDue(s.o.now, failed) - start <= 3600000
    ensures Step(s, ADelivered(PROTECTIVE, false)) == Waits(s, Retry(m, failed + 1, NextDue(s.o.now, failed), Some(start)))
  {
    hide Step, NextRetry, NextDue, IsWindowStart;
    var since := if failed == 0 then None else Some(start);
    FailureIs(s, PROTECTIVE, m, failed, since, Idle);
    var began := ProtectivePlan(m, failed, since, s.o.now);
    SameStart(m.decisions, since, s.o.now, start, began);
    assert HasProtective(m.decisions) && CountWaiting([], true) == 0;
  }

  lemma SameStart(ds: seq<Decision>, since: Option<int>, now: int, a: int, b: int)
    requires IsWindowStart(ds, since, now, b) && (if since.Some? then a == since.value else IsWindowStart(ds, None, now, a))
    ensures a == b
  {
  }

  lemma TriedOnceMore(s: State, m: Message, failed: nat, start: int)
    requires Trying(s, m, failed, start) && exists d | d in m.decisions :: IsProtective(d)
    requires failed == 0 ==> Starts(s, m, start)
    requires NextDue(s.o.now, failed) - start <= 3600000
    ensures var s' := Run(s, Again(NextDue(s.o.now, failed)));
            Trying(s', m, failed + 1, start) && s'.o.now == NextDue(s.o.now, failed)
  {
    var due := NextDue(s.o.now, failed);
    var r := Retry(m, failed + 1, due, Some(start));
    FiveSteps(s, ADelivered(PROTECTIVE, false), AClock(due), ADueRetries, APopRetry, ABegin(PROTECTIVE));
    FailsAndWaits(s, m, failed, start);
    ItBecomesDue(s, r);
    ItBegins(s, r);
    hide Step;
  }

  function Persist(n: nat, t: int): seq<Action> {
    if n == 0 then [] else Persist(n - 1, t) + Again(TryAt(n, t))
  }

  lemma {:induction false} TryAtIs(n: nat, t: int)
    ensures n < 3 ==> TryAt(n, t) == t + if n == 0 then 0 else if n == 1 then 30000 else 120000
    ensures n >= 3 ==> TryAt(n, t) == t + 270000 + (n - 3) * 300000
  {
    if n > 0 { TryAtIs(n - 1, t); }
  }

  lemma {:induction false} KeepsTrying(s: State, m: Message, n: nat, start: int)
    requires Trying(s, m, 0, start) && (exists d | d in m.decisions :: IsProtective(d)) && Starts(s, m, start)
    requires n <= 14 && s.o.now - start <= 30000
    ensures var s' := Run(s, Persist(n, s.o.now)); Trying(s', m, n, start) && s'.o.now == TryAt(n, s.o.now)
  {
    hide Step, Again, Starts;
    if n > 0 {
      var t := s.o.now;
      KeepsTrying(s, m, n - 1, start);
      TryAtIs(n, t);
      assert TryAt(n, t) == NextDue(TryAt(n - 1, t), n - 1);
      FirstHasStart(s, m, n - 1, start);
      TriedOnceMore(Run(s, Persist(n - 1, t)), m, n - 1, start);
      RunConcat(s, Persist(n - 1, t), Again(TryAt(n, t)));
    }
  }

  lemma FirstHasStart(s: State, m: Message, n: nat, start: int)
    requires Shaped(s) && Starts(s, m, start)
    ensures n == 0 ==> Starts(Run(s, Persist(n, s.o.now)), m, start)
  {
  }

  /**
  A protective message whose first try fails within 30 s of the start of its window is tried fifteen times, the last time
  59 min 30 s after the first, as long as nothing else waits for a retry and the outbox is open; and then it is given up.
  */
  lemma TriedFifteenTimes(s: State, m: Message, start: int)
    requires Trying(s, m, 0, start) && (exists d | d in m.decisions :: IsProtective(d)) && Starts(s, m, start)
    requires s.o.now - start <= 30000
    ensures var s' := Run(s, Persist(14, s.o.now));
            && s'.o.now == s.o.now + 3570000 && m.id < |s'.o.log.mail| && s'.o.log.mail[m.id].tries == 15
            && Shaped(s') && s'.hands[PROTECTIVE].Sending? && GivenUp(s', Step(s', ADelivered(PROTECTIVE, false)), PROTECTIVE, m, Idle)
  {
    hide Step;
    KeepsTrying(s, m, 14, start);
    TryAtIs(14, s.o.now);
    var began := ProtectiveFailure(Run(s, Persist(14, s.o.now)), PROTECTIVE, m, 14, Some(start), Idle);
  }
}
