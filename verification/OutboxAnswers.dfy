/**
What the answers of the deliverer and the database lead to (pkg/attention/retry.go, handoff.go), in literal times: which
failed message waits for another try and until when, and where each decision of a message that is given up goes.
*/
module OutboxAnswers {
  import opened Wrappers
  import opened Attention
  import opened OutboxSpec
  import opened OutboxLanes

  // ---- the retry of a failed message ----------------------------------------------------------------------------------

  // Hand i is at the deliverer with this message, after so many failures.
  predicate AtDeliverer(s: State, i: nat, m: Message, failed: nat, since: Option<int>, next: Work) {
    Shaped(s) && i < |s.hands| && s.hands[i] == Sending(m, failed, since, next)
  }

  // 30, 90 and 150 s after the first failures, and 5 min after each that follows.
  function NextDue(now: int, failed: nat): int {
    now + match failed
          case 0 => 30000
          case 1 => 90000
          case 2 => 150000
          case _ => 300000
  }

  // The k-th waiting retry is of a message with a protective decision, or of one without.
  predicate WaitsAt(rs: seq<Retry>, protective: bool, k: nat) {
    k < |rs| && (exists d | d in rs[k].m.decisions :: IsProtective(d)) == protective
  }

  ghost function WaitingPlaces(rs: seq<Retry>, protective: bool): set<nat> {
    set k: nat | k < |rs| && WaitsAt(rs, protective, k)
  }

  lemma OneMorePlace(front: seq<Retry>, r: Retry, protective: bool)
    ensures WaitingPlaces(front + [r], protective)
            == WaitingPlaces(front, protective) + if HasProtective(r.m.decisions) == protective then {|front|} else {}
  {
    var rs := front + [r];
    forall k: nat | k < |rs| ensures WaitsAt(rs, protective, k) <==>
                                      if k < |front| then WaitsAt(front, protective, k) else HasProtective(r.m.decisions) == protective {
      assert k < |front| ==> rs[k] == front[k];
    }
  }

  lemma {:induction false} WaitingCount(rs: seq<Retry>, protective: bool)
    ensures CountWaiting(rs, protective) == |WaitingPlaces(rs, protective)|
  {
    hide WaitsAt, HasProtective;
    if rs == [] {
      assert WaitingPlaces(rs, protective) == {};
    } else {
      var front, r := rs[..|rs| - 1], rs[|rs| - 1];
      WaitingCount(front, protective);
      OneMorePlace(front, r, protective);
      assert rs == front + [r];
      assert |front| !in WaitingPlaces(front, protective);
    }
  }

  // The start of the retry window: kept from the first failure on, then the oldest protective decision's time, or now.
  predicate IsWindowStart(ds: seq<Decision>, since: Option<int>, now: int, start: int) {
    match since
    case Some(t) => start == t
    case None =>
      && start <= now && (forall d | d in ds && IsProtective(d) && d.at.Some? :: start <= d.at.value)
      && (start == now || exists d | d in ds :: IsProtective(d) && d.at == Some(start))
  }

  lemma {:induction false} SinceIsStart(ds: seq<Decision>, now: int)
    ensures IsWindowStart(ds, None, now, ProtectiveSince(ds, now))
  {
    if ds != [] {
      var front, d := ds[..|ds| - 1], ds[|ds| - 1];
      SinceIsStart(front, now);
      assert ds == front + [d];
    }
  }

  // Nothing but the retries, the count of strays and the hand changed.
  predicate Requeued(s: State, s': State, i: nat, r: Retry, next: Work)
    requires i < |s.hands|
  {
    && s'.hands == s.hands[i := next] && s'.o.retries == s.o.retries + [r]
    && s'.o.(retries := s.o.retries, log := s.o.log) == s.o && s'.o.log.(stray := s.o.log.stray) == s.o.log
  }

  predicate GivenUp(s: State, s': State, i: nat, m: Message, next: Work)
    requires i < |s.hands|
  {
    s'.o == s.o && s'.hands == s.hands[i := Ending(m, m.decisions, next)]
  }

  lemma FailureIs(s: State, i: nat, m: Message, failed: nat, since: Option<int>, next: Work)
    requires AtDeliverer(s, i, m, failed, since, next)
    ensures Step(s, ADelivered(i, false)) == AfterFailure(s, i, m, ScheduleRetry(s.o, m, failed + 1, since), next)
  {
  }

  lemma AfterFailureIs(s: State, i: nat, m: Message, r: Option<Retry>, next: Work)
    requires i < |s.hands|
    ensures var s' := AfterFailure(s, i, m, r, next);
            if r.Some? then Requeued(s, s', i, r.value, next) else GivenUp(s, s', i, m, next)
  {
  }

  // What retry.go:141-165 plans, for a message with a protective decision and one without.
  lemma ProtectivePlan(m: Message, failed: nat, since: Option<int>, now: int) returns (start: int)
    requires exists d | d in m.decisions :: IsProtective(d)
    ensures IsWindowStart(m.decisions, since, now, start)
    ensures NextRetry(m, failed + 1, since, now)
            == if NextDue(now, failed) - start <= 3600000 then Some(Retry(m, failed + 1, NextDue(now, failed), Some(start))) else None
  {
    start := if since.Some? then since.value else ProtectiveSince(m.decisions, now);
    SinceIsStart(m.decisions, now);
    assert HasProtective(m.decisions);
  }

  predicate Old(ds: seq<Decision>, at: int) {
    exists d | d in ds :: d.at.Some? && at - d.at.value > 360000
  }

  lemma OrdinaryPlan(m: Message, failed: nat, since: Option<int>, now: int)
    requires forall d | d in m.decisions :: !IsProtective(d)
    ensures NextRetry(m, failed + 1, since, now)
            == if failed < 3 && !Old(m.decisions, NextDue(now, failed)) then Some(Retry(m, failed + 1, NextDue(now, failed), since)) else None
  {
    var due := NextDue(now, failed);
    assert !HasProtective(m.decisions);
    assert PastLease(m.decisions, due) <==> Old(m.decisions, due) by {
      if d :| d in m.decisions && d.at.Some? && due - d.at.value > 360000 { assert TooLate(d, due); }
    }
  }

  /**
  A message with a protective decision that was not taken is tried again if and only if the outbox is open, fewer than 16
  such messages wait, and the next try is within an hour of the start of its window; then exactly one retry waits for it,
  which knows that start. Otherwise the message is given up.
  */
  lemma ProtectiveFailure(s: State, i: nat, m: Message, failed: nat, since: Option<int>, next: Work) returns (start: int)
    requires AtDeliverer(s, i, m, failed, since, next) && exists d | d in m.decisions :: IsProtective(d)
    ensures IsWindowStart(m.decisions, since, s.o.now, start)
    ensures var s', due := Step(s, ADelivered(i, false)), NextDue(s.o.now, failed);
            if !s.o.closed && |WaitingPlaces(s.o.retries, true)| < 16 && due - start <= 3600000 then
              Requeued(s, s', i, Retry(m, failed + 1, due, Some(start)), next)
            else GivenUp(s, s', i, m, next)
  {
    hide Step, NextRetry, WaitingPlaces, IsWindowStart, NextDue, Requeued, GivenUp, AfterFailure;
    start := ProtectivePlan(m, failed, since, s.o.now);
    WaitingCount(s.o.retries, true);
    FailureIs(s, i, m, failed, since, next);
    AfterFailureIs(s, i, m, ScheduleRetry(s.o, m, failed + 1, since), next);
  }

  /**
  One without is tried again if and only if it is among its first three failures, the outbox is open, fewer than 64 wait,
  and no decision of it is older than six minutes when it is due.
  */
  lemma OrdinaryFailure(s: State, i: nat, m: Message, failed: nat, since: Option<int>, next: Work)
    requires AtDeliverer(s, i, m, failed, since, next) && forall d | d in m.decisions :: !IsProtective(d)
    ensures var s', due := Step(s, ADelivered(i, false)), NextDue(s.o.now, failed);
            if !s.o.closed && failed < 3 && |WaitingPlaces(s.o.retries, false)| < 64 && !Old(m.decisions, due) then
              Requeued(s, s', i, Retry(m, failed + 1, due, since), next)
            else GivenUp(s, s', i, m, next)
  {
    hide Step, NextRetry, WaitingPlaces, NextDue, Requeued, GivenUp, AfterFailure, Old;
    OrdinaryPlan(m, failed, since, s.o.now);
    WaitingCount(s.o.retries, false);
    FailureIs(s, i, m, failed, since, next);
    AfterFailureIs(s, i, m, ScheduleRetry(s.o, m, failed + 1, since), next);
  }

  // ---- every decision of a message --------------------------------------------------------------------------------------

  // The message is done with: these decisions left, in order, each with the fate that is its own, its outcome was
  // reported, once, and nothing else changed.
  predicate Finished(s: State, s': State, i: nat, m: Message, ds: seq<Decision>, fate: Decision -> Fate, delivered: bool, next: Work)
    requires i < |s.hands|
  {
    && s'.hands == s.hands[i := next] && s'.o == s.o.(log := s'.o.log)
    && s'.o.log == s.o.log.(settled := s.o.log.settled + seq(|ds|, k requires 0 <= k < |ds| => Settled(ds[k], fate(ds[k]))),
                            outcomes := s.o.log.outcomes + [Outcome(m.id, delivered)])
  }

  /** A message that is taken is told: each of its decisions is, and its outcome is reported as delivered. */
  lemma TakenIsTold(s: State, i: nat, m: Message, failed: nat, since: Option<int>, next: Work)
    requires AtDeliverer(s, i, m, failed, since, next)
    ensures Finished(s, Step(s, ADelivered(i, true)), i, m, m.decisions, d => Told, true, next)
  {
    assert WithFate(m.decisions, Told) == seq(|m.decisions|, k requires 0 <= k < |m.decisions| => Settled(m.decisions[k], Told));
  }

  // One decision after the other.
  function Each(a: Action, n: nat): seq<Action> {
    seq(n, k => a)
  }

  lemma EachNext(a: Action, n: nat)
    ensures Each(a, n + 1) == Each(a, n) + [a]
  {
  }

  // Where a decision goes whose message is given up, when the database answers.
  function LastFate(d: Decision): Fate {
    if IsProtective(d) then Released else ToDigest
  }

  function Fates(ds: seq<Decision>): seq<Settled> {
    seq(|ds|, k requires 0 <= k < |ds| => Settled(ds[k], LastFate(ds[k])))
  }

  // Hand i is at decision n of the message it gives up, and the ones before have left.
  predicate Ends(s: State, s': State, i: nat, m: Message, ds: seq<Decision>, n: nat, next: Work) {
    && i < |s.hands| && n <= |ds|
    && s'.hands == s.hands[i := Ending(m, ds[n..], next)]
    && s'.o == s.o.(log := s'.o.log) && s'.o.log == s.o.log.(settled := s.o.log.settled + Fates(ds[..n]))
  }

  lemma OneMoreEnds(s: State, s1: State, i: nat, m: Message, ds: seq<Decision>, n: nat, next: Work)
    requires Shaped(s1) && Ends(s, s1, i, m, ds, n, next) && n < |ds|
    ensures Ends(s, Step(s1, AEnd(i, true)), i, m, ds, n + 1, next)
  {
    assert ds[n..][0] == ds[n] && ds[n..][1..] == ds[n + 1..];
    assert Fates(ds[..n + 1]) == Fates(ds[..n]) + [Settled(ds[n], LastFate(ds[n]))];
    assert s.o.log.settled + Fates(ds[..n + 1]) == s.o.log.settled + Fates(ds[..n]) + [Settled(ds[n], LastFate(ds[n]))];
  }

  lemma {:induction false} SomeEnd(s: State, i: nat, m: Message, ds: seq<Decision>, n: nat, next: Work)
    requires Shaped(s) && i < |s.hands| && s.hands[i] == Ending(m, ds, next) && n <= |ds|
    ensures Ends(s, Run(s, Each(AEnd(i, true), n)), i, m, ds, n, next)
  {
    hide Step;
    if n == 0 {
      assert ds[0..] == ds && Fates(ds[..0]) == [] && s.o.log.settled + [] == s.o.log.settled;
      assert s.hands[i := s.hands[i]] == s.hands;
    } else {
      SomeEnd(s, i, m, ds, n - 1, next);
      EachNext(AEnd(i, true), n - 1);
      RunLast(s, Each(AEnd(i, true), n - 1), AEnd(i, true));
      OneMoreEnds(s, Run(s, Each(AEnd(i, true), n - 1)), i, m, ds, n - 1, next);
    }
  }

  lemma EndsDone(s: State, s1: State, i: nat, m: Message, ds: seq<Decision>, next: Work)
    requires Shaped(s1) && Ends(s, s1, i, m, ds, |ds|, next)
    ensures Finished(s, Step(s1, AEnd(i, true)), i, m, ds, d => if IsProtective(d) then Released else ToDigest, false, next)
  {
    assert ds[..|ds|] == ds && ds[|ds|..] == [];
    assert s1.hands[i := next] == s.hands[i := next];
    assert Fates(ds) == seq(|ds|, k requires 0 <= k < |ds| => Settled(ds[k], if IsProtective(ds[k]) then Released else ToDigest));
  }

  /**
  While the database answers, giving a message up takes one step a decision and one more: a protective decision is
  released, every other one reaches the digest, in order, and the message is reported as not delivered.
  */
  lemma GivingUpSettlesAll(s: State, i: nat, m: Message, ds: seq<Decision>, next: Work)
    requires Shaped(s) && i < |s.hands| && s.hands[i] == Ending(m, ds, next)
    ensures Finished(s, Run(s, Each(AEnd(i, true), |ds| + 1)), i, m, ds, d => if IsProtective(d) then Released else ToDigest, false, next)
  {
    hide Step, Finished;
    SomeEnd(s, i, m, ds, |ds|, next);
    EachNext(AEnd(i, true), |ds|);
    RunLast(s, Each(AEnd(i, true), |ds|), AEnd(i, true));
    EndsDone(s, Run(s, Each(AEnd(i, true), |ds|)), i, m, ds, next);
  }

  // The decision waits for a later tick, or is abandoned because 1024 already do.
  predicate Postponed(o: Shared, o': Shared, d: Decision, release: bool) {
    if |o.deferred| < 1024 then o' == o.(deferred := o.deferred + [Deferral(d, release, 0)])
    else o' == o.(log := o.log.(settled := o.log.settled + [Settled(d, Abandoned)]))
  }

  /** When the database does not answer, the decision is left to the ticks, to be released if it is protective. */
  lemma GivingUpPostpones(s: State, i: nat, m: Message, rest: seq<Decision>, next: Work)
    requires Shaped(s) && i < |s.hands| && s.hands[i] == Ending(m, rest, next) && rest != []
    ensures var s' := Step(s, AEnd(i, false));
            s'.hands == s.hands[i := Ending(m, rest[1..], next)] && Postponed(s.o, s'.o, rest[0], IsProtective(rest[0]))
  {
    var d := rest[0];
    DefersOne(s.o, d, IsProtective(d));
  }

  lemma DefersOne(o: Shared, d: Decision, release: bool)
    ensures Postponed(o, Defer(o, [d], release), d, release)
  {
    if |o.deferred| < 1024 {
      assert [d][..1] == [d] && AsDeferrals([d], release) == [Deferral(d, release, 0)] && WithFate([d][1..], Abandoned) == [];
      assert o.log.settled + [] == o.log.settled;
    } else {
      assert [d][..0] == [] && AsDeferrals([], release) == [] && [d][0..] == [d] && WithFate([d], Abandoned) == [Settled(d, Abandoned)];
      assert o.deferred + [] == o.deferred;
    }
  }

  // ---- a group that waited too long -------------------------------------------------------------------------------------

  /**
  The ordinary worker begins to send a group if and only if none of its decisions is older than six minutes; otherwise
  they go to the digest.
  */
  lemma OldGroupsAge(s: State, g: seq<Decision>, next: Work)
    requires Shaped(s) && s.hands[ORDINARY] == Holding(Group(g), next)
    ensures var s', m := Step(s, ABegin(ORDINARY)), Message(|s.o.log.mail|, g);
            if Old(g, s.o.now) then s' == State(s.o, s.hands[ORDINARY := Aging(g, next)])
            else s'.hands == s.hands[ORDINARY := Sending(m, 0, None, next)] && s'.o.log.tries == s.o.log.tries + [Try(ORDINARY, s.o.now, m)]
  {
    if d :| d in g && d.at.Some? && s.o.now - d.at.value > 360000 { assert TooLate(d, s.o.now); }
  }

  /** Each of them does, when the database answers and the decision is not protective by its reason. */
  lemma AgedGoesToDigest(s: State, rest: seq<Decision>, next: Work, ok: bool)
    requires Shaped(s) && s.hands[ORDINARY] == Aging(rest, next)
    ensures var s' := Step(s, AAge(ok));
            if rest == [] then s' == State(s.o, s.hands[ORDINARY := next])
            else
              && s'.hands == s.hands[ORDINARY := Aging(rest[1..], next)] && s'.o == s.o.(log := s'.o.log)
              && s'.o.log == s.o.log.(settled := s.o.log.settled +
                   [Settled(rest[0], if ok && rest[0].reason != Reason.Protective then ToDigest else DeferralFailed)])
  {
  }

  // ---- the backlog ------------------------------------------------------------------------------------------------------

  /**
  A tick settles what was postponed: released or to the digest as it was meant, when the database answers; else it is tried
  on later ticks, three times in all.
  */
  lemma DeferralsAreTriedThrice(s: State, todo: seq<Deferral>, again: seq<Deferral>, ok: bool)
    requires Shaped(s) && s.hands[RUNNER] == Settling(todo, again) && todo != []
    ensures var f, s' := todo[0], Step(s, ASettle(ok)); var done := ok && (f.release || f.d.reason != Reason.Protective);
            && s'.hands[RUNNER] == Settling(todo[1..], if !done && f.tries < 2 then again + [Deferral(f.d, f.release, f.tries + 1)] else again)
            && s'.o == s.o.(log := s'.o.log)
            && s'.o.log == s.o.log.(settled := s.o.log.settled +
                 if done then [Settled(f.d, if f.release then Released else ToDigest)]
                 else if f.tries < 2 then [] else [Settled(f.d, DeferralFailed)])
  {
    if !(ok && CanSettle(todo[0].d, todo[0].release)) && todo[0].tries < 2 {
      assert s.o.log.settled + [] == s.o.log.settled;
    }
  }
}
