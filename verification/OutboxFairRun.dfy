/**
The limit of the ordinary lane, its slots, the waiting retries and one, passed on a run in which no worker idles: time
moves on only while each of the two is at work or has nothing to do, and every delivery ends inside its timeout.

The run is made of waves: a burst of groups that fail on the protective lane, and their retries 30 s later. Each lemma
takes the run one wave, or one part of a wave, further.
*/
module OutboxFairRun {
  import opened Wrappers
  import opened Attention
  import opened OutboxSpec
  import opened OutboxLanes
  import opened OutboxFindings

  // ---- runs in which no worker idles ------------------------------------------------------------------------------

  predicate Attended(s: State)
    requires Shaped(s)
  {
    && (s.hands[ORDINARY].Idle? ==> s.o.ord == [])
    && (s.hands[PROTECTIVE].Idle? ==> s.o.prot == [] && s.o.protRetry == [])
  }

  predicate PassesAt(s: State, actions: seq<Action>, k: nat)
    requires Shaped(s) && k < |actions|
  {
    actions[k].AClock? ==> Attended(Run(s, actions[..k]))
  }

  // Whenever time passes, a lane without a worker at work is empty; and every answer of the deliverer is in time.
  ghost predicate Fair(s: State, actions: seq<Action>)
    requires Shaped(s)
  {
    Timely(s, actions) && forall k | 0 <= k < |actions| :: PassesAt(s, actions, k)
  }

  lemma FairConcat(s: State, a: seq<Action>, b: seq<Action>)
    requires Shaped(s) && Fair(s, a) && Fair(Run(s, a), b)
    ensures Fair(s, a + b) && Run(s, a + b) == Run(Run(s, a), b)
  {
    hide Step;
    TimelyConcat(s, a, b);
    forall k | 0 <= k < |a + b| ensures PassesAt(s, a + b, k) {
      if k < |a| {
        assert (a + b)[..k] == a[..k];
        assert PassesAt(s, a, k);
      } else {
        assert (a + b)[..k] == a + b[..k - |a|];
        RunConcat(s, a, b[..k - |a|]);
        assert PassesAt(Run(s, a), b, k - |a|);
      }
    }
  }

  lemma FairWithoutClock(s: State, actions: seq<Action>)
    requires Shaped(s) && Timely(s, actions) && forall a | a in actions :: !a.AClock?
    ensures Fair(s, actions)
  {
    hide Step;
  }

  lemma FairClock(s: State, to: int, a: Action)
    requires Shaped(s) && Timely(s, [AClock(to), a]) && Attended(s) && !a.AClock?
    ensures Fair(s, [AClock(to), a])
  {
    hide Step;
    assert [AClock(to), a][..0] == [];
    assert Run(s, []) == s;
  }

  // ---- a lane whose every message fails -----------------------------------------------------------------------------

  predicate AllLight(ds: seq<Decision>, at: int) {
    forall d | d in ds :: !IsProtective(d) && d.at == Some(at)
  }

  predicate FirstTry(w: Work, at: int, ids: nat) {
    w.Sending? && w == Sending(w.m, 0, None, Idle) && AllLight(w.m.decisions, at) && w.m.id < ids
  }

  predicate ComesBack(r: Retry, at: int, due: int, ids: nat) {
    r.due == due && AllLight(r.m.decisions, at) && r.m.id < ids
  }

  // The ordinary worker sends since then, or has nothing to do.
  predicate Tended(s: State, since: int)
    requires Shaped(s)
  {
    && (s.hands[ORDINARY].Idle? || s.hands[ORDINARY].Sending?)
    && (s.hands[ORDINARY].Idle? ==> s.o.ord == [])
    && (s.hands[ORDINARY].Sending? ==> Begun(s.o.log.tries, ORDINARY, since))
  }

  // The protective worker sends ordinary decisions made at this time, and only such are pending.
  predicate Failing(s: State, at: int, begun: int) {
    && Shaped(s) && s.hands[RUNNER].Idle? && NoCallers(s) && !s.o.closed && s.o.protRetry == []
    && FirstTry(s.hands[PROTECTIVE], at, |s.o.log.mail|) && Begun(s.o.log.tries, PROTECTIVE, begun)
    && AllLight(s.o.prot, at)
    && forall r | r in s.o.retries :: ComesBack(r, at, s.o.now + 30 * SECOND, |s.o.log.mail|)
  }

  // Where the run is: when the decisions were made, when the two workers began what they send, if the ordinary one does,
  // what the time is, how many messages failed at this time, more than how many groups are left, the length of the
  // ordinary lane and its slots, and how many decisions are buffered.
  datatype Stage = Stage(
    at: int, begun: int, busy: bool, since: int, now: int, waiting: nat, left: nat, length: nat, slots: nat, buffered: nat)

  predicate Counts(s: State, g: Stage)
    requires Shaped(s)
  {
    && s.o.now == g.now && |s.o.retries| == g.waiting && |s.o.prot| > 64 * g.left && |s.o.ord| == g.length
    && s.hands[ORDINARY].Sending? == g.busy && s.o.ordSlots == g.slots && |s.o.buf| == g.buffered
  }

  predicate Reached(s: State, g: Stage) {
    Failing(s, g.at, g.begun) && Tended(s, g.since) && Counts(s, g)
  }

  // A failure now can still wait for its retry, and what is being sent is not late.
  predicate Open(g: Stage) {
    g.now + 30 * SECOND - g.at <= MAX_QUEUE_AGE && g.now - SLOWEST <= g.begun && (g.busy ==> g.now - SLOWEST <= g.since)
  }

  lemma {:induction false} BegunEarlier(tries: seq<Try>, lane: nat, since: int, before: int)
    requires Begun(tries, lane, since) && before <= since
    ensures Begun(tries, lane, before)
  {
    if tries[|tries| - 1].lane != lane { BegunEarlier(tries[..|tries| - 1], lane, since, before); }
  }

  lemma NobodyIsLate(s: State, begun: int, since: int)
    requires Shaped(s) && s.hands[RUNNER].Idle? && NoCallers(s)
    requires s.hands[PROTECTIVE].Sending? ==> Begun(s.o.log.tries, PROTECTIVE, begun) && s.o.now - SLOWEST <= begun
    requires s.hands[ORDINARY].Sending? ==> Begun(s.o.log.tries, ORDINARY, since) && s.o.now - SLOWEST <= since
    ensures InTime(s)
  {
    if s.hands[PROTECTIVE].Sending? { BegunEarlier(s.o.log.tries, PROTECTIVE, begun, s.o.now - SLOWEST); }
    if s.hands[ORDINARY].Sending? { BegunEarlier(s.o.log.tries, ORDINARY, since, s.o.now - SLOWEST); }
  }

  lemma ReachedInTime(s: State, g: Stage)
    requires Reached(s, g) && Open(g)
    ensures InTime(s)
  {
    NobodyIsLate(s, g.begun, g.since);
  }

  lemma {:induction false} WaitingAtMost(rs: seq<Retry>, protective: bool)
    ensures CountWaiting(rs, protective) <= |rs|
  {
    if rs != [] { WaitingAtMost(rs[..|rs| - 1], protective); }
  }

  // The message waits for its retry.
  function Failed(s: State): State
    requires Shaped(s) && s.hands[PROTECTIVE].Sending?
  {
    State(Queue(s.o, Retry(s.hands[PROTECTIVE].m, 1, s.o.now + 30 * SECOND, None), 1), s.hands[PROTECTIVE := Idle])
  }

  lemma ItFails(s: State, at: int, begun: int)
    requires Failing(s, at, begun) && |s.o.retries| < 64 && s.o.now + 30 * SECOND - at <= MAX_QUEUE_AGE
    ensures Step(s, ADelivered(PROTECTIVE, false)) == Failed(s)
  {
    var m := s.hands[PROTECTIVE].m;
    WaitingAtMost(s.o.retries, false);
    assert !HasProtective(m.decisions) && !PastLease(m.decisions, s.o.now + 30 * SECOND);
    assert NextRetry(m, 1, None, s.o.now) == Some(Retry(m, 1, s.o.now + 30 * SECOND, None));
  }

  lemma NextIsFailing(s: State, at: int, begun: int)
    requires Failing(s, at, begun)
    ensures Failing(Sent(Failed(s)), at, s.o.now)
  {
    var s' := Sent(Failed(s));
    assert forall d | d in NextGroup(s.o) :: d in s.o.prot;
    assert forall d | d in s'.o.prot :: d in s.o.prot;
    assert s'.o.log.tries[..|s.o.log.tries|] == s.o.log.tries;
  }

  lemma NextIsReached(s: State, g: Stage)
    requires Reached(s, g) && g.left > 0
    ensures Reached(Sent(Failed(s)), g.(begun := g.now, waiting := g.waiting + 1, left := g.left - 1))
  {
    NextIsFailing(s, g.at, g.begun);
    assert Sent(Failed(s)).o.log.tries[..|s.o.log.tries|] == s.o.log.tries;
  }

  const FAIL_NEXT: seq<Action> := [ADelivered(PROTECTIVE, false), APopProtective, ABegin(PROTECTIVE)]

  lemma FailingInTime(s: State, g: Stage)
    requires Reached(s, g) && Open(g) && g.left > 0
    ensures InTime(s) && InTime(Failed(s)) && InTime(Taken(Failed(s))) && InTime(Sent(Failed(s)))
  {
    ReachedInTime(s, g);
    NobodyIsLate(Failed(s), g.begun, g.since);
    NobodyIsLate(Taken(Failed(s)), g.begun, g.since);
    NextIsReached(s, g);
    ReachedInTime(Sent(Failed(s)), g.(begun := g.now, waiting := g.waiting + 1, left := g.left - 1));
  }

  // One more message fails, and the lane goes on with the next group.
  lemma OneFails(s: State, g: Stage)
    requires Reached(s, g) && Open(g) && g.waiting < 64 && g.left > 0
    ensures Fair(s, FAIL_NEXT)
    ensures Reached(Run(s, FAIL_NEXT), g.(begun := g.now, waiting := g.waiting + 1, left := g.left - 1))
  {
    hide Step;
    ItFails(s, g.at, g.begun);
    TakenThenSent(Failed(s));
    FailingInTime(s, g);
    TimelyThree(s, ADelivered(PROTECTIVE, false), APopProtective, ABegin(PROTECTIVE));
    FairWithoutClock(s, FAIL_NEXT);
    NextIsReached(s, g);
  }

  function Fails(k: nat): seq<Action> {
    if k == 0 then [] else Fails(k - 1) + FAIL_NEXT
  }

  function AfterFails(g: Stage, k: nat): Stage
    requires k <= g.left
  {
    g.(begun := if k == 0 then g.begun else g.now, waiting := g.waiting + k, left := g.left - k)
  }

  lemma FairNone(s: State, g: Stage)
    requires Reached(s, g) && Open(g)
    ensures Fair(s, []) && Run(s, []) == s
  {
    hide Step;
    ReachedInTime(s, g);
    TimelyNone(s);
  }

  lemma {:induction false} ManyFail(s: State, g: Stage, k: nat)
    requires Reached(s, g) && Open(g) && g.waiting + k <= 64 && k <= g.left
    ensures Fair(s, Fails(k)) && Reached(Run(s, Fails(k)), AfterFails(g, k))
  {
    hide Step, Run, Fair;
    if k == 0 {
      FairNone(s, g);
    } else {
      ManyFail(s, g, k - 1);
      OneFails(Run(s, Fails(k - 1)), AfterFails(g, k - 1));
      FairConcat(s, Fails(k - 1), FAIL_NEXT);
    }
  }

  // ---- the retries come back ----------------------------------------------------------------------------------------

  lemma {:induction false} AllDue(rs: seq<Retry>, now: int)
    requires forall r | r in rs :: r.due == now && !HasProtective(r.m.decisions)
    ensures DueFor(rs, now, false) == rs && DueFor(rs, now, true) == [] && Waiting(rs, now) == []
  {
    if rs != [] {
      assert rs[|rs| - 1] in rs && rs == rs[..|rs| - 1] + [rs[|rs| - 1]];
      AllDue(rs[..|rs| - 1], now);
    }
  }

  // All of them are in the ordinary lane, 30 s later.
  function Back(s: State): State {
    State(s.o.(now := s.o.now + 30 * SECOND, retries := [], ord := s.o.ord + AsJobs(s.o.retries)), s.hands)
  }

  function Later(s: State): State {
    State(s.o.(now := s.o.now + 30 * SECOND), s.hands)
  }

  lemma TheyComeBack(s: State, at: int, begun: int)
    requires Failing(s, at, begun)
    ensures Step(s, AClock(s.o.now + 30 * SECOND)) == Later(s) && Step(Later(s), ADueRetries) == Back(s)
  {
    forall r | r in s.o.retries ensures !HasProtective(r.m.decisions) {
      assert ComesBack(r, at, s.o.now + 30 * SECOND, |s.o.log.mail|);
    }
    AllDue(s.o.retries, s.o.now + 30 * SECOND);
    assert s.o.protRetry + [] == s.o.protRetry;
  }

  function ComeBack(now: int): seq<Action> {
    [AClock(now + 30 * SECOND), ADueRetries]
  }

  predicate OpenLater(g: Stage) {
    Open(g.(now := g.now + 30 * SECOND))
  }

  lemma AllComeBack(s: State, g: Stage)
    requires Reached(s, g) && OpenLater(g)
    ensures Fair(s, ComeBack(g.now)) && Run(s, ComeBack(g.now)) == Back(s)
  {
    hide Step;
    TheyComeBack(s, g.at, g.begun);
    NobodyIsLate(s, g.begun, g.since);
    NobodyIsLate(Later(s), g.begun, g.since);
    NobodyIsLate(Back(s), g.begun, g.since);
    TimelyTwo(s, AClock(g.now + 30 * SECOND), ADueRetries);
    FairClock(s, g.now + 30 * SECOND, ADueRetries);
  }

  // 64 messages fail, and come back.
  function Wave(now: int): seq<Action> {
    Fails(64) + ComeBack(now)
  }

  function AfterWave(g: Stage): Stage
    requires g.left >= 64
  {
    g.(begun := g.now, now := g.now + 30 * SECOND, left := g.left - 64, length := g.length + 64)
  }

  lemma WaveComesBack(s: State, g: Stage)
    requires Reached(s, g) && Open(g) && OpenLater(g) && g.busy && g.waiting == 0 && g.left >= 64
    ensures Fair(s, Wave(g.now)) && Reached(Run(s, Wave(g.now)), AfterWave(g))
  {
    hide Step, Run, Fair;
    ManyFail(s, g, 64);
    var s1 := Run(s, Fails(64));
    AllComeBack(s1, AfterFails(g, 64));
    FairConcat(s, Fails(64), ComeBack(g.now));
  }

  // The time after n waves.
  function After(n: nat, now: int): int {
    if n == 0 then now else After(n - 1, now) + 30 * SECOND
  }

  function Waves(n: nat, now: int): seq<Action> {
    if n == 0 then [] else Waves(n - 1, now) + Wave(After(n - 1, now))
  }

  function AfterWaves(g: Stage, n: nat): Stage
    requires n <= 3 && g.left >= 192
  {
    g.(begun := if n == 0 then g.begun else After(n - 1, g.now), now := After(n, g.now),
       left := g.left - 64 * n, length := g.length + 64 * n)
  }

  // The ordinary worker has just begun.
  predicate JustBusy(g: Stage) {
    && g.busy && g.since == g.now && g.waiting == 0 && g.left >= 192
    && g.begun == g.now - 30 * SECOND && g.at == g.begun
  }

  lemma StillOpen(g: Stage, n: nat)
    requires n <= 2 && JustBusy(g)
    ensures Open(AfterWaves(g, n)) && OpenLater(AfterWaves(g, n))
  {
    assert After(1, g.now) == g.now + 30 * SECOND;
    assert After(2, g.now) == g.now + 60 * SECOND;
  }

  // As many as three waves come back while it sends one message.
  lemma {:induction false} WavesComeBack(s: State, g: Stage, n: nat)
    requires n <= 3 && Reached(s, g) && JustBusy(g)
    ensures Fair(s, Waves(n, g.now)) && Reached(Run(s, Waves(n, g.now)), AfterWaves(g, n))
  {
    hide Step, Run, Fair;
    if n == 0 {
      FairNone(s, g);
    } else {
      WavesComeBack(s, g, n - 1);
      StillOpen(g, n - 1);
      WaveComesBack(Run(s, Waves(n - 1, g.now)), AfterWaves(g, n - 1));
      FairConcat(s, Waves(n - 1, g.now), Wave(After(n - 1, g.now)));
    }
  }

  // ---- the ordinary worker begins ------------------------------------------------------------------------------------

  const BEGIN_ORDINARY: seq<Action> := [APopOrdinary, ABegin(ORDINARY)]

  function Popped(s: State, r: Retry): State
    requires Shaped(s)
  {
    Set(s, ORDINARY, Holding(RetryJob(r), Idle), s.o.(ord := []))
  }

  function Works(s: State, r: Retry): State
    requires Shaped(s) && r.m.id < |s.o.log.mail|
  {
    Set(s, ORDINARY, Sending(r.m, r.failed, r.since, Idle), CountTry(s.o.(ord := []), ORDINARY, r.m))
  }

  lemma ItWorks(s: State, r: Retry, at: int)
    requires Shaped(s) && s.hands[ORDINARY].Idle? && s.o.ord == [RetryJob(r)]
    requires AllLight(r.m.decisions, at) && s.o.now - at <= MAX_QUEUE_AGE && r.m.id < |s.o.log.mail|
    ensures Step(s, APopOrdinary) == Popped(s, r) && Step(Popped(s, r), ABegin(ORDINARY)) == Works(s, r)
  {
    assert !PastLease(r.m.decisions, s.o.now);
  }

  lemma WorksAndFails(s: State, r: Retry, at: int, begun: int)
    requires Failing(s, at, begun) && r.m.id < |s.o.log.mail|
    ensures Failing(Works(s, r), at, begun) && Tended(Works(s, r), s.o.now)
  {
    assert Works(s, r).o.log.tries[..|s.o.log.tries|] == s.o.log.tries;
  }

  // The one retry that came back is taken by the ordinary worker.
  lemma WorkerBegins(s: State, r: Retry, g: Stage)
    requires Failing(s, g.at, g.begun) && Counts(s, g) && Open(g) && !g.busy && s.hands[ORDINARY].Idle?
    requires s.o.ord == [RetryJob(r)] && AllLight(r.m.decisions, g.at) && r.m.id < |s.o.log.mail|
    ensures Fair(s, BEGIN_ORDINARY)
    ensures Reached(Run(s, BEGIN_ORDINARY), g.(busy := true, since := g.now, length := 0))
  {
    hide Step;
    ItWorks(s, r, g.at);
    WorksAndFails(s, r, g.at, g.begun);
    NobodyIsLate(s, g.begun, g.now);
    NobodyIsLate(Popped(s, r), g.begun, g.now);
    NobodyIsLate(Works(s, r), g.begun, g.now);
    TimelyTwo(s, APopOrdinary, ABegin(ORDINARY));
    FairWithoutClock(s, BEGIN_ORDINARY);
  }

  // One message fails and comes back, and the ordinary worker begins to send it.
  function FirstBack(now: int): seq<Action> {
    FAIL_NEXT + ComeBack(now) + BEGIN_ORDINARY
  }

  function AfterFirst(g: Stage): Stage
    requires g.left > 0
  {
    g.(begun := g.now, now := g.now + 30 * SECOND, busy := true, since := g.now + 30 * SECOND, left := g.left - 1, length := 0)
  }

  lemma OneIsBack(s: State, g: Stage)
    requires Reached(s, g) && !g.busy && g.waiting == 1
    ensures var b := Back(s);
            && |s.o.retries| == 1 && b.o.ord == [RetryJob(s.o.retries[0])] && s.o.retries[0] in s.o.retries
            && Failing(b, g.at, g.begun) && Counts(b, g.(now := g.now + 30 * SECOND, waiting := 0, length := 1))
  {
    assert AsJobs(s.o.retries) == [RetryJob(s.o.retries[0])];
  }

  lemma FirstComesBack(s: State, g: Stage)
    requires Reached(s, g) && Open(g) && !g.busy && g.waiting == 0 && g.left > 0 && g.at == g.now
    ensures Fair(s, FirstBack(g.now)) && Reached(Run(s, FirstBack(g.now)), AfterFirst(g))
  {
    hide Step, Run, Fair;
    OneFails(s, g);
    var s1, g1 := Run(s, FAIL_NEXT), g.(begun := g.now, waiting := 1, left := g.left - 1);
    AllComeBack(s1, g1);
    OneIsBack(s1, g1);
    FairConcat(s, FAIL_NEXT, ComeBack(g.now));
    WorkerBegins(Back(s1), s1.o.retries[0], g1.(now := g.now + 30 * SECOND, waiting := 0, length := 1));
    FairConcat(s, FAIL_NEXT + ComeBack(g.now), BEGIN_ORDINARY);
  }

  // ---- the lane is filled to its slots --------------------------------------------------------------------------------

  predicate AllPlain(ds: seq<Decision>) {
    forall d | d in ds :: d.disposition.Sent() && !IsProtectiveCritical(d.candidate)
  }

  // Accepting changed nothing but the buffer and the ordinary lane, as far as the lanes go.
  predicate OnlyBuffered(o: Shared, o': Shared) {
    && o'.prot == o.prot && o'.retries == o.retries && o'.protRetry == o.protRetry && o'.now == o.now && o'.closed == o.closed
    && o'.ordSlots == o.ordSlots && o'.log.tries == o.log.tries && o'.log.mail == o.log.mail
  }

  // The buffer was opened at this time, and holds so many ordinary decisions.
  predicate Holds(o: Shared, n: nat) {
    |o.buf| == n && AllPlain(o.buf) && (n > 0 ==> o.windowStart == o.now)
  }

  lemma OneJoins(o: Shared, d: Decision, n: nat)
    requires Holds(o, n) && n < 64 && !o.closed && AllPlain([d])
    ensures var o' := AcceptOne(o, d).0; OnlyBuffered(o, o') && o'.ord == o.ord && Holds(o', n + 1)
  {
    assert d in [d];
    assert !MustTake(o);
    assert AcceptOne(o, d).0 == Join(o, d);
  }

  lemma {:induction false} TheyJoin(o: Shared, ds: seq<Decision>, n: nat)
    requires Holds(o, n) && n + |ds| <= 64 && !o.closed && AllPlain(ds)
    ensures var o' := AcceptAll(o, ds).0; OnlyBuffered(o, o') && o'.ord == o.ord && Holds(o', n + |ds|)
  {
    if ds != [] {
      var front, d := ds[..|ds| - 1], ds[|ds| - 1];
      assert d in ds;
      TheyJoin(o, front, n);
      OneJoins(AcceptAll(o, front).0, d, n + |front|);
    }
  }

  lemma {:induction false} PlainParts(group: seq<Decision>)
    requires AllPlain(group)
    ensures ProtectivePart(group) == [] && OrdinaryPart(group) == group
  {
    if group != [] {
      assert group[|group| - 1] in group && group == group[..|group| - 1] + [group[|group| - 1]];
      PlainParts(group[..|group| - 1]);
    }
  }

  lemma NoneAdded(o: Shared)
    ensures var o' := AddProtective(o, []); OnlyBuffered(o, o') && o'.ord == o.ord && o'.buf == o.buf && o'.windowStart == o.windowStart
  {
    assert AddAllTo(o.prot, []) == (o.prot, []);
  }

  lemma GroupPushed(o: Shared, group: seq<Decision>)
    requires group != [] && AllPlain(group) && |o.ord| < o.ordSlots
    ensures var o' := PushOrdinary(o, group);
            OnlyBuffered(o, o') && o'.ord == o.ord + [Group(group)] && o'.buf == o.buf && o'.windowStart == o.windowStart
  {
    PlainParts(group);
    NoneAdded(o);
  }

  // A full buffer takes a slot when the next decision comes.
  lemma OnePushes(o: Shared, d: Decision)
    requires Holds(o, 64) && !o.closed && AllPlain([d]) && |o.ord| < o.ordSlots
    ensures var o' := AcceptAll(o, [d]).0; OnlyBuffered(o, o') && |o'.ord| == |o.ord| + 1 && Holds(o', 1)
  {
    assert d in [d];
    assert [d][..0] == [] && AcceptAll(o, []).0 == o;
    assert AcceptAll(o, [d]).0 == AcceptOne(o, d).0 == PushOrdinary(Join(Take(o), d), o.buf);
    GroupPushed(Join(Take(o), d), o.buf);
  }

  // ---- the filled lane -------------------------------------------------------------------------------------------------

  // Since s, n groups took a slot, and the buffer is full again.
  predicate Stocked(s: State, s': State, n: nat) {
    s'.hands == s.hands && OnlyBuffered(s.o, s'.o) && |s'.o.ord| == |s.o.ord| + n && Holds(s'.o, 64)
  }

  lemma PlainsArePlain(from: nat, n: nat, t: int)
    ensures AllPlain(Plains(from, n, t)) && |Plains(from, n, t)| == n
  {
    forall d | d in Plains(from, n, t) ensures d.disposition.Sent() && !IsProtectiveCritical(d.candidate) {
      var i :| 0 <= i < n && Plains(from, n, t)[i] == d;
      assert d == Plain(from + i, t);
    }
  }

  lemma SameInTime(s: State, s': State)
    requires InTime(s) && s'.hands == s.hands && s'.o.log.tries == s.o.log.tries && s'.o.now == s.o.now
    ensures InTime(s')
  {
  }

  lemma Accepts(s: State, ds: seq<Decision>)
    requires Shaped(s)
    ensures Step(s, AAccept(ds)) == State(AcceptAll(s.o, ds).0, s.hands)
  {
  }

  function FillFirst(t: int): seq<Action> {
    [AAccept(Plains(13000, 64, t))]
  }

  // The decision that finds the buffer full, and 63 more.
  function FillNext(n: nat, t: int): seq<Action> {
    [AAccept(Plains(13064 + 64 * n, 1, t)), AAccept(Plains(13065 + 64 * n, 63, t))]
  }

  function Fill(n: nat, t: int): seq<Action> {
    if n == 0 then FillFirst(t) else Fill(n - 1, t) + FillNext(n - 1, t)
  }

  lemma FirstFills(s: State, t: int)
    requires Shaped(s) && InTime(s) && s.o.buf == [] && !s.o.closed
    ensures Fair(s, FillFirst(t)) && Stocked(s, Run(s, FillFirst(t)), 0)
  {
    hide Step;
    var ds := Plains(13000, 64, t);
    PlainsArePlain(13000, 64, t);
    Accepts(s, ds);
    TheyJoin(s.o, ds, 0);
    SameInTime(s, Step(s, AAccept(ds)));
    TimelyNone(s);
    TimelyAnd(s, [], AAccept(ds));
    RunLast(s, [], AAccept(ds));
    assert [] + [AAccept(ds)] == FillFirst(t);
    FairWithoutClock(s, FillFirst(t));
  }

  lemma NextAccepts(s: State, d: seq<Decision>, ds: seq<Decision>)
    requires Shaped(s) && Holds(s.o, 64) && |s.o.ord| < s.o.ordSlots && !s.o.closed
    requires |d| == 1 && |ds| == 63 && AllPlain(d) && AllPlain(ds)
    ensures Stocked(s, Step(Step(s, AAccept(d)), AAccept(ds)), 1)
    ensures OnlyBuffered(s.o, Step(s, AAccept(d)).o) && Step(s, AAccept(d)).hands == s.hands
  {
    hide Step;
    Accepts(s, d);
    assert d == [d[0]];
    OnePushes(s.o, d[0]);
    var s1 := Step(s, AAccept(d));
    Accepts(s1, ds);
    TheyJoin(s1.o, ds, 1);
  }

  lemma NextFills(s: State, n: nat, t: int)
    requires Shaped(s) && InTime(s) && Holds(s.o, 64) && |s.o.ord| < s.o.ordSlots && !s.o.closed
    ensures Fair(s, FillNext(n, t)) && Stocked(s, Run(s, FillNext(n, t)), 1)
  {
    hide Step;
    var d, ds := Plains(13064 + 64 * n, 1, t), Plains(13065 + 64 * n, 63, t);
    PlainsArePlain(13064 + 64 * n, 1, t);
    PlainsArePlain(13065 + 64 * n, 63, t);
    NextAccepts(s, d, ds);
    SameInTime(s, Step(s, AAccept(d)));
    SameInTime(s, Step(Step(s, AAccept(d)), AAccept(ds)));
    TimelyTwo(s, AAccept(d), AAccept(ds));
    FairWithoutClock(s, FillNext(n, t));
  }

  lemma {:induction false} TheyFill(s: State, n: nat, t: int)
    requires Shaped(s) && InTime(s) && s.o.buf == [] && !s.o.closed && |s.o.ord| + n <= s.o.ordSlots
    ensures Fair(s, Fill(n, t)) && Stocked(s, Run(s, Fill(n, t)), n)
  {
    hide Step, Run, Fair;
    if n == 0 {
      FirstFills(s, t);
    } else {
      TheyFill(s, n - 1, t);
      SameInTime(s, Run(s, Fill(n - 1, t)));
      NextFills(Run(s, Fill(n - 1, t)), n - 1, t);
      FairConcat(s, Fill(n - 1, t), FillNext(n - 1, t));
    }
  }

  lemma LaneIsFilled(s: State, g: Stage)
    requires Reached(s, g) && Open(g) && g.busy && g.length == 0 && g.buffered == 0
    ensures Fair(s, Fill(g.slots, g.now)) && Reached(Run(s, Fill(g.slots, g.now)), g.(length := g.slots, buffered := 64))
  {
    hide Step;
    ReachedInTime(s, g);
    TheyFill(s, g.slots, g.now);
  }

  // ---- the run ---------------------------------------------------------------------------------------------------------

  // Enough decisions for all that fail.
  const BURSTS: nat := 199

  const BEGIN_NEXT: seq<Action> := [APopProtective, ABegin(PROTECTIVE)]

  // The alarm's message is taken; what the lane goes on with is ordinary.
  const FIRST_TAKEN: seq<Action> := [ADelivered(PROTECTIVE, true), APopProtective, ABegin(PROTECTIVE)]

  function AlarmTold(s: State): State
    requires Shaped(s) && s.hands[PROTECTIVE].Sending?
  {
    var m := s.hands[PROTECTIVE].m;
    Set(s, PROTECTIVE, Idle, Reported(Left(s.o, WithFate(m.decisions, Told)), m.id, true))
  }

  lemma ItIsTold(s: State)
    requires Shaped(s) && s.hands[PROTECTIVE].Sending? && s.hands[PROTECTIVE].next.Idle?
    ensures Step(s, ADelivered(PROTECTIVE, true)) == AlarmTold(s)
  {
  }

  lemma PlainsAreLight(from: nat, n: nat, t: int)
    ensures AllLight(Plains(from, n, t), t)
  {
    forall d | d in Plains(from, n, t) ensures !IsProtective(d) && d.at == Some(t) {
      var i :| 0 <= i < n && Plains(from, n, t)[i] == d;
      assert d == Plain(from + i, t);
    }
  }

  function Started(t: int, slots: nat): Stage {
    Stage(t, t, false, t, t, 0, 193, 0, slots, 0)
  }

  // Nobody sends, and only such decisions are pending.
  predicate Quiet(s: State, t: int) {
    && Shaped(s) && s.hands[RUNNER].Idle? && NoCallers(s) && !s.o.closed && s.o.protRetry == [] && s.o.retries == []
    && s.hands[ORDINARY].Idle? && s.hands[PROTECTIVE].Idle?
    && s.o.ord == [] && s.o.buf == [] && s.o.now == t && s.o.prot == Plains(64, 12474, t)
  }

  lemma QuietIsStarted(s: State, t: int)
    requires Quiet(s, t)
    ensures Reached(Sent(s), Started(t, s.o.ordSlots)) && InTime(s) && InTime(Taken(s)) && InTime(Sent(s))
  {
    PlainsAreLight(64, 12474, t);
    SentIsBusy(s, s);
    assert forall d | d in NextGroup(s.o) :: d in s.o.prot;
    assert forall d | d in TakeGroup(s.o).prot :: d in s.o.prot;
  }

  lemma AlarmIsTaken(s: State, t: int)
    requires Shaped(s) && InTime(s) && s.hands[PROTECTIVE].Sending? && s.hands[PROTECTIVE].next.Idle? && Quiet(AlarmTold(s), t)
    ensures Fair(s, FIRST_TAKEN) && Reached(Run(s, FIRST_TAKEN), Started(t, s.o.ordSlots))
  {
    hide Step;
    ItIsTold(s);
    TakenThenSent(AlarmTold(s));
    QuietIsStarted(AlarmTold(s), t);
    TimelyThree(s, ADelivered(PROTECTIVE, true), APopProtective, ABegin(PROTECTIVE));
    FairWithoutClock(s, FIRST_TAKEN);
  }

  // After the bursts the lane begins with the alarm's group.
  lemma AlarmIsSent(s0: State, s: State, t: int)
    requires Ready(s0, t) && NoCallers(s0) && s0.hands[ORDINARY].Idle? && s0.o.ord == [] && Waits(s0, s, BURSTS, t) && Shaped(s)
    ensures Fair(s, BEGIN_NEXT) && Run(s, BEGIN_NEXT) == Sent(s) && InTime(Sent(s)) && Quiet(AlarmTold(Sent(s)), t)
  {
    hide Step;
    TakenThenSent(s);
    SentIsBusy(s0, s);
    TimelyTwo(s, APopProtective, ABegin(PROTECTIVE));
    FairWithoutClock(s, BEGIN_NEXT);
    assert OutboxFindings.Queued(BURSTS, t)[64..] == Plains(64, 12474, t);
  }

  lemma BurstsAreFair(s: State, t: int)
    requires Ready(s, t)
    ensures Fair(s, Bursts(BURSTS, t)) && Waits(s, Run(s, Bursts(BURSTS, t)), BURSTS, t)
  {
    hide Step;
    BurstsWait(s, BURSTS, t);
    FairWithoutClock(s, Bursts(BURSTS, t));
  }

  function Prelude(t: int): seq<Action> {
    Bursts(BURSTS, t) + BEGIN_NEXT + FIRST_TAKEN
  }

  lemma PreludeIsFair(s: State, t: int)
    requires Ready(s, t) && NoCallers(s) && s.hands[ORDINARY].Idle? && s.o.ord == []
    ensures Fair(s, Prelude(t)) && Reached(Run(s, Prelude(t)), Started(t, s.o.ordSlots))
  {
    hide Step, Run, Fair, Reached;
    BurstsAreFair(s, t);
    var s1 := Run(s, Bursts(BURSTS, t));
    AlarmIsSent(s, s1, t);
    FairConcat(s, Bursts(BURSTS, t), BEGIN_NEXT);
    AlarmIsTaken(Sent(s1), t);
    FairConcat(s, Bursts(BURSTS, t) + BEGIN_NEXT, FIRST_TAKEN);
  }

  function FairRun(slots: nat, n: nat, t: int): seq<Action> {
    Prelude(t) + FirstBack(t) + Fill(slots, t + 30 * SECOND) + Waves(n, t + 30 * SECOND)
  }

  lemma FairRunReaches(s: State, n: nat, t: int)
    requires Ready(s, t) && NoCallers(s) && s.hands[ORDINARY].Idle? && s.o.ord == [] && n <= 3
    ensures Fair(s, FairRun(s.o.ordSlots, n, t))
    ensures var s' := Run(s, FairRun(s.o.ordSlots, n, t));
            Shaped(s') && |s'.o.ord| == s.o.ordSlots + 64 * n && s'.hands[ORDINARY].Sending? && s'.o.ordSlots == s.o.ordSlots
  {
    hide Step, Run, Fair, Failing, Tended;
    var slots, g := s.o.ordSlots, AfterFirst(Started(t, s.o.ordSlots));
    var g' := g.(length := slots, buffered := 64);
    PreludeIsFair(s, t);
    FirstComesBack(Run(s, Prelude(t)), Started(t, slots));
    FairConcat(s, Prelude(t), FirstBack(t));
    LaneIsFilled(Run(s, Prelude(t) + FirstBack(t)), g);
    FairConcat(s, Prelude(t) + FirstBack(t), Fill(slots, g.now));
    WavesComeBack(Run(s, Prelude(t) + FirstBack(t) + Fill(slots, g.now)), g', n);
    FairConcat(s, Prelude(t) + FirstBack(t) + Fill(slots, g.now), Waves(n, g.now));
  }

  predicate AcceptsOnly(actions: seq<Action>) {
    forall a | a in actions :: !a.ASubmit? && !a.AClose?
  }

  lemma {:induction false} FailsAcceptOnly(k: nat)
    ensures AcceptsOnly(Fails(k))
  {
    if k > 0 { FailsAcceptOnly(k - 1); }
  }

  lemma {:induction false} WavesAcceptOnly(n: nat, now: int)
    ensures AcceptsOnly(Waves(n, now))
  {
    if n > 0 {
      WavesAcceptOnly(n - 1, now);
      FailsAcceptOnly(64);
    }
  }

  lemma {:induction false} FillAcceptsOnly(n: nat, t: int)
    ensures AcceptsOnly(Fill(n, t))
  {
    if n > 0 { FillAcceptsOnly(n - 1, t); }
  }

  /**
  For any number of slots, and up to three waves of 64 messages that fail: while the ordinary worker sends one message,
  every retry joins its lane, which the last groups had filled to its slots. Two waves already pass the limit of slots + 64 + 1.
  */
  lemma OrdinaryLanePassesItsLimit(now: int, window: int, slots: nat, callers: nat, n: nat)
    requires n <= 3
    ensures Fair(Init(now, window, slots, callers), FairRun(slots, n, now)) && AcceptsOnly(FairRun(slots, n, now))
    ensures var s := Run(Init(now, window, slots, callers), FairRun(slots, n, now));
            Shaped(s) && s.hands[ORDINARY].Sending? && s.o.ordSlots == slots && |s.o.ord| == slots + 64 * n
  {
    hide Step, Run, Fair, Fill, Waves;
    InitReady(now, window, slots, callers);
    FairRunReaches(Init(now, window, slots, callers), n, now);
    FillAcceptsOnly(slots, now + 30 * SECOND);
    WavesAcceptOnly(n, now + 30 * SECOND);
  }
}
