/**
What there is left to do in the outbox (pkg/attention/outbox.go:268-293, handoff.go:412-447 and 591-717, retry.go:141-312).

ToDo is a number for every state. A decision weighs less with each place it is handed on to, a message less with each
failure; so whatever the deliverer and the database answer, every step of the tick, a worker or the drain that changes
anything makes it smaller:

  - "what is left to do" is the measure, "sums" are what it needs of Tally;
  - "handing on" says what a decision may weigh behind each operation;
  - then come the actions, in the order of OutboxSpec, and EveryStepIsNearer is any of them.
*/
module OutboxWork {
  import opened Wrappers
  import opened Attention
  import opened OutboxSpec
  import opened OutboxConservation
  import opened OutboxBounds
  import opened OutboxTries

  // ---- what is left to do ---------------------------------------------------------------------------------------------

  function Spare(failed: nat): nat { if failed < MAX_FAILED_PROTECTIVE then 5 * (MAX_FAILED_PROTECTIVE - failed) else 0 }

  // k tells the place: 0 is the deliverer, 1 a worker's hands, 2 a lane and 3 the waiting list.
  function MessageWork(k: nat, m: Message, failed: nat): nat { 20 * |m.decisions| + 2 + Spare(failed) + k }

  function RetryWork(k: nat, r: Retry): nat { MessageWork(k, r.m, r.failed) }

  function JobWork(k: nat, j: Job): nat {
    match j
    case Group(g) => 20 * |g| + 2 + Spare(0) + k
    case DigestJob => 1 + k
    case RetryJob(r) => RetryWork(k, r)
  }

  // k tells the place: 0 is still to settle, 2 the backlog and 3 to be put back into it.
  function DeferralWork(k: nat, f: Deferral): nat { 2 + (if f.tries < DEFER_TRIES then 5 * (DEFER_TRIES - f.tries) else 0) + k }

  function WorkLeft(w: Work): nat {
    match w
    case Idle => 0
    case Holding(j, next) => JobWork(1, j) + WorkLeft(next)
    case Sending(m, failed, _, next) => MessageWork(0, m, failed) + WorkLeft(next)
    case Ending(_, rest, next) => 20 * |rest| + 1 + WorkLeft(next)
    case Aging(rest, next) => |rest| + 1 + WorkLeft(next)
    case SendingDigest(next) => 1 + WorkLeft(next)
    case Handing(g) => 94 * |g| + 1
    case Settling(todo, again) => Tally(DeferralWork, 0, todo) + Tally(DeferralWork, 3, again) + 1
    case Draining(rs) => Tally(RetryWork, 0, rs) + 1
  }

  function HandWork(k: nat, w: Work): nat { WorkLeft(w) + k }

  function SharedWork(o: Shared): nat {
    96 * |o.buf| + Tally(JobWork, 2, o.ord) + 94 * |o.prot| + Tally(DeferralWork, 2, o.deferred)
    + Tally(RetryWork, 3, o.retries) + Tally(RetryWork, 2, o.protRetry)
  }

  function ToDo(s: State): nat { SharedWork(s.o) + Tally(HandWork, 0, s.hands) }

  // The tick, the workers and the drain, when they have something to do. What is not here takes something in.
  predicate Works(s: State, a: Action) {
    && !IsEntry(a) && !a.ADigest? && !a.AClose?
    && (a.ATakeDeferrals? ==> s.o.deferred != [])
    && (a.ADrain? ==> s.o.retries + s.o.protRetry + RetriesIn(s.o.ord) != [])
  }

  ghost predicate Nearer(s: State, s': State) {
    ToDo(s') < ToDo(s)
  }

  // ---- sums -----------------------------------------------------------------------------------------------------------

  lemma SetWork(s: State, i: nat, w: Work, o: Shared)
    requires i < |s.hands|
    ensures ToDo(Set(s, i, w, o)) + WorkLeft(s.hands[i]) + SharedWork(s.o) == ToDo(s) + WorkLeft(w) + SharedWork(o)
  {
    TallyUpdate(HandWork, 0, s.hands, i, w);
  }

  lemma {:induction false} RetriesFurther(rs: seq<Retry>, k: nat)
    ensures Tally<nat, Retry>(RetryWork, k + 1, rs) == Tally(RetryWork, k, rs) + |rs|
  {
    if rs != [] { RetriesFurther(rs[..|rs| - 1], k); }
  }

  lemma {:induction false} DeferralsFurther(fs: seq<Deferral>, k: nat)
    ensures Tally<nat, Deferral>(DeferralWork, k + 1, fs) == Tally(DeferralWork, k, fs) + |fs|
  {
    if fs != [] { DeferralsFurther(fs[..|fs| - 1], k); }
  }

  lemma {:induction false} JobsOfRetries(rs: seq<Retry>)
    ensures Tally(JobWork, 2, AsJobs(rs)) == Tally(RetryWork, 2, rs)
  {
    if rs != [] {
      JobsOfRetries(rs[..|rs| - 1]);
      assert AsJobs(rs)[..|rs| - 1] == AsJobs(rs[..|rs| - 1]);
    }
  }

  lemma {:induction false} NewDeferrals(ds: seq<Decision>, release: bool)
    ensures Tally(DeferralWork, 2, AsDeferrals(ds, release)) == 19 * |ds|
  {
    if ds != [] {
      NewDeferrals(ds[..|ds| - 1], release);
      assert AsDeferrals(ds, release)[..|ds| - 1] == AsDeferrals(ds[..|ds| - 1], release);
    }
  }

  lemma OneJob(jobs: seq<Job>, j: Job)
    ensures Tally(JobWork, 2, jobs + [j]) == Tally(JobWork, 2, jobs) + JobWork(2, j)
  {
    assert (jobs + [j])[..|jobs|] == jobs;
  }

  // ---- handing on -----------------------------------------------------------------------------------------------------

  lemma DeferWeighs(o: Shared, ds: seq<Decision>, release: bool)
    ensures SharedWork(Defer(o, ds, release)) <= SharedWork(o) + 19 * |ds|
  {
    var k := Min(|ds|, Room(o.deferred));
    NewDeferrals(ds[..k], release);
    TallyAppend(DeferralWork, 2, o.deferred, AsDeferrals(ds[..k], release));
  }

  lemma {:induction false} AddAllWeighs(prot: seq<Decision>, ds: seq<Decision>)
    ensures var (p, gone) := AddAllTo(prot, ds); 94 * |p| + 19 * |gone| <= 94 * |prot| + 94 * |ds|
  {
    if ds != [] { AddAllWeighs(prot, ds[..|ds| - 1]); }
  }

  lemma ProtectiveWeighs(o: Shared, ds: seq<Decision>)
    ensures SharedWork(AddProtective(o, ds)) <= SharedWork(o) + 94 * |ds|
  {
    var (p, gone) := AddAllTo(o.prot, ds);
    AddAllWeighs(o.prot, ds);
    DeferWeighs(o.(prot := p), gone, true);
  }

  lemma {:induction false} PartsWeigh(group: seq<Decision>)
    ensures |OrdinaryPart(group)| + |ProtectivePart(group)| == |group|
  {
    if group != [] { PartsWeigh(group[..|group| - 1]); }
  }

  lemma RestWeighs(o: Shared, rest: seq<Decision>)
    ensures SharedWork(PushRest(o, rest)) <= SharedWork(o) + 94 * |rest|
  {
    DeferWeighs(o, rest, false);
    OneJob(o.ord, Group(rest));
  }

  lemma PushWeighs(o: Shared, group: seq<Decision>)
    ensures SharedWork(PushOrdinary(o, group)) <= SharedWork(o) + 94 * |group|
  {
    hide SharedWork, PushRest, AddProtective;
    PartsWeigh(group);
    ProtectiveWeighs(o, ProtectivePart(group));
    RestWeighs(AddProtective(o, ProtectivePart(group)), OrdinaryPart(group));
  }

  // ---- the tick ---------------------------------------------------------------------------------------------------------

  lemma TakeDueWorks(s: State)
    requires Shaped(s) && s.hands[RUNNER].Idle? && TakeDue(s) != s
    ensures Nearer(s, TakeDue(s))
  {
    SetWork(s, RUNNER, Handing(s.o.buf), Take(s.o));
  }

  lemma HandOverWorks(s: State)
    requires Shaped(s) && HandOver(s) != s
    ensures Nearer(s, HandOver(s))
  {
    hide SharedWork, PushOrdinary;
    var g := s.hands[RUNNER].group;
    SetWork(s, RUNNER, Idle, PushOrdinary(s.o, g));
    PushWeighs(s.o, g);
  }

  lemma {:induction false} DueWeigh(rs: seq<Retry>, now: int)
    ensures var on, off := DueFor(rs, now, true), DueFor(rs, now, false);
            Tally(RetryWork, 3, rs) == Tally(RetryWork, 3, Waiting(rs, now)) + Tally(RetryWork, 3, on) + Tally(RetryWork, 3, off)
  {
    hide RetryWork;
    if rs != [] {
      var front, r := rs[..|rs| - 1], rs[|rs| - 1];
      DueWeigh(front, now);
      OneRetry(DueFor(front, now, true), r, 3);
      OneRetry(DueFor(front, now, false), r, 3);
      OneRetry(Waiting(front, now), r, 3);
    }
  }

  lemma {:induction false} NoneDue(rs: seq<Retry>, now: int)
    requires DueFor(rs, now, true) == DueFor(rs, now, false) == []
    ensures Waiting(rs, now) == rs
  {
    if rs != [] {
      NoneDue(rs[..|rs| - 1], now);
      assert rs == rs[..|rs| - 1] + [rs[|rs| - 1]];
    }
  }

  lemma OneRetry(rs: seq<Retry>, r: Retry, k: nat)
    ensures Tally(RetryWork, k, rs + [r]) == Tally(RetryWork, k, rs) + RetryWork(k, r)
  {
    assert (rs + [r])[..|rs|] == rs;
  }

  lemma DueRetriesWork(o: Shared)
    ensures SharedWork(HandOverDueRetries(o)) <= SharedWork(o)
    ensures SharedWork(HandOverDueRetries(o)) == SharedWork(o) ==> HandOverDueRetries(o) == o
  {
    var on, off := DueFor(o.retries, o.now, true), DueFor(o.retries, o.now, false);
    DueWeigh(o.retries, o.now);
    RetriesFurther(on, 2);
    RetriesFurther(off, 2);
    JobsOfRetries(off);
    TallyAppend(JobWork, 2, o.ord, AsJobs(off));
    TallyAppend(RetryWork, 2, o.protRetry, on);
    if on == off == [] {
      NoneDue(o.retries, o.now);
      assert o.ord + AsJobs(off) == o.ord && o.protRetry + on == o.protRetry;
    }
  }

  lemma TakeDeferralsWorks(s: State)
    requires Shaped(s) && s.hands[RUNNER].Idle? && s.o.deferred != []
    ensures Nearer(s, TakeDeferrals(s))
  {
    SetWork(s, RUNNER, Settling(s.o.deferred, []), s.o.(deferred := []));
    DeferralsFurther(s.o.deferred, 0);
    DeferralsFurther(s.o.deferred, 1);
  }

  lemma SettleWorks(s: State, ok: bool)
    requires Shaped(s) && SettleNext(s, ok) != s
    ensures Nearer(s, SettleNext(s, ok))
  {
    var todo, again := s.hands[RUNNER].todo, s.hands[RUNNER].again;
    var f := todo[0];
    TallyHead(DeferralWork, 0, todo);
    var f' := f.(tries := f.tries + 1);
    assert (again + [f'])[..|again|] == again;
    SetWork(s, RUNNER, Settling(todo[1..], again), Left(s.o, [SettledAs(f.d, f.release)]));
    SetWork(s, RUNNER, Settling(todo[1..], again + [f']), s.o);
    SetWork(s, RUNNER, Settling(todo[1..], again), Left(s.o, [Settled(f.d, DeferralFailed)]));
  }

  lemma PutBackWorks(s: State)
    requires Shaped(s) && PutBack(s) != s
    ensures Nearer(s, PutBack(s))
  {
    var again := s.hands[RUNNER].again;
    var k := Min(|again|, Room(s.o.deferred));
    SetWork(s, RUNNER, Idle, Return(s.o, again));
    DeferralsFurther(again, 2);
    TallySplit(DeferralWork, 2, again, k);
    TallyAppend(DeferralWork, 2, s.o.deferred, again[..k]);
  }

  lemma TickWorks(s: State, a: Action)
    requires Shaped(s) && IsTick(a) && Works(s, a) && Step(s, a) != s
    ensures Nearer(s, Step(s, a))
  {
    hide ToDo, SharedWork, TakeDue, HandOver, HandOverDueRetries, TakeDeferrals, SettleNext, PutBack;
    match a
    case ATakeDue => TakeDueWorks(s);
    case AHandOver => HandOverWorks(s);
    case ADueRetries => DueRetriesWork(s.o); SameHandsWork(s, HandOverDueRetries(s.o));
    case ATakeDeferrals => TakeDeferralsWorks(s);
    case ASettle(ok) => SettleWorks(s, ok);
    case APutBack => PutBackWorks(s);
  }

  lemma SameHandsWork(s: State, o: Shared)
    requires SharedWork(o) <= SharedWork(s.o)
    ensures SharedWork(o) < SharedWork(s.o) ==> Nearer(s, State(o, s.hands))
  {
  }

  // ---- the lanes --------------------------------------------------------------------------------------------------------

  lemma PopOrdinaryWorks(s: State)
    requires Shaped(s) && s.hands[ORDINARY].Idle? && PopOrdinary(s) != s
    ensures Nearer(s, PopOrdinary(s))
  {
    var j := s.o.ord[0];
    TallyHead(JobWork, 2, s.o.ord);
    SetWork(s, ORDINARY, Holding(j, Idle), s.o.(ord := s.o.ord[1..]));
  }

  lemma PopRetryWorks(s: State)
    requires Shaped(s) && s.hands[PROTECTIVE].Idle? && PopRetry(s) != s
    ensures Nearer(s, PopRetry(s))
  {
    var r := s.o.protRetry[0];
    TallyHead(RetryWork, 2, s.o.protRetry);
    SetWork(s, PROTECTIVE, Holding(RetryJob(r), Idle), s.o.(protRetry := s.o.protRetry[1..]));
  }

  lemma PopProtectiveWorks(s: State)
    requires Shaped(s) && s.hands[PROTECTIVE].Idle? && PopProtective(s) != s
    ensures Nearer(s, PopProtective(s))
  {
    SetWork(s, PROTECTIVE, Holding(Group(NextGroup(s.o)), Idle), TakeGroup(s.o));
  }

  lemma TakingWorks(s: State, a: Action)
    requires Shaped(s) && IsTaking(a) && Step(s, a) != s
    ensures Nearer(s, Step(s, a))
  {
    hide ToDo, PopOrdinary, PopRetry, PopProtective;
    match a
    case APopOrdinary => PopOrdinaryWorks(s);
    case APopRetry => PopRetryWorks(s);
    case APopProtective => PopProtectiveWorks(s);
  }

  lemma BeginWorks(s: State, i: nat)
    requires Shaped(s) && i < |s.hands| && Begin(s, i) != s
    ensures Nearer(s, Begin(s, i))
  {
    var w := s.hands[i];
    var s' := Begin(s, i);
    assert s' == Set(s, i, s'.hands[i], s'.o);
    SetWork(s, i, s'.hands[i], s'.o);
    assert SharedWork(s'.o) == SharedWork(s.o);
    assert WorkLeft(s'.hands[i]) < WorkLeft(w);
  }

  lemma DeliveredWorks(s: State, i: nat, ok: bool)
    requires Fits(s) && Conserved(s) && i < |s.hands| && s.hands[i].Sending?
    ensures Nearer(s, Delivered(s, i, ok))
  {
    hide SharedWork, Conserved, ScheduleRetry, AfterFailure, SharedFits;
    var w := s.hands[i];
    assert WorkFits(w, s.o);
    if ok {
      SettledWeighs(s.o, w.m);
      SetWork(s, i, w.next, Reported(Left(s.o, WithFate(w.m.decisions, Told)), w.m.id, true));
    } else {
      FailureWorks(s, i, w.m, w.failed, w.since, w.next, ScheduleRetry(s.o, w.m, w.failed + 1, w.since));
    }
  }

  lemma SettledWeighs(o: Shared, m: Message)
    ensures SharedWork(Reported(Left(o, WithFate(m.decisions, Told)), m.id, true)) == SharedWork(o)
  {
  }

  lemma FailureWorks(s: State, i: nat, m: Message, failed: nat, since: Option<int>, next: Work, r: Option<Retry>)
    requires i < |s.hands| && s.hands[i] == Sending(m, failed, since, next) && SendingFits(m, failed, since, s.o)
    requires r == ScheduleRetry(s.o, m, failed + 1, since)
    ensures Nearer(s, AfterFailure(s, i, m, r, next))
  {
    hide ScheduleRetry, NextRetry, SharedWork, SendingFits;
    if r.Some? {
      var strays := if i != ORDINARY && !HasProtective(m.decisions) then 1 else 0;
      SetWork(s, i, next, Queue(s.o, r.value, strays));
      OneMoreRetry(s.o, m, failed, since, r.value, strays);
    } else {
      SetWork(s, i, Ending(m, m.decisions, next), s.o);
    }
  }

  lemma OneMoreRetry(o: Shared, m: Message, failed: nat, since: Option<int>, r: Retry, strays: nat)
    requires SendingFits(m, failed, since, o) && ScheduleRetry(o, m, failed + 1, since) == Some(r)
    ensures SharedWork(Queue(o, r, strays)) < SharedWork(o) + MessageWork(0, m, failed)
  {
    NextRetryFits(m, failed, since, o);
    OneRetry(o.retries, r, 3);
  }

  lemma EndWorks(s: State, i: nat, ok: bool)
    requires Shaped(s) && i < |s.hands| && s.hands[i].Ending?
    ensures Nearer(s, EndNext(s, i, ok))
  {
    var w := s.hands[i];
    if w.rest == [] {
      SetWork(s, i, w.next, Reported(s.o, w.m.id, false));
    } else {
      var d := w.rest[0];
      SetWork(s, i, Ending(w.m, w.rest[1..], w.next), Fallback(s.o, d, ok));
      DeferWeighs(s.o, [d], IsProtective(d));
    }
  }

  lemma AgeWorks(s: State, ok: bool)
    requires Shaped(s) && s.hands[ORDINARY].Aging?
    ensures Nearer(s, AgeNext(s, ORDINARY, ok))
  {
    var w := s.hands[ORDINARY];
    if w.rest == [] {
      SetWork(s, ORDINARY, w.next, s.o);
    } else {
      var fate := if ok && CanSettle(w.rest[0], false) then ToDigest else DeferralFailed;
      SetWork(s, ORDINARY, Aging(w.rest[1..], w.next), Left(s.o, [Settled(w.rest[0], fate)]));
    }
  }

  lemma DigestSentWorks(s: State)
    requires Shaped(s) && s.hands[ORDINARY].SendingDigest?
    ensures Nearer(s, DigestSent(s, ORDINARY))
  {
    SetWork(s, ORDINARY, s.hands[ORDINARY].next, s.o.(digestBusy := false));
  }

  lemma SendingWorks(s: State, a: Action)
    requires Fits(s) && Conserved(s) && IsSending(a) && Step(s, a) != s
    ensures Nearer(s, Step(s, a))
  {
    hide ToDo, Begin, Conserved, SharedFits, WorkFits, WorkLeft, SharedWork, ScheduleRetry, AfterFailure, Fallback, Left;
    match a
    case ABegin(i) => BeginWorks(s, i);
    case ADelivered(i, ok) => DeliveredWorks(s, i, ok);
    case AEnd(i, ok) => EndWorks(s, i, ok);
    case AAge(ok) => AgeWorks(s, ok);
    case ADigestSent => DigestSentWorks(s);
  }

  // ---- the drain --------------------------------------------------------------------------------------------------------

  lemma {:induction false} LaneDrains(jobs: seq<Job>)
    ensures Tally(JobWork, 2, jobs) == Tally(JobWork, 2, WithoutRetries(jobs)) + Tally(RetryWork, 2, RetriesIn(jobs))
  {
    if jobs != [] {
      var front, j := jobs[..|jobs| - 1], jobs[|jobs| - 1];
      LaneDrains(front);
      OneJob(WithoutRetries(front), j);
      if j.RetryJob? { OneRetry(RetriesIn(front), j.retry, 2); }
    }
  }

  lemma FromTheLanes(rs: seq<Retry>)
    ensures Tally(RetryWork, 2, rs) == Tally(RetryWork, 0, rs) + 2 * |rs|
    ensures Tally(RetryWork, 3, rs) == Tally(RetryWork, 0, rs) + 3 * |rs|
  {
    hide Tally, RetryWork;
    RetriesFurther(rs, 0);
    RetriesFurther(rs, 1);
    RetriesFurther(rs, 2);
  }

  lemma DrainWorks(s: State)
    requires Shaped(s) && s.hands[RUNNER].Idle? && s.o.retries + s.o.protRetry + RetriesIn(s.o.ord) != []
    ensures Nearer(s, DrainRetries(s))
  {
    hide RetryWork, JobWork, RetriesIn, WithoutRetries;
    var a, b, c := s.o.retries, s.o.protRetry, RetriesIn(s.o.ord);
    SetWork(s, RUNNER, Draining(a + b + c), s.o.(retries := [], protRetry := [], ord := WithoutRetries(s.o.ord)));
    LaneDrains(s.o.ord);
    TallyAppend(RetryWork, 0, a + b, c);
    TallyAppend(RetryWork, 0, a, b);
    FromTheLanes(a);
    FromTheLanes(b);
    FromTheLanes(c);
  }

  lemma DrainNextWorks(s: State)
    requires Shaped(s) && s.hands[RUNNER].Draining?
    ensures Nearer(s, DrainNext(s))
  {
    var rs := s.hands[RUNNER].retries;
    if rs == [] {
      SetWork(s, RUNNER, Idle, s.o);
    } else {
      SetWork(s, RUNNER, Ending(rs[0].m, rs[0].m.decisions, Draining(rs[1..])), s.o);
      TallyHead(RetryWork, 0, rs);
    }
  }

  lemma ShutdownWorks(s: State, a: Action)
    requires Shaped(s) && IsShutdown(a) && Works(s, a) && Step(s, a) != s
    ensures Nearer(s, Step(s, a))
  {
    hide ToDo, DrainRetries;
    match a
    case ADrain => DrainWorks(s);
    case ADrainNext => DrainNextWorks(s);
  }

  /** Whatever is answered, a step of the tick, a worker or the drain that changes anything leaves less to do. */
  lemma EveryStepIsNearer(s: State, a: Action)
    requires Fits(s) && Conserved(s) && Works(s, a) && Step(s, a) != s
    ensures Nearer(s, Step(s, a))
  {
    hide Nearer, Conserved, EntryStep, TickStep, ShutdownStep, TakingStep, SendingStep;
    if IsTick(a) { TickWorks(s, a); }
    else if IsShutdown(a) { ShutdownWorks(s, a); }
    else if IsTaking(a) { TakingWorks(s, a); }
    else { SendingWorks(s, a); }
  }
}
