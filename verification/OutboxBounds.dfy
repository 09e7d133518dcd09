/**
What every run of the outbox keeps besides conservation: where a protective Critical may be, how long each queue
can get, and that the ordinary lane never begins to send what is too close to the end of its lease.

All of it is one invariant, Sound, of which the guarantees in OutboxTheorems are instances:

  - "routing" says which decisions each queue, each running step and each outcome may hold;
  - "sizes" bounds the queues. The ordinary lane has no bound of its own: its length is bounded together with the
    retries that are waiting and the step that is running (LaneWork), because a due retry enters the lane without
    asking for a slot;
  - "effects of the parts" and "actions" follow the order of OutboxSpec, one lemma for every action and StepSound
    for any. Pushed is what the accepting actions have in common: they only add, and only where there is room.
*/
module OutboxBounds {
  import opened Wrappers
  import opened Attention
  import opened OutboxSpec

  // ---- routing ----------------------------------------------------------------------------------------------

  predicate Ordinary(ds: seq<Decision>) {
    forall d | d in ds :: !IsProtectiveCritical(d.candidate)
  }

  predicate JobOk(j: Job) {
    match j
    case Group(g) => Ordinary(g)
    case DigestJob => true
    case RetryJob(r) => !HasProtective(r.m.decisions)
  }

  predicate DeferralOk(f: Deferral) {
    f.release || !IsProtectiveCritical(f.d.candidate)
  }

  predicate WorkOk(lane: nat, w: Work) {
    match w
    case Idle => true
    case Holding(j, next) =>
      (lane == ORDINARY ==> JobOk(j) && next.Idle?) && (j.DigestJob? ==> lane == ORDINARY) && WorkOk(lane, next)
    case Sending(_, _, _, next) => (lane == ORDINARY ==> next.Idle?) && WorkOk(lane, next)
    case Ending(_, _, next) => (lane == ORDINARY ==> next.Idle?) && WorkOk(lane, next)
    case Aging(rest, next) => lane == ORDINARY && Ordinary(rest) && next.Idle?
    case SendingDigest(next) => lane == ORDINARY && next.Idle?
    case Handing(_) => lane == RUNNER
    case Settling(todo, again) =>
      lane == RUNNER && (forall f | f in todo :: DeferralOk(f)) && (forall f | f in again :: DeferralOk(f))
    case Draining(_) => lane == RUNNER
  }

  predicate SettledOk(x: Settled) {
    x.fate.ToDigest? ==> !IsProtective(x.d)
  }

  predicate TryOk(t: Try) {
    t.lane == ORDINARY ==> !PastLease(t.m.decisions, t.at)
  }

  predicate SharedRouted(o: Shared) {
    && (forall j | j in o.ord :: JobOk(j))
    && (forall f | f in o.deferred :: DeferralOk(f))
    && (forall r | r in o.protRetry :: HasProtective(r.m.decisions))
    && (forall x | x in o.log.settled :: SettledOk(x))
    && (forall t | t in o.log.tries :: TryOk(t))
  }

  // ---- sizes ------------------------------------------------------------------------------------------------

  predicate DistinctKeys(ds: seq<Decision>) {
    forall i, j | 0 <= i < j < |ds| :: ds[i].candidate.key != ds[j].candidate.key
  }

  predicate SharedBounded(o: Shared) {
    && |o.buf| <= MAX_BUFFERED
    && |o.deferred| <= MAX_DEFER_BACKLOG
    && CountWaiting(o.retries, false) <= MAX_PENDING_RETRIES
    && CountWaiting(o.retries, true) <= MAX_PENDING_PROTECTIVE_RETRIES
    && DistinctKeys(o.prot)
    && (o.closed ==> o.buf == [])
  }

  // What the ordinary lane has, or will get back, to do.
  function LaneWork(s: State): nat
    requires Shaped(s)
  {
    |s.o.ord| + CountWaiting(s.o.retries, false) + if s.hands[ORDINARY].Idle? then 0 else 1
  }

  function LaneLimit(o: Shared): nat {
    o.ordSlots + MAX_PENDING_RETRIES + 1 + o.log.stray + if o.closed then 1 else 0
  }

  ghost predicate Sound(s: State) {
    && Shaped(s)
    && SharedRouted(s.o)
    && SharedBounded(s.o)
    && (forall i | 0 <= i < |s.hands| :: WorkOk(i, s.hands[i]))
    && LaneWork(s) <= LaneLimit(s.o)
  }

  // ---- effects of the parts ---------------------------------------------------------------------------------

  // Everything but the protective group, the backlog and what was abandoned is as before.
  predicate SameLanes(o: Shared, o': Shared) {
    && o'.ord == o.ord && o'.retries == o.retries && o'.protRetry == o.protRetry && o'.closed == o.closed
    && o'.ordSlots == o.ordSlots && o'.log.tries == o.log.tries && o'.log.stray == o.log.stray
    && o'.log.mail == o.log.mail && o'.now == o.now
  }

  lemma DeferSound(o: Shared, ds: seq<Decision>, release: bool)
    requires SharedRouted(o) && SharedBounded(o)
    requires release || Ordinary(ds)
    ensures SharedRouted(Defer(o, ds, release)) && SharedBounded(Defer(o, ds, release))
    ensures SameLanes(o, Defer(o, ds, release)) && Defer(o, ds, release).buf == o.buf
  {
    var k := Min(|ds|, Room(o.deferred));
    forall f | f in AsDeferrals(ds[..k], release) ensures DeferralOk(f) {
      var i :| 0 <= i < k && AsDeferrals(ds[..k], release)[i] == f;
      assert f.d == ds[i] && ds[i] in ds;
    }
    assert forall x | x in WithFate(ds[k..], Abandoned) :: SettledOk(x);
  }

  lemma AddToDistinct(prot: seq<Decision>, d: Decision)
    requires DistinctKeys(prot)
    ensures DistinctKeys(AddTo(prot, d).0)
  {
  }

  lemma {:induction false} AddAllDistinct(prot: seq<Decision>, ds: seq<Decision>)
    requires DistinctKeys(prot)
    ensures DistinctKeys(AddAllTo(prot, ds).0)
  {
    if ds != [] {
      AddAllDistinct(prot, ds[..|ds| - 1]);
      AddToDistinct(AddAllTo(prot, ds[..|ds| - 1]).0, ds[|ds| - 1]);
    }
  }

  lemma ProtectiveSound(o: Shared, ds: seq<Decision>)
    requires SharedRouted(o) && SharedBounded(o)
    ensures SharedRouted(AddProtective(o, ds)) && SharedBounded(AddProtective(o, ds))
    ensures SameLanes(o, AddProtective(o, ds)) && AddProtective(o, ds).buf == o.buf
  {
    var (p, gone) := AddAllTo(o.prot, ds);
    AddAllDistinct(o.prot, ds);
    DeferSound(o.(prot := p), gone, true);
  }

  lemma {:induction false} OrdinaryPartIsOrdinary(group: seq<Decision>)
    ensures Ordinary(OrdinaryPart(group))
  {
    if group != [] {
      OrdinaryPartIsOrdinary(group[..|group| - 1]);
    }
  }

  // A group joins the lane only when there is a slot.
  ghost predicate Pushed(o: Shared, o': Shared) {
    && SharedRouted(o') && SharedBounded(o')
    && o'.retries == o.retries && o'.closed == o.closed && o'.ordSlots == o.ordSlots && o'.log.stray == o.log.stray
    && (|o'.ord| <= |o.ord| || |o'.ord| <= o.ordSlots)
  }

  lemma LaneSound(o: Shared, j: Job)
    requires SharedRouted(o) && SharedBounded(o) && JobOk(j)
    ensures SharedRouted(o.(ord := o.ord + [j])) && SharedBounded(o.(ord := o.ord + [j]))
  {
  }

  // What is left of a group joins the lane, or the backlog.
  lemma RestSound(o: Shared, rest: seq<Decision>)
    requires SharedRouted(o) && SharedBounded(o) && Ordinary(rest)
    ensures Pushed(o, PushRest(o, rest)) && PushRest(o, rest).buf == o.buf
  {
    if |o.ord| >= o.ordSlots {
      DeferSound(o, rest, false);
    } else {
      LaneSound(o, Group(rest));
    }
  }

  lemma PushSound(o: Shared, group: seq<Decision>)
    requires SharedRouted(o) && SharedBounded(o)
    ensures Pushed(o, PushOrdinary(o, group)) && PushOrdinary(o, group).buf == o.buf
  {
    ProtectiveSound(o, ProtectivePart(group));
    OrdinaryPartIsOrdinary(group);
    RestSound(AddProtective(o, ProtectivePart(group)), OrdinaryPart(group));
  }

  lemma BufferSound(o: Shared, d: Decision)
    requires SharedRouted(o) && SharedBounded(o) && !o.closed
    ensures var o' := Buffer(o, d);
            SharedRouted(o') && SharedBounded(o') && SameLanes(o, o') && o'.prot == o.prot
  {
  }

  lemma EscortSound(o: Shared, d: Decision)
    requires SharedRouted(o) && SharedBounded(o)
    ensures SharedRouted(Escort(o, d)) && SharedBounded(Escort(o, d)) && SameLanes(o, Escort(o, d))
  {
    ProtectiveSound(Take(o), o.buf);
  }

  lemma AcceptLockedSound(o: Shared, d: Decision)
    requires SharedRouted(o) && SharedBounded(o) && !o.closed
    ensures Pushed(o, AcceptLocked(o, d).0)
  {
    BufferSound(o, d);
    EscortSound(Buffer(o, d), d);
    PushSound(Escort(Buffer(o, d), d), o.buf);
  }

  lemma {:induction false} AcceptSound(o: Shared, ds: seq<Decision>)
    requires SharedRouted(o) && SharedBounded(o)
    ensures Pushed(o, AcceptAll(o, ds).0)
  {
    if ds != [] {
      AcceptSound(o, ds[..|ds| - 1]);
      var o1, d := AcceptAll(o, ds[..|ds| - 1]).0, ds[|ds| - 1];
      if d.disposition.Sent() && !o1.closed {
        AcceptLockedSound(o1, d);
      }
    }
  }

  // ---- actions ----------------------------------------------------------------------------------------------

  lemma PushedSound(s: State, i: nat, w: Work, o: Shared)
    requires Sound(s) && i < |s.hands| && i != ORDINARY && WorkOk(i, w)
    requires Pushed(s.o, o)
    ensures Sound(Set(s, i, w, o))
  {
  }

  lemma SubmitSound(s: State, i: nat, d: Decision)
    requires Sound(s) && RUNNER < i < |s.hands|
    ensures Sound(Submit(s, i, d))
  {
    if d.disposition.Sent() {
      if !s.o.closed {
        BufferSound(s.o, d);
      }
      PushedSound(s, i, SubmitWork(s.o, d), SubmitShared(s.o, d));
    }
  }

  lemma {:induction false} DueSplit(rs: seq<Retry>, now: int, protective: bool)
    ensures CountWaiting(rs, protective) == CountWaiting(Waiting(rs, now), protective) + |DueFor(rs, now, protective)|
    ensures forall r | r in DueFor(rs, now, protective) :: r in rs && r.due <= now && HasProtective(r.m.decisions) == protective
    ensures forall r | r in Waiting(rs, now) :: r in rs
  {
    if rs != [] {
      var front, r := rs[..|rs| - 1], rs[|rs| - 1];
      DueSplit(front, now, protective);
      assert Waiting(front, now) == (Waiting(front, now) + [r])[..|Waiting(front, now)|];
    }
  }

  lemma DueSound(s: State)
    requires Sound(s)
    ensures Sound(State(HandOverDueRetries(s.o), s.hands))
  {
    DueSplit(s.o.retries, s.o.now, false);
    DueSplit(s.o.retries, s.o.now, true);
    var jobs := AsJobs(DueFor(s.o.retries, s.o.now, false));
    forall j | j in jobs ensures JobOk(j) {
      var k :| 0 <= k < |jobs| && jobs[k] == j;
      assert DueFor(s.o.retries, s.o.now, false)[k] in DueFor(s.o.retries, s.o.now, false);
    }
  }

  lemma SettledOut(s: State, w: Work, gone: Settled)
    requires Sound(s) && SettledOk(gone) && WorkOk(RUNNER, w)
    ensures Sound(Set(s, RUNNER, w, Left(s.o, [gone])))
  {
    assert forall x | x in [gone] :: SettledOk(x);
  }

  lemma SettleFirstSound(s: State, todo: seq<Deferral>, again: seq<Deferral>, ok: bool)
    requires Sound(s) && s.hands[RUNNER] == Settling(todo, again) && todo != []
    ensures Sound(SettleFirst(s, todo, again, ok))
  {
    var f := todo[0];
    assert WorkOk(RUNNER, s.hands[RUNNER]);
    assert DeferralOk(f) && forall g | g in todo[1..] :: g in todo;
    if ok && CanSettle(f.d, f.release) {
      SettledOut(s, Settling(todo[1..], again), SettledAs(f.d, f.release));
    } else if f.tries + 1 < DEFER_TRIES {
      SetSound(s, RUNNER, Settling(todo[1..], again + [f.(tries := f.tries + 1)]), s.o);
    } else {
      SettledOut(s, Settling(todo[1..], again), Settled(f.d, DeferralFailed));
    }
  }

  lemma SettleSound(s: State, ok: bool)
    requires Sound(s)
    ensures Sound(SettleNext(s, ok))
  {
    match s.hands[RUNNER] {
      case Settling(todo, again) => if todo != [] { SettleFirstSound(s, todo, again, ok); }
      case _ =>
    }
  }

  lemma ReturnSound(o: Shared, again: seq<Deferral>)
    requires SharedRouted(o) && SharedBounded(o) && forall f | f in again :: DeferralOk(f)
    ensures SharedRouted(Return(o, again)) && SharedBounded(Return(o, again))
    ensures SameLanes(o, Return(o, again))
  {
    var k := Min(|again|, Room(o.deferred));
    assert forall f | f in again[..k] :: f in again;
    assert forall x | x in WithFate(Decisions(again[k..]), Abandoned) :: SettledOk(x);
  }

  lemma SetSound(s: State, i: nat, w: Work, o: Shared)
    requires Sound(s) && i < |s.hands| && WorkOk(i, w)
    requires SharedRouted(o) && SharedBounded(o)
    requires LaneWork(Set(s, i, w, o)) <= LaneLimit(o)
    ensures Sound(Set(s, i, w, o))
  {
  }

  lemma ToldSound(o: Shared, m: Message)
    requires SharedRouted(o) && SharedBounded(o)
    ensures var o' := Reported(Left(o, WithFate(m.decisions, Told)), m.id, true);
            SharedRouted(o') && SharedBounded(o')
  {
    assert forall x | x in WithFate(m.decisions, Told) :: SettledOk(x);
  }

  lemma QueueSound(o: Shared, m: Message, failed: nat, since: Option<int>, strays: nat)
    requires SharedRouted(o) && SharedBounded(o)
    requires ScheduleRetry(o, m, failed, since).Some?
    ensures Queueable(o, ScheduleRetry(o, m, failed, since).value, strays)
  {
    var r := ScheduleRetry(o, m, failed, since).value;
    assert (o.retries + [r])[..|o.retries|] == o.retries;
  }

  predicate Queueable(o: Shared, r: Retry, strays: nat) {
    && SharedRouted(Queue(o, r, strays)) && SharedBounded(Queue(o, r, strays))
    && CountWaiting(o.retries + [r], false) == CountWaiting(o.retries, false) + if HasProtective(r.m.decisions) then 0 else 1
  }

  lemma FailureSound(s: State, i: nat, m: Message, r: Option<Retry>, next: Work)
    requires Sound(s) && i < |s.hands| && s.hands[i].Sending? && s.hands[i].next == next
    requires r.Some? ==> r.value.m == m && Queueable(s.o, r.value, if i != ORDINARY && !HasProtective(m.decisions) then 1 else 0)
    ensures Sound(AfterFailure(s, i, m, r, next))
  {
    assert WorkOk(i, s.hands[i]);
    if r.Some? {
      var strays := if i != ORDINARY && !HasProtective(m.decisions) then 1 else 0;
      SetSound(s, i, next, Queue(s.o, r.value, strays));
    } else {
      SetSound(s, i, Ending(m, m.decisions, next), s.o);
    }
  }

  lemma SucceededSound(s: State, i: nat, m: Message, failed: nat, since: Option<int>, next: Work)
    requires Sound(s) && i < |s.hands| && s.hands[i] == Sending(m, failed, since, next)
    ensures Sound(Delivered(s, i, true))
  {
    ToldSound(s.o, m);
    assert WorkOk(i, s.hands[i]);
    SetSound(s, i, next, Reported(Left(s.o, WithFate(m.decisions, Told)), m.id, true));
  }

  lemma FailedSound(s: State, i: nat, m: Message, failed: nat, since: Option<int>, next: Work)
    requires Sound(s) && i < |s.hands| && s.hands[i] == Sending(m, failed, since, next)
    ensures Sound(AfterFailure(s, i, m, ScheduleRetry(s.o, m, failed + 1, since), next))
  {
    var r := ScheduleRetry(s.o, m, failed + 1, since);
    if r.Some? {
      assert Queueable(s.o, r.value, if i != ORDINARY && !HasProtective(m.decisions) then 1 else 0) by {
        QueueSound(s.o, m, failed + 1, since, if i != ORDINARY && !HasProtective(m.decisions) then 1 else 0);
      }
    }
    FailureSound(s, i, m, r, next);
  }

  lemma FailedIs(s: State, i: nat, m: Message, failed: nat, since: Option<int>, next: Work)
    requires i < |s.hands| && s.hands[i] == Sending(m, failed, since, next)
    ensures Delivered(s, i, false) == AfterFailure(s, i, m, ScheduleRetry(s.o, m, failed + 1, since), next)
  {
  }

  lemma DeliveredSound(s: State, i: nat, ok: bool)
    requires Sound(s) && i < |s.hands|
    ensures Sound(Delivered(s, i, ok))
  {
    hide SharedRouted, SharedBounded, WorkOk, LaneWork, LaneLimit, ScheduleRetry, AfterFailure, Left, Reported;
    if s.hands[i].Sending? {
      var w := s.hands[i];
      if ok {
        SucceededSound(s, i, w.m, w.failed, w.since, w.next);
      } else {
        FailedIs(s, i, w.m, w.failed, w.since, w.next);
        FailedSound(s, i, w.m, w.failed, w.since, w.next);
      }
    }
  }

  lemma FallbackSound(o: Shared, d: Decision, ok: bool)
    requires SharedRouted(o) && SharedBounded(o)
    ensures SharedRouted(Fallback(o, d, ok)) && SharedBounded(Fallback(o, d, ok)) && SameLanes(o, Fallback(o, d, ok))
  {
    if ok {
      assert forall x | x in [SettledAs(d, IsProtective(d))] :: SettledOk(x);
    } else {
      DeferSound(o, [d], IsProtective(d));
    }
  }

  lemma EndSound(s: State, i: nat, ok: bool)
    requires Sound(s) && i < |s.hands|
    ensures Sound(EndNext(s, i, ok))
  {
    assert WorkOk(i, s.hands[i]);
    match s.hands[i] {
      case Ending(m, rest, next) =>
        if rest == [] {
          SetSound(s, i, next, Reported(s.o, m.id, false));
        } else {
          FallbackSound(s.o, rest[0], ok);
          SetSound(s, i, Ending(m, rest[1..], next), Fallback(s.o, rest[0], ok));
        }
      case _ =>
    }
  }

  lemma AgeSound(s: State, i: nat, ok: bool)
    requires Sound(s) && i < |s.hands|
    ensures Sound(AgeNext(s, i, ok))
  {
    match s.hands[i] {
      case Aging(rest, next) =>
        if rest != [] {
          assert rest[0] in rest;
          assert forall d | d in rest[1..] :: d in rest;
        }
      case _ =>
    }
  }

  lemma LastGroupSound(o: Shared, rest: seq<Decision>)
    requires SharedRouted(o) && SharedBounded(o) && Ordinary(rest)
    ensures SharedRouted(LastGroup(o, rest)) && SharedBounded(LastGroup(o, rest)) && |LastGroup(o, rest).ord| <= |o.ord| + 1
  {
    LaneSound(o, Group(rest));
  }

  lemma ClosedSound(o: Shared)
    requires SharedRouted(o) && SharedBounded(o) && o.buf == []
    ensures SharedRouted(o.(closed := true)) && SharedBounded(o.(closed := true))
  {
  }

  // What Close does with what was buffered.
  lemma CloseShared(o: Shared)
    requires SharedRouted(o) && SharedBounded(o)
    ensures SharedRouted(Close(o)) && SharedBounded(Close(o))
    ensures |Close(o).ord| <= |o.ord| + if o.closed then 0 else 1
  {
    if o.buf == [] {
      ClosedSound(o);
    } else {
      ProtectiveSound(Take(o), ProtectivePart(o.buf));
      OrdinaryPartIsOrdinary(o.buf);
      var o1 := AddProtective(Take(o), ProtectivePart(o.buf));
      ClosedSound(o1);
      LastGroupSound(o1.(closed := true), OrdinaryPart(o.buf));
    }
  }

  lemma CloseKeepsRest(o: Shared)
    ensures Close(o).retries == o.retries && Close(o).ordSlots == o.ordSlots && Close(o).log.stray == o.log.stray && Close(o).closed
  {
  }

  lemma CloseSound(s: State)
    requires Sound(s)
    ensures Sound(State(Close(s.o), s.hands))
  {
    CloseShared(s.o);
    CloseKeepsRest(s.o);
  }

  lemma {:induction false} WithoutRetriesShorter(jobs: seq<Job>)
    ensures |WithoutRetries(jobs)| <= |jobs|
    ensures forall j | j in WithoutRetries(jobs) :: j in jobs
  {
    if jobs != [] {
      WithoutRetriesShorter(jobs[..|jobs| - 1]);
    }
  }

  lemma BeginGroupSound(s: State, i: nat, g: seq<Decision>, next: Work)
    requires Sound(s) && i < |s.hands| && s.hands[i] == Holding(Group(g), next)
    ensures Sound(Begin(s, i))
  {
  }

  lemma BeginRetrySound(s: State, i: nat, r: Retry, next: Work)
    requires Sound(s) && i < |s.hands| && s.hands[i] == Holding(RetryJob(r), next)
    ensures Sound(Begin(s, i))
  {
  }

  lemma BeginSound(s: State, i: nat)
    requires Sound(s) && i < |s.hands|
    ensures Sound(Begin(s, i))
  {
    match s.hands[i] {
      case Holding(Group(g), next) => BeginGroupSound(s, i, g, next);
      case Holding(RetryJob(r), next) => BeginRetrySound(s, i, r, next);
      case _ =>
    }
  }

  lemma PopOrdinarySound(s: State)
    requires Sound(s) && s.hands[ORDINARY].Idle?
    ensures Sound(PopOrdinary(s))
  {
    if s.o.ord != [] {
      assert JobOk(s.o.ord[0]);
    }
  }

  lemma PopRetrySound(s: State)
    requires Sound(s) && s.hands[PROTECTIVE].Idle?
    ensures Sound(PopRetry(s))
  {
  }

  lemma PopProtectiveSound(s: State)
    requires Sound(s) && s.hands[PROTECTIVE].Idle?
    ensures Sound(PopProtective(s))
  {
  }

  lemma TakeDueSound(s: State)
    requires Sound(s)
    ensures Sound(TakeDue(s))
  {
    PushedSound(s, RUNNER, Handing(s.o.buf), Take(s.o));
  }

  lemma HandOverSound(s: State)
    requires Sound(s)
    ensures Sound(HandOver(s))
  {
    match s.hands[RUNNER] {
      case Handing(g) => PushSound(s.o, g); PushedSound(s, RUNNER, Idle, PushOrdinary(s.o, g));
      case _ =>
    }
  }

  lemma PutBackSound(s: State)
    requires Sound(s)
    ensures Sound(PutBack(s))
  {
    assert WorkOk(RUNNER, s.hands[RUNNER]);
    match s.hands[RUNNER] {
      case Settling(todo, again) => ReturnSound(s.o, again); PushedSound(s, RUNNER, Idle, Return(s.o, again));
      case _ =>
    }
  }

  lemma TakeDeferralsSound(s: State)
    requires Sound(s)
    ensures Sound(TakeDeferrals(s))
  {
    PushedSound(s, RUNNER, Settling(s.o.deferred, []), s.o.(deferred := []));
  }

  lemma DigestSound(s: State)
    requires Sound(s)
    ensures Sound(State(HandOverDigest(s.o), s.hands))
  {
  }

  lemma DrainSound(s: State)
    requires Sound(s) && s.o.closed
    ensures Sound(DrainRetries(s))
  {
    WithoutRetriesShorter(s.o.ord);
    var o := s.o.(retries := [], protRetry := [], ord := WithoutRetries(s.o.ord));
    SetSound(s, RUNNER, Draining(s.o.retries + s.o.protRetry + RetriesIn(s.o.ord)), o);
  }

  lemma DrainNextSound(s: State)
    requires Sound(s)
    ensures Sound(DrainNext(s))
  {
    match s.hands[RUNNER] {
      case Draining(rs) =>
        if rs == [] {
          SetSound(s, RUNNER, Idle, s.o);
        } else {
          SetSound(s, RUNNER, Ending(rs[0].m, rs[0].m.decisions, Draining(rs[1..])), s.o);
        }
      case _ =>
    }
  }

  lemma DigestSentSound(s: State, i: nat)
    requires Sound(s) && i < |s.hands|
    ensures Sound(DigestSent(s, i))
  {
    assert WorkOk(i, s.hands[i]);
    match s.hands[i] {
      case SendingDigest(next) => SetSound(s, i, next, s.o.(digestBusy := false));
      case _ =>
    }
  }

  lemma EntrySound(s: State, a: Action)
    requires Sound(s) && IsEntry(a)
    ensures Sound(EntryStep(s, a))
  {
    match a {
      case AClock(to) =>
      case AAccept(ds) => AcceptSound(s.o, ds);
      case ASubmit(c, d) => if RUNNER < c < |s.hands| && s.hands[c].Idle? { SubmitSound(s, c, d); }
    }
  }

  lemma TickSound(s: State, a: Action)
    requires Sound(s) && IsTick(a)
    ensures Sound(TickStep(s, a))
  {
    match a {
      case ATakeDue => TakeDueSound(s);
      case AHandOver => HandOverSound(s);
      case ADueRetries => DueSound(s);
      case ATakeDeferrals => TakeDeferralsSound(s);
      case ASettle(ok) => SettleSound(s, ok);
      case APutBack => PutBackSound(s);
      case ADigest => DigestSound(s);
    }
  }

  lemma ShutdownSound(s: State, a: Action)
    requires Sound(s) && IsShutdown(a)
    ensures Sound(ShutdownStep(s, a))
  {
    match a {
      case AClose => CloseSound(s);
      case ADrain => if s.o.closed { DrainSound(s); }
      case ADrainNext => DrainNextSound(s);
    }
  }

  lemma TakingSound(s: State, a: Action)
    requires Sound(s) && IsTaking(a)
    ensures Sound(TakingStep(s, a))
  {
    match a {
      case APopOrdinary => if s.hands[ORDINARY].Idle? { PopOrdinarySound(s); }
      case APopRetry => if s.hands[PROTECTIVE].Idle? { PopRetrySound(s); }
      case APopProtective => if s.hands[PROTECTIVE].Idle? { PopProtectiveSound(s); }
    }
  }

  lemma SendingSound(s: State, a: Action)
    requires Sound(s) && IsSending(a)
    ensures Sound(SendingStep(s, a))
  {
    match a {
      case ABegin(i) => if i < |s.hands| { BeginSound(s, i); }
      case ADelivered(i, ok) => if i < |s.hands| { DeliveredSound(s, i, ok); }
      case AEnd(i, ok) => if i < |s.hands| { EndSound(s, i, ok); }
      case AAge(ok) => AgeSound(s, ORDINARY, ok);
      case ADigestSent => DigestSentSound(s, ORDINARY);
    }
  }

  lemma StepSound(s: State, a: Action)
    requires Sound(s)
    ensures Sound(Step(s, a))
  {
    if IsEntry(a) { EntrySound(s, a); }
    else if IsTick(a) { TickSound(s, a); }
    else if IsShutdown(a) { ShutdownSound(s, a); }
    else if IsTaking(a) { TakingSound(s, a); }
    else { SendingSound(s, a); }
  }

  lemma InitSound(now: int, window: int, slots: nat, callers: nat)
    ensures Sound(Init(now, window, slots, callers))
  {
  }

  /** Every run keeps the routing and the sizes. */
  lemma {:induction false} RunSound(s: State, actions: seq<Action>)
    requires Sound(s)
    ensures Sound(Run(s, actions))
  {
    if actions != [] {
      RunSound(s, actions[..|actions| - 1]);
      StepSound(Run(s, actions[..|actions| - 1]), actions[|actions| - 1]);
    }
  }
}
