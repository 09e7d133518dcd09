/**
At most one digest is in the outbox at a time (pkg/attention/handoff.go:473-490, outbox.go:495-518), which is what the
governor's digests rely on (GovernorRuns.NothingIsToldTwice).
*/
module OutboxDigest {
  import opened Wrappers
  import opened Attention
  import opened OutboxSpec

  // ---- counting ---------------------------------------------------------------------------------------------------------

  function One(b: bool): nat { if b then 1 else 0 }

  function DigestsIn(jobs: seq<Job>): nat {
    if jobs == [] then 0 else DigestsIn(jobs[..|jobs| - 1]) + One(jobs[|jobs| - 1].DigestJob?)
  }

  // The digests a step holds, or is sending.
  function DigestsOf(w: Work): nat {
    match w
    case Holding(j, next) => One(j.DigestJob?) + DigestsOf(next)
    case Sending(_, _, _, next) => DigestsOf(next)
    case Ending(_, _, next) => DigestsOf(next)
    case Aging(_, next) => DigestsOf(next)
    case SendingDigest(next) => 1 + DigestsOf(next)
    case _ => 0
  }

  function DigestsHeld(hands: seq<Work>): nat {
    if hands == [] then 0 else DigestsHeld(hands[..|hands| - 1]) + DigestsOf(hands[|hands| - 1])
  }

  function DigestsInside(s: State): nat {
    DigestsIn(s.o.ord) + DigestsHeld(s.hands)
  }

  predicate OneDigest(s: State) {
    DigestsInside(s) == One(s.o.digestBusy)
  }

  lemma {:induction false} HeldSet(hands: seq<Work>, i: nat, w: Work)
    requires i < |hands|
    ensures DigestsHeld(hands[i := w]) == DigestsHeld(hands) - DigestsOf(hands[i]) + DigestsOf(w)
    ensures DigestsOf(hands[i]) <= DigestsHeld(hands)
  {
    var front := hands[..|hands| - 1];
    if i == |front| {
      assert hands[i := w][..i] == front;
    } else {
      HeldSet(front, i, w);
      assert hands[i := w][..|front|] == front[i := w];
    }
  }

  lemma {:induction false} JobsConcat(a: seq<Job>, b: seq<Job>)
    ensures DigestsIn(a + b) == DigestsIn(a) + DigestsIn(b)
  {
    if b == [] {
      assert a + b == a;
    } else {
      JobsConcat(a, b[..|b| - 1]);
      assert (a + b)[..|a + b| - 1] == a + b[..|b| - 1];
    }
  }

  lemma OneMoreJob(jobs: seq<Job>, j: Job)
    ensures DigestsIn(jobs + [j]) == DigestsIn(jobs) + One(j.DigestJob?)
  {
    assert (jobs + [j])[..|jobs|] == jobs;
  }

  lemma {:induction false} RetriesAreNone(rs: seq<Retry>)
    ensures DigestsIn(AsJobs(rs)) == 0
  {
    if rs != [] {
      RetriesAreNone(rs[..|rs| - 1]);
      assert AsJobs(rs) == AsJobs(rs[..|rs| - 1]) + [RetryJob(rs[|rs| - 1])];
      OneMoreJob(AsJobs(rs[..|rs| - 1]), RetryJob(rs[|rs| - 1]));
    }
  }

  lemma {:induction false} DrainKeepsThem(jobs: seq<Job>)
    ensures DigestsIn(WithoutRetries(jobs)) == DigestsIn(jobs)
  {
    if jobs != [] {
      DrainKeepsThem(jobs[..|jobs| - 1]);
      if !jobs[|jobs| - 1].RetryJob? { OneMoreJob(WithoutRetries(jobs[..|jobs| - 1]), jobs[|jobs| - 1]); }
    }
  }

  // ---- what leaves the digests alone --------------------------------------------------------------------------------------

  predicate NoDigest(o: Shared, o': Shared) {
    DigestsIn(o'.ord) == DigestsIn(o.ord) && o'.digestBusy == o.digestBusy
  }

  lemma SetKeeps(s: State, i: nat, w: Work, o: Shared)
    requires i < |s.hands| && OneDigest(s) && NoDigest(s.o, o) && DigestsOf(w) == DigestsOf(s.hands[i])
    ensures OneDigest(Set(s, i, w, o))
  {
    HeldSet(s.hands, i, w);
  }

  lemma ProtectiveIsNone(o: Shared, ds: seq<Decision>)
    ensures NoDigest(o, AddProtective(o, ds))
  {
  }

  lemma RestIsNone(o: Shared, rest: seq<Decision>)
    ensures NoDigest(o, PushRest(o, rest))
  {
    OneMoreJob(o.ord, Group(rest));
  }

  lemma PushIsNone(o: Shared, group: seq<Decision>)
    ensures NoDigest(o, PushOrdinary(o, group))
  {
    ProtectiveIsNone(o, ProtectivePart(group));
    RestIsNone(AddProtective(o, ProtectivePart(group)), OrdinaryPart(group));
  }

  lemma EscortIsNone(o: Shared, d: Decision)
    ensures NoDigest(o, Escort(o, d))
  {
  }

  lemma AcceptLockedIsNone(o: Shared, d: Decision)
    ensures NoDigest(o, AcceptLocked(o, d).0)
  {
    hide Escort, PushOrdinary;
    EscortIsNone(Buffer(o, d), d);
    PushIsNone(Escort(Buffer(o, d), d), o.buf);
  }

  lemma {:induction false} AcceptIsNone(o: Shared, ds: seq<Decision>)
    ensures NoDigest(o, AcceptAll(o, ds).0)
  {
    hide AcceptLocked;
    if ds != [] {
      AcceptIsNone(o, ds[..|ds| - 1]);
      AcceptLockedIsNone(AcceptAll(o, ds[..|ds| - 1]).0, ds[|ds| - 1]);
    }
  }

  lemma CloseIsNone(o: Shared)
    ensures NoDigest(o, Close(o))
  {
    if o.buf != [] {
      ProtectiveIsNone(Take(o), ProtectivePart(o.buf));
      OneMoreJob(o.ord, Group(OrdinaryPart(o.buf)));
    }
  }

  lemma FallbackIsNone(o: Shared, d: Decision, ok: bool)
    ensures NoDigest(o, Fallback(o, d, ok))
  {
  }

  // ---- every action -------------------------------------------------------------------------------------------------------

  lemma SubmitKeeps(s: State, c: nat, d: Decision)
    requires c < |s.hands| && s.hands[c].Idle? && OneDigest(s)
    ensures OneDigest(Submit(s, c, d))
  {
    if d.disposition.Sent() { SetKeeps(s, c, SubmitWork(s.o, d), SubmitShared(s.o, d)); }
  }

  lemma EntryKeeps(s: State, a: Action)
    requires Shaped(s) && OneDigest(s) && IsEntry(a)
    ensures OneDigest(EntryStep(s, a))
  {
    match a {
      case AClock(to) =>
      case AAccept(ds) => AcceptIsNone(s.o, ds);
      case ASubmit(c, d) => if RUNNER < c < |s.hands| && s.hands[c].Idle? { SubmitKeeps(s, c, d); }
    }
  }

  lemma HandOverKeeps(s: State)
    requires Shaped(s) && OneDigest(s)
    ensures OneDigest(HandOver(s))
  {
    match s.hands[RUNNER] {
      case Handing(g) => PushIsNone(s.o, g); SetKeeps(s, RUNNER, Idle, PushOrdinary(s.o, g));
      case _ =>
    }
  }

  lemma DueIsNone(o: Shared)
    ensures NoDigest(o, HandOverDueRetries(o))
  {
    JobsConcat(o.ord, AsJobs(DueFor(o.retries, o.now, false)));
    RetriesAreNone(DueFor(o.retries, o.now, false));
  }

  lemma SettleKeeps(s: State, ok: bool)
    requires Shaped(s) && OneDigest(s)
    ensures OneDigest(SettleNext(s, ok))
  {
    if s.hands[RUNNER].Settling? && s.hands[RUNNER].todo != [] {
      SetKeeps(s, RUNNER, SettleNext(s, ok).hands[RUNNER], SettleNext(s, ok).o);
    }
  }

  lemma PutBackKeeps(s: State)
    requires Shaped(s) && OneDigest(s)
    ensures OneDigest(PutBack(s))
  {
    match s.hands[RUNNER] {
      case Settling(todo, again) => SetKeeps(s, RUNNER, Idle, Return(s.o, again));
      case _ =>
    }
  }

  lemma DigestKeeps(s: State)
    requires Shaped(s) && OneDigest(s)
    ensures OneDigest(State(HandOverDigest(s.o), s.hands))
  {
    OneMoreJob(s.o.ord, DigestJob);
  }

  lemma TickKeeps(s: State, a: Action)
    requires Shaped(s) && OneDigest(s) && IsTick(a)
    ensures OneDigest(TickStep(s, a))
  {
    hide OneDigest, HandOver, SettleNext, PutBack, HandOverDueRetries, HandOverDigest;
    match a {
      case ATakeDue => if s.hands[RUNNER].Idle? { SetKeeps(s, RUNNER, Handing(s.o.buf), Take(s.o)); }
      case AHandOver => HandOverKeeps(s);
      case ADueRetries => DueIsNone(s.o); SameHandsKeep(s, HandOverDueRetries(s.o));
      case ATakeDeferrals => if s.hands[RUNNER].Idle? { SetKeeps(s, RUNNER, Settling(s.o.deferred, []), s.o.(deferred := [])); }
      case ASettle(ok) => SettleKeeps(s, ok);
      case APutBack => PutBackKeeps(s);
      case ADigest => DigestKeeps(s);
    }
  }

  lemma SameHandsKeep(s: State, o: Shared)
    requires OneDigest(s) && NoDigest(s.o, o)
    ensures OneDigest(State(o, s.hands))
  {
  }

  lemma DrainKeeps(s: State)
    requires Shaped(s) && OneDigest(s) && s.hands[RUNNER].Idle?
    ensures OneDigest(DrainRetries(s))
  {
    DrainKeepsThem(s.o.ord);
    SetKeeps(s, RUNNER, DrainRetries(s).hands[RUNNER], DrainRetries(s).o);
  }

  lemma DrainNextKeeps(s: State)
    requires Shaped(s) && OneDigest(s)
    ensures OneDigest(DrainNext(s))
  {
    match s.hands[RUNNER] {
      case Draining(rs) => SetKeeps(s, RUNNER, DrainNext(s).hands[RUNNER], s.o);
      case _ =>
    }
  }

  lemma ShutdownKeeps(s: State, a: Action)
    requires Shaped(s) && OneDigest(s) && IsShutdown(a)
    ensures OneDigest(ShutdownStep(s, a))
  {
    hide OneDigest, Close, DrainRetries, DrainNext;
    match a {
      case AClose => CloseIsNone(s.o); SameHandsKeep(s, Close(s.o));
      case ADrain => if s.hands[RUNNER].Idle? { DrainKeeps(s); }
      case ADrainNext => DrainNextKeeps(s);
    }
  }

  lemma PopOrdinaryKeeps(s: State)
    requires Shaped(s) && OneDigest(s) && s.hands[ORDINARY].Idle?
    ensures OneDigest(PopOrdinary(s))
  {
    if s.o.ord != [] {
      assert [s.o.ord[0]] + s.o.ord[1..] == s.o.ord;
      JobsConcat([s.o.ord[0]], s.o.ord[1..]);
      OneMoreJob([], s.o.ord[0]);
      assert [] + [s.o.ord[0]] == [s.o.ord[0]];
      HeldSet(s.hands, ORDINARY, Holding(s.o.ord[0], Idle));
    }
  }

  lemma TakingKeeps(s: State, a: Action)
    requires Shaped(s) && OneDigest(s) && IsTaking(a)
    ensures OneDigest(TakingStep(s, a))
  {
    match a {
      case APopOrdinary => if s.hands[ORDINARY].Idle? { PopOrdinaryKeeps(s); }
      case APopRetry => if s.hands[PROTECTIVE].Idle? && s.o.protRetry != [] { SetKeeps(s, PROTECTIVE, PopRetry(s).hands[PROTECTIVE], PopRetry(s).o); }
      case APopProtective =>
        if s.hands[PROTECTIVE].Idle? && s.o.prot != [] { SetKeeps(s, PROTECTIVE, PopProtective(s).hands[PROTECTIVE], PopProtective(s).o); }
    }
  }

  lemma BeginIs(s: State, i: nat)
    requires i < |s.hands|
    ensures |Begin(s, i).hands| == |s.hands| && Begin(s, i) == Set(s, i, Begin(s, i).hands[i], Begin(s, i).o)
    ensures DigestsOf(Begin(s, i).hands[i]) == DigestsOf(s.hands[i]) && NoDigest(s.o, Begin(s, i).o)
  {
    assert s.hands[i := s.hands[i]] == s.hands;
  }

  lemma BeginKeeps(s: State, i: nat)
    requires OneDigest(s) && i < |s.hands|
    ensures OneDigest(Begin(s, i))
  {
    hide Begin;
    BeginIs(s, i);
    SetKeeps(s, i, Begin(s, i).hands[i], Begin(s, i).o);
  }

  lemma DeliveredKeeps(s: State, i: nat, ok: bool)
    requires OneDigest(s) && i < |s.hands|
    ensures OneDigest(Delivered(s, i, ok))
  {
    if s.hands[i].Sending? { SetKeeps(s, i, Delivered(s, i, ok).hands[i], Delivered(s, i, ok).o); }
  }

  lemma EndKeeps(s: State, i: nat, ok: bool)
    requires OneDigest(s) && i < |s.hands|
    ensures OneDigest(EndNext(s, i, ok))
  {
    match s.hands[i] {
      case Ending(m, rest, next) =>
        if rest == [] {
          SetKeeps(s, i, next, Reported(s.o, m.id, false));
        } else {
          FallbackIsNone(s.o, rest[0], ok);
          SetKeeps(s, i, Ending(m, rest[1..], next), Fallback(s.o, rest[0], ok));
        }
      case _ =>
    }
  }

  lemma AgeKeeps(s: State, ok: bool)
    requires Shaped(s) && OneDigest(s)
    ensures OneDigest(AgeNext(s, ORDINARY, ok))
  {
    match s.hands[ORDINARY] {
      case Aging(rest, next) => SetKeeps(s, ORDINARY, AgeNext(s, ORDINARY, ok).hands[ORDINARY], AgeNext(s, ORDINARY, ok).o);
      case _ =>
    }
  }

  lemma DigestSentKeeps(s: State)
    requires Shaped(s) && OneDigest(s)
    ensures OneDigest(DigestSent(s, ORDINARY))
  {
    match s.hands[ORDINARY] {
      case SendingDigest(next) => HeldSet(s.hands, ORDINARY, next);
      case _ =>
    }
  }

  lemma SendingKeeps(s: State, a: Action)
    requires Shaped(s) && OneDigest(s) && IsSending(a)
    ensures OneDigest(SendingStep(s, a))
  {
    hide OneDigest, Begin, Delivered, EndNext, AgeNext, DigestSent;
    match a {
      case ABegin(i) => if i < |s.hands| { BeginKeeps(s, i); }
      case ADelivered(i, ok) => if i < |s.hands| { DeliveredKeeps(s, i, ok); }
      case AEnd(i, ok) => if i < |s.hands| { EndKeeps(s, i, ok); }
      case AAge(ok) => AgeKeeps(s, ok);
      case ADigestSent => DigestSentKeeps(s);
    }
  }

  lemma StepKeeps(s: State, a: Action)
    requires Shaped(s) && OneDigest(s)
    ensures OneDigest(Step(s, a))
  {
    hide OneDigest, EntryStep, TickStep, ShutdownStep, TakingStep, SendingStep;
    if IsEntry(a) { EntryKeeps(s, a); }
    else if IsTick(a) { TickKeeps(s, a); }
    else if IsShutdown(a) { ShutdownKeeps(s, a); }
    else if IsTaking(a) { TakingKeeps(s, a); }
    else { SendingKeeps(s, a); }
  }

  lemma {:induction false} RunKeeps(s: State, actions: seq<Action>)
    requires Shaped(s) && OneDigest(s)
    ensures OneDigest(Run(s, actions))
  {
    hide Step, OneDigest;
    if actions != [] {
      RunKeeps(s, actions[..|actions| - 1]);
      StepKeeps(Run(s, actions[..|actions| - 1]), actions[|actions| - 1]);
    }
  }

  lemma {:induction false} IdleHolds(hands: seq<Work>)
    requires forall i | 0 <= i < |hands| :: hands[i].Idle?
    ensures DigestsHeld(hands) == 0
  {
    if hands != [] { IdleHolds(hands[..|hands| - 1]); }
  }

  /**
  In every run the digests that are queued, taken or being sent are one while digestBusy is set, and none otherwise. So
  there are never two.
  */
  lemma OneDigestAtATime(now: int, window: int, slots: nat, callers: nat, actions: seq<Action>)
    ensures var s := Run(Init(now, window, slots, callers), actions); DigestsInside(s) == if s.o.digestBusy then 1 else 0
  {
    hide Step;
    IdleHolds(Init(now, window, slots, callers).hands);
    RunKeeps(Init(now, window, slots, callers), actions);
  }

  /** A digest that is due is queued if and only if none is inside and the lane has a slot. */
  lemma DigestIsQueued(now: int, window: int, slots: nat, callers: nat, actions: seq<Action>)
    ensures var s := Run(Init(now, window, slots, callers), actions);
            s.hands[RUNNER].Idle? ==>
              Step(s, ADigest) == if DigestsInside(s) == 0 && |s.o.ord| < s.o.ordSlots
                                  then State(s.o.(ord := s.o.ord + [DigestJob], digestBusy := true), s.hands) else s
  {
    OneDigestAtATime(now, window, slots, callers, actions);
    hide Run, DigestsInside;
  }
}
