/**
How often a message is tried. In every run a message without a protective decision is tried at most four times,
one with a protective decision at most fifteen times, and none is tried again once its outcome is known.

A message that waits, or is being sent, remembers how often it failed; the invariant (Fits) ties that number to
the tries and the failures on record, to the kind of the message and, for a protective one, to the time that has
passed since its first failure. The bound of fifteen is arithmetic about that time: Delay(f) is the least time f
failures take, and the retry window leaves room for fourteen.

  - "what a change of the record leaves alone": the invariant of one running step survives the others' records;
  - "a new try" needs that the message is in no other step's hands, which is OutboxConservation for its number;
  - "a failure" is where the number of failures grows and the retry window is asked;
  - "the other actions" touch no retry, and "every run" is the induction, from which OutboxTheorems has the bounds.
*/
module OutboxTries {
  import opened Wrappers
  import opened Attention
  import opened OutboxSpec
  import opened OutboxConservation

  // The least time from the start of a message's retry window to the retry after its f-th failure.
  function Delay(f: nat): int {
    if f == 0 then 0
    else Delay(f - 1) + if f <= |RETRY_DELAYS| then RETRY_DELAYS[f - 1] else PROTECTIVE_RETRY_EVERY
  }

  const MAX_FAILED_ORDINARY := 3
  const MAX_FAILED_PROTECTIVE := 14

  function MaxFailed(ds: seq<Decision>): nat {
    if HasProtective(ds) then MAX_FAILED_PROTECTIVE else MAX_FAILED_ORDINARY
  }

  lemma {:induction false} DelayGrows(f: nat)
    ensures f >= 3 ==> Delay(f) == 270 * SECOND + (f - 3) * PROTECTIVE_RETRY_EVERY
  {
    if f == 3 {
      assert Delay(1) == 30 * SECOND;
      assert Delay(2) == 120 * SECOND;
    } else if f > 3 {
      DelayGrows(f - 1);
    }
  }

  // The window of one hour leaves room for fourteen failures and no more.
  lemma WindowBoundsFailures(f: nat)
    requires Delay(f) <= PROTECTIVE_RETRY_WINDOW
    ensures f <= MAX_FAILED_PROTECTIVE
  {
    DelayGrows(f);
  }

  // ---- the invariant ----------------------------------------------------------------------------------------

  predicate Numbered(m: Message, tries: nat, mail: seq<Mail>) {
    m.id < |mail| && mail[m.id] == Mail(m.decisions, tries)
  }

  predicate RetryFits(r: Retry, mail: seq<Mail>) {
    && Numbered(r.m, r.failed, mail)
    && 1 <= r.failed <= MaxFailed(r.m.decisions)
    && (HasProtective(r.m.decisions) ==> r.since.Some? && Delay(r.failed) <= r.due - r.since.value)
  }

  predicate DueFits(r: Retry, o: Shared) {
    RetryFits(r, o.log.mail) && r.due <= o.now
  }

  predicate SendingFits(m: Message, failed: nat, since: Option<int>, o: Shared) {
    && Numbered(m, failed + 1, o.log.mail)
    && failed <= MaxFailed(m.decisions)
    && (failed == 0 ==> since.None?)
    && (failed > 0 && HasProtective(m.decisions) ==> since.Some? && Delay(failed) <= o.now - since.value)
  }

  predicate WorkFits(w: Work, o: Shared) {
    match w
    case Idle => true
    case Holding(j, next) => (j.RetryJob? ==> DueFits(j.retry, o)) && WorkFits(next, o)
    case Sending(m, failed, since, next) => SendingFits(m, failed, since, o) && WorkFits(next, o)
    case Ending(m, _, next) => WorkFits(next, o)
    case Aging(_, next) => WorkFits(next, o)
    case SendingDigest(next) => WorkFits(next, o)
    case Handing(_) => true
    case Settling(_, _) => true
    case Draining(rs) => true
  }

  predicate SharedFits(o: Shared) {
    && (forall r | r in o.retries :: RetryFits(r, o.log.mail))
    && (forall r | r in o.protRetry :: DueFits(r, o))
    && (forall j | j in o.ord :: j.RetryJob? ==> DueFits(j.retry, o))
    && (forall k | 0 <= k < |o.log.mail| :: o.log.mail[k].tries <= MaxFailed(o.log.mail[k].decisions) + 1)
  }

  ghost predicate Fits(s: State) {
    && Shaped(s)
    && SharedFits(s.o)
    && forall i | 0 <= i < |s.hands| :: WorkFits(s.hands[i], s.o)
  }

  // ---- what a change of the record leaves alone -------------------------------------------------------------

  // The clock may have moved on; the messages are the same.
  predicate Later(o: Shared, o': Shared) {
    o'.log.mail == o.log.mail && o.now <= o'.now
  }

  lemma {:induction false} WorkFitsLater(w: Work, o: Shared, o': Shared)
    requires WorkFits(w, o) && Later(o, o')
    ensures WorkFits(w, o')
  {
    match w {
      case Holding(_, next) => WorkFitsLater(next, o, o');
      case Sending(_, _, _, next) => WorkFitsLater(next, o, o');
      case Ending(_, _, next) => WorkFitsLater(next, o, o');
      case Aging(_, next) => WorkFitsLater(next, o, o');
      case SendingDigest(next) => WorkFitsLater(next, o, o');
      case _ =>
    }
  }

  lemma LaterFits(s: State, o: Shared)
    requires Fits(s) && Later(s.o, o) && SharedFits(o)
    ensures Fits(State(o, s.hands))
  {
    forall j | 0 <= j < |s.hands| ensures WorkFits(s.hands[j], o) {
      WorkFitsLater(s.hands[j], s.o, o);
    }
  }

  lemma SetFits(s: State, i: nat, w: Work, o: Shared)
    requires Fits(s) && i < |s.hands| && Later(s.o, o) && SharedFits(o) && WorkFits(w, s.o)
    ensures Fits(Set(s, i, w, o))
  {
    LaterFits(s, o);
    WorkFitsLater(w, s.o, o);
  }

  // ---- a new try --------------------------------------------------------------------------------------------

  lemma {:induction false} TallyZero<K, A>(f: (K, A) -> nat, x: K, xs: seq<A>)
    requires Tally(f, x, xs) == 0
    ensures forall y | y in xs :: f(x, y) == 0
  {
    if xs != [] {
      TallyZero(f, x, xs[..|xs| - 1]);
    }
  }

  // A message whose try is being counted is nowhere else.
  ghost predicate Elsewhere(id: nat, s: State, i: nat)
    requires i < |s.hands|
  {
    && (forall r | r in s.o.retries :: r.m.id != id)
    && (forall r | r in s.o.protRetry :: r.m.id != id)
    && (forall j | j in s.o.ord && j.RetryJob? :: j.retry.m.id != id)
    && (forall j | 0 <= j < |s.hands| && j != i :: WorkLoad(OfMessage(id), s.hands[j]) == 0)
  }

  lemma HeldIsNowhereElse(id: nat, s: State, i: nat)
    requires Conserved(s) && i < |s.hands|
    requires WorkLoad(OfMessage(id), s.hands[i]) > 0
    ensures WorkLoad(OfMessage(id), s.hands[i]) == 1
    ensures Elsewhere(id, s, i)
    ensures Tally(OutcomeLoad, OfMessage(id), s.o.log.outcomes) == 0
    ensures id < |s.o.log.mail|
  {
    var x := OfMessage(id);
    var gone := s.hands[i := Idle];
    assert Entered(x, s.o.log) == Load(x, s);
    NoMessageAmongDecisions(id, s.o.log.accepted);
    TallyUpdate(WorkLoad, x, s.hands, i, Idle);
    TallyZero(RetryLoad, x, s.o.retries);
    TallyZero(RetryLoad, x, s.o.protRetry);
    TallyZero(JobLoad, x, s.o.ord);
    TallyZero(WorkLoad, x, gone);
    forall j | 0 <= j < |s.hands| && j != i ensures WorkLoad(x, s.hands[j]) == 0 {
      assert gone[j] in gone;
    }
    forall j | j in s.o.ord && j.RetryJob? ensures j.retry.m.id != id {
      assert JobLoad(x, j) == 0;
    }
    forall r | r in s.o.retries ensures r.m.id != id {
      assert RetryLoad(x, r) == 0;
    }
    forall r | r in s.o.protRetry ensures r.m.id != id {
      assert RetryLoad(x, r) == 0;
    }
  }

  lemma {:induction false} NoMessageAmongDecisions(id: nat, ds: seq<Decision>)
    ensures In(OfMessage(id), ds) == 0
  {
    if ds != [] {
      NoMessageAmongDecisions(id, ds[..|ds| - 1]);
    }
  }

  // Only message id has another count.
  predicate OnlyCounted(id: nat, o: Shared, o': Shared) {
    && |o.log.mail| <= |o'.log.mail|
    && o'.now == o.now
    && forall k | 0 <= k < |o.log.mail| && k != id :: o'.log.mail[k] == o.log.mail[k]
  }

  lemma {:induction false} WorkFitsBeside(id: nat, w: Work, o: Shared, o': Shared)
    requires WorkFits(w, o) && OnlyCounted(id, o, o')
    requires WorkLoad(OfMessage(id), w) == 0
    ensures WorkFits(w, o')
  {
    match w {
      case Holding(_, next) => WorkFitsBeside(id, next, o, o');
      case Sending(m, _, _, next) =>
        assert MessageLoad(OfMessage(id), m) == 0;
        WorkFitsBeside(id, next, o, o');
      case Ending(_, _, next) => WorkFitsBeside(id, next, o, o');
      case Aging(_, next) => WorkFitsBeside(id, next, o, o');
      case SendingDigest(next) => WorkFitsBeside(id, next, o, o');
      case _ =>
    }
  }

  lemma FirstTryFits(s: State, i: nat, g: seq<Decision>, next: Work)
    requires Fits(s) && Conserved(s) && i < |s.hands| && s.hands[i] == Holding(Group(g), next)
    ensures Fits(Begin(s, i))
  {
    if i == ORDINARY && PastLease(g, s.o.now) {
      SetFits(s, i, Aging(g, next), s.o);
    } else {
      var m := Message(|s.o.log.mail|, g);
      var o := CountTry(NewMessage(s.o, g), i, m);
      assert o.log.mail[m.id] == Mail(g, 1);
      forall j | 0 <= j < |s.hands| ensures WorkFits(s.hands[j], o) {
        WorkFitsGrown(s.hands[j], s.o, o);
      }
    }
  }

  // A message more changes nothing for the others.
  lemma {:induction false} WorkFitsGrown(w: Work, o: Shared, o': Shared)
    requires WorkFits(w, o) && o'.now == o.now && o.log.mail <= o'.log.mail
    ensures WorkFits(w, o')
  {
    match w {
      case Holding(_, next) => WorkFitsGrown(next, o, o');
      case Sending(_, _, _, next) => WorkFitsGrown(next, o, o');
      case Ending(_, _, next) => WorkFitsGrown(next, o, o');
      case Aging(_, next) => WorkFitsGrown(next, o, o');
      case SendingDigest(next) => WorkFitsGrown(next, o, o');
      case _ =>
    }
  }

  lemma NextTryFits(s: State, i: nat, r: Retry, next: Work)
    requires Fits(s) && Conserved(s) && i < |s.hands| && s.hands[i] == Holding(RetryJob(r), next)
    ensures Fits(Begin(s, i))
  {
    if !HasProtective(r.m.decisions) && PastLease(r.m.decisions, s.o.now) {
      SetFits(s, i, Ending(r.m, r.m.decisions, next), s.o);
    } else {
      var id := r.m.id;
      var o := CountTry(s.o, i, r.m);
      assert WorkLoad(OfMessage(id), s.hands[i]) > 0;
      HeldIsNowhereElse(id, s, i);
      assert WorkLoad(OfMessage(id), next) == 0;
      WorkFitsBeside(id, next, s.o, o);
      forall j | 0 <= j < |s.hands| && j != i ensures WorkFits(s.hands[j], o) {
        WorkFitsBeside(id, s.hands[j], s.o, o);
      }
      CountedFits(s.o, i, r);
    }
  }

  lemma CountedFits(o: Shared, i: nat, r: Retry)
    requires SharedFits(o) && DueFits(r, o)
    requires forall r' | r' in o.retries :: r'.m.id != r.m.id
    requires forall r' | r' in o.protRetry :: r'.m.id != r.m.id
    requires forall j | j in o.ord && j.RetryJob? :: j.retry.m.id != r.m.id
    ensures SharedFits(CountTry(o, i, r.m))
    ensures SendingFits(r.m, r.failed, r.since, CountTry(o, i, r.m))
  {
  }

  // ---- a failure --------------------------------------------------------------------------------------------

  lemma NextRetryFits(m: Message, failed: nat, since: Option<int>, o: Shared)
    requires SendingFits(m, failed, since, o)
    ensures var r := NextRetry(m, failed + 1, since, o.now); r.Some? ==> RetryFits(r.value, o.log.mail)
  {
    var r := NextRetry(m, failed + 1, since, o.now);
    if r.Some? && HasProtective(m.decisions) {
      assert Delay(failed + 1) == Delay(failed)
        + if failed + 1 <= |RETRY_DELAYS| then RETRY_DELAYS[failed] else PROTECTIVE_RETRY_EVERY;
      WindowBoundsFailures(failed + 1);
    }
  }

  lemma FailedFits(s: State, i: nat, m: Message, failed: nat, since: Option<int>, next: Work)
    requires Fits(s) && i < |s.hands| && s.hands[i] == Sending(m, failed, since, next)
    ensures Fits(AfterFailure(s, i, m, ScheduleRetry(s.o, m, failed + 1, since), next))
  {
    NextRetryFits(m, failed, since, s.o);
    var r := ScheduleRetry(s.o, m, failed + 1, since);
    if r.Some? {
      SetFits(s, i, next, Queue(s.o, r.value, if i != ORDINARY && !HasProtective(m.decisions) then 1 else 0));
    } else {
      SetFits(s, i, Ending(m, m.decisions, next), s.o);
    }
  }

  lemma DeliveredFits(s: State, i: nat, ok: bool)
    requires Fits(s) && i < |s.hands|
    ensures Fits(Delivered(s, i, ok))
  {
    match s.hands[i] {
      case Sending(m, failed, since, next) =>
        if ok {
          SetFits(s, i, next, Reported(Left(s.o, WithFate(m.decisions, Told)), m.id, true));
        } else {
          FailedFits(s, i, m, failed, since, next);
        }
      case _ =>
    }
  }

  // ---- the other actions ------------------------------------------------------------------------------------

  // An operation that adds no retry to any queue and counts no try.
  predicate NoNewRetries(o: Shared, o': Shared) {
    && Later(o, o') && o'.retries == o.retries && o'.protRetry == o.protRetry && o.log.outcomes <= o'.log.outcomes
    && forall j | j in o'.ord && j.RetryJob? :: j in o.ord
  }

  lemma NoNewRetriesFits(o: Shared, o': Shared)
    requires SharedFits(o) && NoNewRetries(o, o')
    ensures SharedFits(o')
  {
  }

  lemma DeferQuiet(o: Shared, ds: seq<Decision>, release: bool)
    ensures NoNewRetries(o, Defer(o, ds, release))
  {
  }

  lemma PushQuiet(o: Shared, group: seq<Decision>)
    ensures NoNewRetries(o, PushOrdinary(o, group))
  {
  }

  lemma AcceptLockedQuiet(o: Shared, d: Decision)
    ensures NoNewRetries(o, AcceptLocked(o, d).0)
  {
    var o1 := Escort(Buffer(o, d), d);
    assert NoNewRetries(o, o1);
    PushQuiet(o1, o.buf);
  }

  lemma {:induction false} AcceptQuiet(o: Shared, ds: seq<Decision>)
    ensures NoNewRetries(o, AcceptAll(o, ds).0)
  {
    if ds != [] {
      AcceptQuiet(o, ds[..|ds| - 1]);
      var o1 := AcceptAll(o, ds[..|ds| - 1]).0;
      AcceptLockedQuiet(o1, ds[|ds| - 1]);
    }
  }

  lemma QuietTwice(o: Shared, o1: Shared, o2: Shared)
    requires NoNewRetries(o, o1) && NoNewRetries(o1, o2)
    ensures NoNewRetries(o, o2)
  {
  }

  lemma ProtectiveQuiet(o: Shared, ds: seq<Decision>)
    ensures NoNewRetries(o, AddProtective(o, ds))
  {
  }

  lemma LastGroupQuiet(o: Shared, rest: seq<Decision>)
    ensures NoNewRetries(o, LastGroup(o.(closed := true), rest))
  {
  }

  lemma CloseQuiet(o: Shared)
    ensures NoNewRetries(o, Close(o))
  {
    if o.buf != [] {
      var p := ProtectivePart(o.buf);
      ProtectiveQuiet(Take(o), p);
      QuietTwice(o, Take(o), AddProtective(Take(o), p));
      LastGroupQuiet(AddProtective(Take(o), p), OrdinaryPart(o.buf));
      QuietTwice(o, AddProtective(Take(o), p), Close(o));
    }
  }

  lemma QuietFits(s: State, i: nat, w: Work, o: Shared)
    requires Fits(s) && i < |s.hands| && NoNewRetries(s.o, o) && WorkFits(w, s.o)
    ensures Fits(Set(s, i, w, o))
    ensures Fits(State(o, s.hands))
  {
    NoNewRetriesFits(s.o, o);
    SetFits(s, i, w, o);
    LaterFits(s, o);
  }

  lemma {:induction false} DueForAreDue(rs: seq<Retry>, now: int, protective: bool)
    ensures forall r | r in DueFor(rs, now, protective) :: r in rs && r.due <= now
    ensures forall r | r in Waiting(rs, now) :: r in rs
  {
    if rs != [] {
      DueForAreDue(rs[..|rs| - 1], now, protective);
    }
  }

  lemma DueRetriesFit(s: State)
    requires Fits(s)
    ensures Fits(State(HandOverDueRetries(s.o), s.hands))
  {
    var o := HandOverDueRetries(s.o);
    DueForAreDue(s.o.retries, s.o.now, true);
    DueForAreDue(s.o.retries, s.o.now, false);
    var due := DueFor(s.o.retries, s.o.now, false);
    forall j | j in o.ord && j.RetryJob? ensures DueFits(j.retry, o) {
      if j !in s.o.ord {
        var k :| 0 <= k < |due| && AsJobs(due)[k] == j;
        assert due[k] in due;
      }
    }
    LaterFits(s, o);
  }

  lemma {:induction false} WithoutRetriesKeeps(jobs: seq<Job>)
    ensures forall j | j in WithoutRetries(jobs) :: j in jobs
  {
    if jobs != [] {
      WithoutRetriesKeeps(jobs[..|jobs| - 1]);
    }
  }

  lemma SettleFits(s: State, ok: bool)
    requires Fits(s)
    ensures Fits(SettleNext(s, ok))
  {
    if s.hands[RUNNER].Settling? && s.hands[RUNNER].todo != [] {
      var s' := SettleNext(s, ok);
      QuietFits(s, RUNNER, s'.hands[RUNNER], s'.o);
    }
  }

  lemma HandOverFits(s: State)
    requires Fits(s)
    ensures Fits(HandOver(s))
  {
    match s.hands[RUNNER] {
      case Handing(g) => PushQuiet(s.o, g); QuietFits(s, RUNNER, Idle, PushOrdinary(s.o, g));
      case _ =>
    }
  }

  lemma PutBackFits(s: State)
    requires Fits(s)
    ensures Fits(PutBack(s))
  {
    match s.hands[RUNNER] {
      case Settling(todo, again) => QuietFits(s, RUNNER, Idle, Return(s.o, again));
      case _ =>
    }
  }

  lemma CloseFits(s: State)
    requires Fits(s)
    ensures Fits(State(Close(s.o), s.hands))
  {
    CloseQuiet(s.o);
    QuietFits(s, RUNNER, Idle, Close(s.o));
  }

  lemma DrainFits(s: State)
    requires Fits(s)
    ensures Fits(DrainRetries(s))
  {
    WithoutRetriesKeeps(s.o.ord);
    SetFits(s, RUNNER, Draining(s.o.retries + s.o.protRetry + RetriesIn(s.o.ord)),
            s.o.(retries := [], protRetry := [], ord := WithoutRetries(s.o.ord)));
  }

  lemma DrainNextFits(s: State)
    requires Fits(s)
    ensures Fits(DrainNext(s))
  {
    match s.hands[RUNNER] {
      case Draining(rs) =>
        QuietFits(s, RUNNER, Idle, s.o);
        if rs != [] { QuietFits(s, RUNNER, Ending(rs[0].m, rs[0].m.decisions, Draining(rs[1..])), s.o); }
      case _ =>
    }
  }

  lemma PopOrdinaryFits(s: State)
    requires Fits(s)
    ensures Fits(PopOrdinary(s))
  {
    if s.o.ord != [] {
      assert s.o.ord[0] in s.o.ord;
      QuietFits(s, ORDINARY, Holding(s.o.ord[0], Idle), s.o.(ord := s.o.ord[1..]));
    }
  }

  lemma PopRetryFits(s: State)
    requires Fits(s)
    ensures Fits(PopRetry(s))
  {
    if s.o.protRetry != [] {
      assert s.o.protRetry[0] in s.o.protRetry;
      assert forall r | r in s.o.protRetry[1..] :: r in s.o.protRetry;
      SetFits(s, PROTECTIVE, Holding(RetryJob(s.o.protRetry[0]), Idle), s.o.(protRetry := s.o.protRetry[1..]));
    }
  }

  lemma PopProtectiveFits(s: State)
    requires Fits(s)
    ensures Fits(PopProtective(s))
  {
    if s.o.prot != [] {
      QuietFits(s, PROTECTIVE, Holding(Group(NextGroup(s.o)), Idle), TakeGroup(s.o));
    }
  }

  lemma BeginFits(s: State, i: nat)
    requires Fits(s) && Conserved(s) && i < |s.hands|
    ensures Fits(Begin(s, i))
  {
    match s.hands[i] {
      case Holding(Group(g), next) => FirstTryFits(s, i, g, next);
      case Holding(RetryJob(r), next) => NextTryFits(s, i, r, next);
      case Holding(DigestJob, next) => SetFits(s, i, SendingDigest(next), s.o);
      case _ =>
    }
  }

  lemma EndFits(s: State, i: nat, ok: bool)
    requires Fits(s) && i < |s.hands|
    ensures Fits(EndNext(s, i, ok))
  {
    match s.hands[i] {
      case Ending(m, rest, next) =>
        if rest == [] {
          QuietFits(s, i, next, Reported(s.o, m.id, false));
        } else {
          DeferQuiet(s.o, [rest[0]], IsProtective(rest[0]));
          QuietFits(s, i, EndNext(s, i, ok).hands[i], EndNext(s, i, ok).o);
        }
      case _ =>
    }
  }

  lemma AgeFits(s: State, i: nat, ok: bool)
    requires Fits(s) && i < |s.hands|
    ensures Fits(AgeNext(s, i, ok))
  {
    match s.hands[i] {
      case Aging(rest, next) => QuietFits(s, i, AgeNext(s, i, ok).hands[i], AgeNext(s, i, ok).o);
      case _ =>
    }
  }

  lemma DigestSentFits(s: State, i: nat)
    requires Fits(s) && i < |s.hands|
    ensures Fits(DigestSent(s, i))
  {
    match s.hands[i] {
      case SendingDigest(next) => QuietFits(s, i, next, s.o.(digestBusy := false));
      case _ =>
    }
  }

  lemma SubmitFits(s: State, i: nat, d: Decision)
    requires Fits(s) && i < |s.hands| && s.hands[i].Idle?
    ensures Fits(Submit(s, i, d))
  {
    if d.disposition.Sent() { QuietFits(s, i, SubmitWork(s.o, d), SubmitShared(s.o, d)); }
  }

  lemma EntryFits(s: State, a: Action)
    requires Fits(s) && IsEntry(a)
    ensures Fits(EntryStep(s, a))
  {
    match a {
      case AClock(to) => if to >= s.o.now { NoNewRetriesFits(s.o, s.o.(now := to)); LaterFits(s, s.o.(now := to)); }
      case AAccept(ds) => AcceptQuiet(s.o, ds); NoNewRetriesFits(s.o, AcceptAll(s.o, ds).0); LaterFits(s, AcceptAll(s.o, ds).0);
      case ASubmit(c, d) => if RUNNER < c < |s.hands| && s.hands[c].Idle? { SubmitFits(s, c, d); }
    }
  }

  lemma TickFits(s: State, a: Action)
    requires Fits(s) && IsTick(a)
    ensures Fits(TickStep(s, a))
  {
    match a {
      case ATakeDue => QuietFits(s, RUNNER, Handing(s.o.buf), Take(s.o));
      case AHandOver => HandOverFits(s);
      case ADueRetries => DueRetriesFit(s);
      case ATakeDeferrals => QuietFits(s, RUNNER, Settling(s.o.deferred, []), s.o.(deferred := []));
      case ASettle(ok) => SettleFits(s, ok);
      case APutBack => PutBackFits(s);
      case ADigest => QuietFits(s, RUNNER, Idle, HandOverDigest(s.o));
    }
  }

  lemma ShutdownFits(s: State, a: Action)
    requires Fits(s) && IsShutdown(a)
    ensures Fits(ShutdownStep(s, a))
  {
    match a {
      case AClose => CloseFits(s);
      case ADrain => DrainFits(s);
      case ADrainNext => DrainNextFits(s);
    }
  }

  lemma TakingFits(s: State, a: Action)
    requires Fits(s) && IsTaking(a)
    ensures Fits(TakingStep(s, a))
  {
    match a {
      case APopOrdinary => PopOrdinaryFits(s);
      case APopRetry => PopRetryFits(s);
      case APopProtective => PopProtectiveFits(s);
    }
  }

  lemma SendStepFits(s: State, a: Action)
    requires Fits(s) && Conserved(s) && IsSending(a)
    ensures Fits(SendingStep(s, a))
  {
    match a {
      case ABegin(i) => if i < |s.hands| { BeginFits(s, i); }
      case ADelivered(i, ok) => if i < |s.hands| { DeliveredFits(s, i, ok); }
      case AEnd(i, ok) => if i < |s.hands| { EndFits(s, i, ok); }
      case AAge(ok) => AgeFits(s, ORDINARY, ok);
      case ADigestSent => DigestSentFits(s, ORDINARY);
    }
  }

  lemma StepFits(s: State, a: Action)
    requires Fits(s) && Conserved(s)
    ensures Fits(Step(s, a))
  {
    if IsEntry(a) { EntryFits(s, a); }
    else if IsTick(a) { TickFits(s, a); }
    else if IsShutdown(a) { ShutdownFits(s, a); }
    else if IsTaking(a) { TakingFits(s, a); }
    else { SendStepFits(s, a); }
  }

  // ---- every run --------------------------------------------------------------------------------------------

  lemma {:induction false} RunFits(s: State, actions: seq<Action>)
    requires Fits(s) && Conserved(s)
    ensures Fits(Run(s, actions)) && Conserved(Run(s, actions))
  {
    if actions != [] {
      var front := Run(s, actions[..|actions| - 1]);
      RunFits(s, actions[..|actions| - 1]);
      StepFits(front, actions[|actions| - 1]);
      StepConserves(front, actions[|actions| - 1]);
    }
  }

  // No try is counted, and the outcomes are at most more.
  predicate NoTry(o: Shared, o': Shared) {
    o'.log.mail == o.log.mail && o.log.outcomes <= o'.log.outcomes
  }

  lemma EntryNoTry(s: State, a: Action)
    requires Shaped(s) && IsEntry(a)
    ensures NoTry(s.o, EntryStep(s, a).o)
  {
    match a {
      case AClock(to) =>
      case AAccept(ds) => AcceptQuiet(s.o, ds);
      case ASubmit(c, d) =>
    }
  }

  lemma HandOverNoTry(s: State)
    requires Shaped(s)
    ensures NoTry(s.o, HandOver(s).o)
  {
    match s.hands[RUNNER] {
      case Handing(g) => PushQuiet(s.o, g);
      case _ =>
    }
  }

  lemma SettleFirstNoTry(s: State, todo: seq<Deferral>, again: seq<Deferral>, ok: bool)
    requires RUNNER < |s.hands| && todo != []
    ensures NoTry(s.o, SettleFirst(s, todo, again, ok).o)
  {
  }

  lemma SettleNoTry(s: State, ok: bool)
    requires Shaped(s)
    ensures NoTry(s.o, SettleNext(s, ok).o)
  {
    match s.hands[RUNNER] {
      case Settling(todo, again) => if todo != [] { SettleFirstNoTry(s, todo, again, ok); }
      case _ =>
    }
  }

  lemma PutBackNoTry(s: State)
    requires Shaped(s)
    ensures NoTry(s.o, PutBack(s).o)
  {
  }

  lemma TickNoTry(s: State, a: Action)
    requires Shaped(s) && IsTick(a)
    ensures NoTry(s.o, TickStep(s, a).o)
  {
    match a {
      case ATakeDue =>
      case AHandOver => HandOverNoTry(s);
      case ADueRetries =>
      case ATakeDeferrals =>
      case ASettle(ok) => SettleNoTry(s, ok);
      case APutBack => PutBackNoTry(s);
      case ADigest =>
    }
  }

  lemma ShutdownNoTry(s: State, a: Action)
    requires Shaped(s) && IsShutdown(a)
    ensures NoTry(s.o, ShutdownStep(s, a).o)
  {
    CloseQuiet(s.o);
  }

  lemma TakingNoTry(s: State, a: Action)
    requires Shaped(s) && IsTaking(a)
    ensures NoTry(s.o, TakingStep(s, a).o)
  {
  }

  lemma DeliveredNoTry(s: State, i: nat, ok: bool)
    requires i < |s.hands|
    ensures NoTry(s.o, Delivered(s, i, ok).o)
  {
  }

  lemma FallbackNoTry(o: Shared, d: Decision, ok: bool)
    ensures NoTry(o, Fallback(o, d, ok))
  {
  }

  lemma EndNoTry(s: State, i: nat, ok: bool)
    requires i < |s.hands|
    ensures NoTry(s.o, EndNext(s, i, ok).o)
  {
    match s.hands[i] {
      case Ending(m, rest, next) => if rest != [] { FallbackNoTry(s.o, rest[0], ok); }
      case _ =>
    }
  }

  lemma AgeNoTry(s: State, i: nat, ok: bool)
    requires i < |s.hands|
    ensures NoTry(s.o, AgeNext(s, i, ok).o)
  {
  }

  lemma SendingNoTry(s: State, a: Action)
    requires Shaped(s) && IsSending(a) && !a.ABegin?
    ensures NoTry(s.o, SendingStep(s, a).o)
  {
    match a {
      case ADelivered(i, ok) => if i < |s.hands| { DeliveredNoTry(s, i, ok); }
      case AEnd(i, ok) => if i < |s.hands| { EndNoTry(s, i, ok); }
      case AAge(ok) => AgeNoTry(s, ORDINARY, ok);
      case ADigestSent =>
    }
  }

  // Only a step that begins to send counts a try.
  lemma StepNoTry(s: State, a: Action)
    requires Shaped(s) && !a.ABegin?
    ensures NoTry(s.o, Step(s, a).o)
  {
    if IsEntry(a) { EntryNoTry(s, a); }
    else if IsTick(a) { TickNoTry(s, a); }
    else if IsShutdown(a) { ShutdownNoTry(s, a); }
    else if IsTaking(a) { TakingNoTry(s, a); }
    else { SendingNoTry(s, a); }
  }

  // It is another message's: one with an outcome is in nobody's hands.
  lemma AnotherHeld(s: State, i: nat, id: nat)
    requires Conserved(s) && i < |s.hands| && id < |s.o.log.mail|
    requires Tally(OutcomeLoad, OfMessage(id), s.o.log.outcomes) > 0
    ensures s.hands[i].Holding? && s.hands[i].job.RetryJob? ==> s.hands[i].job.retry.m.id != id
  {
    if s.hands[i].Holding? && s.hands[i].job.RetryJob? && s.hands[i].job.retry.m.id == id {
      assert WorkLoad(OfMessage(id), s.hands[i]) > 0;
      HeldIsNowhereElse(id, s, i);
      assert false;
    }
  }

  // Another message's try leaves this one's number as it is.
  predicate SameMail(o: Shared, o': Shared, id: nat)
    requires id < |o.log.mail|
  {
    id < |o'.log.mail| && o'.log.mail[id] == o.log.mail[id] && o'.log.outcomes == o.log.outcomes
  }

  lemma NewSameMail(o: Shared, i: nat, g: seq<Decision>, id: nat)
    requires id < |o.log.mail|
    ensures SameMail(o, CountTry(NewMessage(o, g), i, Message(|o.log.mail|, g)), id)
  {
  }

  lemma OldSameMail(o: Shared, i: nat, m: Message, id: nat)
    requires id < |o.log.mail| && m.id < |o.log.mail| && m.id != id
    ensures SameMail(o, CountTry(o, i, m), id)
  {
  }

  lemma BeginMail(s: State, i: nat, id: nat)
    requires i < |s.hands| && id < |s.o.log.mail|
    requires s.hands[i].Holding? && s.hands[i].job.RetryJob? ==> s.hands[i].job.retry.m.id != id
    ensures SameMail(s.o, Begin(s, i).o, id)
  {
    match s.hands[i] {
      case Holding(Group(g), next) => NewSameMail(s.o, i, g, id);
      case Holding(RetryJob(r), next) => if r.m.id < |s.o.log.mail| { OldSameMail(s.o, i, r.m, id); }
      case _ =>
    }
  }

  lemma StepMail(s: State, a: Action, id: nat)
    requires Fits(s) && Conserved(s) && id < |s.o.log.mail|
    requires Tally(OutcomeLoad, OfMessage(id), s.o.log.outcomes) > 0
    ensures id < |Step(s, a).o.log.mail| && Step(s, a).o.log.mail[id] == s.o.log.mail[id]
    ensures s.o.log.outcomes <= Step(s, a).o.log.outcomes
  {
    hide EntryStep, TickStep, ShutdownStep, TakingStep, Begin, SharedFits, WorkFits, Conserved;
    if !a.ABegin? {
      StepNoTry(s, a);
    } else if a.lane < |s.hands| {
      AnotherHeld(s, a.lane, id);
      BeginMail(s, a.lane, id);
    }
  }

  // A message with an outcome is no longer live, so no action counts another try of it.
  lemma FinishedIsQuiet(s: State, a: Action, id: nat)
    requires Fits(s) && Conserved(s) && id < |s.o.log.mail|
    requires Tally(OutcomeLoad, OfMessage(id), s.o.log.outcomes) > 0
    ensures id < |Step(s, a).o.log.mail| && Step(s, a).o.log.mail[id] == s.o.log.mail[id]
    ensures Tally(OutcomeLoad, OfMessage(id), Step(s, a).o.log.outcomes) > 0
  {
    StepMail(s, a, id);
    var before, after := s.o.log.outcomes, Step(s, a).o.log.outcomes;
    TallySplit(OutcomeLoad, OfMessage(id), after, |before|);
    assert after[..|before|] == before;
  }
}
