/**
Conservation: in every run of the outbox each accepted decision is in exactly one place or has left exactly
once, and each message is still live or has had exactly one outcome.

The proof counts one token, a decision or a message number, wherever it can be: Tally sums a count over a list,
and the Load functions say how often the token is in a queue, in a running step and in the whole state. An action
keeps the balance (Kept) when the load plus what has left grows by what came in.

  - "effects of the parts" gives the load of what each part of an action builds: deferrals, a protective group,
    a closed buffer, the jobs pushed to a lane;
  - "every action" puts the parts together, one lemma for every action and StepKept for any;
  - "every run" is the induction over the actions.
*/
module OutboxConservation {
  import opened Wrappers
  import opened Attention
  import opened OutboxSpec

  // ---- tallies ---------------------------------------------------------------------------------------------

  // How often x occurs in the elements of xs, when f says how often it occurs in one.
  function Tally<K, A>(f: (K, A) -> nat, x: K, xs: seq<A>): nat {
    if xs == [] then 0 else Tally(f, x, xs[..|xs| - 1]) + f(x, xs[|xs| - 1])
  }

  lemma {:induction false} TallyAppend<K, A>(f: (K, A) -> nat, x: K, xs: seq<A>, ys: seq<A>)
    ensures Tally(f, x, xs + ys) == Tally(f, x, xs) + Tally(f, x, ys)
  {
    if ys == [] {
      assert xs + ys == xs;
    } else {
      TallyAppend(f, x, xs, ys[..|ys| - 1]);
      assert (xs + ys)[..|xs + ys| - 1] == xs + ys[..|ys| - 1];
    }
  }

  lemma TallyOne<K, A>(f: (K, A) -> nat, x: K, y: A)
    ensures Tally(f, x, [y]) == f(x, y)
  {
    assert [y][..0] == [];
  }

  lemma TallySplit<K, A>(f: (K, A) -> nat, x: K, xs: seq<A>, k: nat)
    requires k <= |xs|
    ensures Tally(f, x, xs) == Tally(f, x, xs[..k]) + Tally(f, x, xs[k..])
  {
    assert xs == xs[..k] + xs[k..];
    TallyAppend(f, x, xs[..k], xs[k..]);
  }

  lemma TallyHead<K, A>(f: (K, A) -> nat, x: K, xs: seq<A>)
    requires xs != []
    ensures Tally(f, x, xs) == f(x, xs[0]) + Tally(f, x, xs[1..])
  {
    TallySplit(f, x, xs, 1);
    assert xs[..1] == [xs[0]];
    TallyOne(f, x, xs[0]);
  }

  lemma TallyUpdate<K, A>(f: (K, A) -> nat, x: K, xs: seq<A>, i: nat, y: A)
    requires i < |xs|
    ensures Tally(f, x, xs[i := y]) + f(x, xs[i]) == Tally(f, x, xs) + f(x, y)
  {
    TallySplit(f, x, xs, i);
    TallyHead(f, x, xs[i..]);
    TallySplit(f, x, xs[i := y], i);
    TallyHead(f, x, xs[i := y][i..]);
    assert xs[i := y][..i] == xs[..i];
    assert xs[i..][1..] == xs[i + 1..] == xs[i := y][i..][1..];
  }

  // ---- where decisions are --------------------------------------------------------------------------------

  // What is conserved: the decisions, and the messages that are made of them.
  datatype Token = OfDecision(d: Decision) | OfMessage(id: nat)

  function IsDecision(x: Token, d: Decision): nat { if x == OfDecision(d) then 1 else 0 }

  function IsMessage(x: Token, id: nat): nat { if x == OfMessage(id) then 1 else 0 }

  function In(x: Token, ds: seq<Decision>): nat { Tally(IsDecision, x, ds) }

  function MessageLoad(x: Token, m: Message): nat { In(x, m.decisions) + IsMessage(x, m.id) }

  function JobLoad(x: Token, j: Job): nat {
    match j
    case Group(g) => In(x, g)
    case DigestJob => 0
    case RetryJob(r) => MessageLoad(x, r.m)
  }

  function RetryLoad(x: Token, r: Retry): nat { MessageLoad(x, r.m) }

  function DeferralLoad(x: Token, f: Deferral): nat { IsDecision(x, f.d) }

  function SettledLoad(x: Token, y: Settled): nat { IsDecision(x, y.d) }

  function OutcomeLoad(x: Token, y: Outcome): nat { IsMessage(x, y.id) }

  function WorkLoad(x: Token, w: Work): nat {
    match w
    case Idle => 0
    case Holding(j, next) => JobLoad(x, j) + WorkLoad(x, next)
    case Sending(m, _, _, next) => MessageLoad(x, m) + WorkLoad(x, next)
    case Ending(m, rest, next) => IsMessage(x, m.id) + In(x, rest) + WorkLoad(x, next)
    case Aging(rest, next) => In(x, rest) + WorkLoad(x, next)
    case SendingDigest(next) => WorkLoad(x, next)
    case Handing(g) => In(x, g)
    case Settling(todo, again) => Tally(DeferralLoad, x, todo) + Tally(DeferralLoad, x, again)
    case Draining(rs) => Tally(RetryLoad, x, rs)
  }

  function SharedLoad(x: Token, o: Shared): nat {
    In(x, o.buf) + Tally(JobLoad, x, o.ord) + In(x, o.prot) + Tally(DeferralLoad, x, o.deferred)
    + Tally(RetryLoad, x, o.retries) + Tally(RetryLoad, x, o.protRetry)
    + Tally(SettledLoad, x, o.log.settled) + Tally(OutcomeLoad, x, o.log.outcomes)
  }

  function Load(x: Token, s: State): nat {
    SharedLoad(x, s.o) + Tally(WorkLoad, x, s.hands)
  }

  // How often x has come in: decisions are accepted, messages are numbered as they are made.
  function Entered(x: Token, log: Record): nat {
    In(x, log.accepted) + if x.OfMessage? && x.id < |log.mail| then 1 else 0
  }

  // Every decision taken in is in one place or has left, as often as it was taken in, and every message made is
  // live once or has had its one outcome.
  ghost predicate Conserved(s: State) {
    forall x :: Entered(x, s.o.log) == Load(x, s)
  }

  // ---- effects of the parts -------------------------------------------------------------------------------

  lemma {:induction false} DeferralsLoad(x: Token, ds: seq<Decision>, release: bool)
    ensures Tally(DeferralLoad, x, AsDeferrals(ds, release)) == In(x, ds)
  {
    if ds != [] {
      var front := ds[..|ds| - 1];
      DeferralsLoad(x, front, release);
      assert AsDeferrals(ds, release)[..|ds| - 1] == AsDeferrals(front, release);
    }
  }

  lemma {:induction false} FatesLoad(x: Token, ds: seq<Decision>, fate: Fate)
    ensures Tally(SettledLoad, x, WithFate(ds, fate)) == In(x, ds)
  {
    if ds != [] {
      var front := ds[..|ds| - 1];
      FatesLoad(x, front, fate);
      assert WithFate(ds, fate)[..|ds| - 1] == WithFate(front, fate);
    }
  }

  lemma {:induction false} DecisionsLoad(x: Token, fs: seq<Deferral>)
    ensures In(x, Decisions(fs)) == Tally(DeferralLoad, x, fs)
  {
    if fs != [] {
      DecisionsLoad(x, fs[..|fs| - 1]);
      assert Decisions(fs) == Decisions(fs[..|fs| - 1]) + [fs[|fs| - 1].d];
    }
  }

  // From o to o' nothing came in, and the load grew by n.
  predicate Absorbs(x: Token, o: Shared, o': Shared, n: int) {
    Entered(x, o'.log) == Entered(x, o.log) && SharedLoad(x, o') == SharedLoad(x, o) + n
  }

  lemma AbsorbsBoth(x: Token, o: Shared, o1: Shared, o2: Shared, n1: int, n2: int)
    requires Absorbs(x, o, o1, n1) && Absorbs(x, o1, o2, n2)
    ensures Absorbs(x, o, o2, n1 + n2)
  {
  }

  lemma LeftLoad(x: Token, o: Shared, gone: seq<Settled>)
    ensures Absorbs(x, o, Left(o, gone), Tally(SettledLoad, x, gone))
  {
    TallyAppend(SettledLoad, x, o.log.settled, gone);
  }

  lemma LeftOne(x: Token, o: Shared, gone: Settled)
    ensures Absorbs(x, o, Left(o, [gone]), IsDecision(x, gone.d))
  {
    LeftLoad(x, o, [gone]);
    TallyOne(SettledLoad, x, gone);
  }

  lemma DeferLoad(x: Token, o: Shared, ds: seq<Decision>, release: bool)
    ensures Absorbs(x, o, Defer(o, ds, release), In(x, ds))
  {
    var k := Min(|ds|, Room(o.deferred));
    TallySplit(IsDecision, x, ds, k);
    TallyAppend(DeferralLoad, x, o.deferred, AsDeferrals(ds[..k], release));
    DeferralsLoad(x, ds[..k], release);
    TallyAppend(SettledLoad, x, o.log.settled, WithFate(ds[k..], Abandoned));
    FatesLoad(x, ds[k..], Abandoned);
  }

  lemma AddLoad(x: Token, prot: seq<Decision>, d: Decision)
    ensures In(x, AddTo(prot, d).0) + In(x, AddTo(prot, d).1) == In(x, prot) + In(x, [d])
  {
    var i := SlotOf(prot, d.candidate.key);
    TallyOne(IsDecision, x, d);
    if i < |prot| {
      TallyUpdate(IsDecision, x, prot, i, d);
      TallyOne(IsDecision, x, prot[i]);
    } else {
      TallyAppend(IsDecision, x, prot, [d]);
    }
  }

  lemma {:induction false} AddAllLoad(x: Token, prot: seq<Decision>, ds: seq<Decision>)
    ensures In(x, AddAllTo(prot, ds).0) + In(x, AddAllTo(prot, ds).1) == In(x, prot) + In(x, ds)
  {
    if ds != [] {
      var front, d := ds[..|ds| - 1], ds[|ds| - 1];
      var (p, gone) := AddAllTo(prot, front);
      AddAllLoad(x, prot, front);
      AddLoad(x, p, d);
      TallyOne(IsDecision, x, d);
      TallyAppend(IsDecision, x, gone, AddTo(p, d).1);
    }
  }

  lemma ProtectiveLoad(x: Token, o: Shared, ds: seq<Decision>)
    ensures Absorbs(x, o, AddProtective(o, ds), In(x, ds))
  {
    var (p, gone) := AddAllTo(o.prot, ds);
    AddAllLoad(x, o.prot, ds);
    DeferLoad(x, o.(prot := p), gone, true);
    AbsorbsBoth(x, o, o.(prot := p), AddProtective(o, ds), In(x, p) - In(x, o.prot), In(x, gone));
  }

  lemma {:induction false} PartsLoad(x: Token, group: seq<Decision>)
    ensures In(x, OrdinaryPart(group)) + In(x, ProtectivePart(group)) == In(x, group)
  {
    if group != [] {
      var front, d := group[..|group| - 1], group[|group| - 1];
      PartsLoad(x, front);
      TallyAppend(IsDecision, x, OrdinaryPart(front), [d]);
      TallyAppend(IsDecision, x, ProtectivePart(front), [d]);
      TallyOne(IsDecision, x, d);
    }
  }

  lemma RestLoad(x: Token, o: Shared, rest: seq<Decision>)
    ensures Absorbs(x, o, PushRest(o, rest), In(x, rest))
  {
    if rest != [] {
      if |o.ord| >= o.ordSlots {
        DeferLoad(x, o, rest, false);
      } else {
        TallyAppend(JobLoad, x, o.ord, [Group(rest)]);
        TallyOne(JobLoad, x, Group(rest));
      }
    }
  }

  lemma PushLoad(x: Token, o: Shared, group: seq<Decision>)
    ensures Absorbs(x, o, PushOrdinary(o, group), In(x, group))
  {
    var p, rest := ProtectivePart(group), OrdinaryPart(group);
    PartsLoad(x, group);
    ProtectiveLoad(x, o, p);
    RestLoad(x, AddProtective(o, p), rest);
    AbsorbsBoth(x, o, AddProtective(o, p), PushRest(AddProtective(o, p), rest), In(x, p), In(x, rest));
  }

  // The operation adds to the load exactly what it took in.
  ghost predicate Balanced(x: Token, o: Shared, o': Shared) {
    Entered(x, o'.log) + SharedLoad(x, o) == Entered(x, o.log) + SharedLoad(x, o')
  }

  lemma TakeLoad(x: Token, o: Shared)
    ensures Absorbs(x, o, Take(o), 0 - In(x, o.buf))
  {
  }

  lemma JoinLoad(x: Token, o: Shared, d: Decision)
    ensures SharedLoad(x, Join(o, d)) == SharedLoad(x, o) + In(x, [d])
    ensures Entered(x, Join(o, d).log) == Entered(x, o.log) + In(x, [d])
  {
    TallyAppend(IsDecision, x, o.buf, [d]);
    TallyAppend(IsDecision, x, o.log.accepted, [d]);
  }

  lemma BufferLoad(x: Token, o: Shared, d: Decision)
    ensures SharedLoad(x, Buffer(o, d)) + (if MustTake(o) then In(x, o.buf) else 0) == SharedLoad(x, o) + In(x, [d])
    ensures Entered(x, Buffer(o, d).log) == Entered(x, o.log) + In(x, [d])
  {
    TakeLoad(x, o);
    JoinLoad(x, if MustTake(o) then Take(o) else o, d);
  }

  lemma EscortLoad(x: Token, o: Shared, d: Decision)
    ensures Absorbs(x, o, Escort(o, d), 0)
  {
    if IsProtectiveCritical(d.candidate) {
      EscortedLoad(x, o);
    }
  }

  lemma EscortedLoad(x: Token, o: Shared)
    ensures Absorbs(x, o, AddProtective(Take(o), o.buf), 0)
  {
    var n: int := In(x, o.buf);
    TakeLoad(x, o);
    ProtectiveLoad(x, Take(o), o.buf);
    AbsorbsBoth(x, o, Take(o), AddProtective(Take(o), o.buf), 0 - n, n);
  }

  lemma AcceptLockedBalanced(x: Token, o: Shared, d: Decision)
    ensures Balanced(x, o, AcceptLocked(o, d).0)
  {
    var o1 := Escort(Buffer(o, d), d);
    BufferLoad(x, o, d);
    EscortLoad(x, Buffer(o, d), d);
    PushLoad(x, o1, o.buf);
  }

  lemma {:induction false} AcceptBalanced(x: Token, o: Shared, ds: seq<Decision>)
    ensures Balanced(x, o, AcceptAll(o, ds).0)
  {
    if ds != [] {
      var d := ds[|ds| - 1];
      AcceptBalanced(x, o, ds[..|ds| - 1]);
      var o1 := AcceptAll(o, ds[..|ds| - 1]).0;
      if d.disposition.Sent() && !o1.closed {
        AcceptLockedBalanced(x, o1, d);
      }
    }
  }

  // ---- every action -----------------------------------------------------------------------------------------

  ghost predicate Kept(x: Token, s: State, s': State) {
    Entered(x, s'.o.log) + Load(x, s) == Entered(x, s.o.log) + Load(x, s')
  }

  // The step that continues with w has handed on, or settled, what it no longer holds.
  lemma SetKept(x: Token, s: State, i: nat, w: Work, o: Shared)
    requires i < |s.hands|
    requires Entered(x, o.log) + SharedLoad(x, s.o) + WorkLoad(x, s.hands[i])
          == Entered(x, s.o.log) + SharedLoad(x, o) + WorkLoad(x, w)
    ensures Kept(x, s, Set(s, i, w, o))
  {
    TallyUpdate(WorkLoad, x, s.hands, i, w);
  }

  // All that the step held is in the outbox now.
  lemma AbsorbedKept(x: Token, s: State, i: nat, o: Shared)
    requires i < |s.hands| && Absorbs(x, s.o, o, WorkLoad(x, s.hands[i]))
    ensures Kept(x, s, Set(s, i, Idle, o))
  {
    SetKept(x, s, i, Idle, o);
  }

  lemma SubmitLoad(x: Token, o: Shared, d: Decision)
    ensures Entered(x, SubmitShared(o, d).log) + SharedLoad(x, o)
         == Entered(x, o.log) + SharedLoad(x, SubmitShared(o, d)) + WorkLoad(x, SubmitWork(o, d))
  {
    BufferLoad(x, o, d);
    TakeLoad(x, Buffer(o, d));
  }

  lemma SubmitKept(x: Token, s: State, i: nat, d: Decision)
    requires i < |s.hands| && s.hands[i].Idle?
    ensures Kept(x, s, Submit(s, i, d))
  {
    if d.disposition.Sent() {
      SubmitLoad(x, s.o, d);
      SetKept(x, s, i, SubmitWork(s.o, d), SubmitShared(s.o, d));
    }
  }

  lemma {:induction false} DueLoad(x: Token, rs: seq<Retry>, now: int)
    ensures Tally(RetryLoad, x, rs) == Tally(RetryLoad, x, Waiting(rs, now))
         + Tally(RetryLoad, x, DueFor(rs, now, true)) + Tally(RetryLoad, x, DueFor(rs, now, false))
  {
    if rs != [] {
      var front, r := rs[..|rs| - 1], rs[|rs| - 1];
      DueLoad(x, front, now);
      TallyAppend(RetryLoad, x, Waiting(front, now), [r]);
      TallyAppend(RetryLoad, x, DueFor(front, now, true), [r]);
      TallyAppend(RetryLoad, x, DueFor(front, now, false), [r]);
      TallyOne(RetryLoad, x, r);
    }
  }

  lemma {:induction false} AsJobsLoad(x: Token, rs: seq<Retry>)
    ensures Tally(JobLoad, x, AsJobs(rs)) == Tally(RetryLoad, x, rs)
  {
    if rs != [] {
      AsJobsLoad(x, rs[..|rs| - 1]);
      assert AsJobs(rs)[..|rs| - 1] == AsJobs(rs[..|rs| - 1]);
    }
  }

  lemma DueKept(x: Token, o: Shared)
    ensures SharedLoad(x, HandOverDueRetries(o)) == SharedLoad(x, o)
  {
    DueLoad(x, o.retries, o.now);
    TallyAppend(RetryLoad, x, o.protRetry, DueFor(o.retries, o.now, true));
    TallyAppend(JobLoad, x, o.ord, AsJobs(DueFor(o.retries, o.now, false)));
    AsJobsLoad(x, DueFor(o.retries, o.now, false));
  }

  lemma SettledGoneKept(x: Token, s: State, todo: seq<Deferral>, again: seq<Deferral>, gone: Settled)
    requires Shaped(s) && s.hands[RUNNER] == Settling(todo, again) && todo != [] && gone.d == todo[0].d
    requires Tally(DeferralLoad, x, todo) == DeferralLoad(x, todo[0]) + Tally(DeferralLoad, x, todo[1..])
    ensures Kept(x, s, Set(s, RUNNER, Settling(todo[1..], again), Left(s.o, [gone])))
  {
    LeftOne(x, s.o, gone);
    SetKept(x, s, RUNNER, Settling(todo[1..], again), Left(s.o, [gone]));
  }

  lemma SettledAgainKept(x: Token, s: State, todo: seq<Deferral>, again: seq<Deferral>, f: Deferral)
    requires Shaped(s) && s.hands[RUNNER] == Settling(todo, again) && todo != [] && f.d == todo[0].d
    requires Tally(DeferralLoad, x, todo) == DeferralLoad(x, todo[0]) + Tally(DeferralLoad, x, todo[1..])
    ensures Kept(x, s, Set(s, RUNNER, Settling(todo[1..], again + [f]), s.o))
  {
    TallyAppend(DeferralLoad, x, again, [f]);
    TallyOne(DeferralLoad, x, f);
    SetKept(x, s, RUNNER, Settling(todo[1..], again + [f]), s.o);
  }

  lemma SettleFirstKept(x: Token, s: State, todo: seq<Deferral>, again: seq<Deferral>, ok: bool)
    requires Shaped(s) && s.hands[RUNNER] == Settling(todo, again) && todo != []
    requires Tally(DeferralLoad, x, todo) == DeferralLoad(x, todo[0]) + Tally(DeferralLoad, x, todo[1..])
    ensures Kept(x, s, SettleFirst(s, todo, again, ok))
  {
    var f := todo[0];
    if ok && CanSettle(f.d, f.release) {
      SettledGoneKept(x, s, todo, again, SettledAs(f.d, f.release));
    } else if f.tries + 1 >= DEFER_TRIES {
      SettledGoneKept(x, s, todo, again, Settled(f.d, DeferralFailed));
    } else {
      SettledAgainKept(x, s, todo, again, f.(tries := f.tries + 1));
    }
  }

  lemma SettleKept(x: Token, s: State, ok: bool)
    requires Shaped(s)
    ensures Kept(x, s, SettleNext(s, ok))
  {
    match s.hands[RUNNER] {
      case Settling(todo, again) =>
        if todo != [] {
          TallyHead(DeferralLoad, x, todo);
          SettleFirstKept(x, s, todo, again, ok);
        }
      case _ =>
    }
  }

  lemma ReturnLoad(x: Token, o: Shared, again: seq<Deferral>)
    ensures Absorbs(x, o, Return(o, again), Tally(DeferralLoad, x, again))
  {
    var k := Min(|again|, Room(o.deferred));
    var o' := o.(deferred := o.deferred + again[..k]);
    var gone := WithFate(Decisions(again[k..]), Abandoned);
    TallyAppend(DeferralLoad, x, o.deferred, again[..k]);
    TallySplit(DeferralLoad, x, again, k);
    LeftLoad(x, o', gone);
    FatesLoad(x, Decisions(again[k..]), Abandoned);
    DecisionsLoad(x, again[k..]);
  }

  lemma PutBackKept(x: Token, s: State)
    requires Shaped(s)
    ensures Kept(x, s, PutBack(s))
  {
    match s.hands[RUNNER] {
      case Settling(todo, again) =>
        if todo == [] {
          ReturnLoad(x, s.o, again);
          AbsorbedKept(x, s, RUNNER, Return(s.o, again));
        }
      case _ =>
    }
  }

  lemma TakeDeferralsKept(x: Token, s: State)
    requires Shaped(s) && s.hands[RUNNER].Idle?
    ensures Kept(x, s, TakeDeferrals(s))
  {
    SetKept(x, s, RUNNER, Settling(s.o.deferred, []), s.o.(deferred := []));
  }

  lemma DigestKept(x: Token, o: Shared)
    ensures SharedLoad(x, HandOverDigest(o)) == SharedLoad(x, o)
  {
    TallyAppend(JobLoad, x, o.ord, [DigestJob]);
    TallyOne(JobLoad, x, DigestJob);
  }

  lemma PopOrdinaryKept(x: Token, s: State)
    requires Shaped(s) && s.hands[ORDINARY].Idle?
    ensures Kept(x, s, PopOrdinary(s))
  {
    if s.o.ord != [] {
      TallyHead(JobLoad, x, s.o.ord);
      SetKept(x, s, ORDINARY, Holding(s.o.ord[0], Idle), s.o.(ord := s.o.ord[1..]));
    }
  }

  lemma PopRetryKept(x: Token, s: State)
    requires Shaped(s) && s.hands[PROTECTIVE].Idle?
    ensures Kept(x, s, PopRetry(s))
  {
    if s.o.protRetry != [] {
      TallyHead(RetryLoad, x, s.o.protRetry);
      SetKept(x, s, PROTECTIVE, Holding(RetryJob(s.o.protRetry[0]), Idle), s.o.(protRetry := s.o.protRetry[1..]));
    }
  }

  lemma PopProtectiveKept(x: Token, s: State)
    requires Shaped(s) && s.hands[PROTECTIVE].Idle?
    ensures Kept(x, s, PopProtective(s))
  {
    if s.o.prot != [] {
      TallySplit(IsDecision, x, s.o.prot, Min(|s.o.prot|, MAX_BUFFERED));
      SetKept(x, s, PROTECTIVE, Holding(Group(NextGroup(s.o)), Idle), TakeGroup(s.o));
    }
  }

  lemma NewMessageLoad(x: Token, o: Shared, i: nat, g: seq<Decision>)
    ensures var m := Message(|o.log.mail|, g); var o' := CountTry(NewMessage(o, g), i, m);
            Entered(x, o'.log) + SharedLoad(x, o) + In(x, g) == Entered(x, o.log) + SharedLoad(x, o') + MessageLoad(x, m)
  {
  }

  lemma BeginGroupKept(x: Token, s: State, i: nat, g: seq<Decision>, next: Work)
    requires i < |s.hands| && s.hands[i] == Holding(Group(g), next)
    ensures Kept(x, s, Begin(s, i))
  {
    if i == ORDINARY && PastLease(g, s.o.now) {
      SetKept(x, s, i, Aging(g, next), s.o);
    } else {
      var m := Message(|s.o.log.mail|, g);
      NewMessageLoad(x, s.o, i, g);
      SetKept(x, s, i, Sending(m, 0, None, next), CountTry(NewMessage(s.o, g), i, m));
    }
  }

  lemma BeginRetryKept(x: Token, s: State, i: nat, r: Retry, next: Work)
    requires i < |s.hands| && s.hands[i] == Holding(RetryJob(r), next)
    ensures Kept(x, s, Begin(s, i))
  {
    assert WorkLoad(x, Ending(r.m, r.m.decisions, next)) == WorkLoad(x, s.hands[i]);
    if r.m.id < |s.o.log.mail| {
      if !HasProtective(r.m.decisions) && PastLease(r.m.decisions, s.o.now) {
        SetKept(x, s, i, Ending(r.m, r.m.decisions, next), s.o);
      } else {
        SetKept(x, s, i, Sending(r.m, r.failed, r.since, next), CountTry(s.o, i, r.m));
      }
    }
  }

  lemma BeginKept(x: Token, s: State, i: nat)
    requires i < |s.hands|
    ensures Kept(x, s, Begin(s, i))
  {
    match s.hands[i] {
      case Holding(Group(g), next) => BeginGroupKept(x, s, i, g, next);
      case Holding(RetryJob(r), next) => BeginRetryKept(x, s, i, r, next);
      case Holding(DigestJob, next) => SetKept(x, s, i, SendingDigest(next), s.o);
      case _ =>
    }
  }

  lemma ReportedLoad(x: Token, o: Shared, id: nat, delivered: bool)
    ensures Absorbs(x, o, Reported(o, id, delivered), IsMessage(x, id))
  {
    TallyAppend(OutcomeLoad, x, o.log.outcomes, [Outcome(id, delivered)]);
    TallyOne(OutcomeLoad, x, Outcome(id, delivered));
  }

  lemma ToldLoad(x: Token, o: Shared, m: Message)
    ensures Absorbs(x, o, Reported(Left(o, WithFate(m.decisions, Told)), m.id, true), MessageLoad(x, m))
  {
    LeftLoad(x, o, WithFate(m.decisions, Told));
    FatesLoad(x, m.decisions, Told);
    ReportedLoad(x, Left(o, WithFate(m.decisions, Told)), m.id, true);
  }

  lemma QueueLoad(x: Token, o: Shared, r: Retry, strays: nat)
    ensures Absorbs(x, o, Queue(o, r, strays), MessageLoad(x, r.m))
  {
    TallyAppend(RetryLoad, x, o.retries, [r]);
    TallyOne(RetryLoad, x, r);
  }

  lemma DeliveredKept(x: Token, s: State, i: nat, ok: bool)
    requires i < |s.hands|
    ensures Kept(x, s, Delivered(s, i, ok))
  {
    match s.hands[i] {
      case Sending(m, failed, since, next) =>
        if ok {
          ToldLoad(x, s.o, m);
          SetKept(x, s, i, next, Reported(Left(s.o, WithFate(m.decisions, Told)), m.id, true));
        } else {
          FailedKept(x, s, i);
        }
      case _ =>
    }
  }

  lemma AfterFailureKept(x: Token, s: State, i: nat, m: Message, r: Option<Retry>, next: Work)
    requires i < |s.hands| && s.hands[i].Sending? && s.hands[i].m == m && s.hands[i].next == next
    requires r.Some? ==> r.value.m == m
    ensures Kept(x, s, AfterFailure(s, i, m, r, next))
  {
    if r.Some? {
      var strays := if i != ORDINARY && !HasProtective(m.decisions) then 1 else 0;
      QueueLoad(x, s.o, r.value, strays);
      SetKept(x, s, i, next, Queue(s.o, r.value, strays));
    } else {
      SetKept(x, s, i, Ending(m, m.decisions, next), s.o);
    }
  }

  lemma FailedKept(x: Token, s: State, i: nat)
    requires i < |s.hands| && s.hands[i].Sending?
    ensures Kept(x, s, Delivered(s, i, false))
  {
    var w := s.hands[i];
    var r := ScheduleRetry(s.o, w.m, w.failed + 1, w.since);
    assert Delivered(s, i, false) == AfterFailure(s, i, w.m, r, w.next);
    AfterFailureKept(x, s, i, w.m, r, w.next);
  }

  // The fallback of one decision.
  lemma FallbackLoad(x: Token, o: Shared, d: Decision, ok: bool)
    ensures Absorbs(x, o, Fallback(o, d, ok), IsDecision(x, d))
  {
    var release := IsProtective(d);
    TallyOne(IsDecision, x, d);
    LeftOne(x, o, SettledAs(d, release));
    DeferLoad(x, o, [d], release);
  }

  lemma EndKept(x: Token, s: State, i: nat, ok: bool)
    requires i < |s.hands|
    ensures Kept(x, s, EndNext(s, i, ok))
  {
    match s.hands[i] {
      case Ending(m, rest, next) =>
        if rest == [] {
          ReportedLoad(x, s.o, m.id, false);
          SetKept(x, s, i, next, Reported(s.o, m.id, false));
        } else {
          TallyHead(IsDecision, x, rest);
          FallbackLoad(x, s.o, rest[0], ok);
          SetKept(x, s, i, Ending(m, rest[1..], next), Fallback(s.o, rest[0], ok));
        }
      case _ =>
    }
  }

  lemma AgeKept(x: Token, s: State, i: nat, ok: bool)
    requires i < |s.hands|
    ensures Kept(x, s, AgeNext(s, i, ok))
  {
    match s.hands[i] {
      case Aging(rest, next) =>
        if rest == [] {
          SetKept(x, s, i, next, s.o);
        } else {
          var gone := Settled(rest[0], if ok && CanSettle(rest[0], false) then ToDigest else DeferralFailed);
          TallyHead(IsDecision, x, rest);
          LeftOne(x, s.o, gone);
          SetKept(x, s, i, Aging(rest[1..], next), Left(s.o, [gone]));
        }
      case _ =>
    }
  }

  lemma DigestSentKept(x: Token, s: State, i: nat)
    requires i < |s.hands|
    ensures Kept(x, s, DigestSent(s, i))
  {
    match s.hands[i] {
      case SendingDigest(next) => SetKept(x, s, i, next, s.o.(digestBusy := false));
      case _ =>
    }
  }

  lemma LastGroupLoad(x: Token, o: Shared, rest: seq<Decision>)
    ensures Absorbs(x, o, LastGroup(o.(closed := true), rest), In(x, rest))
  {
    if rest != [] {
      TallyAppend(JobLoad, x, o.ord, [Group(rest)]);
      TallyOne(JobLoad, x, Group(rest));
    }
  }

  lemma CloseKept(x: Token, o: Shared)
    ensures Absorbs(x, o, Close(o), 0)
  {
    if o.buf != [] {
      var p, rest := ProtectivePart(o.buf), OrdinaryPart(o.buf);
      PartsLoad(x, o.buf);
      TakeLoad(x, o);
      ProtectiveLoad(x, Take(o), p);
      AbsorbsBoth(x, o, Take(o), AddProtective(Take(o), p), 0 - In(x, o.buf), In(x, p));
      LastGroupLoad(x, AddProtective(Take(o), p), rest);
      AbsorbsBoth(x, o, AddProtective(Take(o), p), Close(o), In(x, p) - In(x, o.buf), In(x, rest));
    }
  }

  lemma {:induction false} JobsSplit(x: Token, jobs: seq<Job>)
    ensures Tally(JobLoad, x, jobs) == Tally(JobLoad, x, WithoutRetries(jobs)) + Tally(RetryLoad, x, RetriesIn(jobs))
  {
    if jobs != [] {
      var front, j := jobs[..|jobs| - 1], jobs[|jobs| - 1];
      JobsSplit(x, front);
      if j.RetryJob? {
        TallyAppend(RetryLoad, x, RetriesIn(front), [j.retry]);
        TallyOne(RetryLoad, x, j.retry);
      } else {
        TallyAppend(JobLoad, x, WithoutRetries(front), [j]);
        TallyOne(JobLoad, x, j);
      }
    }
  }

  lemma DrainKept(x: Token, s: State)
    requires Shaped(s) && s.hands[RUNNER].Idle?
    ensures Kept(x, s, DrainRetries(s))
  {
    JobsSplit(x, s.o.ord);
    TallyAppend(RetryLoad, x, s.o.retries, s.o.protRetry);
    TallyAppend(RetryLoad, x, s.o.retries + s.o.protRetry, RetriesIn(s.o.ord));
    SetKept(x, s, RUNNER, Draining(s.o.retries + s.o.protRetry + RetriesIn(s.o.ord)),
            s.o.(retries := [], protRetry := [], ord := WithoutRetries(s.o.ord)));
  }

  lemma DrainNextKept(x: Token, s: State)
    requires Shaped(s)
    ensures Kept(x, s, DrainNext(s))
  {
    match s.hands[RUNNER] {
      case Draining(rs) =>
        if rs == [] {
          SetKept(x, s, RUNNER, Idle, s.o);
        } else {
          TallyHead(RetryLoad, x, rs);
          SetKept(x, s, RUNNER, Ending(rs[0].m, rs[0].m.decisions, Draining(rs[1..])), s.o);
        }
      case _ =>
    }
  }

  lemma TakeDueKept(x: Token, s: State)
    requires Shaped(s) && s.hands[RUNNER].Idle?
    ensures Kept(x, s, TakeDue(s))
  {
    TakeLoad(x, s.o);
    SetKept(x, s, RUNNER, Handing(s.o.buf), Take(s.o));
  }

  lemma HandOverKept(x: Token, s: State)
    requires Shaped(s)
    ensures Kept(x, s, HandOver(s))
  {
    hide PushOrdinary;
    match s.hands[RUNNER] {
      case Handing(g) =>
        PushLoad(x, s.o, g);
        AbsorbedKept(x, s, RUNNER, PushOrdinary(s.o, g));
      case _ =>
    }
  }

  lemma EntryKept(x: Token, s: State, a: Action)
    requires Shaped(s) && IsEntry(a)
    ensures Kept(x, s, EntryStep(s, a))
  {
    match a {
      case AClock(to) =>
      case AAccept(ds) => AcceptBalanced(x, s.o, ds);
      case ASubmit(c, d) => if RUNNER < c < |s.hands| && s.hands[c].Idle? { SubmitKept(x, s, c, d); }
    }
  }

  lemma TickKept(x: Token, s: State, a: Action)
    requires Shaped(s) && IsTick(a)
    ensures Kept(x, s, TickStep(s, a))
  {
    match a {
      case ATakeDue => if s.hands[RUNNER].Idle? { TakeDueKept(x, s); }
      case AHandOver => HandOverKept(x, s);
      case ADueRetries => DueKept(x, s.o);
      case ATakeDeferrals => if s.hands[RUNNER].Idle? { TakeDeferralsKept(x, s); }
      case ASettle(ok) => SettleKept(x, s, ok);
      case APutBack => PutBackKept(x, s);
      case ADigest => DigestKept(x, s.o);
    }
  }

  lemma ShutdownKept(x: Token, s: State, a: Action)
    requires Shaped(s) && IsShutdown(a)
    ensures Kept(x, s, ShutdownStep(s, a))
  {
    match a {
      case AClose => CloseKept(x, s.o);
      case ADrain => if s.hands[RUNNER].Idle? { DrainKept(x, s); }
      case ADrainNext => DrainNextKept(x, s);
    }
  }

  lemma TakingKept(x: Token, s: State, a: Action)
    requires Shaped(s) && IsTaking(a)
    ensures Kept(x, s, TakingStep(s, a))
  {
    match a {
      case APopOrdinary => if s.hands[ORDINARY].Idle? { PopOrdinaryKept(x, s); }
      case APopRetry => if s.hands[PROTECTIVE].Idle? { PopRetryKept(x, s); }
      case APopProtective => if s.hands[PROTECTIVE].Idle? { PopProtectiveKept(x, s); }
    }
  }

  lemma SendingKept(x: Token, s: State, a: Action)
    requires Shaped(s) && IsSending(a)
    ensures Kept(x, s, SendingStep(s, a))
  {
    match a {
      case ABegin(i) => if i < |s.hands| { BeginKept(x, s, i); }
      case ADelivered(i, ok) => if i < |s.hands| { DeliveredKept(x, s, i, ok); }
      case AEnd(i, ok) => if i < |s.hands| { EndKept(x, s, i, ok); }
      case AAge(ok) => AgeKept(x, s, ORDINARY, ok);
      case ADigestSent => DigestSentKept(x, s, ORDINARY);
    }
  }

  lemma StepKept(x: Token, s: State, a: Action)
    requires Shaped(s)
    ensures Kept(x, s, Step(s, a))
  {
    if IsEntry(a) { EntryKept(x, s, a); }
    else if IsTick(a) { TickKept(x, s, a); }
    else if IsShutdown(a) { ShutdownKept(x, s, a); }
    else if IsTaking(a) { TakingKept(x, s, a); }
    else { SendingKept(x, s, a); }
  }

  // ---- every run --------------------------------------------------------------------------------------------

  lemma {:induction false} IdleHandsLoad(x: Token, n: nat)
    ensures Tally(WorkLoad, x, seq(n, i => Idle)) == 0
  {
    if n > 0 {
      IdleHandsLoad(x, n - 1);
      assert seq(n, i => Idle)[..n - 1] == seq(n - 1, i => Idle);
    }
  }

  lemma InitConserved(now: int, window: int, slots: nat, callers: nat)
    ensures Conserved(Init(now, window, slots, callers))
  {
    forall x ensures Load(x, Init(now, window, slots, callers)) == 0 {
      IdleHandsLoad(x, 3 + callers);
      assert Init(now, window, slots, callers).hands == seq(3 + callers, i => Idle);
    }
  }

  lemma StepConserves(s: State, a: Action)
    requires Shaped(s) && Conserved(s)
    ensures Conserved(Step(s, a))
  {
    forall x ensures Entered(x, Step(s, a).o.log) == Load(x, Step(s, a)) {
      StepKept(x, s, a);
    }
  }

  /** Whatever the interleaving, nothing accepted is lost or told twice. */
  lemma {:induction false} RunConserves(s: State, actions: seq<Action>)
    requires Shaped(s) && Conserved(s)
    ensures Conserved(Run(s, actions))
  {
    if actions != [] {
      RunConserves(s, actions[..|actions| - 1]);
      StepConserves(Run(s, actions[..|actions| - 1]), actions[|actions| - 1]);
    }
  }
}
