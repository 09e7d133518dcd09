/**
Two promises the lanes keep under one condition (pkg/attention/handoff.go:50-72, 661-717): no ordinary message is begun
past maxQueueAge, and the ordinary lane is never longer than its slots, the waiting retries and one. The condition is
that every group the protective lane takes has a protective decision in it. OutboxFindings has the runs that break it.
*/
module OutboxLanes {
  import opened Wrappers
  import opened Attention
  import opened OutboxSpec
  import opened OutboxBounds

  predicate FreshTry(t: Try) {
    !HasProtective(t.m.decisions) ==> !PastLease(t.m.decisions, t.at)
  }

  // ---- what the protective lane carries ----------------------------------------------------------------------------

  // The protective lane goes on with nothing else, and what it has carries a protective decision.
  predicate Carries(w: Work) {
    match w
    case Holding(Group(g), next) => HasProtective(g) && next.Idle?
    case Holding(RetryJob(r), next) => HasProtective(r.m.decisions) && next.Idle?
    case Sending(m, _, _, next) => HasProtective(m.decisions) && next.Idle?
    case Ending(_, _, next) => next.Idle?
    case Idle => true
    case _ => false
  }

  predicate Pending(prot: seq<Decision>) {
    prot != [] ==> HasProtective(prot)
  }

  predicate TryCarries(t: Try) {
    t.lane == PROTECTIVE ==> HasProtective(t.m.decisions)
  }

  // As long as no group was without a protective decision, nothing the protective lane sent was, and as long as each
  // group was taken whole, none was.
  ghost predicate Whole(s: State) {
    && Shaped(s)
    && (!s.o.log.split ==> !s.o.log.bare && Pending(s.o.prot))
    && (!s.o.log.bare ==> Carries(s.hands[PROTECTIVE]) && forall t | t in s.o.log.tries :: TryCarries(t))
  }

  lemma AddToHas(prot: seq<Decision>, d: Decision)
    requires IsProtective(d)
    ensures HasProtective(AddTo(prot, d).0)
  {
    var p, i := AddTo(prot, d).0, SlotOf(prot, d.candidate.key);
    assert p[i] == d;
    assert d in p;
  }

  // A batch ends with what makes it protective, so the group it joins carries that afterwards.
  lemma AddAllHas(prot: seq<Decision>, ds: seq<Decision>)
    requires ds == [] ==> Pending(prot)
    requires ds != [] ==> IsProtective(ds[|ds| - 1])
    ensures Pending(AddAllTo(prot, ds).0)
  {
    if ds != [] {
      AddToHas(AddAllTo(prot, ds[..|ds| - 1]).0, ds[|ds| - 1]);
    }
  }

  lemma {:induction false} ProtectivePartEnds(group: seq<Decision>)
    ensures var p := ProtectivePart(group); p != [] ==> IsProtectiveCritical(p[|p| - 1].candidate)
  {
    if group != [] {
      ProtectivePartEnds(group[..|group| - 1]);
    }
  }

  // What an operation that only queues keeps of the invariant.
  predicate Kind(o: Shared, o': Shared) {
    && o'.log.split == o.log.split && o'.log.bare == o.log.bare && o'.log.stray == o.log.stray && o'.log.tries == o.log.tries
    && (Pending(o.prot) ==> Pending(o'.prot))
  }

  lemma ProtectiveKind(o: Shared, ds: seq<Decision>)
    requires ds != [] ==> IsProtective(ds[|ds| - 1])
    ensures Kind(o, AddProtective(o, ds))
  {
    if ds == [] {
      assert AddAllTo(o.prot, ds) == (o.prot, []);
    } else {
      AddAllHas(o.prot, ds);
    }
  }

  lemma RestKind(o: Shared, rest: seq<Decision>)
    ensures Kind(o, PushRest(o, rest))
  {
  }

  lemma KindTwice(o: Shared, o1: Shared, o2: Shared)
    requires Kind(o, o1) && Kind(o1, o2)
    ensures Kind(o, o2)
  {
  }

  lemma PushKind(o: Shared, group: seq<Decision>)
    ensures Kind(o, PushOrdinary(o, group))
  {
    ProtectivePartEnds(group);
    ProtectiveKind(o, ProtectivePart(group));
    RestKind(AddProtective(o, ProtectivePart(group)), OrdinaryPart(group));
    KindTwice(o, AddProtective(o, ProtectivePart(group)), PushOrdinary(o, group));
  }

  lemma EscortKind(o: Shared, d: Decision)
    requires o.buf != [] && o.buf[|o.buf| - 1] == d
    ensures Kind(o, Escort(o, d))
  {
    if IsProtectiveCritical(d.candidate) {
      ProtectiveKind(Take(o), o.buf);
    }
  }

  lemma AcceptLockedKind(o: Shared, d: Decision)
    ensures Kind(o, AcceptLocked(o, d).0)
  {
    var o1 := Buffer(o, d);
    assert o1.buf[|o1.buf| - 1] == d;
    EscortKind(o1, d);
    PushKind(Escort(o1, d), o.buf);
  }

  lemma {:induction false} AcceptKind(o: Shared, ds: seq<Decision>)
    ensures Kind(o, AcceptAll(o, ds).0)
  {
    if ds != [] {
      AcceptKind(o, ds[..|ds| - 1]);
      AcceptLockedKind(AcceptAll(o, ds[..|ds| - 1]).0, ds[|ds| - 1]);
    }
  }

  lemma CloseKind(o: Shared)
    ensures Kind(o, Close(o))
  {
    ProtectivePartEnds(o.buf);
    ProtectiveKind(Take(o), ProtectivePart(o.buf));
  }

  lemma SetWhole(s: State, i: nat, w: Work, o: Shared)
    requires Whole(s) && Kind(s.o, o) && i < |s.hands|
    requires i == PROTECTIVE && Carries(s.hands[i]) ==> Carries(w)
    ensures Whole(Set(s, i, w, o))
  {
  }

  lemma TryWhole(s: State, i: nat, w: Work, o: Shared)
    requires Whole(s) && i < |s.hands|
    requires o.prot == s.o.prot && o.log.split == s.o.log.split && o.log.bare == s.o.log.bare
    requires i == PROTECTIVE && Carries(s.hands[i]) ==> Carries(w)
    requires o.log.tries != [] && o.log.tries[..|o.log.tries| - 1] == s.o.log.tries
    requires i != PROTECTIVE || Carries(s.hands[i]) ==> TryCarries(o.log.tries[|o.log.tries| - 1])
    ensures Whole(Set(s, i, w, o))
  {
  }

  lemma BeginRetryWhole(s: State, i: nat, r: Retry, next: Work)
    requires Whole(s) && i < |s.hands| && s.hands[i] == Holding(RetryJob(r), next)
    ensures Whole(Begin(s, i))
  {
    if r.m.id < |s.o.log.mail| {
      if !HasProtective(r.m.decisions) && PastLease(r.m.decisions, s.o.now) {
        SetWhole(s, i, Ending(r.m, r.m.decisions, next), s.o);
      } else {
        TryWhole(s, i, Sending(r.m, r.failed, r.since, next), CountTry(s.o, i, r.m));
      }
    }
  }

  lemma BeginWhole(s: State, i: nat)
    requires Whole(s) && i < |s.hands|
    ensures Whole(Begin(s, i))
  {
    match s.hands[i] {
      case Holding(Group(g), next) =>
        if i == ORDINARY && PastLease(g, s.o.now) {
          SetWhole(s, i, Aging(g, next), s.o);
        } else {
          var m := Message(|s.o.log.mail|, g);
          TryWhole(s, i, Sending(m, 0, None, next), CountTry(NewMessage(s.o, g), i, m));
        }
      case Holding(RetryJob(r), next) => BeginRetryWhole(s, i, r, next);
      case Holding(DigestJob, next) => SetWhole(s, i, SendingDigest(next), s.o);
      case _ =>
    }
  }

  lemma DeliveredWhole(s: State, i: nat, ok: bool)
    requires Whole(s) && i < |s.hands|
    ensures Whole(Delivered(s, i, ok))
  {
  }

  lemma FallbackKind(o: Shared, d: Decision, ok: bool)
    ensures Kind(o, Fallback(o, d, ok))
  {
  }

  lemma EndKind(s: State, i: nat, ok: bool)
    requires i < |s.hands|
    ensures Kind(s.o, EndNext(s, i, ok).o)
  {
    match s.hands[i] {
      case Ending(m, rest, next) => if rest != [] { FallbackKind(s.o, rest[0], ok); }
      case _ =>
    }
  }

  lemma EndWhole(s: State, i: nat, ok: bool)
    requires Whole(s) && i < |s.hands|
    ensures Whole(EndNext(s, i, ok))
  {
    EndKind(s, i, ok);
    if s.hands[i].Ending? { SetWhole(s, i, EndNext(s, i, ok).hands[i], EndNext(s, i, ok).o); }
  }

  lemma AgeWhole(s: State, ok: bool)
    requires Whole(s)
    ensures Whole(AgeNext(s, ORDINARY, ok))
  {
    match s.hands[ORDINARY] {
      case Aging(rest, next) => SetWhole(s, ORDINARY, AgeNext(s, ORDINARY, ok).hands[ORDINARY], AgeNext(s, ORDINARY, ok).o);
      case _ =>
    }
  }

  lemma SendingWhole(s: State, a: Action)
    requires Whole(s) && IsSending(a)
    ensures Whole(SendingStep(s, a))
  {
    match a {
      case ABegin(i) => if i < |s.hands| { BeginWhole(s, i); }
      case ADelivered(i, ok) => if i < |s.hands| { DeliveredWhole(s, i, ok); }
      case AEnd(i, ok) => if i < |s.hands| { EndWhole(s, i, ok); }
      case AAge(ok) => AgeWhole(s, ok);
      case ADigestSent =>
        if s.hands[ORDINARY].SendingDigest? { SetWhole(s, ORDINARY, s.hands[ORDINARY].next, s.o.(digestBusy := false)); }
    }
  }

  lemma PopRetryWhole(s: State)
    requires Whole(s) && SharedRouted(s.o) && s.hands[PROTECTIVE].Idle?
    ensures Whole(PopRetry(s))
  {
  }

  lemma PopProtectiveWhole(s: State)
    requires Whole(s)
    ensures Whole(PopProtective(s))
  {
    if 0 < |s.o.prot| <= MAX_BUFFERED {
      assert s.o.prot[..|s.o.prot|] == s.o.prot;
    }
  }

  lemma TakingWhole(s: State, a: Action)
    requires Whole(s) && SharedRouted(s.o) && IsTaking(a)
    ensures Whole(TakingStep(s, a))
  {
    match a {
      case APopOrdinary => if s.o.ord != [] { SetWhole(s, ORDINARY, Holding(s.o.ord[0], Idle), s.o.(ord := s.o.ord[1..])); }
      case APopRetry => if s.hands[PROTECTIVE].Idle? { PopRetryWhole(s); }
      case APopProtective => PopProtectiveWhole(s);
    }
  }

  lemma SubmitKind(o: Shared, d: Decision)
    ensures Kind(o, SubmitShared(o, d))
  {
  }

  lemma EntryKind(s: State, a: Action)
    requires Shaped(s) && IsEntry(a)
    ensures Kind(s.o, EntryStep(s, a).o)
  {
    match a {
      case AClock(to) =>
      case AAccept(ds) => AcceptKind(s.o, ds);
      case ASubmit(c, d) => SubmitKind(s.o, d);
    }
  }

  lemma EntryWhole(s: State, a: Action)
    requires Whole(s) && IsEntry(a)
    ensures Whole(EntryStep(s, a))
  {
    EntryKind(s, a);
    SetWhole(s, PROTECTIVE, s.hands[PROTECTIVE], EntryStep(s, a).o);
    assert EntryStep(s, a).hands[PROTECTIVE] == s.hands[PROTECTIVE];
  }

  // Run's goroutine moved, and sends nothing.
  predicate NotSending(w: Work) {
    match w
    case Idle => true
    case Handing(_) => true
    case Settling(_, _) => true
    case Draining(_) => true
    case Ending(_, _, next) => next.Draining?
    case _ => false
  }

  predicate Moved(s: State, s': State)
    requires Shaped(s) && Shaped(s')
  {
    && s'.hands == s.hands[RUNNER := s'.hands[RUNNER]]
    && (NotSending(s.hands[RUNNER]) ==> NotSending(s'.hands[RUNNER]))
    && Kind(s.o, s'.o)
  }

  lemma MovedTo(s: State, w: Work, o: Shared)
    requires Shaped(s) && Kind(s.o, o) && (NotSending(s.hands[RUNNER]) ==> NotSending(w))
    ensures Moved(s, Set(s, RUNNER, w, o))
  {
  }

  lemma HandOverMoved(s: State)
    requires Shaped(s)
    ensures Moved(s, HandOver(s))
  {
    match s.hands[RUNNER] {
      case Handing(g) => PushKind(s.o, g); MovedTo(s, Idle, PushOrdinary(s.o, g));
      case _ =>
    }
  }

  lemma SettleMoved(s: State, ok: bool)
    requires Shaped(s)
    ensures Moved(s, SettleNext(s, ok))
  {
    if s.hands[RUNNER].Settling? && s.hands[RUNNER].todo != [] {
      MovedTo(s, SettleNext(s, ok).hands[RUNNER], SettleNext(s, ok).o);
    }
  }

  lemma TickMoved(s: State, a: Action)
    requires Shaped(s) && IsTick(a)
    ensures Moved(s, TickStep(s, a))
  {
    match a {
      case ATakeDue => MovedTo(s, Handing(s.o.buf), Take(s.o));
      case AHandOver => HandOverMoved(s);
      case ADueRetries => MovedTo(s, s.hands[RUNNER], HandOverDueRetries(s.o));
      case ATakeDeferrals => MovedTo(s, Settling(s.o.deferred, []), s.o.(deferred := []));
      case ASettle(ok) => SettleMoved(s, ok);
      case APutBack => if s.hands[RUNNER].Settling? { MovedTo(s, Idle, Return(s.o, s.hands[RUNNER].again)); }
      case ADigest => MovedTo(s, s.hands[RUNNER], HandOverDigest(s.o));
    }
  }

  lemma ShutdownMoved(s: State, a: Action)
    requires Shaped(s) && IsShutdown(a)
    ensures Moved(s, ShutdownStep(s, a))
  {
    match a {
      case AClose => CloseKind(s.o); MovedTo(s, s.hands[RUNNER], Close(s.o));
      case ADrain => MovedTo(s, DrainRetries(s).hands[RUNNER], DrainRetries(s).o);
      case ADrainNext => MovedTo(s, DrainNext(s).hands[RUNNER], DrainNext(s).o);
    }
  }

  lemma MovedWhole(s: State, s': State)
    requires Whole(s) && Shaped(s') && Moved(s, s')
    ensures Whole(s')
  {
    assert s'.hands[PROTECTIVE] == s.hands[PROTECTIVE];
  }

  lemma StepWhole(s: State, a: Action)
    requires Whole(s) && SharedRouted(s.o)
    ensures Whole(Step(s, a))
  {
    if IsEntry(a) { EntryWhole(s, a); }
    else if IsTick(a) { TickMoved(s, a); MovedWhole(s, TickStep(s, a)); }
    else if IsShutdown(a) { ShutdownMoved(s, a); MovedWhole(s, ShutdownStep(s, a)); }
    else if IsTaking(a) { TakingWhole(s, a); }
    else { SendingWhole(s, a); }
  }

  lemma {:induction false} RunWhole(s: State, actions: seq<Action>)
    requires Whole(s) && Sound(s)
    ensures Whole(Run(s, actions)) && Sound(Run(s, actions))
  {
    if actions != [] {
      RunWhole(s, actions[..|actions| - 1]);
      RunSound(s, actions);
      StepWhole(Run(s, actions[..|actions| - 1]), actions[|actions| - 1]);
    }
  }

  /**
  While every group the protective lane took had a protective decision, no lane began to send an ordinary message
  past maxQueueAge; whatever was accepted or submitted, and through the shutdown.
  */
  lemma LanesSendFresh(now: int, window: int, slots: nat, callers: nat, actions: seq<Action>, t: Try)
    requires !Run(Init(now, window, slots, callers), actions).o.log.bare
    requires t in Run(Init(now, window, slots, callers), actions).o.log.tries && (t.lane == ORDINARY || t.lane == PROTECTIVE)
    ensures FreshTry(t)
  {
    InitSound(now, window, slots, callers);
    RunWhole(Init(now, window, slots, callers), actions);
    assert TryOk(t) && TryCarries(t);
  }

  /** A group of at most 64 has one. */
  lemma SmallGroupsAreNotBare(now: int, window: int, slots: nat, callers: nat, actions: seq<Action>)
    requires !Run(Init(now, window, slots, callers), actions).o.log.split
    ensures !Run(Init(now, window, slots, callers), actions).o.log.bare
  {
    InitSound(now, window, slots, callers);
    RunWhole(Init(now, window, slots, callers), actions);
  }

  // ---- the length of the ordinary lane -------------------------------------------------------------------------------

  // No caller of Submit is sending.
  predicate NoCallers(s: State) {
    forall i | RUNNER < i < |s.hands| :: s.hands[i].Idle?
  }

  // Only the lanes send, and no retry came from the protective lane to the ordinary one.
  predicate Unstrayed(s: State)
    requires Shaped(s)
  {
    NoCallers(s) && NotSending(s.hands[RUNNER]) && (!s.o.log.bare ==> s.o.log.stray == 0)
  }

  lemma MovedUnstrayed(s: State, s': State)
    requires Shaped(s) && Shaped(s') && Unstrayed(s) && Moved(s, s')
    ensures Unstrayed(s')
  {
  }

  lemma EntryUnstrayed(s: State, a: Action)
    requires Shaped(s) && Unstrayed(s) && IsEntry(a) && !a.ASubmit?
    ensures Unstrayed(EntryStep(s, a))
  {
    EntryKind(s, a);
  }

  lemma TakingUnstrayed(s: State, a: Action)
    requires Shaped(s) && Unstrayed(s) && IsTaking(a)
    ensures Unstrayed(TakingStep(s, a))
  {
  }

  lemma BeginUnstrayed(s: State, i: nat)
    requires Shaped(s) && Unstrayed(s) && i < |s.hands|
    ensures Unstrayed(Begin(s, i))
  {
  }

  lemma DeliveredUnstrayed(s: State, i: nat, ok: bool)
    requires Whole(s) && Unstrayed(s) && i < |s.hands|
    ensures Unstrayed(Delivered(s, i, ok))
  {
  }

  lemma EndUnstrayed(s: State, i: nat, ok: bool)
    requires Shaped(s) && Unstrayed(s) && i < |s.hands|
    ensures Unstrayed(EndNext(s, i, ok))
  {
  }

  lemma SendingUnstrayed(s: State, a: Action)
    requires Whole(s) && Unstrayed(s) && IsSending(a)
    ensures Unstrayed(SendingStep(s, a))
  {
    match a {
      case ABegin(i) => if i < |s.hands| { BeginUnstrayed(s, i); }
      case ADelivered(i, ok) => if i < |s.hands| { DeliveredUnstrayed(s, i, ok); }
      case AEnd(i, ok) => if i < |s.hands| { EndUnstrayed(s, i, ok); }
      case _ =>
    }
  }

  lemma StepUnstrayed(s: State, a: Action)
    requires Whole(s) && Unstrayed(s) && !a.ASubmit?
    ensures Unstrayed(Step(s, a))
  {
    if IsEntry(a) { EntryUnstrayed(s, a); }
    else if IsTick(a) { TickMoved(s, a); MovedUnstrayed(s, TickStep(s, a)); }
    else if IsShutdown(a) { ShutdownMoved(s, a); MovedUnstrayed(s, ShutdownStep(s, a)); }
    else if IsTaking(a) { TakingUnstrayed(s, a); }
    else { SendingUnstrayed(s, a); }
  }

  lemma {:induction false} RunUnstrayed(s: State, actions: seq<Action>)
    requires Whole(s) && Sound(s) && Unstrayed(s)
    requires forall a | a in actions :: !a.ASubmit?
    ensures Unstrayed(Run(s, actions))
  {
    if actions != [] {
      var front := actions[..|actions| - 1];
      RunUnstrayed(s, front);
      RunWhole(s, front);
      assert actions[|actions| - 1] in actions;
      StepUnstrayed(Run(s, front), actions[|actions| - 1]);
    }
  }

  /** On the Accept path, under the same condition, the ordinary lane stays inside its slots, the waiting retries and one. */
  lemma LaneLimitHolds(now: int, window: int, slots: nat, callers: nat, actions: seq<Action>)
    requires forall a | a in actions :: !a.ASubmit?
    requires !Run(Init(now, window, slots, callers), actions).o.log.bare
    ensures var o := Run(Init(now, window, slots, callers), actions).o;
            |o.ord| <= o.ordSlots + 64 + 1 + if o.closed then 1 else 0
  {
    InitSound(now, window, slots, callers);
    RunUnstrayed(Init(now, window, slots, callers), actions);
    RunSound(Init(now, window, slots, callers), actions);
  }

  // ---- what follows a group without a protective decision --------------------------------------------------------------

  // The protective lane is about to take the pending group.
  predicate AtGroup(s: State) {
    Shaped(s) && s.hands[PROTECTIVE].Idle? && s.o.prot != []
  }

  // It takes the group, which it begins to send at a later time.
  function TakeAndSend(later: int): seq<Action> {
    [APopProtective, AClock(later), ABegin(PROTECTIVE)]
  }

  function ItsMessage(s: State): Message {
    Message(|s.o.log.mail|, NextGroup(s.o))
  }

  lemma RunLast(s: State, acts: seq<Action>, a: Action)
    requires Shaped(s)
    ensures Run(s, acts + [a]) == Step(Run(s, acts), a)
  {
    assert (acts + [a])[..|acts|] == acts;
  }

  lemma {:induction false} RunConcat(s: State, a: seq<Action>, b: seq<Action>)
    requires Shaped(s)
    ensures Run(s, a + b) == Run(Run(s, a), b)
  {
    if b == [] {
      assert a + b == a;
    } else {
      RunConcat(s, a, b[..|b| - 1]);
      assert (a + b)[..|a + b| - 1] == a + b[..|b| - 1];
    }
  }

  lemma TwoSteps(s: State, a: Action, b: Action)
    requires Shaped(s)
    ensures Run(s, [a, b]) == Step(Step(s, a), b)
  {
    assert [] + [a] == [a] && [a] + [b] == [a, b];
    RunLast(s, [], a);
    RunLast(s, [a], b);
  }

  lemma ThreeSteps(s: State, a: Action, b: Action, c: Action)
    requires Shaped(s)
    ensures Run(s, [a, b, c]) == Step(Step(Step(s, a), b), c)
  {
    assert [a, b] + [c] == [a, b, c];
    TwoSteps(s, a, b);
    RunLast(s, [a, b], c);
  }

  lemma GroupIsSent(s: State, later: int)
    requires AtGroup(s) && later >= s.o.now
    ensures var s' := Run(s, TakeAndSend(later));
            && Shaped(s') && |s'.hands| == |s.hands| && s'.hands[PROTECTIVE] == Sending(ItsMessage(s), 0, None, Idle)
            && s'.o.log.tries == s.o.log.tries + [Try(PROTECTIVE, later, ItsMessage(s))]
            && s'.o.now == later && s'.o.retries == s.o.retries && s'.o.closed == s.o.closed && s'.o.log.stray == s.o.log.stray
  {
    ThreeSteps(s, APopProtective, AClock(later), ABegin(PROTECTIVE));
  }

  // What the lane sends then is ordinary and past maxQueueAge.
  predicate GoesStale(s: State, later: int)
    requires AtGroup(s)
  {
    later >= s.o.now && var tries := Run(s, TakeAndSend(later)).o.log.tries; tries != [] && !FreshTry(tries[|tries| - 1])
  }

  /**
  From any state: the lane can go on to send its next group too late if and only if the group has no protective
  decision, and one that has a time.
  */
  lemma StaleIffBare(s: State)
    requires AtGroup(s)
    ensures (exists later :: GoesStale(s, later)) <==> !HasProtective(NextGroup(s.o)) && exists d | d in NextGroup(s.o) :: d.at.Some?
  {
    var g := NextGroup(s.o);
    if later :| GoesStale(s, later) {
      GroupIsSent(s, later);
    }
    if d :| d in g && d.at.Some? && !HasProtective(g) {
      var due := d.at.value + MAX_QUEUE_AGE + 1;
      var later := if due > s.o.now then due else s.o.now;
      GroupIsSent(s, later);
      assert TooLate(d, later);
      assert GoesStale(s, later);
    }
  }

  /**
  From any state: the first failure of the next group makes a retry for the ordinary lane, beside its slots, if and
  only if the group has no protective decision, and the outbox is open, has room and has time for one.
  */
  lemma StraysIffBare(s: State, later: int)
    requires AtGroup(s) && later >= s.o.now
    ensures var g, s' := NextGroup(s.o), Run(s, TakeAndSend(later) + [ADelivered(PROTECTIVE, false)]);
            s'.o.log.stray == s.o.log.stray +
              if !HasProtective(g) && !s.o.closed && CountWaiting(s.o.retries, false) < 64 && !PastLease(g, later + 30 * SECOND)
              then 1 else 0
  {
    GroupIsSent(s, later);
    RunLast(s, TakeAndSend(later), ADelivered(PROTECTIVE, false));
  }

  predicate TakesBare(s: State, a: Action)
    requires Shaped(s)
  {
    a.APopProtective? && AtGroup(s) && !HasProtective(NextGroup(s.o))
  }

  // The k-th action is the protective lane taking a group without a protective decision.
  predicate TakesBareAt(s: State, actions: seq<Action>, k: nat)
    requires Shaped(s) && k < |actions|
  {
    TakesBare(Run(s, actions[..k]), actions[k])
  }

  lemma BeginBare(s: State, i: nat)
    requires i < |s.hands|
    ensures Begin(s, i).o.log.bare == s.o.log.bare
  {
  }

  lemma DeliveredBare(s: State, i: nat, ok: bool)
    requires i < |s.hands|
    ensures Delivered(s, i, ok).o.log.bare == s.o.log.bare
  {
  }

  lemma SendingBare(s: State, a: Action)
    requires Shaped(s) && IsSending(a)
    ensures SendingStep(s, a).o.log.bare == s.o.log.bare
  {
    match a {
      case ABegin(i) => if i < |s.hands| { BeginBare(s, i); }
      case ADelivered(i, ok) => if i < |s.hands| { DeliveredBare(s, i, ok); }
      case AEnd(i, ok) => if i < |s.hands| { EndKind(s, i, ok); }
      case _ =>
    }
  }

  lemma TakingBare(s: State, a: Action)
    requires Shaped(s) && IsTaking(a)
    ensures TakingStep(s, a).o.log.bare <==> s.o.log.bare || TakesBare(s, a)
  {
  }

  lemma StepBare(s: State, a: Action)
    requires Shaped(s)
    ensures Step(s, a).o.log.bare <==> s.o.log.bare || TakesBare(s, a)
  {
    if IsEntry(a) { EntryKind(s, a); }
    else if IsTick(a) { TickMoved(s, a); }
    else if IsShutdown(a) { ShutdownMoved(s, a); }
    else if IsTaking(a) { TakingBare(s, a); }
    else { SendingBare(s, a); }
  }

  lemma {:induction false} BareWasTaken(s: State, actions: seq<Action>) returns (k: nat)
    requires Shaped(s) && !s.o.log.bare && Run(s, actions).o.log.bare
    ensures k < |actions| && TakesBareAt(s, actions, k)
  {
    var n := |actions| - 1;
    StepBare(Run(s, actions[..n]), actions[n]);
    if Run(s, actions[..n]).o.log.bare {
      k := BareWasTaken(s, actions[..n]);
      assert actions[..n][..k] == actions[..k];
    } else {
      k := n;
    }
  }

  lemma {:induction false} BareStays(s: State, actions: seq<Action>)
    requires Shaped(s) && s.o.log.bare
    ensures Run(s, actions).o.log.bare
  {
    if actions != [] {
      BareStays(s, actions[..|actions| - 1]);
      StepBare(Run(s, actions[..|actions| - 1]), actions[|actions| - 1]);
    }
  }

  lemma TakenIsBare(s: State, actions: seq<Action>, k: nat)
    requires Shaped(s) && k < |actions| && TakesBareAt(s, actions, k)
    ensures Run(s, actions).o.log.bare
  {
    var upTo := actions[..k] + [actions[k]];
    assert actions == upTo + actions[k + 1..];
    StepBare(Run(s, actions[..k]), actions[k]);
    RunLast(s, actions[..k], actions[k]);
    BareStays(Run(s, upTo), actions[k + 1..]);
    RunConcat(s, upTo, actions[k + 1..]);
  }

  /** The condition fails exactly where the protective lane takes such a group. */
  lemma BareIffTaken(s: State, actions: seq<Action>)
    requires Shaped(s) && !s.o.log.bare
    ensures Run(s, actions).o.log.bare <==> exists k | 0 <= k < |actions| :: TakesBareAt(s, actions, k)
  {
    if Run(s, actions).o.log.bare {
      var k := BareWasTaken(s, actions);
    } else {
      forall k | 0 <= k < |actions| ensures !TakesBareAt(s, actions, k) {
        if TakesBareAt(s, actions, k) { TakenIsBare(s, actions, k); }
      }
    }
  }
}
