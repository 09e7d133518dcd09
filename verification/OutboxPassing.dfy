/**
How things pass from one place of the outbox to the next (pkg/attention/handoff.go:322-623, retry.go:211-301): what becomes
of a group, in which order the lanes are worked off, where due retries go. Parts are filters here, limits literals.
*/
module OutboxPassing {
  import opened Wrappers
  import opened Attention
  import opened OutboxSpec
  import G = OutboxGroups

  // Those of xs that f holds of, in their order.
  function Those<T>(xs: seq<T>, f: T -> bool): seq<T> {
    if xs == [] then []
    else if f(xs[|xs| - 1]) then Those(xs[..|xs| - 1], f) + [xs[|xs| - 1]]
    else Those(xs[..|xs| - 1], f)
  }

  predicate IsAlarm(d: Decision) { d.candidate.protective && d.candidate.severity == Critical }

  function Alarms(g: seq<Decision>): seq<Decision> { Those(g, d => IsAlarm(d)) }

  function Plain(g: seq<Decision>): seq<Decision> { Those(g, d => !IsAlarm(d)) }

  lemma {:induction false} PartsAre(g: seq<Decision>)
    ensures OrdinaryPart(g) == Plain(g) && ProtectivePart(g) == Alarms(g)
  {
    if g != [] { PartsAre(g[..|g| - 1]); }
  }

  function Waiting(ds: seq<Decision>, release: bool): seq<Deferral> {
    seq(|ds|, i requires 0 <= i < |ds| => Deferral(ds[i], release, 0))
  }

  // ---- a group that is taken --------------------------------------------------------------------------------------------

  // What the alarms supersede is left to be released; of the others, what finds no slot is left for the digest.
  predicate IsLeft(o: Shared, o': Shared, superseded: seq<Decision>, refused: seq<Decision>) {
    |o.deferred| + |superseded| + |refused| <= 1024 ==>
      o'.deferred == o.deferred + Waiting(superseded, true) + Waiting(refused, false) && o'.log.settled == o.log.settled
  }

  // The alarms of g join the pending ones; the others become one job at the end of the lane, if it is not full.
  predicate Passes(o: Shared, o': Shared, g: seq<Decision>, full: bool) {
    var (pending, superseded) := AddAllTo(o.prot, Alarms(g));
    && o'.prot == pending
    && o'.ord == o.ord + (if Plain(g) == [] || full then [] else [Group(Plain(g))])
    && IsLeft(o, o', superseded, if full then Plain(g) else [])
  }

  lemma Defers(o: Shared, ds: seq<Decision>, release: bool)
    requires |o.deferred| + |ds| <= 1024
    ensures Defer(o, ds, release) == o.(deferred := o.deferred + Waiting(ds, release))
  {
    assert ds[..|ds|] == ds && WithFate(ds[|ds|..], Abandoned) == [] && o.log.settled + [] == o.log.settled;
  }

  lemma KeepsLane(o: Shared, ds: seq<Decision>, release: bool)
    ensures var o' := Defer(o, ds, release); o'.ord == o.ord && o'.prot == o.prot && o'.ordSlots == o.ordSlots && o'.buf == o.buf
  {
  }

  lemma AlarmsPass(o: Shared, ds: seq<Decision>)
    ensures var o', (pending, gone) := AddProtective(o, ds), AddAllTo(o.prot, ds);
            && o'.prot == pending && o'.ord == o.ord && o'.ordSlots == o.ordSlots && o'.buf == o.buf
            && (|o.deferred| + |gone| <= 1024 ==>
                  o'.deferred == o.deferred + Waiting(gone, true) && o'.log.settled == o.log.settled)
  {
    var (pending, gone) := AddAllTo(o.prot, ds);
    KeepsLane(o.(prot := pending), gone, true);
    if |o.deferred| + |gone| <= 1024 { Defers(o.(prot := pending), gone, true); }
  }

  lemma GroupPasses(o: Shared, g: seq<Decision>)
    ensures Passes(o, PushOrdinary(o, g), g, |o.ord| >= o.ordSlots)
  {
    hide AddProtective, Defer, AddAllTo, OrdinaryPart, ProtectivePart, Those;
    PartsAre(g);
    AlarmsPass(o, Alarms(g));
    var o1, rest := AddProtective(o, Alarms(g)), Plain(g);
    KeepsLane(o1, rest, false);
    if |o1.deferred| + |rest| <= 1024 { Defers(o1, rest, false); }
    assert o1.deferred + Waiting([], false) == o1.deferred && o.ord + [] == o.ord;
  }

  lemma LastPasses(o: Shared)
    requires o.buf != []
    ensures Passes(Take(o), Close(o), o.buf, false)
  {
    hide AddProtective, AddAllTo, OrdinaryPart, ProtectivePart, Those;
    PartsAre(o.buf);
    AlarmsPass(Take(o), Alarms(o.buf));
    var o1 := AddProtective(Take(o), Alarms(o.buf));
    assert o1.deferred + Waiting([], false) == o1.deferred && o.ord + [] == o.ord;
  }

  /** A group that the runner took passes to the lanes, whole: the ordinary part as one job, or for the digest if the lane is full. */
  lemma AGroupIsHandedOver(s: State, g: seq<Decision>)
    requires Shaped(s) && s.hands[RUNNER] == Handing(g)
    ensures var s' := Step(s, AHandOver);
            s'.hands == s.hands[RUNNER := Idle] && Passes(s.o, s'.o, g, |s.o.ord| >= s.o.ordSlots)
  {
    hide PushOrdinary, Passes;
    GroupPasses(s.o, g);
  }

  /** A stop closes the outbox and passes the last group on, however full the lane is. */
  lemma TheLastGroupIsQueued(s: State)
    requires Shaped(s) && s.hands[RUNNER].Idle?
    ensures var s' := Step(s, AClose);
            && s'.hands == s.hands && s'.o.closed
            && if s.o.buf == [] then s'.o == s.o.(closed := true)
               else Passes(s.o, s'.o, s.o.buf, false)
  {
    hide AddAllTo, Those;
    if s.o.buf != [] { LastPasses(s.o); }
  }

  /**
  An ordinary decision joins the buffer. If the buffer's window is over, or it has 64, the group in it passes to the lanes
  first, and the decision opens the next one.
  */
  lemma AnOrdinaryDecisionIsBuffered(s: State, d: Decision)
    requires Shaped(s) && !s.o.closed && d.disposition in {Notify, Escalate} && !IsAlarm(d)
    ensures var s', o := Step(s, AAccept([d])), s.o;
            var over := (o.buf != [] && o.window > 0 && o.now >= o.windowStart + o.window) || |o.buf| >= 64;
            && s'.hands == s.hands
            && s'.o.buf == (if over then [] else o.buf) + [d]
            && s'.o.windowStart == (if over || o.buf == [] then o.now else o.windowStart)
            && if over then Passes(o, s'.o, o.buf, |o.ord| >= o.ordSlots)
               else s'.o.ord == o.ord && s'.o.prot == o.prot && s'.o.deferred == o.deferred && s'.o.log.settled == o.log.settled
  {
    hide PushOrdinary;
    AcceptsOne(s.o, d);
    Buffers(s.o, d);
  }

  lemma AcceptsOne(o: Shared, d: Decision)
    requires !o.closed && d.disposition in {Notify, Escalate}
    ensures AcceptAll(o, [d]).0 == AcceptLocked(o, d).0
  {
    hide AcceptLocked;
    assert [d][..0] == [];
    assert AcceptAll(o, [d][..0]) == (o, []);
  }

  lemma Buffers(o: Shared, d: Decision)
    requires !IsAlarm(d)
    ensures var o', over := AcceptLocked(o, d).0, (o.buf != [] && o.window > 0 && o.now >= o.windowStart + o.window) || |o.buf| >= 64;
            && o'.buf == (if over then [] else o.buf) + [d]
            && o'.windowStart == (if over || o.buf == [] then o.now else o.windowStart)
            && if over then Passes(o, o', o.buf, |o.ord| >= o.ordSlots)
               else o'.ord == o.ord && o'.prot == o.prot && o'.deferred == o.deferred && o'.log.settled == o.log.settled
  {
    hide PushOrdinary, AddAllTo, Those;
    var o1 := Buffer(o, d);
    GroupPasses(o1, o.buf);
    G.PushSame(o1, o.buf);
  }

  // ---- the backlog ------------------------------------------------------------------------------------------------------

  /** Behind a round over the backlog what was not settled goes back behind what came meanwhile, as far as 1024 leave room. */
  lemma WhatFitsIsPutBack(s: State, again: seq<Deferral>, k: nat)
    requires Shaped(s) && s.hands[RUNNER] == Settling([], again)
    requires k <= |again|
    requires |s.o.deferred| + |again| <= 1024 ==> k == |again|
    requires |s.o.deferred| + |again| > 1024 ==> k == if |s.o.deferred| <= 1024 then 1024 - |s.o.deferred| else 0
    ensures var s' := Step(s, APutBack);
            && s'.hands == s.hands[RUNNER := Idle] && s'.o.deferred == s.o.deferred + again[..k]
            && |s'.o.log.settled| == |s.o.log.settled| + |again| - k && s.o.log.settled <= s'.o.log.settled
            && forall j | k <= j < |again| :: s'.o.log.settled[|s.o.log.settled| + j - k] == Settled(again[j].d, Abandoned)
  {
  }

  // ---- the lanes --------------------------------------------------------------------------------------------------------

  /** Each worker takes what is first in its lane: the next job, the next retry, or the first 64 of the pending alarms. */
  lemma TheFirstIsTaken(s: State)
    requires Shaped(s)
    ensures s.hands[ORDINARY].Idle? && s.o.ord != [] ==>
              var s' := Step(s, APopOrdinary);
              s' == State(s.o.(ord := s.o.ord[1..]), s.hands[ORDINARY := Holding(s.o.ord[0], Idle)])
    ensures s.hands[PROTECTIVE].Idle? && s.o.protRetry != [] ==>
              var s' := Step(s, APopRetry);
              s' == State(s.o.(protRetry := s.o.protRetry[1..]), s.hands[PROTECTIVE := Holding(RetryJob(s.o.protRetry[0]), Idle)])
    ensures s.hands[PROTECTIVE].Idle? && s.o.prot != [] ==>
              var s', k := Step(s, APopProtective), if |s.o.prot| < 64 then |s.o.prot| else 64;
              && s'.hands == s.hands[PROTECTIVE := Holding(Group(s.o.prot[..k]), Idle)]
              && s'.o == s.o.(prot := s.o.prot[k..], log := s'.o.log)
  {
  }

  // The lanes are as before, or longer.
  predicate NoShorter(o: Shared, o': Shared) { o.ord <= o'.ord && o.protRetry <= o'.protRetry }

  lemma RestAppends(o: Shared, rest: seq<Decision>)
    ensures NoShorter(o, PushRest(o, rest))
  {
  }

  lemma PushAppends(o: Shared, g: seq<Decision>)
    ensures NoShorter(o, PushOrdinary(o, g))
  {
    hide AddProtective, PushRest;
    var o1 := AddProtective(o, ProtectivePart(g));
    ProtectiveLeavesLanes(o, ProtectivePart(g));
    RestAppends(o1, OrdinaryPart(g));
  }

  lemma ProtectiveLeavesLanes(o: Shared, ds: seq<Decision>)
    ensures var o' := AddProtective(o, ds); o'.ord == o.ord && o'.protRetry == o.protRetry
  {
  }

  lemma AcceptLockedAppends(o: Shared, d: Decision)
    ensures NoShorter(o, AcceptLocked(o, d).0)
  {
    hide AddProtective, PushOrdinary;
    var o1 := Buffer(o, d);
    ProtectiveLeavesLanes(Take(o1), o1.buf);
    PushAppends(Escort(o1, d), o.buf);
  }

  lemma {:induction false} AcceptAppends(o: Shared, ds: seq<Decision>)
    ensures NoShorter(o, AcceptAll(o, ds).0)
  {
    hide AcceptLocked;
    if ds != [] {
      AcceptAppends(o, ds[..|ds| - 1]);
      AcceptLockedAppends(AcceptAll(o, ds[..|ds| - 1]).0, ds[|ds| - 1]);
    }
  }

  lemma CloseAppends(o: Shared)
    ensures NoShorter(o, Close(o))
  {
    hide AddProtective;
    ProtectiveLeavesLanes(Take(o), ProtectivePart(o.buf));
  }

  lemma TickAppends(s: State, a: Action)
    requires Shaped(s) && IsTick(a)
    ensures NoShorter(s.o, Step(s, a).o)
  {
    hide PushOrdinary;
    if s.hands[RUNNER].Handing? { PushAppends(s.o, s.hands[RUNNER].group); }
  }

  lemma SendingAppends(s: State, a: Action)
    requires Shaped(s) && IsSending(a)
    ensures NoShorter(s.o, Step(s, a).o)
  {
    hide ScheduleRetry;
  }

  /** Nothing overtakes: but for the takers and the drain, whatever happens only adds to the ends of the two lanes. */
  lemma NothingOvertakes(s: State, a: Action)
    requires Shaped(s) && !a.APopOrdinary? && !a.APopRetry? && !a.ADrain?
    ensures s.o.ord <= Step(s, a).o.ord && s.o.protRetry <= Step(s, a).o.protRetry
  {
    hide AcceptAll, Close, TickStep, SendingStep, Buffer;
    if a.AAccept? { AcceptAppends(s.o, a.ds); }
    else if a.ASubmit? { BufferLeavesLanes(s.o, a.d); }
    else if IsTick(a) { TickAppends(s, a); }
    else if a.AClose? { CloseAppends(s.o); }
    else if IsSending(a) { SendingAppends(s, a); }
  }

  lemma BufferLeavesLanes(o: Shared, d: Decision)
    ensures var o' := Buffer(o, d); o'.ord == o.ord && o'.protRetry == o.protRetry
  {
  }

  // ---- retries ----------------------------------------------------------------------------------------------------------

  predicate OfAlarms(r: Retry) { exists d | d in r.m.decisions :: IsProtective(d) }

  lemma {:induction false} SplitIs(rs: seq<Retry>, now: int)
    ensures OutboxSpec.Waiting(rs, now) == Those(rs, (r: Retry) => now < r.due)
    ensures DueFor(rs, now, true) == Those(rs, (r: Retry) => r.due <= now && OfAlarms(r))
    ensures DueFor(rs, now, false) == Those(rs, (r: Retry) => r.due <= now && !OfAlarms(r))
  {
    if rs != [] { SplitIs(rs[..|rs| - 1], now); }
  }

  /** The retries that are due leave the waiting list for the end of the lane of their kind, and the others stay, all in order. */
  lemma DueRetriesReachTheirLanes(s: State)
    requires Shaped(s) && s.hands[RUNNER].Idle?
    ensures var s', o := Step(s, ADueRetries), s.o;
            var ordinary := Those(o.retries, (r: Retry) => r.due <= o.now && !OfAlarms(r));
            && s'.hands == s.hands
            && s'.o == o.(retries := Those(o.retries, (r: Retry) => o.now < r.due),
                          protRetry := o.protRetry + Those(o.retries, (r: Retry) => r.due <= o.now && OfAlarms(r)),
                          ord := o.ord + seq(|ordinary|, k requires 0 <= k < |ordinary| => RetryJob(ordinary[k])))
  {
    SplitIs(s.o.retries, s.o.now);
  }

  /** A retry is begun where it left off, unless it has no protective decision and one of its own is older than six minutes. */
  lemma ARetryIsBegun(s: State, i: nat, r: Retry, next: Work)
    requires Shaped(s) && i < |s.hands| && s.hands[i] == Holding(RetryJob(r), next) && r.m.id < |s.o.log.mail|
    ensures var s' := Step(s, ABegin(i));
            if !OfAlarms(r) && exists d | d in r.m.decisions :: d.at.Some? && s.o.now - d.at.value > 360000 then
              s' == State(s.o, s.hands[i := Ending(r.m, r.m.decisions, next)])
            else
              && s'.hands == s.hands[i := Sending(r.m, r.failed, r.since, next)]
              && s'.o.log.tries == s.o.log.tries + [Try(i, s.o.now, r.m)]
              && s'.o == s.o.(log := s'.o.log)
  {
    if d :| d in r.m.decisions && d.at.Some? && s.o.now - d.at.value > 360000 { assert TooLate(d, s.o.now); }
  }
}
