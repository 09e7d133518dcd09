/**
What a tick leaves behind (pkg/attention/outbox.go:268-293, handoff.go:412-447): nothing in the buffer whose window is
over, and nothing in the backlog that the database would take.
*/
module OutboxTicks {
  import opened Wrappers
  import opened Attention
  import opened OutboxSpec
  import opened OutboxLanes
  import opened OutboxAnswers
  import G = OutboxGroups

  // ---- the buffer -------------------------------------------------------------------------------------------------------

  // The buffer is the last of what was accepted, and its window opened with the first of it.
  predicate IsLatest(o: Shared) {
    var n := |o.log.accepted| - |o.buf|;
    && 0 <= n && |o.log.acceptedAt| == |o.log.accepted|
    && o.buf == o.log.accepted[n..]
    && (o.buf != [] ==> o.windowStart == o.log.acceptedAt[n])
  }

  lemma SameLatest(o: Shared, o': Shared)
    requires IsLatest(o) && G.SameBuffer(o, o')
    ensures IsLatest(o')
  {
  }

  lemma TakeLatest(o: Shared)
    requires IsLatest(o)
    ensures IsLatest(Take(o))
  {
  }

  lemma JoinLatest(o: Shared, d: Decision)
    requires IsLatest(o)
    ensures IsLatest(Join(o, d))
  {
    var n, accepted := |o.log.accepted| - |o.buf|, o.log.accepted + [d];
    assert accepted[n..] == o.log.accepted[n..] + [d];
  }

  lemma BufferLatest(o: Shared, d: Decision)
    requires IsLatest(o)
    ensures IsLatest(Buffer(o, d))
  {
    hide IsLatest;
    TakeLatest(o);
    JoinLatest(if MustTake(o) then Take(o) else o, d);
  }

  lemma AcceptLockedLatest(o: Shared, d: Decision)
    requires IsLatest(o)
    ensures IsLatest(AcceptLocked(o, d).0)
  {
    hide IsLatest, PushOrdinary, AddProtective;
    var o1 := Buffer(o, d);
    BufferLatest(o, d);
    TakeLatest(o1);
    G.ProtectiveSame(Take(o1), o1.buf);
    if IsProtectiveCritical(d.candidate) { SameLatest(Take(o1), Escort(o1, d)); }
    G.PushSame(Escort(o1, d), o.buf);
    SameLatest(Escort(o1, d), PushOrdinary(Escort(o1, d), o.buf));
  }

  lemma {:induction false} AcceptLatest(o: Shared, ds: seq<Decision>)
    requires IsLatest(o)
    ensures IsLatest(AcceptAll(o, ds).0)
  {
    hide IsLatest, AcceptLocked;
    if ds != [] {
      AcceptLatest(o, ds[..|ds| - 1]);
      AcceptLockedLatest(AcceptAll(o, ds[..|ds| - 1]).0, ds[|ds| - 1]);
    }
  }

  lemma EntryLatest(s: State, a: Action)
    requires Shaped(s) && IsLatest(s.o) && IsEntry(a)
    ensures IsLatest(Step(s, a).o)
  {
    hide IsLatest, AcceptAll, Buffer, Take;
    match a {
      case AClock(to) => if to >= s.o.now { SameLatest(s.o, s.o.(now := to)); }
      case AAccept(ds) => AcceptLatest(s.o, ds);
      case ASubmit(_, d) => BufferLatest(s.o, d); TakeLatest(Buffer(s.o, d));
    }
  }

  lemma ClosesEmpty(o: Shared)
    requires o.buf == []
    ensures Close(o) == o.(closed := true)
  {
  }

  lemma CloseLatest(o: Shared)
    requires IsLatest(o)
    ensures IsLatest(Close(o))
  {
    hide IsLatest, Close;
    if o.buf == [] {
      SameLatest(o, o.(closed := true));
      ClosesEmpty(o);
    } else {
      TakeLatest(o);
      G.CloseSame(o);
      SameLatest(Take(o), Close(o));
    }
  }

  lemma StepLatest(s: State, a: Action)
    requires Shaped(s) && IsLatest(s.o)
    ensures IsLatest(Step(s, a).o)
  {
    hide IsLatest, EntryStep, Take, Close, TakingStep, SendingStep, G.SameBuffer;
    if IsEntry(a) { EntryLatest(s, a); }
    else if a.ATakeDue? { TakeLatest(s.o); }
    else if a.AClose? { CloseLatest(s.o); }
    else { G.OtherStepsSame(s, a); SameLatest(s.o, Step(s, a).o); }
  }

  lemma {:induction false} RunLatest(s: State, actions: seq<Action>)
    requires Shaped(s) && IsLatest(s.o)
    ensures IsLatest(Run(s, actions).o)
  {
    hide IsLatest, Step;
    if actions != [] {
      RunLatest(s, actions[..|actions| - 1]);
      StepLatest(Run(s, actions[..|actions| - 1]), actions[|actions| - 1]);
    }
  }

  // The buffer is the end of what was accepted, whose times are kept.
  predicate BufferFits(s: State) {
    var n, o := |s.o.log.accepted| - |s.o.buf|, s.o;
    && 0 <= n && |o.log.acceptedAt| == |o.log.accepted| && o.buf == o.log.accepted[n..]
  }

  lemma DueIsTaken(s: State)
    requires Shaped(s) && IsLatest(s.o) && s.hands[RUNNER].Idle?
    ensures var s', n := Step(s, ATakeDue), |s.o.log.accepted| - |s.o.buf|;
            if s.o.buf != [] && (s.o.window <= 0 || s.o.now - s.o.log.acceptedAt[n] >= s.o.window) then
              s'.o.buf == [] && s'.hands == s.hands[RUNNER := Handing(s.o.log.accepted[n..])]
            else s' == s
  {
  }

  lemma InitLatest(now: int, window: int, slots: nat, callers: nat)
    ensures IsLatest(Init(now, window, slots, callers).o)
  {
  }

  /**
  The buffer always holds the last decisions accepted, in their order. An idle runner takes it whole when the first of them
  was accepted a window ago, or there is no window, and leaves it alone before: what is left was accepted within the window.
  */
  lemma NothingOverstays(now: int, window: int, slots: nat, callers: nat, actions: seq<Action>)
    ensures var s := Run(Init(now, window, slots, callers), actions); var n := |s.o.log.accepted| - |s.o.buf|;
            && BufferFits(s)
            && (s.hands[RUNNER].Idle? ==>
                  var s' := Step(s, ATakeDue);
                  if s.o.buf != [] && (s.o.window <= 0 || s.o.now - s.o.log.acceptedAt[n] >= s.o.window) then
                    s'.o.buf == [] && s'.hands == s.hands[RUNNER := Handing(s.o.log.accepted[n..])]
                  else s' == s)
  {
    hide Run, Step, IsLatest;
    var s := Run(Init(now, window, slots, callers), actions);
    InitLatest(now, window, slots, callers);
    RunLatest(Init(now, window, slots, callers), actions);
    LatestFits(s);
    if s.hands[RUNNER].Idle? { DueIsTaken(s); }
  }

  lemma LatestFits(s: State)
    requires IsLatest(s.o)
    ensures BufferFits(s)
  {
  }

  // ---- the backlog ------------------------------------------------------------------------------------------------------

  function Settlements(fs: seq<Deferral>): seq<Settled> {
    seq(|fs|, k requires 0 <= k < |fs| => Settled(fs[k].d, if fs[k].release then Released else ToDigest))
  }

  // The runner is at n of the backlog it took, and those before have left.
  predicate Settles(s: State, s': State, n: nat)
    requires Shaped(s)
  {
    var fs := s.o.deferred;
    && n <= |fs|
    && s'.hands == s.hands[RUNNER := Settling(fs[n..], [])]
    && s'.o == s.o.(deferred := [], log := s'.o.log)
    && s'.o.log == s.o.log.(settled := s.o.log.settled + Settlements(fs[..n]))
  }

  predicate Acceptable(fs: seq<Deferral>) {
    forall f | f in fs :: f.release || f.d.reason != Reason.Protective
  }

  lemma FirstSettles(s: State)
    requires Shaped(s) && s.hands[RUNNER].Idle?
    ensures Settles(s, Step(s, ATakeDeferrals), 0)
  {
    assert s.o.deferred[0..] == s.o.deferred && Settlements(s.o.deferred[..0]) == [] && s.o.log.settled + [] == s.o.log.settled;
  }

  lemma OneMoreSettles(s: State, s1: State, n: nat)
    requires Shaped(s) && Shaped(s1) && Settles(s, s1, n) && n < |s.o.deferred| && Acceptable(s.o.deferred)
    ensures Settles(s, Step(s1, ASettle(true)), n + 1)
  {
    var fs := s.o.deferred;
    assert fs[n] in fs && fs[n..][0] == fs[n] && fs[n..][1..] == fs[n + 1..];
    assert Settlements(fs[..n + 1]) == Settlements(fs[..n]) + [SettledAs(fs[n].d, fs[n].release)];
    assert s.o.log.settled + Settlements(fs[..n + 1]) == s.o.log.settled + Settlements(fs[..n]) + [SettledAs(fs[n].d, fs[n].release)];
  }

  lemma {:induction false} SomeSettle(s: State, n: nat)
    requires Shaped(s) && s.hands[RUNNER].Idle? && n <= |s.o.deferred| && Acceptable(s.o.deferred)
    ensures Settles(s, Run(s, [ATakeDeferrals] + Each(ASettle(true), n)), n)
  {
    hide Step, Settles;
    if n == 0 {
      FirstSettles(s);
      assert [ATakeDeferrals] + Each(ASettle(true), 0) == [] + [ATakeDeferrals];
      RunLast(s, [], ATakeDeferrals);
    } else {
      SomeSettle(s, n - 1);
      EachNext(ASettle(true), n - 1);
      var before := [ATakeDeferrals] + Each(ASettle(true), n - 1);
      assert [ATakeDeferrals] + Each(ASettle(true), n) == before + [ASettle(true)];
      RunLast(s, before, ASettle(true));
      OneMoreSettles(s, Run(s, before), n - 1);
    }
  }

  lemma LastSettles(s: State, s1: State)
    requires Shaped(s) && Shaped(s1) && s.hands[RUNNER].Idle? && Settles(s, s1, |s.o.deferred|)
    ensures var s', fs := Step(s1, APutBack), s.o.deferred;
            && s'.hands == s.hands && s'.o == s.o.(deferred := [], log := s'.o.log)
            && s'.o.log == s.o.log.(settled := s.o.log.settled + Settlements(fs))
  {
    var fs := s.o.deferred;
    assert fs[|fs|..] == [] && fs[..|fs|] == fs;
    assert s1.hands[RUNNER := Idle] == s.hands;
    assert WithFate(Decisions([]), Abandoned) == [];
    assert s1.o.log.settled + [] == s1.o.log.settled;
  }

  /**
  While the database answers, one round of an idle runner empties the backlog: each decision is released or reaches the
  digest as it was meant, in order, unless its reason keeps it from the digest.
  */
  lemma ARoundEmptiesTheBacklog(s: State)
    requires Shaped(s) && s.hands[RUNNER].Idle? && Acceptable(s.o.deferred)
    ensures var n, fs := |s.o.deferred|, s.o.deferred;
            var s' := Run(s, [ATakeDeferrals] + Each(ASettle(true), n) + [APutBack]);
            && s'.hands == s.hands && s'.o == s.o.(deferred := [], log := s'.o.log)
            && s'.o.log == s.o.log.(settled := s.o.log.settled + Settlements(fs))
  {
    hide Step, Settles;
    var before := [ATakeDeferrals] + Each(ASettle(true), |s.o.deferred|);
    SomeSettle(s, |s.o.deferred|);
    RunLast(s, before, APutBack);
    LastSettles(s, Run(s, before));
  }

  // ---- what an accepting caller is told -----------------------------------------------------------------------------------

  // A decision that is not sent is ignored, a closed outbox refuses; a protective Critical is queued, any other buffered.
  function AnswerTo(d: Decision, closed: bool): Handoff {
    if d.disposition != Notify && d.disposition != Escalate then Ignored
    else if closed then Closed
    else if d.candidate.protective && d.candidate.severity == Critical then Queued
    else Buffered
  }

  // Those of ds that are taken in.
  function TakenIn(ds: seq<Decision>, closed: bool): seq<Decision> {
    if ds == [] then []
    else
      var front, d := TakenIn(ds[..|ds| - 1], closed), ds[|ds| - 1];
      if AnswerTo(d, closed) in {Queued, Buffered} then front + [d] else front
  }

  lemma OneAnswer(o: Shared, d: Decision)
    ensures var (o', answer) := AcceptOne(o, d);
            && answer == AnswerTo(d, o.closed) && o'.closed == o.closed
            && o'.log.accepted == o.log.accepted + if answer in {Queued, Buffered} then [d] else []
  {
    hide PushOrdinary, AddProtective, Buffer;
    if d.disposition.Sent() && !o.closed {
      Accepts(o, d);
    } else {
      assert o.log.accepted + [] == o.log.accepted;
    }
  }

  lemma Accepts(o: Shared, d: Decision)
    ensures var o' := AcceptLocked(o, d).0; o'.closed == o.closed && o'.log.accepted == o.log.accepted + [d]
  {
    hide PushOrdinary, AddProtective;
    var o1 := Buffer(o, d);
    assert o1.closed == o.closed && o1.log.accepted == o.log.accepted + [d];
    SameGate(Take(o1), o1.buf);
    G.ProtectiveSame(Take(o1), o1.buf);
    PushesBehindTheGate(Escort(o1, d), o.buf);
    G.PushSame(Escort(o1, d), o.buf);
  }

  lemma SameGate(o: Shared, ds: seq<Decision>)
    ensures AddProtective(o, ds).closed == o.closed
  {
  }

  lemma PushesBehindTheGate(o: Shared, group: seq<Decision>)
    ensures PushOrdinary(o, group).closed == o.closed
  {
    hide AddProtective;
    SameGate(o, ProtectivePart(group));
  }

  /**
  Each of several decisions accepted together gets its own answer, by what it is and whether the outbox is closed; exactly
  those that are told so are taken in, in their order.
  */
  lemma {:induction false} EachIsAnswered(o: Shared, ds: seq<Decision>)
    ensures var (o', answers) := AcceptAll(o, ds);
            && |answers| == |ds| && (forall k | 0 <= k < |ds| :: answers[k] == AnswerTo(ds[k], o.closed))
            && o'.log.accepted == o.log.accepted + TakenIn(ds, o.closed)
            && o'.closed == o.closed
  {
    hide AcceptOne, AnswerTo;
    if ds == [] {
      assert o.log.accepted + [] == o.log.accepted;
    } else {
      var front, d := ds[..|ds| - 1], ds[|ds| - 1];
      EachIsAnswered(o, front);
      var o1 := AcceptAll(o, front).0;
      OneAnswer(o1, d);
      assert o.log.accepted + TakenIn(front, o.closed) + [d] == o.log.accepted + (TakenIn(front, o.closed) + [d]);
    }
  }

  // ---- a caller that waits for its message ------------------------------------------------------------------------------

  /**
  An idle caller of Submit takes the buffer whose window is over, or that is full, and, if its decision is a protective
  Critical or the outbox is closed, what is in the buffer with its decision; it sends them in this order. Any other
  decision stays in the buffer.
  */
  lemma ASubmitterSendsItself(s: State, c: nat, d: Decision)
    requires Shaped(s) && RUNNER < c < |s.hands| && s.hands[c].Idle? && (d.disposition.Notify? || d.disposition.Escalate?)
    ensures var s', o := Step(s, ASubmit(c, d)), s.o;
            var over := (o.buf != [] && o.window > 0 && o.now >= o.windowStart + o.window) || |o.buf| >= 64;
            var sends := (d.candidate.protective && d.candidate.severity.Critical?) || o.closed;
            var mine := (if over then [] else o.buf) + [d];
            && s'.o.buf == (if sends then [] else mine)
            && (|mine| == 1 && !sends ==> s'.o.windowStart == o.now)
            && s'.o.log.accepted == o.log.accepted + [d]
            && s'.hands == s.hands[c :=
                 if over && sends then Holding(Group(o.buf), Holding(Group(mine), Idle))
                 else if over then Holding(Group(o.buf), Idle)
                 else if sends then Holding(Group(mine), Idle)
                 else Idle]
  {
  }
}
