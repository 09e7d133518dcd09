/**
Nothing stays in the outbox for ever: while it is not empty there is a step to take, whatever is answered (see OutboxWork);
open, it may have to wait for the clock, closed it need not (pkg/attention/outbox.go:268-293, handoff.go:412-717).
*/
module OutboxEmptying {
  import opened Wrappers
  import opened Attention
  import opened OutboxSpec
  import opened OutboxConservation
  import opened OutboxBounds
  import opened OutboxTries
  import opened OutboxTheorems
  import opened OutboxWork
  import OutboxLanes

  predicate Empty(s: State) {
    && s.o.buf == [] && s.o.ord == [] && s.o.prot == [] && s.o.deferred == [] && s.o.retries == [] && s.o.protRetry == []
    && forall i | 0 <= i < |s.hands| :: s.hands[i].Idle?
  }

  // ---- there is always a step -------------------------------------------------------------------------------------------

  function Max(a: int, b: int): int { if a < b then b else a }

  // a is answered by ok, if it is answered at all.
  predicate IsAnswered(a: Action, ok: bool) {
    match a
    case ADelivered(_, b) => b == ok
    case AEnd(_, b) => b == ok
    case AAge(b) => b == ok
    case ASettle(b) => b == ok
    case _ => true
  }

  // What the holder of a hand does next.
  function NextOf(i: nat, w: Work, ok: bool): Action {
    match w
    case Idle => ABegin(i)
    case Holding(_, _) => ABegin(i)
    case Sending(_, _, _, _) => ADelivered(i, ok)
    case Ending(_, _, _) => AEnd(i, ok)
    case Aging(_, _) => AAge(ok)
    case SendingDigest(_) => ADigestSent
    case Handing(_) => AHandOver
    case Settling(todo, _) => if todo == [] then APutBack else ASettle(ok)
    case Draining(_) => ADrainNext
  }

  lemma HandsGoOn(s: State, i: nat, ok: bool)
    requires Sound(s) && Fits(s) && Conserved(s) && i < |s.hands| && !s.hands[i].Idle?
    ensures var a := NextOf(i, s.hands[i], ok); Works(s, a) && IsAnswered(a, ok) && Step(s, a) != s
  {
    hide Conserved, SharedFits, SharedRouted, SharedBounded, Step, WorkOk, WorkFits, NextOf, Works, IsAnswered;
    var w := s.hands[i];
    assert WorkOk(i, w) && WorkFits(w, s.o);
    NextIsWork(s, i, ok);
    if w.Sending? { SendingGoesOn(s, i, ok); }
    else if w.Ending? || w.Aging? || w.Draining? { OthersGoOn(s, i, ok); }
    else { BusyChanges(s, i, ok); }
  }

  lemma NextIsWork(s: State, i: nat, ok: bool)
    requires i < |s.hands|
    ensures var a := NextOf(i, s.hands[i], ok); Works(s, a) && IsAnswered(a, ok)
  {
  }

  lemma SendingGoesOn(s: State, i: nat, ok: bool)
    requires Fits(s) && Conserved(s) && i < |s.hands| && s.hands[i].Sending?
    ensures Step(s, NextOf(i, s.hands[i], ok)) != s
  {
    hide Conserved, SharedFits, WorkFits, ToDo, ScheduleRetry, AfterFailure;
    DeliveredWorks(s, i, ok);
  }

  lemma OthersGoOn(s: State, i: nat, ok: bool)
    requires Shaped(s) && i < |s.hands| && WorkOk(i, s.hands[i])
    requires s.hands[i].Ending? || s.hands[i].Aging? || s.hands[i].Draining?
    ensures Step(s, NextOf(i, s.hands[i], ok)) != s
  {
    hide ToDo, EndNext, AgeNext, DrainNext;
    if s.hands[i].Ending? { EndWorks(s, i, ok); }
    else if s.hands[i].Aging? { AgeWorks(s, ok); }
    else { DrainNextWorks(s); }
  }

  lemma BusyChanges(s: State, i: nat, ok: bool)
    requires Shaped(s) && i < |s.hands| && WorkOk(i, s.hands[i]) && WorkFits(s.hands[i], s.o)
    requires var w := s.hands[i]; w.Holding? || w.SendingDigest? || w.Handing? || w.Settling?
    ensures Step(s, NextOf(i, s.hands[i], ok)).hands[i] != s.hands[i]
  {
  }

  lemma {:induction false} WaitingAreLater(rs: seq<Retry>, now: int, r: Retry)
    requires r in Waiting(rs, now)
    ensures r.due > now
  {
    if rs[|rs| - 1].due <= now || r != rs[|rs| - 1] { WaitingAreLater(rs[..|rs| - 1], now, r); }
  }

  // The lanes, when their workers are idle, and the runner.
  lemma LanesGoOn(s: State)
    requires Shaped(s) && s.hands[ORDINARY].Idle? && s.hands[PROTECTIVE].Idle?
    ensures s.o.ord != [] ==> Step(s, APopOrdinary).hands[ORDINARY].Holding?
    ensures s.o.prot != [] ==> Step(s, APopProtective).hands[PROTECTIVE].Holding?
    ensures s.o.protRetry != [] ==> Step(s, APopRetry).hands[PROTECTIVE].Holding?
  {
  }

  lemma RunnerGoesOn(s: State)
    requires Shaped(s) && s.hands[RUNNER].Idle?
    ensures Step(s, ATakeDeferrals).hands[RUNNER].Settling?
    ensures s.o.closed ==> Step(s, ADrain).hands[RUNNER].Draining?
  {
  }

  // What waits for the clock goes on when its time has come.
  lemma TheTimeComes(s: State)
    requires Shaped(s) && s.hands[RUNNER].Idle?
    ensures s.o.buf != [] && s.o.now >= s.o.windowStart + s.o.window ==> Step(s, ATakeDue) != s
    ensures s.o.retries != [] && s.o.now >= s.o.retries[0].due ==> Step(s, ADueRetries) != s
  {
    if s.o.buf != [] && s.o.now >= s.o.windowStart + s.o.window { assert Step(s, ATakeDue).hands[RUNNER].Handing?; }
    if s.o.retries != [] && s.o.now >= s.o.retries[0].due {
      var r := s.o.retries[0];
      if r in Waiting(s.o.retries, s.o.now) { WaitingAreLater(s.o.retries, s.o.now, r); }
      assert Step(s, ADueRetries).o.retries == Waiting(s.o.retries, s.o.now);
    }
  }

  /** While anything is inside there is a step to take, whatever it is answered; closed, there is one without waiting. */
  lemma ThereIsAStep(s: State, ok: bool) returns (to: int, a: Action)
    requires Sound(s) && Fits(s) && Conserved(s) && !Empty(s)
    ensures to >= s.o.now && (s.o.closed ==> to == s.o.now)
    ensures var s1 := Step(s, AClock(to)); Works(s1, a) && IsAnswered(a, ok) && Step(s1, a) != s1
  {
    hide Conserved, SharedRouted, SharedFits, WorkOk, WorkFits, NextOf, Step, Works;
    to := s.o.now;
    ClockIs(s, to);
    if i :| 0 <= i < |s.hands| && !s.hands[i].Idle? {
      a := NextOf(i, s.hands[i], ok);
      HandsGoOn(s, i, ok);
    } else {
      to, a := QueuesGoOn(s, ok);
    }
  }

  lemma QueuesGoOn(s: State, ok: bool) returns (to: int, a: Action)
    requires Shaped(s) && SharedBounded(s.o) && !Empty(s) && forall i | 0 <= i < |s.hands| :: s.hands[i].Idle?
    ensures to >= s.o.now && (s.o.closed ==> to == s.o.now)
    ensures var s1 := Step(s, AClock(to)); Works(s1, a) && IsAnswered(a, ok) && Step(s1, a) != s1
  {
    hide Step, Works;
    assert s.hands[ORDINARY].Idle? && s.hands[PROTECTIVE].Idle? && s.hands[RUNNER].Idle?;
    to := s.o.now;
    ClockIs(s, to);
    if s.o.ord != [] || s.o.prot != [] || s.o.protRetry != [] || s.o.deferred != [] || s.o.closed {
      a := LaneNext(s, ok);
    } else {
      to, a := TimeNext(s, ok);
    }
  }

  lemma LaneNext(s: State, ok: bool) returns (a: Action)
    requires Shaped(s) && s.hands[ORDINARY].Idle? && s.hands[PROTECTIVE].Idle? && s.hands[RUNNER].Idle?
    requires s.o.ord != [] || s.o.prot != [] || s.o.protRetry != [] || s.o.deferred != [] || (s.o.closed && s.o.retries != [])
    ensures Works(s, a) && IsAnswered(a, ok) && Step(s, a) != s
  {
    hide Step, RetriesIn;
    LanesGoOn(s);
    RunnerGoesOn(s);
    a := if s.o.ord != [] then APopOrdinary
         else if s.o.prot != [] then APopProtective
         else if s.o.protRetry != [] then APopRetry
         else if s.o.deferred != [] then ATakeDeferrals
         else ADrain;
  }

  lemma TimeNext(s: State, ok: bool) returns (to: int, a: Action)
    requires Shaped(s) && s.hands[RUNNER].Idle? && (s.o.buf != [] || s.o.retries != [])
    ensures to >= s.o.now
    ensures var s1 := Step(s, AClock(to)); Works(s1, a) && IsAnswered(a, ok) && Step(s1, a) != s1
  {
    hide Step, RetriesIn;
    var start := if s.o.buf != [] then s.o.windowStart + s.o.window else s.o.retries[0].due;
    to, a := Max(s.o.now, start), if s.o.buf != [] then ATakeDue else ADueRetries;
    ClockIs(s, to);
    TheTimeComes(Step(s, AClock(to)));
  }

  lemma ClockIs(s: State, to: int)
    requires Shaped(s) && to >= s.o.now
    ensures Step(s, AClock(to)) == State(s.o.(now := to), s.hands)
    ensures ToDo(Step(s, AClock(to))) == ToDo(s)
  {
  }

  // ---- the outbox empties -----------------------------------------------------------------------------------------------

  // Nothing is taken in: the tick, the workers and the drain go on, and the clock.
  predicate TakesNothingIn(actions: seq<Action>) {
    forall j | 0 <= j < |actions| :: actions[j].AClock? || (!IsEntry(actions[j]) && !actions[j].ADigest? && !actions[j].AClose?)
  }

  // The j-th action, if it is answered, is answered by the j-th answer.
  predicate AnsweredBy(actions: seq<Action>, answers: nat -> bool) {
    forall j: nat | j < |actions| :: IsAnswered(actions[j], answers(j))
  }

  lemma RunTwo(s: State, a: Action, b: Action)
    requires Shaped(s)
    ensures Run(s, [a, b]) == Step(Step(s, a), b)
  {
    hide Step;
    assert [a][..0] == [];
    assert Run(s, [a]) == Step(s, a);
    assert [a, b][..1] == [a];
  }

  // Work leaves the clock and the flag of the shutdown alone.
  predicate SameTime(o: Shared, o': Shared) {
    o'.closed == o.closed && o'.now == o.now
  }

  lemma PushKeepsTime(o: Shared, group: seq<Decision>)
    ensures SameTime(o, PushOrdinary(o, group))
  {
  }

  lemma TickKeepsTime(s: State, a: Action)
    requires Shaped(s) && IsTick(a)
    ensures SameTime(s.o, Step(s, a).o)
  {
    hide PushOrdinary;
    if s.hands[RUNNER].Handing? { PushKeepsTime(s.o, s.hands[RUNNER].group); }
  }

  lemma SendingKeepsTime(s: State, a: Action)
    requires Shaped(s) && IsSending(a)
    ensures SameTime(s.o, Step(s, a).o)
  {
    hide ScheduleRetry;
  }

  lemma WorkKeepsTime(s: State, a: Action)
    requires Shaped(s) && !IsEntry(a) && !a.AClose?
    ensures SameTime(s.o, Step(s, a).o)
  {
    if IsTick(a) { TickKeepsTime(s, a); }
    else if IsSending(a) { SendingKeepsTime(s, a); }
    else { hide IsTick, IsSending, TickStep, SendingStep; }
  }

  // One step, after a wait if there must be one.
  lemma OneStep(s: State, ok: bool) returns (to: int, a: Action)
    requires Sound(s) && Fits(s) && Conserved(s) && !Empty(s)
    ensures !IsEntry(a) && !a.ADigest? && !a.AClose? && IsAnswered(a, ok)
    ensures var s' := Run(s, [AClock(to), a]);
            && Sound(s') && Fits(s') && Conserved(s') && Nearer(s, s')
            && s'.o.closed == s.o.closed && (s.o.closed ==> s'.o.now == s.o.now)
  {
    hide Sound, Fits, Conserved, ToDo, Empty, Step, Run;
    assert Shaped(s) by { FitsIsShaped(s); }
    to, a := ThereIsAStep(s, ok);
    var s1 := Step(s, AClock(to));
    ClockIs(s, to);
    StepSound(s, AClock(to));
    StepFits(s, AClock(to));
    StepConserves(s, AClock(to));
    StepSound(s1, a);
    StepFits(s1, a);
    StepConserves(s1, a);
    EveryStepIsNearer(s1, a);
    WorkKeepsTime(s1, a);
    RunTwo(s, AClock(to), a);
  }

  lemma FitsIsShaped(s: State)
    requires Fits(s)
    ensures Shaped(s)
  {
  }

  lemma {:induction false} Empties(s: State, answers: nat -> bool) returns (more: seq<Action>)
    requires Sound(s) && Fits(s) && Conserved(s)
    ensures Shaped(s) && Empty(Run(s, more)) && TakesNothingIn(more) && AnsweredBy(more, answers)
    ensures Run(s, more).o.closed == s.o.closed && (s.o.closed ==> Run(s, more).o.now == s.o.now)
    decreases ToDo(s)
  {
    hide Sound, Fits, Conserved, ToDo, Empty, Step, IsAnswered, AnsweredBy, TakesNothingIn;
    FitsIsShaped(s);
    if Empty(s) {
      NoneTaken(answers);
      return [];
    }
    var to, a := OneStep(s, answers(1));
    var rest := Empties(Run(s, [AClock(to), a]), (j: nat) => answers(j + 2));
    OutboxLanes.RunConcat(s, [AClock(to), a], rest);
    more := [AClock(to), a] + rest;
    Prepended(to, a, rest, answers);
  }

  lemma NoneTaken(answers: nat -> bool)
    ensures TakesNothingIn([]) && AnsweredBy([], answers)
  {
  }

  lemma Prepended(to: int, a: Action, rest: seq<Action>, answers: nat -> bool)
    requires !IsEntry(a) && !a.ADigest? && !a.AClose? && IsAnswered(a, answers(1))
    requires TakesNothingIn(rest) && AnsweredBy(rest, (j: nat) => answers(j + 2))
    ensures TakesNothingIn([AClock(to), a] + rest) && AnsweredBy([AClock(to), a] + rest, answers)
  {
    hide IsEntry;
    var more := [AClock(to), a] + rest;
    forall j: nat | j < |more| ensures IsAnswered(more[j], answers(j)) {
      if j >= 2 {
        hide IsAnswered;
        assert more[j] == rest[j - 2];
        assert IsAnswered(rest[j - 2], answers(j));
      }
    }
  }

  lemma Reached(now: int, window: int, slots: nat, callers: nat, actions: seq<Action>)
    ensures var s := Run(Init(now, window, slots, callers), actions); Sound(s) && Fits(s) && Conserved(s)
  {
    var s0 := Init(now, window, slots, callers);
    InitSound(now, window, slots, callers);
    InitConserved(now, window, slots, callers);
    assert Fits(s0) by { hide Conserved; }
    RunSound(s0, actions);
    RunFits(s0, actions);
  }

  lemma NothingInside(x: Token, s: State)
    requires Empty(s)
    ensures Inside(x, s) == 0
  {
    IdleHoldsNothing(x, s.hands);
  }

  lemma {:induction false} IdleHoldsNothing(x: Token, hands: seq<Work>)
    requires forall i | 0 <= i < |hands| :: hands[i].Idle?
    ensures Tally(WorkLoad, x, hands) == 0
  {
    if hands != [] { IdleHoldsNothing(x, hands[..|hands| - 1]); }
  }

  /**
  From every state that can be reached the tick and the workers can empty the outbox, whatever each delivery and each call
  of the database answers. Then every decision accepted once has left once, and every message has had its one outcome.
  */
  lemma TheOutboxEmpties(now: int, window: int, slots: nat, callers: nat, actions: seq<Action>, answers: nat -> bool)
    returns (more: seq<Action>)
    ensures TakesNothingIn(more) && AnsweredBy(more, answers)
    ensures var s := Run(Run(Init(now, window, slots, callers), actions), more);
            && Empty(s)
            && (forall d | In(OfDecision(d), s.o.log.accepted) == 1 :: TimesSettled(d, s.o) == 1)
            && (forall id: nat | id < |s.o.log.mail| :: TimesReported(id, s.o) == 1)
  {
    hide Sound, Fits, Conserved, Empty, Step, AnsweredBy, TakesNothingIn, Inside, TimesSettled, TimesReported, In, Tally;
    var s0 := Init(now, window, slots, callers);
    Reached(now, window, slots, callers, actions);
    more := Empties(Run(s0, actions), answers);
    OutboxLanes.RunConcat(s0, actions, more);
    var s := Run(s0, actions + more);
    forall d | In(OfDecision(d), s.o.log.accepted) == 1 ensures TimesSettled(d, s.o) == 1 {
      ExactlyOnePlace(now, window, slots, callers, actions + more, d);
      NothingInside(OfDecision(d), s);
    }
    forall id: nat | id < |s.o.log.mail| ensures TimesReported(id, s.o) == 1 {
      ExactlyOneOutcome(now, window, slots, callers, actions + more, id);
      NothingInside(OfMessage(id), s);
    }
  }

  /** A shutdown takes the buffer and ends by itself: once the outbox is closed it can be emptied while the clock stands still. */
  lemma TheShutdownEmpties(now: int, window: int, slots: nat, callers: nat, actions: seq<Action>, answers: nat -> bool)
    returns (more: seq<Action>)
    requires Run(Init(now, window, slots, callers), actions).hands[RUNNER].Idle?
    ensures TakesNothingIn(more) && AnsweredBy(more, answers)
    ensures var s := Run(Init(now, window, slots, callers), actions);
            && Step(s, AClose).o.closed && Step(s, AClose).o.buf == []
            && Empty(Run(Step(s, AClose), more)) && Run(Step(s, AClose), more).o.closed
            && Run(Step(s, AClose), more).o.now == s.o.now
  {
    hide Fits, Conserved, Empty, Step, AnsweredBy, TakesNothingIn, Run, SharedRouted;
    var s0 := Init(now, window, slots, callers);
    Reached(now, window, slots, callers, actions);
    var s := Run(s0, actions);
    StepSound(s, AClose);
    StepFits(s, AClose);
    StepConserves(s, AClose);
    CloseCloses(s);
    more := Empties(Step(s, AClose), answers);
  }

  lemma CloseCloses(s: State)
    requires Shaped(s) && s.hands[RUNNER].Idle?
    ensures Step(s, AClose).o.closed && Step(s, AClose).o.now == s.o.now
  {
    hide AddProtective, LastGroup, Take;
    ProtectiveKeepsTime(Take(s.o), ProtectivePart(s.o.buf));
    LastKeepsTime(AddProtective(Take(s.o), ProtectivePart(s.o.buf)).(closed := true), OrdinaryPart(s.o.buf));
    TakeKeepsTime(s.o);
  }

  lemma ProtectiveKeepsTime(o: Shared, ds: seq<Decision>)
    ensures SameTime(o, AddProtective(o, ds))
  {
  }

  lemma LastKeepsTime(o: Shared, rest: seq<Decision>)
    ensures SameTime(o, LastGroup(o, rest))
  {
  }

  lemma TakeKeepsTime(o: Shared)
    ensures SameTime(o, Take(o))
  {
  }

  // ---- every schedule ends ----------------------------------------------------------------------------------------------

  // Each action lets the clock run, or changes something.
  ghost predicate NeverIdle(s: State, actions: seq<Action>)
    requires Shaped(s)
  {
    forall k | 0 <= k < |actions| ::
      var s1 := Run(s, actions[..k]);
      actions[k].AClock? || (Works(s1, actions[k]) && Step(s1, actions[k]) != s1)
  }

  function StepsIn(actions: seq<Action>): nat {
    if actions == [] then 0 else StepsIn(actions[..|actions| - 1]) + if actions[|actions| - 1].AClock? then 0 else 1
  }

  lemma {:induction false} EachStepCounts(s: State, actions: seq<Action>)
    requires Fits(s) && Conserved(s) && Shaped(s) && NeverIdle(s, actions)
    ensures StepsIn(actions) + ToDo(Run(s, actions)) <= ToDo(s)
  {
    hide Fits, Conserved, ToDo, Works, Step;
    if actions != [] {
      var k := |actions| - 1;
      var front, a := actions[..k], actions[k];
      forall j | 0 <= j < k ensures front[..j] == actions[..j] {}
      EachStepCounts(s, front);
      RunFits(s, front);
      var s1 := Run(s, front);
      if a.AClock? { ClockLeavesWork(s1, a.to); } else { EveryStepIsNearer(s1, a); }
    }
  }

  lemma ClockLeavesWork(s: State, to: int)
    requires Shaped(s)
    ensures ToDo(Step(s, AClock(to))) == ToDo(s)
  {
  }

  /** However the steps are chosen and answered, while nothing is taken in no more than ToDo of them change anything. */
  lemma EveryScheduleEnds(now: int, window: int, slots: nat, callers: nat, before: seq<Action>, actions: seq<Action>)
    requires NeverIdle(Run(Init(now, window, slots, callers), before), actions)
    ensures StepsIn(actions) <= ToDo(Run(Init(now, window, slots, callers), before))
  {
    hide Fits, Conserved, ToDo, Step, NeverIdle;
    var s0 := Init(now, window, slots, callers);
    Reached(now, window, slots, callers, before);
    EachStepCounts(Run(s0, before), actions);
  }
}
