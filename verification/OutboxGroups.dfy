/**
The groups the outbox forms, beside the messages the governor counts. As long as no group is taken while its window is
open, all that was accepted goes out in the groups that pendingMessages would make of the arrival times; CountedAsBudgeted
says when the part that sendsToday counts is grouped as it would be alone.
*/
module OutboxGroups {
  import opened Attention
  import opened OutboxSpec
  import Windows
  import CountedGroups

  function Lengths(groups: seq<seq<Decision>>): seq<nat> {
    seq(|groups|, i requires 0 <= i < |groups| => |groups[i]|)
  }

  // The groups formed so far, with the one that is still open.
  function Groups(o: Shared): seq<seq<Decision>> {
    o.log.formed + if o.buf == [] then [] else [o.buf]
  }

  ghost predicate Grouped(o: Shared) {
    && o.window > 0
    && |o.log.acceptedAt| == |o.log.accepted|
    && (o.log.accepted == [] ==> o.buf == [])
    && (forall t | t in o.log.acceptedAt :: t <= o.now) && Windows.Sorted(o.log.acceptedAt)
    && (!o.log.early ==>
          && CountedGroups.Flat(Groups(o)) == o.log.accepted
          && Lengths(Groups(o)) == Windows.Sizes(o.log.acceptedAt, o.window)
          && (var starts := Windows.Starts(o.log.acceptedAt, o.window);
              if o.buf != [] then starts != [] && o.windowStart == Windows.Last(starts)
              else starts != [] ==> o.now >= Windows.Last(starts) + o.window))
  }

  // What the groups depend on.
  predicate SameBuffer(o: Shared, o': Shared) {
    && o'.buf == o.buf && o'.windowStart == o.windowStart && o'.window == o.window && o.now <= o'.now
    && o'.log.accepted == o.log.accepted && o'.log.acceptedAt == o.log.acceptedAt
    && o'.log.formed == o.log.formed && o'.log.early == o.log.early
  }

  lemma SameBufferGrouped(o: Shared, o': Shared)
    requires Grouped(o) && SameBuffer(o, o')
    ensures Grouped(o')
  {
  }

  lemma TakeGrouped(o: Shared)
    requires Grouped(o) && o.buf != []
    ensures Grouped(Take(o))
  {
    assert Groups(Take(o)) == Groups(o);
  }

  lemma InOrder(times: seq<int>, now: int)
    requires Windows.Sorted(times) && forall t | t in times :: t <= now
    ensures Windows.Sorted(times + [now])
  {
    var all := times + [now];
    forall i, j | 0 <= i < j < |all| ensures all[i] <= all[j] {
      assert all[i] == times[i] && times[i] in times;
    }
  }

  lemma OneMore(groups: seq<seq<Decision>>, d: Decision)
    ensures CountedGroups.Flat(groups + [[d]]) == CountedGroups.Flat(groups) + [d]
    ensures Lengths(groups + [[d]]) == Lengths(groups) + [1]
  {
    CountedGroups.FlatAppend(groups, [d]);
  }

  lemma LastLonger(groups: seq<seq<Decision>>, last: seq<Decision>, d: Decision)
    ensures CountedGroups.Flat(groups + [last + [d]]) == CountedGroups.Flat(groups + [last]) + [d]
  {
    var all := CountedGroups.Flat(groups);
    CountedGroups.FlatAppend(groups, last + [d]);
    CountedGroups.FlatAppend(groups, last);
    Associative(all, last, d);
  }

  lemma Associative(a: seq<Decision>, b: seq<Decision>, d: Decision)
    ensures a + (b + [d]) == (a + b) + [d]
  {
  }

  lemma LastSize(groups: seq<seq<Decision>>, last: seq<Decision>, d: Decision)
    ensures Lengths(groups + [last + [d]]) == Lengths(groups + [last])[|groups| := |last| + 1]
  {
    var a, b := Lengths(groups + [last + [d]]), Lengths(groups + [last])[|groups| := |last| + 1];
    forall k | 0 <= k < |a| ensures a[k] == b[k] {
      if k < |groups| { assert (groups + [last + [d]])[k] == groups[k] == (groups + [last])[k]; }
    }
  }

  lemma JoinOpen(o: Shared, d: Decision)
    requires Grouped(o) && o.buf != [] && !WindowClosed(o)
    ensures Grouped(Join(o, d))
  {
    var o' := Join(o, d);
    InOrder(o.log.acceptedAt, o.now);
    if !o.log.early {
      assert Windows.Front(o.log.acceptedAt + [o.now]) == o.log.acceptedAt;
      assert Groups(o) == o.log.formed + [o.buf] && Groups(o') == o.log.formed + [o.buf + [d]];
      LastLonger(o.log.formed, o.buf, d);
      LastSize(o.log.formed, o.buf, d);
    }
  }

  lemma JoinNew(o: Shared, d: Decision)
    requires Grouped(o) && o.buf == []
    ensures Grouped(Join(o, d))
  {
    var o' := Join(o, d);
    InOrder(o.log.acceptedAt, o.now);
    if !o.log.early {
      assert Windows.Front(o.log.acceptedAt + [o.now]) == o.log.acceptedAt;
      assert Groups(o) == o.log.formed && o'.buf == [d] && Groups(o') == o.log.formed + [[d]];
      OneMore(o.log.formed, d);
    }
  }

  lemma BufferGrouped(o: Shared, d: Decision)
    requires Grouped(o)
    ensures Grouped(Buffer(o, d)) && Buffer(o, d).buf != []
  {
    if MustTake(o) {
      TakeGrouped(o);
      JoinNew(Take(o), d);
    } else if o.buf == [] {
      JoinNew(o, d);
    } else {
      JoinOpen(o, d);
    }
  }

  lemma ProtectiveSame(o: Shared, ds: seq<Decision>)
    ensures SameBuffer(o, AddProtective(o, ds))
  {
  }

  lemma RestSame(o: Shared, rest: seq<Decision>)
    ensures SameBuffer(o, PushRest(o, rest))
  {
  }

  lemma PushSame(o: Shared, group: seq<Decision>)
    ensures SameBuffer(o, PushOrdinary(o, group))
  {
    ProtectiveSame(o, ProtectivePart(group));
    RestSame(AddProtective(o, ProtectivePart(group)), OrdinaryPart(group));
  }

  lemma EscortGrouped(o: Shared, d: Decision)
    requires Grouped(o) && o.buf != []
    ensures Grouped(Escort(o, d))
  {
    if IsProtectiveCritical(d.candidate) {
      TakeGrouped(o);
      SameBufferGrouped(Take(o), Escort(o, d));
    }
  }

  lemma AcceptLockedGrouped(o: Shared, d: Decision)
    requires Grouped(o)
    ensures Grouped(AcceptLocked(o, d).0)
  {
    BufferGrouped(o, d);
    EscortGrouped(Buffer(o, d), d);
    PushSame(Escort(Buffer(o, d), d), o.buf);
    SameBufferGrouped(Escort(Buffer(o, d), d), PushOrdinary(Escort(Buffer(o, d), d), o.buf));
  }

  lemma {:induction false} AcceptGrouped(o: Shared, ds: seq<Decision>)
    requires Grouped(o)
    ensures Grouped(AcceptAll(o, ds).0)
  {
    if ds != [] {
      AcceptGrouped(o, ds[..|ds| - 1]);
      var o1, d := AcceptAll(o, ds[..|ds| - 1]).0, ds[|ds| - 1];
      if d.disposition.Sent() && !o1.closed {
        AcceptLockedGrouped(o1, d);
      }
    }
  }

  lemma CloseSame(o: Shared)
    requires o.buf != []
    ensures SameBuffer(Take(o), Close(o))
  {
    ProtectiveSame(Take(o), ProtectivePart(o.buf));
  }

  lemma CloseGrouped(o: Shared)
    requires Grouped(o)
    ensures Grouped(Close(o))
  {
    if o.buf == [] {
      SameBufferGrouped(o, Close(o));
    } else {
      TakeGrouped(o);
      CloseSame(o);
      SameBufferGrouped(Take(o), Close(o));
    }
  }

  lemma TrySame(o: Shared, lane: nat, m: Message)
    requires m.id < |o.log.mail|
    ensures SameBuffer(o, CountTry(o, lane, m))
  {
  }

  lemma BeginSame(s: State, i: nat)
    requires i < |s.hands|
    ensures SameBuffer(s.o, Begin(s, i).o)
  {
    match s.hands[i] {
      case Holding(Group(g), next) => TrySame(NewMessage(s.o, g), i, Message(|s.o.log.mail|, g));
      case Holding(RetryJob(r), next) => if r.m.id < |s.o.log.mail| { TrySame(s.o, i, r.m); }
      case _ =>
    }
  }

  lemma DeliveredSame(s: State, i: nat, ok: bool)
    requires i < |s.hands|
    ensures SameBuffer(s.o, Delivered(s, i, ok).o)
  {
  }

  lemma FallbackSame(o: Shared, d: Decision, ok: bool)
    ensures SameBuffer(o, Fallback(o, d, ok))
  {
  }

  lemma EndSame(s: State, i: nat, ok: bool)
    requires i < |s.hands|
    ensures SameBuffer(s.o, EndNext(s, i, ok).o)
  {
    match s.hands[i] {
      case Ending(m, rest, next) => if rest != [] { FallbackSame(s.o, rest[0], ok); }
      case _ =>
    }
  }

  // What a worker takes and sends is no longer in the buffer.
  lemma WorkerSame(s: State, a: Action)
    requires Shaped(s) && IsSending(a)
    ensures SameBuffer(s.o, SendingStep(s, a).o)
  {
    match a {
      case ABegin(i) => if i < |s.hands| { BeginSame(s, i); }
      case ADelivered(i, ok) => if i < |s.hands| { DeliveredSame(s, i, ok); }
      case AEnd(i, ok) => if i < |s.hands| { EndSame(s, i, ok); }
      case AAge(ok) =>
      case ADigestSent =>
    }
  }

  lemma TakingSame(s: State, a: Action)
    requires Shaped(s) && IsTaking(a)
    ensures SameBuffer(s.o, TakingStep(s, a).o)
  {
  }

  lemma HandOverSame(s: State)
    requires Shaped(s)
    ensures SameBuffer(s.o, HandOver(s).o)
  {
    match s.hands[RUNNER] {
      case Handing(g) => PushSame(s.o, g);
      case _ =>
    }
  }

  lemma SettleFirstSame(s: State, todo: seq<Deferral>, again: seq<Deferral>, ok: bool)
    requires Shaped(s) && todo != []
    ensures SameBuffer(s.o, SettleFirst(s, todo, again, ok).o)
  {
  }

  lemma SettleSame(s: State, ok: bool)
    requires Shaped(s)
    ensures SameBuffer(s.o, SettleNext(s, ok).o)
  {
    match s.hands[RUNNER] {
      case Settling(todo, again) => if todo != [] { SettleFirstSame(s, todo, again, ok); }
      case _ =>
    }
  }

  lemma TickSame(s: State, a: Action)
    requires Shaped(s) && IsTick(a) && !a.ATakeDue?
    ensures SameBuffer(s.o, TickStep(s, a).o)
  {
    match a {
      case AHandOver => HandOverSame(s);
      case ASettle(ok) => SettleSame(s, ok);
      case _ =>
    }
  }

  lemma DrainSame(s: State, a: Action)
    requires Shaped(s) && IsShutdown(a) && !a.AClose?
    ensures SameBuffer(s.o, ShutdownStep(s, a).o)
  {
  }

  // Actions that accept nothing and do not empty the buffer.
  predicate IsOther(a: Action) {
    !IsEntry(a) && !a.ATakeDue? && !a.AClose?
  }

  lemma OtherStepsSame(s: State, a: Action)
    requires Shaped(s) && IsOther(a)
    ensures SameBuffer(s.o, Step(s, a).o)
  {
    if IsTick(a) { TickSame(s, a); }
    else if IsShutdown(a) { DrainSame(s, a); }
    else if IsTaking(a) { TakingSame(s, a); }
    else { WorkerSame(s, a); }
  }

  lemma SubmitGrouped(o: Shared, d: Decision)
    requires Grouped(o)
    ensures Grouped(SubmitShared(o, d))
  {
    BufferGrouped(o, d);
    TakeGrouped(Buffer(o, d));
  }

  lemma EntryGrouped(s: State, a: Action)
    requires Shaped(s) && Grouped(s.o) && IsEntry(a)
    ensures Grouped(EntryStep(s, a).o)
  {
    match a {
      case AClock(to) => if to >= s.o.now { SameBufferGrouped(s.o, s.o.(now := to)); }
      case AAccept(ds) => AcceptGrouped(s.o, ds);
      case ASubmit(c, d) => SubmitGrouped(s.o, d);
    }
  }

  lemma StepGrouped(s: State, a: Action)
    requires Shaped(s) && Grouped(s.o)
    ensures Grouped(Step(s, a).o)
  {
    if IsEntry(a) {
      EntryGrouped(s, a);
    } else if a.ATakeDue? {
      if s.o.buf != [] { TakeGrouped(s.o); }
    } else if a.AClose? {
      CloseGrouped(s.o);
    } else {
      OtherStepsSame(s, a);
      SameBufferGrouped(s.o, Step(s, a).o);
    }
  }

  lemma {:induction false} RunGrouped(s: State, actions: seq<Action>)
    requires Shaped(s) && Grouped(s.o)
    ensures Grouped(Run(s, actions).o)
  {
    if actions != [] {
      RunGrouped(s, actions[..|actions| - 1]);
      StepGrouped(Run(s, actions[..|actions| - 1]), actions[|actions| - 1]);
    }
  }

  /**
  Group by group, in every run in which no group was taken early: the accepted decisions, in order, are cut where
  pendingMessages would cut their arrival times. The governor counts only some of them: see CountedAsBudgeted.
  */
  lemma OutboxFormsWhatWasCounted(now: int, window: int, slots: nat, callers: nat, actions: seq<Action>)
    requires window > 0
    requires !Run(Init(now, window, slots, callers), actions).o.log.early
    ensures var o := Run(Init(now, window, slots, callers), actions).o;
            && CountedGroups.Flat(Groups(o)) == o.log.accepted
            && Lengths(Groups(o)) == Windows.Sizes(o.log.acceptedAt, o.window)
  {
    RunGrouped(Init(now, window, slots, callers), actions);
  }

  // ---- the groups the budget counts --------------------------------------------------------------------------------

  datatype Arrival = Arrival(d: Decision, at: int)

  function TimeOf(a: Arrival): int { a.at }

  function Arrivals(ds: seq<Decision>, times: seq<int>): seq<Arrival>
    requires |ds| == |times|
  {
    seq(|ds|, i requires 0 <= i < |ds| => Arrival(ds[i], times[i]))
  }

  function Decisions(arrivals: seq<Arrival>): seq<Decision> {
    seq(|arrivals|, i requires 0 <= i < |arrivals| => arrivals[i].d)
  }

  function DecisionsOf(groups: seq<seq<Arrival>>): seq<seq<Decision>> {
    seq(|groups|, k requires 0 <= k < |groups| => Decisions(groups[k]))
  }

  // store.go:309-351: what sendsToday counts of what goes out.
  predicate IsCounted(a: Arrival) {
    !a.d.candidate.severity.Critical? && !a.d.reason.Protective?
  }

  function Groupings(arrivals: seq<Arrival>, w: int): seq<seq<Arrival>> {
    CountedGroups.Cut(TimeOf, arrivals, w)
  }

  // One more arrival makes a group of one, or the last group longer by one, and the sizes say so.
  lemma OneMoreArrival(groups: seq<seq<Arrival>>, a: Arrival)
    ensures Lengths(DecisionsOf(groups + [[a]])) == Lengths(DecisionsOf(groups)) + [1]
    ensures groups != [] ==>
              Lengths(DecisionsOf(Windows.Front(groups) + [Windows.Last(groups) + [a]]))
              == Lengths(DecisionsOf(groups))[|groups| - 1 := |Windows.Last(groups)| + 1]
  {
  }

  lemma {:induction false} GroupingSizes(arrivals: seq<Arrival>, w: int)
    requires w > 0
    ensures Lengths(DecisionsOf(Groupings(arrivals, w))) == Windows.Sizes(CountedGroups.Times(TimeOf, arrivals), w)
  {
    if arrivals != [] {
      var front, a := Windows.Front(arrivals), Windows.Last(arrivals);
      GroupingSizes(front, w);
      OpeningsAgree(front, w);
      OneMoreArrival(Groupings(front, w), a);
      assert Windows.Front(CountedGroups.Times(TimeOf, arrivals)) == CountedGroups.Times(TimeOf, front);
    }
  }

  lemma OpeningsAgree(arrivals: seq<Arrival>, w: int)
    requires w > 0
    ensures var groups, starts := Groupings(arrivals, w), Windows.Starts(CountedGroups.Times(TimeOf, arrivals), w);
            |groups| == |starts| && (groups != [] ==> Windows.Last(groups) != [] && Windows.Last(groups)[0].at == Windows.Last(starts))
  {
    CountedGroups.CutCount(TimeOf, arrivals, w);
  }

  lemma {:induction false} DecisionsFlat(groups: seq<seq<Arrival>>)
    ensures CountedGroups.Flat(DecisionsOf(groups)) == Decisions(CountedGroups.Flat(groups))
  {
    if groups != [] {
      DecisionsFlat(Windows.Front(groups));
      assert Windows.Front(DecisionsOf(groups)) == DecisionsOf(Windows.Front(groups));
    }
  }

  // One list is cut into groups of these sizes in one way only.
  lemma {:induction false} SizesDecide(groups: seq<seq<Decision>>, groups': seq<seq<Decision>>)
    requires CountedGroups.Flat(groups) == CountedGroups.Flat(groups') && Lengths(groups) == Lengths(groups')
    ensures groups == groups'
  {
    assert |groups| == |Lengths(groups)| == |groups'|;
    if groups != [] {
      var n := |groups| - 1;
      var front, front' := CountedGroups.Flat(groups[..n]), CountedGroups.Flat(groups'[..n]);
      assert |groups[n]| == Lengths(groups)[n] == Lengths(groups')[n] == |groups'[n]|;
      assert (front + groups[n])[..|front|] == front && (front' + groups'[n])[..|front'|] == front';
      assert (front + groups[n])[|front|..] == groups[n] && (front' + groups'[n])[|front'|..] == groups'[n];
      assert Lengths(groups[..n]) == Lengths(groups)[..n] == Lengths(groups'[..n]);
      SizesDecide(groups[..n], groups'[..n]);
      assert groups == groups[..n] + [groups[n]] && groups' == groups'[..n] + [groups'[n]];
    }
  }

  /**
  The groups the outbox formed are the cut of all it accepted. Without the decisions the budget does not count, they
  are the messages the budget counts if and only if the first counted ones of neighbouring groups are a window apart;
  that is so when no group opens with one that is not counted. They are never fewer.
  */
  lemma CountedAsBudgeted(now: int, window: int, slots: nat, callers: nat, actions: seq<Action>)
    requires window > 0
    requires !Run(Init(now, window, slots, callers), actions).o.log.early
    ensures var o := Run(Init(now, window, slots, callers), actions).o;
            && o.window > 0 && |o.log.accepted| == |o.log.acceptedAt|
            && FormsWhatIsBudgeted(o, Arrivals(o.log.accepted, o.log.acceptedAt))
  {
    RunGrouped(Init(now, window, slots, callers), actions);
    GroupsAreTheCut(Run(Init(now, window, slots, callers), actions).o);
  }

  lemma GroupsAreTheCut(o: Shared)
    requires Grouped(o) && !o.log.early
    ensures FormsWhatIsBudgeted(o, Arrivals(o.log.accepted, o.log.acceptedAt))
  {
    var arrivals := Arrivals(o.log.accepted, o.log.acceptedAt);
    SameGroups(o, Groupings(arrivals, o.window));
    BudgetedParts(o, arrivals);
  }

  lemma SameGroups(o: Shared, groups: seq<seq<Arrival>>)
    requires Grouped(o) && !o.log.early && groups == Groupings(Arrivals(o.log.accepted, o.log.acceptedAt), o.window)
    ensures DecisionsOf(groups) == Groups(o)
  {
    var arrivals := Arrivals(o.log.accepted, o.log.acceptedAt);
    assert Lengths(DecisionsOf(groups)) == Windows.Sizes(o.log.acceptedAt, o.window) by {
      GroupingSizes(arrivals, o.window);
      assert CountedGroups.Times(TimeOf, arrivals) == o.log.acceptedAt;
    }
    assert CountedGroups.Flat(groups) == arrivals by { CountedGroups.CutShape(TimeOf, arrivals, o.window); }
    DecisionsFlat(groups);
    assert Decisions(arrivals) == o.log.accepted;
    SizesDecide(DecisionsOf(groups), Groups(o));
  }

  ghost predicate FormsWhatIsBudgeted(o: Shared, arrivals: seq<Arrival>)
    requires o.window > 0
  {
    var counted := CountedGroups.Counted(IsCounted, arrivals);
    var groups, messages := Groupings(arrivals, o.window), CountedGroups.CountedIn(IsCounted, Groupings(arrivals, o.window));
    && DecisionsOf(groups) == Groups(o)
    && (messages == Groupings(counted, o.window) <==> CountedGroups.Apart(TimeOf, messages, o.window))
    && (CountedGroups.OpenCounted(IsCounted, groups) ==> messages == Groupings(counted, o.window))
    && |Windows.Starts(CountedGroups.Times(TimeOf, counted), o.window)| == |Groupings(counted, o.window)| <= |messages|
  }

  lemma BudgetedParts(o: Shared, arrivals: seq<Arrival>)
    requires o.window > 0 && CountedGroups.Ordered(TimeOf, arrivals)
    requires DecisionsOf(Groupings(arrivals, o.window)) == Groups(o)
    ensures FormsWhatIsBudgeted(o, arrivals)
  {
    CountedGroups.CountedCut(TimeOf, IsCounted, arrivals, o.window);
    if CountedGroups.OpenCounted(IsCounted, Groupings(arrivals, o.window)) {
      CountedGroups.OpenedByCounted(TimeOf, IsCounted, arrivals, o.window);
    }
    CountedGroups.CutCount(TimeOf, CountedGroups.Counted(IsCounted, arrivals), o.window);
    CountedGroups.CountedNeedsNoMore(TimeOf, IsCounted, arrivals, o.window);
  }

  // ---- groups taken early --------------------------------------------------------------------------------------------

  // The k-th of the decisions accepted together takes a group whose window is open.
  predicate ForcesGroup(o: Shared, ds: seq<Decision>, k: nat)
    requires k < |ds|
  {
    IsProtectiveCritical(ds[k].candidate) || |AcceptAll(o, ds[..k]).0.buf| >= MAX_BUFFERED
  }

  lemma SubmitEarly(o: Shared, d: Decision)
    requires o.window > 0 && !o.log.early && SubmitShared(o, d).log.early
    ensures IsProtectiveCritical(d.candidate) || o.closed || |o.buf| >= MAX_BUFFERED
  {
  }

  lemma EntryEarly(s: State, a: Action)
    requires Shaped(s) && IsEntry(a) && s.o.window > 0 && !s.o.log.early && EntryStep(s, a).o.log.early
    ensures a.AAccept? || a.ASubmit?
    ensures a.AAccept? ==> exists k | 0 <= k < |a.ds| :: ForcesGroup(s.o, a.ds, k)
    ensures a.ASubmit? ==> IsProtectiveCritical(a.d.candidate) || s.o.closed || |s.o.buf| >= MAX_BUFFERED
  {
    match a {
      case AClock(to) =>
      case AAccept(ds) => AcceptEarly(s.o, ds);
      case ASubmit(c, d) => SubmitEarly(s.o, d);
    }
  }

  lemma TakeDueEarly(s: State)
    requires Shaped(s) && s.o.window > 0 && !s.o.log.early
    ensures !TakeDue(s).o.log.early
  {
  }

  /** A group is taken early only for a full buffer, a protective Critical, or a stop. */
  lemma EarlyOnlyWhen(s: State, a: Action)
    requires Shaped(s) && s.o.window > 0 && !s.o.log.early && Step(s, a).o.log.early
    ensures a.AAccept? || a.ASubmit? || a.AClose?
    ensures a.AAccept? ==> exists k | 0 <= k < |a.ds| :: ForcesGroup(s.o, a.ds, k)
    ensures a.ASubmit? ==> IsProtectiveCritical(a.d.candidate) || s.o.closed || |s.o.buf| >= MAX_BUFFERED
  {
    if IsEntry(a) { EntryEarly(s, a); }
    else if a.ATakeDue? { TakeDueEarly(s); }
    else if IsOther(a) { OtherStepsSame(s, a); }
  }

  lemma {:induction false} AcceptEarly(o: Shared, ds: seq<Decision>)
    requires o.window > 0 && !o.log.early && AcceptAll(o, ds).0.log.early
    ensures exists k | 0 <= k < |ds| :: ForcesGroup(o, ds, k)
  {
    var n := |ds| - 1;
    if AcceptAll(o, ds[..n]).0.log.early {
      AcceptEarly(o, ds[..n]);
      var k :| 0 <= k < n && ForcesGroup(o, ds[..n], k);
      assert ds[..n][..k] == ds[..k];
      assert ForcesGroup(o, ds, k);
    } else {
      WindowKept(o, ds[..n]);
      assert ForcesGroup(o, ds, n);
    }
  }

  lemma LockedWindow(o: Shared, d: Decision)
    ensures AcceptLocked(o, d).0.window == o.window
  {
    assert Buffer(o, d).window == o.window;
    assert Escort(Buffer(o, d), d).window == o.window;
  }

  lemma {:induction false} WindowKept(o: Shared, ds: seq<Decision>)
    ensures AcceptAll(o, ds).0.window == o.window
  {
    if ds != [] {
      WindowKept(o, ds[..|ds| - 1]);
      LockedWindow(AcceptAll(o, ds[..|ds| - 1]).0, ds[|ds| - 1]);
    }
  }
}
