/**
The two promises of OutboxLanes broken, on runs that only accept, send and tick, with every delivery inside its timeout.
The protective lane takes at most 64 decisions of its pending group (handoff.go:608-623), and what is left can be
without the protective decision that brought it there; the lane then sends those ordinary decisions whatever their
age, and a failed one goes back to the ordinary lane past its slot check.
*/
module OutboxFindings {
  import opened Wrappers
  import opened Attention
  import opened OutboxSpec
  import opened OutboxBounds
  import opened OutboxLanes

  // ---- the decisions accepted -----------------------------------------------------------------------------------

  function Plain(i: nat, t: int): Decision {
    Decision(i, Notify, Template, Candidate(seq(i, k => 'k'), Warning, false, false, false, false, 0), Some(t))
  }

  function Alarm(id: nat, t: int): Decision {
    Decision(id, Escalate, Reason.Protective, Candidate("", Critical, true, false, false, false, 0), Some(t))
  }

  function Plains(from: nat, n: nat, t: int): seq<Decision> {
    seq(n, i requires 0 <= i < n => Plain(from + i, t))
  }

  // 63 ordinary decisions, and the alarm that takes them to its lane.
  function Burst(from: nat, t: int): seq<Decision> {
    Plains(from, 63, t) + [Alarm(from, t)]
  }

  lemma {:induction false} PlainsBuffered(o: Shared, from: nat, n: nat, t: int)
    requires o.buf == [] && !o.closed && n <= 63
    ensures var o' := AcceptAll(o, Plains(from, n, t)).0;
            SameLanes(o, o') && o'.prot == o.prot && o'.buf == Plains(from, n, t) && (n > 0 ==> o'.windowStart == o.now)
            && o'.window == o.window
  {
    if n > 0 {
      var ds := Plains(from, n, t);
      assert ds[..n - 1] == Plains(from, n - 1, t);
      PlainsBuffered(o, from, n - 1, t);
      assert ds == ds[..n - 1] + [ds[n - 1]] && ds[n - 1] == Plain(from + n - 1, t);
      assert !MustTake(AcceptAll(o, ds[..n - 1]).0);
    }
  }

  lemma BurstQueued(o: Shared, from: nat, t: int)
    requires o.buf == [] && !o.closed
    ensures var o' := AcceptAll(o, Burst(from, t)).0;
            SameLanes(o, o') && o'.prot == AddAllTo(o.prot, Burst(from, t)).0 && o'.buf == []
  {
    var ds := Burst(from, t);
    assert ds[..63] == Plains(from, 63, t);
    PlainsBuffered(o, from, 63, t);
    var o1 := AcceptAll(o, ds[..63]).0;
    assert Buffer(o1, Alarm(from, t)).buf == ds;
  }

  lemma FreshSlot(prot: seq<Decision>, key: string)
    requires forall i | 0 <= i < |prot| :: prot[i].candidate.key != key
    ensures SlotOf(prot, key) == |prot|
  {
  }

  predicate ShortKeys(prot: seq<Decision>, n: nat) {
    forall i | 0 <= i < |prot| :: |prot[i].candidate.key| < n
  }

  lemma PlainJoins(prot: seq<Decision>, i: nat, t: int)
    requires ShortKeys(prot, i)
    ensures AddTo(prot, Plain(i, t)).0 == prot + [Plain(i, t)]
    ensures ShortKeys(prot + [Plain(i, t)], i + 1)
  {
    assert |Plain(i, t).candidate.key| == i;
    FreshSlot(prot, Plain(i, t).candidate.key);
  }

  lemma {:induction false} PlainsJoin(prot: seq<Decision>, from: nat, n: nat, t: int)
    requires ShortKeys(prot, from)
    ensures AddAllTo(prot, Plains(from, n, t)).0 == prot + Plains(from, n, t)
    ensures ShortKeys(prot + Plains(from, n, t), from + n)
  {
    if n == 0 {
      assert prot + Plains(from, n, t) == prot;
    } else {
      var ds := Plains(from, n, t);
      assert ds[..n - 1] == Plains(from, n - 1, t);
      PlainsJoin(prot, from, n - 1, t);
      PlainJoins(prot + ds[..n - 1], from + n - 1, t);
      assert prot + ds == prot + ds[..n - 1] + [Plain(from + n - 1, t)];
    }
  }

  // What is pending after n bursts.
  function Queued(n: nat, t: int): seq<Decision>
    requires n > 0
  {
    Plains(1, 63, t) + [Alarm(1 + 63 * (n - 1), t)] + Plains(64, 63 * (n - 1), t)
  }

  lemma FirstBurst(t: int)
    ensures AddAllTo([], Burst(1, t)).0 == Queued(1, t)
  {
    var ds := Burst(1, t);
    assert ds[..63] == Plains(1, 63, t);
    PlainsJoin([], 1, 63, t);
    FreshSlot(Plains(1, 63, t), "");
  }

  lemma QueuedKeys(n: nat, t: int)
    requires n > 0
    ensures ShortKeys(Queued(n, t), 1 + 63 * n)
  {
    var q := Queued(n, t);
    forall i | 0 <= i < |q| ensures |q[i].candidate.key| < 1 + 63 * n {
      if i < 63 {
        assert q[i] == Plain(1 + i, t);
      } else if i > 63 {
        assert q[i] == Plain(i, t);
      }
    }
  }

  lemma SlotIs(all: seq<Decision>, k: nat, t: int)
    requires k < |all| && all[k].candidate.key == ""
    requires forall i | 0 <= i < k :: all[i] == Plain(1 + i, t)
    ensures SlotOf(all, "") == k
  {
    forall i | 0 <= i < k ensures all[i].candidate.key != "" {
      assert |Plain(1 + i, t).candidate.key| == 1 + i;
    }
  }

  // The next alarm replaces the one before it where it stands, and what it brings comes at the end.
  lemma NextBurst(n: nat, t: int)
    requires n > 0
    ensures AddAllTo(Queued(n, t), Burst(1 + 63 * n, t)).0 == Queued(n + 1, t)
  {
    var from := 1 + 63 * n;
    var ds, all := Burst(from, t), Queued(n, t) + Plains(from, 63, t);
    assert ds[..63] == Plains(from, 63, t);
    QueuedKeys(n, t);
    PlainsJoin(Queued(n, t), from, 63, t);
    SlotIs(all, 63, t);
    assert all[63 := Alarm(from, t)] == Queued(n + 1, t);
  }

  // ---- runs -----------------------------------------------------------------------------------------------------------

  // Whatever is at the deliverer was given to it, by the last try of its lane, no longer ago than a delivery may take.
  predicate InTime(s: State) {
    forall i | 0 <= i < |s.hands| && s.hands[i].Sending? :: Begun(s.o.log.tries, i, s.o.now - DELIVER_TIMEOUT - BOOKKEEP_TIMEOUT)
  }

  // The last try of the lane began at this time or later.
  predicate Begun(tries: seq<Try>, lane: nat, since: int) {
    tries != [] && var t := tries[|tries| - 1]; if t.lane == lane then t.at >= since else Begun(tries[..|tries| - 1], lane, since)
  }

  predicate InTimeAt(s: State, actions: seq<Action>, k: nat)
    requires Shaped(s) && k <= |actions|
  {
    InTime(Run(s, actions[..k]))
  }

  // Every state of the run is in time, so every answer of the deliverer comes within its timeout.
  ghost predicate Timely(s: State, actions: seq<Action>)
    requires Shaped(s)
  {
    forall k | 0 <= k <= |actions| :: InTimeAt(s, actions, k)
  }

  lemma TimelyConcat(s: State, a: seq<Action>, b: seq<Action>)
    requires Shaped(s) && Timely(s, a) && Timely(Run(s, a), b)
    ensures Timely(s, a + b) && Run(s, a + b) == Run(Run(s, a), b)
  {
    hide Step;
    RunConcat(s, a, b);
    forall k | 0 <= k <= |a + b| ensures InTimeAt(s, a + b, k) {
      if k <= |a| {
        assert (a + b)[..k] == a[..k];
        assert InTimeAt(s, a, k);
      } else {
        assert (a + b)[..k] == a + b[..k - |a|];
        RunConcat(s, a, b[..k - |a|]);
        assert InTimeAt(Run(s, a), b, k - |a|);
      }
    }
  }

  lemma TimelyAnd(s: State, acts: seq<Action>, a: Action)
    requires Shaped(s) && Timely(s, acts) && InTime(Step(Run(s, acts), a))
    ensures Timely(s, acts + [a])
  {
    hide Step;
    forall k | 0 <= k <= |acts + [a]| ensures InTimeAt(s, acts + [a], k) {
      if k <= |acts| {
        assert (acts + [a])[..k] == acts[..k];
        assert InTimeAt(s, acts, k);
      } else {
        assert (acts + [a])[..k] == acts + [a];
        RunLast(s, acts, a);
      }
    }
  }

  lemma TimelyNone(s: State)
    requires Shaped(s) && InTime(s)
    ensures Timely(s, []) && Run(s, []) == s
  {
    var none: seq<Action> := [];
    assert none[..0] == none;
    assert InTimeAt(s, none, 0);
  }

  lemma TimelyTwo(s: State, a: Action, b: Action)
    requires Shaped(s) && InTime(s) && InTime(Step(s, a)) && InTime(Step(Step(s, a), b))
    ensures Timely(s, [a, b]) && Run(s, [a, b]) == Step(Step(s, a), b)
  {
    hide Step;
    TimelyNone(s);
    TimelyAnd(s, [], a);
    assert [] + [a] == [a];
    RunLast(s, [], a);
    TimelyAnd(s, [a], b);
    assert [a] + [b] == [a, b];
    RunLast(s, [a], b);
  }

  lemma TimelyThree(s: State, a: Action, b: Action, c: Action)
    requires Shaped(s) && InTime(s) && InTime(Step(s, a)) && InTime(Step(Step(s, a), b)) && InTime(Step(Step(Step(s, a), b), c))
    ensures Timely(s, [a, b, c]) && Run(s, [a, b, c]) == Step(Step(Step(s, a), b), c)
  {
    hide Step;
    TimelyTwo(s, a, b);
    TimelyAnd(s, [a, b], c);
    assert [a, b] + [c] == [a, b, c];
    RunLast(s, [a, b], c);
  }

  // ---- bursts -----------------------------------------------------------------------------------------------------------

  predicate NobodySends(s: State) {
    forall i | 0 <= i < |s.hands| :: !s.hands[i].Sending?
  }

  ghost predicate Ready(s: State, t: int) {
    && Shaped(s) && s.hands[PROTECTIVE].Idle? && s.hands[RUNNER].Idle? && NobodySends(s)
    && s.o.now == t && !s.o.closed
    && s.o.buf == [] && s.o.prot == [] && s.o.retries == [] && s.o.protRetry == []
  }

  function Bursts(n: nat, t: int): seq<Action> {
    seq(n, i requires 0 <= i < n => AAccept(Burst(1 + 63 * i, t)))
  }

  predicate SameQueues(o: Shared, o': Shared) {
    o'.ord == o.ord && o'.retries == o.retries && o'.protRetry == o.protRetry && o'.buf == o.buf && o'.closed == o.closed
    && o'.ordSlots == o.ordSlots
  }

  // After n bursts from s.
  predicate Waits(s: State, s': State, n: nat, t: int) {
    && s'.hands == s.hands && SameQueues(s.o, s'.o) && s'.o.now == t
    && s'.o.prot == if n == 0 then [] else Queued(n, t)
  }

  lemma BurstWaits(s: State, s1: State, n: nat, t: int)
    requires Ready(s, t) && Waits(s, s1, n, t)
    ensures Waits(s, Step(s1, AAccept(Burst(1 + 63 * n, t))), n + 1, t)
  {
    BurstQueued(s1.o, 1 + 63 * n, t);
    if n == 0 { FirstBurst(t); } else { NextBurst(n, t); }
  }

  // After k bursts from s, the action is one more.
  ghost predicate Adds(s: State, a: Action, k: nat, t: int) {
    forall s1 | Shaped(s1) && Waits(s, s1, k, t) :: Waits(s, Step(s1, a), k + 1, t)
  }

  lemma OneAdded(s: State, front: seq<Action>, a: Action, n: nat, t: int)
    requires Ready(s, t) && Adds(s, a, n, t) && Waits(s, Run(s, front), n, t) && Timely(s, front)
    ensures Waits(s, Run(s, front + [a]), n + 1, t) && Timely(s, front + [a])
  {
    hide Step;
    RunLast(s, front, a);
    TimelyAnd(s, front, a);
  }

  lemma {:induction false} AddedOn(s: State, acts: seq<Action>, t: int)
    requires Ready(s, t) && forall k | 0 <= k < |acts| :: Adds(s, acts[k], k, t)
    ensures Waits(s, Run(s, acts), |acts|, t) && Timely(s, acts)
  {
    hide Step;
    if acts == [] {
      TimelyNone(s);
    } else {
      var n := |acts| - 1;
      AddedOn(s, acts[..n], t);
      OneAdded(s, acts[..n], acts[n], n, t);
      assert acts[..n] + [acts[n]] == acts;
    }
  }

  lemma BurstsWait(s: State, n: nat, t: int)
    requires Ready(s, t)
    ensures Waits(s, Run(s, Bursts(n, t)), n, t) && Timely(s, Bursts(n, t))
  {
    var acts := Bursts(n, t);
    forall k | 0 <= k < n ensures Adds(s, acts[k], k, t) {
      forall s1 | Shaped(s1) && Waits(s, s1, k, t) ensures Waits(s, Step(s1, acts[k]), k + 1, t) {
        BurstWaits(s, s1, k, t);
      }
    }
    AddedOn(s, acts, t);
  }

  // ---- the protective lane at work ----------------------------------------------------------------------------------------

  // In s, which s0 led to, the protective lane began at t to send these decisions.
  predicate Busy(s0: State, s: State, t: int, sent: seq<Decision>) {
    && Shaped(s) && |s.hands| == |s0.hands|
    && (forall i | 0 <= i < |s.hands| && i != PROTECTIVE :: s.hands[i] == s0.hands[i] && !s.hands[i].Sending?)
    && s.hands[PROTECTIVE].Sending? && s.hands[PROTECTIVE] == Sending(Message(s.hands[PROTECTIVE].m.id, sent), 0, None, Idle)
    && SameQueues(s0.o, s.o) && s.o.now == t
    && s.o.log.tries != [] && s.o.log.tries[|s.o.log.tries| - 1] == Try(PROTECTIVE, t, s.hands[PROTECTIVE].m)
  }

  function Start(t: int): seq<Action> {
    [APopProtective, AClock(t), ABegin(PROTECTIVE)]
  }

  // The lane has what is next.
  function Taken(s: State): State
    requires Shaped(s)
  {
    Set(s, PROTECTIVE, Holding(Group(NextGroup(s.o)), Idle), TakeGroup(s.o))
  }

  // It is sending that.
  function Sent(s: State): State
    requires Shaped(s)
  {
    Set(s, PROTECTIVE, Sending(ItsMessage(s), 0, None, Idle),
        CountTry(NewMessage(TakeGroup(s.o), NextGroup(s.o)), PROTECTIVE, ItsMessage(s)))
  }

  lemma TakenThenSent(s: State)
    requires Shaped(s) && s.hands[PROTECTIVE].Idle? && s.o.prot != []
    ensures Step(s, APopProtective) == Taken(s) && Step(Taken(s), AClock(s.o.now)) == Taken(s)
    ensures Step(Taken(s), ABegin(PROTECTIVE)) == Sent(s)
  {
  }

  lemma SentIsBusy(s0: State, s: State)
    requires Shaped(s) && |s.hands| == |s0.hands| && NobodySends(s) && SameQueues(s0.o, s.o)
    requires forall i | 0 <= i < |s.hands| && i != PROTECTIVE :: s.hands[i] == s0.hands[i]
    ensures Busy(s0, Sent(s), s.o.now, NextGroup(s.o)) && Sent(s).o.prot == TakeGroup(s.o).prot
    ensures InTime(s) && InTime(Taken(s)) && InTime(Sent(s))
  {
  }

  // The lane takes what is next and begins to send it.
  lemma NextIsSent(s0: State, s: State, t: int)
    requires Shaped(s) && |s.hands| == |s0.hands| && NobodySends(s) && s.hands[PROTECTIVE].Idle? && s.o.prot != []
    requires forall i | 0 <= i < |s.hands| && i != PROTECTIVE :: s.hands[i] == s0.hands[i]
    requires SameQueues(s0.o, s.o) && s.o.now == t
    ensures Busy(s0, Run(s, Start(t)), t, NextGroup(s.o)) && Run(s, Start(t)).o.prot == TakeGroup(s.o).prot
    ensures Timely(s, Start(t))
  {
    TakenThenSent(s);
    SentIsBusy(s0, s);
    TimelyThree(s, APopProtective, AClock(t), ABegin(PROTECTIVE));
  }

  function Finish(later: int): seq<Action> {
    [AClock(later), ADelivered(PROTECTIVE, true)]
  }

  lemma BusyInTime(s0: State, s: State, t: int, sent: seq<Decision>, later: int)
    requires Busy(s0, s, t, sent) && t <= later <= t + DELIVER_TIMEOUT + BOOKKEEP_TIMEOUT
    ensures InTime(s) && InTime(Step(s, AClock(later)))
  {
  }

  // What it sends is taken, in time.
  lemma ItIsTaken(s0: State, s: State, t: int, sent: seq<Decision>, later: int)
    requires Busy(s0, s, t, sent) && t <= later <= t + DELIVER_TIMEOUT + BOOKKEEP_TIMEOUT
    ensures var s' := Run(s, Finish(later));
            && Shaped(s') && |s'.hands| == |s0.hands| && NobodySends(s') && s'.hands[PROTECTIVE].Idle?
            && (forall i | 0 <= i < |s'.hands| && i != PROTECTIVE :: s'.hands[i] == s0.hands[i])
            && SameQueues(s0.o, s'.o) && s'.o.now == later && s'.o.prot == s.o.prot
    ensures Timely(s, Finish(later))
  {
    BusyInTime(s0, s, t, sent, later);
    TimelyTwo(s, AClock(later), ADelivered(PROTECTIVE, true));
  }

  function Turn(later: int): seq<Action> {
    Finish(later) + Start(later)
  }

  lemma TurnIsTaken(s0: State, s: State, t: int, sent: seq<Decision>, later: int)
    requires Busy(s0, s, t, sent) && t <= later <= t + DELIVER_TIMEOUT + BOOKKEEP_TIMEOUT && s.o.prot != []
    ensures Busy(s0, Run(s, Turn(later)), later, NextGroup(s.o)) && Run(s, Turn(later)).o.prot == TakeGroup(s.o).prot
    ensures Timely(s, Turn(later))
  {
    ItIsTaken(s0, s, t, sent, later);
    NextIsSent(s0, Run(s, Finish(later)), later);
    TimelyConcat(s, Finish(later), Start(later));
  }

  // n bursts, of which the lane sends the first 64 decisions.
  function Crowd(n: nat, t: int): seq<Action> {
    Bursts(n, t) + Start(t)
  }

  lemma CrowdIsSent(s: State, n: nat, t: int)
    requires Ready(s, t) && n > 0
    ensures var s' := Run(s, Crowd(n, t));
            Busy(s, s', t, NextGroup(s'.o.(prot := Queued(n, t)))) && s'.o.prot == Plains(64, 63 * (n - 1), t)
    ensures Timely(s, Crowd(n, t))
  {
    BurstsWait(s, n, t);
    var s1 := Run(s, Bursts(n, t));
    NextIsSent(s, s1, t);
    TimelyConcat(s, Bursts(n, t), Start(t));
    assert Queued(n, t)[64..] == Plains(64, 63 * (n - 1), t);
  }

  // ---- an ordinary message past maxQueueAge ---------------------------------------------------------------------------

  const SLOWEST := DELIVER_TIMEOUT + BOOKKEEP_TIMEOUT

  // n steps of this length after t.
  function Until(n: nat, t: int, length: int): int {
    if n == 0 then t else Until(n - 1, t, length) + length
  }

  // The slowest deliveries there can be, one group of what is left after the other.
  function Turns(k: nat, t: int): seq<Action> {
    if k == 0 then [] else Turns(k - 1, t) + Turn(Until(k, t, SLOWEST))
  }

  function Left5(k: nat, t: int): seq<Decision>
    requires k <= 3
  {
    Plains(64 + 64 * k, 252 - 64 * k, t)
  }

  predicate AfterTurns(s0: State, s: State, k: nat, t: int) {
    && Shaped(s) && s.hands[PROTECTIVE].Sending? && Busy(s0, s, Until(k, t, SLOWEST), s.hands[PROTECTIVE].m.decisions)
    && (k <= 3 ==> s.o.prot == Left5(k, t))
    && (k == 4 ==> s.hands[PROTECTIVE].m.decisions == Plains(256, 60, t))
  }

  lemma OneMoreTurn(s0: State, s: State, k: nat, t: int)
    requires k <= 3 && AfterTurns(s0, s, k, t)
    ensures AfterTurns(s0, Run(s, Turn(Until(k + 1, t, SLOWEST))), k + 1, t)
    ensures Timely(s, Turn(Until(k + 1, t, SLOWEST)))
  {
    TurnIsTaken(s0, s, Until(k, t, SLOWEST), s.hands[PROTECTIVE].m.decisions, Until(k + 1, t, SLOWEST));
    if k < 3 {
      assert TakeGroup(s.o).prot == Left5(k + 1, t);
    } else {
      assert NextGroup(s.o) == Plains(256, 60, t);
    }
  }

  lemma NextTurnIsTaken(s0: State, s: State, front: seq<Action>, k: nat, t: int)
    requires k <= 3 && Shaped(s) && AfterTurns(s0, Run(s, front), k, t) && Timely(s, front)
    ensures var all := front + Turn(Until(k + 1, t, SLOWEST)); AfterTurns(s0, Run(s, all), k + 1, t) && Timely(s, all)
  {
    OneMoreTurn(s0, Run(s, front), k, t);
    TimelyConcat(s, front, Turn(Until(k + 1, t, SLOWEST)));
  }

  lemma {:induction false} TurnsAreTaken(s0: State, s: State, k: nat, t: int)
    requires k <= 4 && AfterTurns(s0, s, 0, t)
    ensures AfterTurns(s0, Run(s, Turns(k, t)), k, t) && Timely(s, Turns(k, t))
  {
    hide Step;
    if k == 0 {
      BusyInTime(s0, s, t, s.hands[PROTECTIVE].m.decisions, t);
      TimelyNone(s);
    } else {
      TurnsAreTaken(s0, s, k - 1, t);
      NextTurnIsTaken(s0, s, Turns(k - 1, t), k - 1, t);
    }
  }

  lemma PlainsAreOrdinary(from: nat, n: nat, t: int)
    ensures !HasProtective(Plains(from, n, t))
  {
    forall d | d in Plains(from, n, t) ensures !IsProtective(d) {
      var i :| 0 <= i < n && Plains(from, n, t)[i] == d;
      assert d == Plain(from + i, t);
    }
  }

  lemma InitReady(now: int, window: int, slots: nat, callers: nat)
    ensures Ready(Init(now, window, slots, callers), now)
  {
  }

  // Five bursts, and five deliveries of which none is late.
  function Overload(t: int): seq<Action> {
    Crowd(5, t) + Turns(4, t)
  }

  // The last message begun was one of the protective lane's, ordinary and past maxQueueAge.
  predicate SendsOld(s: State) {
    s.o.log.tries != [] && var t := s.o.log.tries[|s.o.log.tries| - 1]; t.lane == PROTECTIVE && !FreshTry(t)
  }

  lemma LastIsOld(s0: State, s: State, t: int)
    requires AfterTurns(s0, s, 4, t)
    ensures SendsOld(s)
  {
    PlainsAreOrdinary(256, 60, t);
    assert Plains(256, 60, t)[0] == Plain(256, t) && Plain(256, t) in Plains(256, 60, t);
    assert Until(1, t, SLOWEST) == t + SLOWEST && Until(2, t, SLOWEST) == t + 2 * SLOWEST;
    assert Until(4, t, SLOWEST) == Until(2, t, SLOWEST) + 2 * SLOWEST;
    assert TooLate(Plain(256, t), Until(4, t, SLOWEST));
  }

  lemma CrowdIsOld(s0: State, crowd: seq<Action>, t: int)
    requires Ready(s0, t) && crowd == Crowd(5, t)
    ensures SendsOld(Run(s0, crowd + Turns(4, t))) && Timely(s0, crowd + Turns(4, t))
  {
    CrowdIsSent(s0, 5, t);
    TurnsAreTaken(s0, Run(s0, crowd), 4, t);
    TimelyConcat(s0, crowd, Turns(4, t));
    LastIsOld(s0, Run(s0, crowd + Turns(4, t)), t);
  }

  /**
  A message of ordinary decisions that is begun after maxQueueAge, for any window and any number of slots, though
  every delivery on the way comes back within its timeout.
  */
  lemma OldOrdinaryMessageIsSent(now: int, window: int, slots: nat, callers: nat)
    ensures SendsOld(Run(Init(now, window, slots, callers), Overload(now)))
    ensures Timely(Init(now, window, slots, callers), Overload(now))
    ensures forall a | a in Overload(now) :: !a.ASubmit? && !a.AClose?
  {
    InitReady(now, window, slots, callers);
    CrowdIsOld(Init(now, window, slots, callers), Crowd(5, now), now);
    OverloadOnlyAccepts(now);
  }

  lemma {:induction false} TurnsOnlyAccept(k: nat, t: int)
    ensures forall a | a in Turns(k, t) :: !a.ASubmit? && !a.AClose?
  {
    if k > 0 { TurnsOnlyAccept(k - 1, t); }
  }

  lemma OverloadOnlyAccepts(t: int)
    ensures forall a | a in Overload(t) :: !a.ASubmit? && !a.AClose?
  {
    TurnsOnlyAccept(4, t);
  }

  // ---- an ordinary lane without a limit, and without its worker --------------------------------------------------------

  function Fail(t: int): seq<Action> {
    [ADelivered(PROTECTIVE, false), AClock(t + 30 * SECOND), ADueRetries]
  }

  lemma RestWaits(s: State, t: int, m: Message)
    requires Shaped(s) && m.decisions == Plains(64, 63, t) && s.hands[PROTECTIVE] == Sending(m, 0, None, Idle)
    requires s.o.retries == [] && !s.o.closed && s.o.now == t
    ensures Step(s, ADelivered(PROTECTIVE, false)) == State(Queue(s.o, Retry(m, 1, t + 30 * SECOND, None), 1), s.hands[PROTECTIVE := Idle])
  {
    PlainsAreOrdinary(64, 63, t);
    assert !PastLease(m.decisions, t + 30 * SECOND);
    assert NextRetry(m, 1, None, t) == Some(Retry(m, 1, t + 30 * SECOND, None));
  }

  lemma OneDue(r: Retry, now: int)
    requires r.due <= now && !HasProtective(r.m.decisions)
    ensures DueFor([r], now, false) == [r] && DueFor([r], now, true) == [] && Waiting([r], now) == []
  {
    var rs := [r];
    assert rs[..|rs| - 1] == [] && rs[|rs| - 1] == r;
  }

  lemma DueAlone(o: Shared, r: Retry)
    requires o.retries == [r] && r.due == o.now && !HasProtective(r.m.decisions)
    ensures HandOverDueRetries(o) == o.(retries := [], ord := o.ord + [RetryJob(r)])
  {
    OneDue(r, o.now);
    assert AsJobs([r]) == [RetryJob(r)];
    assert o.protRetry + [] == o.protRetry;
  }

  lemma RetryComesBack(s: State, r: Retry)
    requires Shaped(s) && s.hands[RUNNER].Idle? && s.o.now <= r.due
    requires s.o.retries == [r] && !HasProtective(r.m.decisions)
    ensures Step(s, AClock(r.due)) == State(s.o.(now := r.due), s.hands)
    ensures Step(Step(s, AClock(r.due)), ADueRetries) == State(s.o.(now := r.due, retries := [], ord := s.o.ord + [RetryJob(r)]), s.hands)
  {
    DueAlone(s.o.(now := r.due), r);
  }

  lemma RestSteps(s: State, t: int, m: Message)
    requires Shaped(s) && m.decisions == Plains(64, 63, t) && s.hands[PROTECTIVE] == Sending(m, 0, None, Idle)
    requires s.hands[RUNNER].Idle? && s.o.retries == [] && !s.o.closed && s.o.now == t
    ensures var r, s1 := Retry(m, 1, t + 30 * SECOND, None), Step(s, ADelivered(PROTECTIVE, false));
            && s1 == State(Queue(s.o, r, 1), s.hands[PROTECTIVE := Idle])
            && Step(s1, AClock(r.due)) == State(s1.o.(now := r.due), s1.hands)
            && Step(Step(s1, AClock(r.due)), ADueRetries)
               == State(s1.o.(now := r.due, retries := [], ord := s.o.ord + [RetryJob(r)]), s1.hands)
  {
    var r := Retry(m, 1, t + 30 * SECOND, None);
    RestWaits(s, t, m);
    PlainsAreOrdinary(64, 63, t);
    RetryComesBack(State(Queue(s.o, r, 1), s.hands[PROTECTIVE := Idle]), r);
  }

  lemma NobodyLate(s: State)
    requires NobodySends(s)
    ensures InTime(s)
  {
  }

  // The failed message comes back to the ordinary lane, which need not have a slot for it.
  lemma RestComesBack(s0: State, s: State, t: int)
    requires Ready(s0, t) && Busy(s0, s, t, Plains(64, 63, t)) && s.o.prot == []
    ensures Ready(Run(s, Fail(t)), t + 30 * SECOND) && |Run(s, Fail(t)).o.ord| == |s0.o.ord| + 1
    ensures Timely(s, Fail(t))
  {
    hide Step;
    var s1 := Step(s, ADelivered(PROTECTIVE, false));
    RestSteps(s, t, s.hands[PROTECTIVE].m);
    BusyInTime(s0, s, t, Plains(64, 63, t), t);
    NobodyLate(s1);
    NobodyLate(Step(s1, AClock(t + 30 * SECOND)));
    NobodyLate(Step(Step(s1, AClock(t + 30 * SECOND)), ADueRetries));
    TimelyThree(s, ADelivered(PROTECTIVE, false), AClock(t + 30 * SECOND), ADueRetries);
  }

  function Round(t: int): seq<Action> {
    Crowd(2, t) + Turn(t) + Fail(t)
  }

  lemma RoundGrows(s: State, t: int)
    requires Ready(s, t)
    ensures Ready(Run(s, Round(t)), t + 30 * SECOND) && |Run(s, Round(t)).o.ord| == |s.o.ord| + 1
    ensures Timely(s, Round(t))
  {
    CrowdIsSent(s, 2, t);
    var s1 := Run(s, Crowd(2, t));
    TurnIsTaken(s, s1, t, NextGroup(s1.o.(prot := Queued(2, t))), t);
    assert NextGroup(s1.o) == Plains(64, 63, t);
    var s2 := Run(s1, Turn(t));
    RestComesBack(s, s2, t);
    TimelyConcat(s, Crowd(2, t), Turn(t));
    TimelyConcat(s, Crowd(2, t) + Turn(t), Fail(t));
  }

  function Rounds(n: nat, t: int): seq<Action> {
    if n == 0 then [] else Rounds(n - 1, t) + Round(Until(n - 1, t, 30 * SECOND))
  }

  lemma RoundOnlyAccepts(t: int)
    ensures forall a | a in Round(t) :: !a.ASubmit? && !a.AClose?
  {
  }

  // After n rounds from s.
  ghost predicate Grown(s: State, rounds: seq<Action>, n: nat, t: int)
    requires Shaped(s)
  {
    Ready(Run(s, rounds), t) && |Run(s, rounds).o.ord| == n && Timely(s, rounds)
  }

  lemma RoundsGrow(s: State, front: seq<Action>, n: nat, t: int)
    requires Shaped(s) && Grown(s, front, n, t)
    ensures Grown(s, front + Round(t), n + 1, t + 30 * SECOND)
  {
    hide Step;
    RoundGrows(Run(s, front), t);
    TimelyConcat(s, front, Round(t));
  }

  lemma {:induction false} RoundsRun(s: State, n: nat, now: int)
    requires Ready(s, now) && s.o.ord == []
    ensures Grown(s, Rounds(n, now), n, Until(n, now, 30 * SECOND))
  {
    hide Step;
    if n == 0 {
      TimelyNone(s);
    } else {
      RoundsRun(s, n - 1, now);
      RoundsGrow(s, Rounds(n - 1, now), n - 1, Until(n - 1, now, 30 * SECOND));
    }
  }

  lemma {:induction false} RoundsOnlyAccept(n: nat, now: int)
    ensures forall a | a in Rounds(n, now) :: !a.ASubmit? && !a.AClose?
  {
    if n > 0 {
      RoundsOnlyAccept(n - 1, now);
      RoundOnlyAccepts(Until(n - 1, now, 30 * SECOND));
    }
  }

  /**
  However many slots there are, some run on the Accept path, with every delivery in time, makes the ordinary lane as
  long as one likes; over any interleaving, that is, for the ordinary worker does not run. OutboxFairRun has a run in
  which it does.
  */
  lemma OrdinaryLaneHasNoLimit(now: int, window: int, slots: nat, callers: nat, n: nat)
    ensures Grown(Init(now, window, slots, callers), Rounds(n, now), n, Until(n, now, 30 * SECOND))
    ensures forall a | a in Rounds(n, now) :: !a.ASubmit? && !a.AClose?
  {
    InitReady(now, window, slots, callers);
    RoundsRun(Init(now, window, slots, callers), n, now);
    RoundsOnlyAccept(n, now);
  }
}
