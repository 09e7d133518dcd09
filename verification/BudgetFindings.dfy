/**
A day on which the budget's count passes its limit although every group goes out whole. sendsToday (pkg/attention/
store.go:309-351) counts no Critical, but the outbox's window (handoff.go:322-345) opens with whatever comes first, so a
Critical can open a group that leaves out a Warning the governor let out because it would join the one before.
*/
module BudgetFindings {
  import opened Wrappers
  import opened Attention
  import opened Windows
  import opened Rules
  import opened GovernorSpec
  import opened Budget
  import O = OutboxSpec

  const WINDOW: nat := 60000
  const CONFIG := Config(ModeLive, WINDOW, 0, 0, false)

  // A day without anything in the way, and with no budget: one message, for a Warning.
  const OPEN_DAY := Env(false, None, true, 0, 0, 24 * HOUR, false, false, false)

  function Plain(key: string, severity: Severity): Candidate {
    Candidate(key, severity, false, false, false, false, 0)
  }

  function Sent(c: Candidate, at: int): Row {
    Row(c, at, Notify, Template, false, None, None)
  }

  const OPENER := Plain("c", Critical)
  const FIRST := Plain("a", Warning)
  const SECOND_ONE := Plain("b", Warning)

  function Log(now: int, rows: seq<Row>): State {
    Init(CONFIG, now).(rows := rows)
  }

  // What is decided, and what then goes out: the group that the Critical opened.
  function Events(k: nat): seq<Event> {
    if k == 0 then [] else Events(k - 1) + [EventAt(k)]
  }

  function EventAt(k: nat): Event {
    match k
    case 1 => Decided(OPENER, OPEN_DAY)
    case 2 => Passed(50 * SECOND)
    case 3 => Decided(FIRST, OPEN_DAY)
    case 4 => Passed(61 * SECOND)
    case 5 => Decided(SECOND_ONE, OPEN_DAY)
    case _ => Delivered([0, 1], 61 * SECOND, Named(0))
  }

  function StateAt(k: nat): State {
    match k
    case 0 => Log(0, [])
    case 1 => Log(0, [Sent(OPENER, 0)])
    case 2 => Log(50 * SECOND, [Sent(OPENER, 0)])
    case 3 => Log(50 * SECOND, [Sent(OPENER, 0), Sent(FIRST, 50 * SECOND)])
    case 4 => Log(61 * SECOND, [Sent(OPENER, 0), Sent(FIRST, 50 * SECOND)])
    case _ => Log(61 * SECOND, [Sent(OPENER, 0), Sent(FIRST, 50 * SECOND), Sent(SECOND_ONE, 61 * SECOND)])
  }

  lemma OneMore(rows: seq<Row>, r: Row, lease: int)
    ensures PendingTimes(rows + [r], lease) == PendingTimes(rows, lease) + if CountsPending(r, lease) then [r.at] else []
    ensures !r.delivered ==> DeliveredMessages(rows + [r], 0, 24 * HOUR) == DeliveredMessages(rows, 0, 24 * HOUR)
  {
    assert (rows + [r])[..|rows|] == rows;
  }

  predicate PendingIs(rows: seq<Row>, lease: int, times: seq<int>) {
    PendingTimes(rows, lease) == times && DeliveredMessages(rows, 0, 24 * HOUR) == {}
  }

  lemma NoRows(lease: int)
    ensures PendingIs([], lease, [])
  {
  }

  lemma RowsPending(lease: int)
    requires lease < 0
    ensures PendingIs([Sent(OPENER, 0)], lease, []) && PendingIs([Sent(OPENER, 0), Sent(FIRST, 50 * SECOND)], lease, [50 * SECOND])
    ensures PendingIs([Sent(OPENER, 0), Sent(FIRST, 50 * SECOND), Sent(SECOND_ONE, 61 * SECOND)], lease, [50 * SECOND, 61 * SECOND])
  {
    hide PendingTimes, DeliveredMessages;
    var c, a, b := Sent(OPENER, 0), Sent(FIRST, 50 * SECOND), Sent(SECOND_ONE, 61 * SECOND);
    NoRows(lease);
    OneMore([], c, lease);
    OneMore([c], a, lease);
    OneMore([c, a], b, lease);
    assert [] + [c] == [c] && [c] + [a] == [c, a] && [c, a] + [b] == [c, a, b];
  }

  lemma PendingAt(k: nat)
    requires k <= 5
    ensures var s := StateAt(k);
            PendingIs(s.rows, s.now - PENDING_LEASE, if k < 3 then [] else if k < 5 then [50 * SECOND] else [50 * SECOND, 61 * SECOND])
  {
    hide PendingIs;
    var lease := StateAt(k).now - PENDING_LEASE;
    RowsPending(lease);
    if k == 0 { assert PendingIs([], lease, []) by { NoRows(lease); } }
  }

  lemma OneOpens(t: int, u: int, w: int)
    requires 0 <= u - t < w
    ensures Starts([], w) == [] && Starts([t], w) == [t] && Starts([t, u], w) == [t]
  {
    assert Front([t]) == [] && Front([t, u]) == [t];
  }

  lemma StartsAt(k: nat)
    requires k <= 5
    ensures var s := StateAt(k);
            Starts(PendingTimes(s.rows, s.now - PENDING_LEASE), WINDOW) == if k < 3 then [] else [50 * SECOND]
    ensures MessageCount(StateAt(k), 0, 24 * HOUR) == if k < 3 then 0 else 1
  {
    PendingAt(k);
    OneOpens(50 * SECOND, 61 * SECOND, WINDOW);
  }

  lemma DecideNext(k: nat)
    requires k == 0 || k == 2 || k == 4
    ensures After(StateAt(k), EventAt(k + 1)) == StateAt(k + 1)
  {
    hide PendingTimes, DeliveredMessages, Starts;
    StartsAt(k);
  }

  lemma NextState(k: nat)
    requires k < 5
    ensures After(StateAt(k), EventAt(k + 1)) == StateAt(k + 1)
  {
    if k == 0 || k == 2 || k == 4 { DecideNext(k); }
  }

  lemma {:induction false} DayTo(k: nat)
    requires k <= 5
    ensures AfterAll(StateAt(0), Events(k)) == StateAt(k) && Day(StateAt(0), Events(k), 0, 0, 24 * HOUR)
  {
    if k > 0 {
      DayTo(k - 1);
      NextState(k - 1);
      assert Events(k)[..|Events(k)| - 1] == Events(k - 1) && Events(k)[|Events(k)| - 1] == EventAt(k);
    }
  }

  lemma TheGroupRaises(k: nat)
    requires k == 5
    ensures IsOverrun(StateAt(k), EventAt(k + 1), 0, 24 * HOUR)
  {
    var s, ids := StateAt(k), Members(EventAt(k + 1).ids);
    StartsAt(k);
    PendingAt(k);
    assert EventAt(k + 1).ids[1] == 1 && 1 in ids;
    assert Budgeted(s.rows[1]) && !s.rows[1].delivered;
    assert Remains(s, ids, 2) && s.rows[2].at == 61 * SECOND;
    assert IsTimeLeft(s, ids, 61 * SECOND);
    assert Spaced([61 * SECOND], WINDOW);
  }

  lemma GoesOut(s: State, e: Event)
    requires Timed(s.rows, s.now) && IsOverrun(s, e, 0, 24 * HOUR)
    ensures MessageCount(After(s, e), 0, 24 * HOUR) == MessageCount(s, 0, 24 * HOUR) + 1
  {
    ReportCost(s, e.ids, e.at, e.m, 0, 24 * HOUR);
  }

  lemma TheGroupGoesOut(k: nat)
    requires k == 5
    ensures MessageCount(After(StateAt(k), EventAt(k + 1)), 0, 24 * HOUR) == 2
  {
    StartsAt(k);
    TheGroupRaises(k);
    GoesOut(StateAt(k), EventAt(k + 1));
  }

  /** The day begins with no message and ends with two, where one is the limit. */
  lemma ACriticalOpensTheGroup()
    ensures Day(StateAt(0), Events(6), 0, 0, 24 * HOUR)
    ensures MessageCount(StateAt(0), 0, 24 * HOUR) == 0 && MessageCount(AfterAll(StateAt(0), Events(6)), 0, 24 * HOUR) == 2
  {
    DayTo(5);
    StartsAt(0);
    TheGroupGoesOut(5);
    LastEvent(StateAt(0), Events(5), EventAt(6));
    assert Events(6) == Events(5) + [EventAt(6)];
  }

  // Two Warnings of one window, and a protective Critical between them, which took the first to its lane at once.
  const ALARM := Row(Candidate("p", Critical, true, false, false, false, 0), 10 * SECOND, Notify, Reason.Protective, false, None, None)

  function Escorted(): State {
    Log(20 * SECOND, [Sent(FIRST, 0), ALARM, Sent(SECOND_ONE, 20 * SECOND)])
  }

  lemma EscortedCount(s: State)
    requires s == Escorted()
    ensures Starts(PendingTimes(s.rows, s.now - PENDING_LEASE), WINDOW) == [0] && MessageCount(s, 0, 24 * HOUR) == 1
  {
    var a, b, lease := Sent(FIRST, 0), Sent(SECOND_ONE, 20 * SECOND), 20 * SECOND - PENDING_LEASE;
    OneMore([], a, lease);
    OneMore([a], ALARM, lease);
    OneMore([a, ALARM], b, lease);
    assert [] + [a] == [a] && [a] + [ALARM] == [a, ALARM] && [a, ALARM] + [b] == [a, ALARM, b];
    OneOpens(0, 20 * SECOND, WINDOW);
  }

  lemma {:induction false} NoneDelivered(rows: seq<Row>)
    requires forall i | 0 <= i < |rows| :: !rows[i].delivered
    ensures DeliveredMessages(rows, 0, 24 * HOUR) == {}
  {
    if rows != [] {
      NoneDelivered(rows[..|rows| - 1]);
    }
  }

  lemma EscortedIsNew(s: State, ids: set<nat>)
    requires s == Escorted() && 0 in ids
    ensures NewMessage(s, ids, 20 * SECOND, Named(0), 0, 24 * HOUR)
  {
    hide DeliveredMessages;
    assert Budgeted(s.rows[0]) && !s.rows[0].delivered;
    NoneDelivered(s.rows);
  }

  lemma EscortedIsNeeded(s: State, ids: set<nat>)
    requires s == Escorted() && 2 !in ids
    ensures StillNeeded(s, ids)
  {
    hide PendingTimes, Starts, MessageCount;
    EscortedCount(s);
    assert Remains(s, ids, 2) && IsTimeLeft(s, ids, 20 * SECOND);
    assert Spaced([20 * SECOND], WINDOW);
  }

  lemma EscortedRaises(s: State, e: Event)
    requires s == Escorted() && e == Delivered([0, 1], 20 * SECOND, Named(0))
    ensures IsOverrun(s, e, 0, 24 * HOUR)
  {
    hide NewMessage, StillNeeded, Escorted;
    assert e.ids[0] == 0 && 0 in Members(e.ids) && 2 !in Members(e.ids);
    EscortedIsNew(s, Members(e.ids));
    EscortedIsNeeded(s, Members(e.ids));
  }

  /** A group taken early does the same: the alarm and the first Warning go out, and the second still needs a message. */
  lemma AnEarlyGroupRaises(s: State, e: Event)
    requires s == Escorted() && e == Delivered([0, 1], 20 * SECOND, Named(0))
    ensures MessageCount(s, 0, 24 * HOUR) == 1 && MessageCount(After(s, e), 0, 24 * HOUR) == 2
  {
    EscortedCount(s);
    EscortedRaises(s, e);
    GoesOut(s, e);
  }

  lemma LastEvent(s: State, events: seq<Event>, e: Event)
    ensures AfterAll(s, events + [e]) == After(AfterAll(s, events), e)
    ensures Day(s, events + [e], 0, 0, 24 * HOUR) <==> Day(s, events, 0, 0, 24 * HOUR) && Possible(AfterAll(s, events), e, 0, 0, 24 * HOUR)
  {
    assert (events + [e])[..|events|] == events;
  }

  // ---- the outbox on that day ------------------------------------------------------------------------------------------------

  function Handed(id: nat, c: Candidate, at: int): Decision {
    Decision(id, Notify, Template, c, Some(at))
  }

  // Each is handed over when it is decided.
  function Accepts(): seq<O.Action> {
    [O.AAccept([Handed(0, OPENER, 0)]), O.AClock(50 * SECOND), O.AAccept([Handed(1, FIRST, 50 * SECOND)]), O.AClock(61 * SECOND),
     O.AAccept([Handed(2, SECOND_ONE, 61 * SECOND)])]
  }

  lemma AcceptsOne(o: O.Shared, d: Decision)
    requires !o.closed && d.disposition.Sent()
    ensures O.AcceptAll(o, [d]).0 == O.AcceptLocked(o, d).0
  {
    assert [d][..0] == [];
  }

  // A decision that is not protective goes to the buffer, and what had to be taken before it to the ordinary lane.
  lemma AcceptsPlain(o: O.Shared, d: Decision)
    requires !o.closed && d.disposition.Sent() && !IsProtectiveCritical(d.candidate)
    ensures var o' := O.AcceptAll(o, [d]).0;
            && o'.now == o.now && o'.window == o.window && !o'.closed && o'.buf == O.Buffer(o, d).buf && o'.windowStart == O.Buffer(o, d).windowStart
            && o'.log.formed == O.Buffer(o, d).log.formed && o'.log.early == O.Buffer(o, d).log.early
  {
    AcceptsOne(o, d);
  }

  // The outbox at a time, with a group open since 0 and nothing formed.
  predicate Open(o: O.Shared, now: int, buf: seq<Decision>) {
    o.now == now && o.window == WINDOW && !o.closed && o.buf == buf && o.windowStart == 0 && o.log.formed == [] && !o.log.early
  }

  lemma JoinsOpen(o: O.Shared, d: Decision)
    requires o.buf != [] && |o.buf| < 64 && o.now < WINDOW && Open(o, o.now, o.buf)
    requires d.disposition.Sent() && !IsProtectiveCritical(d.candidate)
    ensures Open(O.AcceptAll(o, [d]).0, o.now, o.buf + [d])
  {
    AcceptsPlain(o, d);
  }

  lemma OpensNext(o: O.Shared, d: Decision)
    requires o.buf != [] && o.now >= WINDOW && Open(o, o.now, o.buf)
    requires d.disposition.Sent() && !IsProtectiveCritical(d.candidate)
    ensures var o' := O.AcceptAll(o, [d]).0; o'.log.formed == [o.buf] && o'.buf == [d] && !o'.log.early
  {
    AcceptsPlain(o, d);
    assert O.MustTake(o);
  }

  lemma FirstOpens(s: O.State, d: Decision)
    requires s.o.buf == [] && s.o.now == 0 && s.o.window == WINDOW && !s.o.closed && s.o.log.formed == [] && !s.o.log.early
    requires d.disposition.Sent() && !IsProtectiveCritical(d.candidate)
    ensures Open(O.AcceptAll(s.o, [d]).0, 0, [d])
  {
    AcceptsPlain(s.o, d);
  }

  lemma FiveSteps(s: O.State, a: seq<O.Action>)
    requires O.Shaped(s) && |a| == 5
    ensures O.Run(s, a) == O.Step(O.Step(O.Step(O.Step(O.Step(s, a[0]), a[1]), a[2]), a[3]), a[4])
  {
    assert a[..4][..3] == a[..3] && a[..3][..2] == a[..2] && a[..2][..1] == a[..1] && a[..1][..0] == [];
    assert O.Run(s, a[..1]) == O.Step(s, a[0]);
    assert O.Run(s, a[..2]) == O.Step(O.Run(s, a[..1]), a[1]);
    assert O.Run(s, a[..3]) == O.Step(O.Run(s, a[..2]), a[2]);
    assert O.Run(s, a[..4]) == O.Step(O.Run(s, a[..3]), a[3]);
  }

  /** The outbox takes the Critical and the first Warning together, when their window is over, and not the second. */
  lemma TheOutboxFormsThatGroup(slots: nat, callers: nat)
    ensures var o := O.Run(O.Init(0, WINDOW, slots, callers), Accepts()).o;
            && o.log.formed == [[Handed(0, OPENER, 0), Handed(1, FIRST, 50 * SECOND)]]
            && o.buf == [Handed(2, SECOND_ONE, 61 * SECOND)] && !o.log.early
  {
    var s0, a := O.Init(0, WINDOW, slots, callers), Accepts();
    FiveSteps(s0, a);
    FirstOpens(s0, Handed(0, OPENER, 0));
    var s1 := O.Step(s0, a[0]);
    assert Open(s1.o, 0, [Handed(0, OPENER, 0)]);
    var s2 := O.Step(s1, a[1]);
    JoinsOpen(s2.o, Handed(1, FIRST, 50 * SECOND));
    var s3 := O.Step(s2, a[2]);
    assert Open(s3.o, 50 * SECOND, [Handed(0, OPENER, 0), Handed(1, FIRST, 50 * SECOND)]);
    var s4 := O.Step(s3, a[3]);
    OpensNext(s4.o, Handed(2, SECOND_ONE, 61 * SECOND));
  }
}
