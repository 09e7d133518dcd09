/**
The daily budget (pkg/attention/rules.go:341-353, store.go:295-365): the messages of the day that went out, and those the
decisions in flight will become. It is passed only by a delivery that leaves as many to come (see BudgetFindings).
*/
module Budget {
  import opened Wrappers
  import opened Attention
  import opened Windows
  import opened Rules
  import opened GovernorSpec

  // The log is in the order of its times, and none of them is to come.
  predicate Timed(rows: seq<Row>, now: int) {
    && (forall i | 0 <= i < |rows| :: rows[i].at <= now)
    && (forall i, j | 0 <= i < j < |rows| :: rows[i].at <= rows[j].at)
  }

  // ---- the pending times ----------------------------------------------------------------------------------------------

  predicate IsPendingTime(rows: seq<Row>, lease: int, t: int) {
    exists i | 0 <= i < |rows| :: CountsPending(rows[i], lease) && rows[i].at == t
  }

  lemma {:induction false} TimesArePending(rows: seq<Row>, now: int, lease: int)
    requires Timed(rows, now)
    ensures forall t | t in PendingTimes(rows, lease) :: lease <= t <= now && IsPendingTime(rows, lease, t)
  {
    if rows != [] {
      var front, r := rows[..|rows| - 1], rows[|rows| - 1];
      TimesArePending(front, now, lease);
      forall t | t in PendingTimes(rows, lease) ensures lease <= t <= now && IsPendingTime(rows, lease, t) {
        if t in PendingTimes(front, lease) {
          var i :| 0 <= i < |front| && CountsPending(front[i], lease) && front[i].at == t;
          assert CountsPending(rows[i], lease);
        } else {
          assert CountsPending(rows[|front|], lease);
        }
      }
    }
  }

  lemma {:induction false} PendingAreTimes(rows: seq<Row>, lease: int)
    ensures forall i | 0 <= i < |rows| && CountsPending(rows[i], lease) :: rows[i].at in PendingTimes(rows, lease)
  {
    if rows != [] {
      var front := rows[..|rows| - 1];
      PendingAreTimes(front, lease);
      forall i | 0 <= i < |rows| && CountsPending(rows[i], lease) ensures rows[i].at in PendingTimes(rows, lease) {
        if i < |front| { assert CountsPending(front[i], lease); }
      }
    }
  }

  lemma {:induction false} TimesAreSorted(rows: seq<Row>, now: int, lease: int)
    requires Timed(rows, now)
    ensures Sorted(PendingTimes(rows, lease))
  {
    if rows != [] {
      var front, r := rows[..|rows| - 1], rows[|rows| - 1];
      TimesAreSorted(front, now, lease);
      var before := PendingTimes(front, lease);
      TimesArePending(front, now, lease);
      forall i | 0 <= i < |before| ensures before[i] <= r.at {
        assert before[i] in before && IsPendingTime(front, lease, before[i]);
      }
    }
  }

  lemma PendingShape(rows: seq<Row>, now: int, lease: int)
    requires Timed(rows, now)
    ensures var times := PendingTimes(rows, lease);
            && Sorted(times)
            && (forall t | t in times :: lease <= t <= now && IsPendingTime(rows, lease, t))
            && (forall i | 0 <= i < |rows| && CountsPending(rows[i], lease) :: rows[i].at in times)
  {
    TimesAreSorted(rows, now, lease);
    TimesArePending(rows, now, lease);
    PendingAreTimes(rows, lease);
  }

  // Fewer rows count in rows' than in rows.
  ghost predicate FewerPending(rows: seq<Row>, lease: int, rows': seq<Row>, lease': int) {
    |rows'| == |rows| && forall i | 0 <= i < |rows| :: StillPending(rows[i], lease, rows'[i], lease')
  }

  predicate StillPending(r: Row, lease: int, r': Row, lease': int) {
    r'.at == r.at && (CountsPending(r', lease') ==> CountsPending(r, lease))
  }

  lemma {:induction false} FewerPendingTimes(rows: seq<Row>, lease: int, rows': seq<Row>, lease': int)
    requires FewerPending(rows, lease, rows', lease')
    ensures |PendingTimes(rows', lease')| <= |PendingTimes(rows, lease)|
    ensures forall t | t in PendingTimes(rows', lease') :: t in PendingTimes(rows, lease)
  {
    if rows != [] {
      var n := |rows| - 1;
      assert StillPending(rows[n], lease, rows'[n], lease');
      FewerPendingTimes(rows[..n], lease, rows'[..n], lease');
    }
  }

  /** With fewer decisions in flight there are no more messages to come. */
  lemma FewerPendingCost(rows: seq<Row>, lease: int, rows': seq<Row>, lease': int, now: int, w: nat)
    requires Timed(rows, now) && Timed(rows', now) && FewerPending(rows, lease, rows', lease')
    ensures |Starts(PendingTimes(rows', lease'), w)| <= |Starts(PendingTimes(rows, lease), w)|
  {
    PendingShape(rows, now, lease);
    PendingShape(rows', now, lease');
    FewerPendingTimes(rows, lease, rows', lease');
    var times, times' := PendingTimes(rows, lease), PendingTimes(rows', lease');
    if w > 0 {
      FewerDecisionsNeverRaise(times', times, w);
    } else {
      StartsShape(times, w);
      StartsShape(times', w);
    }
  }

  // ---- one decision ---------------------------------------------------------------------------------------------------

  lemma InsertCounts(s: State, r: Row, dayStart: int, dayEnd: int)
    requires r.at == s.now && !r.delivered && r.deliveredAt.None?
    ensures MessageCount(Insert(s, r), dayStart, dayEnd) == MessageCount(s, dayStart, dayEnd)
              + if Budgeted(r) && !JoinsPending(PendingTimes(s.rows, s.now - PENDING_LEASE), s.cfg.groupWindow, s.now) then 1 else 0
  {
    var rows', lease := s.rows + [r], s.now - PENDING_LEASE;
    assert rows'[..|s.rows|] == s.rows;
    if Budgeted(r) {
      AppendCost(PendingTimes(s.rows, lease), s.cfg.groupWindow, s.now);
    }
  }

  /**
  A decision that lets out a message the budget counts leaves the day's count where it was, if it joins the newest
  pending message, or at most at the candidate's limit. Any other decision leaves the count alone.
  */
  lemma DecideKeepsTheBudget(s: State, c: Candidate, env: Env)
    requires c.key != "" && s.cfg.mode.ModeLive?
    ensures var s', v := Decide(s, c, env).0, Decide(s, c, env).1.value;
            var before, after := MessageCount(s, env.dayStart, env.dayEnd), MessageCount(s', env.dayStart, env.dayEnd);
            if v.disposition.Sent() && !c.severity.Critical? then
              && before <= after <= before + 1
              && (after == before || after <= LimitFor(Gather(s, c, env), c.severity) <= env.budget + 1)
            else after == before
  {
    var f := Gather(s, c, env);
    var v := Evaluate(c, f);
    InsertCounts(s, NewRow(c, s.now, v), env.dayStart, env.dayEnd);
    if !IsProtectiveCritical(c) { WhatGoesOut(c, f); }
  }

  // ---- one delivery ---------------------------------------------------------------------------------------------------

  // A decision reported as delivered, if it can be and is not yet.
  function Mark(r: Row, at: int, m: MessageId): Row {
    if Deliverable(r) && !r.delivered then r.(delivered := true, deliveredAt := Some(at), message := Some(m)) else r
  }

  // The rows after the decisions ids, whichever they are, were reported as delivered in message m.
  predicate WentOut(rows: seq<Row>, rows': seq<Row>, ids: set<nat>, at: int, m: MessageId) {
    && |rows'| == |rows|
    && forall i | 0 <= i < |rows| :: rows'[i] == if i in ids then Mark(rows[i], at, m) else rows[i]
  }

  // Among them is one that the budget counts and that had not gone out.
  predicate BringsCounted(rows: seq<Row>, ids: set<nat>) {
    exists i | 0 <= i < |rows| :: i in ids && Budgeted(rows[i]) && !rows[i].delivered
  }

  // The day has a message more.
  predicate NewMessage(s: State, ids: set<nat>, at: int, m: MessageId, dayStart: int, dayEnd: int) {
    dayStart <= at < dayEnd && m !in DeliveredMessages(s.rows, dayStart, dayEnd) && BringsCounted(s.rows, ids)
  }

  lemma {:induction false} MessagesAfter(rows: seq<Row>, rows': seq<Row>, ids: set<nat>, at: int, m: MessageId, dayStart: int, dayEnd: int)
    requires WentOut(rows, rows', ids, at, m)
    ensures DeliveredMessages(rows', dayStart, dayEnd)
            == DeliveredMessages(rows, dayStart, dayEnd) + if dayStart <= at < dayEnd && BringsCounted(rows, ids) then {m} else {}
  {
    if rows != [] {
      var n := |rows| - 1;
      MessagesAfter(rows[..n], rows'[..n], ids, at, m, dayStart, dayEnd);
      if n in ids && Budgeted(rows[n]) && !rows[n].delivered {
        assert BringsCounted(rows, ids);
      } else {
        assert BringsCounted(rows, ids) <==> BringsCounted(rows[..n], ids);
      }
    }
  }

  // Row i counts as pending and is not among ids.
  predicate Remains(s: State, ids: set<nat>, i: nat)
    requires i < |s.rows|
  {
    i !in ids && CountsPending(s.rows[i], s.now - PENDING_LEASE)
  }

  lemma WentOutIsFewer(s: State, rows': seq<Row>, ids: set<nat>, at: int, m: MessageId)
    requires Timed(s.rows, s.now) && WentOut(s.rows, rows', ids, at, m)
    ensures Timed(rows', s.now) && FewerPending(s.rows, s.now - PENDING_LEASE, rows', s.now - PENDING_LEASE)
    ensures forall i | 0 <= i < |s.rows| :: CountsPending(rows'[i], s.now - PENDING_LEASE) <==> Remains(s, ids, i)
  {
    assert forall i | 0 <= i < |s.rows| :: rows'[i].at == s.rows[i].at;
  }

  // What stays pending needs as many messages as there were to come: with grouping, as many of its times lie a window
  // apart; without, nothing pending went out.
  ghost predicate StillNeeded(s: State, ids: set<nat>) {
    if s.cfg.groupWindow > 0 then
      exists spaced: seq<int> | |spaced| == |Starts(PendingTimes(s.rows, s.now - PENDING_LEASE), s.cfg.groupWindow)| ::
        Spaced(spaced, s.cfg.groupWindow) && forall t | t in spaced :: IsTimeLeft(s, ids, t)
    else
      forall i | 0 <= i < |s.rows| && CountsPending(s.rows[i], s.now - PENDING_LEASE) :: i !in ids
  }

  predicate IsTimeLeft(s: State, ids: set<nat>, t: int) {
    exists i | 0 <= i < |s.rows| :: Remains(s, ids, i) && s.rows[i].at == t
  }

  lemma TimesLeft(s: State, rows': seq<Row>, ids: set<nat>, at: int, m: MessageId)
    requires Timed(s.rows, s.now) && WentOut(s.rows, rows', ids, at, m)
    ensures forall t :: t in PendingTimes(rows', s.now - PENDING_LEASE) <==> IsTimeLeft(s, ids, t)
  {
    var lease := s.now - PENDING_LEASE;
    WentOutIsFewer(s, rows', ids, at, m);
    PendingShape(rows', s.now, lease);
    forall t ensures t in PendingTimes(rows', lease) <==> IsTimeLeft(s, ids, t) {
      if t in PendingTimes(rows', lease) {
        var i :| 0 <= i < |rows'| && CountsPending(rows'[i], lease) && rows'[i].at == t;
        assert Remains(s, ids, i);
      }
      if IsTimeLeft(s, ids, t) {
        var i :| 0 <= i < |s.rows| && Remains(s, ids, i) && s.rows[i].at == t;
        assert CountsPending(rows'[i], lease);
      }
    }
  }

  lemma {:induction false} OneFewerTime(rows: seq<Row>, rows': seq<Row>, i: nat, lease: int)
    requires FewerPending(rows, lease, rows', lease)
    requires i < |rows| && CountsPending(rows[i], lease) && !CountsPending(rows'[i], lease)
    ensures |PendingTimes(rows', lease)| < |PendingTimes(rows, lease)|
  {
    var n := |rows| - 1;
    assert StillPending(rows[n], lease, rows'[n], lease);
    if i == n {
      FewerPendingTimes(rows[..n], lease, rows'[..n], lease);
    } else {
      OneFewerTime(rows[..n], rows'[..n], i, lease);
    }
  }

  lemma {:induction false} SameTimes(rows: seq<Row>, rows': seq<Row>, lease: int)
    requires |rows'| == |rows|
    requires forall i | 0 <= i < |rows| :: rows'[i].at == rows[i].at && (CountsPending(rows'[i], lease) <==> CountsPending(rows[i], lease))
    ensures PendingTimes(rows', lease) == PendingTimes(rows, lease)
  {
    if rows != [] {
      SameTimes(rows[..|rows| - 1], rows'[..|rows| - 1], lease);
    }
  }

  // Without grouping each of them is a message.
  lemma PendingOnesAfter(s: State, rows': seq<Row>, ids: set<nat>, at: int, m: MessageId)
    requires s.cfg.groupWindow == 0 && Timed(s.rows, s.now) && WentOut(s.rows, rows', ids, at, m)
    ensures var lease := s.now - PENDING_LEASE;
            |PendingTimes(rows', lease)| == |PendingTimes(s.rows, lease)| <==> StillNeeded(s, ids)
  {
    var lease := s.now - PENDING_LEASE;
    WentOutIsFewer(s, rows', ids, at, m);
    if i :| 0 <= i < |s.rows| && CountsPending(s.rows[i], lease) && i in ids {
      OneFewerTime(s.rows, rows', i, lease);
    } else {
      SameTimes(s.rows, rows', lease);
    }
  }

  // Whether as many messages are to come as before.
  lemma PendingAfter(s: State, rows': seq<Row>, ids: set<nat>, at: int, m: MessageId)
    requires Timed(s.rows, s.now) && WentOut(s.rows, rows', ids, at, m)
    ensures var lease, w := s.now - PENDING_LEASE, s.cfg.groupWindow;
            var before, after := |Starts(PendingTimes(s.rows, lease), w)|, |Starts(PendingTimes(rows', lease), w)|;
            after <= before && (after == before <==> StillNeeded(s, ids))
  {
    hide PendingTimes, CountsPending, Timed, WentOut, FewerPending;
    var lease, w := s.now - PENDING_LEASE, s.cfg.groupWindow;
    WentOutIsFewer(s, rows', ids, at, m);
    FewerPendingCost(s.rows, lease, rows', lease, s.now, w);
    PendingShape(s.rows, s.now, lease);
    PendingShape(rows', s.now, lease);
    if w > 0 {
      FewerPendingTimes(s.rows, lease, rows', lease);
      TimesLeft(s, rows', ids, at, m);
      AsManyNeeded(PendingTimes(rows', lease), PendingTimes(s.rows, lease), w);
    } else {
      PendingOnesAfter(s, rows', ids, at, m);
      StartsShape(PendingTimes(s.rows, lease), w);
      StartsShape(PendingTimes(rows', lease), w);
    }
  }

  // A delivery that makes the day's count larger.
  ghost predicate Raises(s: State, ids: set<nat>, at: int, m: MessageId, dayStart: int, dayEnd: int) {
    NewMessage(s, ids, at, m, dayStart, dayEnd) && StillNeeded(s, ids)
  }

  /**
  Whatever is delivered, under whichever intervention: the day's count grows if and only if the message is new to the
  day, brings something the budget counts, and what stays pending still needs as many messages; and then by one.
  */
  lemma DeliveryCost(s: State, rows': seq<Row>, ids: set<nat>, at: int, m: MessageId, dayStart: int, dayEnd: int)
    requires Timed(s.rows, s.now) && WentOut(s.rows, rows', ids, at, m)
    ensures var before, after := MessageCount(s, dayStart, dayEnd), MessageCount(s.(rows := rows'), dayStart, dayEnd);
            after <= before + 1 && (after == before + 1 <==> Raises(s, ids, at, m, dayStart, dayEnd))
  {
    hide Starts, PendingTimes, DeliveredMessages, WentOut, Timed, StillNeeded, BringsCounted;
    MessagesAfter(s.rows, rows', ids, at, m, dayStart, dayEnd);
    PendingAfter(s, rows', ids, at, m);
    var sent := DeliveredMessages(s.rows, dayStart, dayEnd);
    if m in sent {
      assert sent + {m} == sent;
    } else {
      assert |sent + {m}| == |sent| + 1;
    }
    assert sent + {} == sent;
  }

  // Everything pending in the window of some opening is among ids, whatever else is; or, without grouping, something is.
  ghost predicate HasWholeMessage(s: State, ids: set<nat>) {
    if s.cfg.groupWindow > 0 then
      exists start | start in Starts(PendingTimes(s.rows, s.now - PENDING_LEASE), s.cfg.groupWindow) :: HasWindow(s, ids, start)
    else
      exists i | 0 <= i < |s.rows| :: CountsPending(s.rows[i], s.now - PENDING_LEASE) && i in ids
  }

  predicate HasWindow(s: State, ids: set<nat>, start: int) {
    forall i | 0 <= i < |s.rows| && CountsPending(s.rows[i], s.now - PENDING_LEASE) ::
      Within(start, s.rows[i].at, s.cfg.groupWindow) ==> i in ids
  }

  // The windows of the other messages cover what is left.
  lemma TheOthersCover(s: State, ids: set<nat>, start: int, spaced: seq<int>)
    requires s.cfg.groupWindow > 0 && Timed(s.rows, s.now) && HasWindow(s, ids, start)
    requires start in Starts(PendingTimes(s.rows, s.now - PENDING_LEASE), s.cfg.groupWindow)
    requires Spaced(spaced, s.cfg.groupWindow) && forall t | t in spaced :: IsTimeLeft(s, ids, t)
    ensures |spaced| < |Starts(PendingTimes(s.rows, s.now - PENDING_LEASE), s.cfg.groupWindow)|
  {
    var w, lease := s.cfg.groupWindow, s.now - PENDING_LEASE;
    var times := PendingTimes(s.rows, lease);
    PendingShape(s.rows, s.now, lease);
    OpeningsCover(times, w);
    var all := AsSet(Starts(times, w));
    forall t | t in spaced ensures exists o | o in all - {start} :: Within(o, t, w) {
      assert IsTimeLeft(s, ids, t);
      var i :| 0 <= i < |s.rows| && Remains(s, ids, i) && s.rows[i].at == t;
      assert t in times;
      var o :| o in all && Within(o, t, w);
      assert o in all - {start};
    }
    SpacedNeedOneEach(spaced, all - {start}, w);
    assert start in all;
  }

  /**
  A message that takes a whole pending message along costs what that was counted at: the day's count does not grow,
  though the message may carry Criticals and decisions whose lease has passed.
  */
  lemma WholeMessageKeepsTheCount(s: State, rows': seq<Row>, ids: set<nat>, at: int, m: MessageId, dayStart: int, dayEnd: int)
    requires Timed(s.rows, s.now) && HasWholeMessage(s, ids) && WentOut(s.rows, rows', ids, at, m)
    ensures MessageCount(s.(rows := rows'), dayStart, dayEnd) <= MessageCount(s, dayStart, dayEnd)
  {
    DeliveryCost(s, rows', ids, at, m, dayStart, dayEnd);
    WholeIsNotNeeded(s, ids);
  }

  lemma WholeIsNotNeeded(s: State, ids: set<nat>)
    requires Timed(s.rows, s.now) && HasWholeMessage(s, ids)
    ensures !StillNeeded(s, ids)
  {
    if StillNeeded(s, ids) && s.cfg.groupWindow > 0 {
      var times, w := PendingTimes(s.rows, s.now - PENDING_LEASE), s.cfg.groupWindow;
      var start :| start in Starts(times, w) && HasWindow(s, ids, start);
      var spaced: seq<int> :| |spaced| == |Starts(times, w)| && Spaced(spaced, w) && forall t | t in spaced :: IsTimeLeft(s, ids, t);
      TheOthersCover(s, ids, start, spaced);
    }
  }

  // ---- a day --------------------------------------------------------------------------------------------------------------

  // Reporting the decisions of a message, one transaction after another.
  function MarkEach(s: State, ids: seq<nat>, at: int, m: MessageId): State {
    if ids == [] then s else MarkDelivered(MarkEach(s, ids[..|ids| - 1], at, m), ids[|ids| - 1], at, Some(m))
  }

  lemma {:induction false} MarkEachRows(s: State, ids: seq<nat>, at: int, m: MessageId)
    ensures WentOut(s.rows, MarkEach(s, ids, at, m).rows, Members(ids), at, m)
    ensures var s' := MarkEach(s, ids, at, m); s'.now == s.now && s'.cfg == s.cfg
  {
    if ids != [] {
      var front, last := ids[..|ids| - 1], ids[|ids| - 1];
      MarkEachRows(s, front, at, m);
      assert Members(ids) == Members(front) + {last} by { assert ids == front + [last]; }
    }
  }

  function Members(ids: seq<nat>): set<nat> {
    set i | i in ids
  }

  // What can happen in a day: decisions, deliveries of any decisions, failed sends, deferrals, and time.
  datatype Event =
    | Decided(c: Candidate, env: Env) | Delivered(ids: seq<nat>, at: int, m: MessageId) | Released(id: nat, at: int)
    | Deferred(id: nat) | Passed(to: int)

  predicate Possible(s: State, e: Event, budget: nat, dayStart: int, dayEnd: int) {
    match e
    case Decided(_, env) => env.budget <= budget && env.dayStart == dayStart && env.dayEnd == dayEnd
    case Passed(to) => to >= s.now
    case _ => true
  }

  function After(s: State, e: Event): State {
    match e
    case Decided(c, env) => Decide(s, c, env).0
    case Delivered(ids, at, m) => MarkEach(s, ids, at, m)
    case Released(id, at) => Release(s, id, at)
    case Deferred(id) => (match DeferToDigest(s, id) case Some(s') => s' case None => s)
    case Passed(to) => s.(now := to)
  }

  predicate Day(s: State, events: seq<Event>, budget: nat, dayStart: int, dayEnd: int) {
    if events == [] then true
    else
      && Day(s, events[..|events| - 1], budget, dayStart, dayEnd)
      && Possible(AfterAll(s, events[..|events| - 1]), events[|events| - 1], budget, dayStart, dayEnd)
  }

  function AfterAll(s: State, events: seq<Event>): State {
    if events == [] then s else After(AfterAll(s, events[..|events| - 1]), events[|events| - 1])
  }

  // The deliveries among the events that make the count larger.
  ghost function Overruns(s: State, events: seq<Event>, dayStart: int, dayEnd: int): nat {
    if events == [] then 0
    else
      Overruns(s, events[..|events| - 1], dayStart, dayEnd)
      + if IsOverrun(AfterAll(s, events[..|events| - 1]), events[|events| - 1], dayStart, dayEnd) then 1 else 0
  }

  ghost predicate IsOverrun(s: State, e: Event, dayStart: int, dayEnd: int) {
    e.Delivered? && Raises(s, Members(e.ids), e.at, e.m, dayStart, dayEnd)
  }

  ghost predicate Keeps(s: State, count: nat, dayStart: int, dayEnd: int) {
    Timed(s.rows, s.now) && s.cfg.mode.ModeLive? && MessageCount(s, dayStart, dayEnd) <= count
  }

  lemma DecidedStays(s: State, c: Candidate, env: Env, budget: nat, count: nat, dayStart: int, dayEnd: int)
    requires Keeps(s, count, dayStart, dayEnd) && budget + 1 <= count
    requires env.budget <= budget && env.dayStart == dayStart && env.dayEnd == dayEnd
    ensures Keeps(Decide(s, c, env).0, count, dayStart, dayEnd)
  {
    if c.key != "" {
      DecideKeepsTheBudget(s, c, env);
    }
  }

  // A row that no longer counts as pending, and was not and is not delivered.
  lemma DroppedStays(s: State, id: nat, r: Row, count: nat, dayStart: int, dayEnd: int)
    requires Keeps(s, count, dayStart, dayEnd) && id < |s.rows| && r.at == s.rows[id].at
    requires !r.delivered && !s.rows[id].delivered && !Unreported(r)
    ensures Keeps(SetRow(s, id, r), count, dayStart, dayEnd)
  {
    var s', lease := SetRow(s, id, r), s.now - PENDING_LEASE;
    assert FewerPending(s.rows, lease, s'.rows, lease);
    FewerPendingCost(s.rows, lease, s'.rows, lease, s.now, s.cfg.groupWindow);
    SameDelivered(s.rows, s'.rows, dayStart, dayEnd);
  }

  lemma {:induction false} SameDelivered(rows: seq<Row>, rows': seq<Row>, dayStart: int, dayEnd: int)
    requires |rows'| == |rows|
    requires forall i | 0 <= i < |rows| :: rows'[i] == rows[i] || (!rows[i].delivered && !rows'[i].delivered)
    ensures DeliveredMessages(rows', dayStart, dayEnd) == DeliveredMessages(rows, dayStart, dayEnd)
  {
    if rows != [] {
      SameDelivered(rows[..|rows| - 1], rows'[..|rows| - 1], dayStart, dayEnd);
    }
  }

  lemma PassedStays(s: State, to: int, count: nat, dayStart: int, dayEnd: int)
    requires Keeps(s, count, dayStart, dayEnd) && to >= s.now
    ensures Keeps(s.(now := to), count, dayStart, dayEnd)
  {
    assert FewerPending(s.rows, s.now - PENDING_LEASE, s.rows, to - PENDING_LEASE);
    FewerPendingCost(s.rows, s.now - PENDING_LEASE, s.rows, to - PENDING_LEASE, to, s.cfg.groupWindow);
  }

  // The same of the transactions that report it.
  lemma ReportCost(s: State, ids: seq<nat>, at: int, m: MessageId, dayStart: int, dayEnd: int)
    requires Timed(s.rows, s.now)
    ensures var before, after := MessageCount(s, dayStart, dayEnd), MessageCount(MarkEach(s, ids, at, m), dayStart, dayEnd);
            after <= before + 1 && (after == before + 1 <==> Raises(s, Members(ids), at, m, dayStart, dayEnd))
  {
    MarkEachRows(s, ids, at, m);
    DeliveryCost(s, MarkEach(s, ids, at, m).rows, Members(ids), at, m, dayStart, dayEnd);
  }

  lemma DeliveredStays(s: State, ids: seq<nat>, at: int, m: MessageId, count: nat, dayStart: int, dayEnd: int)
    requires Keeps(s, count, dayStart, dayEnd)
    ensures Keeps(MarkEach(s, ids, at, m), count + if Raises(s, Members(ids), at, m, dayStart, dayEnd) then 1 else 0, dayStart, dayEnd)
  {
    MarkEachRows(s, ids, at, m);
    var s' := MarkEach(s, ids, at, m);
    WentOutIsFewer(s, s'.rows, Members(ids), at, m);
    ReportCost(s, ids, at, m, dayStart, dayEnd);
  }

  lemma EventStays(s: State, e: Event, budget: nat, count: nat, dayStart: int, dayEnd: int)
    requires Keeps(s, count, dayStart, dayEnd) && budget + 1 <= count && Possible(s, e, budget, dayStart, dayEnd)
    ensures Keeps(After(s, e), count + if IsOverrun(s, e, dayStart, dayEnd) then 1 else 0, dayStart, dayEnd)
  {
    match e {
      case Decided(c, env) => DecidedStays(s, c, env, budget, count, dayStart, dayEnd);
      case Delivered(ids, at, m) => DeliveredStays(s, ids, at, m, count, dayStart, dayEnd);
      case Released(id, at) => if Release(s, id, at) != s { DroppedStays(s, id, Release(s, id, at).rows[id], count, dayStart, dayEnd); }
      case Deferred(id) =>
        if id < |s.rows| && !s.rows[id].reason.Protective? && Unreported(s.rows[id]) {
          DroppedStays(s, id, s.rows[id].(disposition := Digest, reason := Reason.Deferred), count, dayStart, dayEnd);
        }
      case Passed(to) => PassedStays(s, to, count, dayStart, dayEnd);
    }
  }

  /**
  The daily count of messages goes past the budget and one only by the deliveries that raise it, whatever is decided,
  sent, released, deferred or left to lapse, in any order; if it was past that already it grows only by them.
  */
  lemma {:induction false} TheBudgetHolds(s: State, events: seq<Event>, budget: nat, dayStart: int, dayEnd: int)
    requires Timed(s.rows, s.now) && s.cfg.mode.ModeLive? && Day(s, events, budget, dayStart, dayEnd)
    ensures var before := MessageCount(s, dayStart, dayEnd);
            MessageCount(AfterAll(s, events), dayStart, dayEnd)
            <= (if before > budget + 1 then before else budget + 1) + Overruns(s, events, dayStart, dayEnd)
    ensures Timed(AfterAll(s, events).rows, AfterAll(s, events).now) && AfterAll(s, events).cfg.mode.ModeLive?
  {
    if events != [] {
      var front := events[..|events| - 1];
      TheBudgetHolds(s, front, budget, dayStart, dayEnd);
      var before := MessageCount(s, dayStart, dayEnd);
      var count := (if before > budget + 1 then before else budget + 1) + Overruns(s, front, dayStart, dayEnd);
      EventStays(AfterAll(s, front), events[|events| - 1], budget, count, dayStart, dayEnd);
    }
  }

  // Each delivery brings nothing the budget counts, or takes a whole pending message along.
  ghost predicate GoOutWhole(s: State, events: seq<Event>) {
    events != [] ==>
      && GoOutWhole(s, events[..|events| - 1])
      && DeliversWhole(AfterAll(s, events[..|events| - 1]), events[|events| - 1])
  }

  ghost predicate DeliversWhole(s: State, e: Event) {
    e.Delivered? ==> !BringsCounted(s.rows, Members(e.ids)) || HasWholeMessage(s, Members(e.ids))
  }

  /** On a day on which messages go out whole the budget is kept. */
  lemma {:induction false} WholeMessagesKeepTheBudget(s: State, events: seq<Event>, budget: nat, dayStart: int, dayEnd: int)
    requires Timed(s.rows, s.now) && s.cfg.mode.ModeLive? && Day(s, events, budget, dayStart, dayEnd) && GoOutWhole(s, events)
    ensures Overruns(s, events, dayStart, dayEnd) == 0
    ensures var before := MessageCount(s, dayStart, dayEnd);
            MessageCount(AfterAll(s, events), dayStart, dayEnd) <= if before > budget + 1 then before else budget + 1
  {
    if events != [] {
      var front, e := events[..|events| - 1], events[|events| - 1];
      WholeMessagesKeepTheBudget(s, front, budget, dayStart, dayEnd);
      TheBudgetHolds(s, front, budget, dayStart, dayEnd);
      var s1 := AfterAll(s, front);
      if e.Delivered? && HasWholeMessage(s1, Members(e.ids)) { WholeIsNotNeeded(s1, Members(e.ids)); }
    }
    TheBudgetHolds(s, events, budget, dayStart, dayEnd);
  }
}
