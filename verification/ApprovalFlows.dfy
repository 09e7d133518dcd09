/**
How a proposal gets on (pkg/approval/execute.go:49-283, store.go:190-365, service.go:565-660), with literal limits and times:
the insert, an approved order's workflow step by step and in all, the page of a recovery pass, and the prune.
*/
module ApprovalFlows {
  import opened Wrappers
  import opened ProposalTable
  import opened ApprovalSpec
  import opened ApprovalSafety

  // ---- a proposal is inserted ---------------------------------------------------------------------------------------------

  // What the two limits of class c count, and its places in the table.
  predicate IsOpen(t: Table, c: Class, now: int, i: nat) {
    i < |t| && !t[i].pruned && t[i].status == Pending && now < t[i].expires && Matches(c, t[i].kind, t[i].origin)
  }

  predicate IsRecent(t: Table, c: Class, from: int, i: nat) {
    i < |t| && !t[i].pruned && from < t[i].created && Matches(c, t[i].kind, t[i].origin)
  }

  function OpenPlaces(t: Table, c: Class, now: int): set<nat> { set i: nat | i < |t| && IsOpen(t, c, now, i) }

  function RecentPlaces(t: Table, c: Class, from: int): set<nat> { set i: nat | i < |t| && IsRecent(t, c, from, i) }

  lemma OneMoreOpen(front: Table, r: Row, c: Class, now: int)
    ensures OpenPlaces(front + [r], c, now) == OpenPlaces(front, c, now) + if CountsPending(r, c, now) then {|front|} else {}
  {
    hide Matches;
    var t := front + [r];
    forall i: nat | i < |t| ensures IsOpen(t, c, now, i) <==> if i < |front| then IsOpen(front, c, now, i) else CountsPending(r, c, now) {
      assert i < |front| ==> t[i] == front[i];
    }
  }

  lemma OneMoreRecent(front: Table, r: Row, c: Class, from: int)
    ensures RecentPlaces(front + [r], c, from) == RecentPlaces(front, c, from) + if CountsCreated(r, c, from) then {|front|} else {}
  {
    hide Matches;
    var t := front + [r];
    forall i: nat | i < |t|
      ensures IsRecent(t, c, from, i) <==> if i < |front| then IsRecent(front, c, from, i) else CountsCreated(r, c, from)
    {
      assert i < |front| ==> t[i] == front[i];
    }
  }

  lemma {:induction false} OpenCount(t: Table, c: Class, now: int)
    ensures PendingIn(t, c, now) == |OpenPlaces(t, c, now)|
  {
    hide IsOpen, CountsPending;
    if t == [] {
      assert OpenPlaces(t, c, now) == {};
    } else {
      var front := t[..|t| - 1];
      OpenCount(front, c, now);
      OneMoreOpen(front, t[|t| - 1], c, now);
      assert t == front + [t[|t| - 1]];
      assert |front| !in OpenPlaces(front, c, now);
    }
  }

  lemma {:induction false} RecentCount(t: Table, c: Class, from: int)
    ensures CreatedIn(t, c, from) == |RecentPlaces(t, c, from)|
  {
    hide IsRecent, CountsCreated;
    if t == [] {
      assert RecentPlaces(t, c, from) == {};
    } else {
      var front := t[..|t| - 1];
      RecentCount(front, c, from);
      OneMoreRecent(front, t[|t| - 1], c, from);
      assert t == front + [t[|t| - 1]];
      assert |front| !in RecentPlaces(front, c, from);
    }
  }

  /**
  A proposal goes in, pending and unharmed, if and only if fewer of its class are open, and fewer were made in the last hour,
  or the last day, than the class may have; nothing else changes.
  */
  lemma AnInsertNeedsRoom(s: State, kind: Kind, params: Params, origin: Origin, mode: string, reducing: bool, expires: int)
    ensures var s', c := Step(s, AInsert(kind, params, origin, mode, reducing, expires)), ClassOf(kind, origin);
            var open := |OpenPlaces(s.rows, c, s.now)|;
            var hour, day := |RecentPlaces(s.rows, c, s.now - 3600000)|, |RecentPlaces(s.rows, c, s.now - 86400000)|;
            var room := match c
                        case OrderClass => open < 3 && hour < 10
                        case MandateClass => open < 8 && hour < 30
                        case MemoryClass => open < 5 && day < 10
                        case ReflectionClass => open < 5 && day < 10;
            s' == if room then
                    s.(rows := s.rows + [Row(kind, params, HashOf(kind, params), origin, mode, reducing, Pending, s.now, expires,
                                             None, "", None, false)])
                  else s
  {
    hide OpenPlaces, RecentPlaces, ClassOf;
    var c := ClassOf(kind, origin);
    OpenCount(s.rows, c, s.now);
    RecentCount(s.rows, c, s.now - 3600000);
    RecentCount(s.rows, c, s.now - 86400000);
  }

  // ---- the workflow, step by step -----------------------------------------------------------------------------------------

  // After a failure the step is retried, or the workflow fails.
  predicate FailsOrRetries(w: Workflow, w': Workflow, again: bool) {
    w' == if again then w else w.(pos := SettleFailure)
  }

  /** The throttle lets an order pass exactly when the approval is still good and there is a token; it changes nothing else. */
  lemma TheThrottlePasses(s: State, id: nat, a: Attempt)
    requires id < |s.rows| && id in s.flows && s.flows[id].pos == Throttle && a.kept
    ensures var s' := Step(s, AExec(id, a));
            && id in s'.flows && s' == s.(flows := s.flows[id := s'.flows[id]])
            && if Good(s, s.rows[id]) && a.works then s'.flows[id] == s.flows[id].(pos := Place)
               else FailsOrRetries(s.flows[id], s'.flows[id], a.again)
  {
  }

  /** The workflow goes on behind the broker's call exactly when the call was made and taken. */
  lemma ThePlacingPasses(s: State, id: nat, a: Attempt)
    requires id < |s.rows| && id in s.flows && s.flows[id].pos == Place && a.kept
    ensures var w, s' := s.flows[id], Step(s, AExec(id, a));
            && id in s'.flows && s'.flows == s.flows[id := s'.flows[id]] && s'.rows == s.rows
            && if w.rc.Some? && Good(s, s.rows[id]) && (s.killed ==> w.rc.value.reducing) && a.works then s'.flows[id] == w.(pos := Verify)
               else FailsOrRetries(w, s'.flows[id], a.again)
  {
  }

  // The row is finished, if it is executing; then nothing finishes it again.
  function Finished(r: Row, status: Status, now: int): Row {
    if !r.pruned && r.status == Executing then r.(status := status, finished := Some(now)) else r
  }

  /**
  Behind the broker nothing fails: the fill is read, then recorded, then the receipt finishes the order it can still verify
  as executed. A workflow that failed finishes its proposal as failed. Either way it has ended then, for good.
  */
  lemma TheEndIsReached(s: State, id: nat, a: Attempt)
    requires id < |s.rows| && id in s.flows && a.kept && s.flows[id].pos in {Verify, Record, Receipt, SettleFailure}
    ensures var w, r, s' := s.flows[id], s.rows[id], Step(s, AExec(id, a));
            && s' == s.(flows := s'.flows, rows := s'.rows)
            && s'.flows == s.flows[id :=
                 if w.pos == Verify then w.(pos := Record)
                 else if w.pos == Record then w.(pos := Receipt)
                 else if w.pos == Receipt then w.(pos := Ended(true), receipted := true)
                 else w.(pos := Ended(false))]
            && s'.rows == s.rows[id :=
                 if w.pos == Receipt && r.kind == Order && r.hash == HashOf(Order, r.params) then Finished(r, Executed, s.now)
                 else if w.pos == SettleFailure then Finished(r, Failed, s.now)
                 else r]
  {
  }

  /** A step whose result is lost leaves the workflow where it was, whatever it did outside. */
  lemma ALostStepIsRepeated(s: State, id: nat, a: Attempt)
    requires id < |s.rows| && id in s.flows && !a.kept
    ensures var s' := Step(s, AExec(id, a));
            && id in s'.flows && s'.flows[id].pos == s.flows[id].pos && s'.flows[id].rc == s.flows[id].rc
            && s'.flows == s.flows[id := s'.flows[id]]
  {
    hide MayProceed, Rechecks, FinishedAt, Verified;
    assert s.flows[id := s.flows[id]] == s.flows;
  }

  // ---- the workflow in all --------------------------------------------------------------------------------------------------

  // The workflow of id has got to w, the row is r, and these calls were made.
  predicate GotTo(s: State, s': State, id: nat, w: Workflow, r: Row, calls: seq<PlaceCall>)
    requires id < |s.rows|
  {
    s' == s.(flows := s.flows[id := w], rows := s.rows[id := r], placed := s.placed + calls)
  }

  lemma Marking(s: State, id: nat)
    requires id < |s.rows| && s.rows[id].status == Approved && !s.rows[id].pruned && s.rows[id].kind == Order && id !in s.flows
    ensures GotTo(s, Step(Step(s, AStart(id)), AMark(id)), id, Workflow(Recheck, None, false, false), s.rows[id].(status := Executing), [])
  {
    var w := Workflow(Recheck, None, false, false);
    assert Step(s, AStart(id)) == s.(flows := s.flows[id := w]);
    assert s.placed + [] == s.placed;
  }

  lemma Passing(s: State, s1: State, id: nat, found: Rechecked)
    requires id < |s.rows| && Good(s, s.rows[id]) && Matching(s, s.rows[id], found)
    requires GotTo(s, s1, id, Workflow(Recheck, None, false, false), s.rows[id].(status := Executing), [])
    ensures var a := Attempt(true, false, true, Some(found));
            GotTo(s, Step(Step(s1, AExec(id, a)), AExec(id, a)), id, Workflow(Place, Some(found), false, s.killed),
                  s.rows[id].(status := Executing), [])
  {
    hide Step;
    var a := Attempt(true, false, true, Some(found));
    RecheckPasses(s1, id, a);
    var s2 := Step(s1, AExec(id, a));
    assert s2.flows[id] == Workflow(Throttle, Some(found), false, s.killed);
    TheThrottlePasses(s2, id, a);
    assert s2.flows[id := Step(s2, AExec(id, a)).flows[id]] == s.flows[id := Workflow(Place, Some(found), false, s.killed)];
  }

  lemma Placing(s: State, s1: State, id: nat, found: Rechecked)
    requires id < |s.rows| && Good(s, s.rows[id]) && Matching(s, s.rows[id], found)
    requires GotTo(s, s1, id, Workflow(Place, Some(found), false, s.killed), s.rows[id].(status := Executing), [])
    ensures var a := Attempt(true, false, true, Some(found));
            GotTo(s, Step(s1, AExec(id, a)), id, Workflow(Verify, Some(found), false, s.killed), s.rows[id].(status := Executing),
                  [PlaceCall(id, s.now, s.rows[id].params, found.mode, found.reducing, s.killed)])
  {
    hide Step;
    var a := Attempt(true, false, true, Some(found));
    PlaceCalls(s1, id, a);
    ThePlacingPasses(s1, id, a);
    var w := Workflow(Verify, Some(found), false, s.killed);
    assert s1.flows[id := w] == s.flows[id := w];
    assert s.placed + [] == s.placed;
  }

  lemma Ending(s: State, s1: State, id: nat, found: Rechecked, calls: seq<PlaceCall>)
    requires id < |s.rows| && Good(s, s.rows[id])
    requires GotTo(s, s1, id, Workflow(Verify, Some(found), false, s.killed), s.rows[id].(status := Executing), calls)
    ensures var a := Attempt(true, false, true, Some(found));
            GotTo(s, Step(Step(Step(s1, AExec(id, a)), AExec(id, a)), AExec(id, a)), id, Workflow(Ended(true), Some(found), true, s.killed),
                  s.rows[id].(status := Executed, finished := Some(s.now)), calls)
  {
    hide Step;
    var a := Attempt(true, false, true, Some(found));
    TheEndIsReached(s1, id, a);
    var s2 := Step(s1, AExec(id, a));
    TheEndIsReached(s2, id, a);
    var s3 := Step(s2, AExec(id, a));
    TheEndIsReached(s3, id, a);
    assert s2.rows == s3.rows == s1.rows;
  }

  // The start of the execution, and the six steps.
  function Execution(id: nat, a: Attempt): seq<Action> {
    [AStart(id), AMark(id), AExec(id, a), AExec(id, a), AExec(id, a), AExec(id, a), AExec(id, a), AExec(id, a)]
  }

  lemma RunOn(s: State, actions: seq<Action>, a: Action)
    ensures Run(s, actions + [a]) == Step(Run(s, actions), a)
  {
    assert (actions + [a])[..|actions|] == actions;
  }

  lemma RunsThrough(s: State, id: nat, a: Attempt)
    ensures var e := AExec(id, a);
            Run(s, Execution(id, a)) == Step(Step(Step(Step(Step(Step(Step(Step(s, AStart(id)), AMark(id)), e), e), e), e), e), e)
  {
    hide Step, Run;
    var e := AExec(id, a);
    var none: seq<Action> := [];
    var p := [AStart(id)];
    assert Run(s, none) == s by { RunNone(s); }
    RunOn(s, none, AStart(id));
    assert none + p == p;
    RunOn(s, p, AMark(id));
    var p2 := p + [AMark(id)];
    RunOn(s, p2, e);
    RunOn(s, p2 + [e], e);
    RunOn(s, p2 + [e] + [e], e);
    RunOn(s, p2 + [e] + [e] + [e], e);
    RunOn(s, p2 + [e] + [e] + [e] + [e], e);
    RunOn(s, p2 + [e] + [e] + [e] + [e] + [e], e);
    assert Execution(id, a) == p2 + [e] + [e] + [e] + [e] + [e] + [e];
  }

  lemma RunNone(s: State)
    ensures Run(s, []) == s
  {
  }

  /**
  An approved order is carried out: while its approval is good and the recheck finds what was approved, the workflow calls the
  broker once, with the parameters and the mode of the proposal, and the proposal ends as executed.
  */
  lemma AnApprovedOrderIsPlaced(s: State, id: nat, found: Rechecked)
    requires id < |s.rows| && id !in s.flows && s.rows[id].status == Approved && Good(s, s.rows[id]) && Matching(s, s.rows[id], found)
    ensures var s' := Run(s, Execution(id, Attempt(true, false, true, Some(found))));
            && s'.placed == s.placed + [PlaceCall(id, s.now, s.rows[id].params, s.rows[id].mode, found.reducing, s.killed)]
            && s'.rows == s.rows[id := s.rows[id].(status := Executed, finished := Some(s.now))]
            && s'.flows == s.flows[id := Workflow(Ended(true), Some(found), true, s.killed)]
  {
    hide Step, Run;
    var a := Attempt(true, false, true, Some(found));
    var e := AExec(id, a);
    RunsThrough(s, id, a);
    Marking(s, id);
    var s1 := Step(Step(s, AStart(id)), AMark(id));
    Passing(s, s1, id, found);
    var s2 := Step(Step(s1, e), e);
    Placing(s, s2, id, found);
    Ending(s, Step(s2, e), id, found, [PlaceCall(id, s.now, s.rows[id].params, found.mode, found.reducing, s.killed)]);
  }

  // ---- recovery and pruning ---------------------------------------------------------------------------------------------------

  predicate HasStatus(rows: Table, status: Status, i: nat) {
    i < |rows| && !rows[i].pruned && rows[i].status == status
  }

  // The places with this status before place n.
  function PlacesBefore(rows: Table, status: Status, n: nat): set<nat> {
    set i: nat | i < n && HasStatus(rows, status, i)
  }

  lemma StatusBefore(front: Table, r: Row, status: Status, i: nat)
    ensures HasStatus(front + [r], status, i)
            <==> if i < |front| then HasStatus(front, status, i) else i == |front| && !r.pruned && r.status == status
  {
    assert i < |front| ==> (front + [r])[i] == front[i];
  }

  lemma SamePlaces(front: Table, r: Row, status: Status, n: nat)
    requires n <= |front|
    ensures PlacesBefore(front + [r], status, n) == PlacesBefore(front, status, n)
  {
    hide HasStatus;
    forall i: nat | i < n ensures HasStatus(front + [r], status, i) <==> HasStatus(front, status, i) {
      StatusBefore(front, r, status, i);
    }
  }

  lemma OneMorePlace(front: Table, r: Row, status: Status)
    ensures |PlacesBefore(front + [r], status, |front| + 1)|
            == |PlacesBefore(front, status, |front|)| + if !r.pruned && r.status == status then 1 else 0
  {
    hide HasStatus, PlacesBefore;
    var n, rows := |front|, front + [r];
    SamePlaces(front, r, status, n);
    StatusBefore(front, r, status, n);
    OnePlace(rows, status, n);
  }

  lemma OnePlace(rows: Table, status: Status, n: nat)
    ensures |PlacesBefore(rows, status, n + 1)| == |PlacesBefore(rows, status, n)| + if HasStatus(rows, status, n) then 1 else 0
  {
    hide HasStatus;
    assert n !in PlacesBefore(rows, status, n);
    if HasStatus(rows, status, n) {
      assert PlacesBefore(rows, status, n + 1) == PlacesBefore(rows, status, n) + {n};
    } else {
      assert PlacesBefore(rows, status, n + 1) == PlacesBefore(rows, status, n);
    }
  }

  lemma {:induction false} PageFills(rows: Table, status: Status)
    ensures var n := |PlacesBefore(rows, status, |rows|)|; |Page(rows, status)| == if n < 50 then n else 50
  {
    if rows != [] {
      hide PlacesBefore;
      PageFills(rows[..|rows| - 1], status);
      OneMorePlace(rows[..|rows| - 1], rows[|rows| - 1], status);
      assert rows == rows[..|rows| - 1] + [rows[|rows| - 1]];
    }
  }

  /** A pass looks at the first fifty rows of a status, in their order, each once. */
  lemma {:induction false} APageIsTheFirstFifty(rows: Table, status: Status)
    ensures forall id: nat :: id in Page(rows, status) <==> HasStatus(rows, status, id) && |PlacesBefore(rows, status, id)| < 50
    ensures forall j, k | 0 <= j < k < |Page(rows, status)| :: Page(rows, status)[j] < Page(rows, status)[k]
  {
    hide PlacesBefore;
    if rows != [] {
      var front, r := rows[..|rows| - 1], rows[|rows| - 1];
      APageIsTheFirstFifty(front, status);
      PageFills(front, status);
      assert rows == front + [r];
      hide HasStatus;
      forall id: nat ensures id in Page(rows, status) <==> HasStatus(rows, status, id) && |PlacesBefore(rows, status, id)| < 50 {
        StatusBefore(front, r, status, id);
        if id <= |front| { SamePlaces(front, r, status, id); }
      }
    }
  }

  /** A row is pruned exactly when it was finished more than 180 days ago; settling finishes an executing order as its workflow ended. */
  lemma OldRowsGo(s: State, id: nat)
    requires id < |s.rows|
    ensures var r := s.rows[id];
            && Step(s, APrune(id)) ==
                 (if r.finished.Some? && s.now - r.finished.value > 15552000000 then s.(rows := s.rows[id := r.(pruned := true)]) else s)
            && Step(s, ASettle(id)) ==
                 (if id in s.flows && s.flows[id].pos.Ended? && r.kind == Order then
                    s.(rows := s.rows[id := Finished(r, if s.flows[id].pos.ok then Executed else Failed, s.now)])
                  else s)
  {
    assert s.rows[id := s.rows[id]] == s.rows;
  }
}
