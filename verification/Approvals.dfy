/**
The service and its store (pkg/approval/service.go, store.go, execute.go): the table and the journal as fields that the
methods update, a method for each statement and each flow. What a method does is an action, or a pass, of ApprovalSpec.

  - the statements change one row, and only if it is in the state they are for;
  - the decision, the steps of the workflow and the sinks follow the order of the source.
*/
module Approvals {
  import opened Wrappers
  import opened ProposalTable
  import opened ApprovalSpec

  // The rows ExpireDue finds: pending, due, and not more than a page of them.
  function DuePage(rows: Table, now: int): seq<nat> {
    if rows == [] then []
    else
      var front := DuePage(rows[..|rows| - 1], now);
      if IsDue(rows[|rows| - 1], now) && |front| < PAGE then front + [|rows| - 1] else front
  }

  predicate IsDue(r: Row, now: int) {
    !r.pruned && r.status.Pending? && r.expires <= now
  }

  lemma {:induction false} DuePageRows(rows: Table, now: int)
    ensures var due := DuePage(rows, now);
            && (forall k | 0 <= k < |due| :: due[k] < |rows| && IsDue(rows[due[k]], now))
            && (forall j, k | 0 <= j < k < |due| :: due[j] < due[k])
            && (|due| < PAGE ==> forall i | 0 <= i < |rows| && IsDue(rows[i], now) :: i in due)
  {
    if rows != [] {
      DuePageRows(rows[..|rows| - 1], now);
    }
  }

  // How many rows are no longer what they were.
  function Changed(before: Table, after: Table): nat
    requires |before| == |after|
  {
    if before == [] then 0
    else
      var n := |before| - 1;
      Changed(before[..n], after[..n]) + if before[n] != after[n] then 1 else 0
  }

  lemma OneMoreChanged(before: Table, after: Table, i: nat)
    requires i < |before| == |after|
    ensures Changed(before[..i + 1], after[..i + 1]) == Changed(before[..i], after[..i]) + if before[i] != after[i] then 1 else 0
  {
    assert before[..i + 1][..i] == before[..i] && after[..i + 1][..i] == after[..i];
  }

  lemma {:induction false} ChangedBefore(before: Table, after: Table, i: nat)
    requires i <= |before| == |after| && forall k | i <= k < |before| :: before[k] == after[k]
    ensures Changed(before, after) == Changed(before[..i], after[..i])
    decreases |before| - i
  {
    if i < |before| {
      OneMoreChanged(before, after, i);
      ChangedBefore(before, after, i + 1);
    } else {
      assert before[..i] == before && after[..i] == after;
    }
  }

  lemma OneMoreDue(due: seq<nat>, k: nat)
    requires k < |due| && forall i, j | 0 <= i < j < |due| :: due[i] < due[j]
    ensures due[k] !in due[..k] && forall i :: i in due[..k + 1] <==> i in due[..k] || i == due[k]
  {
    assert due[..k + 1] == due[..k] + [due[k]];
  }

  // Refused though the row is pending, not expired and, as far as it was looked at, unharmed: the nonce is another
  // proposal's, or there is nowhere for an approved one to take effect.
  predicate IsTurnedAway(s: State, id: nat, approve: bool, nonceFits: bool, sinks: set<Kind>)
    requires id < |s.rows|
  {
    var r := s.rows[id];
    && !r.pruned && r.status.Pending? && s.now < r.expires
    && (!nonceFits || (r.hash == HashOf(r.kind, r.params) && approve && !r.kind.Order? && r.kind !in sinks))
  }

  class Service {
    var now: int
    var owners: set<string>
    var killed: bool
    var rows: Table
    var flows: map<nat, Workflow>
    // What the sinks remember.
    var applied: set<nat>
    var refused: set<nat>
    ghost var decisions: seq<Decision>
    ghost var placed: seq<PlaceCall>

    ghost function View(): State
      reads this
    {
      State(now, owners, killed, rows, flows, applied, refused, decisions, placed)
    }

    constructor (start: int, owner: set<string>)
      ensures View() == Init(start, owner)
    {
      now, owners, killed := start, owner, false;
      rows, flows, applied, refused, decisions, placed := [], map[], {}, {}, [], [];
    }

    // ---- the store ----------------------------------------------------------------------------------------------------

    // The COUNT subqueries of store.go:200-201.
    method CountPending(c: Class) returns (n: nat)
      ensures n == PendingIn(rows, c, now)
    {
      n := 0;
      for i := 0 to |rows|
        invariant n == PendingIn(rows[..i], c, now)
      {
        assert rows[..i + 1][..i] == rows[..i];
        if !rows[i].pruned && rows[i].status.Pending? && rows[i].expires > now && Matches(c, rows[i].kind, rows[i].origin) {
          n := n + 1;
        }
      }
      assert rows[..|rows|] == rows;
    }

    method CountCreated(c: Class, from: int) returns (n: nat)
      ensures n == CreatedIn(rows, c, from)
    {
      n := 0;
      for i := 0 to |rows|
        invariant n == CreatedIn(rows[..i], c, from)
      {
        assert rows[..i + 1][..i] == rows[..i];
        if !rows[i].pruned && rows[i].created > from && Matches(c, rows[i].kind, rows[i].origin) {
          n := n + 1;
        }
      }
      assert rows[..|rows|] == rows;
    }

    // store.go:191-217
    method InsertProposal(kind: Kind, params: Params, origin: Origin, mode: string, reducing: bool, expires: int) returns (ok: bool)
      modifies this`rows
      ensures View() == Step(old(View()), AInsert(kind, params, origin, mode, reducing, expires))
      ensures ok <==> |rows| == |old(rows)| + 1
      ensures ok <==> Fits(old(rows), kind, origin, now)
    {
      var c := ClassOf(kind, origin);
      var pending := CountPending(c);
      var created := CountCreated(c, now - Window(c));
      ok := pending < MaxPending(c) && created < MaxInWindow(c);
      if ok {
        rows := rows + [Row(kind, params, HashOf(kind, params), origin, mode, reducing, Pending, now, expires, None, "", None, false)];
      }
    }

    // store.go:299-308
    method DecideRow(id: nat, approve: bool, sender: string) returns (changed: bool)
      requires id < |rows|
      modifies this`rows
      ensures changed == CanDecide(old(rows[id]), now)
      ensures rows == if changed then old(rows)[id := Decided(old(rows[id]), approve, sender, now)] else old(rows)
    {
      var r := rows[id];
      changed := !r.pruned && r.status.Pending? && r.expires > now;
      if changed {
        rows := rows[id := r.(status := if approve then Approved else Rejected, decidedAt := Some(now), decidedBy := sender,
                              finished := if approve then None else Some(now))];
      }
    }

    // store.go:310-314
    method ExpireRow(id: nat) returns (changed: bool)
      requires id < |rows|
      modifies this`rows
      ensures View() == Step(old(View()), AExpire(id))
      ensures rows == old(rows)[id := ExpiredAt(old(rows[id]), now)]
      ensures changed <==> rows[id].status.Expired? && !old(rows[id]).status.Expired?
    {
      var r := rows[id];
      changed := !r.pruned && r.status.Pending? && r.expires <= now;
      if changed {
        rows := rows[id := r.(status := Expired, finished := Some(now))];
      }
    }

    // store.go:316-320
    method CancelRow(id: nat) returns (changed: bool)
      requires id < |rows|
      modifies this`rows
      ensures View() == Step(old(View()), ACancel(id))
      ensures changed <==> rows[id].status.Cancelled? && !old(rows[id]).status.Cancelled?
    {
      var r := rows[id];
      changed := !r.pruned && r.status.Pending?;
      if changed {
        rows := rows[id := r.(status := Cancelled, finished := Some(now))];
      }
    }

    // store.go:322-325
    method MarkExecuting(id: nat) returns (changed: bool)
      requires id < |rows|
      modifies this`rows
      ensures View() == Mark(old(View()), id)
      ensures changed <==> rows[id] != old(rows[id])
    {
      changed := !rows[id].pruned && rows[id].status.Approved?;
      if changed {
        rows := rows[id := rows[id].(status := Executing)];
      }
    }

    // store.go:328-332
    method Finish(id: nat, ok: bool) returns (changed: bool)
      requires id < |rows|
      modifies this`rows
      ensures rows == old(rows)[id := FinishedAt(old(rows[id]), ok, now)]
      ensures changed <==> rows[id] != old(rows[id])
    {
      changed := !rows[id].pruned && rows[id].status.Executing?;
      if changed {
        rows := rows[id := rows[id].(status := if ok then Executed else Failed, finished := Some(now))];
      }
    }

    method PruneRow(id: nat) returns (changed: bool)
      requires id < |rows|
      modifies this`rows
      ensures rows == old(rows)[id := PrunedAt(old(rows[id]), now)]
      ensures changed <==> rows[id] != old(rows[id])
    {
      var r := rows[id];
      changed := !r.pruned && r.finished.Some? && r.finished.value < now - RETENTION;
      if changed {
        rows := rows[id := r.(pruned := true)];
      }
    }

    // store.go:355-365: at most limit rows, and every row that can be pruned when fewer are.
    method Prune(limit: nat) returns (n: nat)
      modifies this`rows
      ensures n <= limit && |rows| == |old(rows)| && n == Changed(old(rows), rows)
      ensures forall i | 0 <= i < |rows| :: rows[i] == old(rows[i]) || rows[i] == PrunedAt(old(rows[i]), now)
      ensures n < limit ==> forall i | 0 <= i < |rows| :: rows[i] == PrunedAt(old(rows[i]), now)
    {
      hide PrunedAt;
      n := 0;
      var i := 0;
      while i < |rows| && n < limit
        invariant 0 <= i <= |rows| == |old(rows)| && n <= limit
        invariant n == Changed(old(rows)[..i], rows[..i])
        invariant forall k | 0 <= k < i :: rows[k] == PrunedAt(old(rows[k]), now)
        invariant forall k | i <= k < |rows| :: rows[k] == old(rows[k])
      {
        var changed := PruneRow(i);
        if changed {
          n := n + 1;
        }
        OneMoreChanged(old(rows), rows, i);
        i := i + 1;
      }
      ChangedBefore(old(rows), rows, i);
    }

    // The rows of one status, a page of them (service.go:569 and 583).
    method List(status: Status) returns (ids: seq<nat>)
      ensures ids == Page(rows, status)
    {
      ids := [];
      for i := 0 to |rows|
        invariant ids == Page(rows[..i], status)
      {
        assert rows[..i + 1][..i] == rows[..i];
        if !rows[i].pruned && rows[i].status == status && |ids| < PAGE {
          ids := ids + [i];
        }
      }
      assert rows[..|rows|] == rows;
    }

    // ---- deciding -----------------------------------------------------------------------------------------------------

    // service.go:349-407, for a sender whose claim the caller has proved. nonceFits: the nonce is the proposal's, or there
    // is none; sinks: the kinds with somewhere to take effect.
    method DecideProposal(id: nat, approve: bool, sender: string, nonceFits: bool, sinks: set<Kind>) returns (changed: bool)
      requires id < |rows|
      modifies this`rows, this`decisions
      ensures View() == if IsTurnedAway(old(View()), id, approve, nonceFits, sinks) then old(View())
                        else Step(old(View()), ADecide(id, approve, sender))
      ensures changed <==> |decisions| == |old(decisions)| + 1
      ensures !changed ==> decisions == old(decisions)
    {
      hide OtherStep, Exec, Start, Mark, EndEarly, Settle, Ask, FinishSink;
      changed := false;
      var r := rows[id];
      if sender !in owners || r.pruned || !r.status.Pending? {
        return;
      }
      if now >= r.expires {
        var expired := ExpireRow(id);
        return;
      }
      if !nonceFits {
        return;
      }
      if r.hash != HashOf(r.kind, r.params) {
        var cancelled := CancelRow(id);
        return;
      }
      if approve && killed && !r.reducing && !r.kind.Memory? && !IsReflection(r.kind) {
        return;
      }
      if approve && !r.kind.Order? && r.kind !in sinks {
        return;
      }
      changed := DecideRow(id, approve, sender);
      decisions := decisions + [Decision(id, approve, sender, now, sender in owners, killed)];
    }

    // service.go:474-488: the first rows that are due, as many as a page holds.
    method ExpireDue() returns (n: nat)
      modifies this`rows
      ensures |rows| == |old(rows)|
      ensures forall i | 0 <= i < |rows| ::
                rows[i] == if i in DuePage(old(rows), now) then ExpiredAt(old(rows[i]), now) else old(rows[i])
      ensures n == |DuePage(old(rows), now)|
    {
      hide Step;
      var due := ListDue();
      DuePageRows(rows, now);
      n := 0;
      for k := 0 to |due|
        invariant |rows| == |old(rows)| && n == k
        invariant forall i | 0 <= i < |rows| :: rows[i] == if i in due[..k] then ExpiredAt(old(rows[i]), now) else old(rows[i])
      {
        OneMoreDue(due, k);
        var changed := ExpireRow(due[k]);
        if changed {
          n := n + 1;
        }
      }
      assert due[..|due|] == due;
    }

    method ListDue() returns (ids: seq<nat>)
      ensures ids == DuePage(rows, now)
    {
      ids := [];
      for i := 0 to |rows|
        invariant ids == DuePage(rows[..i], now)
      {
        assert rows[..i + 1][..i] == rows[..i];
        if !rows[i].pruned && rows[i].status.Pending? && rows[i].expires <= now && |ids| < PAGE {
          ids := ids + [i];
        }
      }
      assert rows[..|rows|] == rows;
    }

    // ---- the workflow -------------------------------------------------------------------------------------------------

    // execute.go:113-130
    method CheckExecutable(id: nat) returns (ok: bool)
      requires id < |rows|
      ensures ok == Executable(View(), id)
    {
      var r := rows[id];
      ok := false;
      if r.pruned || (!r.status.Approved? && !r.status.Executing?) {
        return;
      }
      if r.decidedAt.None? || r.decidedBy !in owners {
        return;
      }
      ok := r.hash == HashOf(r.kind, r.params) && r.kind.Order?;
    }

    // execute.go:134-143
    method CheckFresh(id: nat) returns (ok: bool)
      requires id < |rows|
      ensures ok == MayProceed(View(), id)
    {
      ok := CheckExecutable(id);
      if ok {
        var r := rows[id];
        ok := now - r.decidedAt.value <= r.expires - r.created;
      }
    }

    // execute.go:145-174
    method StepRecheck(id: nat, found: Option<Rechecked>) returns (ok: bool)
      requires id < |rows|
      ensures ok <==> found.Some? && Rechecks(View(), id, found.value)
    {
      ok := CheckFresh(id);
      if !ok || found.None? {
        return false;
      }
      var r, rc := rows[id], found.value;
      if rc.mode != r.mode || (r.reducing && !rc.reducing) || (r.origin.FromProactive? && !rc.reducing) || (killed && !rc.reducing) {
        return false;
      }
    }

    // execute.go:193-226: whether the order went to the broker; what it placed is what the stored row says now.
    method StepPlace(id: nat, rc: Rechecked) returns (called: bool)
      requires id < |rows|
      modifies this`placed
      ensures called <==> MayProceed(old(View()), id) && (killed ==> rc.reducing)
      ensures View() == if called then CallPlace(old(View()), id, rc) else old(View())
    {
      called := CheckFresh(id);
      if !called || (killed && !rc.reducing) {
        return false;
      }
      placed := placed + [PlaceCall(id, now, rows[id].params, rc.mode, rc.reducing, killed)];
    }

    // execute.go:76-92: the steps up to the broker, and where the workflow goes on.
    method Attempted(id: nat, w: Workflow, attempt: Attempt) returns (next: Workflow)
      requires id < |rows| && id in flows && w == flows[id] && (w.pos.Recheck? || w.pos.Throttle? || w.pos.Place?)
      modifies this`placed
      ensures Exec(old(View()), id, attempt) == Keep(View(), id, attempt, next)
    {
      hide Rechecks, MayProceed;
      match w.pos {
        case Recheck =>
          var ok := StepRecheck(id, attempt.found);
          next := if ok then w.(pos := Throttle, rc := attempt.found, killed := killed) else w.(pos := SettleFailure);
        case Throttle =>
          var ok := CheckFresh(id);
          next := if ok && attempt.works then w.(pos := Place) else if attempt.again then w else w.(pos := SettleFailure);
        case Place =>
          var called := false;
          if w.rc.Some? {
            called := StepPlace(id, w.rc.value);
          }
          next := if called && attempt.works then w.(pos := Verify) else if attempt.again then w else w.(pos := SettleFailure);
      }
    }

    // execute.go:49-108: the next step of the workflow of proposal id is executed, and kept if the process lives to.
    method ExecuteNext(id: nat, attempt: Attempt)
      requires id < |rows| && id in flows
      modifies this`rows, this`flows, this`placed
      ensures View() == Step(old(View()), AExec(id, attempt))
    {
      hide OtherStep, Decide, Start, Mark, EndEarly, Settle, Ask, FinishSink, Stated, Rechecks, MayProceed;
      var w := flows[id];
      var next := w;
      match w.pos {
        case Recheck => next := Attempted(id, w, attempt);
        case Throttle => next := Attempted(id, w, attempt);
        case Place => next := Attempted(id, w, attempt);
        case Verify => next := w.(pos := Record);
        case Record => next := w.(pos := Receipt);
        case Receipt =>
          if !rows[id].pruned && Verified(rows[id]) && rows[id].kind.Order? {
            var changed := Finish(id, true);
          }
          w := w.(receipted := true);
          next := w.(pos := Ended(true));
        case SettleFailure =>
          var changed := Finish(id, false);
          next := w.(pos := Ended(false));
        case Ended(_) =>
      }
      if w.pos.Receipt? {
        flows := flows[id := if attempt.kept then next else w];
      } else if attempt.kept && !w.pos.Ended? {
        flows := flows[id := next];
      }
    }

    // ---- execution and recovery ---------------------------------------------------------------------------------------

    // service.go:539-559, with mandate.go:250-277, memory.go:281-309 and reflection.go:380-411
    method StartExecutionOf(id: nat, answer: SinkAnswer)
      requires id < |rows|
      modifies this`rows, this`flows, this`applied, this`refused
      ensures View() == StartExecution(old(View()), id, answer)
    {
      if rows[id].kind.Order? {
        if id !in flows {
          flows := flows[id := Workflow(Recheck, None, false, false)];
        }
        var changed := MarkExecuting(id);
      } else {
        RunSink(id, answer);
      }
    }

    method RunSink(id: nat, answer: SinkAnswer)
      requires id < |rows|
      modifies this`rows, this`applied, this`refused
      ensures View() == ExecuteSink(old(View()), id, answer)
    {
      var marked := MarkExecuting(id);
      if rows[id].pruned || !rows[id].status.Executing? || rows[id].kind.Order? {
        return;
      }
      if id !in applied && id !in refused {
        if answer.SinkOk? || answer.ErrorAfter? {
          applied := applied + {id};
        } else if answer.SinkRefused? && IsReflection(rows[id].kind) {
          refused := refused + {id};
        }
      }
      if answer.ErrorBefore? || answer.ErrorAfter? {
        return;
      }
      if id in applied {
        var changed := Finish(id, true);
      } else if id in refused {
        var changed := Finish(id, false);
      }
    }

    // service.go:587-616
    method HealOne(id: nat, answer: SinkAnswer)
      requires id < |rows|
      modifies this`rows, this`flows, this`applied, this`refused
      ensures View() == Heal(old(View()), id, answer)
    {
      if rows[id].pruned || !rows[id].status.Executing? {
        return;
      }
      if !rows[id].kind.Order? {
        RunSink(id, answer);
        return;
      }
      if id !in flows {
        flows := flows[id := Workflow(Recheck, None, false, false)];
        var changed := MarkExecuting(id);
        return;
      }
      match flows[id].pos {
        case Ended(ok) =>
          var changed := Finish(id, ok);
        case _ =>
      }
    }

    // service.go:565-618
    method RecoverAll(starts: nat -> SinkAnswer, heals: nat -> SinkAnswer)
      modifies this`rows, this`flows, this`applied, this`refused
      ensures View() == Recover(old(View()), starts, heals)
    {
      hide StartExecution, Heal, Page;
      var approved := List(Approved);
      for k := 0 to |approved|
        invariant View() == StartAll(old(View()), approved[..k], starts)
      {
        assert approved[..k + 1][..k] == approved[..k];
        StartExecutionOf(approved[k], starts(approved[k]));
      }
      assert approved[..|approved|] == approved;
      ghost var started := View();
      var executing := List(Executing);
      for k := 0 to |executing|
        invariant View() == HealAll(started, executing[..k], heals)
      {
        assert executing[..k + 1][..k] == executing[..k];
        HealOne(executing[k], heals(executing[k]));
      }
      assert executing[..|executing|] == executing;
    }
  }
}
