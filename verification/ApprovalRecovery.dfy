/**
What one pass of Recover does, from any state a run can be in. A crash can fall between starting a workflow, marking
its proposal and finishing it, or between a sink's effect and the end of its proposal; after the pass an order whose
workflow has ended is finished as the workflow ended, and a proposal whose sink answers is finished as the sink answered.
*/
module ApprovalRecovery {
  import opened Wrappers
  import opened ProposalTable
  import opened ApprovalSpec
  import opened ApprovalInv
  import opened ApprovalSafety

  // What a pass over one row leaves as it is: every other row and workflow.
  ghost predicate Elsewhere(s: State, s': State, id: nat) {
    && |s'.rows| == |s.rows| && s'.now == s.now
    && (forall j | 0 <= j < |s.rows| && j != id :: s'.rows[j] == s.rows[j])
    && (forall j | j != id :: (j in s'.flows <==> j in s.flows) && (j in s.flows ==> s'.flows[j] == s.flows[j]))
    && (forall j | j != id :: (j in s'.applied <==> j in s.applied) && (j in s'.refused <==> j in s.refused))
  }

  lemma ElsewhereTwice(s: State, s1: State, s2: State, id: nat)
    requires Elsewhere(s, s1, id) && Elsewhere(s1, s2, id)
    ensures Elsewhere(s, s2, id)
  {
  }

  lemma AskElsewhere(s: State, id: nat, answer: SinkAnswer)
    requires id < |s.rows|
    ensures Elsewhere(s, Ask(s, id, answer), id)
  {
  }

  lemma FinishElsewhere(s: State, id: nat)
    requires id < |s.rows|
    ensures Elsewhere(s, FinishSink(s, id), id)
  {
  }

  lemma SinkElsewhere(s: State, id: nat, answer: SinkAnswer)
    requires id < |s.rows|
    ensures Elsewhere(s, ExecuteSink(s, id, answer), id)
  {
    var s1 := Mark(s, id);
    if AtSink(s1, id) {
      var s2 := Ask(s1, id, answer);
      AskElsewhere(s1, id, answer);
      ElsewhereTwice(s, s1, s2, id);
      FinishElsewhere(s2, id);
      ElsewhereTwice(s, s2, FinishSink(s2, id), id);
    }
  }

  lemma StartElsewhere(s: State, id: nat, answer: SinkAnswer)
    requires id < |s.rows|
    ensures Elsewhere(s, StartExecution(s, id, answer), id)
  {
    SinkElsewhere(s, id, answer);
  }

  lemma HealElsewhere(s: State, id: nat, answer: SinkAnswer)
    requires id < |s.rows|
    ensures Elsewhere(s, Heal(s, id, answer), id)
  {
    SinkElsewhere(s, id, answer);
  }

  // ---- the pages ----------------------------------------------------------------------------------------------------

  // How many rows have this status.
  function WithStatus(rows: Table, status: Status): nat {
    if rows == [] then 0
    else WithStatus(rows[..|rows| - 1], status) + if !rows[|rows| - 1].pruned && rows[|rows| - 1].status == status then 1 else 0
  }

  predicate OnPage(rows: Table, status: Status, p: seq<nat>) {
    && (forall k | 0 <= k < |p| :: p[k] < |rows| && !rows[p[k]].pruned && rows[p[k]].status == status)
    && (forall j, k | 0 <= j < k < |p| :: p[j] < p[k])
  }

  predicate FullPage(rows: Table, status: Status, p: seq<nat>) {
    forall id | 0 <= id < |rows| && !rows[id].pruned && rows[id].status == status :: id in p
  }

  lemma {:induction false} PageSize(rows: Table, status: Status)
    ensures |Page(rows, status)| == if WithStatus(rows, status) < PAGE then WithStatus(rows, status) else PAGE
  {
    if rows != [] {
      PageSize(rows[..|rows| - 1], status);
    }
  }

  lemma {:induction false} PageIsOf(rows: Table, status: Status)
    ensures OnPage(rows, status, Page(rows, status))
  {
    if rows != [] {
      PageIsOf(rows[..|rows| - 1], status);
    }
  }

  lemma {:induction false} PageIsFull(rows: Table, status: Status)
    requires WithStatus(rows, status) <= PAGE
    ensures FullPage(rows, status, Page(rows, status))
  {
    if rows != [] {
      var front := rows[..|rows| - 1];
      PageSize(front, status);
      PageIsFull(front, status);
      forall id | 0 <= id < |rows| && !rows[id].pruned && rows[id].status == status ensures id in Page(rows, status) {
        if id < |front| {
          assert front[id] == rows[id];
          assert id in Page(front, status);
        }
      }
    }
  }

  // A page that is not full has every such row; no row is on it twice.
  lemma PageHolds(rows: Table, status: Status)
    ensures OnPage(rows, status, Page(rows, status))
    ensures WithStatus(rows, status) <= PAGE ==> FullPage(rows, status, Page(rows, status))
  {
    PageIsOf(rows, status);
    if WithStatus(rows, status) <= PAGE { PageIsFull(rows, status); }
  }

  predicate Ascending(ids: seq<nat>) {
    forall j, k | 0 <= j < k < |ids| :: ids[j] < ids[k]
  }

  // ---- passes over a page ---------------------------------------------------------------------------------------------

  // Row, workflow and sink of id are in s' what they are in s.
  predicate SameAt(s: State, s': State, id: nat)
    requires id < |s.rows|
  {
    && |s'.rows| == |s.rows| && s'.now == s.now && s'.rows[id] == s.rows[id]
    && (id in s'.flows <==> id in s.flows) && (id in s.flows ==> s'.flows[id] == s.flows[id])
    && (id in s'.applied <==> id in s.applied) && (id in s'.refused <==> id in s.refused)
  }

  lemma {:induction false} StartAllElsewhere(s: State, ids: seq<nat>, answers: nat -> SinkAnswer, id: nat)
    requires forall k | 0 <= k < |ids| :: ids[k] < |s.rows|
    requires id < |s.rows| && id !in ids
    ensures SameAt(s, StartAll(s, ids, answers), id)
  {
    if ids != [] {
      var front, last := ids[..|ids| - 1], ids[|ids| - 1];
      assert forall k | 0 <= k < |front| :: front[k] in ids;
      StartAllElsewhere(s, front, answers, id);
      StartElsewhere(StartAll(s, front, answers), last, answers(last));
    }
  }

  lemma {:induction false} HealAllElsewhere(s: State, ids: seq<nat>, answers: nat -> SinkAnswer, id: nat)
    requires forall k | 0 <= k < |ids| :: ids[k] < |s.rows|
    requires id < |s.rows| && id !in ids
    ensures SameAt(s, HealAll(s, ids, answers), id)
  {
    if ids != [] {
      var front, last := ids[..|ids| - 1], ids[|ids| - 1];
      assert forall k | 0 <= k < |front| :: front[k] in ids;
      HealAllElsewhere(s, front, answers, id);
      HealElsewhere(HealAll(s, front, answers), last, answers(last));
    }
  }

  // What Heal and StartExecution do to row id depends on that row, its workflow and its sink alone.
  lemma HealLocal(s: State, s': State, id: nat, answer: SinkAnswer)
    requires id < |s.rows| && SameAt(s, s', id)
    ensures SameAt(Heal(s, id, answer), Heal(s', id, answer), id)
  {
    SinkLocal(s, s', id, answer);
  }

  lemma StartLocal(s: State, s': State, id: nat, answer: SinkAnswer)
    requires id < |s.rows| && SameAt(s, s', id)
    ensures SameAt(StartExecution(s, id, answer), StartExecution(s', id, answer), id)
  {
    SinkLocal(s, s', id, answer);
  }

  lemma SinkLocal(s: State, s': State, id: nat, answer: SinkAnswer)
    requires id < |s.rows| && SameAt(s, s', id)
    ensures SameAt(ExecuteSink(s, id, answer), ExecuteSink(s', id, answer), id)
  {
    var s1, s1' := Mark(s, id), Mark(s', id);
    if AtSink(s1, id) {
      AskLocal(s1, s1', id, answer);
    }
  }

  lemma AskLocal(s: State, s': State, id: nat, answer: SinkAnswer)
    requires id < |s.rows| && SameAt(s, s', id)
    ensures |Ask(s, id, answer).rows| == |s.rows| && SameAt(Ask(s, id, answer), Ask(s', id, answer), id)
    ensures |FinishSink(Ask(s, id, answer), id).rows| == |s.rows|
    ensures SameAt(FinishSink(Ask(s, id, answer), id), FinishSink(Ask(s', id, answer), id), id)
  {
  }

  lemma {:induction false} StartAllAt(s: State, ids: seq<nat>, answers: nat -> SinkAnswer, id: nat)
    requires forall k | 0 <= k < |ids| :: ids[k] < |s.rows|
    requires Ascending(ids) && id in ids
    ensures id < |s.rows| && SameAt(StartExecution(s, id, answers(id)), StartAll(s, ids, answers), id)
  {
    var front, last := ids[..|ids| - 1], ids[|ids| - 1];
    assert ids == front + [last];
    if id == last {
      StartAllElsewhere(s, front, answers, id);
      StartLocal(s, StartAll(s, front, answers), id, answers(id));
    } else {
      StartAllAt(s, front, answers, id);
      StartElsewhere(StartAll(s, front, answers), last, answers(last));
    }
  }

  lemma {:induction false} HealAllAt(s: State, ids: seq<nat>, answers: nat -> SinkAnswer, id: nat)
    requires forall k | 0 <= k < |ids| :: ids[k] < |s.rows|
    requires Ascending(ids) && id in ids
    ensures id < |s.rows| && SameAt(Heal(s, id, answers(id)), HealAll(s, ids, answers), id)
  {
    var front, last := ids[..|ids| - 1], ids[|ids| - 1];
    assert ids == front + [last];
    if id == last {
      HealAllElsewhere(s, front, answers, id);
      HealLocal(s, HealAll(s, front, answers), id, answers(id));
    } else {
      HealAllAt(s, front, answers, id);
      HealElsewhere(HealAll(s, front, answers), last, answers(last));
    }
  }

  // ---- one pass is enough -------------------------------------------------------------------------------------------

  // Nothing is beyond the pages of the pass.
  predicate FitsPages(s: State, starts: nat -> SinkAnswer) {
    && WithStatus(s.rows, Approved) <= PAGE
    && WithStatus(StartAll(s, Page(s.rows, Approved), starts).rows, Executing) <= PAGE
  }

  // What the first loop does to one approved or executing row, and what the pass does.
  function Begun(s: State, id: nat, start: SinkAnswer): (s': State)
    requires id < |s.rows|
    ensures |s'.rows| == |s.rows|
  {
    if s.rows[id].status.Approved? then StartExecution(s, id, start) else s
  }

  function Healed(s: State, id: nat, start: SinkAnswer, heal: SinkAnswer): (s': State)
    requires id < |s.rows|
    ensures |s'.rows| == |s.rows|
  {
    Heal(Begun(s, id, start), id, heal)
  }

  lemma FirstLoopAt(s: State, starts: nat -> SinkAnswer, id: nat)
    requires id < |s.rows| && !s.rows[id].pruned && WithStatus(s.rows, Approved) <= PAGE
    ensures SameAt(Begun(s, id, starts(id)), StartAll(s, Page(s.rows, Approved), starts), id)
  {
    hide StartExecution;
    var approved := Page(s.rows, Approved);
    PageHolds(s.rows, Approved);
    if s.rows[id].status.Approved? {
      StartAllAt(s, approved, starts, id);
    } else {
      assert forall k | 0 <= k < |approved| :: approved[k] != id;
      StartAllElsewhere(s, approved, starts, id);
    }
  }

  lemma SecondLoopAt(s: State, heals: nat -> SinkAnswer, id: nat)
    requires id < |s.rows| && !s.rows[id].pruned && WithStatus(s.rows, Executing) <= PAGE
    ensures SameAt(Heal(s, id, heals(id)), HealAll(s, Page(s.rows, Executing), heals), id)
  {
    var executing := Page(s.rows, Executing);
    PageHolds(s.rows, Executing);
    if id in executing {
      HealAllAt(s, executing, heals, id);
    } else {
      HealAllElsewhere(s, executing, heals, id);
    }
  }

  lemma SinkPrunesNone(s: State, id: nat, answer: SinkAnswer)
    requires id < |s.rows|
    ensures ExecuteSink(s, id, answer).rows[id].pruned == s.rows[id].pruned
  {
    var s1 := Mark(s, id);
    if AtSink(s1, id) {
      FinishPrunesNone(Ask(s1, id, answer), id);
    }
  }

  lemma FinishPrunesNone(s: State, id: nat)
    requires id < |s.rows|
    ensures FinishSink(s, id).rows[id].pruned == s.rows[id].pruned
  {
  }

  lemma BegunPrunesNone(s: State, id: nat, start: SinkAnswer)
    requires id < |s.rows|
    ensures Begun(s, id, start).rows[id].pruned == s.rows[id].pruned
  {
    hide ExecuteSink;
    SinkPrunesNone(s, id, start);
  }

  lemma PassAt(s: State, starts: nat -> SinkAnswer, heals: nat -> SinkAnswer, id: nat)
    requires id < |s.rows| && !s.rows[id].pruned && FitsPages(s, starts)
    ensures SameAt(Healed(s, id, starts(id), heals(id)), Recover(s, starts, heals), id)
  {
    hide Begun, Heal;
    var s1 := StartAll(s, Page(s.rows, Approved), starts);
    FirstLoopAt(s, starts, id);
    BegunPrunesNone(s, id, starts(id));
    SecondLoopAt(s1, heals, id);
    HealLocal(Begun(s, id, starts(id)), s1, id, heals(id));
  }

  lemma OrderHealed(s: State, id: nat, start: SinkAnswer, heal: SinkAnswer)
    requires id < |s.rows| && Fit(s, id)
    requires s.rows[id].kind.Order? && id in s.flows && s.flows[id].pos.Ended?
    requires s.rows[id].status.Approved? || s.rows[id].status.Executing?
    ensures var r := Healed(s, id, start, heal).rows[id];
            r.status == (if s.flows[id].pos.ok then Executed else Failed) && r.finished == Some(s.now)
  {
  }

  /**
  An order whose workflow has ended is finished by one pass, wherever the crash was: executed if the workflow
  succeeded, failed if it ended otherwise.
  */
  lemma OrdersConverge(s: State, starts: nat -> SinkAnswer, heals: nat -> SinkAnswer, id: nat)
    requires Inv(s) && FitsPages(s, starts)
    requires id < |s.rows| && s.rows[id].kind.Order? && id in s.flows && s.flows[id].pos.Ended?
    requires s.rows[id].status.Approved? || s.rows[id].status.Executing?
    ensures var r := Recover(s, starts, heals).rows[id];
            r.status == (if s.flows[id].pos.ok then Executed else Failed) && r.finished == Some(s.now)
  {
    hide Healed, Recover, FitsPages;
    assert Fit(s, id);
    OrderHealed(s, id, starts(id), heals(id));
    PassAt(s, starts, heals, id);
  }

  /**
  However a run went, an order whose workflow succeeded is executed, or will be by the next pass; one whose workflow
  ended before its receipt step is failed, or will be.
  */
  lemma EndsAsTheWorkflowEnded(now: int, owners: set<string>, actions: seq<Action>,
                               starts: nat -> SinkAnswer, heals: nat -> SinkAnswer, id: nat)
    requires var s := Run(Init(now, owners), actions);
             id < |s.rows| && s.rows[id].kind.Order? && id in s.flows && s.flows[id].pos.Ended? && FitsPages(s, starts)
    ensures var s := Run(Init(now, owners), actions); var status := Recover(s, starts, heals).rows[id].status;
            && (s.flows[id].pos.ok ==> status.Executed?)
            && (!s.flows[id].receipted ==> status.Failed?)
  {
    InitInv(now, owners);
    RunInv(Init(now, owners), actions);
    var s := Run(Init(now, owners), actions);
    assert Fit(s, id);
    if s.rows[id].status.Approved? || s.rows[id].status.Executing? {
      OrdersConverge(s, starts, heals, id);
    } else {
      SettledStays(s, starts, heals, id);
    }
  }

  lemma SettledStays(s: State, starts: nat -> SinkAnswer, heals: nat -> SinkAnswer, id: nat)
    requires id < |s.rows| && Settled(s.rows[id])
    ensures Recover(s, starts, heals).rows[id] == s.rows[id]
  {
    PageHolds(s.rows, Approved);
    var s1 := StartAll(s, Page(s.rows, Approved), starts);
    if id in Page(s.rows, Approved) { assert false; }
    StartAllElsewhere(s, Page(s.rows, Approved), starts, id);
    PageHolds(s1.rows, Executing);
    if id in Page(s1.rows, Executing) { assert false; }
    HealAllElsewhere(s1, Page(s1.rows, Executing), heals, id);
  }

  // ---- sinks ----------------------------------------------------------------------------------------------------------

  // After this answer the sink has done it, or refused for good.
  predicate Decides(answer: SinkAnswer, kind: Kind) {
    answer.SinkOk? || answer.ErrorAfter? || (answer.SinkRefused? && IsReflection(kind))
  }

  predicate Says(answer: SinkAnswer, kind: Kind) {
    Decides(answer, kind) && !answer.ErrorAfter?
  }

  // The answer that counts for a row no sink has decided: the first call's, if there is one and it decides.
  function Counting(r: Row, start: SinkAnswer, heal: SinkAnswer): SinkAnswer {
    if r.status.Approved? && Decides(start, r.kind) then start else heal
  }

  lemma SinkHealed(s: State, id: nat, start: SinkAnswer, heal: SinkAnswer)
    requires id < |s.rows| && Fit(s, id) && !s.rows[id].kind.Order?
    requires s.rows[id].status.Approved? || s.rows[id].status.Executing?
    requires (s.rows[id].status.Approved? && Says(start, s.rows[id].kind)) || Says(heal, s.rows[id].kind)
    ensures FinishedAsAnswered(s, Healed(s, id, start, heal), id, Counting(s.rows[id], start, heal))
  {
    hide DecisionsFit, FlowFits;
  }

  // The row is finished, executed exactly if the sink did it, and failed exactly if it refused.
  predicate FinishedAsAnswered(s: State, s': State, id: nat, answer: SinkAnswer)
    requires id < |s.rows| == |s'.rows|
  {
    && (s'.rows[id].status == if id in s'.applied then Executed else Failed)
    && (id in s'.applied <==> id !in s'.refused)
    && (id in s'.applied <==> id in s.applied || (id !in s.refused && !answer.SinkRefused?))
  }

  /**
  An approved mandate, memory or reflection is finished by one pass if the sink answers one of the two calls the pass
  can make for it, and has then taken effect exactly if it is executed; what was done or refused before the crash, or
  in the first call, is what counts.
  */
  lemma SinksConverge(s: State, starts: nat -> SinkAnswer, heals: nat -> SinkAnswer, id: nat)
    requires Inv(s) && FitsPages(s, starts)
    requires id < |s.rows| && !s.rows[id].kind.Order? && (s.rows[id].status.Approved? || s.rows[id].status.Executing?)
    requires (s.rows[id].status.Approved? && Says(starts(id), s.rows[id].kind)) || Says(heals(id), s.rows[id].kind)
    ensures FinishedAsAnswered(s, Recover(s, starts, heals), id, Counting(s.rows[id], starts(id), heals(id)))
  {
    hide Healed, Recover, FitsPages;
    assert Fit(s, id);
    SinkHealed(s, id, starts(id), heals(id));
    PassAt(s, starts, heals, id);
  }

  predicate IsError(answer: SinkAnswer) { answer == ErrorBefore || answer == ErrorAfter }

  // The row still executes, and the sink did it now if an error came after it had.
  predicate StillExecuting(s: State, s': State, id: nat, tookEffect: bool)
    requires id < |s.rows| == |s'.rows|
  {
    && s'.rows[id] == s.rows[id].(status := Executing)
    && (id in s'.refused <==> id in s.refused)
    && (id in s'.applied <==> id in s.applied || (id !in s.refused && tookEffect))
  }

  lemma ErrorHealed(s: State, id: nat, start: SinkAnswer, heal: SinkAnswer)
    requires id < |s.rows| && Fit(s, id) && !s.rows[id].kind.Order? && !s.rows[id].pruned
    requires s.rows[id].status.Approved? || s.rows[id].status.Executing?
    requires (s.rows[id].status.Approved? ==> IsError(start)) && IsError(heal)
    ensures StillExecuting(s, Healed(s, id, start, heal), id, heal == ErrorAfter || (s.rows[id].status.Approved? && start == ErrorAfter))
  {
    hide DecisionsFit, FlowFits;
  }

  /** A sink whose every answer is an error leaves its row executing, for the next pass, even if it has taken effect. */
  lemma AnErrorLeavesTheRow(s: State, starts: nat -> SinkAnswer, heals: nat -> SinkAnswer, id: nat)
    requires Inv(s) && FitsPages(s, starts)
    requires id < |s.rows| && !s.rows[id].kind.Order? && !s.rows[id].pruned && (s.rows[id].status.Approved? || s.rows[id].status.Executing?)
    requires (s.rows[id].status.Approved? ==> IsError(starts(id))) && IsError(heals(id))
    ensures StillExecuting(s, Recover(s, starts, heals), id,
                           heals(id) == ErrorAfter || (s.rows[id].status.Approved? && starts(id) == ErrorAfter))
  {
    hide Healed, Recover, FitsPages;
    assert Fit(s, id);
    ErrorHealed(s, id, starts(id), heals(id));
    PassAt(s, starts, heals, id);
  }
}
