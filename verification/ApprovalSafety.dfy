/**
What every run of approvals keeps, crashes, races, expiry, tampering and changes of owner included: no order is placed
without the owner's approval of exactly that order, and a proposal's status and its workflow or sink agree.
*/
module ApprovalSafety {
  import opened Wrappers
  import opened ProposalTable
  import opened ApprovalSpec
  import opened ApprovalInv

  // ---- the order is the owner's -------------------------------------------------------------------------------------

  // The one decision on the proposal is an approval by an owner, made before it expired and before the call.
  predicate ApprovedBy(d: Decision, r: Row, c: PlaceCall) {
    && d.id == c.id && d.approve && d.owner
    && r.created <= d.at < r.expires
    && d.at <= c.at <= d.at + (r.expires - r.created)
    && (d.killed ==> r.reducing)
  }

  /**
  Every call that places an order follows exactly one decision on its proposal: an approval by who was then the owner,
  before the proposal expired and not longer ago than the proposal was open. It places the parameters that were
  inserted, in the mode that was proposed and rechecked. An order that was proposed as an exit, or by the assistant of
  its own accord, or that is placed while the kill switch is engaged, was rechecked as one that only reduces risk; and
  only an exit was approved while it was.
  */
  lemma NoOrderWithoutApproval(now: int, owners: set<string>, actions: seq<Action>, c: PlaceCall)
    requires c in Run(Init(now, owners), actions).placed
    ensures var s := Run(Init(now, owners), actions);
            && c.id < |s.rows|
            && (exists d :: DecisionsOn(s.decisions, c.id) == [d] && ApprovedBy(d, s.rows[c.id], c))
            && s.rows[c.id].hash == HashOf(Order, c.params) && s.rows[c.id].mode == c.mode
            && (s.rows[c.id].reducing || s.rows[c.id].origin == FromProactive || c.killed ==> c.reducing)
  {
    InitInv(now, owners);
    RunInv(Init(now, owners), actions);
    var s := Run(Init(now, owners), actions);
    assert CallFits(s, c) && Fit(s, c.id);
    var r := s.rows[c.id];
    assert ApprovedBy(DecisionsOn(s.decisions, c.id)[0], r, c);
  }

  /** A workflow that has passed its recheck kept an answer, and one that only reduces risk where it had to be. */
  lemma RecheckedFlows(now: int, owners: set<string>, actions: seq<Action>, id: nat)
    requires id in Run(Init(now, owners), actions).flows
    ensures var s := Run(Init(now, owners), actions); var w := s.flows[id];
            && id < |s.rows| && s.rows[id].kind == Order
            && (w.pos in {Throttle, Place, Verify, Record, Receipt, Ended(true)} ==> w.rc.Some?)
            && (w.rc.Some? ==>
                  && w.rc.value.mode == s.rows[id].mode
                  && (s.rows[id].reducing || s.rows[id].origin == FromProactive || w.killed ==> w.rc.value.reducing))
  {
    InitInv(now, owners);
    RunInv(Init(now, owners), actions);
    assert Fit(Run(Init(now, owners), actions), id);
  }

  // ---- what each step asks ----------------------------------------------------------------------------------------------

  // The proposal is an order that the present owner approved, unharmed, and not longer ago than it was open.
  predicate Good(s: State, r: Row) {
    && !r.pruned && r.kind == Order && r.status in {Approved, Executing}
    && r.decidedAt.Some? && r.decidedBy in s.owners && r.hash == HashOf(r.kind, r.params)
    && s.now <= r.decidedAt.value + (r.expires - r.created)
  }

  // What the recheck found is what was approved.
  predicate Matching(s: State, r: Row, found: Rechecked) {
    && found.mode == r.mode
    && (r.reducing ==> found.reducing) && (r.origin == FromProactive ==> found.reducing) && (s.killed ==> found.reducing)
  }

  /** A recheck whose result is kept passes exactly then; otherwise the workflow fails, and nothing else changes. */
  lemma RecheckPasses(s: State, id: nat, a: Attempt)
    requires id < |s.rows| && id in s.flows && s.flows[id].pos == Recheck && a.kept
    ensures var s' := Step(s, AExec(id, a));
            && s' == s.(flows := s'.flows)
            && s'.flows == s.flows[id := if a.found.Some? && Good(s, s.rows[id]) && Matching(s, s.rows[id], a.found.value)
                                         then Workflow(Throttle, a.found, s.flows[id].receipted, s.killed)
                                         else s.flows[id].(pos := SettleFailure)]
  {
  }

  /** The broker is called exactly when the approval is still good and the kill switch does not forbid it; once, with the row's parameters. */
  lemma PlaceCalls(s: State, id: nat, a: Attempt)
    requires id < |s.rows| && id in s.flows && s.flows[id].pos == Place
    ensures var s', rc := Step(s, AExec(id, a)), s.flows[id].rc;
            && s' == s.(flows := s'.flows, placed := s'.placed)
            && s'.placed == s.placed +
                 if rc.Some? && Good(s, s.rows[id]) && (s.killed ==> rc.value.reducing)
                 then [PlaceCall(id, s.now, s.rows[id].params, rc.value.mode, rc.value.reducing, s.killed)] else []
  {
    assert s.placed + [] == s.placed;
  }

  // Moves money, so the kill switch can hold it back.
  predicate MovesMoney(r: Row) {
    (r.kind == Order || r.kind == Mandate) && !r.reducing
  }

  /**
  A decision takes effect exactly when its sender is the owner and the proposal is pending, open and unharmed, unless it
  would approve under the kill switch what moves money. One that finds the proposal expired or harmed ends it.
  */
  lemma DecisionsTakeEffect(s: State, id: nat, approve: bool, sender: string)
    requires id < |s.rows|
    ensures var r, s' := s.rows[id], Step(s, ADecide(id, approve, sender));
            if sender !in s.owners || r.pruned || r.status != Pending then s' == s
            else if r.expires <= s.now then s' == s.(rows := s.rows[id := r.(status := Expired, finished := Some(s.now))])
            else if r.hash != HashOf(r.kind, r.params) then s' == s.(rows := s.rows[id := r.(status := Cancelled, finished := Some(s.now))])
            else if approve && s.killed && MovesMoney(r) then s' == s
            else
              && s'.decisions == s.decisions + [Decision(id, approve, sender, s.now, true, s.killed)]
              && s' == s.(rows := s'.rows, decisions := s'.decisions)
              && s'.rows == s.rows[id := if approve then r.(status := Approved, decidedAt := Some(s.now), decidedBy := sender, finished := None)
                                         else r.(status := Rejected, decidedAt := Some(s.now), decidedBy := sender, finished := Some(s.now))]
  {
  }

  lemma ExecRows(s: State, i: nat, a: Attempt)
    requires i < |s.rows|
    ensures var rows := Exec(s, i, a).rows;
            || rows == s.rows
            || rows == s.rows[i := FinishedAt(s.rows[i], true, s.now)]
            || rows == s.rows[i := FinishedAt(s.rows[i], false, s.now)]
  {
  }

  lemma DecideRows(s: State, i: nat, approve: bool, sender: string)
    requires i < |s.rows|
    ensures var rows, r := Decide(s, i, approve, sender).rows, s.rows[i];
            || rows == s.rows
            || (r.status.Pending? && rows == s.rows[i := ExpiredAt(r, s.now)])
            || (r.status.Pending? && rows == s.rows[i := CancelledAt(r, s.now)])
            || (r.status.Pending? && rows == s.rows[i := Decided(r, approve, sender, s.now)])
  {
  }

  // Nothing else changes in the table, and in row id not what was proposed.
  ghost predicate RowKept(s: State, s': State, id: nat)
    requires id < |s.rows|
  {
    && |s'.rows| == |s.rows| && Keeps(s.rows[id], s'.rows[id])
    && forall j | 0 <= j < |s.rows| && j != id :: s'.rows[j] == s.rows[j]
  }

  lemma SetKept(s: State, s': State, id: nat, r: Row)
    requires id < |s.rows| && s'.rows == s.rows[id := r] && Keeps(s.rows[id], r)
    ensures RowKept(s, s', id)
  {
  }

  lemma SameKept(s: State, s': State, id: nat)
    requires id < |s.rows| && s'.rows == s.rows
    ensures RowKept(s, s', id)
  {
  }

  lemma FinishKeeps(r: Row, ok: bool, now: int)
    ensures Keeps(r, FinishedAt(r, ok, now))
  {
  }

  lemma ExecKept(s: State, id: nat, a: Attempt)
    requires id < |s.rows|
    ensures RowKept(s, Exec(s, id, a), id)
  {
    hide Exec, Keeps, FinishedAt, RowKept;
    ExecRows(s, id, a);
    var s', r := Exec(s, id, a), s.rows[id];
    FinishKeeps(r, true, s.now);
    FinishKeeps(r, false, s.now);
    if s'.rows == s.rows {
      SameKept(s, s', id);
    } else if s'.rows == s.rows[id := FinishedAt(r, true, s.now)] {
      SetKept(s, s', id, FinishedAt(r, true, s.now));
    } else {
      SetKept(s, s', id, FinishedAt(r, false, s.now));
    }
  }

  lemma DecideKept(s: State, id: nat, approve: bool, sender: string)
    requires id < |s.rows| && RowOk(s.rows[id], s.now)
    ensures RowKept(s, Decide(s, id, approve, sender), id)
  {
    hide Decide;
    DecideRows(s, id, approve, sender);
  }

  lemma FinishKept(s: State, id: nat)
    requires id < |s.rows|
    ensures RowKept(s, Settle(s, id), id) && RowKept(s, FinishSink(s, id), id)
  {
  }

  lemma AskKept(s: State, id: nat, answer: SinkAnswer)
    requires id < |s.rows|
    ensures RowKept(s, Ask(s, id, answer), id)
  {
  }

  lemma FlowKept(s: State, id: nat)
    requires id < |s.rows|
    ensures RowKept(s, Start(s, id), id) && RowKept(s, EndEarly(s, id), id) && RowKept(s, s, id) && RowKept(s, Mark(s, id), id)
  {
  }

  lemma RowStepKept(s: State, a: Action, id: nat)
    requires Subject(a) == Some(id) && id < |s.rows| && RowOk(s.rows[id], s.now)
    ensures RowKept(s, RowStep(s, a, id), id)
  {
    hide RowKept, RowOk, Keeps, Decide, Exec, Start, Mark, EndEarly, Settle, Ask, FinishSink, Stated;
    FlowKept(s, id);
    FinishKept(s, id);
    if IsStatement(a) {
      StatedIsPlain(s.rows[id], a, s.now);
      SetKept(s, RowStep(s, a, id), id, Stated(s.rows[id], a, s.now));
      return;
    }
    match a {
      case ADecide(_, approve, sender) => DecideKept(s, id, approve, sender);
      case AExec(_, attempt) => ExecKept(s, id, attempt);
      case AAsk(_, answer) => AskKept(s, id, answer);
      case _ =>
    }
  }

  lemma StepKeepsRow(s: State, a: Action, id: nat)
    requires Inv(s) && id < |s.rows|
    ensures id < |Step(s, a).rows| && Keeps(s.rows[id], Step(s, a).rows[id])
  {
    hide RowStep;
    if Subject(a).Some? && Subject(a).value < |s.rows| {
      assert Fit(s, Subject(a).value);
      RowStepKept(s, a, Subject(a).value);
    }
  }

  /** Nothing that happens changes what was proposed: the hash, and all the card said, are the inserted ones for ever. */
  lemma {:induction false} ProposalsNeverChange(s: State, actions: seq<Action>, id: nat)
    requires Inv(s) && id < |s.rows|
    ensures id < |Run(s, actions).rows| && Keeps(s.rows[id], Run(s, actions).rows[id])
  {
    if actions != [] {
      ProposalsNeverChange(s, actions[..|actions| - 1], id);
      RunInv(s, actions[..|actions| - 1]);
      StepKeepsRow(Run(s, actions[..|actions| - 1]), actions[|actions| - 1], id);
    }
  }

  /** The bounds hold in every run, for every class, at every time. */
  lemma BoundsHold(now: int, owners: set<string>, actions: seq<Action>, c: Class, to: int)
    ensures var s := Run(Init(now, owners), actions);
            match c
            case OrderClass => OpenIn(s.rows, c, s.now) <= 3 && CreatedBetween(s.rows, c, to - 3600000, to) <= 10
            case MandateClass => OpenIn(s.rows, c, s.now) <= 8 && CreatedBetween(s.rows, c, to - 3600000, to) <= 30
            case MemoryClass => OpenIn(s.rows, c, s.now) <= 5 && CreatedBetween(s.rows, c, to - 86400000, to) <= 10
            case ReflectionClass => OpenIn(s.rows, c, s.now) <= 5 && CreatedBetween(s.rows, c, to - 86400000, to) <= 10
  {
    hide Run, Step, OpenIn, CreatedBetween;
    InitInv(now, owners);
    RunInv(Init(now, owners), actions);
    var s := Run(Init(now, owners), actions);
    EveryWindowHolds(s.rows, c, to, |s.rows|);
    assert s.rows[..|s.rows|] == s.rows;
  }

  /** What a sink did was approved by the owner, once; a proposal that is executed at a sink took effect there. */
  lemma SinksAreApproved(now: int, owners: set<string>, actions: seq<Action>, id: nat)
    requires id < |Run(Init(now, owners), actions).rows| && !Run(Init(now, owners), actions).rows[id].kind.Order?
    ensures var s := Run(Init(now, owners), actions); var r := s.rows[id];
            && (id in s.applied ==> exists d :: DecisionsOn(s.decisions, id) == [d] && d.approve && d.owner)
            && (r.status.Executed? ==> id in s.applied)
            && (r.status.Failed? ==> id in s.refused && id !in s.applied)
  {
    InitInv(now, owners);
    RunInv(Init(now, owners), actions);
    var s := Run(Init(now, owners), actions);
    assert Fit(s, id);
    if id in s.applied {
      assert DecisionsOn(s.decisions, id)[0].approve;
    }
  }
}
