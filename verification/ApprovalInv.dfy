/**
Every step of the approvals keeps one invariant, and so every run has it. What follows from it is in ApprovalSafety.

The invariant ties each row to the three things that are kept beside it, all by the proposal's place in the table:

  - the decisions made on it (DecisionsFit): one exactly when its status says it was decided, and by whom;
  - its workflow, or what its sink did (FlowFits, SinkFits): how far an order can have got at each status, and that a
    proposal which took effect at its sink was approved;
  - the calls that place an order (CallFits): each was made for an approved order, not longer after its decision than it
    had been open, with the inserted parameters and in the row's mode.

Most actions touch one row, its workflow or its sink, and have a lemma that says which of these could change; StepInv
puts them together and RunInv is the induction.
*/
module ApprovalInv {
  import opened Wrappers
  import opened ProposalTable
  import opened ApprovalSpec

  // The decisions made on proposal id, in order.
  function DecisionsOn(ds: seq<Decision>, id: nat): seq<Decision> {
    if ds == [] then []
    else
      var front, d := DecisionsOn(ds[..|ds| - 1], id), ds[|ds| - 1];
      if d.id == id then front + [d] else front
  }

  // ---- the invariant ------------------------------------------------------------------------------------------------

  predicate Settled(r: Row) {
    !r.status.Pending? && !r.status.Approved? && !r.status.Executing?
  }

  // What the row says of itself.
  predicate RowOk(r: Row, now: int) {
    && r.hash.kind == r.kind
    && (r.decidedAt.Some? <==> r.status.Rejected? || WasApproved(r))
    && (r.decidedAt.Some? ==> r.created <= r.decidedAt.value < r.expires && r.decidedAt.value <= now)
    && (r.finished.Some? <==> Settled(r))
    && (r.pruned ==> Settled(r))
    && r.created <= now
  }

  // There is one decision on a decided row, the one it records, and none on another.
  predicate DecisionsFit(s: State, id: nat)
    requires id < |s.rows|
  {
    var r, ds := s.rows[id], DecisionsOn(s.decisions, id);
    if r.decidedAt.Some? then
      && |ds| == 1 && ds[0] == Decision(id, WasApproved(r), r.decidedBy, r.decidedAt.value, true, ds[0].killed)
      && (ds[0].killed && ds[0].approve ==> r.reducing || r.kind.Memory? || IsReflection(r.kind))
    else ds == []
  }

  // What was found reducing is, where it has to be: for an exit, a proactive order, and under the kill switch.
  predicate OnlyReduces(r: Row, reducing: bool, killed: bool) {
    r.reducing || r.origin.FromProactive? || killed ==> reducing
  }

  // The workflow has passed its recheck, and has not failed.
  predicate IsRechecked(pos: Pos) {
    pos.Throttle? || pos.Place? || pos.Verify? || pos.Record? || pos.Receipt? || pos == Ended(true)
  }

  // A workflow is an approved order's, and knows the mode of the order; how far it is fits the order's status.
  predicate FlowFits(s: State, id: nat)
    requires id < |s.rows|
  {
    var r := s.rows[id];
    if id in s.flows then
      var w := s.flows[id];
      && r.kind.Order? && WasApproved(r)
      && (w.rc.Some? ==> w.rc.value.mode == r.mode && OnlyReduces(r, w.rc.value.reducing, w.killed))
      && (IsRechecked(w.pos) ==> w.rc.Some?)
      && (w.receipted ==> w.pos.Receipt? || w.pos.Ended?)
      && (w.pos == Ended(true) ==> w.receipted)
      && (r.status.Executed? ==> w.receipted)
      && (r.status.Failed? ==> w.pos.SettleFailure? || w.pos == Ended(false))
    else r.kind.Order? ==> !WasExecuting(r)
  }

  // What a sink did, or refused, was approved; the row ends as the sink answered.
  predicate SinkFits(s: State, id: nat)
    requires id < |s.rows|
  {
    var r := s.rows[id];
    && (id in s.applied || id in s.refused ==> !r.kind.Order? && WasExecuting(r))
    && (id in s.refused ==> IsReflection(r.kind) && id !in s.applied)
    && (!r.kind.Order? && r.status.Executed? ==> id in s.applied)
    && (!r.kind.Order? && r.status.Failed? ==> id in s.refused)
  }

  // The order was approved, not longer ago than it was open, with these parameters, in this mode.
  predicate CallFits(s: State, c: PlaceCall) {
    && c.id < |s.rows|
    && (var r := s.rows[c.id];
        && r.kind.Order? && WasApproved(r) && r.decidedAt.Some?
        && r.decidedAt.value <= c.at <= r.decidedAt.value + (r.expires - r.created)
        && r.hash == HashOf(Order, c.params)
        && c.mode == r.mode && OnlyReduces(r, c.reducing, c.killed))
  }

  predicate Fit(s: State, id: nat)
    requires id < |s.rows|
  {
    RowOk(s.rows[id], s.now) && DecisionsFit(s, id) && FlowFits(s, id) && SinkFits(s, id)
  }

  predicate Inv(s: State) {
    && Bounded(s.rows, s.now)
    && (forall id | 0 <= id < |s.rows| :: Fit(s, id))
    && (forall id | id in s.flows :: id < |s.rows|)
    && (forall id | id in s.applied :: id < |s.rows|)
    && (forall id | id in s.refused :: id < |s.rows|)
    && (forall d | d in s.decisions :: d.id < |s.rows|)
    && (forall c | c in s.placed :: CallFits(s, c))
  }

  lemma InitInv(now: int, owners: set<string>)
    ensures Inv(Init(now, owners))
  {
  }

  // ---- steps on one row ---------------------------------------------------------------------------------------------

  // What no action changes in a row, and what it does not undo.
  predicate Keeps(r: Row, r': Row) {
    && r'.kind == r.kind && r'.hash == r.hash && r'.origin == r.origin && r'.mode == r.mode && r'.reducing == r.reducing
    && r'.created == r.created && r'.expires == r.expires
    && (WasApproved(r) ==> WasApproved(r')) && (WasExecuting(r) ==> WasExecuting(r'))
    && (r.decidedAt.Some? ==> r'.decidedAt == r.decidedAt && r'.decidedBy == r.decidedBy)
  }

  lemma RowInv(s: State, id: nat, r: Row)
    requires Inv(s) && id < |s.rows|
    requires Keeps(s.rows[id], r) && Ages(s.rows[id], r, s.now) && RowOk(r, s.now)
    requires r.decidedAt == s.rows[id].decidedAt && r.decidedBy == s.rows[id].decidedBy
    requires WasApproved(r) == WasApproved(s.rows[id])
    requires FlowFits(SetRow(s, id, r), id) && SinkFits(SetRow(s, id, r), id)
    ensures Inv(SetRow(s, id, r))
  {
    var s' := SetRow(s, id, r);
    assert Fit(s, id);
    assert Aged(s.rows, s'.rows, s.now);
    AgingKeepsBounds(s.rows, s'.rows, s.now, s.now);
    forall j | 0 <= j < |s'.rows| ensures Fit(s', j) {
      assert Fit(s, j);
    }
    forall c | c in s'.placed ensures CallFits(s', c) {
      assert CallFits(s, c);
    }
  }

  lemma FlowInv(s: State, id: nat, w: Workflow)
    requires Inv(s) && id < |s.rows| && FlowFits(Go(s, id, w), id)
    ensures Inv(Go(s, id, w))
  {
    var s' := Go(s, id, w);
    forall j | 0 <= j < |s'.rows| ensures Fit(s', j) {
      assert Fit(s, j);
    }
    forall c | c in s'.placed ensures CallFits(s', c) {
      assert CallFits(s, c);
    }
  }

  lemma ConfigInv(s: State, s': State)
    requires Inv(s) && s' == s.(owners := s'.owners, killed := s'.killed)
    ensures Inv(s')
  {
    forall j | 0 <= j < |s'.rows| ensures Fit(s', j) {
      assert Fit(s, j);
    }
    forall c | c in s'.placed ensures CallFits(s', c) {
      assert CallFits(s, c);
    }
  }

  lemma ClockInv(s: State, to: int)
    requires Inv(s) && s.now <= to
    ensures Inv(s.(now := to))
  {
    var s' := s.(now := to);
    assert Aged(s.rows, s.rows, to);
    AgingKeepsBounds(s.rows, s.rows, s.now, to);
    forall j | 0 <= j < |s'.rows| ensures Fit(s', j) {
      assert Fit(s, j);
    }
    forall c | c in s'.placed ensures CallFits(s', c) {
      assert CallFits(s, c);
    }
  }

  lemma {:induction false} NoDecisionsYet(ds: seq<Decision>, id: nat)
    requires forall d | d in ds :: d.id < id
    ensures DecisionsOn(ds, id) == []
  {
    if ds != [] {
      NoDecisionsYet(ds[..|ds| - 1], id);
      assert ds[|ds| - 1] in ds;
    }
  }

  lemma InsertInv(s: State, r: Row)
    requires Inv(s) && r == NewRow(r.kind, r.params, r.origin, r.mode, r.reducing, s.now, r.expires)
    ensures Inv(s.(rows := Insert(s.rows, r, s.now)))
  {
    var s' := s.(rows := Insert(s.rows, r, s.now));
    InsertKeepsBounds(s.rows, r, s.now);
    var n := |s.rows|;
    NoDecisionsYet(s.decisions, n);
    assert n !in s.flows && n !in s.applied && n !in s.refused;
    forall j | 0 <= j < |s'.rows| ensures Fit(s', j) {
      if j < |s.rows| { assert Fit(s, j); }
    }
    forall c | c in s'.placed ensures CallFits(s', c) {
      assert CallFits(s, c);
    }
  }

  lemma DecidedInv(s: State, id: nat, approve: bool, sender: string)
    requires Inv(s) && id < |s.rows| && sender in s.owners && CanDecide(s.rows[id], s.now)
    requires approve && s.killed ==> s.rows[id].reducing || s.rows[id].kind.Memory? || IsReflection(s.rows[id].kind)
    ensures Inv(SetRow(s, id, Decided(s.rows[id], approve, sender, s.now))
                  .(decisions := s.decisions + [Decision(id, approve, sender, s.now, sender in s.owners, s.killed)]))
  {
    var r, d := s.rows[id], Decision(id, approve, sender, s.now, true, s.killed);
    var s' := SetRow(s, id, Decided(r, approve, sender, s.now)).(decisions := s.decisions + [d]);
    assert Fit(s, id);
    assert Aged(s.rows, s'.rows, s.now);
    AgingKeepsBounds(s.rows, s'.rows, s.now, s.now);
    assert s'.decisions[..|s.decisions|] == s.decisions;
    forall j | 0 <= j < |s'.rows| ensures Fit(s', j) {
      assert Fit(s, j);
    }
    forall c | c in s'.placed ensures CallFits(s', c) {
      assert CallFits(s, c);
    }
  }

  lemma DecideInv(s: State, id: nat, approve: bool, sender: string)
    requires Inv(s) && id < |s.rows|
    ensures Inv(Decide(s, id, approve, sender))
  {
    var r := s.rows[id];
    assert Fit(s, id);
    if sender in s.owners && !r.pruned && r.status.Pending? {
      if s.now >= r.expires {
        RowInv(s, id, ExpiredAt(r, s.now));
      } else if !Verified(r) {
        RowInv(s, id, CancelledAt(r, s.now));
      } else if approve && s.killed ==> r.reducing || Harmless(r.kind) {
        DecidedInv(s, id, approve, sender);
      }
    }
  }

  lemma CallInv(s: State, id: nat, rc: Rechecked)
    requires Inv(s) && id < |s.rows| && MayProceed(s, id) && rc.mode == s.rows[id].mode
    requires OnlyReduces(s.rows[id], rc.reducing, s.killed)
    ensures Inv(CallPlace(s, id, rc))
  {
    var s' := CallPlace(s, id, rc);
    assert Fit(s, id);
    forall j | 0 <= j < |s'.rows| ensures Fit(s', j) {
      assert Fit(s, j);
    }
    forall c | c in s'.placed ensures CallFits(s', c) {
      assert c in s.placed ==> CallFits(s, c);
    }
  }

  lemma PlaceInv(s: State, id: nat, a: Attempt)
    requires Inv(s) && id < |s.rows| && id in s.flows && s.flows[id].pos.Place?
    ensures Inv(Exec(s, id, a))
  {
    var w := s.flows[id];
    assert Fit(s, id);
    if w.rc.Some? && MayProceed(s, id) && (s.killed ==> w.rc.value.reducing) {
      CallInv(s, id, w.rc.value);
      var s1 := CallPlace(s, id, w.rc.value);
      if a.kept { FlowInv(s1, id, if a.works then w.(pos := Verify) else AfterError(w, a)); }
    } else if a.kept {
      FlowInv(s, id, AfterError(w, a));
    }
  }

  lemma ReceivedInv(s: State, id: nat)
    requires Inv(s) && id < |s.rows| && Fit(s, id) && id in s.flows && s.flows[id].receipted && s.flows[id].pos.Receipt?
    ensures Inv(Received(s, id)) && Received(s, id).flows == s.flows
  {
    var r := s.rows[id];
    if !r.pruned && Verified(r) && r.kind.Order? {
      RowInv(s, id, FinishedAt(r, true, s.now));
    }
  }

  // The receipt is written before the order is finished, as far as the invariant goes.
  lemma ReceiptInv(s: State, id: nat, a: Attempt)
    requires Inv(s) && id < |s.rows| && id in s.flows && s.flows[id].pos.Receipt?
    ensures Inv(Receipted(Received(s, id), id, s.flows[id], a))
  {
    hide FinishedAt, Bounded, RowOk, DecisionsFit, SinkFits, CallFits;
    var w, s1 := s.flows[id], Go(s, id, s.flows[id].(receipted := true));
    assert Fit(s, id);
    FlowInv(s, id, w.(receipted := true));
    assert Fit(s1, id);
    ReceivedInv(s1, id);
    var s2, w2 := Received(s1, id), if a.kept then w.(pos := Ended(true), receipted := true) else w.(receipted := true);
    assert Fit(s2, id);
    FlowInv(s2, id, w2);
    assert s2.flows[id := w2] == s.flows[id := w2];
  }

  lemma SettleFailureInv(s: State, id: nat, a: Attempt)
    requires Inv(s) && id < |s.rows| && id in s.flows && s.flows[id].pos.SettleFailure?
    ensures Inv(Exec(s, id, a))
  {
    hide Bounded, DecisionsFit, CallFits;
    var w, r := s.flows[id], s.rows[id];
    assert Fit(s, id);
    RowInv(s, id, FinishedAt(r, false, s.now));
    var s1 := SetRow(s, id, FinishedAt(r, false, s.now));
    assert Fit(s1, id);
    if a.kept { FlowInv(s1, id, w.(pos := Ended(false))); }
  }

  lemma ExecInv(s: State, id: nat, a: Attempt)
    requires Inv(s) && id < |s.rows|
    ensures Inv(Exec(s, id, a))
  {
    if id in s.flows {
      assert Fit(s, id);
      match s.flows[id].pos {
        case Place => PlaceInv(s, id, a);
        case Receipt => ReceiptInv(s, id, a);
        case SettleFailure => SettleFailureInv(s, id, a);
        case Ended(_) =>
        case _ => if a.kept { FlowInv(s, id, Exec(s, id, a).flows[id]); }
      }
    }
  }

  lemma AskInv(s: State, id: nat, answer: SinkAnswer)
    requires Inv(s) && id < |s.rows| && !s.rows[id].kind.Order? && WasExecuting(s.rows[id])
    ensures Inv(Ask(s, id, answer))
  {
    var s' := Ask(s, id, answer);
    assert Fit(s, id);
    forall j | 0 <= j < |s'.rows| ensures Fit(s', j) {
      assert Fit(s, j);
    }
    forall c | c in s'.placed ensures CallFits(s', c) {
      assert CallFits(s, c);
    }
  }


  // A statement that decides nothing and touches no executing row.
  lemma PlainRowInv(s: State, id: nat, r: Row)
    requires Inv(s) && id < |s.rows| && Fit(s, id)
    requires Keeps(s.rows[id], r) && Ages(s.rows[id], r, s.now) && RowOk(r, s.now)
    requires r.decidedAt == s.rows[id].decidedAt && r.decidedBy == s.rows[id].decidedBy
    requires WasApproved(r) == WasApproved(s.rows[id])
    requires r.status == s.rows[id].status || !WasApproved(r)
    ensures Inv(SetRow(s, id, r))
  {
    RowInv(s, id, r);
  }

  lemma MarkInv(s: State, id: nat)
    requires Inv(s) && id < |s.rows| && Fit(s, id) && (s.rows[id].kind.Order? ==> id in s.flows)
    ensures Inv(Mark(s, id))
  {
    RowInv(s, id, Marked(s.rows[id]));
  }

  lemma StatedIsPlain(r: Row, a: Action, now: int)
    requires RowOk(r, now)
    ensures var r' := Stated(r, a, now);
            && Keeps(r, r') && Ages(r, r', now) && RowOk(r', now) && r'.decidedAt == r.decidedAt && r'.decidedBy == r.decidedBy
            && WasApproved(r') == WasApproved(r) && (r'.status == r.status || !WasApproved(r'))
  {
  }

  lemma StatementInv(s: State, a: Action, id: nat)
    requires Inv(s) && id < |s.rows| && Fit(s, id)
    ensures Inv(SetRow(s, id, Stated(s.rows[id], a, s.now)))
  {
    StatedIsPlain(s.rows[id], a, s.now);
    PlainRowInv(s, id, Stated(s.rows[id], a, s.now));
  }

  lemma SettleInv(s: State, id: nat)
    requires Inv(s) && id < |s.rows| && Fit(s, id)
    ensures Inv(Settle(s, id))
  {
    if id in s.flows && s.flows[id].pos.Ended? && s.rows[id].kind.Order? {
      RowInv(s, id, FinishedAt(s.rows[id], s.flows[id].pos.ok, s.now));
    }
  }

  lemma FinishSinkInv(s: State, id: nat)
    requires Inv(s) && id < |s.rows| && Fit(s, id) && !s.rows[id].kind.Order?
    ensures Inv(FinishSink(s, id))
  {
    if id in s.applied {
      RowInv(s, id, FinishedAt(s.rows[id], true, s.now));
    } else if id in s.refused {
      RowInv(s, id, FinishedAt(s.rows[id], false, s.now));
    }
  }

  lemma StartInv(s: State, id: nat)
    requires Inv(s) && id < |s.rows| && Fit(s, id) && s.rows[id].kind.Order? && WasApproved(s.rows[id])
    ensures Inv(Start(s, id))
  {
    if id !in s.flows { FlowInv(s, id, Workflow(Recheck, None, false, false)); }
  }

  lemma EndEarlyInv(s: State, id: nat)
    requires Inv(s) && id < |s.rows| && Fit(s, id)
    ensures Inv(EndEarly(s, id))
  {
    if id in s.flows && !s.flows[id].pos.Ended? { FlowInv(s, id, s.flows[id].(pos := Ended(false))); }
  }

  // ---- every step -----------------------------------------------------------------------------------------------------

  lemma RowStepInv(s: State, a: Action, id: nat)
    requires Inv(s) && Subject(a) == Some(id) && id < |s.rows| && Fit(s, id)
    ensures Inv(RowStep(s, a, id))
  {
    hide Inv, Fit, Decide, Exec, Start, Mark, EndEarly, Settle, Ask, FinishSink, Stated;
    if IsStatement(a) { StatementInv(s, a, id); return; }
    match a {
      case ADecide(_, approve, sender) => DecideInv(s, id, approve, sender);
      case AStart(_) => if s.rows[id].kind.Order? && WasApproved(s.rows[id]) { StartInv(s, id); }
      case AMark(_) => if s.rows[id].kind.Order? ==> id in s.flows { MarkInv(s, id); }
      case AExec(_, attempt) => ExecInv(s, id, attempt);
      case AEndEarly(_) => EndEarlyInv(s, id);
      case ASettle(_) => SettleInv(s, id);
      case AAsk(_, answer) => if !s.rows[id].kind.Order? && WasExecuting(s.rows[id]) { AskInv(s, id, answer); }
      case AFinishSink(_) => if !s.rows[id].kind.Order? { FinishSinkInv(s, id); }
      case _ =>
    }
  }

  lemma OtherStepInv(s: State, a: Action)
    requires Inv(s) && Subject(a).None?
    ensures Inv(OtherStep(s, a))
  {
    hide Inv;
    match a {
      case AClock(to) => if to >= s.now { ClockInv(s, to); }
      case AOwners(owners) => ConfigInv(s, s.(owners := owners));
      case AKill(killed) => ConfigInv(s, s.(killed := killed));
      case AInsert(kind, params, origin, mode, reducing, expires) =>
        InsertInv(s, NewRow(kind, params, origin, mode, reducing, s.now, expires));
    }
  }

  lemma StepInv(s: State, a: Action)
    requires Inv(s)
    ensures Inv(Step(s, a))
  {
    hide RowStep, OtherStep;
    if Subject(a).None? {
      OtherStepInv(s, a);
    } else if Subject(a).value < |s.rows| {
      assert Fit(s, Subject(a).value);
      RowStepInv(s, a, Subject(a).value);
    }
  }

  lemma {:induction false} RunInv(s: State, actions: seq<Action>)
    requires Inv(s)
    ensures Inv(Run(s, actions))
  {
    if actions != [] {
      RunInv(s, actions[..|actions| - 1]);
      StepInv(Run(s, actions[..|actions| - 1]), actions[|actions| - 1]);
    }
  }
}
