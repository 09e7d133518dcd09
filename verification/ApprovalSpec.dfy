/**
Deciding and executing a proposal as a state machine (pkg/approval/service.go, execute.go, mandate.go, memory.go,
reflection.go): the table, the journal's workflows, and one action for each statement, each execution of a workflow
step and each call of a sink. A crash is any action that does not come: a step can be executed and its result not be
kept, a workflow can be started and its proposal not be marked.
*/
module ApprovalSpec {
  import opened Wrappers
  import opened ProposalTable

  // What Backend.Recheck found, and keeps for the later steps.
  datatype Rechecked = Rechecked(mode: string, reducing: bool)

  datatype Pos = Recheck | Throttle | Place | Verify | Record | Receipt | SettleFailure | Ended(ok: bool)

  // A workflow: its next step, what recheck kept, and whether the receipt step was executed. killed is for the record:
  // whether the kill switch was engaged when recheck kept its answer.
  datatype Workflow = Workflow(pos: Pos, rc: Option<Rechecked>, receipted: bool, killed: bool)

  // A decision and a call of the broker, with what the kill switch was then; reducing is what the recheck had found.
  datatype Decision = Decision(id: nat, approve: bool, sender: string, at: int, owner: bool, killed: bool)

  datatype PlaceCall = PlaceCall(id: nat, at: int, params: Params, mode: string, reducing: bool, killed: bool)

  // What a sink answers: done; refused for good (reflection only); an error before, or after, it took effect.
  datatype SinkAnswer = SinkOk | SinkRefused | ErrorBefore | ErrorAfter

  datatype State = State(
    now: int, owners: set<string>, killed: bool,
    rows: Table, flows: map<nat, Workflow>,
    applied: set<nat>, refused: set<nat>,
    decisions: seq<Decision>, placed: seq<PlaceCall>)

  function Init(now: int, owners: set<string>): State {
    State(now, owners, false, [], map[], {}, {}, [], [])
  }

  function SetRow(s: State, id: nat, r: Row): State
    requires id < |s.rows|
  {
    s.(rows := s.rows[id := r])
  }

  predicate Verified(r: Row) {
    r.hash == HashOf(r.kind, r.params)
  }

  // The kinds whose approval moves no money (service.go:389).
  predicate Harmless(k: Kind) {
    k.Memory? || IsReflection(k)
  }

  // ---- deciding -----------------------------------------------------------------------------------------------------

  // service.go:349-428, up to the start of the execution; sender is who the call proved to be.
  function Decide(s: State, id: nat, approve: bool, sender: string): State
    requires id < |s.rows|
  {
    var r := s.rows[id];
    if sender !in s.owners || r.pruned || !r.status.Pending? then s
    else if s.now >= r.expires then SetRow(s, id, ExpiredAt(r, s.now))
    else if !Verified(r) then SetRow(s, id, CancelledAt(r, s.now))
    else if approve && s.killed && !r.reducing && !Harmless(r.kind) then s
    else
      SetRow(s, id, Decided(r, approve, sender, s.now))
        .(decisions := s.decisions + [Decision(id, approve, sender, s.now, sender in s.owners, s.killed)])
  }

  // ---- the workflow -------------------------------------------------------------------------------------------------

  // execute.go:113-130
  predicate Executable(s: State, id: nat)
    requires id < |s.rows|
  {
    var r := s.rows[id];
    && !r.pruned
    && (r.status.Approved? || r.status.Executing?)
    && r.decidedAt.Some? && r.decidedBy in s.owners
    && Verified(r) && r.kind.Order?
  }

  // execute.go:134-143
  predicate Stale(s: State, r: Row)
    requires r.decidedAt.Some?
  {
    s.now - r.decidedAt.value > r.expires - r.created
  }

  predicate MayProceed(s: State, id: nat)
    requires id < |s.rows|
  {
    Executable(s, id) && !Stale(s, s.rows[id])
  }

  // execute.go:145-174
  predicate Rechecks(s: State, id: nat, rc: Rechecked)
    requires id < |s.rows|
  {
    var r := s.rows[id];
    && MayProceed(s, id)
    && rc.mode == r.mode
    && (r.reducing ==> rc.reducing)
    && (r.origin.FromProactive? ==> rc.reducing)
    && (s.killed ==> rc.reducing)
  }

  function Go(s: State, id: nat, w: Workflow): State {
    s.(flows := s.flows[id := w])
  }

  // service.go:539-559: an existing workflow is not started again.
  function Start(s: State, id: nat): State {
    if id in s.flows then s else Go(s, id, Workflow(Recheck, None, false, false))
  }

  function Mark(s: State, id: nat): State
    requires id < |s.rows|
  {
    SetRow(s, id, Marked(s.rows[id]))
  }

  // A step is executed; kept says that its result was journaled, again that a failure is retried. found is what
  // Backend.Recheck answers, works whether the backend takes the call.
  datatype Attempt = Attempt(kept: bool, again: bool, works: bool, found: Option<Rechecked>)

  // Where the workflow is after a step that failed.
  function AfterError(w: Workflow, a: Attempt): Workflow {
    if a.again then w else w.(pos := SettleFailure)
  }

  function Keep(s: State, id: nat, a: Attempt, w: Workflow): State {
    if a.kept then Go(s, id, w) else s
  }

  // execute.go:193-226: the call of the broker.
  function CallPlace(s: State, id: nat, rc: Rechecked): State
    requires id < |s.rows|
  {
    s.(placed := s.placed + [PlaceCall(id, s.now, s.rows[id].params, rc.mode, rc.reducing, s.killed)])
  }

  // execute.go:272-283: the receipt step finishes the order it can still verify, and is journaled or not.
  function Received(s: State, id: nat): State
    requires id < |s.rows|
  {
    var r := s.rows[id];
    if !r.pruned && Verified(r) && r.kind.Order? then SetRow(s, id, FinishedAt(r, true, s.now)) else s
  }

  function Receipted(s: State, id: nat, w: Workflow, a: Attempt): State {
    Go(s, id, if a.kept then w.(pos := Ended(true), receipted := true) else w.(receipted := true))
  }

  // execute.go:49-108, the next step of the workflow of proposal id
  function Exec(s: State, id: nat, a: Attempt): State
    requires id < |s.rows|
  {
    if id !in s.flows then s
    else
      var w, r := s.flows[id], s.rows[id];
      match w.pos
      case Recheck =>
        if a.found.Some? && Rechecks(s, id, a.found.value) then Keep(s, id, a, w.(pos := Throttle, rc := a.found, killed := s.killed))
        else Keep(s, id, a, w.(pos := SettleFailure))
      case Throttle =>
        if MayProceed(s, id) && a.works then Keep(s, id, a, w.(pos := Place))
        else Keep(s, id, a, AfterError(w, a))
      case Place =>
        if w.rc.Some? && MayProceed(s, id) && (s.killed ==> w.rc.value.reducing) then
          Keep(CallPlace(s, id, w.rc.value), id, a, if a.works then w.(pos := Verify) else AfterError(w, a))
        else Keep(s, id, a, AfterError(w, a))
      case Verify => Keep(s, id, a, w.(pos := Record))
      case Record => Keep(s, id, a, w.(pos := Receipt))
      case Receipt => Receipted(Received(s, id), id, w, a)
      case SettleFailure => Keep(SetRow(s, id, FinishedAt(r, false, s.now)), id, a, w.(pos := Ended(false)))
      case Ended(_) => s
  }

  // A workflow can also end in a panic, by being cancelled or at the journal's attempt limit.
  function EndEarly(s: State, id: nat): State {
    if id in s.flows && !s.flows[id].pos.Ended? then Go(s, id, s.flows[id].(pos := Ended(false))) else s
  }

  // ---- the sinks ----------------------------------------------------------------------------------------------------

  // mandate.go:250-277, memory.go:281-309, reflection.go:380-411. A sink is idempotent: what it has done it does not
  // do again or refuse, and what it refused for good it does not do.
  function Ask(s: State, id: nat, answer: SinkAnswer): State
    requires id < |s.rows|
  {
    if id in s.applied || id in s.refused then s
    else if answer.SinkOk? || answer.ErrorAfter? then s.(applied := s.applied + {id})
    else if answer.SinkRefused? && IsReflection(s.rows[id].kind) then s.(refused := s.refused + {id})
    else s
  }

  // Whether the sink said so, and what it said.
  predicate Answered(s: State, id: nat, answer: SinkAnswer) {
    !answer.ErrorBefore? && !answer.ErrorAfter? && (id in s.applied || id in s.refused)
  }

  function FinishSink(s: State, id: nat): State
    requires id < |s.rows|
  {
    if id in s.applied then SetRow(s, id, FinishedAt(s.rows[id], true, s.now))
    else if id in s.refused then SetRow(s, id, FinishedAt(s.rows[id], false, s.now))
    else s
  }

  // An executing row of another kind than an order.
  predicate AtSink(s: State, id: nat)
    requires id < |s.rows|
  {
    !s.rows[id].pruned && s.rows[id].status.Executing? && !s.rows[id].kind.Order?
  }

  // ---- recovery -----------------------------------------------------------------------------------------------------

  // service.go:539-559 and the execute functions, without a crash in between
  function StartExecution(s: State, id: nat, answer: SinkAnswer): (s': State)
    requires id < |s.rows|
    ensures |s'.rows| == |s.rows|
  {
    if s.rows[id].kind.Order? then Mark(Start(s, id), id) else ExecuteSink(s, id, answer)
  }

  function ExecuteSink(s: State, id: nat, answer: SinkAnswer): (s': State)
    requires id < |s.rows|
    ensures |s'.rows| == |s.rows|
  {
    var s1 := Mark(s, id);
    if !AtSink(s1, id) then s1
    else
      var s2 := Ask(s1, id, answer);
      if Answered(s2, id, answer) then FinishSink(s2, id) else s2
  }

  // service.go:587-616, for one executing row
  function Heal(s: State, id: nat, answer: SinkAnswer): (s': State)
    requires id < |s.rows|
    ensures |s'.rows| == |s.rows|
  {
    var r := s.rows[id];
    if r.pruned || !r.status.Executing? then s
    else if !r.kind.Order? then ExecuteSink(s, id, answer)
    else if id !in s.flows then Mark(Start(s, id), id)
    else
      match s.flows[id].pos
      case Ended(ok) => SetRow(s, id, FinishedAt(r, ok, s.now))
      case _ => s
  }

  const PAGE := 50

  // The first rows with this status, at most a page of them.
  function Page(rows: Table, status: Status): (ids: seq<nat>)
    ensures |ids| <= PAGE && forall k | 0 <= k < |ids| :: ids[k] < |rows|
  {
    if rows == [] then []
    else
      var front := Page(rows[..|rows| - 1], status);
      var r := rows[|rows| - 1];
      if !r.pruned && r.status == status && |front| < PAGE then front + [|rows| - 1] else front
  }

  function StartAll(s: State, ids: seq<nat>, answers: nat -> SinkAnswer): (s': State)
    requires forall k | 0 <= k < |ids| :: ids[k] < |s.rows|
    ensures |s'.rows| == |s.rows|
  {
    if ids == [] then s
    else
      var s1 := StartAll(s, ids[..|ids| - 1], answers);
      StartExecution(s1, ids[|ids| - 1], answers(ids[|ids| - 1]))
  }

  function HealAll(s: State, ids: seq<nat>, answers: nat -> SinkAnswer): (s': State)
    requires forall k | 0 <= k < |ids| :: ids[k] < |s.rows|
    ensures |s'.rows| == |s.rows|
  {
    if ids == [] then s
    else
      var s1 := HealAll(s, ids[..|ids| - 1], answers);
      Heal(s1, ids[|ids| - 1], answers(ids[|ids| - 1]))
  }

  // service.go:565-618; a sink that is asked in both loops can answer each of them as it likes.
  function Recover(s: State, starts: nat -> SinkAnswer, heals: nat -> SinkAnswer): (s': State)
    ensures |s'.rows| == |s.rows|
  {
    var s1 := StartAll(s, Page(s.rows, Approved), starts);
    HealAll(s1, Page(s1.rows, Executing), heals)
  }

  // ---- actions ------------------------------------------------------------------------------------------------------

  datatype Action =
    | AClock(to: int)
    | AOwners(owners: set<string>) | AKill(killed: bool)
    | AInsert(kind: Kind, params: Params, origin: Origin, mode: string, reducing: bool, expires: int)
    | ATamper(id: nat, params: Params)
    | ADecide(id: nat, approve: bool, sender: string)
    | AExpire(id: nat) | ACancel(id: nat)
    | AStart(id: nat) | AMark(id: nat)
    | AExec(id: nat, attempt: Attempt) | AEndEarly(id: nat)
    | ASettle(id: nat)
    | AAsk(id: nat, answer: SinkAnswer) | AFinishSink(id: nat)
    | APrune(id: nat)

  // The row the action is about.
  function Subject(a: Action): Option<nat> {
    match a
    case ATamper(id, _) => Some(id)
    case ADecide(id, _, _) => Some(id)
    case AExpire(id) => Some(id)
    case ACancel(id) => Some(id)
    case AStart(id) => Some(id)
    case AMark(id) => Some(id)
    case AExec(id, _) => Some(id)
    case AEndEarly(id) => Some(id)
    case ASettle(id) => Some(id)
    case AAsk(id, _) => Some(id)
    case AFinishSink(id) => Some(id)
    case APrune(id) => Some(id)
    case _ => None
  }

  // An action that cannot happen in s leaves it as it is. A workflow is started for an order that was approved, a
  // row that is executing at its sink's call may be settled by another pass before the answer comes.
  function Step(s: State, a: Action): State {
    if Subject(a).None? then OtherStep(s, a)
    else if Subject(a).value >= |s.rows| then s
    else RowStep(s, a, Subject(a).value)
  }

  function OtherStep(s: State, a: Action): State
    requires Subject(a).None?
  {
    match a
    case AClock(to) => if to >= s.now then s.(now := to) else s
    case AOwners(owners) => s.(owners := owners)
    case AKill(killed) => s.(killed := killed)
    case AInsert(kind, params, origin, mode, reducing, expires) =>
      s.(rows := Insert(s.rows, NewRow(kind, params, origin, mode, reducing, s.now, expires), s.now))
  }

  function RowStep(s: State, a: Action, id: nat): State
    requires Subject(a) == Some(id) && id < |s.rows|
  {
    if IsStatement(a) then SetRow(s, id, Stated(s.rows[id], a, s.now))
    else
      match a
      case ADecide(_, approve, sender) => Decide(s, id, approve, sender)
      case AStart(_) => if s.rows[id].kind.Order? && WasApproved(s.rows[id]) then Start(s, id) else s
      case AMark(_) => if s.rows[id].kind.Order? && id !in s.flows then s else Mark(s, id)
      case AExec(_, attempt) => Exec(s, id, attempt)
      case AEndEarly(_) => EndEarly(s, id)
      case ASettle(_) => Settle(s, id)
      case AAsk(_, answer) => if !s.rows[id].kind.Order? && WasExecuting(s.rows[id]) then Ask(s, id, answer) else s
      case AFinishSink(_) => if !s.rows[id].kind.Order? then FinishSink(s, id) else s
      case _ => s
  }

  // The statements that change the row and nothing else, whatever the rest of the state is.
  predicate IsStatement(a: Action) {
    a.ATamper? || a.AExpire? || a.ACancel? || a.APrune?
  }

  function Stated(r: Row, a: Action, now: int): Row {
    match a
    case ATamper(_, params) => r.(params := params)
    case AExpire(_) => ExpiredAt(r, now)
    case ACancel(_) => CancelledAt(r, now)
    case APrune(_) => PrunedAt(r, now)
    case _ => r
  }

  function Settle(s: State, id: nat): State
    requires id < |s.rows|
  {
    if id in s.flows && s.flows[id].pos.Ended? && s.rows[id].kind.Order? then
      SetRow(s, id, FinishedAt(s.rows[id], s.flows[id].pos.ok, s.now))
    else s
  }

  predicate WasExecuting(r: Row) {
    r.status.Executing? || r.status.Executed? || r.status.Failed?
  }

  predicate WasApproved(r: Row) {
    r.status.Approved? || WasExecuting(r)
  }

  function Run(s: State, actions: seq<Action>): State {
    if actions == [] then s else Step(Run(s, actions[..|actions| - 1]), actions[|actions| - 1])
  }
}
