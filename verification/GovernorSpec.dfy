/**
The governor's tables and the transactions that change them (pkg/attention/governor.go, store.go, digest.go): the
decision log, the state of each dedup key, the digest queue and the two meta values of the digest. A decision is known
by its place in the log, which nothing is taken out of here. Times are milliseconds, days are numbers.
*/
module GovernorSpec {
  import opened Wrappers
  import opened Attention
  import opened Windows
  import opened Rules

  const SHADOW_COALESCE := 60 * MINUTE
  const DIGEST_RETRY := 10 * MINUTE
  const DEFAULT_DEDUP := 24 * HOUR

  // The message a decision went out in: one that several share, or one of its own.
  datatype MessageId = Named(name: nat) | OwnMessage(id: nat)

  datatype Row = Row(
    c: Candidate, at: int, disposition: Disposition, reason: Reason,
    delivered: bool, deliveredAt: Option<int>, message: Option<MessageId>)

  datatype Sent = Sent(severity: Severity, at: int, sends: nat)

  // A row of the digest queue.
  datatype Queued = Queued(enqueued: int, flushed: Option<int>)

  datatype Config = Config(mode: Mode, groupWindow: nat, criticalRepeat: int, dedupWindow: int, digest: bool)

  datatype State = State(
    cfg: Config, now: int, rows: seq<Row>, sent: map<string, Sent>, queue: map<nat, Queued>,
    digestDay: Option<int>, digestAttempt: Option<int>)

  // What a decision is told of the world outside its tables: mutes, rules, the owner's day and profile, learning.
  datatype Env = Env(
    muted: bool, inhibitedBy: Option<string>, inActiveHours: bool, budget: nat, dayStart: int, dayEnd: int,
    adapt: bool, unwelcome: bool, drawn: bool)

  function Init(cfg: Config, now: int): State {
    State(cfg, now, [], map[], map[], None, None)
  }

  // ---- reading ------------------------------------------------------------------------------------------------------

  // governor.go:255-271
  function DedupWindow(cfg: Config, c: Candidate): int {
    if IsProtectiveCritical(c) && cfg.criticalRepeat > 0 then cfg.criticalRepeat
    else if c.dedupWindow > 0 then c.dedupWindow
    else if cfg.dedupWindow > 0 then cfg.dedupWindow
    else DEFAULT_DEDUP
  }

  // A decision that may still reach the owner: not delivered, and not reported failed.
  predicate Unreported(r: Row) {
    r.disposition.Sent() && !r.delivered && r.deliveredAt.None?
  }

  // store.go:267-274
  predicate InFlight(r: Row, key: string, leaseStart: int) {
    Unreported(r) && r.c.key == key && r.at > leaseStart
  }

  predicate HasInFlight(rows: seq<Row>, key: string, severity: Severity, leaseStart: int) {
    exists i | 0 <= i < |rows| :: InFlight(rows[i], key, leaseStart) && rows[i].c.severity.Level() >= severity.Level()
  }

  // store.go:278-284
  predicate HasQueued(rows: seq<Row>, key: string, severity: Severity, since: int) {
    exists i | 0 <= i < |rows| :: IsQueued(rows[i], key, since) && rows[i].c.severity.Level() >= severity.Level()
  }

  predicate IsQueued(r: Row, key: string, since: int) {
    r.disposition.Digest? && !r.delivered && r.c.key == key && r.at > since
  }

  // The decisions whose messages the budget counts.
  predicate Budgeted(r: Row) {
    r.disposition.Sent() && !r.c.severity.Critical? && !r.reason.Protective?
  }

  predicate CountsPending(r: Row, leaseStart: int) {
    Budgeted(r) && Unreported(r) && r.at >= leaseStart
  }

  // The times of the pending decisions, in the order of the log.
  function PendingTimes(rows: seq<Row>, leaseStart: int): seq<int> {
    if rows == [] then []
    else
      var front, r := PendingTimes(rows[..|rows| - 1], leaseStart), rows[|rows| - 1];
      if CountsPending(r, leaseStart) then front + [r.at] else front
  }

  predicate CountsDelivered(r: Row, dayStart: int, dayEnd: int) {
    Budgeted(r) && r.delivered && r.deliveredAt.Some? && dayStart <= r.deliveredAt.value < dayEnd && r.message.Some?
  }

  // The messages of the day that went out.
  function DeliveredMessages(rows: seq<Row>, dayStart: int, dayEnd: int): set<MessageId> {
    if rows == [] then {}
    else
      var front, r := DeliveredMessages(rows[..|rows| - 1], dayStart, dayEnd), rows[|rows| - 1];
      if CountsDelivered(r, dayStart, dayEnd) then front + {r.message.value} else front
  }

  // store.go:309-351
  function MessageCount(s: State, dayStart: int, dayEnd: int): nat {
    |DeliveredMessages(s.rows, dayStart, dayEnd)| + |Starts(PendingTimes(s.rows, s.now - PENDING_LEASE), s.cfg.groupWindow)|
  }

  // governor.go:346-385
  function Gather(s: State, c: Candidate, env: Env): Facts {
    var lease := s.now - PENDING_LEASE;
    var window := DedupWindow(s.cfg, c);
    var delivered := c.key in s.sent && s.sent[c.key].severity.Level() >= c.severity.Level() && s.now - s.sent[c.key].at < window;
    Facts(s.cfg.mode, env.muted,
          delivered || (!IsProtectiveCritical(c) && HasInFlight(s.rows, c.key, c.severity, lease)),
          HasQueued(s.rows, c.key, c.severity, s.now - window),
          if IsProtectiveCritical(c) then None else env.inhibitedBy,
          env.inActiveHours, MessageCount(s, env.dayStart, env.dayEnd), env.budget,
          JoinsPending(PendingTimes(s.rows, lease), s.cfg.groupWindow, s.now),
          env.adapt, env.unwelcome, env.drawn)
  }

  // store.go:434-448
  predicate RecentShadow(rows: seq<Row>, key: string, severity: Severity, since: int) {
    exists i | 0 <= i < |rows| ::
      rows[i].disposition.Log? && rows[i].reason.Shadow? && rows[i].c.key == key && rows[i].at > since
      && rows[i].c.severity.Level() >= severity.Level()
  }

  // ---- writing ------------------------------------------------------------------------------------------------------

  function NewRow(c: Candidate, now: int, v: Verdict): Row {
    Row(c, now, v.disposition, v.reason, false, None, None)
  }

  // store.go:399-430: a digest decision and its queue row go in together.
  function Insert(s: State, r: Row): State {
    s.(rows := s.rows + [r], queue := if r.disposition.Digest? then s.queue[|s.rows| := Queued(r.at, None)] else s.queue)
  }

  // governor.go:276-343; a candidate without a key is an error, and off leaves no trace.
  function Decide(s: State, c: Candidate, env: Env): (State, Option<Verdict>) {
    if c.key == "" then (s, None)
    else
      var v := Evaluate(c, Gather(s, c, env));
      if s.cfg.mode.ModeOff? then (s, Some(v))
      else if v.reason.Shadow? && RecentShadow(s.rows, c.key, c.severity, s.now - SHADOW_COALESCE) then (s, Some(v))
      else (Insert(s, NewRow(c, s.now, v)), Some(v))
  }

  function SetRow(s: State, id: nat, r: Row): State
    requires id < |s.rows|
  {
    s.(rows := s.rows[id := r])
  }

  predicate Deliverable(r: Row) {
    r.disposition.Sent() || r.disposition.Digest?
  }

  // governor.go:486-528
  function MarkDelivered(s: State, id: nat, at: int, message: Option<MessageId>): State {
    if id >= |s.rows| || !Deliverable(s.rows[id]) || s.rows[id].delivered then s
    else
      var r := s.rows[id];
      var m := if message.Some? then message.value else OwnMessage(id);
      var sends := if r.c.key in s.sent then s.sent[r.c.key].sends + 1 else 1;
      SetRow(s, id, r.(delivered := true, deliveredAt := Some(at), message := Some(m)))
        .(sent := s.sent[r.c.key := Sent(r.c.severity, at, sends)])
  }

  // governor.go:453-472
  function Release(s: State, id: nat, at: int): State {
    if id < |s.rows| && s.rows[id].disposition.Sent() && !s.rows[id].delivered then
      SetRow(s, id, s.rows[id].(deliveredAt := Some(at)))
    else s
  }

  // digest.go:180-229; None when the decision is refused.
  function DeferToDigest(s: State, id: nat): Option<State> {
    if !s.cfg.mode.ModeLive? then Some(s)
    else if id >= |s.rows| || s.rows[id].reason.Protective? then None
    else
      var r := s.rows[id];
      if r.disposition.Digest? then Some(Enqueue(s, id))
      else if Unreported(r) then Some(Enqueue(SetRow(s, id, r.(disposition := Digest, reason := Deferred)), id))
      else Some(s)
  }

  function Enqueue(s: State, id: nat): State {
    if id in s.queue then s else s.(queue := s.queue[id := Queued(s.now, None)])
  }

  // ---- the digest ---------------------------------------------------------------------------------------------------

  datatype DigestBatch = DigestBatch(day: int, items: seq<nat>)

  predicate AwaitsDigest(s: State, id: nat) {
    && id in s.queue && s.queue[id].flushed.None?
    && id < |s.rows| && !s.rows[id].delivered && s.rows[id].disposition.Digest?
  }

  // digest.go:274-314: the items of the queue, each once. Their order is by the time they were queued.
  ghost predicate AreItems(s: State, items: seq<nat>) {
    && (forall id | id in items :: AwaitsDigest(s, id))
    && (forall id | 0 <= id < |s.rows| && AwaitsDigest(s, id) :: id in items)
    && (forall j, k | 0 <= j < k < |items| :: items[j] != items[k])
  }

  // digest.go:74-128: whether a digest of the day that is due may be made now.
  predicate MayDigest(s: State, day: int) {
    && s.cfg.mode.ModeLive? && s.cfg.digest
    && !(s.digestDay.Some? && s.digestDay.value >= day)
    && !(s.digestAttempt.Some? && s.now < s.digestAttempt.value + DIGEST_RETRY)
  }

  function PendingDigest(s: State, day: int, items: seq<nat>): (State, Option<DigestBatch>) {
    if !MayDigest(s, day) then (s, None)
    else if items == [] then (s.(digestDay := Some(day)), None)
    else (s.(digestAttempt := Some(s.now)), Some(DigestBatch(day, items)))
  }

  // digest.go:149-161, one item
  function CompleteItem(s: State, id: nat, at: int, message: MessageId): State {
    if id >= |s.rows| then s
    else
      var s1 := MarkDelivered(s, id, at, Some(message));
      if id in s1.queue && s1.queue[id].flushed.None? then s1.(queue := s1.queue[id := s1.queue[id].(flushed := Some(at))]) else s1
  }

  function CompleteItems(s: State, items: seq<nat>, at: int, message: MessageId): State {
    if items == [] then s
    else CompleteItem(CompleteItems(s, items[..|items| - 1], at, message), items[|items| - 1], at, message)
  }

  // digest.go:135-166; an item that cannot be delivered undoes the whole transaction.
  function CompleteDigest(s: State, dg: DigestBatch, delivered: bool, at: int, message: MessageId): State {
    if !s.cfg.mode.ModeLive? || !delivered then s
    else if exists id | id in dg.items :: id < |s.rows| && !Deliverable(s.rows[id]) then s
    else CompleteItems(s, dg.items, at, message).(digestDay := Some(dg.day))
  }
}
