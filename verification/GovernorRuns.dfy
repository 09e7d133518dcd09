/**
What every run of the governor's transactions keeps: dedup among the decisions in flight, the count of sends, the digest
queue, and that nothing is told in two digests.
*/
module GovernorRuns {
  import opened Wrappers
  import opened Attention
  import opened Rules
  import opened GovernorSpec

  // The governor with the outbox's side of the digest: at most one is being sent. told are the digests that were
  // reported delivered, reports the decisions that were, in the order of their reports.
  datatype Session = Session(g: State, sending: Option<DigestBatch>, told: seq<DigestBatch>, reports: seq<nat>)

  datatype Action =
    | AClock(to: int)
    | ADecide(c: Candidate, env: Env)
    | AMark(id: nat, at: int, message: Option<MessageId>) | ARelease(id: nat, at: int) | ADefer(id: nat)
    | APending(day: int, items: seq<nat>) | AComplete(delivered: bool, at: int, name: MessageId)

  // Those of ids that were not delivered in rows and are in rows'.
  function NewlyDelivered(rows: seq<Row>, rows': seq<Row>, ids: seq<nat>): seq<nat> {
    if ids == [] then []
    else
      var front, id := NewlyDelivered(rows, rows', ids[..|ids| - 1]), ids[|ids| - 1];
      if id < |rows| && id < |rows'| && !rows[id].delivered && rows'[id].delivered then front + [id] else front
  }

  // An action that cannot happen in s leaves it as it is. A digest that is pending is completed before the next is asked for.
  ghost function Step(s: Session, a: Action): Session {
    match a
    case AClock(to) => if to >= s.g.now then s.(g := s.g.(now := to)) else s
    case ADecide(c, env) => s.(g := Decide(s.g, c, env).0)
    case AMark(id, at, message) =>
      var g := MarkDelivered(s.g, id, at, message);
      s.(g := g, reports := s.reports + NewlyDelivered(s.g.rows, g.rows, [id]))
    case ARelease(id, at) => s.(g := Release(s.g, id, at))
    case ADefer(id) => (match DeferToDigest(s.g, id) case Some(g) => s.(g := g) case None => s)
    case APending(day, items) =>
      if s.sending.Some? || !AreItems(s.g, items) then s
      else
        var (g, dg) := PendingDigest(s.g, day, items);
        s.(g := g, sending := dg)
    case AComplete(delivered, at, message) =>
      if s.sending.None? then s
      else
        var g := CompleteDigest(s.g, s.sending.value, delivered, at, message);
        Session(g, None, if delivered then s.told + [s.sending.value] else s.told,
                s.reports + NewlyDelivered(s.g.rows, g.rows, s.sending.value.items))
  }

  ghost function Run(s: Session, actions: seq<Action>): Session {
    if actions == [] then s else Step(Run(s, actions[..|actions| - 1]), actions[|actions| - 1])
  }

  function Start(cfg: Config, now: int): Session {
    Session(Init(cfg, now), None, [], [])
  }

  // ---- what an action does to a row -----------------------------------------------------------------------------------

  // A row keeps what was decided; a message can become a digest item, and what is delivered stays so.
  predicate Ages(r: Row, r': Row) {
    && r'.c == r.c && r'.at == r.at
    && (Unreported(r') ==> Unreported(r))
    && (r.delivered ==> r' == r)
    && (r.disposition.Digest? ==> r'.disposition.Digest?)
    && (r'.disposition.Digest? ==> r.disposition.Digest? || (Unreported(r) && !r.reason.Protective?))
    && (r'.disposition.Sent() ==> r.disposition.Sent() && r'.reason == r.reason)
  }

  ghost predicate Grows(rows: seq<Row>, rows': seq<Row>) {
    |rows| <= |rows'| && forall i | 0 <= i < |rows| :: Ages(rows[i], rows'[i])
  }

  lemma {:induction false} ItemsGrow(s: State, items: seq<nat>, at: int, message: MessageId)
    ensures var s' := CompleteItems(s, items, at, message);
            Grows(s.rows, s'.rows) && |s'.rows| == |s.rows| && s'.now == s.now && s'.cfg == s.cfg
  {
    if items != [] {
      ItemsGrow(s, items[..|items| - 1], at, message);
    }
  }

  // The same rows, grown, and no time lost.
  ghost predicate Onward(s: State, s': State) {
    Grows(s.rows, s'.rows) && |s'.rows| == |s.rows| && s.now <= s'.now
  }

  lemma MarkGoesOn(s: State, id: nat, at: int, message: Option<MessageId>)
    ensures Onward(s, MarkDelivered(s, id, at, message))
  {
  }

  lemma ReleaseGoesOn(s: State, id: nat, at: int)
    ensures Onward(s, Release(s, id, at))
  {
  }

  lemma DeferGoesOn(s: State, id: nat)
    ensures DeferToDigest(s, id).Some? ==> Onward(s, DeferToDigest(s, id).value)
  {
  }

  lemma PendingGoesOn(s: State, day: int, items: seq<nat>)
    ensures Onward(s, PendingDigest(s, day, items).0)
  {
  }

  lemma CompleteGoesOn(s: State, dg: DigestBatch, delivered: bool, at: int, message: MessageId)
    ensures Onward(s, CompleteDigest(s, dg, delivered, at, message))
  {
    hide Ages;
    ItemsGrow(s, dg.items, at, message);
    SameGrows(s.rows);
  }

  lemma SameGrows(rows: seq<Row>)
    ensures Grows(rows, rows)
  {
  }

  lemma DecideGrows(s: State, c: Candidate, env: Env)
    ensures Grows(s.rows, Decide(s, c, env).0.rows) && Decide(s, c, env).0.now == s.now
  {
  }

  lemma StepGrows(s: Session, a: Action)
    ensures Grows(s.g.rows, Step(s, a).g.rows)
    ensures !a.ADecide? ==> |Step(s, a).g.rows| == |s.g.rows|
    ensures s.g.now <= Step(s, a).g.now
  {
    hide Grows, Decide, MarkDelivered, Release, DeferToDigest, PendingDigest, CompleteDigest;
    SameGrows(s.g.rows);
    match a {
      case AClock(to) =>
      case ADecide(c, env) => DecideGrows(s.g, c, env);
      case AMark(id, at, message) => MarkGoesOn(s.g, id, at, message);
      case ARelease(id, at) => ReleaseGoesOn(s.g, id, at);
      case ADefer(id) => DeferGoesOn(s.g, id);
      case APending(day, items) => PendingGoesOn(s.g, day, items);
      case AComplete(delivered, at, message) =>
        if s.sending.Some? { CompleteGoesOn(s.g, s.sending.value, delivered, at, message); }
    }
  }

  // ---- protective Criticals -------------------------------------------------------------------------------------------

  // A protective Critical is never a digest item; where it is let out it says why, which keeps it from becoming one.
  predicate NotHeldBack(r: Row) {
    IsProtectiveCritical(r.c) ==> !r.disposition.Digest? && (r.disposition.Sent() ==> r.reason.Protective?)
  }

  /** In every run; so none is ever in a digest, or waits for one. */
  lemma {:induction false} ProtectiveIsNeverADigestItem(cfg: Config, now: int, actions: seq<Action>)
    ensures forall i | 0 <= i < |Run(Start(cfg, now), actions).g.rows| :: NotHeldBack(Run(Start(cfg, now), actions).g.rows[i])
  {
    if actions != [] {
      var s, a := Run(Start(cfg, now), actions[..|actions| - 1]), actions[|actions| - 1];
      ProtectiveIsNeverADigestItem(cfg, now, actions[..|actions| - 1]);
      StepGrows(s, a);
      var rows, rows' := s.g.rows, Step(s, a).g.rows;
      forall i | 0 <= i < |rows'| ensures NotHeldBack(rows'[i]) {
        if i < |rows| {
          assert NotHeldBack(rows[i]) && Ages(rows[i], rows'[i]);
        } else {
          DecidedIsNotHeldBack(s.g, a.c, a.env, i);
        }
      }
    }
  }

  lemma DecidedIsNotHeldBack(s: State, c: Candidate, env: Env, i: nat)
    requires |s.rows| <= i < |Decide(s, c, env).0.rows|
    ensures NotHeldBack(Decide(s, c, env).0.rows[i])
  {
    if IsProtectiveCritical(c) && Live(c, Gather(s, c, env)) { ProtectiveIsNotHeldBack(c, Gather(s, c, env)); }
  }

  // ---- dedup ----------------------------------------------------------------------------------------------------------

  // Of two decisions in flight for one situation the later is the more severe, unless it is a protective Critical.
  predicate Escalating(earlier: Row, later: Row, lease: int) {
    InFlight(earlier, later.c.key, lease) && InFlight(later, later.c.key, lease) && !IsProtectiveCritical(later.c) ==>
      later.c.severity.Level() > earlier.c.severity.Level()
  }

  predicate Deduped(s: State) {
    forall i, j | 0 <= i < j < |s.rows| :: Escalating(s.rows[i], s.rows[j], s.now - PENDING_LEASE)
  }

  lemma GrowingKeepsDedup(s: State, s': State)
    requires Deduped(s) && Grows(s.rows, s'.rows) && |s'.rows| == |s.rows| && s.now <= s'.now
    ensures Deduped(s')
  {
    forall i, j | 0 <= i < j < |s'.rows| ensures Escalating(s'.rows[i], s'.rows[j], s'.now - PENDING_LEASE) {
      assert Escalating(s.rows[i], s.rows[j], s.now - PENDING_LEASE);
      assert Ages(s.rows[i], s'.rows[i]) && Ages(s.rows[j], s'.rows[j]);
    }
  }

  lemma DecideKeepsDedup(s: State, c: Candidate, env: Env)
    requires Deduped(s)
    ensures Deduped(Decide(s, c, env).0)
  {
    var s' := Decide(s, c, env).0;
    var f := Gather(s, c, env);
    forall i, j | 0 <= i < j < |s'.rows| ensures Escalating(s'.rows[i], s'.rows[j], s'.now - PENDING_LEASE) {
      if j < |s.rows| {
        assert Escalating(s.rows[i], s.rows[j], s.now - PENDING_LEASE);
      } else if !IsProtectiveCritical(c) && Evaluate(c, f).disposition.Sent() {
        assert !f.dedupHit;
        assert !HasInFlight(s.rows, c.key, c.severity, s.now - PENDING_LEASE);
      }
    }
  }

  /** Over every run: no two decisions in flight for one situation, unless the later is more severe or a protective Critical. */
  lemma {:induction false} DedupHolds(cfg: Config, now: int, actions: seq<Action>)
    ensures Deduped(Run(Start(cfg, now), actions).g)
  {
    if actions != [] {
      var a := actions[|actions| - 1];
      DedupHolds(cfg, now, actions[..|actions| - 1]);
      var s := Run(Start(cfg, now), actions[..|actions| - 1]);
      StepGrows(s, a);
      if a.ADecide? {
        DecideKeepsDedup(s.g, a.c, a.env);
      } else {
        GrowingKeepsDedup(s.g, Step(s, a).g);
      }
    }
  }

  // ---- sends ----------------------------------------------------------------------------------------------------------

  // How many decisions of this situation were delivered.
  function DeliveredTo(rows: seq<Row>, key: string): nat {
    if rows == [] then 0
    else DeliveredTo(rows[..|rows| - 1], key) + if rows[|rows| - 1].delivered && rows[|rows| - 1].c.key == key then 1 else 0
  }

  predicate SendsOf(s: State, key: string) {
    DeliveredTo(s.rows, key) == if key in s.sent then s.sent[key].sends else 0
  }

  ghost predicate SendsCount(s: State) {
    forall key :: SendsOf(s, key)
  }

  lemma {:induction false} DeliveredToSet(rows: seq<Row>, i: nat, r: Row, key: string)
    requires i < |rows| && r.c == rows[i].c
    ensures DeliveredTo(rows[i := r], key) ==
            DeliveredTo(rows, key) + if rows[i].c.key != key || r.delivered == rows[i].delivered then 0 else if r.delivered then 1 else -1
  {
    var front := rows[..|rows| - 1];
    if i == |front| {
      assert rows[i := r][..i] == front;
    } else {
      DeliveredToSet(front, i, r, key);
      assert rows[i := r][..|front|] == front[i := r];
    }
  }

  lemma MarkKeepsSends(s: State, id: nat, at: int, message: Option<MessageId>)
    requires SendsCount(s)
    ensures SendsCount(MarkDelivered(s, id, at, message))
  {
    var s' := MarkDelivered(s, id, at, message);
    if s' != s {
      forall key ensures SendsOf(s', key) {
        assert SendsOf(s, key);
        DeliveredToSet(s.rows, id, s'.rows[id], key);
      }
    }
  }

  // A row changes, but not whether it was delivered.
  lemma SetKeepsSends(s: State, id: nat, r: Row)
    requires SendsCount(s) && id < |s.rows| && r.c == s.rows[id].c && r.delivered == s.rows[id].delivered
    ensures SendsCount(SetRow(s, id, r))
  {
    forall key ensures SendsOf(SetRow(s, id, r), key) {
      assert SendsOf(s, key);
      DeliveredToSet(s.rows, id, r, key);
    }
  }

  lemma {:induction false} ItemsKeepSends(s: State, items: seq<nat>, at: int, message: MessageId)
    requires SendsCount(s)
    ensures SendsCount(CompleteItems(s, items, at, message))
  {
    if items != [] {
      var front := CompleteItems(s, items[..|items| - 1], at, message);
      ItemsKeepSends(s, items[..|items| - 1], at, message);
      MarkKeepsSends(front, items[|items| - 1], at, Some(message));
      SameSends(MarkDelivered(front, items[|items| - 1], at, Some(message)), CompleteItems(s, items, at, message));
    }
  }

  lemma SameSends(s: State, s': State)
    requires SendsCount(s) && ((s'.rows == s.rows && s'.sent == s.sent) || SendsCount(s'))
    ensures SendsCount(s')
  {
    forall key ensures SendsOf(s', key) {
      assert SendsOf(s, key);
    }
  }

  lemma DecideKeepsSends(s: State, c: Candidate, env: Env)
    requires SendsCount(s)
    ensures SendsCount(Decide(s, c, env).0)
  {
    var s' := Decide(s, c, env).0;
    forall key ensures SendsOf(s', key) {
      assert SendsOf(s, key);
      if |s'.rows| > |s.rows| { assert s'.rows[..|s.rows|] == s.rows; }
    }
  }

  lemma DeferKeepsSends(s: State, id: nat)
    requires SendsCount(s) && DeferToDigest(s, id).Some?
    ensures SendsCount(DeferToDigest(s, id).value)
  {
    if id < |s.rows| && Unreported(s.rows[id]) {
      SetKeepsSends(s, id, s.rows[id].(disposition := Digest, reason := Deferred));
      SameSends(SetRow(s, id, s.rows[id].(disposition := Digest, reason := Deferred)), DeferToDigest(s, id).value);
    } else {
      SameSends(s, DeferToDigest(s, id).value);
    }
  }

  lemma StepKeepsSends(s: Session, a: Action)
    requires SendsCount(s.g)
    ensures SendsCount(Step(s, a).g)
  {
    match a {
      case AClock(to) => SameSends(s.g, Step(s, a).g);
      case ADecide(c, env) => DecideKeepsSends(s.g, c, env);
      case AMark(id, at, message) => MarkKeepsSends(s.g, id, at, message);
      case ARelease(id, at) => if Release(s.g, id, at) != s.g { SetKeepsSends(s.g, id, Release(s.g, id, at).rows[id]); }
      case ADefer(id) => if DeferToDigest(s.g, id).Some? { DeferKeepsSends(s.g, id); }
      case APending(day, items) => SameSends(s.g, Step(s, a).g);
      case AComplete(delivered, at, message) =>
        if s.sending.Some? {
          var dg := s.sending.value;
          var g := CompleteDigest(s.g, dg, delivered, at, message);
          if g != s.g {
            ItemsKeepSends(s.g, dg.items, at, message);
            assert g == CompleteItems(s.g, dg.items, at, message).(digestDay := Some(dg.day));
            SameSends(CompleteItems(s.g, dg.items, at, message), g);
          }
        }
    }
  }

  /** The sends of a situation are the decisions of it that were delivered, however often each was reported. */
  lemma {:induction false} SendsAreDeliveries(cfg: Config, now: int, actions: seq<Action>)
    ensures SendsCount(Run(Start(cfg, now), actions).g)
  {
    if actions != [] {
      SendsAreDeliveries(cfg, now, actions[..|actions| - 1]);
      StepKeepsSends(Run(Start(cfg, now), actions[..|actions| - 1]), actions[|actions| - 1]);
    }
  }

  /** Reporting a decision delivered again changes nothing, whatever time or message the second report names. */
  lemma MarkingTwiceIsOnce(s: State, id: nat, at: int, message: Option<MessageId>, at': int, message': Option<MessageId>)
    ensures MarkDelivered(MarkDelivered(s, id, at, message), id, at', message') == MarkDelivered(s, id, at, message)
  {
  }

  // ---- the digest queue -----------------------------------------------------------------------------------------------

  // A digest decision has one queue row, unflushed exactly while it is undelivered; another decision has none.
  predicate QueueFits(s: State, id: nat)
    requires id < |s.rows|
  {
    if s.rows[id].disposition.Digest? then id in s.queue && (s.queue[id].flushed.None? <==> !s.rows[id].delivered)
    else id !in s.queue
  }

  predicate QueueOk(s: State) {
    (forall id | id in s.queue :: id < |s.rows|) && forall id | 0 <= id < |s.rows| :: QueueFits(s, id)
  }

  lemma DecideKeepsQueue(s: State, c: Candidate, env: Env)
    requires QueueOk(s)
    ensures QueueOk(Decide(s, c, env).0)
  {
    var s' := Decide(s, c, env).0;
    forall id | 0 <= id < |s'.rows| ensures QueueFits(s', id) {
      if id < |s.rows| { assert QueueFits(s, id); }
    }
  }

  /** A report of delivery keeps the queue consistent exactly when it is not about a digest item that still waits. */
  lemma MarkingAndTheQueue(s: State, id: nat, at: int, message: Option<MessageId>)
    requires QueueOk(s)
    ensures QueueOk(MarkDelivered(s, id, at, message)) <==> !(id < |s.rows| && s.rows[id].disposition.Digest? && !s.rows[id].delivered)
  {
    var s' := MarkDelivered(s, id, at, message);
    if id < |s.rows| {
      assert QueueFits(s, id);
      if s.rows[id].disposition.Digest? && !s.rows[id].delivered {
        assert !QueueFits(s', id);
      } else {
        forall j | 0 <= j < |s'.rows| ensures QueueFits(s', j) {
          assert QueueFits(s, j);
        }
      }
    }
  }

  /** One that waits: a first decision, for the digest, and a report of its delivery as if it were a message. */
  lemma AWaitingItemIsReported(at: int)
    ensures var s := Decide(Init(Config(ModeLive, 0, 0, 0, true), 0), Candidate("k", Info, false, false, false, false, 0),
                            Env(false, None, true, 0, 0, 0, false, false, false)).0;
            QueueOk(s) && AwaitsDigest(s, 0) && !QueueOk(MarkDelivered(s, 0, at, None))
  {
    var s := Init(Config(ModeLive, 0, 0, 0, true), 0);
    var c, env := Candidate("k", Info, false, false, false, false, 0), Env(false, None, true, 0, 0, 0, false, false, false);
    assert QueueOk(s);
    DecideKeepsQueue(s, c, env);
    var s' := Decide(s, c, env).0;
    assert s'.rows[0].disposition.Digest? && !s'.rows[0].delivered;
    assert QueueFits(s', 0);
    MarkingAndTheQueue(s', 0, at, None);
  }

  lemma ReleaseKeepsQueue(s: State, id: nat, at: int)
    requires QueueOk(s)
    ensures QueueOk(Release(s, id, at))
  {
    var s' := Release(s, id, at);
    forall j | 0 <= j < |s'.rows| ensures QueueFits(s', j) {
      assert QueueFits(s, j);
    }
  }

  lemma DeferKeepsQueue(s: State, id: nat)
    requires QueueOk(s) && DeferToDigest(s, id).Some?
    ensures QueueOk(DeferToDigest(s, id).value)
  {
    var s' := DeferToDigest(s, id).value;
    if id < |s.rows| { assert QueueFits(s, id); }
    forall j | 0 <= j < |s'.rows| ensures QueueFits(s', j) {
      assert QueueFits(s, j);
    }
  }

  /** Deferring is idempotent; it refuses exactly the protective, and leaves alone what was delivered or released. */
  lemma DeferringTwiceIsOnce(s: State, id: nat)
    requires QueueOk(s) && s.cfg.mode.ModeLive? && id < |s.rows|
    ensures DeferToDigest(s, id).None? <==> s.rows[id].reason.Protective?
    ensures DeferToDigest(s, id).Some? ==> DeferToDigest(DeferToDigest(s, id).value, id) == DeferToDigest(s, id)
    ensures DeferToDigest(s, id).Some? && !Unreported(s.rows[id]) ==> DeferToDigest(s, id).value == s
    ensures DeferToDigest(s, id).Some? && Unreported(s.rows[id]) ==> AwaitsDigest(DeferToDigest(s, id).value, id)
  {
    assert QueueFits(s, id);
  }

  lemma ItemKeepsQueue(s: State, id: nat, at: int, message: MessageId)
    requires QueueOk(s) && id < |s.rows| && s.rows[id].disposition.Digest?
    ensures QueueOk(CompleteItem(s, id, at, message))
  {
    var s' := CompleteItem(s, id, at, message);
    assert QueueFits(s, id);
    forall j | 0 <= j < |s'.rows| ensures QueueFits(s', j) {
      assert QueueFits(s, j);
    }
  }

  predicate AllDigest(s: State, items: seq<nat>) {
    forall k | 0 <= k < |items| :: items[k] < |s.rows| && s.rows[items[k]].disposition.Digest?
  }

  lemma {:induction false} ItemsKeepQueue(s: State, items: seq<nat>, at: int, message: MessageId)
    requires QueueOk(s) && AllDigest(s, items)
    ensures QueueOk(CompleteItems(s, items, at, message))
  {
    if items != [] {
      var front, id := items[..|items| - 1], items[|items| - 1];
      ItemsKeepQueue(s, front, at, message);
      ItemsGrow(s, front, at, message);
      assert Ages(s.rows[id], CompleteItems(s, front, at, message).rows[id]);
      ItemKeepsQueue(CompleteItems(s, front, at, message), id, at, message);
    }
  }

  // ---- the digest is told once ------------------------------------------------------------------------------------------

  predicate AllDelivered(s: State, items: seq<nat>) {
    forall k | 0 <= k < |items| :: items[k] < |s.rows| && s.rows[items[k]].delivered
  }

  predicate DayBefore(last: Option<int>, day: int) {
    last.Some? ==> last.value < day
  }

  // What was told is delivered, day after day; what is being sent was not told, and its day is later.
  predicate DigestOk(s: Session) {
    && (s.sending.Some? ==>
          && AllDigest(s.g, s.sending.value.items)
          && DayBefore(s.g.digestDay, s.sending.value.day)
          && s.g.cfg.mode.ModeLive?)
    && (forall k | 0 <= k < |s.told| :: AllDelivered(s.g, s.told[k].items))
    && (forall j, k | 0 <= j < k < |s.told| :: s.told[j].day < s.told[k].day && Apart(s.told[j].items, s.told[k].items))
    && (forall k | 0 <= k < |s.told| :: NotAfter(s.told[k], s.g.digestDay))
    && (s.sending.Some? ==> forall k | 0 <= k < |s.told| :: Apart(s.told[k].items, s.sending.value.items))
  }

  predicate NotAfter(dg: DigestBatch, last: Option<int>) {
    last.Some? && dg.day <= last.value
  }

  predicate Apart(a: seq<nat>, b: seq<nat>) {
    forall i, j | 0 <= i < |a| && 0 <= j < |b| :: a[i] != b[j]
  }

  predicate SessionOk(s: Session) {
    QueueOk(s.g) && DigestOk(s)
  }

  // An action in which nothing but the rows changes.
  lemma RowsKeepDigest(s: Session, g: State)
    requires DigestOk(s) && Grows(s.g.rows, g.rows) && g.digestDay == s.g.digestDay && g.cfg == s.g.cfg
    ensures DigestOk(s.(g := g))
  {
    var s' := s.(g := g);
    forall k | 0 <= k < |s.told| ensures AllDelivered(g, s.told[k].items) {
      assert AllDelivered(s.g, s.told[k].items);
      forall j | 0 <= j < |s.told[k].items| ensures s.told[k].items[j] < |g.rows| && g.rows[s.told[k].items[j]].delivered {
        assert Ages(s.g.rows[s.told[k].items[j]], g.rows[s.told[k].items[j]]);
      }
    }
    if s.sending.Some? {
      var items := s.sending.value.items;
      assert AllDigest(s.g, items);
      forall j | 0 <= j < |items| ensures items[j] < |g.rows| && g.rows[items[j]].disposition.Digest? {
        assert Ages(s.g.rows[items[j]], g.rows[items[j]]);
      }
    }
  }

  lemma PendingOk(s: Session, day: int, items: seq<nat>)
    requires SessionOk(s) && s.sending.None? && AreItems(s.g, items)
    ensures SessionOk(Step(s, APending(day, items)))
  {
    var s' := Step(s, APending(day, items));
    assert forall k | 0 <= k < |items| :: items[k] in items && AwaitsDigest(s.g, items[k]);
    forall id | 0 <= id < |s'.g.rows| ensures QueueFits(s'.g, id) {
      assert QueueFits(s.g, id);
    }
    forall k | 0 <= k < |s.told| ensures Apart(s.told[k].items, items) && AllDelivered(s'.g, s.told[k].items) {
      assert AllDelivered(s.g, s.told[k].items);
    }
  }

  lemma ItemIsDelivered(s: State, id: nat, at: int, message: MessageId)
    requires id < |s.rows| && s.rows[id].disposition.Digest?
    ensures var s' := CompleteItem(s, id, at, message);
            && |s'.rows| == |s.rows| && s'.rows[id].delivered && s'.digestDay == s.digestDay
            && forall j | 0 <= j < |s.rows| && s.rows[j].delivered :: s'.rows[j].delivered
  {
  }

  lemma {:induction false} ItemsAreDelivered(s: State, items: seq<nat>, at: int, message: MessageId)
    requires AllDigest(s, items)
    ensures AllDelivered(CompleteItems(s, items, at, message), items)
    ensures CompleteItems(s, items, at, message).digestDay == s.digestDay
  {
    if items != [] {
      var front, id := items[..|items| - 1], items[|items| - 1];
      ItemsAreDelivered(s, front, at, message);
      ItemsGrow(s, front, at, message);
      var s1 := CompleteItems(s, front, at, message);
      assert Ages(s.rows[id], s1.rows[id]);
      ItemIsDelivered(s1, id, at, message);
      MoreDelivered(s1, CompleteItem(s1, id, at, message), front);
      assert items == front + [id];
    }
  }

  lemma MoreDelivered(s: State, s': State, items: seq<nat>)
    requires AllDelivered(s, items) && |s'.rows| == |s.rows|
    requires forall j | 0 <= j < |s.rows| && s.rows[j].delivered :: s'.rows[j].delivered
    ensures AllDelivered(s', items)
  {
    assert forall k | 0 <= k < |items| :: s.rows[items[k]].delivered;
  }

  lemma SameQueue(s: State, s': State)
    requires QueueOk(s) && s'.rows == s.rows && s'.queue == s.queue
    ensures QueueOk(s')
  {
    forall id | 0 <= id < |s'.rows| ensures QueueFits(s', id) {
      assert QueueFits(s, id);
    }
  }

  lemma CompletedIs(s: Session, at: int, message: MessageId)
    requires SessionOk(s) && s.sending.Some?
    ensures var g1 := CompleteItems(s.g, s.sending.value.items, at, message);
            Step(s, AComplete(true, at, message))
            == Session(g1.(digestDay := Some(s.sending.value.day)), None, s.told + [s.sending.value],
                       s.reports + NewlyDelivered(s.g.rows, g1.rows, s.sending.value.items))
  {
    hide CompleteItems, QueueOk;
    var dg := s.sending.value;
    forall id | id in dg.items ensures id < |s.g.rows| && Deliverable(s.g.rows[id]) {
      var k :| 0 <= k < |dg.items| && dg.items[k] == id;
    }
  }

  // All of the digest is delivered, its day is the last, and what was told before was other decisions', on other days.
  lemma ToldOk(s: Session, g1: State, reports: seq<nat>)
    requires DigestOk(s) && s.sending.Some? && |g1.rows| == |s.g.rows|
    requires AllDelivered(g1, s.sending.value.items)
    requires forall k | 0 <= k < |s.told| :: AllDelivered(g1, s.told[k].items)
    ensures DigestOk(Session(g1.(digestDay := Some(s.sending.value.day)), None, s.told + [s.sending.value], reports))
  {
    var s' := Session(g1.(digestDay := Some(s.sending.value.day)), None, s.told + [s.sending.value], reports);
    forall k | 0 <= k < |s'.told| ensures AllDelivered(s'.g, s'.told[k].items) {
      assert AllDelivered(g1, s'.told[k].items);
    }
    forall k | 0 <= k < |s'.told| ensures NotAfter(s'.told[k], s'.g.digestDay) {
      if k < |s.told| { assert NotAfter(s.told[k], s.g.digestDay); }
    }
  }

  lemma CompleteOk(s: Session, at: int, message: MessageId)
    requires SessionOk(s) && s.sending.Some?
    ensures SessionOk(Step(s, AComplete(true, at, message)))
  {
    hide Step, CompleteItems, QueueFits;
    var dg := s.sending.value;
    var g1 := CompleteItems(s.g, dg.items, at, message);
    CompletedIs(s, at, message);
    ItemsKeepQueue(s.g, dg.items, at, message);
    SameQueue(g1, g1.(digestDay := Some(dg.day)));
    ItemsAreDelivered(s.g, dg.items, at, message);
    ItemsGrow(s.g, dg.items, at, message);
    RowsKeepDigest(s, g1);
    ToldOk(s, g1, s.reports + NewlyDelivered(s.g.rows, g1.rows, dg.items));
  }

  lemma {:induction false} NothingNew(rows: seq<Row>, ids: seq<nat>)
    ensures NewlyDelivered(rows, rows, ids) == []
  {
    if ids != [] { NothingNew(rows, ids[..|ids| - 1]); }
  }

  lemma FailedOk(s: Session, at: int, message: MessageId)
    requires SessionOk(s) && s.sending.Some?
    ensures SessionOk(Step(s, AComplete(false, at, message)))
  {
    NothingNew(s.g.rows, s.sending.value.items);
    assert s.reports + [] == s.reports;
    assert Step(s, AComplete(false, at, message)) == Session(s.g, None, s.told, s.reports);
  }

  lemma StepOk(s: Session, a: Action)
    requires SessionOk(s)
    requires a.AMark? ==> !(a.id < |s.g.rows| && s.g.rows[a.id].disposition.Digest? && !s.g.rows[a.id].delivered)
    ensures SessionOk(Step(s, a))
  {
    hide CompleteDigest, QueueFits;
    StepGrows(s, a);
    match a {
      case AClock(to) => SameQueue(s.g, Step(s, a).g); RowsKeepDigest(s, Step(s, a).g);
      case ADecide(c, env) => DecideKeepsQueue(s.g, c, env); RowsKeepDigest(s, Step(s, a).g);
      case AMark(id, at, message) => MarkingAndTheQueue(s.g, id, at, message); RowsKeepDigest(s, Step(s, a).g);
      case ARelease(id, at) => ReleaseKeepsQueue(s.g, id, at); RowsKeepDigest(s, Step(s, a).g);
      case ADefer(id) => if DeferToDigest(s.g, id).Some? { DeferKeepsQueue(s.g, id); RowsKeepDigest(s, Step(s, a).g); }
      case APending(day, items) => if s.sending.None? && AreItems(s.g, items) { PendingOk(s, day, items); }
      case AComplete(delivered, at, message) =>
        if s.sending.Some? {
          if delivered { CompleteOk(s, at, message); } else { FailedOk(s, at, message); }
        }
    }
  }

  // Digest items are reported through CompleteDigest, never as messages.
  ghost predicate ReportsItsDigests(s: Session, actions: seq<Action>) {
    if actions == [] then true
    else
      var before, a := Run(s, actions[..|actions| - 1]), actions[|actions| - 1];
      && ReportsItsDigests(s, actions[..|actions| - 1])
      && (a.AMark? ==> !(a.id < |before.g.rows| && before.g.rows[a.id].disposition.Digest? && !before.g.rows[a.id].delivered))
  }

  lemma {:induction false} RunOk(cfg: Config, now: int, actions: seq<Action>)
    requires ReportsItsDigests(Start(cfg, now), actions)
    ensures SessionOk(Run(Start(cfg, now), actions))
  {
    if actions != [] {
      RunOk(cfg, now, actions[..|actions| - 1]);
      StepOk(Run(Start(cfg, now), actions[..|actions| - 1]), actions[|actions| - 1]);
    }
  }

  /** A digest decision is undelivered exactly while it has an unflushed queue row. */
  lemma UndeliveredIffQueued(cfg: Config, now: int, actions: seq<Action>, id: nat)
    requires ReportsItsDigests(Start(cfg, now), actions) && id < |Run(Start(cfg, now), actions).g.rows|
    ensures var g := Run(Start(cfg, now), actions).g;
            g.rows[id].disposition.Digest? && !g.rows[id].delivered <==> id in g.queue && g.queue[id].flushed.None?
  {
    RunOk(cfg, now, actions);
    assert QueueFits(Run(Start(cfg, now), actions).g, id);
  }

  /** The days of the digests that were told strictly increase, and no decision is in two of them. */
  lemma NothingIsToldTwice(cfg: Config, now: int, actions: seq<Action>, j: nat, k: nat)
    requires ReportsItsDigests(Start(cfg, now), actions) && j < k < |Run(Start(cfg, now), actions).told|
    ensures var told := Run(Start(cfg, now), actions).told;
            told[j].day < told[k].day && forall id | id in told[j].items :: id !in told[k].items
  {
    RunOk(cfg, now, actions);
    var told := Run(Start(cfg, now), actions).told;
    assert Apart(told[j].items, told[k].items);
  }
}
