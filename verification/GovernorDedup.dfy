/**
Why the governor lets a decision out, or does not (pkg/attention/governor.go:276-385, rules.go:296-376), said of the rows
and of the order of their reports: nothing is told again within its window, and each verdict has its first cause.
*/
module GovernorDedup {
  import opened Wrappers
  import opened Attention
  import opened Windows
  import opened Rules
  import opened GovernorSpec
  import opened GovernorRuns

  // ---- the last report of a situation ---------------------------------------------------------------------------------

  // The k-th report is of a decision for this situation.
  predicate IsReport(rows: seq<Row>, reports: seq<nat>, key: string, k: nat) {
    k < |reports| && reports[k] < |rows| && rows[reports[k]].delivered && rows[reports[k]].deliveredAt.Some?
    && rows[reports[k]].c.key == key
  }

  predicate IsLastReport(rows: seq<Row>, reports: seq<nat>, key: string, k: nat) {
    IsReport(rows, reports, key, k) && forall j | k < j < |reports| :: !IsReport(rows, reports, key, j)
  }

  // What the table of sends has of a situation is its last report, if there is one.
  ghost predicate KnownIs(rows: seq<Row>, reports: seq<nat>, sent: map<string, Sent>, key: string) {
    && (key in sent <==> exists k :: IsLastReport(rows, reports, key, k))
    && (forall k: nat | IsLastReport(rows, reports, key, k) && key in sent ::
          sent[key].severity == rows[reports[k]].c.severity && Some(sent[key].at) == rows[reports[k]].deliveredAt)
  }

  ghost predicate Known(rows: seq<Row>, reports: seq<nat>, sent: map<string, Sent>) {
    && (forall k | 0 <= k < |reports| :: reports[k] < |rows| && rows[reports[k]].delivered && rows[reports[k]].deliveredAt.Some?)
    && (forall i | 0 <= i < |rows| && rows[i].delivered :: i in reports)
    && forall key :: KnownIs(rows, reports, sent, key)
  }

  // The reported rows are as they were, and no other is delivered.
  ghost predicate SameReports(rows: seq<Row>, rows': seq<Row>) {
    && |rows| <= |rows'|
    && (forall i | 0 <= i < |rows| && rows[i].delivered :: rows'[i] == rows[i])
    && (forall i | 0 <= i < |rows'| && rows'[i].delivered :: i < |rows| && rows[i].delivered)
  }

  lemma SameKnown(rows: seq<Row>, rows': seq<Row>, reports: seq<nat>, sent: map<string, Sent>)
    requires Known(rows, reports, sent) && SameReports(rows, rows')
    ensures Known(rows', reports, sent)
  {
    forall key ensures KnownIs(rows', reports, sent, key) {
      assert KnownIs(rows, reports, sent, key);
      assert forall k: nat :: IsReport(rows', reports, key, k) <==> IsReport(rows, reports, key, k);
      assert forall k: nat :: IsLastReport(rows', reports, key, k) <==> IsLastReport(rows, reports, key, k);
      if k :| IsLastReport(rows, reports, key, k) { assert IsLastReport(rows', reports, key, k); }
      if k :| IsLastReport(rows', reports, key, k) { assert IsLastReport(rows, reports, key, k); }
    }
  }

  lemma ReportsGrow(rows: seq<Row>, reports: seq<nat>, id: nat, r: Row, key: string)
    requires forall k | 0 <= k < |reports| :: reports[k] < |rows| && rows[reports[k]].delivered
    requires id < |rows| && !rows[id].delivered && r.c == rows[id].c && r.delivered && r.deliveredAt.Some?
    ensures var rows', reports' := rows[id := r], reports + [id];
            && (forall k: nat | k < |reports| :: IsReport(rows', reports', key, k) <==> IsReport(rows, reports, key, k))
            && (IsReport(rows', reports', key, |reports|) <==> r.c.key == key)
  {
    forall k | 0 <= k < |reports| ensures reports[k] != id {
      assert rows[reports[k]].delivered;
    }
  }

  lemma OneMoreReport(rows: seq<Row>, reports: seq<nat>, sent: map<string, Sent>, id: nat, r: Row, sends: nat)
    requires Known(rows, reports, sent)
    requires id < |rows| && !rows[id].delivered && r.c == rows[id].c && r.delivered && r.deliveredAt.Some?
    ensures Known(rows[id := r], reports + [id], sent[r.c.key := Sent(r.c.severity, r.deliveredAt.value, sends)])
  {
    var rows', reports', sent' := rows[id := r], reports + [id], sent[r.c.key := Sent(r.c.severity, r.deliveredAt.value, sends)];
    forall i | 0 <= i < |rows'| && rows'[i].delivered ensures i in reports' {
      if i != id { assert i in reports; } else { assert reports'[|reports|] == id; }
    }
    forall k | 0 <= k < |reports'| ensures reports'[k] < |rows'| && rows'[reports'[k]].delivered && rows'[reports'[k]].deliveredAt.Some? {
    }
    forall key ensures KnownIs(rows', reports', sent', key) {
      assert KnownIs(rows, reports, sent, key);
      ReportsGrow(rows, reports, id, r, key);
      if key == r.c.key {
        assert IsLastReport(rows', reports', key, |reports|);
      } else {
        OthersKnown(rows, reports, sent, id, r, sends, key);
      }
    }
  }

  lemma OthersKnown(rows: seq<Row>, reports: seq<nat>, sent: map<string, Sent>, id: nat, r: Row, sends: nat, key: string)
    requires Known(rows, reports, sent) && key != r.c.key
    requires id < |rows| && !rows[id].delivered && r.c == rows[id].c && r.delivered && r.deliveredAt.Some?
    ensures KnownIs(rows[id := r], reports + [id], sent[r.c.key := Sent(r.c.severity, r.deliveredAt.value, sends)], key)
  {
    var rows', reports', sent' := rows[id := r], reports + [id], sent[r.c.key := Sent(r.c.severity, r.deliveredAt.value, sends)];
    assert KnownIs(rows, reports, sent, key);
    ReportsGrow(rows, reports, id, r, key);
    forall k: nat ensures IsLastReport(rows', reports', key, k) <==> IsLastReport(rows, reports, key, k) {
      if IsLastReport(rows', reports', key, k) {
        assert k < |reports|;
        forall j | k < j < |reports| ensures !IsReport(rows, reports, key, j) {
          assert !IsReport(rows', reports', key, j);
        }
      }
      if IsLastReport(rows, reports, key, k) {
        forall j | k < j < |reports'| ensures !IsReport(rows', reports', key, j) {
          if j < |reports| { assert !IsReport(rows, reports, key, j); }
        }
      }
    }
    if k :| IsLastReport(rows, reports, key, k) { assert IsLastReport(rows', reports', key, k); }
    if k :| IsLastReport(rows', reports', key, k) { assert IsLastReport(rows, reports, key, k); }
    forall k: nat | IsLastReport(rows', reports', key, k) && key in sent'
      ensures sent'[key].severity == rows'[reports'[k]].c.severity && Some(sent'[key].at) == rows'[reports'[k]].deliveredAt
    {
      assert IsLastReport(rows, reports, key, k) && rows[reports[k]].delivered;
      assert reports[k] != id;
    }
  }

  // ---- every action -----------------------------------------------------------------------------------------------------

  lemma MarkKnown(g: State, reports: seq<nat>, id: nat, at: int, message: Option<MessageId>)
    requires Known(g.rows, reports, g.sent)
    ensures var g' := MarkDelivered(g, id, at, message);
            Known(g'.rows, reports + NewlyDelivered(g.rows, g'.rows, [id]), g'.sent)
  {
    var g' := MarkDelivered(g, id, at, message);
    assert [id][..0] == [] && NewlyDelivered(g.rows, g'.rows, []) == [];
    if g'.rows == g.rows && g'.sent == g.sent {
      assert reports + [] == reports;
    } else {
      OneMoreReport(g.rows, reports, g.sent, id, g'.rows[id], g'.sent[g.rows[id].c.key].sends);
      assert [] + [id] == [id];
    }
  }

  predicate Distinct(ids: seq<nat>) {
    forall j, k | 0 <= j < k < |ids| :: ids[j] != ids[k]
  }

  // Nothing but row id was delivered meanwhile.
  lemma {:induction false} NewBefore(rows: seq<Row>, rows1: seq<Row>, rows2: seq<Row>, ids: seq<nat>, id: nat)
    requires |rows| == |rows1| == |rows2| && id !in ids
    requires forall i | 0 <= i < |rows| && i != id :: rows2[i].delivered == rows1[i].delivered
    ensures NewlyDelivered(rows, rows2, ids) == NewlyDelivered(rows, rows1, ids)
  {
    if ids != [] { NewBefore(rows, rows1, rows2, ids[..|ids| - 1], id); }
  }

  lemma OneItem(g: State, id: nat, at: int, message: MessageId)
    ensures var g' := CompleteItem(g, id, at, message);
            && |g'.rows| == |g.rows| && (forall i | 0 <= i < |g.rows| && i != id :: g'.rows[i] == g.rows[i])
            && (id < |g.rows| ==> (g.rows[id].delivered ==> g'.rows[id] == g.rows[id]))
            && (id < |g.rows| ==> g'.rows == MarkDelivered(g, id, at, Some(message)).rows)
            && (id < |g.rows| ==> g'.sent == MarkDelivered(g, id, at, Some(message)).sent)
            && (id >= |g.rows| ==> g' == g)
  {
  }

  lemma {:induction false} ItemsKeepOthers(g: State, items: seq<nat>, at: int, message: MessageId)
    ensures var g' := CompleteItems(g, items, at, message);
            |g'.rows| == |g.rows| && forall i | 0 <= i < |g.rows| && i !in items :: g'.rows[i] == g.rows[i]
  {
    if items != [] {
      ItemsKeepOthers(g, items[..|items| - 1], at, message);
      OneItem(CompleteItems(g, items[..|items| - 1], at, message), items[|items| - 1], at, message);
    }
  }

  lemma {:induction false} ItemsKnown(g: State, reports: seq<nat>, items: seq<nat>, at: int, message: MessageId)
    requires Known(g.rows, reports, g.sent) && Distinct(items)
    ensures var g' := CompleteItems(g, items, at, message);
            Known(g'.rows, reports + NewlyDelivered(g.rows, g'.rows, items), g'.sent)
  {
    if items == [] {
      assert reports + [] == reports;
    } else {
      var front, id := items[..|items| - 1], items[|items| - 1];
      var g1 := CompleteItems(g, front, at, message);
      ItemsKnown(g, reports, front, at, message);
      ItemsKeepOthers(g, front, at, message);
      LastItemKnown(g, g1, reports, front, id, at, message);
      assert items == front + [id];
    }
  }

  lemma LastItemKnown(g: State, g1: State, reports: seq<nat>, front: seq<nat>, id: nat, at: int, message: MessageId)
    requires Known(g1.rows, reports + NewlyDelivered(g.rows, g1.rows, front), g1.sent)
    requires |g1.rows| == |g.rows| && id !in front && (id < |g.rows| ==> g1.rows[id] == g.rows[id])
    ensures var g' := CompleteItem(g1, id, at, message);
            Known(g'.rows, reports + NewlyDelivered(g.rows, g'.rows, front + [id]), g'.sent)
  {
    hide Known, CompleteItem;
    var g', before := CompleteItem(g1, id, at, message), NewlyDelivered(g.rows, g1.rows, front);
    OneItem(g1, id, at, message);
    NewBefore(g.rows, g1.rows, g'.rows, front, id);
    assert (front + [id])[..|front|] == front;
    if id < |g.rows| {
      MarkKnown(g1, reports + before, id, at, Some(message));
      assert [id][..0] == [] && NewlyDelivered(g1.rows, g'.rows, []) == [];
      assert reports + before + NewlyDelivered(g1.rows, g'.rows, [id]) == reports + NewlyDelivered(g.rows, g'.rows, front + [id]);
    }
  }

  // The items being sent are each there once.
  ghost predicate SessionKnown(s: Session) {
    Known(s.g.rows, s.reports, s.g.sent) && (s.sending.Some? ==> Distinct(s.sending.value.items))
  }

  lemma DecideSame(g: State, c: Candidate, env: Env)
    ensures SameReports(g.rows, Decide(g, c, env).0.rows) && Decide(g, c, env).0.sent == g.sent
  {
  }

  lemma ReleaseSame(g: State, id: nat, at: int)
    ensures SameReports(g.rows, Release(g, id, at).rows) && Release(g, id, at).sent == g.sent
  {
  }

  lemma DeferSame(g: State, id: nat)
    ensures DeferToDigest(g, id).Some? ==>
              SameReports(g.rows, DeferToDigest(g, id).value.rows) && DeferToDigest(g, id).value.sent == g.sent
  {
  }

  lemma CompleteKnown(s: Session, delivered: bool, at: int, message: MessageId)
    requires SessionKnown(s) && s.sending.Some?
    ensures SessionKnown(Step(s, AComplete(delivered, at, message)))
  {
    hide Known, CompleteItems;
    var dg := s.sending.value;
    ItemsKnown(s.g, s.reports, dg.items, at, message);
    NothingNew(s.g.rows, dg.items);
    assert s.reports + [] == s.reports;
  }

  lemma StepKnown(s: Session, a: Action)
    requires SessionKnown(s)
    ensures SessionKnown(Step(s, a))
  {
    hide Known, SameReports, Decide, MarkDelivered, Release, DeferToDigest, CompleteDigest;
    var s' := Step(s, a);
    match a {
      case AClock(to) =>
      case ADecide(c, env) => DecideSame(s.g, c, env); SameKnown(s.g.rows, s'.g.rows, s.reports, s.g.sent);
      case AMark(id, at, message) => MarkKnown(s.g, s.reports, id, at, message);
      case ARelease(id, at) => ReleaseSame(s.g, id, at); SameKnown(s.g.rows, s'.g.rows, s.reports, s.g.sent);
      case ADefer(id) =>
        if DeferToDigest(s.g, id).Some? { DeferSame(s.g, id); SameKnown(s.g.rows, s'.g.rows, s.reports, s.g.sent); }
      case APending(day, items) =>
      case AComplete(delivered, at, message) => if s.sending.Some? { CompleteKnown(s, delivered, at, message); }
    }
  }

  lemma {:induction false} RunKnown(cfg: Config, now: int, actions: seq<Action>)
    ensures SessionKnown(Run(Start(cfg, now), actions))
  {
    hide Step;
    if actions != [] {
      RunKnown(cfg, now, actions[..|actions| - 1]);
      StepKnown(Run(Start(cfg, now), actions[..|actions| - 1]), actions[|actions| - 1]);
    }
  }

  /** In every run the state of a situation is the severity and the time of its last report, and there is none without one. */
  lemma SentIsTheLastReport(cfg: Config, now: int, actions: seq<Action>, key: string)
    ensures var s := Run(Start(cfg, now), actions); KnownIs(s.g.rows, s.reports, s.g.sent, key)
  {
    RunKnown(cfg, now, actions);
  }

  // ---- why a decision is made ------------------------------------------------------------------------------------------

  predicate IsAlarm(c: Candidate) { c.protective && c.severity == Critical }

  // Less than the candidate's dedup window: a critical alarm's own one, its trigger's, the configured one, or a day.
  predicate InWindow(cfg: Config, c: Candidate, age: int) {
    if IsAlarm(c) && cfg.criticalRepeat > 0 then age < cfg.criticalRepeat
    else if c.dedupWindow > 0 then age < c.dedupWindow
    else if cfg.dedupWindow > 0 then age < cfg.dedupWindow
    else age < 86400000
  }

  predicate AsSevere(r: Row, c: Candidate) { r.c.key == c.key && r.c.severity.Level() >= c.severity.Level() }

  // The last report of the situation was of a decision as severe, within the window.
  ghost predicate ToldInWindow(s: Session, c: Candidate) {
    exists k: nat | IsLastReport(s.g.rows, s.reports, c.key, k) ::
      AsSevere(s.g.rows[s.reports[k]], c) && InWindow(s.g.cfg, c, s.g.now - s.g.rows[s.reports[k]].deliveredAt.value)
  }

  // One as severe went out in the last ten minutes and was not reported yet.
  predicate IsOnItsWay(g: State, c: Candidate, i: nat) {
    i < |g.rows| && AsSevere(g.rows[i], c) && g.rows[i].disposition in {Notify, Escalate}
    && !g.rows[i].delivered && g.rows[i].deliveredAt == None && g.now - g.rows[i].at < 600000
  }

  // One as severe waits for the digest, from within the window.
  predicate WaitsForDigest(g: State, c: Candidate, i: nat) {
    i < |g.rows| && AsSevere(g.rows[i], c) && g.rows[i].disposition == Digest && !g.rows[i].delivered
    && InWindow(g.cfg, c, g.now - g.rows[i].at)
  }

  predicate IsOver(g: State, c: Candidate, env: Env) {
    c.severity != Critical && !JoinsPending(PendingTimes(g.rows, g.now - 600000), g.cfg.groupWindow, g.now)
    && MessageCount(g, env.dayStart, env.dayEnd) >= env.budget + if c.severity == Warning then 1 else 0
  }

  predicate IsLearnable(c: Candidate) { c.severity == Notice && !c.protective && !c.ownerRequested }

  ghost predicate Repeated(s: Session, c: Candidate) {
    ToldInWindow(s, c) || (!IsAlarm(c) && exists i: nat :: IsOnItsWay(s.g, c, i))
  }

  lemma DeliveredIsTold(s: Session, c: Candidate)
    requires SessionKnown(s)
    ensures ToldInWindow(s, c) <==> c.key in s.g.sent && s.g.sent[c.key].severity.Level() >= c.severity.Level()
                                      && s.g.now - s.g.sent[c.key].at < DedupWindow(s.g.cfg, c)
  {
    assert KnownIs(s.g.rows, s.reports, s.g.sent, c.key);
    if c.key in s.g.sent {
      var k :| IsLastReport(s.g.rows, s.reports, c.key, k);
    }
  }

  lemma OnItsWayIsInFlight(g: State, c: Candidate)
    ensures HasInFlight(g.rows, c.key, c.severity, g.now - PENDING_LEASE) <==> exists i: nat :: IsOnItsWay(g, c, i)
  {
    if i: nat :| IsOnItsWay(g, c, i) { assert InFlight(g.rows[i], c.key, g.now - PENDING_LEASE); }
    if HasInFlight(g.rows, c.key, c.severity, g.now - PENDING_LEASE) {
      var i :| 0 <= i < |g.rows| && InFlight(g.rows[i], c.key, g.now - PENDING_LEASE) && g.rows[i].c.severity.Level() >= c.severity.Level();
      assert IsOnItsWay(g, c, i);
    }
  }

  lemma WaitingIsQueued(g: State, c: Candidate)
    ensures HasQueued(g.rows, c.key, c.severity, g.now - DedupWindow(g.cfg, c)) <==> exists i: nat :: WaitsForDigest(g, c, i)
  {
    var since := g.now - DedupWindow(g.cfg, c);
    if i: nat :| WaitsForDigest(g, c, i) { assert IsQueued(g.rows[i], c.key, since); }
    if HasQueued(g.rows, c.key, c.severity, since) {
      var i :| 0 <= i < |g.rows| && IsQueued(g.rows[i], c.key, since) && g.rows[i].c.severity.Level() >= c.severity.Level();
      assert WaitsForDigest(g, c, i);
    }
  }

  // The first of these that holds decides.
  ghost function FirstCause(s: Session, c: Candidate, env: Env): Verdict {
    var out := if c.composeLLM then Escalate else Notify;
    if env.muted then Verdict(Drop, Muted)
    else if Repeated(s, c) then Verdict(Drop, DedupSame)
    else if IsAlarm(c) then Verdict(out, Reason.Protective)
    else if exists i: nat :: WaitsForDigest(s.g, c, i) then Verdict(Drop, DedupQueued)
    else if env.inhibitedBy.Some? then Verdict(Drop, InhibitedBy(env.inhibitedBy.value))
    else if !c.ownerRequested && !env.inActiveHours then Verdict(Digest, QuietHours)
    else if c.severity == Info then Verdict(Digest, InfoToDigest)
    else if IsOver(s.g, c, env) then Verdict(Digest, Reason.Budget)
    else if env.adapt && IsLearnable(c) && env.unwelcome then Verdict(Digest, LowAcceptance)
    else if env.adapt && IsLearnable(c) && env.drawn then Verdict(Digest, Holdout)
    else Verdict(out, if !env.inActiveHours then OwnerAlertQuiet else if c.composeLLM then ComposeLLM else Template)
  }

  // The decision is logged with this verdict, and is queued if it goes to the digest.
  predicate Logged(g: State, g': State, c: Candidate, v: Verdict) {
    && g'.rows == g.rows + [Row(c, g.now, v.disposition, v.reason, false, None, None)]
    && g' == g.(rows := g'.rows, queue := if v.disposition == Digest then g.queue[|g.rows| := Queued(g.now, None)] else g.queue)
  }

  // What the rules are told of the tables.
  lemma FactsAre(s: Session, c: Candidate, env: Env)
    requires SessionKnown(s)
    ensures var f := Gather(s.g, c, env);
            && f.mode == s.g.cfg.mode && f.muted == env.muted && f.dedupHit == Repeated(s, c)
            && f.queuedHit == (exists i: nat :: WaitsForDigest(s.g, c, i))
            && f.inhibitedBy == (if IsAlarm(c) then None else env.inhibitedBy) && f.inActiveHours == env.inActiveHours
            && OverBudget(f, c) == IsOver(s.g, c, env)
            && f.adapt == env.adapt && f.unwelcome == env.unwelcome && f.drawn == env.drawn
  {
    hide ToldInWindow, HasInFlight, HasQueued, DedupWindow, MessageCount, PendingTimes, SessionKnown, IsOnItsWay,
         WaitsForDigest, JoinsPending;
    DeliveredIsTold(s, c);
    OnItsWayIsInFlight(s.g, c);
    WaitingIsQueued(s.g, c);
  }

  lemma EvaluatesFirst(s: Session, c: Candidate, env: Env, f: Facts)
    requires f.mode == ModeLive && !c.shadow && f.muted == env.muted && f.dedupHit == Repeated(s, c)
    requires f.queuedHit == (exists i: nat :: WaitsForDigest(s.g, c, i))
    requires f.inhibitedBy == (if IsAlarm(c) then None else env.inhibitedBy) && f.inActiveHours == env.inActiveHours
    requires OverBudget(f, c) == IsOver(s.g, c, env)
    requires f.adapt == env.adapt && f.unwelcome == env.unwelcome && f.drawn == env.drawn
    ensures Evaluate(c, f) == FirstCause(s, c, env)
  {
    hide Repeated, WaitsForDigest, IsOver, OverBudget;
  }

  lemma DecidesFirst(s: Session, c: Candidate, env: Env)
    requires SessionKnown(s) && s.g.cfg.mode == ModeLive && !c.shadow && c.key != ""
    ensures Logged(s.g, Step(s, ADecide(c, env)).g, c, FirstCause(s, c, env))
  {
    hide Gather, FirstCause, SessionKnown, Repeated, WaitsForDigest, IsOver, OverBudget, RecentShadow;
    FactsAre(s, c, env);
    EvaluatesFirst(s, c, env, Gather(s.g, c, env));
  }

  lemma {:induction false} RunConfig(cfg: Config, now: int, actions: seq<Action>)
    ensures Run(Start(cfg, now), actions).g.cfg == cfg
  {
    if actions != [] {
      RunConfig(cfg, now, actions[..|actions| - 1]);
      StepConfig(Run(Start(cfg, now), actions[..|actions| - 1]), actions[|actions| - 1]);
    }
  }

  lemma StepConfig(s: Session, a: Action)
    ensures Step(s, a).g.cfg == s.g.cfg
  {
    if a.AComplete? && s.sending.Some? { ItemsGrow(s.g, s.sending.value.items, a.at, a.name); }
  }

  /**
  What a live governor decides, in any run, said of its rows alone: the verdict of the first cause that holds, logged. Only
  a mute and a repetition hold a protective Critical back.
  */
  lemma DecidesByTheFirstCause(cfg: Config, now: int, actions: seq<Action>, c: Candidate, env: Env)
    requires cfg.mode == ModeLive && !c.shadow && c.key != ""
    ensures var s := Run(Start(cfg, now), actions); Logged(s.g, Step(s, ADecide(c, env)).g, c, FirstCause(s, c, env))
  {
    RunKnown(cfg, now, actions);
    RunConfig(cfg, now, actions);
    DecidesFirst(Run(Start(cfg, now), actions), c, env);
  }

  /**
  Nothing is told again within its window: what a live decision lets out, a protective Critical included, has no report
  of its situation, as severe, that is the last one and in the window; and a decision with one is dropped unless it is muted.
  */
  lemma NothingIsToldAgain(cfg: Config, now: int, actions: seq<Action>, c: Candidate, env: Env)
    requires cfg.mode == ModeLive && !c.shadow && c.key != ""
    ensures var s := Run(Start(cfg, now), actions); var g' := Step(s, ADecide(c, env)).g;
            |g'.rows| == |s.g.rows| + 1 && var r := g'.rows[|s.g.rows|];
            && (r.disposition in {Notify, Escalate} ==> !ToldInWindow(s, c))
            && (ToldInWindow(s, c) ==> r.disposition == Drop && r.reason == if env.muted then Muted else DedupSame)
  {
    DecidesByTheFirstCause(cfg, now, actions, c, env);
    hide Run, ToldInWindow;
  }

  // A shadow decision for the situation, as severe, of the last hour.
  predicate ShadowOf(g: State, c: Candidate, i: nat) {
    i < |g.rows| && AsSevere(g.rows[i], c) && g.rows[i].disposition == Log && g.rows[i].reason == Shadow && g.now - g.rows[i].at < 3600000
  }

  /** A governor that is off leaves no trace; in the shadow a situation is logged once an hour, and nothing else happens. */
  lemma ShadowsAreLogged(s: Session, c: Candidate, env: Env)
    requires c.key != "" && (s.g.cfg.mode != ModeLive || c.shadow)
    ensures var g' := Step(s, ADecide(c, env)).g;
            if s.g.cfg.mode == ModeOff || exists i: nat :: ShadowOf(s.g, c, i) then g' == s.g
            else Logged(s.g, g', c, Verdict(Log, Shadow))
  {
    if i: nat :| ShadowOf(s.g, c, i) { assert RecentShadow(s.g.rows, c.key, c.severity, s.g.now - SHADOW_COALESCE); }
    if RecentShadow(s.g.rows, c.key, c.severity, s.g.now - SHADOW_COALESCE) {
      var i :| 0 <= i < |s.g.rows| && s.g.rows[i].disposition.Log? && s.g.rows[i].reason.Shadow? && s.g.rows[i].c.key == c.key
                 && s.g.rows[i].at > s.g.now - SHADOW_COALESCE && s.g.rows[i].c.severity.Level() >= c.severity.Level();
      assert ShadowOf(s.g, c, i);
    }
  }
}
