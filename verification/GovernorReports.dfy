/**
What a report of the outbox brings about (pkg/attention/governor.go:453-472, digest.go:60-166): a failure gives back all
that a decision had reserved, and a digest that was delivered leaves nothing waiting.
*/
module GovernorReports {
  import opened Wrappers
  import opened Attention
  import opened Windows
  import opened Rules
  import opened GovernorSpec
  import opened GovernorRuns

  // ---- a failure undoes the decision --------------------------------------------------------------------------------------

  // A row that no rule asks about: it went out as a message, and came back.
  predicate CameBack(r: Row) {
    r.disposition.Sent() && !r.delivered && r.deliveredAt.Some?
  }

  lemma BackIsNotCounted(rows: seq<Row>, r: Row, lease: int, from: int, to: int)
    requires CameBack(r)
    ensures PendingTimes(rows + [r], lease) == PendingTimes(rows, lease)
    ensures DeliveredMessages(rows + [r], from, to) == DeliveredMessages(rows, from, to)
  {
    assert (rows + [r])[..|rows|] == rows;
  }

  lemma BackIsNotInFlight(rows: seq<Row>, r: Row, key: string, severity: Severity, since: int)
    requires CameBack(r)
    ensures HasInFlight(rows + [r], key, severity, since) == HasInFlight(rows, key, severity, since)
  {
    var rows' := rows + [r];
    assert forall i | 0 <= i < |rows| :: rows'[i] == rows[i];
    if i :| 0 <= i < |rows| && InFlight(rows[i], key, since) && rows[i].c.severity.Level() >= severity.Level() {
      assert InFlight(rows'[i], key, since);
    }
  }

  lemma BackIsNotQueued(rows: seq<Row>, r: Row, key: string, severity: Severity, since: int)
    requires CameBack(r)
    ensures HasQueued(rows + [r], key, severity, since) == HasQueued(rows, key, severity, since)
  {
    var rows' := rows + [r];
    assert forall i | 0 <= i < |rows| :: rows'[i] == rows[i];
    if i :| 0 <= i < |rows| && IsQueued(rows[i], key, since) && rows[i].c.severity.Level() >= severity.Level() {
      assert IsQueued(rows'[i], key, since);
    }
  }

  lemma BackIsNoShadow(rows: seq<Row>, r: Row, key: string, severity: Severity, since: int)
    requires CameBack(r)
    ensures RecentShadow(rows + [r], key, severity, since) == RecentShadow(rows, key, severity, since)
  {
    var rows' := rows + [r];
    assert forall i | 0 <= i < |rows| :: rows'[i] == rows[i];
    if i :| 0 <= i < |rows| && rows[i].disposition.Log? && rows[i].reason.Shadow? && rows[i].c.key == key && rows[i].at > since
            && rows[i].c.severity.Level() >= severity.Level() {
      assert rows'[i].disposition.Log?;
    }
  }

  lemma BackDecidesAlike(g: State, r: Row, c: Candidate, env: Env)
    requires CameBack(r)
    ensures Decide(g.(rows := g.rows + [r]), c, env).1 == Decide(g, c, env).1
  {
    hide HasInFlight, HasQueued, PendingTimes, DeliveredMessages, RecentShadow, Starts, JoinsPending;
    BackIsNotCounted(g.rows, r, g.now - PENDING_LEASE, env.dayStart, env.dayEnd);
    BackIsNotInFlight(g.rows, r, c.key, c.severity, g.now - PENDING_LEASE);
    BackIsNotQueued(g.rows, r, c.key, c.severity, g.now - DedupWindow(g.cfg, c));
    BackIsNoShadow(g.rows, r, c.key, c.severity, g.now - SHADOW_COALESCE);
    assert Gather(g.(rows := g.rows + [r]), c, env) == Gather(g, c, env);
  }

  lemma ReleasedIs(s: Session, c: Candidate, env: Env, at: int)
    requires var g := Step(s, ADecide(c, env)).g; |g.rows| > |s.g.rows| && g.rows[|s.g.rows|].disposition.Sent()
    ensures var g', n := Step(Step(s, ADecide(c, env)), ARelease(|s.g.rows|, at)).g, |s.g.rows|;
            && n < |g'.rows| && CameBack(g'.rows[n]) && g' == s.g.(rows := s.g.rows + [g'.rows[n]])
  {
    hide Evaluate, Gather;
    var g, n := Step(s, ADecide(c, env)).g, |s.g.rows|;
    assert g.rows[n := g.rows[n].(deliveredAt := Some(at))] == s.g.rows + [g.rows[n].(deliveredAt := Some(at))];
  }

  /**
  A decision that went out and is reported failed leaves no trace for the rules: any candidate, the same one included, is
  then judged as it would have been before, its key free again and its place in the budget given back.
  */
  lemma AFailureUndoesTheDecision(s: Session, c: Candidate, env: Env, at: int, c': Candidate, env': Env)
    requires var g := Step(s, ADecide(c, env)).g; |g.rows| > |s.g.rows| && g.rows[|s.g.rows|].disposition in {Notify, Escalate}
    ensures var s' := Step(Step(s, ADecide(c, env)), ARelease(|s.g.rows|, at));
            && Decide(s'.g, c', env').1 == Decide(s.g, c', env').1
            && s'.g.sent == s.g.sent && s'.g.queue == s.g.queue && s'.g.rows[..|s.g.rows|] == s.g.rows
  {
    hide Step, Decide;
    ReleasedIs(s, c, env, at);
    var g' := Step(Step(s, ADecide(c, env)), ARelease(|s.g.rows|, at)).g;
    BackDecidesAlike(s.g, g'.rows[|s.g.rows|], c', env');
  }

  // ---- when a digest is made ----------------------------------------------------------------------------------------------

  // Live, switched on, of a later day than the last, and ten minutes after the last try.
  predicate IsDue(g: State, day: int) {
    && g.cfg.mode == ModeLive && g.cfg.digest
    && (g.digestDay.Some? ==> g.digestDay.value < day)
    && (g.digestAttempt.Some? ==> g.now - g.digestAttempt.value >= 600000)
  }

  /**
  A digest of a day is made if and only if it is due and something waits; then it has all that waits. If nothing does, the
  day is done; the clock of the next try starts only when there is something to send.
  */
  lemma ADigestIsMadeIff(s: Session, day: int, items: seq<nat>)
    requires s.sending.None? && AreItems(s.g, items)
    ensures var s' := Step(s, APending(day, items));
            && (s'.sending.Some? <==> IsDue(s.g, day) && exists id: nat :: AwaitsDigest(s.g, id))
            && (s'.sending.Some? ==>
                  && s'.sending.value.day == day && (forall id: nat :: AwaitsDigest(s.g, id) <==> id in s'.sending.value.items)
                  && s'.g == s.g.(digestAttempt := Some(s.g.now)))
            && (s'.sending.None? ==> s'.g == if IsDue(s.g, day) then s.g.(digestDay := Some(day)) else s.g)
  {
    if items != [] { assert AwaitsDigest(s.g, items[0]); }
    if id: nat :| AwaitsDigest(s.g, id) { assert id in items; }
  }

  // ---- a digest that is delivered leaves nothing waiting --------------------------------------------------------------------

  // Delivered at this time in this message, unless it was before.
  predicate ToldIn(r: Row, r': Row, at: int, message: MessageId) {
    r' == if r.delivered then r else r.(delivered := true, deliveredAt := Some(at), message := Some(message))
  }

  predicate DigestRow(s: State, id: nat) {
    id < |s.rows| && s.rows[id].disposition.Digest?
  }

  lemma ItemIs(s: State, id: nat, at: int, message: MessageId)
    requires DigestRow(s, id)
    ensures var s' := CompleteItem(s, id, at, message);
            && ToldIn(s.rows[id], s'.rows[id], at, message)
            && s'.rows == s.rows[id := s'.rows[id]]
            && !AwaitsDigest(s', id)
            && (forall j: nat | j != id :: AwaitsDigest(s', j) <==> AwaitsDigest(s, j))
  {
  }

  lemma {:induction false} ItemsAre(s: State, items: seq<nat>, at: int, message: MessageId)
    requires forall id | id in items :: DigestRow(s, id)
    ensures var s' := CompleteItems(s, items, at, message);
            && |s'.rows| == |s.rows|
            && (forall j: nat | j < |s.rows| :: if j in items then ToldIn(s.rows[j], s'.rows[j], at, message) else s'.rows[j] == s.rows[j])
            && (forall j: nat :: AwaitsDigest(s', j) <==> AwaitsDigest(s, j) && j !in items)
  {
    hide AwaitsDigest, CompleteItem;
    if items != [] {
      var front, id := items[..|items| - 1], items[|items| - 1];
      assert forall j :: j in items <==> j in front || j == id;
      ItemsAre(s, front, at, message);
      var s1 := CompleteItems(s, front, at, message);
      assert DigestRow(s, id);
      assert s1.rows[id].disposition == s.rows[id].disposition;
      ItemIs(s1, id, at, message);
    }
  }

  /**
  When a digest that was due is delivered at once, every decision that waited is delivered, in one message, no other row
  changes, nothing waits any more, and its day is done; when it is not delivered, everything still waits, and the next try
  is ten minutes away.
  */
  lemma ADigestTellsAllThatWaits(s: Session, day: int, items: seq<nat>, at: int, message: MessageId)
    requires s.sending.None? && AreItems(s.g, items) && IsDue(s.g, day) && items != []
    ensures var s1 := Step(s, APending(day, items));
            var told, failed := Step(s1, AComplete(true, at, message)), Step(s1, AComplete(false, at, message));
            && |told.g.rows| == |s.g.rows|
            && (forall id: nat | id < |s.g.rows| ::
                  told.g.rows[id] == if !AwaitsDigest(s.g, id) then s.g.rows[id]
                                     else s.g.rows[id].(delivered := true, deliveredAt := Some(at), message := Some(message)))
            && (forall id: nat :: !AwaitsDigest(told.g, id))
            && told.g.digestDay == Some(day) && told.sending.None?
            && failed.sending.None? && failed.g == s.g.(digestAttempt := Some(s.g.now))
  {
    hide CompleteItems;
    var s1 := Step(s, APending(day, items));
    assert s1.sending == Some(DigestBatch(day, items)) && s1.g == s.g.(digestAttempt := Some(s.g.now));
    forall id | id in items ensures DigestRow(s1.g, id) && Deliverable(s1.g.rows[id]) && !s1.g.rows[id].delivered {
      assert AwaitsDigest(s.g, id);
    }
    ItemsAre(s1.g, items, at, message);
    assert forall id: nat :: AwaitsDigest(s1.g, id) <==> AwaitsDigest(s.g, id);
  }

  // Decisions that can be reported delivered.
  predicate CanBeTold(r: Row) { r.disposition in {Notify, Escalate, Digest} }

  /** A digest with a decision that cannot be delivered is not reported at all: its transaction is undone, and it can be tried again. */
  lemma AllOfItOrNothing(s: Session, at: int, message: MessageId)
    requires s.sending.Some? && exists id | id in s.sending.value.items :: id < |s.g.rows| && !CanBeTold(s.g.rows[id])
    ensures var s' := Step(s, AComplete(true, at, message)); s'.g == s.g && s'.reports == s.reports && s'.sending.None?
  {
    NothingNew(s.g.rows, s.sending.value.items);
    var id :| id in s.sending.value.items && id < |s.g.rows| && !CanBeTold(s.g.rows[id]);
    assert !Deliverable(s.g.rows[id]);
    assert s.reports + [] == s.reports;
  }
}
