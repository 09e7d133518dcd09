/**
The governor itself: its tables as fields, its reads as loops over the log, and its transactions as methods
(pkg/attention/governor.go:276-528, store.go:267-365, digest.go:74-314).

Each read is an existence test or a count of GovernorSpec, each transaction a function of its state.
*/
module Governor {
  import opened Wrappers
  import opened Attention
  import opened Windows
  import opened Rules
  import opened GovernorSpec

  class Governor {
    const cfg: Config
    var now: int
    var rows: seq<Row>
    var sent: map<string, Sent>
    var queue: map<nat, Queued>
    var digestDay: Option<int>
    var digestAttempt: Option<int>

    ghost function View(): State
      reads this
    {
      State(cfg, now, rows, sent, queue, digestDay, digestAttempt)
    }

    constructor (config: Config, start: int)
      ensures View() == Init(config, start)
    {
      cfg, now := config, start;
      rows, sent, queue, digestDay, digestAttempt := [], map[], map[], None, None;
    }

    // ---- reading ----------------------------------------------------------------------------------------------------

    // store.go:267-274
    method FindInFlight(key: string, severity: Severity, leaseStart: int) returns (found: bool)
      ensures found == HasInFlight(rows, key, severity, leaseStart)
    {
      for i := 0 to |rows|
        invariant forall j | 0 <= j < i :: !(InFlight(rows[j], key, leaseStart) && rows[j].c.severity.Level() >= severity.Level())
      {
        if InFlight(rows[i], key, leaseStart) && rows[i].c.severity.Level() >= severity.Level() {
          return true;
        }
      }
      return false;
    }

    // store.go:278-284
    method FindQueued(key: string, severity: Severity, since: int) returns (found: bool)
      ensures found == HasQueued(rows, key, severity, since)
    {
      for i := 0 to |rows|
        invariant forall j | 0 <= j < i :: !(IsQueued(rows[j], key, since) && rows[j].c.severity.Level() >= severity.Level())
      {
        if IsQueued(rows[i], key, since) && rows[i].c.severity.Level() >= severity.Level() {
          return true;
        }
      }
      return false;
    }

    // store.go:434-448
    method FindShadow(key: string, severity: Severity, since: int) returns (found: bool)
      ensures found == RecentShadow(rows, key, severity, since)
    {
      for i := 0 to |rows|
        invariant forall j | 0 <= j < i ::
                    !(rows[j].disposition.Log? && rows[j].reason.Shadow? && rows[j].c.key == key && rows[j].at > since
                      && rows[j].c.severity.Level() >= severity.Level())
      {
        if rows[i].disposition.Log? && rows[i].reason.Shadow? && rows[i].c.key == key && rows[i].at > since
           && rows[i].c.severity.Level() >= severity.Level() {
          return true;
        }
      }
      return false;
    }

    // store.go:309-351
    method SendsToday(dayStart: int, dayEnd: int) returns (sends: nat, joinsPending: bool)
      ensures sends == MessageCount(View(), dayStart, dayEnd)
      ensures joinsPending == JoinsPending(PendingTimes(rows, now - PENDING_LEASE), cfg.groupWindow, now)
    {
      var lease := now - PENDING_LEASE;
      var messages: set<MessageId> := {};
      var pending := [];
      for i := 0 to |rows|
        invariant messages == DeliveredMessages(rows[..i], dayStart, dayEnd)
        invariant pending == PendingTimes(rows[..i], lease)
      {
        assert rows[..i + 1][..i] == rows[..i];
        if CountsDelivered(rows[i], dayStart, dayEnd) {
          messages := messages + {rows[i].message.value};
        }
        if CountsPending(rows[i], lease) {
          pending := pending + [rows[i].at];
        }
      }
      assert rows[..|rows|] == rows;
      var n, lastStart := PendingMessages(pending, cfg.groupWindow);
      joinsPending := n > 0 && cfg.groupWindow > 0 && now - lastStart < cfg.groupWindow;
      sends := |messages| + n;
    }

    // governor.go:346-385
    method GatherFacts(c: Candidate, env: Env) returns (f: Facts)
      ensures f == Gather(View(), c, env)
    {
      var lease := now - PENDING_LEASE;
      var window := DedupWindow(cfg, c);
      var dedupHit := c.key in sent && sent[c.key].severity.Level() >= c.severity.Level() && now - sent[c.key].at < window;
      if !dedupHit && !IsProtectiveCritical(c) {
        dedupHit := FindInFlight(c.key, c.severity, lease);
      }
      var queuedHit := FindQueued(c.key, c.severity, now - window);
      var sends, joins := SendsToday(env.dayStart, env.dayEnd);
      var inhibitedBy := if IsProtectiveCritical(c) then None else env.inhibitedBy;
      f := Facts(cfg.mode, env.muted, dedupHit, queuedHit, inhibitedBy, env.inActiveHours, sends, env.budget, joins,
                 env.adapt, env.unwelcome, env.drawn);
    }

    // ---- deciding ---------------------------------------------------------------------------------------------------

    // governor.go:276-343
    method DecideCandidate(c: Candidate, env: Env) returns (v: Option<Verdict>)
      modifies this`rows, this`queue
      ensures View() == Decide(old(View()), c, env).0
      ensures v == Decide(old(View()), c, env).1
    {
      if c.key == "" {
        return None;
      }
      var f := GatherFacts(c, env);
      var verdict := Evaluate(c, f);
      v := Some(verdict);
      if cfg.mode.ModeOff? {
        return;
      }
      if verdict.reason.Shadow? {
        var found := FindShadow(c.key, c.severity, now - SHADOW_COALESCE);
        if found {
          return;
        }
      }
      var id := |rows|;
      rows := rows + [Row(c, now, verdict.disposition, verdict.reason, false, None, None)];
      if verdict.disposition.Digest? {
        queue := queue[id := Queued(now, None)];
      }
    }

    // ---- reporting --------------------------------------------------------------------------------------------------

    // governor.go:486-528
    method MarkDeliveredTx(id: nat, at: int, message: Option<MessageId>) returns (ok: bool)
      modifies this`rows, this`sent
      ensures View() == MarkDelivered(old(View()), id, at, message)
      ensures ok <==> id < |rows| && Deliverable(rows[id])
      ensures ok ==> rows[id].delivered
    {
      if id >= |rows| || !(rows[id].disposition.Sent() || rows[id].disposition.Digest?) {
        return false;
      }
      ok := true;
      var r := rows[id];
      if r.delivered {
        return;
      }
      var m := OwnMessage(id);
      if message.Some? {
        m := message.value;
      }
      rows := rows[id := r.(delivered := true, deliveredAt := Some(at), message := Some(m))];
      if r.c.key in sent {
        sent := sent[r.c.key := Sent(r.c.severity, at, sent[r.c.key].sends + 1)];
      } else {
        sent := sent[r.c.key := Sent(r.c.severity, at, 1)];
      }
    }

    // governor.go:453-472
    method ReportFailed(id: nat, at: int) returns (ok: bool)
      modifies this`rows
      ensures View() == Release(old(View()), id, at)
      ensures ok <==> id < |rows|
    {
      if id >= |rows| {
        return false;
      }
      if rows[id].disposition.Sent() && !rows[id].delivered {
        rows := rows[id := rows[id].(deliveredAt := Some(at))];
      }
      return true;
    }

    // digest.go:180-229
    method Defer(id: nat) returns (ok: bool)
      modifies this`rows, this`queue
      ensures ok <==> DeferToDigest(old(View()), id).Some?
      ensures View() == if ok then DeferToDigest(old(View()), id).value else old(View())
    {
      if !cfg.mode.ModeLive? {
        return true;
      }
      if id >= |rows| || rows[id].reason.Protective? {
        return false;
      }
      var r := rows[id];
      if r.disposition.Digest? {
      } else if r.disposition.Sent() && !r.delivered && r.deliveredAt.None? {
        rows := rows[id := r.(disposition := Digest, reason := Deferred)];
      } else {
        return true;
      }
      if id !in queue {
        queue := queue[id := Queued(now, None)];
      }
      return true;
    }

    // ---- the digest -------------------------------------------------------------------------------------------------

    // digest.go:274-314
    method QueuedItems() returns (items: seq<nat>)
      ensures AreItems(View(), items)
    {
      items := [];
      for i := 0 to |rows|
        invariant forall id | id in items :: id < i && AwaitsDigest(View(), id)
        invariant forall id | 0 <= id < i && AwaitsDigest(View(), id) :: id in items
        invariant forall j, k | 0 <= j < k < |items| :: items[j] != items[k]
      {
        if i in queue && queue[i].flushed.None? && !rows[i].delivered && rows[i].disposition.Digest? {
          assert forall j | 0 <= j < |items| :: items[j] in items;
          items := items + [i];
        }
      }
    }

    // digest.go:74-128, for the day that is due
    method AskForDigest(day: int) returns (dg: Option<DigestBatch>, ghost items: seq<nat>)
      modifies this`digestDay, this`digestAttempt
      ensures AreItems(old(View()), items)
      ensures (View(), dg) == PendingDigest(old(View()), day, items)
    {
      var found := QueuedItems();
      items := found;
      if !cfg.mode.ModeLive? || !cfg.digest {
        return None, items;
      }
      if digestDay.Some? && digestDay.value >= day {
        return None, items;
      }
      if digestAttempt.Some? && now < digestAttempt.value + DIGEST_RETRY {
        return None, items;
      }
      if found == [] {
        digestDay := Some(day);
        return None, items;
      }
      digestAttempt := Some(now);
      dg := Some(DigestBatch(day, found));
    }

    // digest.go:149-161, one item; a decision that is gone is passed over.
    method CompleteOne(id: nat, at: int, message: MessageId) returns (ok: bool)
      modifies this`rows, this`sent, this`queue
      ensures ok <==> !(id < |old(rows)| && !Deliverable(old(rows)[id]))
      ensures View() == if ok then CompleteItem(old(View()), id, at, message) else old(View())
      ensures SameDispositions(old(rows), rows)
    {
      if id >= |rows| {
        return true;
      }
      ok := MarkDeliveredTx(id, at, Some(message));
      if ok && id in queue && queue[id].flushed.None? {
        queue := queue[id := queue[id].(flushed := Some(at))];
      }
    }

    // digest.go:149-161, up to the first item that cannot be delivered
    method CompleteEach(items: seq<nat>, at: int, message: MessageId) returns (ok: bool)
      modifies this`rows, this`sent, this`queue
      ensures ok <==> AllDeliverable(old(rows), items)
      ensures ok ==> View() == CompleteItems(old(View()), items, at, message)
    {
      for k := 0 to |items|
        invariant View() == CompleteItems(old(View()), items[..k], at, message)
        invariant SameDispositions(old(rows), rows)
        invariant forall j | 0 <= j < k :: items[j] < |old(rows)| ==> Deliverable(old(rows)[items[j]])
      {
        assert items[..k + 1][..k] == items[..k];
        ok := CompleteOne(items[k], at, message);
        if !ok {
          return;
        }
      }
      assert items[..|items|] == items;
      return true;
    }

    // digest.go:135-166; an item that cannot be delivered rolls the transaction back.
    method ReportDigest(dg: DigestBatch, delivered: bool, at: int, message: MessageId) returns (failed: bool)
      modifies this`rows, this`sent, this`queue, this`digestDay
      ensures View() == CompleteDigest(old(View()), dg, delivered, at, message)
      ensures failed <==> cfg.mode.ModeLive? && delivered && !AllDeliverable(old(rows), dg.items)
    {
      failed := false;
      if !cfg.mode.ModeLive? || !delivered {
        return;
      }
      DeliverableItems(rows, dg.items);
      var rowsBefore, sentBefore, queueBefore := rows, sent, queue;
      var ok := CompleteEach(dg.items, at, message);
      if ok {
        digestDay := Some(dg.day);
      } else {
        rows, sent, queue := rowsBefore, sentBefore, queueBefore;
        failed := true;
      }
    }
  }

  predicate AllDeliverable(rows: seq<Row>, items: seq<nat>) {
    forall k | 0 <= k < |items| :: items[k] < |rows| ==> Deliverable(rows[items[k]])
  }

  lemma DeliverableItems(rows: seq<Row>, items: seq<nat>)
    ensures AllDeliverable(rows, items) <==> !exists id | id in items :: id < |rows| && !Deliverable(rows[id])
  {
  }

  predicate SameDispositions(rows: seq<Row>, rows': seq<Row>) {
    |rows'| == |rows| && forall i | 0 <= i < |rows| :: rows'[i].disposition == rows[i].disposition
  }
}
