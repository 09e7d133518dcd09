/**
The outbox itself: the fields its lock guards, and a method for every section of code that holds the lock
(pkg/attention/outbox.go, handoff.go, retry.go). Each method is one action of the state machine of OutboxSpec, or the
locked half of one, so the theorems about runs are theorems about any interleaving of these methods.
*/
module Outbox {
  import opened Wrappers
  import opened Attention
  import opened OutboxSpec

  // ---- the specification taken one element at a time -------------------------------------------------------------

  lemma DeferTwice(o: Shared, a: seq<Decision>, b: seq<Decision>, release: bool)
    ensures Defer(Defer(o, a, release), b, release) == Defer(o, a + b, release)
  {
    var k, k' := Min(|a|, Room(o.deferred)), Min(|a + b|, Room(o.deferred));
    var o1 := Defer(o, a, release);
    var j := Min(|b|, Room(o1.deferred));
    assert AsDeferrals(a[..k], release) + AsDeferrals(b[..j], release) == AsDeferrals((a + b)[..k'], release);
    assert o1.deferred + AsDeferrals(b[..j], release) == o.deferred + AsDeferrals((a + b)[..k'], release);
    assert WithFate(a[k..], Abandoned) + WithFate(b[j..], Abandoned) == WithFate((a + b)[k'..], Abandoned);
    assert o1.log.settled + WithFate(b[j..], Abandoned) == o.log.settled + WithFate((a + b)[k'..], Abandoned);
  }

  lemma DeferOne(o: Shared, d: Decision, release: bool)
    ensures Defer(o, [d], release) ==
            if |o.deferred| >= MAX_DEFER_BACKLOG then Left(o, [Settled(d, Abandoned)])
            else o.(deferred := o.deferred + [Deferral(d, release, 0)])
  {
    var k := Min(1, Room(o.deferred));
    if k == 0 {
      assert WithFate([d][0..], Abandoned) == [Settled(d, Abandoned)];
      assert o.deferred + AsDeferrals([d][..0], release) == o.deferred;
    } else {
      assert AsDeferrals([d][..1], release) == [Deferral(d, release, 0)];
      assert o.log.settled + WithFate([d][1..], Abandoned) == o.log.settled;
    }
  }

  lemma DeferNext(o: Shared, ds: seq<Decision>, d: Decision, release: bool)
    ensures Defer(o, ds + [d], release) ==
            (var o1 := Defer(o, ds, release);
             if |o1.deferred| >= MAX_DEFER_BACKLOG then Left(o1, [Settled(d, Abandoned)])
             else o1.(deferred := o1.deferred + [Deferral(d, release, 0)]))
  {
    DeferTwice(o, ds, [d], release);
    DeferOne(Defer(o, ds, release), d, release);
  }

  lemma DeferNone(o: Shared, release: bool)
    ensures Defer(o, [], release) == o
  {
    assert o.deferred + [] == o.deferred && o.log.settled + [] == o.log.settled;
  }

  lemma ProtectiveNone(o: Shared)
    ensures AddProtective(o, []) == o
  {
    DeferNone(o, true);
  }

  lemma ProtectiveNext(o: Shared, ds: seq<Decision>, d: Decision)
    ensures AddProtective(AddProtective(o, ds), [d]) == AddProtective(o, ds + [d])
  {
    assert (ds + [d])[..|ds|] == ds;
    var (p, gone) := AddAllTo(o.prot, ds);
    var (p', gone') := AddTo(p, d);
    assert AddAllTo(p, [d]) == (p', gone') by { assert [d][..0] == []; assert [] + gone' == gone'; }
    DeferTwice(o.(prot := p'), gone, gone', true);
    assert Defer(o.(prot := p), gone, true).(prot := p') == Defer(o.(prot := p'), gone, true);
  }

  lemma FirstSlot(prot: seq<Decision>, key: string, i: nat)
    requires i < |prot| && prot[i].candidate.key == key
    requires forall j | 0 <= j < i :: prot[j].candidate.key != key
    ensures SlotOf(prot, key) == i
  {
  }

  lemma NoSlot(prot: seq<Decision>, key: string)
    requires forall j | 0 <= j < |prot| :: prot[j].candidate.key != key
    ensures SlotOf(prot, key) == |prot|
  {
  }

  lemma AddOne(prot: seq<Decision>, d: Decision)
    ensures AddAllTo(prot, [d]) == AddTo(prot, d)
  {
    assert [d][..0] == [];
    assert [] + AddTo(prot, d).1 == AddTo(prot, d).1;
  }

  lemma ReturnNone(o: Shared)
    ensures Return(o, []) == o
  {
    assert o.deferred + [] == o.deferred && o.log.settled + [] == o.log.settled;
  }

  lemma ReturnNext(o: Shared, again: seq<Deferral>, f: Deferral)
    ensures Return(o, again + [f]) ==
            (var o1 := Return(o, again);
             if |o1.deferred| < MAX_DEFER_BACKLOG then o1.(deferred := o1.deferred + [f]) else Left(o1, [Settled(f.d, Abandoned)]))
  {
    var k, k' := Min(|again|, Room(o.deferred)), Min(|again| + 1, Room(o.deferred));
    var all := again + [f];
    if k' > k {
      assert all[..k'] == again[..k] + [f] && all[k'..] == again[k..];
      assert o.deferred + all[..k'] == o.deferred + again[..k] + [f];
    } else {
      assert all[..k] == again[..k] && all[k..] == again[k..] + [f];
      assert WithFate(Decisions(all[k..]), Abandoned) == WithFate(Decisions(again[k..]), Abandoned) + [Settled(f.d, Abandoned)];
      assert o.log.settled + WithFate(Decisions(all[k..]), Abandoned)
          == o.log.settled + WithFate(Decisions(again[k..]), Abandoned) + [Settled(f.d, Abandoned)];
    }
  }

  // ---- pure helpers with loops -----------------------------------------------------------------------------------

  // retry.go:102-109, handoff.go:722-730
  method AnyTooLate(ds: seq<Decision>, at: int) returns (late: bool)
    ensures late == PastLease(ds, at)
  {
    for i := 0 to |ds|
      invariant forall d | d in ds[..i] :: !TooLate(d, at)
    {
      if ds[i].at.Some? && at - ds[i].at.value > MAX_QUEUE_AGE {
        assert TooLate(ds[i], at) && ds[i] in ds;
        return true;
      }
      assert ds[..i + 1] == ds[..i] + [ds[i]];
    }
    assert ds[..|ds|] == ds;
    return false;
  }

  // retry.go:72-79
  method AnyProtective(ds: seq<Decision>) returns (protective: bool)
    ensures protective == HasProtective(ds)
  {
    for i := 0 to |ds|
      invariant forall d | d in ds[..i] :: !IsProtective(d)
    {
      if IsProtective(ds[i]) {
        assert ds[i] in ds;
        return true;
      }
      assert ds[..i + 1] == ds[..i] + [ds[i]];
    }
    assert ds[..|ds|] == ds;
    return false;
  }

  // retry.go:90-98: the time of the oldest protective decision, if that is before now.
  method RetryWindowStart(ds: seq<Decision>, now: int) returns (since: int)
    ensures since == ProtectiveSince(ds, now)
    ensures since <= now && forall d | d in ds && IsProtective(d) && d.at.Some? :: since <= d.at.value
    ensures since == now || exists d | d in ds :: IsProtective(d) && d.at == Some(since)
  {
    since := now;
    for i := 0 to |ds|
      invariant since == ProtectiveSince(ds[..i], now)
      invariant since <= now && forall d | d in ds[..i] && IsProtective(d) && d.at.Some? :: since <= d.at.value
      invariant since == now || exists d | d in ds[..i] :: IsProtective(d) && d.at == Some(since)
    {
      assert ds[..i + 1] == ds[..i] + [ds[i]] && ds[..i + 1][..i] == ds[..i];
      if IsProtective(ds[i]) && ds[i].at.Some? && ds[i].at.value < since {
        since := ds[i].at.value;
        assert ds[i] in ds[..i + 1];
      }
    }
    assert ds[..|ds|] == ds;
  }

  // ---- the outbox -----------------------------------------------------------------------------------------------

  class Outbox {
    var now: int
    const window: int
    const ordSlots: nat
    var buf: seq<Decision>
    var windowStart: int
    var closed: bool
    var ord: seq<Job>
    var prot: seq<Decision>
    var deferred: seq<Deferral>
    var retries: seq<Retry>
    var protRetry: seq<Retry>
    var digestBusy: bool
    // What happened so far, and what the running steps hold.
    ghost var log: Record
    ghost var hands: seq<Work>

    ghost function Inside(): Shared
      reads this
    {
      Shared(now, window, ordSlots, buf, windowStart, closed, ord, prot, deferred, retries, protRetry, digestBusy, log)
    }

    ghost function View(): State
      reads this
    {
      State(Inside(), hands)
    }

    constructor (start: int, groupWindow: int, slots: nat, ghost callers: nat)
      ensures View() == Init(start, groupWindow, slots, callers)
    {
      now, window, ordSlots := start, groupWindow, slots;
      buf, windowStart, closed, digestBusy := [], 0, false, false;
      ord, prot, deferred, retries, protRetry := [], [], [], [], [];
      log := Record([], [], [], [], [], [], [], 0, false, false, false);
      hands := seq(3 + callers, i => Idle);
    }

    // outbox.go:262-266
    method TakeLocked() returns (out: seq<Decision>)
      modifies this`buf, this`log
      ensures out == old(buf)
      ensures Inside() == Take(old(Inside()))
    {
      log := Take(Inside()).log;
      out, buf := buf, [];
    }

    // handoff.go:402-411
    method DeferLocked(items: seq<Decision>, release: bool)
      modifies this`deferred, this`log
      ensures Inside() == Defer(old(Inside()), items, release)
    {
      DeferNone(Inside(), release);
      for i := 0 to |items|
        invariant Inside() == Defer(old(Inside()), items[..i], release)
      {
        DeferNext(old(Inside()), items[..i], items[i], release);
        assert items[..i + 1] == items[..i] + [items[i]];
        if |deferred| >= MAX_DEFER_BACKLOG {
          log := Leave(log, [Settled(items[i], Abandoned)]);
        } else {
          deferred := deferred + [Deferral(items[i], release, 0)];
        }
      }
      assert items[..|items|] == items;
    }

    // handoff.go:382-397
    method AddProtectiveLocked(d: Decision)
      modifies this`prot, this`deferred, this`log
      ensures Inside() == AddProtective(old(Inside()), [d])
    {
      assert [d][..0] == [];
      AddOne(prot, d);
      var key := d.candidate.key;
      for i := 0 to |prot|
        invariant Inside() == old(Inside())
        invariant forall j | 0 <= j < i :: prot[j].candidate.key != key
      {
        if prot[i].candidate.key == key {
          FirstSlot(prot, key, i);
          var e := prot[i];
          prot := prot[i := d];
          DeferLocked([e], true);
          return;
        }
      }
      NoSlot(prot, key);
      prot := prot + [d];
      DeferNone(Inside(), true);
    }

    // The loop of handoff.go:359-366 and 544-551: protective members are routed to their lane, the rest is returned.
    method RouteLocked(group: seq<Decision>) returns (rest: seq<Decision>)
      modifies this`prot, this`deferred, this`log
      ensures rest == OrdinaryPart(group)
      ensures Inside() == AddProtective(old(Inside()), ProtectivePart(group))
    {
      rest := [];
      ProtectiveNone(Inside());
      for i := 0 to |group|
        invariant rest == OrdinaryPart(group[..i])
        invariant Inside() == AddProtective(old(Inside()), ProtectivePart(group[..i]))
      {
        assert group[..i + 1][..i] == group[..i];
        if IsProtectiveCritical(group[i].candidate) {
          ProtectiveNext(old(Inside()), ProtectivePart(group[..i]), group[i]);
          AddProtectiveLocked(group[i]);
        } else {
          rest := rest + [group[i]];
        }
      }
      assert group[..|group|] == group;
    }

    // handoff.go:357-377
    method PushOrdinaryLocked(group: seq<Decision>)
      modifies this`prot, this`deferred, this`ord, this`log
      ensures Inside() == PushOrdinary(old(Inside()), group)
    {
      var rest := RouteLocked(group);
      if rest == [] {
        return;
      }
      if |ord| >= ordSlots {
        DeferLocked(rest, false);
        return;
      }
      ord := ord + [Group(rest)];
    }

    // handoff.go:322-345
    method AcceptLocked(d: Decision) returns (result: Handoff)
      modifies this`buf, this`windowStart, this`prot, this`deferred, this`ord, this`log
      ensures Inside() == OutboxSpec.AcceptLocked(old(Inside()), d).0
      ensures result == OutboxSpec.AcceptLocked(old(Inside()), d).1
    {
      var expired := BufferLocked(d);
      result := EscortLocked(d);
      if expired != [] {
        PushOrdinaryLocked(expired);
      }
    }

    // handoff.go:335-340: a protective Critical takes the buffer to its lane at once.
    method EscortLocked(d: Decision) returns (result: Handoff)
      modifies this`buf, this`prot, this`deferred, this`log
      ensures Inside() == Escort(old(Inside()), d)
      ensures result == if IsProtectiveCritical(d.candidate) then Queued else Buffered
    {
      if !IsProtectiveCritical(d.candidate) {
        return Buffered;
      }
      var taken := TakeLocked();
      ghost var before := Inside();
      ProtectiveNone(before);
      for i := 0 to |taken|
        invariant Inside() == AddProtective(before, taken[..i])
      {
        ProtectiveNext(before, taken[..i], taken[i]);
        assert taken[..i + 1] == taken[..i] + [taken[i]];
        AddProtectiveLocked(taken[i]);
      }
      assert taken[..|taken|] == taken;
      return Queued;
    }

    // The part acceptLocked and Submit share (handoff.go:325-334, outbox.go:230-244): what is due before d goes out.
    method BufferLocked(d: Decision) returns (expired: seq<Decision>)
      modifies this`buf, this`windowStart, this`log
      ensures Inside() == Buffer(old(Inside()), d)
      ensures expired == if MustTake(old(Inside())) then old(buf) else []
    {
      expired := [];
      if buf != [] && window > 0 && now >= windowStart + window {
        expired := TakeLocked();
      }
      if |buf| >= MAX_BUFFERED && expired == [] {
        expired := TakeLocked();
      }
      if buf == [] {
        windowStart := now;
      }
      buf := buf + [d];
      log := log.(accepted := log.accepted + [d], acceptedAt := log.acceptedAt + [now]);
    }

    // handoff.go:296-318
    method AcceptAll(ds: seq<Decision>) returns (res: seq<Handoff>)
      requires Shaped(View())
      modifies this`buf, this`windowStart, this`prot, this`deferred, this`ord, this`log
      ensures View() == Step(old(View()), AAccept(ds))
      ensures res == OutboxSpec.AcceptAll(old(Inside()), ds).1
    {
      res := [];
      for i := 0 to |ds|
        invariant (Inside(), res) == OutboxSpec.AcceptAll(old(Inside()), ds[..i])
      {
        assert ds[..i + 1][..i] == ds[..i];
        if !ds[i].disposition.Sent() {
          res := res + [Ignored];
        } else if closed {
          res := res + [Closed];
        } else {
          var h := AcceptLocked(ds[i]);
          res := res + [h];
        }
      }
      assert ds[..|ds|] == ds;
    }

    // outbox.go:227-249: the groups Submit takes are sent by its caller, the expired one first.
    method Submit(d: Decision, ghost caller: nat) returns (expired: seq<Decision>, out: seq<Decision>)
      requires Shaped(View()) && RUNNER < caller < |hands| && hands[caller].Idle?
      modifies this`buf, this`windowStart, this`log, this`hands
      ensures View() == Step(old(View()), ASubmit(caller, d))
      ensures d.disposition.Sent() ==>
                hands[caller] == (var last := if out == [] then Idle else Holding(Group(out), Idle);
                                  if expired == [] then last else Holding(Group(expired), last))
    {
      expired, out := [], [];
      if !d.disposition.Sent() {
        return;
      }
      ghost var before := Inside();
      expired := BufferLocked(d);
      if IsProtectiveCritical(d.candidate) || closed {
        out := TakeLocked();
      }
      hands := hands[caller := SubmitWork(before, d)];
    }

    // ---- the tick ---------------------------------------------------------------------------------------------

    // outbox.go:283-288
    method TakeDue() returns (out: seq<Decision>)
      requires Shaped(View()) && hands[RUNNER].Idle?
      modifies this`buf, this`log, this`hands
      ensures View() == Step(old(View()), ATakeDue)
      ensures out != [] ==> hands[RUNNER] == Handing(out)
    {
      out := [];
      if buf != [] && (window <= 0 || now >= windowStart + window) {
        out := TakeLocked();
        hands := hands[RUNNER := Handing(out)];
      }
    }

    // handoff.go:348-352
    method HandOver(group: seq<Decision>)
      requires Shaped(View()) && hands[RUNNER] == Handing(group)
      modifies this`prot, this`deferred, this`ord, this`log, this`hands
      ensures View() == Step(old(View()), AHandOver)
    {
      hide EntryStep, SendingStep, OutboxSpec.PushOrdinary;
      PushOrdinaryLocked(group);
      hands := hands[RUNNER := Idle];
    }

    // retry.go:244-262
    method HandOverDueRetries()
      requires Shaped(View()) && hands[RUNNER].Idle?
      modifies this`retries, this`protRetry, this`ord
      ensures View() == Step(old(View()), ADueRetries)
    {
      hide EntryStep, ShutdownStep, TakingStep, SendingStep;
      var keep, i := [], 0;
      assert protRetry + [] == protRetry && ord + [] == ord;
      while i < |retries|
        invariant 0 <= i <= |retries| && retries == old(retries)
        invariant keep == Waiting(retries[..i], now)
        invariant protRetry == old(protRetry) + DueFor(retries[..i], now, true)
        invariant ord == old(ord) + AsJobs(DueFor(retries[..i], now, false))
      {
        var r := retries[i];
        assert retries[..i + 1][..i] == retries[..i];
        if r.due > now {
          keep := keep + [r];
        } else {
          var protective := AnyProtective(r.m.decisions);
          if protective {
            protRetry := protRetry + [r];
          } else {
            ord := ord + [RetryJob(r)];
          }
        }
        i := i + 1;
      }
      assert retries[..|retries|] == retries;
      retries := keep;
    }

    // handoff.go:417-421
    method TakeDeferrals() returns (todo: seq<Deferral>)
      requires Shaped(View()) && hands[RUNNER].Idle?
      modifies this`deferred, this`hands
      ensures View() == Step(old(View()), ATakeDeferrals) && todo == old(deferred)
    {
      todo, deferred := deferred, [];
      hands := hands[RUNNER := Settling(todo, [])];
    }

    // handoff.go:437-447
    method PutBack(again: seq<Deferral>)
      requires Shaped(View()) && hands[RUNNER] == Settling([], again)
      modifies this`deferred, this`log, this`hands
      ensures View() == Step(old(View()), APutBack)
    {
      hide EntryStep, ShutdownStep, TakingStep, SendingStep, Return, SettleNext;
      hide OutboxSpec.TakeDue, OutboxSpec.HandOver, OutboxSpec.HandOverDueRetries;
      ReturnNone(Inside());
      for i := 0 to |again|
        invariant Inside() == Return(old(Inside()), again[..i]) && hands == old(hands)
      {
        ReturnNext(old(Inside()), again[..i], again[i]);
        assert again[..i + 1] == again[..i] + [again[i]];
        if |deferred| < MAX_DEFER_BACKLOG {
          deferred := deferred + [again[i]];
        } else {
          log := Leave(log, [Settled(again[i].d, Abandoned)]);
        }
      }
      assert again[..|again|] == again;
      hands := hands[RUNNER := Idle];
    }

    // handoff.go:473-490 with outbox.go:495-518, for a digest the governor says is due
    method HandOverDigest()
      requires Shaped(View()) && hands[RUNNER].Idle?
      modifies this`digestBusy, this`ord
      ensures View() == Step(old(View()), ADigest)
    {
      if digestBusy {
        return;
      }
      digestBusy := true;
      if |ord| >= ordSlots {
        digestBusy := false;
        return;
      }
      ord := ord + [DigestJob];
    }

    // ---- the lanes --------------------------------------------------------------------------------------------

    // handoff.go:591-606
    method PopOrdinary() returns (j: Option<Job>)
      requires Shaped(View()) && hands[ORDINARY].Idle?
      modifies this`ord, this`hands
      ensures View() == Step(old(View()), APopOrdinary)
      ensures j.None? <==> old(ord) == []
      ensures j.Some? ==> hands[ORDINARY] == Holding(j.value, Idle)
    {
      if ord == [] {
        return None;
      }
      j := Some(ord[0]);
      ord := ord[1..];
      hands := hands[ORDINARY := Holding(j.value, Idle)];
    }

    // retry.go:265-279
    method TakeProtectiveRetry() returns (r: Option<Retry>)
      requires Shaped(View()) && hands[PROTECTIVE].Idle?
      modifies this`protRetry, this`hands
      ensures View() == Step(old(View()), APopRetry)
      ensures r.None? <==> old(protRetry) == []
      ensures r.Some? ==> hands[PROTECTIVE] == Holding(RetryJob(r.value), Idle)
    {
      if protRetry == [] {
        return None;
      }
      r := Some(protRetry[0]);
      protRetry := protRetry[1..];
      hands := hands[PROTECTIVE := Holding(RetryJob(r.value), Idle)];
    }

    // handoff.go:608-623
    method TakeProtective() returns (out: seq<Decision>)
      requires Shaped(View()) && hands[PROTECTIVE].Idle?
      modifies this`prot, this`log, this`hands
      ensures View() == Step(old(View()), APopProtective)
      ensures out != [] ==> hands[PROTECTIVE] == Holding(Group(out), Idle)
      ensures out == [] <==> old(prot) == []
    {
      hide NoteTaken;
      if prot == [] {
        return [];
      }
      var n := Min(|prot|, MAX_BUFFERED);
      log := NoteTaken(log, prot, prot[..n]);
      out, prot := prot[..n], prot[n..];
      hands := hands[PROTECTIVE := Holding(Group(out), Idle)];
    }

    // retry.go:141-165, before the lock
    method PlanRetry(m: Message, failed: nat, since: Option<int>) returns (r: Option<Retry>)
      ensures r == NextRetry(m, failed, since, now)
    {
      var protective := AnyProtective(m.decisions);
      if failed < 1 || (failed > |RETRY_DELAYS| && !protective) {
        return None;
      }
      var due := now + if failed <= |RETRY_DELAYS| then RETRY_DELAYS[failed - 1] else PROTECTIVE_RETRY_EVERY;
      if !protective {
        var late := AnyTooLate(m.decisions, due);
        return if late then None else Some(Retry(m, failed, due, since));
      }
      var start := now;
      match since {
        case Some(time) => start := time;
        case None => start := RetryWindowStart(m.decisions, now);
      }
      return if due - start > PROTECTIVE_RETRY_WINDOW then None else Some(Retry(m, failed, due, Some(start)));
    }

    // retry.go:141-185: the message of a failed try waits for the next one, or its lane gives it up.
    method ScheduleRetry(m: Message, failed: nat, since: Option<int>, ghost lane: nat) returns (ok: bool)
      requires lane < |hands| && hands[lane].Sending?
      requires hands[lane].m == m && hands[lane].failed + 1 == failed && hands[lane].since == since
      modifies this`retries, this`log, this`hands
      ensures View() == Delivered(old(View()), lane, false)
      ensures ok <==> retries != old(retries)
    {
      hide NextRetry, CountWaiting, HasProtective;
      var protective := AnyProtective(m.decisions);
      var r := PlanRetry(m, failed, since);
      var n := CountRetries(protective);
      ok := r.Some? && !closed && n < RetryLimit(protective);
      assert OutboxSpec.ScheduleRetry(Inside(), m, failed, since) == if ok then r else None;
      ghost var after := AfterFailure(View(), lane, m, if ok then r else None, hands[lane].next);
      if ok {
        retries := retries + [r.value];
      }
      log, hands := after.o.log, after.hands;
    }

    // retry.go:170-180
    method CountRetries(protective: bool) returns (n: nat)
      ensures n == CountWaiting(retries, protective)
    {
      n := 0;
      for i := 0 to |retries|
        invariant n == CountWaiting(retries[..i], protective)
      {
        assert retries[..i + 1][..i] == retries[..i];
        var p := AnyProtective(retries[i].m.decisions);
        if p == protective {
          n := n + 1;
        }
      }
      assert retries[..|retries|] == retries;
    }

    // ---- shutdown ---------------------------------------------------------------------------------------------

    method Close()
      requires Shaped(View()) && hands[RUNNER].Idle?
      modifies this`buf, this`closed, this`prot, this`deferred, this`ord, this`log
      ensures View() == Step(old(View()), AClose)
    {
      CloseLocked();
    }

    // handoff.go:541-556
    method CloseLocked()
      modifies this`buf, this`closed, this`prot, this`deferred, this`ord, this`log
      ensures Inside() == OutboxSpec.Close(old(Inside()))
    {
      if buf == [] {
        closed := true;
        return;
      }
      var out := TakeLocked();
      var rest := RouteLocked(out);
      closed := true;
      if rest != [] {
        ord := ord + [Group(rest)];
      }
    }

    // retry.go:285-301
    method DrainRetries() returns (rs: seq<Retry>)
      requires Shaped(View()) && hands[RUNNER].Idle? && closed
      modifies this`retries, this`protRetry, this`ord, this`hands
      ensures View() == Step(old(View()), ADrain)
      ensures hands[RUNNER] == Draining(rs)
    {
      hide EntryStep, TickStep, TakingStep, SendingStep, OutboxSpec.Close, DrainNext;
      rs := retries + protRetry;
      retries, protRetry := [], [];
      var left := [];
      ghost var first := rs;
      assert first + [] == first;
      for i := 0 to |ord|
        invariant rs == first + RetriesIn(ord[..i]) && left == WithoutRetries(ord[..i])
      {
        assert ord[..i + 1][..i] == ord[..i];
        match ord[i] {
          case RetryJob(r) => rs := rs + [r];
          case _ => left := left + [ord[i]];
        }
      }
      assert ord[..|ord|] == ord;
      ord := left;
      hands := hands[RUNNER := Draining(rs)];
    }
  }
}
