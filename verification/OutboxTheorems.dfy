/**
The outbox's guarantees, each for every run from the start: any sequence of accepts, submits, ticks, lane steps, answers of
the deliverer and the database, and a shutdown. What the lanes promise only under a condition is in OutboxLanes.
*/
module OutboxTheorems {
  import opened Wrappers
  import opened Attention
  import opened OutboxSpec
  import opened OutboxConservation
  import opened OutboxBounds
  import opened OutboxTries

  // What is still inside: in a queue, or in the hands of a running step.
  function Inside(x: Token, s: State): nat {
    In(x, s.o.buf) + Tally(JobLoad, x, s.o.ord) + In(x, s.o.prot) + Tally(DeferralLoad, x, s.o.deferred)
    + Tally(RetryLoad, x, s.o.retries) + Tally(RetryLoad, x, s.o.protRetry) + Tally(WorkLoad, x, s.hands)
  }

  function TimesSettled(d: Decision, o: Shared): nat { Tally(SettledLoad, OfDecision(d), o.log.settled) }

  function TimesReported(id: nat, o: Shared): nat { Tally(OutcomeLoad, OfMessage(id), o.log.outcomes) }

  /** A decision accepted once is in exactly one place, or has left exactly once. */
  lemma ExactlyOnePlace(now: int, window: int, slots: nat, callers: nat, actions: seq<Action>, d: Decision)
    requires In(OfDecision(d), Run(Init(now, window, slots, callers), actions).o.log.accepted) == 1
    ensures var s := Run(Init(now, window, slots, callers), actions);
            Inside(OfDecision(d), s) + TimesSettled(d, s.o) == 1
  {
    InitConserved(now, window, slots, callers);
    RunConserves(Init(now, window, slots, callers), actions);
    var s := Run(Init(now, window, slots, callers), actions);
    assert Entered(OfDecision(d), s.o.log) == Load(OfDecision(d), s);
    NoOutcomeOfDecisions(d, s.o.log.outcomes);
  }

  lemma {:induction false} NoOutcomeOfDecisions(d: Decision, outcomes: seq<Outcome>)
    ensures Tally(OutcomeLoad, OfDecision(d), outcomes) == 0
  {
    if outcomes != [] {
      NoOutcomeOfDecisions(d, outcomes[..|outcomes| - 1]);
    }
  }

  /** A message is live, or has had exactly one outcome. */
  lemma ExactlyOneOutcome(now: int, window: int, slots: nat, callers: nat, actions: seq<Action>, id: nat)
    requires id < |Run(Init(now, window, slots, callers), actions).o.log.mail|
    ensures var s := Run(Init(now, window, slots, callers), actions);
            Inside(OfMessage(id), s) + TimesReported(id, s.o) == 1
  {
    InitConserved(now, window, slots, callers);
    RunConserves(Init(now, window, slots, callers), actions);
    var s := Run(Init(now, window, slots, callers), actions);
    assert Entered(OfMessage(id), s.o.log) == Load(OfMessage(id), s);
    NoMessageAmongDecisions(id, s.o.log.accepted);
    NoMessageSettled(id, s.o.log.settled);
  }

  lemma {:induction false} NoMessageSettled(id: nat, settled: seq<Settled>)
    ensures Tally(SettledLoad, OfMessage(id), settled) == 0
  {
    if settled != [] {
      NoMessageSettled(id, settled[..|settled| - 1]);
    }
  }

  /** A protective decision never reaches the digest. */
  lemma ProtectiveNeverInDigest(now: int, window: int, slots: nat, callers: nat, actions: seq<Action>, x: Settled)
    requires x in Run(Init(now, window, slots, callers), actions).o.log.settled && IsProtective(x.d)
    ensures !x.fate.ToDigest?
  {
    InitSound(now, window, slots, callers);
    RunSound(Init(now, window, slots, callers), actions);
    assert SettledOk(x);
  }

  /** The queues stay inside their limits; the ordinary lane by as many more as other lanes scheduled retries for it. */
  lemma QueuesAreBounded(now: int, window: int, slots: nat, callers: nat, actions: seq<Action>)
    ensures var o := Run(Init(now, window, slots, callers), actions).o;
            && |o.buf| <= 64 && |o.deferred| <= 1024 && DistinctKeys(o.prot)
            && CountWaiting(o.retries, false) <= 64 && CountWaiting(o.retries, true) <= 16
            && |o.ord| <= o.ordSlots + 64 + 1 + o.log.stray + if o.closed then 1 else 0
  {
    InitSound(now, window, slots, callers);
    RunSound(Init(now, window, slots, callers), actions);
  }

  /**
  A try the ordinary lane begins ends inside the lease of every decision in it: composing, delivering and booking
  at their slowest leave 50 seconds.
  */
  lemma OrdinaryTriesEndInsideTheLease(now: int, window: int, slots: nat, callers: nat, actions: seq<Action>, t: Try, d: Decision)
    requires t in Run(Init(now, window, slots, callers), actions).o.log.tries && t.lane == ORDINARY
    requires d in t.m.decisions && d.at.Some?
    ensures t.at + COMPOSE_TIMEOUT + DELIVER_TIMEOUT + BOOKKEEP_TIMEOUT <= d.at.value + PENDING_LEASE - 50 * SECOND
  {
    InitSound(now, window, slots, callers);
    RunSound(Init(now, window, slots, callers), actions);
    assert TryOk(t);
    assert !TooLate(d, t.at);
  }

  /** At most four tries, or fifteen for a message with a protective decision. */
  lemma TriesAreBounded(now: int, window: int, slots: nat, callers: nat, actions: seq<Action>, id: nat)
    requires id < |Run(Init(now, window, slots, callers), actions).o.log.mail|
    ensures var mail := Run(Init(now, window, slots, callers), actions).o.log.mail[id];
            mail.tries <= if HasProtective(mail.decisions) then 15 else 4
  {
    InitConserved(now, window, slots, callers);
    RunFits(Init(now, window, slots, callers), actions);
  }

  /** Once its outcome is reported, taken or given up, a message is never tried again. */
  lemma {:induction false} FinishedForGood(s: State, actions: seq<Action>, id: nat)
    requires Fits(s) && Conserved(s) && id < |s.o.log.mail|
    requires Tally(OutcomeLoad, OfMessage(id), s.o.log.outcomes) > 0
    ensures id < |Run(s, actions).o.log.mail| && Run(s, actions).o.log.mail[id] == s.o.log.mail[id]
    ensures Tally(OutcomeLoad, OfMessage(id), Run(s, actions).o.log.outcomes) > 0
  {
    if actions != [] {
      var front := actions[..|actions| - 1];
      FinishedForGood(s, front, id);
      RunFits(s, front);
      FinishedIsQuiet(Run(s, front), actions[|actions| - 1], id);
    }
  }
}
