/**
The rule table (pkg/attention/rules.go:296-376): what is done with a candidate, given the facts the governor read. The
learning rules read their posterior and their draw elsewhere; here they are three flags.
*/
module Rules {
  import opened Wrappers
  import opened Attention

  datatype Mode = ModeOff | ModeShadow | ModeLive

  // adapt: learning acts; unwelcome: enough responses with a low mean; drawn: the holdout draw fell under its rate.
  datatype Facts = Facts(
    mode: Mode, muted: bool, dedupHit: bool, queuedHit: bool, inhibitedBy: Option<string>, inActiveHours: bool,
    sendsToday: nat, budget: nat, joinsPending: bool, adapt: bool, unwelcome: bool, drawn: bool)

  datatype Verdict = Verdict(disposition: Disposition, reason: Reason)

  // rules.go:343-348
  function LimitFor(f: Facts, s: Severity): nat {
    if s.Warning? then f.budget + 1 else f.budget
  }

  // rules.go:351-353
  predicate OverBudget(f: Facts, c: Candidate) {
    !c.severity.Critical? && f.sendsToday >= LimitFor(f, c.severity) && !f.joinsPending
  }

  // rules.go:357-364
  predicate Learnable(c: Candidate) {
    c.severity.Notice? && !c.protective && !c.ownerRequested
  }

  predicate Learns(f: Facts, c: Candidate) {
    f.adapt && Learnable(c) && !OverBudget(f, c)
  }

  function DeliverReason(f: Facts, c: Candidate, base: Reason): Reason {
    if c.ownerRequested && !f.inActiveHours then OwnerAlertQuiet else base
  }

  // rules.go:296-330
  function Evaluate(c: Candidate, f: Facts): Verdict {
    if f.mode.ModeOff? then Verdict(Drop, Off)
    else if c.shadow || f.mode.ModeShadow? then Verdict(Log, Shadow)
    else if f.muted then Verdict(Drop, Muted)
    else if f.dedupHit then Verdict(Drop, DedupSame)
    else if f.queuedHit && !IsProtectiveCritical(c) then Verdict(Drop, DedupQueued)
    else if IsProtectiveCritical(c) then Verdict(if c.composeLLM then Escalate else Notify, Reason.Protective)
    else if f.inhibitedBy.Some? then Verdict(Drop, InhibitedBy(f.inhibitedBy.value))
    else if !f.inActiveHours && !c.ownerRequested then Verdict(Digest, QuietHours)
    else if c.severity.Info? then Verdict(Digest, InfoToDigest)
    else if Learns(f, c) && f.unwelcome then Verdict(Digest, LowAcceptance)
    else if Learns(f, c) && f.drawn then Verdict(Digest, Holdout)
    else if OverBudget(f, c) then Verdict(Digest, Budget)
    else if c.composeLLM then Verdict(Escalate, DeliverReason(f, c, ComposeLLM))
    else Verdict(Notify, DeliverReason(f, c, Template))
  }

  predicate Live(c: Candidate, f: Facts) {
    f.mode.ModeLive? && !c.shadow
  }

  /**
  A protective Critical goes out unless it is muted by name or was delivered within its window; a queued item, an
  inhibitor, quiet hours, learning and the budget do not hold it back, and it is never a digest item.
  */
  lemma ProtectiveIsNotHeldBack(c: Candidate, f: Facts)
    requires Live(c, f) && IsProtectiveCritical(c)
    ensures Evaluate(c, f).disposition.Sent() <==> !f.muted && !f.dedupHit
    ensures Evaluate(c, f).disposition.Sent() ==> Evaluate(c, f).reason.Protective?
    ensures !Evaluate(c, f).disposition.Digest?
    ensures forall g: Facts | g.mode == f.mode && g.muted == f.muted && g.dedupHit == f.dedupHit :: Evaluate(c, g) == Evaluate(c, f)
  {
  }

  /** Anything else goes out exactly when no rule before the last two applies. */
  lemma WhatGoesOut(c: Candidate, f: Facts)
    requires !IsProtectiveCritical(c)
    ensures Evaluate(c, f).disposition.Sent() <==>
              && Live(c, f) && !f.muted && !f.dedupHit && !f.queuedHit && f.inhibitedBy.None?
              && (f.inActiveHours || c.ownerRequested) && !c.severity.Info?
              && !(Learns(f, c) && (f.unwelcome || f.drawn))
              && (c.severity.Critical? || f.joinsPending || f.sendsToday < LimitFor(f, c.severity))
    ensures !Evaluate(c, f).reason.Protective?
  {
  }
}
