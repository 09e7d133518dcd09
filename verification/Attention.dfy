/**
The values the attention package passes around: candidates, decisions and the constants both the governor and
the outbox depend on. Times are whole milliseconds; a zero time.Time is None.
*/
module Attention {

  import opened Wrappers

  // proactive.Severity; the order of the constructors is the order of the levels.
  datatype Severity = Info | Notice | Warning | Critical {
    function Level(): nat {
      match this
      case Info => 0
      case Notice => 1
      case Warning => 2
      case Critical => 3
    }
  }

  datatype Disposition = Drop | Log | Digest | Notify | Escalate {
    // store.go:123
    predicate Sent() { Notify? || Escalate? }
  }

  datatype Reason =
    | Off | Shadow | Muted | DedupSame | DedupQueued | Protective | QuietHours | InfoToDigest
    | LowAcceptance | Holdout | Budget | ComposeLLM | Template | OwnerAlertQuiet | Deferred
    | InhibitedBy(key: string)

  datatype Candidate = Candidate(
    key: string, severity: Severity, protective: bool, shadow: bool, composeLLM: bool, ownerRequested: bool,
    dedupWindow: int)

  datatype Decision = Decision(id: nat, disposition: Disposition, reason: Reason, candidate: Candidate, at: Option<int>)

  // rules.go:374
  predicate IsProtectiveCritical(c: Candidate) {
    c.protective && c.severity.Critical?
  }

  // retry.go:83
  predicate IsProtective(d: Decision) {
    IsProtectiveCritical(d.candidate) || d.reason.Protective?
  }

  const SECOND := 1000
  const MINUTE := 60 * SECOND
  const HOUR := 60 * MINUTE

  const PENDING_LEASE := 10 * MINUTE
  const MAX_QUEUE_AGE := 6 * MINUTE
  const COMPOSE_TIMEOUT := 90 * SECOND
  const DELIVER_TIMEOUT := 90 * SECOND
  const BOOKKEEP_TIMEOUT := 10 * SECOND
}
