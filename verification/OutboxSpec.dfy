/**
The outbox as a state machine: the decisions it holds, where each of them is, and one action for every section
of code that runs under the outbox's lock or between two of them (pkg/attention/outbox.go, handoff.go,
retry.go). A run is any sequence of actions, so a property of all runs is a property of every interleaving of
the accepting callers, the tick, the two delivery lanes and the shutdown.

The steps that are running when a state is looked at are its hands: what the ordinary worker, the protective
worker, Run's own goroutine and the callers of Submit have in their local variables.
*/
module OutboxSpec {
  import opened Wrappers
  import opened Attention

  const MAX_BUFFERED := 64
  const MAX_DEFER_BACKLOG := 1024
  const DEFER_TRIES := 3
  const MAX_PENDING_RETRIES := 64
  const MAX_PENDING_PROTECTIVE_RETRIES := 16
  const RETRY_DELAYS: seq<int> := [30 * SECOND, 90 * SECOND, 150 * SECOND]
  const PROTECTIVE_RETRY_EVERY := 5 * MINUTE
  const PROTECTIVE_RETRY_WINDOW := HOUR

  // The lanes by their index in the hands; the callers of Submit follow.
  const ORDINARY: nat := 0
  const PROTECTIVE: nat := 1
  const RUNNER: nat := 2

  // ---- state ------------------------------------------------------------------------------------------

  datatype Message = Message(id: nat, decisions: seq<Decision>)

  datatype Retry = Retry(m: Message, failed: nat, due: int, since: Option<int>)

  datatype Job = Group(group: seq<Decision>) | DigestJob | RetryJob(retry: Retry)

  datatype Deferral = Deferral(d: Decision, release: bool, tries: nat)

  // What a running step holds, and what it goes on with afterwards.
  datatype Work =
    | Idle
    | Holding(job: Job, next: Work)                                  // taken, not yet begun
    | Sending(m: Message, failed: nat, since: Option<int>, next: Work) // inside the deliverer
    | Ending(m: Message, rest: seq<Decision>, next: Work)            // giveUp, decision by decision
    | Aging(rest: seq<Decision>, next: Work)                         // deferring a group that waited too long
    | SendingDigest(next: Work)
    | Handing(group: seq<Decision>)                                  // tick: between take and hand-over
    | Settling(todo: seq<Deferral>, again: seq<Deferral>)            // processDeferrals
    | Draining(retries: seq<Retry>)                                  // drainRetries

  // How a decision left the outbox.
  datatype Fate = Told | ToDigest | Released | Abandoned | DeferralFailed
  datatype Settled = Settled(d: Decision, fate: Fate)

  datatype Handoff = Ignored | Buffered | Queued | Closed

  // One call of the deliverer: which lane made it, when its step started, and for which message.
  datatype Try = Try(lane: nat, at: int, m: Message)
  datatype Mail = Mail(decisions: seq<Decision>, tries: nat)
  datatype Outcome = Outcome(id: nat, delivered: bool)

  // What happened so far; only the numbering of messages reads it. The decisions taken in and when, the groups
  // the buffer was emptied into, the decisions that left, the messages with their tries so far, the tries, the
  // outcomes reported, the ordinary retries that a lane other than the ordinary one scheduled, whether the
  // protective lane ever took less than the whole pending group, whether it ever took a group without a protective
  // decision, and whether the buffer was ever taken while its window was open.
  datatype Record = Record(
    accepted: seq<Decision>, acceptedAt: seq<int>, formed: seq<seq<Decision>>, settled: seq<Settled>,
    mail: seq<Mail>, tries: seq<Try>, outcomes: seq<Outcome>, stray: nat, split: bool, bare: bool, early: bool)

  // The fields of the outbox that its lock guards, with its clock and its record.
  datatype Shared = Shared(
    now: int, window: int, ordSlots: nat,
    buf: seq<Decision>, windowStart: int, closed: bool,
    ord: seq<Job>, prot: seq<Decision>, deferred: seq<Deferral>, retries: seq<Retry>, protRetry: seq<Retry>,
    digestBusy: bool, log: Record)

  datatype State = State(o: Shared, hands: seq<Work>)

  function Init(now: int, window: int, ordSlots: nat, callers: nat): State {
    State(Shared(now, window, ordSlots, [], 0, false, [], [], [], [], [], false,
                 Record([], [], [], [], [], [], [], 0, false, false, false)),
          seq(3 + callers, i => Idle))
  }

  // ---- small predicates of the source ---------------------------------------------------------------------

  // retry.go:72-79
  predicate HasProtective(ds: seq<Decision>) {
    exists d | d in ds :: IsProtective(d)
  }

  // retry.go:102-109 and handoff.go:722-730: the two are the same test.
  predicate PastLease(ds: seq<Decision>, at: int) {
    exists d | d in ds :: TooLate(d, at)
  }

  predicate TooLate(d: Decision, at: int) {
    d.at.Some? && at - d.at.value > MAX_QUEUE_AGE
  }

  // retry.go:90-98
  function ProtectiveSince(ds: seq<Decision>, now: int): (since: int)
    ensures since <= now
  {
    if ds == [] then
      now
    else
      var since := ProtectiveSince(ds[..|ds| - 1], now);
      var d := ds[|ds| - 1];
      if IsProtective(d) && d.at.Some? && d.at.value < since then d.at.value else since
  }

  function OrdinaryPart(group: seq<Decision>): seq<Decision> {
    if group == [] then []
    else
      var front, d := group[..|group| - 1], group[|group| - 1];
      if IsProtectiveCritical(d.candidate) then OrdinaryPart(front) else OrdinaryPart(front) + [d]
  }

  function ProtectivePart(group: seq<Decision>): seq<Decision> {
    if group == [] then []
    else
      var front, d := group[..|group| - 1], group[|group| - 1];
      if IsProtectiveCritical(d.candidate) then ProtectivePart(front) + [d] else ProtectivePart(front)
  }

  // ---- the backlog and the protective group ----------------------------------------------------------------

  function Min(a: int, b: int): int { if a < b then a else b }

  function Room(backlog: seq<Deferral>): nat {
    if |backlog| < MAX_DEFER_BACKLOG then MAX_DEFER_BACKLOG - |backlog| else 0
  }

  function AsDeferrals(ds: seq<Decision>, release: bool): seq<Deferral> {
    seq(|ds|, i requires 0 <= i < |ds| => Deferral(ds[i], release, 0))
  }

  function WithFate(ds: seq<Decision>, fate: Fate): seq<Settled> {
    seq(|ds|, i requires 0 <= i < |ds| => Settled(ds[i], fate))
  }

  function Leave(log: Record, gone: seq<Settled>): Record {
    log.(settled := log.settled + gone)
  }

  // handoff.go:402-411: what fits joins the backlog, the rest is abandoned.
  function Defer(s: Shared, ds: seq<Decision>, release: bool): Shared {
    var k := Min(|ds|, Room(s.deferred));
    s.(deferred := s.deferred + AsDeferrals(ds[..k], release), log := Leave(s.log, WithFate(ds[k..], Abandoned)))
  }

  // The place of the pending protective decision with this key, or |prot|.
  function SlotOf(prot: seq<Decision>, key: string): (i: nat)
    ensures i <= |prot|
    ensures i < |prot| ==> prot[i].candidate.key == key
    ensures forall j | 0 <= j < i :: prot[j].candidate.key != key
  {
    if prot == [] then 0
    else if prot[0].candidate.key == key then 0
    else 1 + SlotOf(prot[1..], key)
  }

  // handoff.go:382-397: a pending decision with the same key is replaced, where it stands, by the newer one.
  // The second result is what was replaced.
  function AddTo(prot: seq<Decision>, d: Decision): (seq<Decision>, seq<Decision>) {
    var i := SlotOf(prot, d.candidate.key);
    if i < |prot| then (prot[i := d], [prot[i]]) else (prot + [d], [])
  }

  function AddAllTo(prot: seq<Decision>, ds: seq<Decision>): (seq<Decision>, seq<Decision>) {
    if ds == [] then (prot, [])
    else
      var (p, gone) := AddAllTo(prot, ds[..|ds| - 1]);
      var (p', gone') := AddTo(p, ds[|ds| - 1]);
      (p', gone + gone')
  }

  // The protective group takes ds; what is superseded is released.
  function AddProtective(s: Shared, ds: seq<Decision>): Shared {
    var (p, gone) := AddAllTo(s.prot, ds);
    Defer(s.(prot := p), gone, true)
  }

  // ---- accepting -------------------------------------------------------------------------------------------

  // outbox.go:262-266
  function Take(s: Shared): Shared {
    s.(buf := [], log := s.log.(formed := s.log.formed + [s.buf], early := s.log.early || s.now < s.windowStart + s.window))
  }

  predicate WindowClosed(s: Shared) {
    s.buf != [] && s.window > 0 && s.now >= s.windowStart + s.window
  }

  // The group that is due before a new decision is buffered: the window closed, or the buffer is full.
  predicate MustTake(s: Shared) {
    WindowClosed(s) || |s.buf| >= MAX_BUFFERED
  }

  function Join(s: Shared, d: Decision): Shared {
    s.(windowStart := if s.buf == [] then s.now else s.windowStart, buf := s.buf + [d],
       log := s.log.(accepted := s.log.accepted + [d], acceptedAt := s.log.acceptedAt + [s.now]))
  }

  // handoff.go:357-377: the protective members go to their lane, the rest takes a slot or is deferred.
  function PushOrdinary(s: Shared, group: seq<Decision>): Shared {
    PushRest(AddProtective(s, ProtectivePart(group)), OrdinaryPart(group))
  }

  function PushRest(s: Shared, rest: seq<Decision>): Shared {
    if rest == [] then s
    else if |s.ord| >= s.ordSlots then Defer(s, rest, false)
    else s.(ord := s.ord + [Group(rest)])
  }

  // handoff.go:325-334
  function Buffer(s: Shared, d: Decision): Shared {
    Join(if MustTake(s) then Take(s) else s, d)
  }

  // handoff.go:335-340: a protective Critical goes to its lane with everything that was buffered.
  function Escort(s: Shared, d: Decision): Shared {
    if IsProtectiveCritical(d.candidate) then AddProtective(Take(s), s.buf) else s
  }

  // handoff.go:322-345
  function AcceptLocked(s: Shared, d: Decision): (Shared, Handoff) {
    var s1 := Escort(Buffer(s, d), d);
    (if MustTake(s) then PushOrdinary(s1, s.buf) else s1,
     if IsProtectiveCritical(d.candidate) then Queued else Buffered)
  }

  // handoff.go:303-317, one turn of the loop
  function AcceptOne(s: Shared, d: Decision): (Shared, Handoff) {
    if !d.disposition.Sent() then (s, Ignored)
    else if s.closed then (s, Closed)
    else AcceptLocked(s, d)
  }

  function AcceptAll(s: Shared, ds: seq<Decision>): (Shared, seq<Handoff>) {
    if ds == [] then (s, [])
    else
      var (s1, res) := AcceptAll(s, ds[..|ds| - 1]);
      var (s2, h) := AcceptOne(s1, ds[|ds| - 1]);
      (s2, res + [h])
  }

  // outbox.go:245: whether Submit takes the buffer it has just joined.
  predicate SendsNow(o: Shared, d: Decision) {
    IsProtectiveCritical(d.candidate) || o.closed
  }

  // outbox.go:218-259: the locked part of Submit; the groups it takes are sent by the caller itself.
  function SubmitWork(o: Shared, d: Decision): Work {
    var now := if SendsNow(o, d) then Holding(Group(Buffer(o, d).buf), Idle) else Idle;
    if MustTake(o) then Holding(Group(o.buf), now) else now
  }

  function SubmitShared(o: Shared, d: Decision): Shared {
    if SendsNow(o, d) then Take(Buffer(o, d)) else Buffer(o, d)
  }

  function Submit(s: State, caller: nat, d: Decision): State
    requires caller < |s.hands|
  {
    if !d.disposition.Sent() then s else Set(s, caller, SubmitWork(s.o, d), SubmitShared(s.o, d))
  }

  // ---- the tick --------------------------------------------------------------------------------------------

  // Step i goes on with w, and leaves the outbox as o.
  function Set(s: State, i: nat, w: Work, o: Shared): State
    requires i < |s.hands|
  {
    State(o, s.hands[i := w])
  }

  // outbox.go:284-288
  function TakeDue(s: State): State
    requires RUNNER < |s.hands|
  {
    if s.o.buf != [] && (s.o.window <= 0 || s.o.now >= s.o.windowStart + s.o.window) then
      Set(s, RUNNER, Handing(s.o.buf), Take(s.o))
    else s
  }

  function Waiting(rs: seq<Retry>, now: int): seq<Retry> {
    if rs == [] then []
    else
      var front, r := Waiting(rs[..|rs| - 1], now), rs[|rs| - 1];
      if r.due > now then front + [r] else front
  }

  function DueFor(rs: seq<Retry>, now: int, protective: bool): seq<Retry> {
    if rs == [] then []
    else
      var front, r := DueFor(rs[..|rs| - 1], now, protective), rs[|rs| - 1];
      if r.due <= now && HasProtective(r.m.decisions) == protective then front + [r] else front
  }

  function AsJobs(rs: seq<Retry>): seq<Job> {
    seq(|rs|, i requires 0 <= i < |rs| => RetryJob(rs[i]))
  }

  // retry.go:244-262
  function HandOverDueRetries(s: Shared): Shared {
    s.(retries := Waiting(s.retries, s.now),
       protRetry := s.protRetry + DueFor(s.retries, s.now, true),
       ord := s.ord + AsJobs(DueFor(s.retries, s.now, false)))
  }

  // DeferToDigest refuses a protective decision (digest.go:207); releasing refuses nothing.
  predicate CanSettle(d: Decision, release: bool) {
    release || !d.reason.Protective?
  }

  function SettledAs(d: Decision, release: bool): Settled {
    Settled(d, if release then Released else ToDigest)
  }

  function Left(o: Shared, gone: seq<Settled>): Shared {
    o.(log := Leave(o.log, gone))
  }

  function SettleFirst(s: State, todo: seq<Deferral>, again: seq<Deferral>, ok: bool): State
    requires RUNNER < |s.hands| && todo != []
  {
    var f := todo[0];
    if ok && CanSettle(f.d, f.release) then
      Set(s, RUNNER, Settling(todo[1..], again), Left(s.o, [SettledAs(f.d, f.release)]))
    else if f.tries + 1 < DEFER_TRIES then
      Set(s, RUNNER, Settling(todo[1..], again + [f.(tries := f.tries + 1)]), s.o)
    else
      Set(s, RUNNER, Settling(todo[1..], again), Left(s.o, [Settled(f.d, DeferralFailed)]))
  }

  // handoff.go:426-436, one turn of the loop
  function SettleNext(s: State, ok: bool): State
    requires RUNNER < |s.hands|
  {
    match s.hands[RUNNER]
    case Settling(todo, again) =>
      if todo == [] then s else SettleFirst(s, todo, again, ok)
    case _ => s
  }

  function Decisions(fs: seq<Deferral>): seq<Decision> {
    seq(|fs|, i requires 0 <= i < |fs| => fs[i].d)
  }

  // handoff.go:437-447: what fits goes back to the backlog, the rest is abandoned.
  function Return(o: Shared, again: seq<Deferral>): Shared {
    var k := Min(|again|, Room(o.deferred));
    Left(o.(deferred := o.deferred + again[..k]), WithFate(Decisions(again[k..]), Abandoned))
  }

  function PutBack(s: State): State
    requires RUNNER < |s.hands|
  {
    match s.hands[RUNNER]
    case Settling(todo, again) => if todo != [] then s else Set(s, RUNNER, Idle, Return(s.o, again))
    case _ => s
  }

  // handoff.go:473-490, for a digest the governor says is due
  function HandOverDigest(s: Shared): Shared {
    if s.digestBusy || |s.ord| >= s.ordSlots then s
    else s.(ord := s.ord + [DigestJob], digestBusy := true)
  }

  // ---- the lanes -------------------------------------------------------------------------------------------

  // handoff.go:591-606
  function PopOrdinary(s: State): State
    requires ORDINARY < |s.hands|
  {
    if s.o.ord == [] then s else Set(s, ORDINARY, Holding(s.o.ord[0], Idle), s.o.(ord := s.o.ord[1..]))
  }

  // retry.go:265-279
  function PopRetry(s: State): State
    requires PROTECTIVE < |s.hands|
  {
    if s.o.protRetry == [] then s
    else Set(s, PROTECTIVE, Holding(RetryJob(s.o.protRetry[0]), Idle), s.o.(protRetry := s.o.protRetry[1..]))
  }

  // What the protective lane takes of the pending group, and what that leaves.
  function NextGroup(o: Shared): seq<Decision> {
    o.prot[..Min(|o.prot|, MAX_BUFFERED)]
  }

  function TakeGroup(o: Shared): Shared {
    o.(prot := o.prot[Min(|o.prot|, MAX_BUFFERED)..], log := NoteTaken(o.log, o.prot, NextGroup(o)))
  }

  function NoteTaken(log: Record, prot: seq<Decision>, g: seq<Decision>): Record {
    log.(split := log.split || |g| < |prot|, bare := log.bare || !HasProtective(g))
  }

  // handoff.go:608-623: the lane looks for a retry first, but one may be handed over in between.
  function PopProtective(s: State): State
    requires PROTECTIVE < |s.hands|
  {
    if s.o.prot == [] then s else Set(s, PROTECTIVE, Holding(Group(NextGroup(s.o)), Idle), TakeGroup(s.o))
  }

  function NewMessage(o: Shared, g: seq<Decision>): Shared {
    o.(log := o.log.(mail := o.log.mail + [Mail(g, 0)]))
  }

  function CountTry(o: Shared, lane: nat, m: Message): Shared
    requires m.id < |o.log.mail|
  {
    var sent := o.log.mail[m.id];
    o.(log := o.log.(mail := o.log.mail[m.id := sent.(tries := sent.tries + 1)], tries := o.log.tries + [Try(lane, o.now, m)]))
  }

  // handoff.go:661-717, retry.go:211-222, outbox.go:418-463: up to the call of the deliverer.
  function Begin(s: State, i: nat): State
    requires i < |s.hands|
  {
    match s.hands[i]
    case Holding(Group(g), next) =>
      if i == ORDINARY && PastLease(g, s.o.now) then Set(s, i, Aging(g, next), s.o)
      else
        var m := Message(|s.o.log.mail|, g);
        Set(s, i, Sending(m, 0, None, next), CountTry(NewMessage(s.o, g), i, m))
    case Holding(RetryJob(r), next) =>
      if r.m.id >= |s.o.log.mail| then s
      else if !HasProtective(r.m.decisions) && PastLease(r.m.decisions, s.o.now) then
        Set(s, i, Ending(r.m, r.m.decisions, next), s.o)
      else Set(s, i, Sending(r.m, r.failed, r.since, next), CountTry(s.o, i, r.m))
    case Holding(DigestJob, next) => Set(s, i, SendingDigest(next), s.o)
    case _ => s
  }

  // How many waiting retries count against the same limit.
  function CountWaiting(rs: seq<Retry>, protective: bool): nat {
    if rs == [] then 0
    else
      var n := CountWaiting(rs[..|rs| - 1], protective);
      if HasProtective(rs[|rs| - 1].m.decisions) == protective then n + 1 else n
  }

  function RetryLimit(protective: bool): nat {
    if protective then MAX_PENDING_PROTECTIVE_RETRIES else MAX_PENDING_RETRIES
  }

  // retry.go:141-165: the retry to schedule after the failed-th failure, if the tries and the time allow one.
  function NextRetry(m: Message, failed: nat, since: Option<int>, now: int): (r: Option<Retry>)
    ensures r.Some? ==> r.value.m == m && r.value.failed == failed
  {
    var protective := HasProtective(m.decisions);
    if failed < 1 || (failed > |RETRY_DELAYS| && !protective) then None
    else
      var due := now + if failed <= |RETRY_DELAYS| then RETRY_DELAYS[failed - 1] else PROTECTIVE_RETRY_EVERY;
      if protective then
        var start := if since.None? then ProtectiveSince(m.decisions, now) else since.value;
        if due - start > PROTECTIVE_RETRY_WINDOW then None else Some(Retry(m, failed, due, Some(start)))
      else if PastLease(m.decisions, due) then None
      else Some(Retry(m, failed, due, since))
  }

  // retry.go:141-185, with the room the lock finds
  function ScheduleRetry(s: Shared, m: Message, failed: nat, since: Option<int>): (r: Option<Retry>)
    ensures r.Some? ==> r.value.m == m && r.value.failed == failed
  {
    var r := NextRetry(m, failed, since, s.now);
    var protective := HasProtective(m.decisions);
    if r.None? || s.closed || CountWaiting(s.retries, protective) >= RetryLimit(protective) then None else r
  }

  function Report(log: Record, id: nat, delivered: bool): Record {
    log.(outcomes := log.outcomes + [Outcome(id, delivered)])
  }

  function Reported(o: Shared, id: nat, delivered: bool): Shared {
    o.(log := Report(o.log, id, delivered))
  }

  function Queue(o: Shared, r: Retry, strays: nat): Shared {
    o.(retries := o.retries + [r], log := o.log.(stray := o.log.stray + strays))
  }

  // retry.go:124-132: the message waits for its retry, or is given up.
  function AfterFailure(s: State, i: nat, m: Message, r: Option<Retry>, next: Work): State
    requires i < |s.hands|
  {
    if r.Some? then
      Set(s, i, next, Queue(s.o, r.value, if i != ORDINARY && !HasProtective(m.decisions) then 1 else 0))
    else
      Set(s, i, Ending(m, m.decisions, next), s.o)
  }

  // outbox.go:459-463, retry.go:114-132: what follows the deliverer's answer.
  function Delivered(s: State, i: nat, ok: bool): State
    requires i < |s.hands|
  {
    match s.hands[i]
    case Sending(m, failed, since, next) =>
      if ok then
        Set(s, i, next, Reported(Left(s.o, WithFate(m.decisions, Told)), m.id, true))
      else
        AfterFailure(s, i, m, ScheduleRetry(s.o, m, failed + 1, since), next)
    case _ => s
  }

  // One decision of a message that is given up goes to the digest, or is released if it is protective; if the database
  // does not answer it is deferred.
  function Fallback(o: Shared, d: Decision, ok: bool): Shared {
    if ok then Left(o, [SettledAs(d, IsProtective(d))]) else Defer(o, [d], IsProtective(d))
  }

  // retry.go:191-206, one turn of giveUp's loop, and its end
  function EndNext(s: State, i: nat, ok: bool): State
    requires i < |s.hands|
  {
    match s.hands[i]
    case Ending(m, rest, next) =>
      if rest == [] then Set(s, i, next, Reported(s.o, m.id, false))
      else Set(s, i, Ending(m, rest[1..], next), Fallback(s.o, rest[0], ok))
    case _ => s
  }

  // handoff.go:683-688, one turn of the loop over a group that waited too long
  function AgeNext(s: State, i: nat, ok: bool): State
    requires i < |s.hands|
  {
    match s.hands[i]
    case Aging(rest, next) =>
      if rest == [] then Set(s, i, next, s.o)
      else
        var fate := if ok && CanSettle(rest[0], false) then ToDigest else DeferralFailed;
        Set(s, i, Aging(rest[1..], next), Left(s.o, [Settled(rest[0], fate)]))
    case _ => s
  }

  function DigestSent(s: State, i: nat): State
    requires i < |s.hands|
  {
    match s.hands[i]
    case SendingDigest(next) => Set(s, i, next, s.o.(digestBusy := false))
    case _ => s
  }

  // ---- shutdown --------------------------------------------------------------------------------------------

  // handoff.go:541-556: the slot limit does not apply to the last group.
  function Close(s: Shared): Shared {
    if s.buf == [] then s.(closed := true)
    else LastGroup(AddProtective(Take(s), ProtectivePart(s.buf)).(closed := true), OrdinaryPart(s.buf))
  }

  function LastGroup(s: Shared, rest: seq<Decision>): Shared {
    if rest == [] then s else s.(ord := s.ord + [Group(rest)])
  }

  function RetriesIn(jobs: seq<Job>): seq<Retry> {
    if jobs == [] then []
    else
      var front, j := RetriesIn(jobs[..|jobs| - 1]), jobs[|jobs| - 1];
      if j.RetryJob? then front + [j.retry] else front
  }

  function WithoutRetries(jobs: seq<Job>): seq<Job> {
    if jobs == [] then []
    else
      var front, j := WithoutRetries(jobs[..|jobs| - 1]), jobs[|jobs| - 1];
      if j.RetryJob? then front else front + [j]
  }

  // retry.go:285-301
  function DrainRetries(s: State): State
    requires RUNNER < |s.hands|
  {
    Set(s, RUNNER, Draining(s.o.retries + s.o.protRetry + RetriesIn(s.o.ord)),
        s.o.(retries := [], protRetry := [], ord := WithoutRetries(s.o.ord)))
  }

  // retry.go:302-312, the next turn of the loop
  function DrainNext(s: State): State
    requires RUNNER < |s.hands|
  {
    match s.hands[RUNNER]
    case Draining(rs) =>
      if rs == [] then Set(s, RUNNER, Idle, s.o)
      else Set(s, RUNNER, Ending(rs[0].m, rs[0].m.decisions, Draining(rs[1..])), s.o)
    case _ => s
  }

  // ---- actions and runs ------------------------------------------------------------------------------------

  datatype Action =
    | AClock(to: int)
    | AAccept(ds: seq<Decision>)
    | ASubmit(caller: nat, d: Decision)
    | ATakeDue | AHandOver | ADueRetries | ATakeDeferrals | ASettle(ok: bool) | APutBack | ADigest
    | APopOrdinary | APopRetry | APopProtective
    | ABegin(lane: nat) | ADelivered(lane: nat, ok: bool) | AEnd(lane: nat, ok: bool)
    | AAge(ok: bool) | ADigestSent
    | AClose | ADrain | ADrainNext

  predicate Shaped(s: State) {
    |s.hands| >= 3
  }

  // The clock and the callers.
  predicate IsEntry(a: Action) {
    a.AClock? || a.AAccept? || a.ASubmit?
  }

  // Run's goroutine, from tick to tick.
  predicate IsTick(a: Action) {
    a.ATakeDue? || a.AHandOver? || a.ADueRetries? || a.ATakeDeferrals? || a.ASettle? || a.APutBack? || a.ADigest?
  }

  // Run's goroutine, at the end.
  predicate IsShutdown(a: Action) {
    a.AClose? || a.ADrain? || a.ADrainNext?
  }

  // A worker takes what is next.
  predicate IsTaking(a: Action) {
    a.APopOrdinary? || a.APopRetry? || a.APopProtective?
  }

  // What a worker, or a caller of Submit, does with what it has.
  predicate IsSending(a: Action) {
    a.ABegin? || a.ADelivered? || a.AEnd? || a.AAge? || a.ADigestSent?
  }

  function EntryStep(s: State, a: Action): (s': State)
    requires Shaped(s) && IsEntry(a)
    ensures Shaped(s')
  {
    match a
    case AClock(to) => if to >= s.o.now then State(s.o.(now := to), s.hands) else s
    case AAccept(ds) => State(AcceptAll(s.o, ds).0, s.hands)
    case ASubmit(c, d) => if RUNNER < c < |s.hands| && s.hands[c].Idle? then Submit(s, c, d) else s
  }

  // outbox.go:289-293: the group that was taken goes to the lanes.
  function HandOver(s: State): (s': State)
    requires Shaped(s)
    ensures Shaped(s')
  {
    match s.hands[RUNNER]
    case Handing(g) => Set(s, RUNNER, Idle, PushOrdinary(s.o, g))
    case _ => s
  }

  function TakeDeferrals(s: State): (s': State)
    requires Shaped(s)
    ensures Shaped(s')
  {
    Set(s, RUNNER, Settling(s.o.deferred, []), s.o.(deferred := []))
  }

  function TickStep(s: State, a: Action): (s': State)
    requires Shaped(s) && IsTick(a)
    ensures Shaped(s')
  {
    match a
    case ATakeDue => if s.hands[RUNNER].Idle? then TakeDue(s) else s
    case AHandOver => HandOver(s)
    case ADueRetries => if s.hands[RUNNER].Idle? then State(HandOverDueRetries(s.o), s.hands) else s
    case ATakeDeferrals => if s.hands[RUNNER].Idle? then TakeDeferrals(s) else s
    case ASettle(ok) => SettleNext(s, ok)
    case APutBack => PutBack(s)
    case ADigest => if s.hands[RUNNER].Idle? then State(HandOverDigest(s.o), s.hands) else s
  }

  function ShutdownStep(s: State, a: Action): (s': State)
    requires Shaped(s) && IsShutdown(a)
    ensures Shaped(s')
  {
    match a
    case AClose => if s.hands[RUNNER].Idle? then State(Close(s.o), s.hands) else s
    case ADrain => if s.hands[RUNNER].Idle? && s.o.closed then DrainRetries(s) else s
    case ADrainNext => DrainNext(s)
  }

  function TakingStep(s: State, a: Action): (s': State)
    requires Shaped(s) && IsTaking(a)
    ensures Shaped(s')
  {
    match a
    case APopOrdinary => if s.hands[ORDINARY].Idle? then PopOrdinary(s) else s
    case APopRetry => if s.hands[PROTECTIVE].Idle? then PopRetry(s) else s
    case APopProtective => if s.hands[PROTECTIVE].Idle? then PopProtective(s) else s
  }

  function SendingStep(s: State, a: Action): (s': State)
    requires Shaped(s) && IsSending(a)
    ensures Shaped(s')
  {
    match a
    case ABegin(i) => if i < |s.hands| then Begin(s, i) else s
    case ADelivered(i, ok) => if i < |s.hands| then Delivered(s, i, ok) else s
    case AEnd(i, ok) => if i < |s.hands| then EndNext(s, i, ok) else s
    case AAge(ok) => AgeNext(s, ORDINARY, ok)
    case ADigestSent => DigestSent(s, ORDINARY)
  }

  // An action that cannot happen in s leaves it as it is.
  function Step(s: State, a: Action): (s': State)
    requires Shaped(s)
    ensures Shaped(s')
  {
    if IsEntry(a) then EntryStep(s, a)
    else if IsTick(a) then TickStep(s, a)
    else if IsShutdown(a) then ShutdownStep(s, a)
    else if IsTaking(a) then TakingStep(s, a)
    else SendingStep(s, a)
  }

  function Run(s: State, actions: seq<Action>): (s': State)
    requires Shaped(s)
    ensures Shaped(s')
  {
    if actions == [] then s else Step(Run(s, actions[..|actions| - 1]), actions[|actions| - 1])
  }
}
