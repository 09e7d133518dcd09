# Verification of the attention, session and approval protocols

A Dafny model of six protocol-like parts of the assistant, and proofs of what their comments promise. Each part comes
as a state machine written as functions (the `...Spec` files, `ProposalTable`, `Rules`, `History`), as the classes and
loops that update its state in place, each method proved to be one step of that machine, and as theorems about every
run: any interleaving of any number of callers, workers, timers, crashes and cancellations.

- **The outbox** (`OutboxSpec`, `Outbox`, `OutboxConservation`, `OutboxBounds`, `OutboxTries`, `OutboxGroups`,
  `OutboxTheorems`, `OutboxWork`, `OutboxEmptying`, `OutboxAnswers`, `OutboxAlarms`, `OutboxDigest`, `OutboxTicks`,
  `OutboxPassing`, `OutboxLanes`, `OutboxFindings`, `OutboxFairRun`): decisions flow through a group buffer, two lanes,
  a retry list and a deferral backlog. Nothing is lost, told twice, left without an outcome or stuck; queues and tries
  are bounded, a failed message is retried exactly when it should be; and when the groups formed are the messages the
  budget counts.
- **The governor** (`Rules`, `Windows`, `GovernorSpec`, `Governor`, `GovernorRuns`, `GovernorDedup`, `GovernorReports`,
  `Budget`, `BudgetFindings`, `CountedGroups`): the rule table, dedup against what is in flight and what was told, the greedy
  count of messages and its optimality, the daily budget, the digest queue.
- **Approvals** (`ProposalTable`, `ApprovalSpec`, `Approvals`, `ApprovalInv`, `ApprovalSafety`, `ApprovalFlows`,
  `ApprovalRecovery`): no order without the owner's approval of exactly that order, what a workflow does, convergence after
  a crash, rolling bounds per class.
- **Sessions and turns** (`SessionLocksSpec`, `SessionLocks`, `SessionLocksInv`, `SessionLocksSafety`,
  `SessionLocksProgress`, `TurnTreeSpec`, `TurnRegistry`, `TurnTree`, `TurnAborts`, `TurnSteps`, `TurnHistory`,
  `TurnOutcomes`): the cancellable re-entrant lock, the turn registry, the cascading abort, the rollback.
- **History** (`History`, `Sanitizer`, `SanitizerLoops`, `SanitizerCalls`, `SanitizerTexts`, `Compaction`): the two-pass
  sanitiser against the providers' tool-call grammar, and the cuts of compaction.
- **The bus** (`BusSpec`, `Bus`, `BusProgress`): closing while publishers are inside.

Times are whole milliseconds and the clock does not go back. A row, turn, entry, link or message is known by its place
in the table it was put into. A database transaction, a section under a lock and a conditional UPDATE are one step each;
what an external party answers (the deliverer, a sink, the broker, a recheck, the profile, the mutes) is a parameter of
the step, and so ranges over everything it could answer.

## What does not hold

Three promises are broken by runs the code can make. Each has such a run, and the condition under which it is kept.

- **The lanes' limits: "no ordinary try past maxQueueAge", and the length of the ordinary lane** (`OutboxFindings`,
  `OutboxFairRun`). The protective lane takes at most 64 decisions of its pending group. What is left can be without the
  protective decision that brought it there; the lane then sends ordinary decisions of any age
  (`OldOrdinaryMessageIsSent`), and a failed one comes back to the ordinary lane past its slot check. So the lane passes
  its limit of slots + 64 + 1, for any number of slots, on a run in which no worker idles while time passes
  (`OrdinaryLanePassesItsLimit`): the ordinary worker sends one message for up to 100 s, and meanwhile waves of 64
  messages fail on the protective lane and come back, one wave every 30 s; after 60 s the lane is slots + 128 long, after
  90 s slots + 192. Every delivery of these runs stays inside its timeouts. Without fairness there is no limit at all
  (`OrdinaryLaneHasNoLimit`): that run is one of any interleavings, with an ordinary worker that is woken and need not
  run; a worker that does run gives up what is older than six minutes. Both promises hold as long as every group
  the protective lane takes has a protective decision (`LanesSendFresh`, `LaneLimitHolds`); the condition fails exactly
  where it takes one without (`BareIffTaken`), never while the pending group has at most 64 (`SmallGroupsAreNotBare`);
  and from there the promises can be broken: the group can be sent too late if and only if a decision in it has a time
  (`StaleIffBare`), and its first failure makes a retry beside the slots if and only if the outbox is open, has room and
  is in time for one (`StraysIffBare`).
- **The daily budget** (`BudgetFindings`). sendsToday counts no Critical, but the outbox's window opens with whatever
  comes first. A Critical opens a group that takes one Warning along and leaves out the next, which was let out
  because it would join the first: two messages where one is the limit. A group taken early does the same
  (`AnEarlyGroupRaises`). A delivery raises the count if and only if it is new to the day, brings something counted,
  and what stays pending still needs as many messages (`DeliveryCost`); the count passes its limit only by such
  deliveries (`TheBudgetHolds`). The outbox's groups, without what is not counted, are the messages the budget counts
  if and only if their first counted decisions are a window apart, as they are when no group opens with an uncounted
  one and none is taken early (`CountedAsBudgeted`).
- **A cancel finds the child of a parent that has finished** (what subTurns is for, subturn.go:354-356). It can still
  miss one (`ACancelMissesAListedChild`): addChild comes first and addSubTurn after it, and while an
  asynchronous child stands between the two its root can return and unregister. If no other sub-turn of that root is
  listed loop-wide, a cancel then finds neither, and the child runs on. The two lists of a cancel miss the root of a
  turn if and only if the root is unregistered and has no sub-turn in subTurns (`TargetsHold`); and a cancel reaches a
  turn, in whichever phase, if and only if they do not and the turn hangs under its root (`CancelReachesExactly`).

Four more do not follow from the functions alone; what the rest of the code does around them keeps them. Each has an
input and the exact condition.

- **A cancel reaches every sub-turn** (`ACancelCanMiss`). A sub-turn whose parent, itself a sub-turn, has returned hangs
  under nothing. spawnSubTurn allows that; runTurn does not, as it gives a sub-turn no tools to spawn with
  (subturn.go:562-567). A cancel reaches a running sub-turn if and only if it is linked to its root by the lists of
  children (`CancelReachesTheLinked`); with one level of sub-turns that is every one that is listed loop-wide
  (`CancelReachesAll`).
- **A digest item is undelivered exactly while it is queued** (`AWaitingItemIsReported`). MarkDelivered of a waiting digest
  item leaves its queue row unflushed; any other report keeps the two together (`MarkingAndTheQueue`). The outbox reports
  digests through CompleteDigest.
- **The SQL class clauses agree with classOf** (`CountedTwice`, `ClassesAgree`). A memory or reflection proposal of origin
  mandate would be counted under two clauses. Nothing proposes one.
- **Compaction cuts at a turn** (`NobodySpeaks`, `CompressionWithoutUsers`). In a history in which no user speaks the cut
  falls in the middle; the part kept is well-formed if and only if it does not start with an assistant text. Such a
  history consists of messages of other roles and assistant texts, which sessions do not hold.

Two comments are stricter than the code they stand on. inFlight counts decisions made after the start of the lease,
sendsToday also those made at it; the model follows each. A protective worker looks for a due retry before it takes its
group, but under two holds of the lock, so a retry can come in between; the model lets it.

## Model

| member | source | states |
|---|---|---|
| OutboxTheorems.ExactlyOnePlace | pkg/attention/handoff.go:296-468 | in every interleaving of accepts, submits, ticks, lane steps, retries and shutdown, a decision accepted once is in exactly one queue or running step, or has left (told, deferred, released, abandoned, failed to defer) exactly once |
| OutboxTheorems.ExactlyOneOutcome | pkg/attention/retry.go:114-222 | in every run a message is either still live in one place or has had exactly one Outcome |
| OutboxTheorems.ProtectiveNeverInDigest | pkg/attention/retry.go:187-206 | no run settles a protective decision into the digest |
| OutboxTheorems.QueuesAreBounded | pkg/attention/handoff.go:322-411 | in every run the buffer, the backlog, the waiting retries of either kind and the ordinary lane stay inside their limits (the lane by the retries other lanes scheduled for it more), and the keys of the protective group are pairwise distinct |
| OutboxTheorems.OrdinaryTriesEndInsideTheLease | pkg/attention/handoff.go:661-692 | a try that the ordinary lane begins, with composing, delivering and booking at their slowest, ends at least 50 s before the lease of any decision in it |
| OutboxLanes.LanesSendFresh | pkg/attention/handoff.go:661-717 | in every run, with Submit and through the shutdown: while every group the protective lane took had a protective decision, no lane began an ordinary message past maxQueueAge |
| OutboxLanes.LaneLimitHolds | pkg/attention/retry.go:244-262 | on the Accept path, under the same condition, the ordinary lane is at most slots + 64 + 1 long (one more for the shutdown) |
| OutboxLanes.SmallGroupsAreNotBare | pkg/attention/handoff.go:608-623 | a pending group of at most 64 always has a protective decision |
| OutboxLanes.BareIffTaken | pkg/attention/handoff.go:608-623 | in any run the condition fails exactly where the protective lane takes a group without a protective decision |
| OutboxLanes.StaleIffBare | pkg/attention/handoff.go:696-717 | from any state the protective lane can go on to send its next group too late if and only if the group has no protective decision and one with a time |
| OutboxLanes.StraysIffBare | pkg/attention/retry.go:141-185 | from any state the first failure of the next group makes a retry for the ordinary lane if and only if the group has no protective decision and the outbox is open, has room and is in time for one |
| OutboxFindings.OldOrdinaryMessageIsSent | pkg/attention/handoff.go:608-623 | without that condition the first fails: a run of accepts, sends and ticks, every delivery of which comes back within its timeouts, in which the protective lane begins an ordinary message past maxQueueAge |
| OutboxFairRun.OrdinaryLanePassesItsLimit | pkg/attention/retry.go:244-262 | and so does the second: for any number of slots and up to three waves, a run on the Accept path, with every delivery in time and no worker idle while time passes, in which the ordinary lane grows to slots + 64 a wave while its worker sends one message; two waves pass slots + 64 + 1 |
| OutboxFindings.OrdinaryLaneHasNoLimit | pkg/attention/retry.go:244-262 | over any interleaving, with an ordinary worker that need not run, there is no limit at all: for every n a run on the Accept path, with every delivery in time, after which the ordinary lane holds n retries, whatever the number of slots |
| OutboxConservation.RunConserves | pkg/attention/handoff.go:296-468 | the accepted decisions and the numbered messages, counted with multiplicity, are at every point of every run what the queues, the running steps and the settled records hold |
| OutboxBounds.RunSound | pkg/attention/handoff.go:322-411 | the routing of protective decisions and all the size limits hold at every point of every run |
| OutboxTheorems.TriesAreBounded | pkg/attention/retry.go:40-59 | an ordinary message is tried at most 4 times, one with a protective decision at most 15 |
| OutboxTries.HeldIsNowhereElse | pkg/attention/retry.go:211-222 | a message that a running step holds is in no queue, in no other step, and has had no outcome |
| OutboxTheorems.FinishedForGood | pkg/attention/outbox.go:459-478 | after its outcome, taken or given up, a message is never tried again and its outcome stays |
| OutboxEmptying.TheOutboxEmpties | pkg/attention/handoff.go:412-717 | from every state that can be reached the tick and the workers can empty the outbox, whatever each delivery and each call of the database answers; then every decision accepted once has left once, and every message has had its one outcome |
| OutboxEmptying.TheShutdownEmpties | pkg/attention/handoff.go:539-588 | a stop takes the buffer; from then on the outbox can be emptied, under any answers, while the clock stands still |
| OutboxEmptying.EveryScheduleEnds | pkg/attention/handoff.go:412-717 | however the steps are chosen and answered, while nothing is taken in only so many of them, fixed at the start, change anything |
| OutboxWork.EveryStepIsNearer | pkg/attention/retry.go:114-206 | every step of the tick, a worker or the drain that changes anything, under any answer, leaves less to do |
| OutboxEmptying.ThereIsAStep | pkg/attention/outbox.go:268-293 | while anything is inside there is a step that changes something, after a wait if it is open, without one if it is closed |
| OutboxAnswers.ProtectiveFailure | pkg/attention/retry.go:141-185 | a failed message with a protective decision, failure by failure in literal times: it waits 30, 90, 150 s or 5 min for its next try, with the start of its window, if and only if the outbox is open, fewer than 16 such wait and the try is within an hour of the start; otherwise it is given up |
| OutboxAnswers.OrdinaryFailure | pkg/attention/retry.go:141-185 | any other failed message waits if and only if it is one of its first three failures, the outbox is open, fewer than 64 such wait and no decision in it will be past six minutes |
| OutboxAlarms.TriedFifteenTimes | pkg/attention/retry.go:40-59 | the upper bound is reached: a protective message that keeps failing, with the lane free, is tried fifteen times over 59.5 minutes and then given up |
| OutboxPassing.ARetryIsBegun | pkg/attention/retry.go:211-222 | a retry is begun with its failures and its window, or given up if nothing in it is protective and a decision is past six minutes |
| OutboxPassing.DueRetriesReachTheirLanes | pkg/attention/retry.go:244-262 | exactly the due retries leave the list, each for the end of the lane of its kind, and all keep their order |
| OutboxAnswers.TakenIsTold | pkg/attention/outbox.go:459-463 | when the deliverer takes a message all its decisions are told, in order, and its outcome says delivered |
| OutboxAnswers.GivingUpSettlesAll | pkg/attention/retry.go:191-206 | giving up with a database that answers: each protective decision is released and each other reaches the digest, in order, and the outcome says not delivered |
| OutboxAnswers.GivingUpPostpones | pkg/attention/retry.go:191-206 | with one that does not, the decision waits in the backlog for the same end, or is abandoned at 1024 |
| OutboxAnswers.OldGroupsAge | pkg/attention/handoff.go:661-692 | the ordinary worker begins a group if and only if no decision in it is past six minutes |
| OutboxAnswers.AgedGoesToDigest | pkg/attention/handoff.go:683-688 | each decision of a group that is too old goes to the digest, if the database answers |
| OutboxAnswers.DeferralsAreTriedThrice | pkg/attention/handoff.go:412-447 | what is deferred is settled as it was meant, or tried again on later ticks, three times in all |
| OutboxTicks.ARoundEmptiesTheBacklog | pkg/attention/handoff.go:412-447 | while the database answers, one round settles the whole backlog, in order |
| OutboxPassing.WhatFitsIsPutBack | pkg/attention/handoff.go:437-447 | what a round did not settle goes back behind what came meanwhile, as far as 1024 leave room |
| OutboxTicks.NothingOverstays | pkg/attention/outbox.go:282-293 | in every run the buffer is the last of what was accepted, and the tick takes it whole exactly when its first decision was accepted a window ago |
| OutboxTicks.ASubmitterSendsItself | pkg/attention/outbox.go:218-259 | which groups a caller of Submit takes to send, in which order, and what stays in the buffer |
| OutboxTicks.EachIsAnswered | pkg/attention/handoff.go:296-345 | each decision accepted with others gets the answer it should; exactly those told so are taken in, in order |
| OutboxPassing.AGroupIsHandedOver | pkg/attention/handoff.go:357-411 | a taken group passes whole: its alarms to the pending ones, the rest as one job at the end of the lane, or to the backlog if the lane is full |
| OutboxPassing.AnOrdinaryDecisionIsBuffered | pkg/attention/handoff.go:322-345 | an ordinary decision joins the buffer, behind the group whose window is over or that is full |
| OutboxPassing.TheLastGroupIsQueued | pkg/attention/handoff.go:541-556 | a stop passes the last group on, however full the lane is |
| OutboxPassing.TheFirstIsTaken | pkg/attention/handoff.go:591-623 | each worker takes what is first in its lane: a job, a retry, or the first 64 alarms |
| OutboxPassing.NothingOvertakes | pkg/attention/handoff.go:357-377 | but for the takers and the drain, every action only adds to the ends of the two lanes |
| OutboxAlarms.AlarmsAreEscorted | pkg/attention/handoff.go:335-345 | a protective Critical is pending at once, with everything that was buffered, and what it supersedes is left to be released |
| OutboxAlarms.TheNewerStays | pkg/attention/handoff.go:382-397 | of the pending alarms of one situation the newest stays, in the place of the first, and each older one is superseded once |
| OutboxDigest.OneDigestAtATime | pkg/attention/outbox.go:495-518 | in every run the digests queued, held or being sent are one if the outbox is busy with one and none otherwise |
| OutboxDigest.DigestIsQueued | pkg/attention/handoff.go:473-490 | in every run an idle runner queues a digest if and only if none is inside and there is a free slot |
| OutboxGroups.OutboxFormsWhatWasCounted | pkg/attention/store.go:357-365 | in a run in which no group is taken early, the groups the outbox forms are the accepted decisions in order, cut group by group where pendingMessages would cut their arrival times |
| OutboxGroups.CountedAsBudgeted | pkg/attention/store.go:309-351 | in such a run the groups without the decisions sendsToday leaves out are the messages it counts if and only if the first counted ones of neighbouring groups are a window apart; so they are when none opens with one left out; and they are never fewer |
| CountedGroups.CountedCut | pkg/attention/store.go:353-365 | of any things in order, some counted: the groups with something counted in them are the cut of what is counted if and only if their first counted ones are a window apart |
| OutboxGroups.EarlyOnlyWhen | pkg/attention/handoff.go:322-345 | a group is taken before its window is over only by a protective Critical, a full buffer or the shutdown |
| Outbox.Outbox.AcceptAll | pkg/attention/handoff.go:296-318 | the new state is the accept action of the state machine; the results are one per decision, in order |
| Outbox.Outbox.AcceptLocked | pkg/attention/handoff.go:322-345 | the expired group goes to the lanes, the decision is buffered, a protective Critical takes the buffer along |
| Outbox.Outbox.PushOrdinaryLocked | pkg/attention/handoff.go:357-377 | protective members are routed to their lane, the rest takes a slot or is deferred |
| Outbox.Outbox.AddProtectiveLocked | pkg/attention/handoff.go:382-397 | a pending decision of the same key is replaced where it stands and released; otherwise the group grows |
| Outbox.Outbox.DeferLocked | pkg/attention/handoff.go:402-411 | what fits joins the backlog, the rest is abandoned, in order |
| Outbox.Outbox.PutBack | pkg/attention/handoff.go:437-447 | what failed to settle returns to the backlog as far as it fits |
| Outbox.Outbox.TakeProtective | pkg/attention/handoff.go:608-623 | the first 64 of the pending group are taken and the rest stays |
| Outbox.Outbox.HandOverDigest | pkg/attention/handoff.go:473-490 | a digest is queued only when none is being sent and the lane has a slot |
| Outbox.Outbox.Submit | pkg/attention/outbox.go:218-259 | the groups Submit takes, and the order in which its caller sends them |
| Outbox.Outbox.TakeDue | pkg/attention/outbox.go:279-288 | the buffer is taken exactly when its window is over |
| Outbox.Outbox.HandOverDueRetries | pkg/attention/retry.go:244-262 | every due retry goes to its lane and the others keep waiting, in order |
| Outbox.Outbox.ScheduleRetry | pkg/attention/retry.go:141-185 | the failed message is queued for its next try exactly when tries, window, lease and room allow it; otherwise its lane gives it up |
| Outbox.Outbox.DrainRetries | pkg/attention/retry.go:285-301 | all retries leave the waiting list and both lanes, nothing else does |
| Outbox.Outbox.CloseLocked | pkg/attention/handoff.go:539-557 | the last buffered group reaches the lanes past the slot limit |
| Outbox.AnyTooLate | pkg/attention/handoff.go:722-730 | true exactly when some decision with a time has waited past maxQueueAge |
| Outbox.RetryWindowStart | pkg/attention/retry.go:90-98 | the least time among now and the protective decisions that have one |
| Windows.PendingMessages | pkg/attention/store.go:357-365 | the greedy count is the number of openings and no set of windows that covers the times is smaller |
| Windows.NoCoverIsSmaller | pkg/attention/store.go:353-365 | no set of windows of the group length that covers the pending times has fewer members than the greedy count |
| Windows.OpeningsCover | pkg/attention/store.go:353-365 | the openings of the greedy count are themselves such a cover, of exactly that size |
| Windows.FewerDecisionsNeverRaise | pkg/attention/store.go:295-308 | releasing decisions, or letting their lease lapse, never raises the count |
| Windows.AppendCost | pkg/attention/store.go:346-350 | one more decision costs one message, or none exactly when joinsPending holds |
| Windows.AsManyNeeded | pkg/attention/store.go:295-308 | fewer times need as many messages if and only if as many of them lie a window apart as there were openings |
| Windows.FirstGroupSent | pkg/attention/store.go:295-308 | when the whole first group has gone out the rest needs exactly one message less |
| Budget.DecideKeepsTheBudget | pkg/attention/governor.go:276-343 | a decision that lets out a sub-Critical message leaves the count of the day as it was, if it joins the open message, or at most at its limit (budget, plus one for a Warning); any other leaves it alone |
| Budget.DeliveryCost | pkg/attention/store.go:309-351 | whatever is delivered under whichever intervention, the count of the day grows, by one, if and only if the message is new to the day, brings something counted and what stays pending still needs as many messages |
| Budget.WholeMessageKeepsTheCount | pkg/attention/store.go:309-351 | a delivery that takes along all that is pending in one window does not raise the count, whatever else it carries: Criticals, or decisions whose lease has passed |
| Budget.FewerPendingCost | pkg/attention/store.go:295-351 | with fewer decisions in flight there are no more messages to come, with or without grouping |
| Budget.TheBudgetHolds | pkg/attention/governor.go:276-343 | over every day of decisions, deliveries of anything in any grouping, releases, deferrals and passing time the count is at most max(count before, budget + 1) and the deliveries that raised it |
| Budget.WholeMessagesKeepTheBudget | pkg/attention/governor.go:276-343 | none raises it on a day on which each delivery brings nothing counted or takes a whole pending message along |
| BudgetFindings.ACriticalOpensTheGroup | pkg/attention/store.go:309-351 | a day on which one does: a Critical, two Warnings and one delivery, with two messages where one is the limit |
| BudgetFindings.AnEarlyGroupRaises | pkg/attention/handoff.go:335-340 | so does a group that a protective Critical takes to its lane while its window is open |
| BudgetFindings.TheOutboxFormsThatGroup | pkg/attention/handoff.go:322-345 | and the outbox forms just that group, when its window is over |
| GovernorRuns.DedupHolds | pkg/attention/governor.go:346-372 | in every run, of two decisions of one key in flight within the lease the later is strictly more severe or a protective Critical |
| GovernorRuns.SendsAreDeliveries | pkg/attention/governor.go:486-528 | in every run the sends recorded for a key are the number of its delivered decisions |
| GovernorDedup.NothingIsToldAgain | pkg/attention/governor.go:346-385 | over every run, on rows: what a live decision lets out, a protective Critical included, has no last report of its situation, as severe, inside the window, the window being a case split on the configuration; and a live candidate with one is dropped |
| GovernorDedup.SentIsTheLastReport | pkg/attention/governor.go:486-528 | in every run the state of a key is the severity and the time of its last report, and there is none without a report |
| GovernorDedup.DecidesByTheFirstCause | pkg/attention/rules.go:296-376 | in every run a live decision gets the verdict and the reason of the first cause that holds, said of rows and the environment, and is logged, and queued if it goes to the digest |
| GovernorDedup.ShadowsAreLogged | pkg/attention/governor.go:319-343 | off leaves no trace, and the shadow logs a situation once an hour |
| GovernorReports.AFailureUndoesTheDecision | pkg/attention/governor.go:453-472 | a decision that went out and is reported failed leaves no trace for the rules: any candidate is then judged as before |
| GovernorReports.ADigestIsMadeIff | pkg/attention/digest.go:74-128 | a digest is made if and only if it is live, switched on, of a later day, ten minutes after the last try, and something waits; it has exactly what waits |
| GovernorReports.ADigestTellsAllThatWaits | pkg/attention/digest.go:135-166 | a digest delivered at once tells everything that waited in one message and changes no other row; one that is not leaves everything waiting |
| GovernorReports.AllOfItOrNothing | pkg/attention/digest.go:149-166 | an item that cannot be delivered undoes the report of the whole digest |
| GovernorRuns.MarkingTwiceIsOnce | pkg/attention/governor.go:425-429 | a second report of delivery changes nothing, whatever it names |
| GovernorRuns.UndeliveredIffQueued | pkg/attention/digest.go:135-166 | while digests are reported through CompleteDigest, a digest decision is undelivered if and only if it has an unflushed queue row |
| GovernorRuns.MarkingAndTheQueue | pkg/attention/governor.go:486-528 | a report of delivery keeps that consistency if and only if it is not about a digest item that still waits |
| GovernorRuns.AWaitingItemIsReported | pkg/attention/governor.go:486-528 | such an item, and the report that breaks it |
| GovernorRuns.ProtectiveIsNeverADigestItem | pkg/attention/rules.go:296-330 | in every run no protective Critical is a digest item, by its decision or by deferral |
| GovernorRuns.DeferringTwiceIsOnce | pkg/attention/digest.go:169-229 | deferring is idempotent, refuses exactly the protective, leaves delivered and released decisions alone, and queues the others |
| GovernorRuns.NothingIsToldTwice | pkg/attention/outbox.go:495-555 | with at most one digest being sent, the days of the digests told strictly increase and no decision is in two of them |
| Governor.Governor.DecideCandidate | pkg/attention/governor.go:276-343 | facts, rule table, shadow coalescing, decision row and queue row, in one transaction |
| Governor.Governor.GatherFacts | pkg/attention/governor.go:346-385 | delivered state, in-flight and queued decisions, the count of the day and the inhibitor, as the rules see them |
| Governor.Governor.SendsToday | pkg/attention/store.go:309-351 | distinct messages delivered in the day plus the messages the pending decisions will become, and whether one more joins |
| Governor.Governor.FindInFlight | pkg/attention/store.go:267-274 | true exactly when an unreported decision of the key, at this severity or above, is inside the lease |
| Governor.Governor.FindQueued | pkg/attention/store.go:278-284 | true exactly when an undelivered digest item of the key, at this severity or above, is inside the window |
| Governor.Governor.MarkDeliveredTx | pkg/attention/governor.go:486-528 | the row, the state of its key and its sends, and nothing for a row already delivered |
| Governor.Governor.ReportFailed | pkg/attention/governor.go:453-472 | the reservation of an undelivered message is released; any other row stays |
| Governor.Governor.Defer | pkg/attention/digest.go:180-229 | the in-flight message becomes a queued digest item |
| Governor.Governor.QueuedItems | pkg/attention/digest.go:274-314 | exactly the unflushed, undelivered digest decisions, each once |
| Governor.Governor.AskForDigest | pkg/attention/digest.go:74-128 | a digest is made only for a later day, not within digestRetry, and not of nothing |
| Governor.Governor.ReportDigest | pkg/attention/digest.go:135-166 | every item is delivered and flushed and the day is done, or nothing changes; an item that cannot be delivered rolls everything back |
| Sanitizer.SanitizedIsWellFormed | pkg/agent/context.go:551-729 | for every history the result satisfies the tool-call grammar |
| Sanitizer.FixedPointsAreWellFormed | pkg/agent/context.go:551-729 | a history is left unchanged if and only if it satisfies the grammar |
| Sanitizer.SanitizeIsIdempotent | pkg/agent/context.go:551-729 | sanitising twice is sanitising once |
| Sanitizer.WhatIsSaidSurvives | pkg/agent/context.go:695-726 | up to joining neighbouring assistant texts, everything said survives, in order and with its text; only the opening is added |
| Sanitizer.UsersSurvive | pkg/agent/context.go:551-729 | every user message survives, in order; the placeholder is added exactly when the first thing said is the assistant's |
| SanitizerCalls.AnsweredCallsSurvive | pkg/agent/context.go:623-690 | of the calls the first pass places exactly those survive, in order and unchanged, all of whose ids are named and answered in the run of results behind them, and behind each stand exactly the first results for its ids, in the order of the run |
| SanitizerCalls.FirstPassPlaces | pkg/agent/context.go:556-611 | which messages the first pass places, by what stands before them |
| SanitizerTexts.NeighboursBecomeOne | pkg/agent/context.go:727-753 | the assistant's texts in a row become one message whose content and reasoning are the non-empty ones of theirs, in order, with blank lines between |
| Sanitizer.OpeningIsForAssistants | pkg/agent/context.go:717-726 | when the placeholder is put in front |
| Sanitizer.WellFormedStartSurvives | pkg/agent/context.go:551-729 | a conversation that is well-formed up to a user message is kept verbatim up to there, whatever follows |
| SanitizerLoops.SanitizeHistory | pkg/agent/context.go:551-729 | the loops compute the two passes; the result is well-formed, equal to a well-formed input, and keeps the users |
| SanitizerLoops.FirstPass | pkg/agent/context.go:556-611 | calls and results end up only where they may stand |
| SanitizerLoops.SecondPass | pkg/agent/context.go:623-715 | the pass with its jumps and its edits of the last message |
| SanitizerLoops.FindsCall | pkg/agent/context.go:572-583 | whether the last message that is not a tool result calls tools |
| SanitizerLoops.CollectBlock | pkg/agent/context.go:638-665 | the run of results, the first answer to each expected id, and the ids answered |
| History.CutAtUser | pkg/agent/context_budget.go:18-30 | both parts of a well-formed conversation cut where a user speaks are well-formed |
| Compaction.ParseTurnBoundaries | pkg/agent/context_budget.go:22-30 | exactly the places where a user speaks, ascending |
| Compaction.FindSafeBoundary | pkg/agent/context_budget.go:46-87 | the last turn at or before the target unless that is the first message, else the first turn after it, else the target if nobody speaks, else 0 |
| Compaction.ForceCompress | pkg/agent/context_legacy.go:121-158 | what the emergency compression keeps |
| Compaction.CompressionShrinks | pkg/agent/context_legacy.go:121-158 | of more than two messages it keeps a non-empty, strictly shorter part, which starts where a user speaks if one does |
| Compaction.CompressionKeepsGrammar | pkg/agent/context_legacy.go:121-158 | what is kept of a well-formed history in which a user speaks is well-formed |
| Compaction.CompressionWithoutUsers | pkg/agent/context_legacy.go:135-158 | in which nobody speaks, what is kept is well-formed if and only if it does not start with an assistant text |
| Compaction.NobodySpeaks | pkg/agent/context_legacy.go:135-158 | such a history, of which the part kept is not well-formed |
| Compaction.CompressingEnds | pkg/agent/context_legacy.go:121-158 | repeating the compression ends: after k times at least k messages are gone and something is left |
| Compaction.SummaryCut | pkg/agent/context_legacy.go:185-206 | the summary's cut keeps both parts well-formed |
| SessionLocksSafety.MutualExclusion | pkg/agent/sessionlock.go:106-162 | in every run at most one call has the lock of a key |
| SessionLocksSafety.EntriesAreCounted | pkg/agent/sessionlock.go:50-57 | in every run refs is the number of calls that refer to the entry, and the map has the entry if and only if it is positive |
| SessionLocksSafety.OneEntryPerKey | pkg/agent/sessionlock.go:114-124 | two entries of one key are never both in use |
| SessionLocksSafety.CancelledNeverHolds | pkg/agent/sessionlock.go:126-137 | a call cancelled before it has the lock never returns with it, from any reachable state, in any continuation |
| SessionLocksSafety.ReentrantOnlyUnderAHolder | pkg/agent/sessionlock.go:76-83 | a call passes without the lock if and only if a call that made a link on its context chain holds the key at that moment |
| SessionLocksSafety.EmptyAtQuiescence | pkg/agent/sessionlock.go:152-162 | when no call holds or waits the map is empty |
| SessionLocksSafety.NobodyWaitsForNobody | pkg/agent/sessionlock.go:126-131 | a waiting call can go on, or some call has the lock and has returned with it or can go on |
| SessionLocksProgress.EverybodyGetsThrough | pkg/agent/sessionlock.go:106-162 | from every state that can be reached all calls can be brought to their end in at most seven steps each, and the map is then empty |
| SessionLocksProgress.EachStepGetsOn | pkg/agent/sessionlock.go:106-162 | each step takes its own call nearer to its end and moves no other |
| SessionLocksProgress.OnlyTheCancelledFail | pkg/agent/sessionlock.go:126-147 | in every run only a cancelled call returns an error |
| SessionLocksProgress.TheCancelledNeedNobody | pkg/agent/sessionlock.go:107-130 | a cancelled waiter gets out by its own two steps; who is cancelled before it looks is refused at once |
| SessionLocks.SessionLocks.HoldsSessionLock | pkg/agent/sessionlock.go:76-83 | the walk along the chain finds an unreleased link of the key exactly when there is one |
| SessionLocks.SessionLocks.Enter | pkg/agent/sessionlock.go:114-124 | the entry of the key is found or made, and counted |
| SessionLocks.SessionLocks.Check | pkg/agent/sessionlock.go:134-147 | a cancelled caller does not get the lock, any other gets it with a link of its own |
| SessionLocks.SessionLocks.TakeBack | pkg/agent/sessionlock.go:152-155 | there is always a token to take back |
| SessionLocks.SessionLocks.Leave | pkg/agent/sessionlock.go:156-161 | one reference less, and only the caller's own entry can go |
| SessionLocks.SessionLocks.Size | pkg/agent/sessionlock.go:165-169 | zero when nobody holds or waits |
| TurnAborts.IndexesHaveTheSameTurns | pkg/agent/turn_state.go:223-258 | in every run a turn is found by its id if and only if it is found, once, by its session |
| TurnAborts.NothingEscapesAnAbort | pkg/agent/turn_state.go:380-392 | in every run, when no abort is in progress, everything that hangs under a hard-aborted turn is hard-aborted and takes no child |
| TurnAborts.AbortReachesTheLinked | pkg/agent/turn_state.go:529-574 | an abort hard-aborts a turn if and only if it was, or hangs under one of the abort's turns by the lists of children |
| TurnSteps.AnAbortEnds | pkg/agent/turn_state.go:529-574 | turn by turn an abort does what the recursion of Finish does, and ends |
| TurnSteps.TheWaitingGoFirst | pkg/agent/steering.go:272-284 | a cancel goes to the turns it found and to no other, and to those that wait for the session before any that has it |
| TurnSteps.ATurnKeepsItsId | pkg/agent/turn_state.go:223-235 | a turn keeps its id unless that is empty or taken, and is then in both indexes |
| TurnSteps.ATurnLeavesTheIndexes | pkg/agent/turn_state.go:239-258 | a turn leaves both indexes, and its session keeps the others in order |
| TurnAborts.CancelReachesTheLinked | pkg/agent/steering.go:272-311 | after a cancel a running sub-turn of the session is hard-aborted if and only if it hangs under its root by the lists (or was before) |
| TurnAborts.CancelReachesAll | pkg/agent/steering.go:264-284 | while sub-turns have none of their own, a cancel reaches every running one of the session |
| TurnAborts.TargetsHold | pkg/agent/turn_state.go:190-216 | the two lists of a cancel miss the root of a turn of the session if and only if the root is unregistered and none of its sub-turns is listed loop-wide |
| TurnAborts.CancelReachesExactly | pkg/agent/steering.go:272-311 | after a cancel a turn of the session, in whichever phase, is hard-aborted if and only if its root is registered or has a sub-turn listed loop-wide, and it hangs under that root (or it was before) |
| TurnAborts.ACancelMissesAListedChild | pkg/agent/subturn.go:351-358 | a run in which a cancel comes while a child is listed under its parent only and its root has returned: both lists are empty, and the child then runs, not hard-aborted, with no abort to come |
| TurnAborts.ACancelAmongOthers | pkg/agent/steering.go:264-284 | a cancel and then anything, other aborts, spawns and returns in any order: when its list is empty its targets are hard-aborted; when no abort is in progress so is everything listed under them, and nothing can be spawned there |
| TurnAborts.CancelBesideOthers | pkg/agent/steering.go:272-311 | with one level of sub-turns, and other aborts in progress, every running one of the session is hard-aborted or another abort is to come to it |
| TurnAborts.ACancelCanMiss | pkg/agent/subturn.go:354-362 | otherwise it need not: a run after which a cancel leaves a running sub-turn, whose parent has returned, alone |
| TurnRegistry.Registry.RegisterTurn | pkg/agent/turn_state.go:223-235 | the turn is in both indexes, under an id of its own |
| TurnRegistry.Registry.UnregisterTurn | pkg/agent/turn_state.go:239-258 | exactly this turn leaves both indexes |
| TurnRegistry.Registry.CancelTargets | pkg/agent/turn_state.go:190-216 | the registered turns, of the session in order or of all sessions, and each returned root with a running sub-turn once |
| TurnRegistry.Registry.AddChildOf | pkg/agent/turn_state.go:383-392 | refused exactly by a hard-aborted turn |
| TurnRegistry.Registry.RemoveChildOf | pkg/agent/turn_state.go:396-405 | the child leaves the list, the others keep their order |
| TurnRegistry.Registry.FinishFrom | pkg/agent/turn_state.go:529-574 | the recursion over the children is the whole abort |
| TurnRegistry.Registry.AbortTurns | pkg/agent/steering.go:272-284 | the turns that wait are aborted first, then all, then the orphaned |
| TurnRegistry.Registry.CancelTurns | pkg/agent/steering.go:299-327 | for one session or all, beside other aborts: how many turns are stopped; every registered one is hard-aborted and, with one level of sub-turns, every running sub-turn is or is about to be |
| TurnHistory.HardAbortRestores | pkg/agent/steering.go:227-262 | once HardAbort has asked, the history at the turn's exit is the one it found when it took the lock, however late its writes land |
| TurnHistory.AbortedTurnLeavesNothing | pkg/agent/turn_state.go:435-446 | the same of every run, for every turn that exited asked |
| TurnHistory.RollbackTakesOnlyItsOwn | pkg/agent/turn_state.go:456-473 | a rollback at any time takes messages of its own turn only, from the end, and none unless that turn owns the session |
| TurnHistory.ExitedTurnsKeepTheirMessages | pkg/agent/turn_state.go:456-473 | after a turn has exited nothing takes or adds a message of it |
| TurnOutcomes.AnUndisturbedTurnKeepsAll | pkg/agent/turn_state.go:435-446 | a turn nobody aborts leaves all it wrote, in order |
| TurnOutcomes.AnAskedTurnLeavesNothing | pkg/agent/steering.go:227-262 | a turn that is asked at any point between its writes leaves the history as it found it |
| TurnOutcomes.ARollbackRestores | pkg/agent/turn_state.go:466-492 | in any run a rollback of the turn that has the session gives back what it found |
| TurnHistory.Session.RollBack | pkg/agent/turn_state.go:466-473 | the rollback is the action of the state machine and removes a suffix of the turn's own messages |
| TurnHistory.Session.Exit | pkg/agent/turn_state.go:439-446 | an asked turn leaves the history of its lock |
| TurnHistory.Session.HardAbort | pkg/agent/steering.go:227-262 | every turn is asked; the history goes back to the owner's snapshot if the owner is among them and does not change otherwise |
| ProposalTable.ClassesAgree | pkg/approval/store.go:91-129 | the SQL clause a row matches is the class it is held to, and only that, if and only if it is not a mandate's memory or reflection; for everything that is proposed it is |
| ProposalTable.InsertKeepsBounds | pkg/approval/store.go:191-217 | an insert keeps the bounds of every class |
| ProposalTable.AgingKeepsBounds | pkg/approval/store.go:299-365 | deciding, expiring, executing, finishing, pruning and time keep them |
| ProposalTable.EveryWindowHolds | pkg/approval/store.go:104-114 | no interval of a class's window length ever holds more creations of it than allowed, pruned rows included |
| ProposalTable.ClassesAreIndependent | pkg/approval/store.go:80-88 | whether a proposal fits depends on the rows of its own class alone |
| ApprovalSafety.NoOrderWithoutApproval | pkg/approval/execute.go:193-226 | in every run with crashes, races, expiry, tampering and changes of owner, each call that places an order follows exactly one decision, an owner's approval before expiry and not longer ago than the proposal was open, and places the inserted parameters in the proposed and rechecked mode; an order proposed as reducing or by the assistant, or placed while killed, was rechecked as reducing, and only a reducing one was approved while killed |
| ApprovalSafety.ProposalsNeverChange | pkg/approval/store.go:60-66 | nothing that happens changes the hash, kind, mode, origin or times of a proposal, or undoes an approval |
| ApprovalSafety.BoundsHold | pkg/approval/store.go:191-217 | in every run the undecided proposals of a class are at most 3, 8, 5 or 5, and its creations in any hour, or any day, at most 10, 30, 10 or 10 |
| ApprovalSafety.RecheckedFlows | pkg/approval/execute.go:145-174 | in every run a workflow past its recheck holds the mode of the row, and a reducing answer if the row is reducing, was proposed by the assistant, or was rechecked while killed |
| ApprovalSafety.RecheckPasses | pkg/approval/execute.go:145-174 | a recheck passes if and only if the approval is still good and what is found is what was approved, said of the row |
| ApprovalSafety.PlaceCalls | pkg/approval/execute.go:193-226 | the place step calls the broker, once, if and only if there is a rechecked answer, the approval is still good and the kill switch does not forbid it |
| ApprovalSafety.DecisionsTakeEffect | pkg/approval/service.go:349-407 | what a decision does, refusal by refusal: the sender, the state, expiry, integrity, and the kill switch for what moves money |
| ApprovalFlows.AnApprovedOrderIsPlaced | pkg/approval/execute.go:49-108 | an approved order whose approval is good and whose recheck finds what was approved is placed once, with its own parameters and mode, and ends as executed |
| ApprovalFlows.AnInsertNeedsRoom | pkg/approval/store.go:191-217 | a proposal goes in if and only if fewer than 3, 8, 5 or 5 of its class are open and fewer than 10, 30, 10 or 10 were made in the last hour or day, counted by places in the table |
| ApprovalFlows.TheThrottlePasses | pkg/approval/execute.go:176-188 | the throttle passes if and only if the approval is still good and there is a token; a failure is retried or fails the workflow |
| ApprovalFlows.ThePlacingPasses | pkg/approval/execute.go:193-226 | the workflow goes on behind the broker if and only if the call was made and taken |
| ApprovalFlows.TheEndIsReached | pkg/approval/execute.go:228-320 | behind the broker nothing fails; the receipt finishes an executing order it can verify, a failed workflow its proposal |
| ApprovalFlows.ALostStepIsRepeated | pkg/approval/execute.go:49-108 | a step whose result is lost leaves the workflow where it was |
| ApprovalFlows.OldRowsGo | pkg/approval/store.go:355-365 | a row is pruned if and only if it was finished more than 180 days ago; settling finishes an executing order as its workflow ended |
| ApprovalSafety.SinksAreApproved | pkg/approval/mandate.go:250-277 | what a sink did was approved by the owner, and a proposal executed at a sink took effect there |
| ApprovalRecovery.OrdersConverge | pkg/approval/service.go:565-618 | from any crash point, one pass finishes an order whose workflow has ended: executed if it succeeded, failed otherwise |
| ApprovalRecovery.EndsAsTheWorkflowEnded | pkg/approval/execute.go:285-320 | over every run: a succeeded workflow ends as executed, one that ended before its receipt step as failed |
| ApprovalRecovery.SinksConverge | pkg/approval/mandate.go:250-277 | one pass finishes a mandate, memory or reflection if the sink answers one of the two calls the pass can make, whatever it does in the other; executed exactly if the sink did it, then or before, else failed |
| ApprovalRecovery.AnErrorLeavesTheRow | pkg/approval/service.go:587-616 | a sink that answers with errors leaves its row executing for the next pass, even if it took effect |
| ApprovalFlows.APageIsTheFirstFifty | pkg/approval/service.go:565-583 | a page is the first fifty rows of its status, in order |
| Approvals.Service.InsertProposal | pkg/approval/store.go:191-217 | a row goes in exactly when both counts leave room |
| Approvals.Service.DecideProposal | pkg/approval/service.go:349-407 | sender, expiry, nonce, integrity, kill switch, a missing sink, and at most one decision |
| Approvals.Service.ExpireDue | pkg/approval/service.go:474-488 | exactly the first due rows, a page of them, expire, and their number is returned |
| Approvals.Service.StepRecheck | pkg/approval/execute.go:145-174 | every condition under which an approved order is not executed |
| Approvals.Service.StepPlace | pkg/approval/execute.go:193-226 | the broker is called exactly when the approval is still good, with what the row says |
| Approvals.Service.ExecuteNext | pkg/approval/execute.go:49-108 | the next step of a workflow, with its result kept or lost |
| Approvals.Service.RecoverAll | pkg/approval/service.go:565-618 | both pages, approved first, each loop with the answers its own calls get |
| Approvals.Service.Prune | pkg/approval/store.go:355-365 | only rows finished before the retention; as many rows change as are counted, at most the limit, and all of them when fewer |
| BusSpec.NeverPanics | pkg/bus/bus.go:41-66 | in every run no send reaches a closed channel |
| BusSpec.DeliveredOnce | pkg/bus/bus.go:58-65 | in every run the message of a publish that returned nil is in its channel or was taken, once; no other message is |
| BusSpec.NothingIsLeftBehind | pkg/bus/bus.go:99-133 | messages leave in the order they were sent, and all have left when Close has returned |
| BusSpec.AskingOnlyDrains | pkg/bus/bus.go:105-108 | while Close waits nobody comes in and the publishers inside only get nearer to the end |
| BusSpec.EveryReaderHasAWayOut | pkg/bus/bus.go:50-65 | once done is closed each of them has a step that takes it nearer |
| BusSpec.CloseIsLetIn | pkg/bus/bus.go:99-108 | so Close never waits for ever: the publishers alone let it in within as many steps as they have left |
| BusProgress.CloseEnds | pkg/bus/bus.go:99-133 | from every state Close comes to its end, with nobody receiving and the publishers only leaving; then the three channels are closed and empty and all that was sent was taken |
| BusProgress.WhoIsLateSendsNothing | pkg/bus/bus.go:46-56 | who has not passed the first select when Close begins, or when it is cancelled, never sends |
| BusProgress.ResultsAreTrue | pkg/bus/bus.go:41-66 | in every run the context's error comes only to who was cancelled, the bus's only once Close has begun |
| BusProgress.AMessageGetsIn | pkg/bus/bus.go:41-66 | while the bus is open and fewer than 64 wait, a publish delivers its message at the end of its channel |
| BusProgress.TheSelectIs | pkg/bus/bus.go:58-65 | what each branch of the second select does, and when it is ready |
| BusProgress.TheCancelledGetOut | pkg/bus/bus.go:50-65 | a cancelled publisher leaves either select with its context's error |
| BusProgress.MessagesComeInTurn | pkg/bus/bus.go:99-133 | a consumer takes the oldest messages, in the order they were sent |
| Bus.MessageBus.Send | pkg/bus/bus.go:58-60 | a send that has room is into an open channel, at its end |
| Bus.MessageBus.FirstSelect | pkg/bus/bus.go:50-56 | the publisher goes on exactly when neither branch is ready |
| Bus.MessageBus.CloseAndDrain | pkg/bus/bus.go:107-125 | with consumers receiving meanwhile: all channels are closed and empty, everything sent was taken, and what was drained and what they received add up |

## Left out

- The text of messages, digests, cards and receipts, ranking, composing, and what a decision carries beside its key, severity and flags.
- Tick's inline form, which delivers on the caller's goroutine; Run hands everything to the lanes, and Submit's inline form is modelled.
- Panics and their recovery, logging, statistics, signals, wall-clock waits and the grace period of the shutdown: a step may come at any time or not at all.
- Mutes, inhibition rules, profiles, time zones and the digest's due day are inputs of a decision or of a digest; so are the draws and the posterior of learning.
- Two Decide calls whose clocks are read in one order and whose transactions run in the other; a transaction reads its own clock here.
- The same race of acceptAll (handoff.go:298), Submit (outbox.go:226) and tick (outbox.go:282), which read the clock before they take the outbox's lock; the locked step reads it here.
- Pruning of the decision log: nothing is taken out of it, as the counts of sends need. The proposals' pruning is modelled.
- A query without an ORDER BY gives its rows in the order of the table.
- SQLite's errors: a bookkeeping call of the outbox fails or works, a transaction of the governor or the approvals works.
- The outbox's window runs by the times of the accepts, the budget's by the times of the decisions; `OutboxGroups` and `CountedGroups` are about one list of times.
- The codes, nonces, cards, notices and summaries of a proposal, duplicate proposals, and where a decision came from beside who proved to have sent it.
- The journal's engine: a workflow's step is executed, and its result is kept or not; leases, cancellation and attempt limits are an early end at any point.
- Several Close calls, channel capacity changes, and consumers that stop reading; a consumer may receive at any time or never.
- The context tree beside the chain of lock links and one cancellation flag per call; derived contexts carry any link that exists.
- Results delivered to a parent turn, the concurrency semaphore, the steering queue, and what a turn does between its writes.
- A writer that passes re-entrantly under a turn's own session lock: `TurnHistory` lets others write only while no turn has the lock. What such a writer added after the turn's snapshot would go with a rollback.
- Mid-turn compaction: `TurnHistory` is about turns that only append, as the rollback's own comments assume.
- SystemParts of a message are an opaque text; the token estimates and the summariser's calls are not modelled.
- OutboxLanes.LaneLimitHolds: about the Accept path, as the comment on the lane is; a caller of Submit that delivers by itself makes retries for the ordinary lane beside its slots. `OutboxLanes.LanesSendFresh` has no such limit.
- Governor.Governor.GatherFacts: the mutes and the inhibitor are part of the environment it is given; the source reads them in the same transaction.
- ApprovalRecovery.OrdersConverge: stated for passes whose two pages hold all their rows; a row beyond the page of 50 waits for a later pass.
- TurnAborts.NothingEscapesAnAbort: about what hangs under the turn by the lists of children, which is what an abort walks.
