# Verified model of the event ledger and the services around it

A Dafny 4.11 model of the logic in this repository whose failure would lose,
duplicate or misplace work: the durable event ledger and the consumer that
drains it, the migration splitter, the mirrors of payment events, the credit
ledger, the Redis lock, scheduled jobs and the email outbox.
`dafny verify dfyconfig.toml` checks everything.

How it is laid out:

- `Tables`, `LedgerOps` - the event tables and each transaction of
  `src/lib/events.ts` as a pure function on them. `EventLedger` - the same
  file as an object whose methods update the tables, each proved to be that
  transaction. `Backoff` - retry delays.
- `LedgerWorld` - any number of consumers with crashes, late commits, a
  reaper, replays, sweeps and a database clock: one atomic step per
  transaction, over all runs. `LedgerInvariants` - what every step keeps.
  `RetryMachine` - the sequential machine each row is meant to be.
  `LedgerTheorems`, `LedgerAccounting`, `LedgerBackoff`, `LedgerFanout`,
  `LedgerHandBack` - the results about runs. `ReservationRace` - a reservation
  statement by statement. `LedgerFacts` - what the single
  transactions undo, exclude and leave alone.
- `ClaimRace` - one claim call against its timer; `ClaimCalls` places it in
  the shared ledger. `ConsumerLoop`, `WorkerPool` - the consumer's timers and
  its greedy pool. `ConsumerFleet` - any number of pods with their timers, ticks
  and claim calls, deaths and restarts on one ledger; `FleetTiming` - the same
  with pools and a clock.
- `SqlLexer` - what each character of a migration means, on its own terms.
  `SqlSplitter` - the splitter's loops against it. `SqlFilter` - its last step.
- `Entitlements`, `Purchases`, `Credits` - payment events and credits.
  `PurchaseRaces` - webhook handlers that overlap.
- `RedisLock`, `ScheduledJobs`, `EmailOutbox` - the lock, the jobs, the outbox.
  `OutboxPasses` - one outbox row and every pass that claimed it.
- `Keys`, `Text`, `Selection` - composite keys, trimming, and the queries that
  claim the first free rows.

State machines share one shape: `Can` says when a step is enabled, `Do` what
it does, `Legal` which step sequences are runs, `Run` where they lead. Theorems
quantify over every legal run.

What the proofs found where the code and its comments promise more:

- The claim token `(claimed_by, attempts)` identifies a claim for everybody who
  works on a row (`LedgerTheorems.FenceIsExact`), but for a hand-back only in runs
  in which no row is replayed while a hand-back of it is outstanding
  (`LedgerHandBack.EveryFenceIsExactInOrderlyRuns`). A replay resets `attempts`; under an
  outstanding hand-back the same consumer can count up to the old token, and
  the late hand-back then releases a claim that is not its own
  (`LedgerHandBack.ReplayUnderHandBackOpensForeignFence`). The condition is
  exact (`LedgerHandBack.ReplayIsSafeIffOrderly`).
- A reservation is several statements at read-committed isolation. Taking over
  an orphaned one deletes whatever is there by then: two overlapping takeovers
  are both granted, although the key is meant to have one run at a time
  (`ReservationRace.OneHolderFailsUnderEveryTakeover`). The calls are as good as
  single steps exactly if a takeover still finds an orphan
  (`ReservationRace.StepFollowsIffChecked`).
- The stale-claim floor budgets one write per item, but an item can take the
  handler timeout and three writes (reserve, complete, fail). At the default
  batch, concurrency and timeout such a batch outlasts the floor
  (`WorkerPool.FloorIsShortOfThreeWrites`), though not the default window
  (`WorkerPool.DefaultFigures`).
- `stopEventConsumer` gives up waiting after a bound. Starting again before
  the old tick has settled leaves two loops running; starting is safe exactly
  when nothing is in flight (`ConsumerLoop.RestartIsSafeIffSettled`).
- The splitter's final filter strips line comments first, so `--` on the last
  line of a leading block comment can take the code behind it away
  (`SqlFilter.DashesInABlockCommentDropCode`); `SqlFilter.FilterIsRightIff` says
  for exactly which statements the filter is right.
- Enqueueing trims the idempotency key, so a job's keys are distinct only up to
  white space at the end of the suffix (`ScheduledJobs.JobKeysMeet`).
- The closing write of a scheduled run is not fenced. It moves the schedule
  forward exactly if the job was not moved past the run's clock meanwhile, and
  closes each fire once exactly if the job still stands at it
  (`ScheduledJobs.FinishMovesForwardIff`, `ScheduledJobs.FenceIsExact`); otherwise
  `ScheduledJobs.LateFinishRewindsTheSchedule`.
- The outcome write of an email is not fenced either. A finished email is final
  exactly when no pass that claimed it is still out
  (`OutboxPasses.FinishedForGoodIffNoPassIsOut`); a pass that outlasts its lock
  can have a sent email sent again (`OutboxPasses.OverrunResendsASentEmail`). A
  stale row is claimed again whatever its attempts, so the budget holds only up
  to one more attempt per takeover (`OutboxPasses.BudgetPlusTakeoversIsReached`).
  An email is sent once, plus once per takeover and once per `sent` write that
  fails after its mail was accepted; that bound is reached
  (`OutboxPasses.SentOncePlusTakeoversAndLostWrites`, `OutboxPasses.SendBoundIsReached`).
- The purchase webhook handlers look up and write in two statements without a
  transaction. A change overtaken by its checkout is lost, a checkout overtaken
  by a change is refused until it is delivered again
  (`PurchaseRaces.OvertakenChangeIsLost`, `PurchaseRaces.OvertakenCheckoutIsRefused`);
  exactly the harmless overlaps are as good as handling one event at a time
  (`PurchaseRaces.SecondWriteIsAtomicIffHarmless`).
- The currency of a purchase depends on whether the checkout came first, unless
  Stripe sends it in lower case (`Purchases.CurrencyAgreesIff`).
- A refund is tried once. Over every run an organization has what it was
  granted less what the calls that returned or are in flight cost exactly if
  none of its refunds was lost (`Credits.BalanceIsExactIffNoRefundLost`).

## Model

| member | source | states |
|---|---|---|
| `LedgerTheorems.RowRefinesRetryMachine` | src/lib/events.ts:543-875 | Every step of the shared ledger, whoever takes it, is for each row one act of a sequential retry machine whose claims carry numbers that are never used again; a completion or failure that names an older claim does nothing, and a release whose fence opens ends the claim the row is in. |
| `LedgerTheorems.LateWriteChangesNoRow` | src/lib/events.ts:675-827 | A complete or fail from a worker whose claim was superseded, and a release of such claims whose tokens the rows have counted past, changes no delivery row, and no receipt unless it completes a keyed run. |
| `LedgerTheorems.ClaimEndsAtMostOnce` | src/lib/events.ts:711-875 | Over every run from an empty ledger each claim is completed, failed, released or reaped at most once. |
| `LedgerTheorems.FenceIsExact` | src/lib/events.ts:711-758 | In every state any run reaches, the WHERE clause of a worker's status write matches if its claim still owns the row; and only then, for every worker that is not a hand-back. |
| `LedgerHandBack.EveryFenceIsExactInOrderlyRuns` | src/lib/events.ts:675-708 | For hand-backs too, over every run that replays no row while a hand-back of it is outstanding. |
| `LedgerHandBack.ReleaseEndsItsOwnClaim` | src/lib/events.ts:675-708 | In such runs a release as well is the end of the claim number it was handed, and does nothing once that claim is over. |
| `LedgerHandBack.ReplayUnderHandBackOpensForeignFence` | src/lib/events.ts:614-631 | From any state where a row with an outstanding hand-back is replayed and may be claimed again within its budget, whatever else its consumer is at work on, some run lets the hand-back's fence open on a later claim. |
| `LedgerHandBack.ReplayIsSafeIffOrderly` | src/lib/events.ts:711-845 | From any state an orderly run reaches: after the replay of a row that will be claimed again every fence stays exact over every orderly run if and only if no hand-back of the row was outstanding: the proviso is the exact one. |
| `LedgerHandBack.StaleHandBackIsReachable` | src/lib/events.ts:614-631 | A state as these rows need it is reached from an empty ledger by one late commit and one reaper. |
| `LedgerHandBack.FenceIsNotExactUnderEveryReplay` | src/lib/events.ts:835-845 | A concrete run from an empty ledger in which the fence opens for a claim that does not own the row. |
| `LedgerTheorems.RunningRowIsAccountedFor` | src/lib/events.ts:535-642 | Every running row of a reachable state has a worker that still owes its write, carrying exactly the row's token, or an owner that was lost. |
| `LedgerTheorems.OneLiveHolderPerKey` | src/lib/events.ts:946-1008 | In every state any run reaches, with each reservation as one step, at most one live claim is past the reservation of a (subscription, org-scoped key), across takeovers, failures, releases, reaping, replays and sweeps. |
| `LedgerTheorems.BlockedNeverCompletes` | src/lib/events.ts:1076-1086 | A claim that found its key in flight never completes and never holds the key, over every run. |
| `ReservationRace.TakeoverIsAtomicIffStillOrphaned` | src/lib/events.ts:990-1006 | Statement by statement: the delete and insert that take a reservation over do what the whole call would do at that moment if and only if the reservation is still an orphan then. |
| `ReservationRace.StepFollowsIffChecked` | src/lib/events.ts:961-1008 | And every other statement of the call, whatever was written since the one before, is one step of the ledger or none. |
| `ReservationRace.CheckedTakeoversRunTheLedger` | src/lib/events.ts:961-1008 | So if takeovers check that, all overlapping reservations leave the ledger as a run of single steps does, and the results about runs hold. |
| `ReservationRace.OneHolderUnderCheckedTakeovers` | src/lib/events.ts:946-950 | In particular no key is held by two live claims. |
| `ReservationRace.OverlappingTakeoversRunTwice` | src/lib/events.ts:990-1006 | Without the check: from every state with an orphan and two live claims for its key, two overlapping calls end with both of them granted. |
| `ReservationRace.OneHolderFailsUnderEveryTakeover` | src/lib/events.ts:946-1008 | Such a run from an empty ledger, for every webhook, pair of consumers and key. |
| `ReservationRace.UncheckedTakeoverForgets` | src/lib/events.ts:1000-1006 | Likewise a takeover that finds the receipt completed meanwhile deletes it, and the handled key is run again. |
| `LedgerTheorems.LandedCompletionHandles` | src/lib/events.ts:720-758 | A keyed completion that lands on its row leaves a completed receipt owned by that delivery. |
| `LedgerTheorems.HandledSurvivesRun` | src/lib/events.ts:675-875 | That state survives every run without a replay of the delivery and without the sweep of its event. |
| `LedgerTheorems.HandledKeyIsNeverHeldAgain` | src/lib/events.ts:961-1008 | So any later reservation of the key, by any claim of any delivery, finds it seen and writes nothing: the handler does not run again. |
| `LedgerTheorems.FailedRowSitsOutItsBackoff` | src/lib/events.ts:797-827 | A failed row with budget left is claimable from exactly its delay on, by exactly the consumers whose filter admits it; the delay is at least the requested floor and half the exponential. |
| `LedgerTheorems.ScopedKeysAreInjective` | src/lib/events.ts:931-939 | Distinct (organization, key) pairs never share a stored key; organization ids are colon-free and never the word used for none. |
| `LedgerInvariants.StepKeepsInv` | src/lib/events.ts:284-875 | One step of any kind, replays included, keeps the tables' foreign and unique keys, the match between claims, workers and tokens, and the ownership of reservations. |
| `LedgerInvariants.RunKeepsInv` | src/lib/events.ts:284-875 | Every state that any run reaches satisfies them. |
| `LedgerInvariants.FenceIsOwnership` | src/lib/events.ts:711-718 | Where they hold, a fence opens for the row's current claim, and for no other unless it is a hand-back whose token the row has not counted past. |
| `LedgerAccounting.AttemptsAreClaimsMinusReleases` | src/lib/events.ts:581-584 | Over every run: since creation or the last replay, a row's attempts are its claims minus the releases that landed, and every claim was released, used up or is still open. |
| `LedgerAccounting.BudgetIsRespected` | src/lib/events.ts:797-875 | With a fixed budget: waiting rows have attempts left, running rows are between 1 and the budget, dead ones have used it, and no more claims than the budget are used up since creation or the last replay. |
| `LedgerAccounting.RunKeepsBudget` | src/lib/events.ts:580-584 | Those bounds hold in every state of every run that leaves the budgets alone. |
| `RetryMachine.ActKeepsBalance` | src/lib/events.ts:684-685 | Each act of the retry machine keeps the balance of claims begun, released and used up. |
| `Backoff.BackoffWithinHalf` | src/lib/events.ts:766-773 | Whatever the random source returns, a delay lies between half and the whole of the capped exponential. |
| `Backoff.ExpDoubles` | src/lib/events.ts:770-771 | One second after the first attempt, twice as long after each further one, never more than an hour. |
| `Backoff.JitterFollowsTheDraw` | src/lib/events.ts:766-773 | The delay is half of that and, on top, the drawn fraction of the other half, to the nearest millisecond; a draw outside 0 to 1 counts as the nearer end. |
| `Backoff.WorstTotalClosedForm` | src/lib/events.ts:77-78 | The longest total wait over n failures in closed form: geometric for twelve failures, an hour for each one after. |
| `Backoff.TotalBackoffBounds` | src/lib/events.ts:766-773 | Any waits after failures with rising attempt numbers, whatever jitter was drawn and under any floor, add up to at least half of that many shortest exponentials and at most the floored exponentials of all attempts so far. |
| `LedgerBackoff.WaitIsScheduled` | src/lib/events.ts:797-823 | The wait a landed failure draws, floored as its caller asked, is what the row then sits out on the database clock. |
| `LedgerBackoff.FailuresClimb` | src/lib/events.ts:581-827 | Over every orderly run, across releases, reapings and claims by anyone, each failure of a row that schedules a wait has a higher attempt number than the one before, since creation or the last replay. |
| `LedgerBackoff.ScheduledBackoffIsBounded` | src/lib/events.ts:797-827 | With a fixed budget max the waits scheduled for a row number less than max and add up to at least half of the shortest exponentials and at most the exponentials, floored as asked, of attempts 1 to max - 1; without a floor that is the closed form. |
| `LedgerFanout.PublishFansOutOnce` | src/lib/events.ts:284-333 | Publishing a new event creates exactly one delivery, pending and due, for each active subscription of its topic that is global or of the event's organization, and none for any other. |
| `LedgerFanout.NoEventLeavesItsOrganization` | src/lib/events.ts:312-330 | Over every run no organization's subscription ever has a delivery of another organization's event, or of another topic. |
| `LedgerFanout.RepublishAddsNothing` | src/lib/events.ts:308-310 | Publishing an id again changes nothing. |
| `LedgerFanout.OnlyPublishCreates` | src/lib/events.ts:326-330 | No other step creates a delivery. |
| `LedgerFanout.OnlyFinishedLeaves` | src/lib/events.ts:1159-1210 | A delivery of an active subscription leaves the table only from done or dead. |
| `LedgerFanout.OnlyOldLeaves` | src/lib/events.ts:1164-1210 | And only when old enough: by when it was done, or, swept with its event, by when that was published, in days of 86,400,000 milliseconds. |
| `LedgerFanout.DroppedWebhookIsSilent` | src/lib/event-webhooks.ts:251-263 | Over every run: a webhook that was switched off gets no further delivery, and none it has is claimed again, whatever is published, replayed or booted. |
| `LedgerFanout.NothingUnfinishedVanishes` | src/lib/events.ts:1159-1210 | Over every run, orderly or not: whatever vanished did so at a step before which it was finished or its subscription inactive. |
| `LedgerFanout.DeclaredHandlerStaysActive` | src/lib/events.ts:369-377 | Over any schedule of boots with any registries, a handler some pod declared stays active for the grace window. |
| `LedgerFanout.RollingDeployLosesNothing` | src/lib/events.ts:379-442 | Every matching event published in that window, over any schedule of other steps, gets a delivery for the handler. |
| `LedgerFanout.PodsClaimOnlyWhatTheyCanRun` | src/lib/events.ts:552-559 | Over every run in which each pod claims with its own registry, whatever the registries are, a handler delivery is only ever claimed by a pod that has its handler, and only such pods are at work on one. |
| `LedgerFacts.ReleaseUndoesTake` | src/lib/events.ts:661-708 | Handing a claim back undoes it: each row is what it was before the claim, attempts included, but pending and due after the delay; every other row and table is untouched. |
| `LedgerFacts.ReleasedTokensAreSpent` | src/lib/events.ts:695-699 | After a hand-back no row is held under the tokens, and handing back again does nothing. |
| `LedgerFacts.ReplayedRunsAgain` | src/lib/events.ts:830-845 | A replayed delivery is claimable at once by exactly the consumers its subscription admits, with no attempt counted; every handled key is still seen; a second replay changes nothing. |
| `LedgerFacts.RequeueLeavesNothingStale` | src/lib/events.ts:855-875 | After a reaping nothing is stale and reaping again does nothing. |
| `LedgerFacts.ReapedRowGoesOn` | src/lib/events.ts:848-854 | A reaped row is dead exactly if out of attempts, else claimable at once as its subscription admits; the attempt stays counted and its reservations are gone. |
| `LedgerFacts.GrantedIff` | src/lib/events.ts:946-960 | A key is granted exactly if it was not handled, no other running delivery holds it, and the delivery and event exist; otherwise nothing changes. |
| `LedgerFacts.ReservationExcludesOthers` | src/lib/events.ts:941-945 | While its owner runs every other delivery finds the key in flight; the owner may reserve again; other keys are untouched. |
| `EventLedger.EventLedger.PublishEvent` | src/lib/events.ts:284-333 | A new event gets one pending row, due now, for each active subscription of its topic that is global or of its own organization, as many as reported; a known id changes nothing. |
| `EventLedger.EventLedger.SyncSubscriptionsFromRegistry` | src/lib/events.ts:396-465 | Every declared handler has its global row, active, with its attempts, seen now, and only those get new rows; an undeclared one is switched off exactly if nobody declared it for longer than the grace; organizations' subscriptions and webhooks stay; both counts reported. |
| `EventLedger.EventLedger.ClaimDeliveries` | src/lib/events.ts:543-609 | Of the unlocked rows in scan order the first that wait and are due, of an active subscription, of the topics asked for, and of handlers only those asked for - a webhook never needs one - as many as the clamped batch allows; each is running under this consumer, claimed now, with one more attempt, and returned once with its token; no other row changes. |
| `EventLedger.EventLedger.PickDeliveries` | src/lib/events.ts:551-581 | The query behind it, in the same terms: none passed over for one behind it, and all of them if the limit is not reached. |
| `LedgerFacts.ClaimableIff` | src/lib/events.ts:551-574 | Those terms for a single row, for every filter. |
| `EventLedger.EventLedger.ReleaseClaims` | src/lib/events.ts:675-708 | Afterwards the tokens are spent; exactly the rows still held under them wait again, the attempt uncounted, without holder and reservation; the count is theirs. |
| `EventLedger.EventLedger.CompleteDelivery` | src/lib/events.ts:720-758 | If the token matches, the row is done now and otherwise as it was; the receipt is written even if it does not; the result says which; no other row changes. |
| `EventLedger.EventLedger.FailDelivery` | src/lib/events.ts:797-827 | Dead exactly when out of attempts, else failed and due after the backoff but no sooner than asked, only under the token; reservations dropped with it. |
| `EventLedger.EventLedger.ReplayDelivery` | src/lib/events.ts:835-845 | True exactly for a dead, failed or done row, which is then due now with a fresh budget; no other row changes and a second call finds nothing to do. |
| `EventLedger.EventLedger.RequeueStaleDeliveries` | src/lib/events.ts:855-875 | Touched are exactly the rows that were running for longer than the window: dead or failed by their budget, due now, without reservations; the count is theirs. |
| `EventLedger.EventLedger.ReserveIdempotencyKey` | src/lib/events.ts:961-1008 | With nobody else writing meanwhile: granted, the key is this delivery's and every other one finds it in flight while this one runs; seen exactly if handled; refused, nothing changes; other keys never do. |
| `EventLedger.EventLedger.ProcessDelivery` | src/lib/events.ts:1017-1135 | The handler runs exactly when registered and not blocked by its key. What ran is done exactly if it returned; else it is dead exactly when out of attempts, or waits for the backoff, and after a timeout at least the timeout. What did not run is given back, or skipped if its key was handled. A held row ends as reported; only a completed keyed run leaves a receipt; no other delivery changes. |
| `EventLedger.EventLedger.SweepEventRetention` | src/lib/events.ts:1159-1220 | With nobody else writing, each half deletes min(eligible, batch x maxBatches) rows. Eligible are all deliveries done, and all events published with no work owed to an active subscription, more than the given days ago, and nothing else; a receipt goes only with its event. |
| `EventLedger.EventLedger.SweepDoneDeliveries` | src/lib/events.ts:1164-1183 | The batch loop over the deliveries done more than the given days ago; it stops early only when none is left. |
| `EventLedger.EventLedger.SweepOldEvents` | src/lib/events.ts:1185-1210 | The batch loop over the events published more than the given days ago that owe no work to an active subscription; they take their deliveries and receipts along. |
| `ClaimRace.ClaimNeverOrphans` | src/lib/events.ts:561-642 | On every interleaving of the timer with begin, update, second check and commit, once both have settled exactly one holds: the caller has the rows, the transaction rolled back, the rows are handed back, or a late commit was empty. |
| `ClaimRace.EarlyTimeoutRollsBack` | src/lib/events.ts:563-605 | A timer that fires before the second check means the claim never commits. |
| `ClaimRace.TimeoutInTheQueueUpdatesNothing` | src/lib/events.ts:561-564 | A timer that fires while the call waits for its connection means the UPDATE is not even run. |
| `ClaimRace.FaultCommitsNothing` | src/lib/events.ts:632-640 | A fault before the commit rolls back for good, the caller is rejected and nothing is handed back. |
| `ClaimCalls.SettledCallIsAClaimOrNothing` | src/lib/events.ts:561-642 | On every interleaving of a call's timer and transaction, once settled: rows the caller has are ordinary claims there; rows handed back can only be released; a rolled back or empty call leaves tables and workers as they were; and a committed call is one claim step of the ledger, late exactly if the caller does not have its rows. |
| `ConsumerLoop.ExactlyOneContinuation` | src/jobs/event-consumer.ts:268-283 | While running there is exactly one continuation, a pending timer or one boot or tick in progress: ticks never overlap and the loop never dies. |
| `ConsumerLoop.RestartIsSafeIffSettled` | src/jobs/event-consumer.ts:318-350 | Starting a stopped consumer keeps that if and only if no boot or tick of the old loop is in flight. |
| `ConsumerLoop.ImpatientRestartDoublesTheLoop` | src/jobs/event-consumer.ts:334-350 | A concrete run: stop during a tick, start, and two loops are left. |
| `ConsumerLoop.AcceptedWakeIsOwed` | src/jobs/event-consumer.ts:292-303 | After an accepted wake no poll interval stands between now and the next tick. |
| `ConsumerLoop.OwedWakeProgresses` | src/jobs/event-consumer.ts:420-473 | Every step then starts a tick or keeps it owed and comes nearer to it, until a stop. |
| `ConsumerLoop.WakeIsFollowedByATick` | src/jobs/event-consumer.ts:287-303 | Over any run without a stop, a wake gets its tick within two continuation steps, whatever calls come between. |
| `ConsumerLoop.EventConsumer.StartEventConsumer` | src/jobs/event-consumer.ts:211-283 | A running or dormant consumer is not started again; a fresh start is one loop, with wakes remembered from the boot on, exactly if nothing of an old loop is left. |
| `ConsumerLoop.EventConsumer.WakeEventConsumer` | src/jobs/event-consumer.ts:292-303 | An accepted wake is owed a tick without a poll interval in between and starts no second loop; any other changes nothing. |
| `ConsumerLoop.EventConsumer.OnTickSettled` | src/jobs/event-consumer.ts:465-473 | The next tick waits for the poll interval exactly if the batch was not full and no wake came meanwhile; one loop goes on while running, none after a stop. |
| `ConsumerLoop.EventConsumer.StopEventConsumer` | src/jobs/event-consumer.ts:318-324 | Nothing stays armed, no wake arms anything, and what is in flight, at most one boot or tick, is all that is left. |
| `ConsumerFleet.EveryCallIsARace` | src/lib/events.ts:561-642 | With every pod's timers, ticks, claim calls, deaths and restarts interleaved on one ledger, each claim call is a run of the race between its transaction and its timer. |
| `ConsumerFleet.FleetCallsNeverOrphan` | src/lib/events.ts:614-642 | So once it settled, its caller has the rows exactly if it committed in time, and rows that committed late are handed back. |
| `ConsumerFleet.ClaimsMeetSettledWork` | src/jobs/event-consumer.ts:373-413 | If stopped consumers are restarted patiently: a claim in time finds its pod's whole batch before it settled, and one that commits late, or after its process died and another took its id, takes no row its pod is at work on. |
| `ConsumerFleet.PatientFleetRunsTheLedger` | src/jobs/event-consumer.ts:373-474 | So all a fleet does to the ledger is a run of it, ending in the very same state: the results about runs hold of the fleet. |
| `ConsumerFleet.FleetFencesAreExact` | src/lib/events.ts:711-758 | In particular each status write of such a fleet lands if its claim still owns the row, and only then: always for work on a row, and for a hand-back if the replays were orderly. |
| `FleetTiming.ReaperSparesWorkInProgress` | src/jobs/event-consumer.ts:172-187 | With the batches of such a fleet drained by greedy pools on the database's clock: no reaper, on whatever pod and at whatever moment, touches a row whose claim is live and at work, if its window covers the rounds of a full batch and the slack. |
| `FleetTiming.TimedRunIsAFleetRun` | src/jobs/event-consumer.ts:373-474 | Such a run, without its clock and pools, is a run of the fleet. |
| `WorkerPool.GreedyPoolBound` | src/jobs/event-consumer.ts:357-370 | Under every interleaving: at most `limit` in flight, each item once, item i started by floor(i / limit) periods, everything over within ceil(items / limit). |
| `WorkerPool.ForEachLimited` | src/jobs/event-consumer.ts:357-370 | The loop with its shared `next`, whichever worker settles next: all items run, each started and all over within those bounds. |
| `WorkerPool.ReaperSparesARunningBatch` | src/jobs/event-consumer.ts:172-187 | Whatever an item can take: if the stale window covers all rounds and the slack, no row of a running batch is stale for a peer's reaper. |
| `WorkerPool.FloorCoversOneWrite` | src/jobs/event-consumer.ts:180-187 | The consumer's window covers them for items of one handler timeout and one write. |
| `WorkerPool.RowsStayFreshIffWindowCovers` | src/jobs/event-consumer.ts:172-187 | And for any item time no schedule lets a row get older than a window if and only if the window covers the rounds and the slack. |
| `WorkerPool.BoundIsReached` | src/jobs/event-consumer.ts:180-183 | For every batch some schedule keeps it running up to the very bound. |
| `WorkerPool.WindowIsSafeIffItCoversTheRounds` | src/jobs/event-consumer.ts:180-187 | So a stale window is safe for all schedules if and only if it covers rounds x item time. |
| `WorkerPool.FloorIsShortOfThreeWrites` | src/jobs/event-consumer.ts:99-103 | At the default batch, concurrency and timeout a batch whose items take the timeout and three writes outlasts the floor. |
| `WorkerPool.DefaultFigures` | src/jobs/event-consumer.ts:94-103 | The default window of ten minutes covers such a batch and the slack. |
| `SqlLexer.ChunksAreLossless` | db/_runner.ts:115-201 | The untrimmed chunks joined by semicolons give back the input, character for character, for every string. |
| `SqlLexer.ChunksEndExactlyAtCuts` | db/_runner.ts:185-192 | The chunks end at the semicolons the lexical function puts in normal mode, at all of them and at nothing else. |
| `SqlLexer.TagGrammar` | db/_runner.ts:169 | A text begins with the tag `$name$` exactly if the name is empty, or a letter or underscore and then letters, digits and underscores. |
| `SqlLexer.DollarStringIsNeverCut` | db/_runner.ts:167-184 | A semicolon between such a tag, where code stands, and the first recurrence of that very tag ends no statement, whatever the string holds; behind it the text is code again. |
| `SqlSplitter.SplitSqlStatements` | db/_runner.ts:115-208 | The scanner's nested loops return exactly those chunks, trimmed, without empty ones and without those the filter drops. |
| `SqlSplitter.ReadLineComment` | db/_runner.ts:123-130 | A line comment is copied up to its line feed and the chunks still to come are unchanged. |
| `SqlSplitter.ReadBlockComment` | db/_runner.ts:132-145 | Likewise a block comment, which does not nest and may be unterminated. |
| `SqlSplitter.ReadString` | db/_runner.ts:147-165 | Likewise a quoted string with doubled quotes, closed or not. |
| `SqlSplitter.ReadDollarString` | db/_runner.ts:167-184 | Likewise a dollar-quoted string, up to the first occurrence of its own tag or the end of the text. |
| `SqlSplitter.SplitPrintSplit` | db/_runner.ts:115-208 | Joining the returned statements with newline, semicolon, newline and splitting again returns the same list. |
| `SqlSplitter.StatementIsOneStatement` | db/_runner.ts:115-208 | Splitting a returned statement returns just that statement. |
| `SqlFilter.FilterIsRightIff` | db/_runner.ts:202-207 | For every statement: it is kept exactly when it has a code character outside its comments, if and only if its leading comments do not mislead the filter - each is a line comment, or closed without `--` on its last line, and for the first one that is neither, the filter unfolded once: what is left of it and of the lines below is visible exactly when there is code behind it. |
| `SqlFilter.PlainStatementsAreJudgedRight` | db/_runner.ts:202-207 | The guard to check beforehand: a statement whose leading block comments are closed and free of `--` on their last lines is kept exactly when it has code. |
| `SqlFilter.CommentsAreAllThatIsDropped` | db/_runner.ts:202-207 | So each chunk of a file is returned exactly when it has code, if and only if it is judged right. |
| `SqlFilter.DashesInABlockCommentDropCode` | db/_runner.ts:203-207 | For every comment with `--` on its last line and any code on that line: the statement is dropped if and only if nothing visible is left of the comment in front of its dashes. |
| `Entitlements.LocalPurchaseStatus` | src/services/chipp-entitlements.ts:63-69 | Refunded exactly for a refunded sale; else active or past due exactly if entitled, past due exactly if the sale is. |
| `Entitlements.MirrorShowsTheHighest` | src/services/chipp-entitlements.ts:120-155 | After any arrivals, in any order and with any repetition, the row shows the payload with the highest sequence number among those not rejected; canceled_at is set exactly if the status is canceled. |
| `Entitlements.OrderAndRepetitionDoNotMatter` | src/services/chipp-entitlements.ts:115-155 | Two histories made of the same payloads of a sale end with the same status, period end and sequence number. |
| `Entitlements.AppliedIffNewest` | src/services/chipp-entitlements.ts:124-154 | A payload is applied exactly if it passes the guards and is newer than all before it; otherwise nothing changes, and never another sale's row. |
| `Entitlements.FirstArrivalFixesTheSale` | src/services/chipp-entitlements.ts:136-153 | Organization, product and amount of a row are those of the first arrival that was not rejected. |
| `Entitlements.PullingAgainAppliesNothing` | src/services/chipp-entitlements.ts:157-178 | Pulling what has all arrived before applies nothing. |
| `Entitlements.ChippMirror.ApplyChippEntitlement` | src/services/chipp-entitlements.ts:120-155 | Applied exactly if nothing speaks against the payload and it is newer than the row, else the first reason is reported; a new row is the organization's purchase, an old one keeps buyer, product, amount and the time it was first canceled, and shows the payload; otherwise nothing changes; the same delivery again is stale. |
| `Entitlements.ChippMirror.SyncChippEntitlements` | src/services/chipp-entitlements.ts:158-178 | The pull loop keeps the table the mirror of all arrivals and counts the applied ones. |
| `Purchases.NeverASecondRow` | src/services/product.service.ts:465-584 | Whatever arrives in whatever order, no two rows share a subscription or a checkout session. |
| `Purchases.CheckoutIsNeverRefused` | src/services/product.service.ts:468-492 | Handled by itself, a checkout never violates a unique index, if a session belongs to one subscription. |
| `Purchases.RowFollowsItsOwnEvents` | src/services/product.service.ts:465-584 | With events handled one after the other, a subscription's row is what its own events make of it, whatever other purchases' events come in between. |
| `Purchases.CheckoutCommutesWithChanges` | src/services/product.service.ts:448-584 | With events handled one after the other, wherever the checkout arrives among the same stamped changes, and however often: same status, period end, session, payment intent, amount, purchaser, organization and product. |
| `Purchases.CurrencyAgreesIff` | src/services/product.service.ts:483-510 | Between the same two histories the currency agrees exactly if both begin with the same kind of event, or the checkout gave no currency, or a non-empty one in lower case. |
| `Purchases.OneTimePurchaseIsRecorded` | src/services/product.service.ts:496-510 | A one-time checkout leaves a row with its session, for good. |
| `PurchaseRaces.NeverASecondRowUnderRaces` | src/services/product.service.ts:465-584 | With the lookup and the write of each handler as separate steps, under every interleaving, crash and redelivery: never a second row for a subscription or a session. |
| `PurchaseRaces.SecondWriteIsAtomicIffHarmless` | src/services/product.service.ts:471-510 | For every state it can meet, a handler's second statement does what handling its event then would do if and only if no foreign write since its lookup makes a difference: a change finding its row inserted says nothing new, a checkout finding it inserted finds it paid, a fill-in finds no other session. |
| `PurchaseRaces.HarmlessRunsAreSequential` | src/services/product.service.ts:465-584 | Runs whose overlaps are harmless leave the table of handling the events one by one in the order of their effects. |
| `PurchaseRaces.RecheckedRunsAreSequential` | src/services/product.service.ts:471-584 | A guard the handlers lack: if each writes only what repeating its lookup would still lead to, every run is sequential, whatever overlaps. |
| `PurchaseRaces.FirstHarmfulStepDeviates` | src/services/product.service.ts:465-584 | And the first step that is not harmless makes it another table. |
| `PurchaseRaces.CheckoutCommutesUnderHarmlessRaces` | src/services/product.service.ts:448-584 | So the checkout commutes with the changes under all harmless overlaps. |
| `PurchaseRaces.RefusedIffOvertaken` | src/services/product.service.ts:496-510 | A checkout is refused exactly when its lookup missed, its subscription has a row by now, and its session is in no row; filling in is never refused. |
| `PurchaseRaces.OvertakenChangeIsLost` | src/services/product.service.ts:550-583 | For every change overtaken by its subscription's checkout the table is that of neither order, exactly unless the change says nothing new. |
| `PurchaseRaces.OvertakenCheckoutIsRefused` | src/services/product.service.ts:496-510 | For every checkout overtaken by a change the insert is refused and the row stays unpaid; delivering the checkout again repairs it. |
| `Purchases.ProductPurchases.RecordProductPurchase` | src/services/product.service.ts:465-518 | At most the pre-created row of the subscription is filled in with what the checkout knows, or one active row is added with what it says; afterwards the purchase is there, unless a unique index refused; a replay is a no-op with the same answer. |
| `Purchases.ProductPurchases.ApplyProductSubscriptionEvent` | src/services/product.service.ts:536-584 | The subscription has a row exactly if it had one or the event is stamped; its status, period end and end are the event's, a new row is what the event is stamped with, and everything else stays; a replay is a no-op. |
| `Credits.EveryRunIsSound` | src/services/credit.service.ts:10-18 | Over every interleaving of grants and tool calls each balance is the sum of its entries and never negative, and no reference is in the ledger twice. |
| `Credits.RefsInTheLedger` | src/services/credit.service.ts:54-78 | A reference is in the ledger exactly if some valid grant, of any organization, used it. |
| `Credits.BalanceIsGrantsMinusCharges` | src/mcp/gates.ts:142-190 | A balance is what the grant requests come to, each reference counting the first time, less what the calls that were not refunded cost. |
| `Credits.BalanceIsExactIffNoRefundLost` | src/mcp/server.ts:137-191 | Over every run a balance is what was granted less what the calls that returned or are in flight cost, a thrown call costing nothing, if and only if no refund of the organization was lost. |
| `Credits.BalanceAtOnePrice` | src/mcp/server.ts:137-191 | At one price: grants less the price times the calls that returned or are in flight, under exactly that condition. |
| `Credits.CallsArePaidFor` | src/mcp/gates.ts:142-190 | A call that costs credits passes the gate exactly if it has an organization and that has them, and then they are taken; a blocked call and a free one cost nothing; a call ends once, and a throw whose refund lands gives back what it took. |
| `Credits.CreditService.GrantTo` | src/services/credit.service.ts:43-104 | Granted exactly for a positive amount under an unused reference; then the balance rises by it and the reference is used up for every organization; otherwise nothing changes; other balances never do. |
| `Credits.CreditService.DebitFrom` | src/services/credit.service.ts:111-155 | Paid in full exactly if the balance covers a positive amount, else nothing is taken; a refund restores the balance; other balances are untouched. |
| `Credits.CreditService.CallCharged` | src/mcp/server.ts:137-191 | One call from gate to end, which is running or throwing, since registration refuses a tool with credits and a machine price: blocked exactly without funds and then without effect; a thrown call whose refund lands nets to zero with two entries; other organizations are untouched. |
| `RedisLock.LateOperationNeverTouchesAPeersLock` | src/lib/redis.ts:204-226 | Under every interleaving of WATCH, GET, expiry, a peer's SET NX and EXEC: a refresh or release changes the key only while it carries its own token. |
| `RedisLock.HolderKeepsTheKey` | src/lib/redis.ts:245-318 | A holder keeps the key until its own release call or expiry, whatever other pods and late operations do. |
| `RedisLock.WinnerHoldsForItsTtl` | src/lib/redis.ts:251-263 | Winning a free key gives the pod a token nobody had before, and the key is its own for the whole TTL. |
| `RedisLock.OneOwnerAtATime` | src/lib/redis.ts:185-191 | No two pods hold the token that is in the key. |
| `RedisLock.OwnOperationTakesEffect` | src/lib/redis.ts:277-318 | A holder's own operation, undisturbed, deletes the key or sets its expiry to the TTL from now. |
| `RedisLock.LockClient.AcquireLock` | src/lib/redis.ts:245-268 | True exactly with no client, or if the key was free and the command was answered; only then is a token remembered. A command that errs sets a free key if it reached the server, and changes nothing otherwise. |
| `RedisLock.LockClient.GuardedLockOp` | src/lib/redis.ts:204-226 | Nothing interleaved: applied exactly if the key holds the token, and then exactly the mutation. |
| `RedisLock.LockClient.RefreshLock` | src/lib/redis.ts:277-286 | Extends exactly the lock this process holds; otherwise false and no change. |
| `RedisLock.LockClient.ReleaseLock` | src/lib/redis.ts:295-318 | Forgets the token and deletes the key exactly if it still holds it. |
| `ScheduledJobs.JobKeysMeet` | src/services/scheduled-jobs.service.ts:247 | Two keys are stored alike exactly if kind, job, fire time and suffix agree, the suffix up to white space at its end. |
| `ScheduledJobs.OneRowPerFireAndSuffix` | src/services/scheduled-jobs.service.ts:227-254 | Over any run with crashes, stale re-claims and re-runs, rows keyed by a fire and a suffix are the same row exactly if fire and suffix are the same. |
| `ScheduledJobs.RerunQueuesNothing` | src/jobs/registry.ts:51-56 | A second run of the same fire finds the first one's email and queues nothing. |
| `ScheduledJobs.QueuedEmailStays` | src/services/email-outbox.service.ts:134-151 | A queued email keeps its row and its key. |
| `ScheduledJobs.ReclaimsServiceTheSameFire` | src/services/scheduled-jobs.service.ts:190-227 | Until an edit, a deletion or the end of a run, every claim of a job services the same fire. |
| `ScheduledJobs.FinishedRunMovesOn` | src/services/scheduled-jobs.service.ts:290-326 | A finished run leaves its job unlocked and due only from the next fire on, later than its tick clock, or disabled: missed fires collapse into one. |
| `ScheduledJobs.FinishMovesForwardIff` | src/services/scheduled-jobs.service.ts:316-326 | The closing write moves the job's schedule strictly forward, for every next fire it may set, if and only if the row's next fire is not past the run's tick clock when it is written. |
| `ScheduledJobs.ScheduleOnlyMovesForward` | src/services/scheduled-jobs.service.ts:316-326 | Over runs that keep that guard and leave the job unedited the schedule never moves back, and each closing write with a next fire moves it on. |
| `ScheduledJobs.FencedFiresCloseOnce` | src/services/scheduled-jobs.service.ts:290-326 | Over runs that close a fire only while the enabled job stands at it, each fire is closed at most once and later fires later. |
| `ScheduledJobs.FenceIsExact` | src/services/scheduled-jobs.service.ts:290-326 | After such a run one more closing write keeps that if and only if it meets the fence. |
| `ScheduledJobs.ForwardFinishesCanCloseAFireTwice` | src/services/scheduled-jobs.service.ts:316-326 | Moving forward is not enough for once: for any job and all such times two runs of one fire both close it, each moving the schedule forward. |
| `ScheduledJobs.LateFinishRewindsTheSchedule` | src/services/scheduled-jobs.service.ts:316-326 | For any job and all such times: a run whose job was claimed and finished again moves the schedule back when it closes, to a time that is due at once. |
| `ScheduledJobs.JobRunner.RunDueScheduledJobs` | src/services/scheduled-jobs.service.ts:190-225 | Claimed are the first jobs of the query, up to the limit, that are enabled, due, and unlocked or locked for over fifteen minutes; each is run once, counted once, unlocked and due at its next fire or disabled, and not due again at this tick; no other job changes. |
| `ScheduledJobs.JobRunner.ExecuteOne` | src/services/scheduled-jobs.service.ts:227-329 | The closing row, and ok exactly if the handler succeeded and the next run could be computed. |
| `EmailOutbox.EnqueueTwiceIsEnqueueOnce` | src/services/email-outbox.service.ts:134-151 | However the table grew meanwhile, a second enqueue of a key returns the first row and creates nothing. |
| `OutboxPasses.FinishedForGoodIffNoPassIsOut` | src/services/email-outbox.service.ts:248-330 | With claim, send and outcome write as separate steps: a sent, failed or cancelled email stays as it is over every continuation if and only if no pass that claimed it is still out. |
| `OutboxPasses.GuardKeepsFinished` | src/services/email-outbox.service.ts:263-267 | It stays so over every run in which only passes write whose own claim the row is still being sent under. |
| `OutboxPasses.FinishedStaysFinished` | src/services/email-outbox.service.ts:221-246 | Passes that write before their lock goes stale are such: with them every finished email is final from the row's creation on. |
| `OutboxPasses.OverrunResendsASentEmail` | src/services/email-outbox.service.ts:263-320 | For every new row with a budget of two or more: a pass outlasts its lock, a peer sends the email, and the first pass's failure makes it pending and due again. |
| `OutboxPasses.SentOncePlusTakeoversAndLostWrites` | src/services/email-outbox.service.ts:221-330 | Over every run, prompt or not, an email is sent at most once, plus once for every takeover of a stale row and once for every accepted mail whose pass then wrote a failed attempt. |
| `OutboxPasses.SendBoundIsReached` | src/services/email-outbox.service.ts:248-330 | For every new row, every number of such lost writes its budget allows and every number of takeovers, some run with prompt passes ends sent, having sent exactly that often. |
| `OutboxPasses.MarkedSentWasSent` | src/services/email-outbox.service.ts:248-275 | Over every run an email marked sent had been accepted before. |
| `OutboxPasses.AttemptsWithinBudgetPlusTakeovers` | src/services/email-outbox.service.ts:221-316 | With prompt passes a row is tried at most its budget of times plus once for every takeover of a stale row. |
| `OutboxPasses.BudgetPlusTakeoversIsReached` | src/services/email-outbox.service.ts:221-316 | For every new row and every number of takeovers some run reaches that bound, so the budget itself holds exactly when nothing is taken over. |
| `EmailOutbox.Outbox.EnqueueEmail` | src/services/email-outbox.service.ts:92-151 | A bad email is refused whole for its first fault; a good one has a pending row with what was asked for, under its trimmed key, and asking again finds that very row; no other row changes, and keys stay unique. |
| `EmailOutbox.AddressGrammar` | src/services/email-outbox.service.ts:73 | An address is a part, an at sign, a part, a dot and a part, none empty and none with white space or an at sign. |
| `EmailOutbox.Outbox.CancelEmail` | src/services/email-outbox.service.ts:180-188 | Only a pending row is cancelled, and true exactly then. |
| `EmailOutbox.Outbox.DeliverDueEmails` | src/services/email-outbox.service.ts:206-335 | Claimed are the first rows of the query, up to the limit, that are due and pending or stuck in sending for over ten minutes; each is settled once by its outcome, a retry after 1, 5, 30, 120 or 720 minutes by its attempt, counted once and not due again now; no other row changes. |

## Left out

- Postgres and its driver: each transaction is one atomic step on a database clock, except where ReservationRace, PurchaseRaces and OutboxPasses say otherwise; the unique and foreign keys of the migrations are assumed to hold, with cascades as they declare.
- A write that commits after its caller's timeout: modelled for claims, where the code handles it; elsewhere a lost status write is a lost worker.
- EventLedger.EventLedger.ReserveIdempotencyKey: the answers that only overlapping calls can get, which are in ReservationRace.
- LedgerTheorems.OneLiveHolderPerKey: with each reservation as one step, because it is false of the call's separate statements (see ReservationRace.OneHolderFailsUnderEveryTakeover).
- LedgerTheorems.HandledKeyIsNeverHeldAgain: likewise (see ReservationRace.UncheckedTakeoverForgets).
- EventLedger.EventLedger.ClaimDeliveries: the scan order and the rows locked by others are given; LedgerWorld lets a claim take any admissible set of due rows, because SKIP LOCKED may skip any of them.
- EventLedger.EventLedger.ProcessDelivery: sequential, with the handler or webhook as a given outcome; interleavings are in LedgerWorld.
- LedgerTheorems.FenceIsExact: only one way for hand-backs, because the other way is false of them when a row is replayed while a hand-back of it is outstanding (see LedgerHandBack).
- LedgerTheorems.LateWriteChangesNoRow: of a release, for hand-backs whose tokens the rows have counted past, for the same reason.
- ConsumerFleet.ClaimsMeetSettledWork: for consumers started again only after what was in flight has settled (see ConsumerLoop.RestartIsSafeIffSettled); that the rows a claim has locked are still claimable when it commits is taken from the row locks. Processes alive at the same time are assumed to have distinct consumer ids.
- FleetTiming.ReaperSparesWorkInProgress: with the same figures on every pod, item times within the period, batches that begin within the slack of their claim, and clocks that run at one rate.
- ScheduledJobs.OneRowPerFireAndSuffix: fire times before the year 10000, where their text has a fixed width; the text itself is a given one-to-one function.
- ScheduledJobs.FinishedRunMovesOn: of the run's own tick clock; when the schedule itself moves forward is FinishMovesForwardIff. Mutual exclusion of runs is not claimed: a batch of slow jobs can outlast the stale lock window.
- ScheduledJobs.FencedFiresCloseOnce: for jobs nobody edits or deletes; an edit may set a fire again that was closed.
- OutboxPasses.FinishedStaysFinished: for passes that write before their lock goes stale, on one clock for all pods, because it is false otherwise (see OverrunResendsASentEmail).
- OutboxPasses.AttemptsWithinBudgetPlusTakeovers: likewise for such passes.
- ScheduledJobs.JobRunner.RunDueScheduledJobs: the scan order, the rows locked by others and the outcome of each handler are given, and jobs are not edited meanwhile; job_history rows are left out.
- EmailOutbox.Outbox.DeliverDueEmails: likewise for the scan order, the locks and the sends.
- EmailOutbox.Outbox.EnqueueEmail: lower-casing beyond ASCII, bodies, reply-to, organization, user and source columns.
- Purchases.CheckoutCommutesWithChanges: refunds by payment intent, canceled_at and the pre-created row's other metadata are outside it; overlapping handlers are in PurchaseRaces.
- Purchases.CheckoutIsNeverRefused: for a checkout handled by itself, because overlapping handlers can have one refused (see PurchaseRaces.RefusedIffOvertaken).
- Purchases.RowFollowsItsOwnEvents: for events handled one after the other (see PurchaseRaces.HarmlessRunsAreSequential).
- Entitlements.ChippMirror.ApplyChippEntitlement: payload parsing, donations and the catalog sync that may add a product; whether organization and product are known is an input of each arrival.
- Credits.CreditService.GrantTo: amounts are integers; reasons, metadata and timestamps are left out.
- RedisLock.LockClient.AcquireLock: connections, cooldown and the deferred retry's timer; the retry itself is a step of the interleaved model.
- RedisLock.HolderKeepsTheKey: every guarded operation has a connection of its own; operations that share one connection's WATCH are not covered.
- Backoff.BackoffWithinHalf: rounding is to the nearest integer over the reals, not over binary floating point.
- Topic and payload validation, last_error texts, webhook HTTP, handler bodies, logging, environment parsing.
- Deletion of organizations and subscriptions with their cascades.
- JavaScript strings are sequences of Dafny characters; UUIDs and Stripe ids are numbers where only equality matters.
- Migration ordering, the migration ledger and its read-only retry loop.
- Routes, MCP transport, machine payments, email templates, user interface, storage drivers, upload tables and role checks: request handling and rendering around the parts above, without state of their own to keep consistent.
