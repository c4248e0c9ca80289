# Verified model of the Crit Alarm server's state machines

The server keeps its state in SQLite tables and changes it in transactions, one Node turn at a time. This project
models five parts of it in Dafny and proves what they promise:

- the **weekly check**: rounds per device, up to three pushes per round, results written once, and `notice_after`,
  the second at which a phone that hears nothing should tell its owner;
- the **billing reads**: reads of one customer serialised by an in-memory flight and a numbered fence in the
  database, with retries, crashes and late answers;
- **accounts**: linking, switching and merging, tombstones, and everything that moves across a merge;
- **incidents**: open, acknowledged, closed and expired incidents, their timers, and a scan over a list of due timers
  that goes stale while it is worked through;
- two stand-alone pieces: the rolling rate limit and the reader of IPv6 text (accepting exactly the spellings of an
  address).

## How it is built

Every part has the same three layers.

1. A *model* file: the tables as a value and each transaction as a function on it (`check_model.dfy`,
   `billing_model.dfy`, `billing_accounts.dfy`, `accounts_model.dfy`, `incident_model.dfy`). Fields that no code
   keeps (which read was applied, which attempt was handed out, which events were emitted) are history, marked as
   such beside the datatype.
2. A *class* with the source's own fields and loops (`check_store.dfy`, `check_scheduler.dfy`, `billing_store.dfy`,
   `accounts_store.dfy`, `incident_service.dfy`, `rolling_limit.dfy`), whose methods are proved to do exactly what
   the functions say.
3. *Theorems* about the functions, over one step and over every run: the remaining files. Some of them
   (`check_push.dfy`, `check_closings.dfy`, `check_rows.dfy`, `billing_writes.dfy`, `accounts_answers.dfy`,
   `incident_history.dfy`) say what every transaction answers and writes from the rows before it alone, in words of
   their own, so that model and class cannot be wrong together.

Steps of different requests, scans, processes and crashes interleave freely. A step is one transaction or one stretch
between two awaits, which is as fine as Node interleaves. The clock is an argument of each step and may run backwards
unless a theorem says otherwise. SHA-256 stands for its own input (so it is injective), random ids are new, and
foreign calls (push providers, the store's API, the identity provider) answer anything at all.

## What is found

- `notice_after` never moves back, whatever is switched, held, skipped or late, but for two guards a caller can read
  beforehand: a provider refusing the push of the second missing round before it closes, and a new push token making
  an idle device due at once. `CheckNotice.NoticeMovesBackIff` is the exact condition, and
  `CheckWitnesses.RefusalLowers` and `CheckWitnesses.NewTokenLowers` reach both.
- `notice_after` is the second at which the second miss is written, whatever else happens, as long as no round opens late
  and every round closes as missed. The exact exception is a value told while a round is still open although the next
  one is due: the answer to a receipt of an older round (src/check/store.ts:172-200) does not settle the open round
  first, as a view does (154-158), and counts on the next round opening at a time that is over.
  `CheckPrompt.NoticeComesTrue` is the equivalence, `CheckWitnesses.OverdueIsTold` such an answer.
- "A fifth failure drops the queued read" counts failures that are not in a row. A success over a marked queue row
  leaves the row with the failures it carried (src/tier/billing-reads.ts:333 keeps it, 240-244 and 246-248 do not
  reset `attempts`), so the trigger that marked it can be given up at its own first failure, although docs/api.md:903
  gives it four retries. `BillingTriggers.FifthFailureNeedNotBeInARow` reaches such a state,
  `BillingTriggers.CountStaysInARowIff` says exactly which step makes the count wrong, `BillingTriggers.DropsInARowIff`
  that a drop of any run comes after five failures in a row if and only if the count was right, and
  `BillingTriggers.CountInARowOverRuns` that without such a step every drop does.
- A trigger can cost more than five reads. A direct call starts a read without taking off a mark that a dead process
  left (src/tier/billing-reads.ts:94-104), and when that read fails the marked row is left as it is (254-259), so nobody
  counts it. In any run a trigger that is given up has cost five reads, less the failures its row carried when it came,
  plus the reads that failed over a mark since: at most five exactly when the latter are no more than the former
  (`BillingTriggers.FiveReadsIff`). Step by step the count is right until a read fails over a mark with every failure on
  the row spent on this trigger (`BillingTriggers.CountsReadsIff`). Without a direct call over a mark it never is wrong
  (`BillingTriggers.ReadsAreBoundedOverRuns`); `BillingTriggers.SixthReadIsReached` is a run in which it is.
- The comment that a merge keeps every tombstone chain one hop long (src/tier/revenuecat.ts:44-46) holds for merges
  only: `AccountRuns.MergeLengthensNoChain` against `AccountChains.LeavingLengthensChains`. Linking one empty account
  after the other makes chains of any length (`AccountChains.ChainsGrowWithoutBound`), so the bound of eight hops is
  felt by an account id that was left nine links ago (`AccountChains.BoundIsFelt`), and a customer id linked to such
  an account resolves to nothing (`BillingAccounts.FollowMergeIff`). Chains never come back to themselves all the
  same, and no device, identity or join token ever stands on one.

## Model

| member | source | states |
|---|---|---|
| `Schedule.JsModTwice` | src/check/schedule.ts:37-40 | the doubled truncating remainder of JavaScript is the ordinary remainder for times of either sign |
| `Schedule.SlotIsLeast` | src/check/schedule.ts:37-40 | `slotAtOrAfter` is the least second at or after its argument that lies on the device's weekly slot |
| `Schedule.RoundAfterSpacing` | src/check/schedule.ts:43-45 | the next round lies on the slot in [3, 10) days, and exactly a week later if and only if this one opened on the slot |
| `Schedule.OffsetAhead` | src/check/schedule.ts:13 | the first of a round's three offset times that is still ahead, if any is |
| `CheckInvariant.ClosesOnce` | src/check/store.ts:433-448 | a result is written once: closing again changes nothing; the first closing touches this round and this device alone, which is left with no round, its timer at its next due time, and the counters of its log with this closing at the end |
| `CheckInvariant.AttemptsLeft` | src/check/store.ts:239-263 | when a push comes due fewer than three are on record, the next number is free, its offset has passed, and an offset lies between it and the last: the branch for more than the maximum is unreachable |
| `CheckInvariant.PlanKeepsInv` | src/check/store.ts:218-273 | one device's turn keeps the whole check invariant |
| `CheckInvariant.ConfirmKeepsInv` | src/check/store.ts:280-312 | confirming or refusing a planned push keeps the invariant |
| `CheckInvariant.RecordKeepsInv` | src/check/store.ts:318-332 | a provider's answer, late or repeated, keeps the invariant |
| `CheckInvariant.ReceiptKeepsInv` | src/check/store.ts:172-200 | a receipt, counted or late, keeps the invariant |
| `CheckInvariant.EnableKeepsInv` | src/check/store.ts:122-133 | switching checks on keeps the invariant |
| `CheckInvariant.DisableKeepsInv` | src/check/store.ts:137-148 | switching checks off keeps the invariant |
| `CheckInvariant.DisabledIsQuiet` | src/check/store.ts:137-148 | and leaves the device without a timer and every round of it closed |
| `CheckInvariant.SettleKeepsInv` | src/check/store.ts:368-373 | settling before a view keeps the invariant |
| `CheckInvariant.PruneKeepsInv` | src/retention/prune.ts:54-57 | deleting old rounds keeps the invariant and the counters computed from the whole log |
| `CheckInvariant.NewTokenKeepsInv` | src/check/device-hooks.ts:74-77 | the new-token hook keeps the invariant |
| `CheckInvariant.StepKeepsInv` | src/check/store.ts:122-448 | every step keeps it: the named round is the device's only open one, the timers lie in their windows, counters and second miss equal the specification over the log of closed rounds |
| `CheckRounds.ReachableInv` | src/check/store.ts:122-448 | every state reached from empty tables, with crashes, prunes and any clock, satisfies the invariant |
| `CheckRounds.AttemptsOfAnyRound` | src/check/store.ts:239-263 | attempts of any reachable round are 1..n with n at most 3, each at or after its offset and before the close, at strictly increasing times with an offset time between any two |
| `CheckRounds.HandedOutOnce` | src/check/store.ts:246-263 | no attempt is handed to a sender twice, across schedulers and crashes |
| `CheckRounds.ClosedStaysClosed` | src/check/store.ts:433-448 | device, times, attempts, result and reason of a closed round never change |
| `CheckRounds.RoundsAreDaysApart` | src/check/store.ts:404-428 | over every run from empty tables without a new-token event two rounds of a device open at least three days apart, whatever is switched on and off |
| `CheckPushes.TurnPushes` | src/check/store.ts:218-273 | a turn puts a push on record if and only if its time has come, tier and token allow it and the last alarm is 30 minutes old; the next push is then due at the next of the round's opening, 6 and 18 hours later, or at the close, and a held one when the hold ends or at the close |
| `CheckPushes.NoFourthPush` | src/check/store.ts:239-257 | whatever the rows are, no fourth push of a round is made, and one whose number is taken rolls the turn back |
| `CheckPushes.PushesAreOnTime` | src/check/store.ts:239-263 | over any run whose scans come in time and find no fresh alarm, the pushes of a device's rounds are on record at exactly their opening, 6 hours later and 18 hours later: as many as have come due, and all three of a round that got as far as its close |
| `CheckPushes.ThreePushes` | src/check/store.ts:218-273 | a due device scanned when due has its three pushes at those seconds, and is not due a second before any of them |
| `CheckClosings.RoundEndsAs` | src/check/store.ts:122-448 | whatever step comes next, an open round ends if and only if the rows before it say so, and with the result, reason and time they give: missed exactly when a provider accepted a push, held only when alarms kept every push back, refused, received before its close, skipped for tier, token or switching off |
| `CheckClosings.SentIff` | src/check/store.ts:280-312 | a planned push leaves if and only if its round is open, nothing ends it at this look and the token is still the one it was planned for |
| `CheckClosings.CountedIff` | src/check/store.ts:172-200 | a receipt is answered if and only if the device has that round, counts if and only if the round was received or is received now, before its close, and leaves exactly these notes |
| `CheckRows.AnswerIsWritten` | src/check/store.ts:318-332 | a provider's first answer is written to its attempt, and an acceptance is the device's last sent time |
| `CheckRows.FirstAnswerStands` | src/check/store.ts:318-332 | a second answer to an attempt changes nothing |
| `CheckRows.EnrolsAtOnce` | src/check/store.ts:122-133 | a device that enrols for the first time is due at once, with nothing missed |
| `CheckRows.SwitchingGainsNothing` | src/check/store.ts:118-148 | switching off and on again keeps the time the next round is due, so it cannot be used to ask for a push |
| `CheckRows.SwitchingTwice` | src/check/store.ts:122-148 | switching on what is on or off what is off changes nothing, nor does a device nobody knows |
| `CheckRows.DueRoundIsSkipped` | src/check/store.ts:404-417 | a due device that is not paid for or has no token gets no round: it is written down as skipped and the next one is due on the slot |
| `CheckRows.NewTokenHurriesIff` | src/check/device-hooks.ts:71-77 | a new token makes exactly an enrolled device with misses and no open round due at once, and changes nothing else |
| `CheckRows.AlarmNoteIsNewest` | src/check/device-hooks.ts:43-46 | a device keeps the time of its newest alarm |
| `CheckRows.AlarmNotesCommute` | src/check/device-hooks.ts:43-46 | so notes may be written in any order and repeatedly |
| `CheckRows.PruneDropsIff` | src/retention/prune.ts:54-57 | exactly the closed rounds that opened more than 90 days ago go, with their attempts |
| `CheckRows.ReleaseDropsIff` | src/tier/devices.ts:96-102 | a released device takes its enrolment, rounds and attempts with it, and nobody else's |
| `CheckRows.MoveChangesAccount` | src/v1/accounts.ts:113-120 | moving a device to another account changes who pays for its checks and nothing else of them |
| `CheckRows.ViewTells` | src/check/store.ts:334-350 | the view is off exactly when the device is off or not paid for, else it tells the state, the next due time and `notice_after` |
| `CheckNotice.NoticeAtOpening` | src/check/store.ts:353-362 | opening a due round leaves `notice_after` as it was |
| `CheckNotice.NoticeAtClose` | src/check/store.ts:353-362 | closing a round lowers it exactly when a refusal is the second miss before the close |
| `CheckNotice.NoticeMovesBackIff` | src/check/store.ts:353-362 | over any one step with a clock that does not run back, `notice_after` falls if and only if the step is an early refusal or a new token on an idle device |
| `CheckNotice.NoticeNeverDecreases` | src/check/store.ts:353-362 | along any run without those two steps `notice_after` never decreases |
| `CheckWitnesses.RefusalLowers` | src/check/store.ts:318-332 | a run after which a refusal lowers it |
| `CheckWitnesses.NewTokenLowers` | src/check/device-hooks.ts:74-77 | a run after which a new push token lowers it |
| `CheckPrompt.MissStepKeepsAwaited` | src/check/store.ts:353-362 | any step that lets no round of the device open late or close as anything but missed leaves the second at which the second miss will be written |
| `CheckPrompt.NoticeComesTrue` | src/check/store.ts:353-362 | over any run of such steps (holds, failed pushes, late answers, settling, other devices) the second miss is written at exactly the announced second, if and only if no round was overdue when it was announced |
| `CheckPrompt.NoticeStaysAsTold` | src/check/store.ts:353-362 | asked for again along such a run, at a moment when no round is late to open or overdue, the value is the one told at the start |
| `CheckPrompt.SecondMissIsInTime` | src/check/store.ts:353-397 | and past the announced second two rounds have been missed, if no round is left open after its close |
| `CheckPrompt.SecondMissIsReached` | src/check/store.ts:218-397 | from any enrolled device that can be pushed such a run leads to the second miss |
| `CheckWitnesses.OverdueIsTold` | src/check/store.ts:172-200 | a run after which a repeated receipt of the first round is answered, while the second is open and the third due, with a second that counts on the third opening at a time that is over |
| `CheckDue.TwoPlansAreEnough` | src/check/store.ts:204-273 | at one reading of the clock two plans take a device off the due list |
| `CheckDue.StepTakesTurns` | src/check/store.ts:218-332 | at one reading of the clock no step but switching on and a new token makes work for any device |
| `CheckDue.PassesEnd` | src/check/scheduler.ts:58-88 | repeated scans of any batch at a fixed clock, with confirmations, answers and other requests between the turns, end: at most two for each enrolled device, and when no further one can start nothing is due |
| `CheckDue.StateMatchesTable` | src/check/store.ts:499-504 | the reported state is the one the contract's table gives for the log of counted rounds |
| `CheckDue.RunStartIsUnique` | src/check/store.ts:433-448 | the run of misses that the counters describe is unique |
| `CheckDue.CountedNeverSkipped` | src/check/store.ts:433-448 | skipped rounds never count towards it |
| `CheckStores.CheckStore.Plan` | src/check/store.ts:218-273 | the method leaves exactly the tables and returns exactly the push of the model's turn |
| `CheckStores.CheckStore.Receipt` | src/check/store.ts:172-200 | the same for a receipt, with the answer the route sends |
| `CheckStores.CheckStore.Confirm` | src/check/store.ts:280-312 | the same for the question asked before the bytes leave |
| `CheckStores.CheckStore.Record` | src/check/store.ts:318-332 | the same for the provider's answer |
| `CheckStores.CheckStore.Disable` | src/check/store.ts:137-148 | the same for switching off |
| `CheckStores.CheckStore.DueNow` | src/check/store.ts:204-209 | the due list: only due devices, soonest first, and none left out before the limit is reached |
| `CheckStores.CheckStore.Close` | src/check/store.ts:433-448 | writes a result and says whether it was the first |
| `CheckStores.CheckStore.CheckDueAfterNewToken` | src/check/device-hooks.ts:74-77 | the hook's tables are the model's |
| `CheckStores.CheckStore.PruneRounds` | src/retention/prune.ts:54-57 | the same for pruning old rounds |
| `CheckSchedulers.AlarmNotes.Add` | src/check/device-hooks.ts:24-29 | only the newest time per device is kept |
| `CheckSchedulers.AlarmNotes.Flush` | src/check/device-hooks.ts:31-46 | every note is written once, newest time only, and a note whose write fails is kept |
| `CheckSchedulers.ScanHandsOutNew` | src/check/scheduler.ts:58-88 | whatever other requests do between its turns, a scan puts on record only attempts that were not on record when it began, each once |
| `CheckSchedulers.ChainedRuns` | src/check/scheduler.ts:58-88 | a scan with everything that comes between is a run of steps, so what holds over runs holds of it |
| `CheckSchedulers.CheckScheduler.Scan` | src/check/scheduler.ts:58-88 | a second scan does nothing; otherwise every device the due query returned has its turn, in that order, unless the time budget cuts the scan short, and the count is of the attempts these turns put on record, all of them new |
| `Tiers.AccountTierAfter` | src/tier/revenuecat.ts:107-110 | the account ends at least as high as its rows, and falls exactly when the written row was a source of the tier that goes |
| `Tiers.Highest` | src/tier/revenuecat.ts:78-81 | no row pays for more, and free or some row pays for it |
| `BillingView.ViewMatches` | src/tier/entitlement-read.ts:82-100 | the view of a list: a tier the list pays for and none higher, each pack with its latest end, the identifiers no map names, each once |
| `BillingView.ViewIgnoresOrder` | src/tier/entitlement-read.ts:82-100 | neither tier nor packs depend on the order of the list |
| `BillingView.ViewEntitlements` | src/tier/entitlement-read.ts:82-100 | the loop computes that view |
| `BillingView.SweepTier` | src/tier/reconcile.ts:101-125 | no answer if and only if a running entitlement is not named, else the best tier that runs |
| `BillingFence.ActKeepsFence` | src/tier/billing-reads.ts:225-335 | every step, late answers of dead processes included, keeps the numbered fence of a customer |
| `BillingFence.LiveReadIsNeverStale` | src/tier/billing-reads.ts:278-281 | a read of the running process is never stale |
| `BillingFence.StepGrows` | src/tier/billing-reads.ts:272-335 | a step adds at most one result, above all before it; while the customer has a row no number is forgotten |
| `BillingFence.FenceHoldsOverRuns` | src/tier/billing-reads.ts:225-335 | over any run no number is given twice to a linked customer, applied numbers rise and stay at or below issued ones, and tier and packs equal the fold of the applied views in number order |
| `BillingFence.FullListDecides` | src/tier/billing-reads.ts:301-316 | what was written before the last full list no longer matters |
| `BillingFence.GuardedListOnlyAdds` | src/tier/billing-reads.ts:301-316 | a list with an unknown identifier lowers no tier and removes no pack |
| `BillingFence.CompletionOrder` | src/tier/billing-reads.ts:272-335 | two reads ending in either order leave the newer number, and the same holdings when the newer list is full |
| `BillingWrites.TriggerQueues` | src/tier/billing-reads.ts:81-89 | a trigger during a read marks the row and moves nothing else of it; any other is due at once and counts from zero |
| `BillingWrites.FailureRetries` | src/tier/billing-reads.ts:254-270 | a failed read moves only the queue: tried again after a minute, five, fifteen minutes and an hour, given up at the fifth failure, and left alone when another read follows |
| `BillingWrites.StartsTakeMarks` | src/tier/billing-reads.ts:94-166 | a scan takes the mark off as it starts the read, a direct call leaves it, and neither touches a read in flight |
| `BillingWrites.DueIff` | src/tier/billing-reads.ts:145-150 | a read is due when its time has come or its row is marked |
| `BillingWrites.NumberIsNext` | src/tier/billing-reads.ts:225-231 | a read takes the number one above the last one given to its customer, with or without a row |
| `BillingWrites.AnswerCountsIff` | src/tier/billing-reads.ts:204-223 | a list counts, and `never seen` only of a customer who holds nothing |
| `BillingWrites.ResultWrites` | src/tier/billing-reads.ts:272-335 | a late result is dropped whole; one with news is written under its number on the account the id leads to, holding what the list and the guard say; a mark set during the read survives it |
| `BillingWrites.EndWrites` | src/tier/billing-reads.ts:204-223 | the end of a read writes what the answered list says, or counts a failure |
| `BillingWrites.SettlingEnds` | src/tier/billing-reads.ts:182-201 | a read that settles is followed by exactly one under the next number if the row is marked or somebody waits, else nothing runs and an id without a row counts anew |
| `BillingWrites.CrashForgets` | src/tier/billing-reads.ts:68-75 | a process that dies keeps rows and queue; only a read that had not ended, of a customer with a row, may still end |
| `BillingWrites.LateReadEndsOnce` | src/tier/billing-reads.ts:68-75 | and ends once |
| `BillingWrites.LinkWrites` | src/tier/billing-reads.ts:132-143 | a new row is free, holds nothing and counts on from the numbers already given; an existing one is repointed |
| `BillingWrites.EventWrites` | src/tier/revenuecat.ts:112-155 | an event is heard once, and written if and only if its customer leads to an account, it names a tier and none heard for that customer is younger |
| `BillingWrites.SweepWrites` | src/tier/reconcile.ts:127-155 | the sweep writes the tier of a row that is there, and nothing else of it |
| `BillingWrites.QueuedEventWrites` | src/tier/revenuecat-trigger.ts:91-100 | an event that queues a read keeps the newest event time of its customer |
| `BillingTriggers.NoTriggerIsLost` | src/tier/billing-reads.ts:81-104 | a trigger stops being queued exactly when a read that started after it succeeds or its last retry fails |
| `BillingTriggers.TriggerStaysQueued` | src/tier/billing-reads.ts:145-202 | over any run of one process with crashes it is still queued until then |
| `BillingTriggers.EnqueueCountsFromZero` | src/tier/billing-reads.ts:81-89 | a trigger that finds nothing running and nothing marked starts its retries from zero |
| `BillingTriggers.FiveReadsPerTrigger` | src/tier/billing-reads.ts:254-270 | a trigger that came while nothing ran gets exactly five reads if all fail |
| `BillingTriggers.FiveReadsOverRuns` | src/tier/billing-reads.ts:254-270 | the same over any run: given up at the fifth failed read, never before |
| `BillingTriggers.ReadsPerTriggerAreBounded` | src/tier/billing-reads.ts:254-270 | any trigger costs at most five failed reads, and one more for each direct call over a mark a dead process left |
| `BillingTriggers.CountsReadsIff` | src/tier/billing-reads.ts:254-270 | the row counts the reads of its trigger until one fails over a mark while it carries no other failure, and exactly then no longer |
| `BillingTriggers.GivesUpWithinFiveReadsIff` | src/tier/billing-reads.ts:254-270 | a trigger is given up within five reads if and only if that count was right |
| `BillingTriggers.SpentAlongRuns` | src/tier/billing-reads.ts:254-270 | over any run the failed reads of a waiting trigger are the failures its row gained and those over a mark |
| `BillingTriggers.FiveReadsIff` | src/tier/billing-reads.ts:254-270 | over any run, what a trigger had cost when it is given up, and exactly when that is at most five |
| `BillingTriggers.ReadsAreBoundedOverRuns` | src/tier/billing-reads.ts:94-104 | a guard a caller can keep: over any run with no direct call over a mark since the trigger it costs at most five |
| `BillingTriggers.SixthReadIsReached` | src/tier/billing-reads.ts:94-104 | with one such call a state is reached in which a sixth read of one trigger has failed |
| `BillingTriggers.OneReadFollows` | src/tier/billing-reads.ts:182-201 | however many triggers came during a read, exactly one read follows it |
| `BillingTriggers.StartsAreSingle` | src/tier/billing-reads.ts:163-202 | a read starts only when none is in flight, so only the newest start can be running |
| `BillingTriggers.AnswersAreFresh` | src/tier/billing-reads.ts:94-104 | every answer of `read` is the outcome of a read that had not started when the call was made |
| `BillingTriggers.CallsAreAnswered` | src/tier/billing-reads.ts:182-201 | only a crash loses a waiting call |
| `BillingTriggers.CountStaysInARowIff` | src/tier/billing-reads.ts:254-270 | the queue counts failures in a row until a success leaves a marked row that carries failures, and exactly then no longer |
| `BillingTriggers.GivesUpAfterFiveInARowIff` | src/tier/billing-reads.ts:49-51 | a drop means five failures in a row if and only if the count was right |
| `BillingTriggers.DropsInARowIff` | src/tier/billing-reads.ts:49-51 | the same of every drop of any run |
| `BillingTriggers.CountInARowOverRuns` | src/tier/billing-reads.ts:49-51 | over any run without such a success every drop is a fifth failure in a row |
| `BillingTriggers.FifthFailureNeedNotBeInARow` | src/tier/billing-reads.ts:254-270 | a reachable state in which a trigger is dropped at its first failure, right after a success |
| `BillingAccounts.FollowMergeIff` | src/tier/revenuecat.ts:47-56 | a live account is found if and only if a chain of at most eight rows leads to it |
| `BillingAccounts.ResolveIff` | src/tier/revenuecat.ts:62-68 | a customer id leads to an account over at most eight rows, from the account it is linked to or else its own name |
| `BillingAccounts.HighestEntitled` | src/tier/revenuecat.ts:78-81 | the best tier among an account's rows |
| `BillingAccounts.EndReadIsFair` | src/tier/billing-reads.ts:318-330 | after a read the account's tier is no lower than any row that pays for it, fell if and only if it was above them all and the written row was a source of it that went down, moved only to what some row pays for, and no other account moved |
| `BillingAccounts.EndLateReadIsFair` | src/tier/billing-reads.ts:318-330 | the same after a read of a dead process |
| `BillingAccounts.EventIsFair` | src/tier/revenuecat.ts:112-155 | the same after an event on a relay that does not read the store |
| `BillingAccounts.SweepIsFair` | src/tier/reconcile.ts:127-155 | the same after the daily sweep |
| `BillingRuns.EventQueuesReads` | src/tier/revenuecat-trigger.ts:63-102 | each named customer that resolves is linked and has a read queued, nobody else is touched |
| `BillingRuns.QueuedReadIsWanted` | src/tier/revenuecat-trigger.ts:91-100 | a queued event is a trigger: its customer is linked, and due or marked |
| `BillingRuns.RunKeepsFences` | src/tier/billing-reads.ts:225-335 | over any run of the whole relay every customer keeps its fence |
| `BillingRuns.RunKeepsTriggers` | src/tier/billing-reads.ts:81-202 | and, without late answers of dead processes, a trigger that is wanted is queued |
| `BillingRuns.RunTakesNothing` | src/tier/billing-reads.ts:204-222 | over any run whose reads fail, are disbelieved or carry unknown identifiers no tier falls and no pack goes |
| `BillingStores.NamedCustomers` | src/tier/revenuecat-trigger.ts:36-46 | every id an event names, each once, none empty |
| `BillingStores.WritePacks` | src/tier/billing-reads.ts:308-316 | the upserts and deletes leave exactly the listed packs, or the old ones too when the list is guarded |
| `BillingStores.BillingReads.Enqueue` | src/tier/billing-reads.ts:81-89 | the customer afterwards is the model's, every other customer as before |
| `BillingStores.BillingReads.Read` | src/tier/billing-reads.ts:94-104 | the same for a direct call |
| `BillingStores.BillingReads.Link` | src/tier/billing-reads.ts:132-143 | the same for linking, the count carried over |
| `BillingStores.BillingReads.Due` | src/tier/billing-reads.ts:145-150 | exactly the rows that are due or marked, in the order of the query |
| `BillingStores.BillingReads.Apply` | src/tier/billing-reads.ts:272-335 | the same for writing a result, the account's tier included |
| `BillingStores.BillingReads.EndRead` | src/tier/billing-reads.ts:204-222 | the whole system afterwards mirrors the model's |
| `BillingStores.BillingReads.Settle` | src/tier/billing-reads.ts:182-201 | the same for the promise settling |
| `BillingStores.BillingReads.Restart` | src/tier/billing-reads.ts:68-75 | a new process keeps the tables and none of the memory |
| `BillingStores.BillingReads.QueueReadsForEvent` | src/tier/revenuecat-trigger.ts:63-102 | the loop over an event's customers reaches the model's state |
| `AccountChains.LiveAccountIff` | src/v1/accounts.ts:64-72 | following tombstones finds a live account if and only if a chain of at most eight of them ends at it |
| `AccountChains.LiveIff` | src/v1/accounts.ts:64-72 | the same for the bound the code has, eight |
| `AccountChains.FamilyIff` | src/v1/accounts.ts:397-407 | the family is the account and exactly those whose chain of at most eight tombstones ends at it |
| `AccountForest.ChainsAreAcyclic` | src/v1/accounts.ts:133-136 | no chain of tombstones visits an account twice |
| `AccountForest.JoinKeepsInv` | src/tier/devices.ts:76-82 | a join token opens a live account and joining keeps the forest |
| `AccountForest.LinkKeepsInv` | src/v1/accounts.ts:155-209 | linking keeps the forest, and devices and identities on live accounts |
| `AccountForest.SwitchKeepsInv` | src/v1/accounts.ts:211-232 | switching does too |
| `AccountForest.MergeKeepsInv` | src/v1/accounts.ts:301-391 | merging does too |
| `AccountForest.InvReferenced` | src/v1/accounts.ts:61-77 | tombstones, devices and identities always name accounts that exist |
| `AccountForest.RegisterKeepsInv` | src/tier/devices.ts:84-92 | registering a new account with its first device keeps the forest |
| `AccountAnswers.LinkAnswers` | src/v1/accounts.ts:155-209 | the outcome matrix of linking, row by row: what is answered and every row that changes, by whether the identity is known, who holds the account, the intent, and whether the account has topics or incidents |
| `AccountAnswers.LinkStrandsNothing` | src/v1/accounts.ts:194-208 | every topic that stood on a live account still does after a link, and so does the topic of every token |
| `AccountAnswers.SwitchAnswers` | src/v1/accounts.ts:211-232 | switching moves devices, identities and subscriptions, buries the account and revokes its topics' tokens, or is refused and changes nothing |
| `AccountAnswers.SwitchSilences` | src/v1/accounts.ts:133-135 | after a switch no token opens a topic of the account that was left, and every other token opens exactly what it did |
| `AccountAnswers.MergeAnswers` | src/v1/accounts.ts:273-391 | the answers of a merge in the order of its checks, and who and what moves when it is done |
| `AccountAnswers.MintAnswers` | src/v1/accounts.ts:529-533 | a minted join token opens the account instead of the one before |
| `AccountAnswers.RegisterAnswers` | src/tier/devices.ts:84-92 | a new account is free, live and open to its token, with its first device on it |
| `AccountAnswers.InsertAnswers` | src/tier/devices.ts:46-54 | a device is taken in while its account has fewer than five, and rings for exactly its topics |
| `AccountAnswers.CreateAnswers` | src/v1/topics.ts:32-50 | a topic is made if its name is 1 to 64 letters, digits, dashes or underscores and new to the account; its token opens it and every device rings for it |
| `AccountMerge.HashFixesName` | src/v1/topics.ts:41 | equal topic hashes mean equal names and base URLs |
| `AccountMerge.OneTaker` | src/v1/accounts.ts:312-317 | matching on hash or name finds at most one survivor |
| `AccountMerge.FoldingKeepsTopics` | src/v1/accounts.ts:310-334 | names stay unique in every account however many topics have been folded |
| `AccountMerge.MergeKeepsPublishing` | src/v1/accounts.ts:309-336 | a token opens a topic name after a merge if and only if it did before |
| `AccountMerge.MergeLosesNothing` | src/v1/accounts.ts:309-336 | no token, incident or message is lost, each hangs on a topic of the same name, and names stay unique |
| `AccountMerge.HashesAreUnique` | src/v1/accounts.ts:312-317 | hashes are unique in an account because names are |
| `AccountMerge.MergeKeepsOneActive` | src/v1/accounts.ts:234-247 | folding topics never gives one two active incidents |
| `AccountMerge.MergeCovers` | src/tier/subscriptions.ts:16-22 | if the target's devices rang for all its topics, every device rings for all topics after the merge |
| `AccountPacks.BestEnds` | src/tier/packs.ts:80-91 | the loop keeps known packs, each with its latest end, no end date the latest |
| `AccountPacks.BestIsReported` | src/tier/packs.ts:64-92 | on an account's rows that is what the account reports |
| `AccountPacks.ReportIsUnique` | src/tier/packs.ts:64-92 | there is one right answer per pack |
| `AccountPacks.MergeJoinsPacks` | src/v1/accounts.ts:355-368 | a merged account reports of each pack the join of both sides at the same time |
| `AccountPacks.MergeAddsCounts` | src/v1/accounts.ts:370-379 | daily counts add up, nobody else's move |
| `AccountPacks.MergeRaisesTier` | src/v1/accounts.ts:341-353 | the survivor ends on the higher of its tier and what both sides' customer ids pay for |
| `AccountRuns.HopsAreNeverFelt` | src/v1/accounts.ts:61-77 | on accounts that devices, identities and join tokens name, `liveAccount` is the identity for any bound |
| `AccountRuns.StepKeepsGood` | src/v1/accounts.ts:155-391 | every step, publishing and the end of an incident among them, keeps the forest, the keys, one active incident a topic, and every device subscribed to its account's topics |
| `AccountRuns.RunIsGood` | src/v1/accounts.ts:155-391 | so does every run from an empty server |
| `AccountRuns.MergeLengthensNoChain` | src/v1/accounts.ts:302-304 | a merge leaves no tombstone pointing at the account it buries |
| `AccountChains.LeavingLengthensChains` | src/v1/accounts.ts:194-201 | linking and switching leave them: every chain that ended at the account that is left is one link longer |
| `AccountChains.ChainsGrowWithoutBound` | src/v1/accounts.ts:155-209 | chains of any length are reached from an empty server |
| `AccountChains.BoundIsFelt` | src/v1/accounts.ts:64-72 | after nine links `liveAccount` of the first account is a tombstone |
| `AccountChains.RingingRefusesMerge` | src/v1/accounts.ts:234-247 | a run after which a merge is refused because of an open incident |
| `AccountStores.AccountStore.FollowToLive` | src/v1/accounts.ts:64-72 | the loop is the model's following of tombstones |
| `AccountStores.AccountStore.AccountFamily` | src/v1/accounts.ts:397-407 | the loop is the model's family |
| `AccountStores.AccountStore.MoveDevicesOf` | src/v1/accounts.ts:113-120 | moving devices one by one reaches the closed form: new account, old subscriptions gone, one for each topic there |
| `AccountStores.AccountStore.FoldAll` | src/v1/accounts.ts:310-334 | the loop over topics reaches the closed form of repointed and folded topics |
| `AccountStores.AccountStore.Link` | src/v1/accounts.ts:155-209 | tables and answer are the model's, row by row of the outcome matrix |
| `AccountStores.AccountStore.Switch` | src/v1/accounts.ts:211-232 | tables and answer are the model's |
| `AccountStores.AccountStore.RefuseMerge` | src/v1/accounts.ts:273-295 | the checks before a merge, in their order |
| `AccountStores.AccountStore.Merge` | src/v1/accounts.ts:273-391 | tables and answer are the model's |
| `AccountStores.AccountStore.PacksFor` | src/tier/packs.ts:64-92 | for each known pack the reported answer, no end date when the configuration attaches it |
| `IncidentInvariant.PublishKeepsInv` | src/incident/service.ts:104-192 | publishing joins the pending incident of the topic or opens the only one, with a repeat one interval and an end `max_ring_s` away; its event carries the end of the stored window and rings unless somebody acknowledged |
| `IncidentInvariant.AcknowledgeKeepsInv` | src/incident/service.ts:194-209 | only an open incident of the account is acknowledged: its desk timer, exactly `desk_timer_s` away, is all that is left; not found and conflict change nothing |
| `IncidentInvariant.CloseKeepsInv` | src/incident/service.ts:211-225 | only an acknowledged incident of the account is closed, and no timer of it is left; not found and conflict change nothing |
| `IncidentInvariant.RingKeepsPace` | src/incident/service.ts:319-325 | a repeat inside the window keeps the pacing of the window |
| `IncidentInvariant.ProcessKeepsInv` | src/incident/service.ts:288-326 | a row of a scan, however stale and whatever the clock says, keeps the invariant and touches its own incident alone |
| `IncidentInvariant.PruneKeepsInv` | src/retention/prune.ts:22-52 | exactly the closed and expired incidents of the account that opened before the cutoff go |
| `IncidentScan.ScanIsSound` | src/incident/service.ts:266-326 | a scan emits at most one event per incident, leaves none open whose window was over when the query ran, and what rings names the end of a window that was not over; with a clock that runs back during the scan the same as of its earliest reading |
| `IncidentScan.OneEventPerScan` | src/incident/service.ts:266-326 | however the clock jumps, one event per incident |
| `IncidentScan.RepeatsFitOverRuns` | src/incident/service.ts:319-325 | over every run whose scans do not see the clock run back, with intervals of at least r seconds at most (max_ring_s - 1) / r repeats are emitted in one ringing window |
| `IncidentScan.StepKeepsInv` | src/incident/service.ts:104-326 | every step keeps the invariant, on any clock |
| `IncidentScan.RunKeepsInv` | src/incident/service.ts:104-326 | over every run, on any clock: at most one active incident a topic, timers exactly those of the state, the expiry at the end of the window, and emitted events that replay to the stored state |
| `IncidentHistory.RunIsStamped` | src/incident/service.ts:104-326 | over every run, on any clock: every time in an incident's row is that of the event it stands for, the repeat timer stands exactly one interval after the opening, reopening or last repeat, and the expiry `max_ring_s` after the window began |
| `IncidentHistory.ScanTells` | src/incident/service.ts:266-326 | what a scan returns is what the histories of its incidents gained, event for event |
| `IncidentHistory.RequestsTell` | src/incident/service.ts:104-225 | and so is what a request returns |
| `IncidentHistory.StaleRowDrops` | src/incident/service.ts:288-326 | a row that finds its incident in another state deletes exactly its own timer and tells nothing |
| `IncidentHistory.DueListInOrder` | src/incident/service.ts:266-276 | the list has ends of windows first, then desk timers, then repeats, each by time and id |
| `IncidentHistory.HandleCounts` | src/incident/service.ts:308-318 | only reopening inserts timers |
| `IncidentHistory.RunKeepsTimersApart` | src/incident/service.ts:266-326 | no two timers share an id over any run |
| `IncidentHistory.PatchSets` | src/v1/topics.ts:51-60 | a patch sets positive times and touches no incident |
| `IncidentRinging.RingsEveryInterval` | src/incident/service.ts:319-325 | scanned every second and not acknowledged, a window has rung exactly t / r times after t seconds, whatever else happens, and is due at the next whole interval |
| `IncidentRinging.WindowRings` | src/incident/service.ts:288-326 | the scan at the end of the window expires it after exactly (max_ring_s - 1) / r repeats |
| `IncidentServices.IncidentService.PublishCritical` | src/incident/service.ts:104-192 | tables and event are the model's |
| `IncidentServices.IncidentService.AcknowledgeIncident` | src/incident/service.ts:194-209 | tables and answer are the model's, not found and conflict included |
| `IncidentServices.IncidentService.CloseIncident` | src/incident/service.ts:211-225 | the same for closing |
| `IncidentServices.IncidentService.ProcessTimer` | src/incident/service.ts:288-326 | one row of a scan does what the model says |
| `IncidentServices.IncidentService.QueryDue` | src/incident/service.ts:266-276 | the list of due timers: each once, expiries first |
| `IncidentServices.IncidentService.ScanDue` | src/incident/service.ts:266-286 | the loop handles the list row by row |
| `RollingLimits.NoWindowExceedsTheLimit` | src/rate-limit.ts:15-53 | for any calls on a clock that does not run back, no window of any key holds more accepted calls than the limit |
| `RollingLimits.RefusedIffFull` | src/rate-limit.ts:30-52 | a call is refused if and only if `limit` calls of its key were allowed in the window that ends with it |
| `RollingLimits.CountsTheAllowed` | src/rate-limit.ts:15-53 | the log counts exactly the allowed calls, a refused one leaves no trace |
| `RollingLimits.AnswersAreUnique` | src/rate-limit.ts:15-53 | so no other answers refuse exactly at a full window |
| `RollingLimits.LiveOfLive` | src/rate-limit.ts:26-28 | what leaves the window never comes back into it |
| `RollingLimits.RollingLimit.Sweep` | src/rate-limit.ts:35-38 | dropping idle keys loses no time that is inside the window |
| `RollingLimits.RollingLimit.Allowed` | src/rate-limit.ts:30-40 | allowed if and only if the window holds fewer than `limit` calls of a log nobody sweeps |
| `RollingLimits.RollingLimit.Allow` | src/rate-limit.ts:48-52 | the same, and exactly an allowed call is added to that log |
| `Ipv6Text.SplitJoin` | src/relay/address.ts:47 | splitting undoes joining |
| `Ipv6Text.DottedReads` | src/relay/address.ts:7-12 | a dotted quad reads as its four octets |
| `Ipv6Text.EverySpellingIsRead` | src/relay/address.ts:31-55 | every spelling of section 2.2 of RFC 4291 (either case, leading zeros, any "::", dotted tail, zone) reads as its eight groups |
| `Ipv6Exact.ReadsExactlySpellings` | src/relay/address.ts:31-55 | a text is read as eight groups if and only if it is one of their spellings |
| `Ipv6Exact.JoinSplit` | src/relay/address.ts:47-51 | joining undoes splitting, and no part holds the separator |
| `Ipv6Exact.HexDigitIs` | src/relay/address.ts:43 | a hex digit of either case counts what its place in the alphabet says |
| `Ipv6Exact.FieldIs` | src/relay/address.ts:43 | a field is one to four hex digits |
| `Ipv6Exact.FieldValue` | src/relay/address.ts:43 | each digit counts sixteen times the one after it |
| `Ipv6Exact.OctetIs` | src/relay/address.ts:7-12 | an octet is one to three decimal digits, up to 255 |
| `Ipv6Text.ReadsWhatIsPrinted` | src/relay/address.ts:31-55 | every eight groups printed with any run of zeros shortened, dotted or not, are read back |
| `Ipv6Text.EmbeddedGivesOctets` | src/relay/address.ts:57-60 | the octets of a dotted tail come back from the groups |

## Left out

- HTTP routers, body limits, configuration, command line, startup, logging and the wording of answers: plumbing.
- Push providers, the store's paging (`readStore`), the identity provider, provider token revocation: arbitrary answers.
- SHA-256 collisions and repeated random ids; the HMAC check id of a push is the round's id.
- Real-time timers and pauses between two reads or pushes: a step may come at any time.
- `slotFor`: the hash of a device id is an arbitrary second of the week, carried in the id.
- Of a device the check reads one push token; the alarm token that may override it is the same field. Platform and push environment are not modelled.
- The scan's time budget of `CheckScheduler.scan` and its counters: stopping early is an arbitrary choice. A turn that throws (a database error) is not modelled.
- A database that fails between two statements of the billing queue (the two inner catch blocks of `start`), and an error in `takeNumber`; a write of a result that throws is modelled.
- After a process dies, what its late read does besides writing its result: it could start another read in that dying process.
- BillingTriggers.NoTriggerIsLost: speaks of one process at a time; a late read of a dead process may delete the row of a newer trigger, so late reads are excluded here and allowed in the fence.
- BillingFence.FenceHoldsOverRuns: numbers of customer ids without a billing row start again once no read is out, so uniqueness is stated from the moment the row exists; a read from before a crash can end late only if the row existed.
- The `scan` and `scanAgain` bookkeeping of one scan at a time: any customer may be picked at any time, which covers it.
- Audit rows (`tier_changes`, `account_merges`, the event log beyond its ids) and log lines.
- `parseReadTrigger`, event parsing and `entitledTier` of the event path: the model takes the tier an event means.
- The cap on critical topics in `createTopic`, and the settings a topic carries beside its name and hash.
- `deleteAccount`, `findAccount`, deleting topics, tokens and devices on the account side: mostly cascades.
- The update path of `registerDevice` for a known device, `subscribeDevice` and `unsubscribeDevice`: a device that unsubscribes by itself is not covered by the subscription invariant.
- A moved device's subscriptions to hashes of other servers: a move drops them, so nothing is claimed for them.
- AccountRuns.HopsAreNeverFelt: for an arbitrary account id a chain can be longer than eight hops; the identity is claimed only for accounts that devices, identities and join tokens name.
- Texts, tags and ids of messages, and the message an incident event quotes.
- IncidentScan.RepeatsFitOverRuns: assumes no scan reads the clock earlier than its own query did; a repeat rescheduled from an earlier reading comes sooner than its interval. The invariant and the one event per incident need no clock.
- `DailyLimit`, `clientIp`, `clientKey`, `isPublicAddress`: table lookups and range tests.
- Live Activities, stats, cancel answers, publish header parsing.
