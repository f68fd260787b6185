# Remindo: a verified model of the reminder queue

Remindo is a Telegram reminder bot. A schedule on somebody's wall clock becomes instants of UTC, a planner turns
those into queue rows, a dispatcher sends them, a reaper expires and repeats them, and recipients answer them. This
project models that machinery in Dafny and proves what the program promises about it.

| file | what it holds |
|---|---|
| Zones | time zones as transition lists; local readings to instants and back |
| Schedules, Recurrence | the five schedule kinds, the calendar they need, their expansion into firing instants |
| Ordering | finite sets and sequences in order |
| Planning | one planner cycle, any number of them, and why they end |
| QuietHours | moving a delivery to the end of the silence |
| Decisions | the pure rules for retrying, sending, answering and sweeping |
| Store | the tables, and every transaction as a function on them |
| Runs | users, planner, dispatcher sessions, reaper and answers interleaved in any order |
| Steps, Invariants | one step seen from one row, and the invariant every step keeps |
| Guarantees, Journal, Attempts, Coverage | what holds over every run, over every orderly one, or over every steady one |
| Queue | the queue of deliveries column by column: what is claimed, and that whatever waits is claimed once due |
| Effects | what a caller gets from the transactions: when they are granted, what they write, undo, leave alone, and do twice |
| Findings | where the program falls short of its own words, and exactly when it does not |
| Witnesses | runs from empty tables in which it does |
| Services, Transactions | the same transactions as methods on mutable tables, loops and counters included |
| Cycles | whole worker cycles as runs |
| Digest, Stats, Categories, Agenda | the weekly digest, streaks and rates, category codes, the day view |

Instants are microseconds of UTC and readings are microseconds of the local clock, both unbounded integers. A zone is
a list of transitions at whole seconds with whole-second offsets strictly within a day of UTC; the two folds of a
reading follow PEP 495, section "Guidelines for New tzinfo Implementations". Transitions are far enough apart that the
readings one of them skips or repeats are over before the next one's begin, and no clock falls back by more than a day.
A forward jump can skip a whole day of the calendar.

Tables are maps over their unique keys. A run is a sequence of committed transactions under a clock that never goes
back, starting from empty tables. What a query would pick is any part of what its `WHERE` clause allows. A dispatcher
session claims a batch, reads the occurrences and recipients of all its rows once, and then sends and settles row by
row on what it has read: after that its own writes show to it and everybody else's do not. Any number of sessions run
at once, and a session can die at any point.

Three kinds of run:

- a run (`Runs.IsRun`) asks for no timing at all;
- an orderly run (`Runs.IsOrderlyRun`): a session is through with a row, or dead, before its lease runs out, and no tap
  on a row lands while that row is being sent;
- a steady run (`Runs.IsSteadyRun`): orderly, and no occurrence is closed between the moment a session reads it and the
  moment the session is through with it.

Most theorems are about all runs. Those that ask for more say so in their row, and `Findings.AnswerSticksExactly`,
`Guarantees.ClosedExactly`, `Guarantees.SilentExactly`, `Journal.SweepRecordsExactly` and
`Journal.SilencedOnceExactly` say over all runs exactly what happens otherwise.

A planner cycle looks at 3660 local days at most. Theorems that say "within the cap" ask that no cycle reaches further;
`Planning.NearHorizonWithinCap` and `Coverage.NearCyclesKeepCap` grant it, in every zone, to every cycle whose horizon
is at most ten years of 365 days past the start of the reminder or its watermark.

## What the code does differently from its own words

- The expansion silently stops after 3660 local days (app/domain/recurrence.py:37-38). `Recurrence.CapIsExact` says
  exactly for which ranges that loses nothing, and `Recurrence.CapLosesMoments` is the schedule that loses. A reminder restarted more than ten years after its start
  is where the planner meets it.
- "Offsets change on whole seconds, which makes an integer bisection exact" (app/domain/recurrence.py:61-63) is true of
  every whole-second reading; `Zones.FractionalReadingBeforeEpoch` is a fractional one for which it is not.
- Quiet hours can end inside the silence when a clock jump swallows the awake stretch (`QuietHours.SilenceIsKept`,
  `QuietHours.AwakeHourSkipped`), and the next-day fallback of app/domain/quiet_hours.py:60-64 is never reached
  (`QuietHours.ResolveEndShape`).
- "Adjacent windows therefore meet exactly" (app/domain/digest.py:53-55) fails when the digest hour is skipped by the
  clock (`Digest.WindowsMeetExactly`, `Digest.SkippedHourLost`); the digest looks a week too far back after the clock
  falls back over its moment to the day before (`Digest.LastMomentExactly`, `Digest.MidnightShownTwice`).
- The six-day prefilter (app/db/repositories/users.py:11-14) hides a digest that is due exactly when the offset gains a
  whole day in the week of the mark (`Digest.PrefilterIsExact`, `Digest.WholeDaySkipped`).
- "A done or skipped occurrence implies every delivery is terminal" (app/domain/reactions.py:88-90) does not survive a
  plan that restarts (`Findings.ReplanSettlesExactly`, `Witnesses.AnsweredUnsettled`). Nothing is sent because of it.
- `leave` takes back the queued rows of whoever it is called for but removes only watchers
  (app/services/sharing.py:188-196): `Findings.LeaveKeepsCoverExactly`, `Witnesses.OwnerLeaves`.
- A worker's verdict is written whatever happened to the row meanwhile (app/services/dispatching.py:142-168), so an
  answer given while the row is on the wire is lost: `Findings.AnswerSticksExactly`, `Witnesses.AnswerIsLost`.
- A session acts on the occurrence as it read it once for its whole batch (app/services/dispatching.py:84,
  app/db/session.py:25), so an occurrence the reaper has closed meanwhile is sent and reopened:
  `Guarantees.ClosedExactly`, `Guarantees.SilentExactly`, `Witnesses.ClosedReopens`. So the silence of a recipient can
  be recorded twice, or never: `Journal.SweepRecordsExactly`, `Journal.SilencedOnceExactly`,
  `Witnesses.SilenceRecordedTwice`, `Witnesses.SilenceMissed`.
- After a pause or an edit the plan restarts at the beginning of the reminder (app/domain/planning.py:68-89), so the
  rows are exactly the schedule's only without one (`Coverage.PlanIsExact`); with them, still nothing owed is missing
  (`Coverage.NothingOwedIsLost`).

## Model

| member | source | states |
|---|---|---|
| Zones.ToUtcExact | app/domain/recurrence.py:41-74 | A reading resolves to the first instant whose local clock is at or after it, in all three branches, exactly when truncating the lower end of the bisection does not carry it past the gap |
| Zones.ToUtcIsFirst | app/domain/recurrence.py:41-53 | For every whole-second reading that never happens: the result shows exactly the reading unless it is skipped, and a skipped one moves to the transition that skips it |
| Zones.ToUtcMonotone | app/domain/recurrence.py:41-53 | Later readings never resolve earlier |
| Zones.GapTransition | app/domain/recurrence.py:56-63 | A skipped reading belongs to one transition, which lies between the two candidate instants, is the first after the gap, and from which the clock never shows less again |
| Zones.FractionalReadingBeforeEpoch | app/domain/recurrence.py:65-66 | A fractional reading before 1970 for which the truncated bisection misses the end of the gap |
| Zones.FirstExistingMoment | app/domain/recurrence.py:56-74 | The loop ends, keeps the clock below the reading at its lower end and not below it at its upper end, and so finds a second in which the clock passes it |
| Zones.FallsBackOnce | app/domain/recurrence.py:108-112 | Between two instants the clock falls back across one transition at most, and by at most a day: why a margin of one day is enough |
| Calendar.DaysOfMonth | app/domain/recurrence.py:152-152 | From the first of any month the dates count up to the month's length |
| Calendar.DayOfDate | app/domain/recurrence.py:28-30 | A day has the date of the proleptic Gregorian calendar: the one whose ordinal, computed from year, month and day alone, is that many days after that of 1970-01-01 |
| Calendar.WeekdaysAdvance | app/domain/recurrence.py:124-127 | Weekdays follow each other and start over after Sunday; 1970-01-05 was a Monday |
| Recurrence.MonthlyFires | app/domain/recurrence.py:151-161 | A month has moments exactly on the days asked for, each pulled back to the last day or dropped when the month is too short |
| Recurrence.TimesOfDay | app/domain/recurrence.py:121-131 | On a day that fires, daily, weekly and monthly schedules fire exactly at the first instants the clock is at or after each of their times |
| Recurrence.DailyDays | app/domain/recurrence.py:120-123 | A daily schedule fires on 1970-01-01, and again exactly so many days after each day it fires, never in between |
| Recurrence.WeeklyDays | app/domain/recurrence.py:124-127 | A weekly one repeats after seven days, and in the week of Monday, 1970-01-05, fires exactly on the weekdays listed |
| Recurrence.FiresAgain | app/domain/planning.py:52-61 | Every schedule but `once` fires again after any instant |
| Recurrence.IntervalDay | app/domain/recurrence.py:133-148 | An interval window fires at its start and then exactly every so many minutes to its end, whatever the clock does meanwhile |
| Recurrence.WindowEndIsNext | app/domain/recurrence.py:133-136 | The window ends the next time the clock reads its end, over midnight if need be, a whole day later when that is also its start |
| Recurrence.DaysInOrder | app/domain/recurrence.py:97-103 | No instant of a later local day comes before one of an earlier day, interval windows over midnight included |
| Recurrence.MarginsSuffice | app/domain/recurrence.py:108-114 | Every day with an instant in the range is among the days looked at, up to the cap |
| Recurrence.EarlyBreak | app/domain/recurrence.py:102-105 | Stopping once the limit is in hand leaves the first `limit` instants as they are |
| Recurrence.ExpansionIsSound | app/domain/recurrence.py:77-105 | Nothing is returned that does not fire in the range, cap or no cap |
| Recurrence.ExpansionIsExact | app/domain/recurrence.py:77-114 | The expansion is exactly the first `limit` firing instants in `(after, until]`, strictly ascending, for every kind and zone, while the cap is not reached |
| Recurrence.CapIsExact | app/domain/recurrence.py:37-38 | Every schedule is expanded in full, for every limit, exactly when the range ends before the first local day past the cap |
| Recurrence.CapLosesMoments | app/domain/recurrence.py:110-112 | Otherwise midnight of that weekday, once a week, is a schedule that loses a moment |
| Recurrence.WithinSpan | app/domain/recurrence.py:110-112 | A range of at most 3660 local days always does |
| Recurrence.TenYearsWithinCap | app/domain/recurrence.py:110-112 | And so does any range of ten years less a week, in every zone |
| Recurrence.IntervalMoments | app/domain/recurrence.py:133-148 | The stepping loop computes the firing instants of an interval day |
| Recurrence.MonthlyMoments | app/domain/recurrence.py:151-161 | The loop over the wanted days computes those of a month |
| Recurrence.CollectDays | app/domain/recurrence.py:97-105 | The loop over days with its early break gives the same first `limit` instants as looking at every day |
| Recurrence.NextOccurrences | app/domain/recurrence.py:77-105 | The whole function computes the expansion the theorems are about |
| Planning.CycleInsertsNewRows | app/services/planning.py:113-118 | Without a reset no insert hits a row that is already there, so the count grows by exactly what was expanded |
| Planning.WatermarkCovers | app/domain/planning.py:92-112 | Everything owed up to the new watermark is materialised or over budget, whether or not the limit cut the window short |
| Planning.CycleIsExact | app/domain/planning.py:68-120 | A cycle within the cap keeps the materialised set exactly what the schedule owes up to the watermark, cut at `ends_at` and `max_occurrences`, and archives only when nothing is left |
| Planning.ArchivedExactly | app/domain/planning.py:115-120 | A cycle archives exactly when the budget is used up, the end is reached, or the schedule never fires again after the watermark |
| Planning.CycleGoesFar | app/domain/planning.py:84-110 | It gets to its horizon or the end, or writes 500 rows, or uses up the budget |
| Planning.IdleIsComplete | app/db/repositories/reminders.py:70-90 | Of an active reminder no longer due, everything owed up to the horizon is there or over the budget |
| Planning.VisitsAreExact | app/domain/planning.py:68-120 | So does any number of cycles under any horizons within the cap, from a fresh reminder on |
| Planning.NearHorizonWithinCap | app/domain/recurrence.py:37-38 | Within the cap, in every zone, is every horizon at most ten years past the start or the watermark |
| Planning.TenYearsOfVisits | app/domain/recurrence.py:37-38 | So is every cycle in the first ten years of a reminder |
| Planning.CycleMakesProgress | app/domain/planning.py:102-112 | A visited reminder stops being due or has fewer instants ahead of it |
| Planning.IdleExactly | app/db/repositories/reminders.py:70-90 | No work is left exactly when no reminder is due |
| Planning.PlannerCatchesUp | app/db/repositories/reminders.py:70-90 | Under a fixed horizon the planner reaches a state with nothing due, with batches of any size and windows truncated at 500, in at most as many cycles as there is work |
| Planning.BatchIsLeastPlanned | app/db/repositories/reminders.py:73-88 | A batch holds the least planned: never planned first, then by watermark, ties by id |
| Planning.NewIsPlannedSoon | app/db/repositories/reminders.py:73-88 | So nobody starves: a new reminder waits for no more batches than the new ones before it fill |
| Cycles.TablesCatchUp | app/services/planning.py:61-90 | And so it does on the tables: as many cycles of the service as there is work leave no reminder due |
| QuietHours.QuietReading | app/domain/quiet_hours.py:10-17 | Counted from an end of silence on any day, a reading is silent exactly in the last stretch before the next end, midnight crossed or not |
| QuietHours.SecondShowing | app/domain/quiet_hours.py:48-64 | When the clock has shown the end already and fallen back, the later offset gives its second showing, which is still ahead |
| QuietHours.ResolveEndShape | app/domain/quiet_hours.py:48-64 | The end resolved is always ahead, everything before it is below the end on the clock, and the next-day fallback is never taken |
| QuietHours.ShiftOfSilent | app/domain/quiet_hours.py:20-45 | A silent instant moves strictly later with nothing past the end of silence skipped over, and out of the silence exactly when it lands on a second showing or where its end of silence wakes up |
| QuietHours.ShiftContract | app/domain/quiet_hours.py:93-95 | The shift is the identity exactly outside the silence, and idempotent exactly when its result is not silent |
| QuietHours.SilenceIsKept | app/domain/quiet_hours.py:20-45 | In every zone, all results are outside the silence exactly when every end of silence wakes up, or is never waited for |
| QuietHours.AwakeHourSkipped | app/domain/quiet_hours.py:20-45 | A zone and an hour awake that it skips, where a delivery lands in the silence |
| QuietHours.LongAwakeStretch | app/domain/quiet_hours.py:20-45 | An awake stretch longer than every forward jump always wakes up |
| QuietHours.ShiftIsEarliest | app/domain/quiet_hours.py:20-45 | Everything skipped over is silent unless the clock fell back meanwhile |
| Retry.BackoffGrows | app/domain/retry.py:24-46 | The delay starts at half a minute, never shrinks, and stops at half an hour from the seventh failure on |
| Retry.BackoffDoubles | app/domain/retry.py:24-46 | And doubles from one failure to the next until then |
| Dispatching.ErrorTable | app/domain/dispatching.py:65-116 | Seen from before the claim charged the row: only transient failures are charged, only the fifth ends the row, a retry always lies ahead and after flood control by more than was asked, only a refusal by the user blocks them |
| Reactions.PostponeContract | app/domain/reactions.py:110-121 | A snooze is never due at once; it comes back at the end of the silence if the occurrence outlives that, and as asked otherwise |
| Sweeping.RepeatContract | app/domain/sweeping.py:34-65 | A repeat is granted exactly when asked for, due, within the budget and back before the lifetime ends, and then comes back now or at the end of the silence |
| Invariants.DropShrinks | app/db/repositories/occurrences.py:52-80 | Taking back unsent occurrences lowers the number of rows by exactly their number and leaves other reminders alone |
| Effects.TapCountsExactly | app/services/reactions.py:63-121 | A tap counts exactly when it is the recipient's own, on a delivery neither settled nor waiting out a snooze, under an occurrence open and alive, and pressable at all |
| Effects.AnswerWrites | app/services/reactions.py:136-158 | What an answer writes into the row, column by column |
| Effects.SnoozeReturns | app/domain/reactions.py:110-147 | A snooze comes back after the reminder's minutes, or at the end of the silence of whoever pressed it when the occurrence outlives that, and then outside the silence |
| Invariants.CycleKeepsBudget | app/domain/planning.py:84-89 | A cycle never takes a reminder over `max_occurrences`, even restarted over rows that are already there |
| Invariants.StepKeepsInv | app/services/dispatching.py:76-284 | Every step, whatever the timing, keeps the invariant: references, rows and flights next to their occurrences, coverage and budget |
| Invariants.RunKeepsInv | app/services/dispatching.py:76-284 | Hence it holds throughout every run |
| Steps.EveryRowSteps | app/db/repositories/deliveries.py:39-303 | In any run at all, a step rewrites a delivery in its one prescribed way, removes it only while pending, or inserts it fresh |
| Steps.EveryOccurrenceSteps | app/db/repositories/occurrences.py:25-135 | And removes an occurrence only while pending, inserts it pending, and otherwise moves only its status, or, in a sweep, its repeats within the budget |
| Guarantees.FlyingIsLocked | app/db/repositories/deliveries.py:66-69 | In every orderly run a row on the wire is locked for as long as it is there |
| Guarantees.LockedIsFlying | app/db/repositories/deliveries.py:66-69 | And until some worker crashes, a locked row is on the wire: `locked_until` tells which rows are |
| Journal.OneOutcome | app/services/reactions.py:63-169 | In every orderly run a delivery is answered at most once, `done` and `skipped` are exactly the rows with that answer in their journal, and silence is recorded only on sent rows past their lifetime |
| Journal.OneOutcomeInTime | app/services/reactions.py:63-169 | In every steady run a delivery has at most one outcome in all, and a recorded silence is exactly a sent row under an expired occurrence |
| Journal.OutcomesAreFinal | app/db/repositories/occurrences.py:52-80 | After any orderly run, and in every continuation whatever its timing, a row with an outcome is never removed by pauses, edits, departures or anything else and keeps everything it says; only further silences can be added |
| Journal.SilenceIsRecorded | app/services/dispatching.py:217-232 | In an orderly run in which no sweep expires an occurrence held open by a session, it has one silence for each message unanswered when it expired, and none before |
| Journal.SweepRecordsExactly | app/services/dispatching.py:217-232 | What a sweep records of an occurrence stays one silence for each unanswered message exactly when no session holds it open as it expires; an orderly continuation is enough to spoil it |
| Journal.RecordedExactly | app/services/dispatching.py:84-168 | After any orderly run, exactly when no session can still send under what it has read |
| Journal.SilencedOnceExactly | app/services/dispatching.py:217-232 | After any orderly run, once a silence is recorded for a delivery, no other ever follows exactly while the occurrence is closed and no session believes it unsent |
| Guarantees.ClosedExactly | app/services/dispatching.py:84-168 | Over all runs: a closed occurrence stays closed exactly when no session read it before anything was sent for it and is still to settle a row of it |
| Guarantees.SilentExactly | app/domain/dispatching.py:54-62 | Over all runs: nothing goes out for a closed occurrence exactly when no session read it while open and is still to settle a row of it |
| Guarantees.ClosedForGood | app/domain/reactions.py:155-165 | So after every steady run what is closed neither reopens nor is sent for, in any continuation |
| Guarantees.NothingBeforeItsMoment | app/db/repositories/deliveries.py:52-65 | In any run no message goes out before the moment of its occurrence |
| Guarantees.NothingSentEarly | app/db/repositories/deliveries.py:52-65 | In every orderly run none goes out before the delay of its retry or the end of its snooze, or to somebody the session read as having blocked the bot |
| Journal.WaitingUnderClosed | app/domain/dispatching.py:54-72 | In every orderly run, under an answered occurrence a delivery is settled or still pending, and a pending one can only be given up or removed |
| Guarantees.LeaseIsExclusive | app/db/repositories/deliveries.py:50-79 | In any run, from its claim until it is applied, answered or run out, no claim returns the row and no sweep frees it |
| Guarantees.ClaimHoldsLease | app/db/repositories/deliveries.py:66-69 | A claim starts such a lease |
| Attempts.CounterIsFaults | app/domain/dispatching.py:65-116 | In orderly runs while no worker crashes, the counter of an open row is the number of transient failures since its last success, plus a claim in the air, and below the limit |
| Attempts.FifthFaultFails | app/domain/retry.py:15-46 | A transient failure requeues the row with the growing delay four times and fails it the fifth |
| Attempts.SweepSpendsOneRepeat | app/services/dispatching.py:250-284 | A sweep raises the repeats of an occurrence by one exactly when it requeues at least one of its deliveries |
| Attempts.RequeuedInTime | app/domain/sweeping.py:34-65 | What it requeues is due between now and the end of the lifetime, and outside the recipient's silence |
| Attempts.MessagesAreAskedFor | app/services/dispatching.py:76-284 | In every orderly run, since its row was inserted, a recipient gets at most one message of an occurrence, one more per snooze they asked for, and `max_repeats` more |
| Attempts.RepeatsWithinBudget | app/db/repositories/deliveries.py:220-255 | `max_repeats` is never exceeded, in any run |
| Coverage.EveryPlanSteps | app/services/planning.py:92-132 | Only its own cycles move a reminder's plan, apart from pauses and edits |
| Coverage.PlanIsExact | app/services/planning.py:61-132 | In any run whose cycles for this reminder stay within the cap, until a pause or an edit of it, whatever else happens in between, the occurrence rows are exactly what the schedule owes up to the watermark |
| Coverage.RowsAreOwed | app/services/planning.py:61-132 | Column by column: every occurrence row lies between start and end of its reminder, where the schedule fires in its zone |
| Coverage.OwedHaveRows | app/services/planning.py:61-132 | And every such instant up to the watermark has its row, but for a budget used up |
| Coverage.NearCyclesKeepCap | app/services/planning.py:61-132 | A cycle stays within the cap when its horizon is at most ten years past the start or the watermark |
| Coverage.CycleMissesNothing | app/domain/planning.py:68-120 | A cycle within the cap that restarts over existing rows still leaves nothing owed out, within the budget |
| Coverage.NothingOwedIsLost | app/services/reminders.py:134-220 | With pauses, resumes and edits anywhere, and cycles within the cap, every instant owed up to the watermark has its row, and once archived every one there will ever be, unless the budget is used up |
| Coverage.CycleInserts | app/services/planning.py:142-158 | A cycle inserts one pending occurrence for each expanded instant that had none; it fires there or at the end of the owner's silence, and lives its whole lifetime from there |
| Coverage.EveryRecipientIsQueued | app/services/sharing.py:161-253 | In any run the owner and every watcher who accepted have a row, pending and unsent, for everything still ahead |
| Coverage.BudgetIsKept | app/services/reminders.py:211-220 | `fired_count` is the number of rows, `max_occurrences` holds, and the clamp at zero never bites |
| Findings.AnswerHoldsExactly | app/services/dispatching.py:142-168 | An answer lasts through every continuation exactly while no session holds the row it was given on |
| Findings.AnswerSticksExactly | app/services/dispatching.py:142-168 | So a tap on done or skip lasts exactly when it did not land while the row was being sent |
| Findings.UnlockedAnswerSticks | app/services/reactions.py:63-121 | After an orderly run without crashes, that is exactly when `locked_until` was empty, a column the tap could look at |
| Findings.LeaveKeepsCoverExactly | app/services/sharing.py:188-196 | `leave` keeps everybody covered exactly when not called for the owner of a reminder with something ahead |
| Findings.ReplanSettlesExactly | app/domain/reactions.py:88-90 | Answered occurrences stay settled through a cycle exactly when it does not come back to one for a recipient without a row |
| Witnesses.AnswerIsLost | app/services/dispatching.py:142-168 | An orderly run leads from empty tables to a tap on done that counts while the row is sent again, and does not last |
| Witnesses.ClosedReopens | app/services/dispatching.py:84-166 | An orderly run leads from empty tables to an occurrence the reaper has closed under a session that still sends it |
| Witnesses.SilenceRecordedTwice | app/services/dispatching.py:217-232 | An orderly run leads from empty tables to a delivery with two silences in its journal |
| Witnesses.SilenceMissed | app/services/dispatching.py:217-232 | And another one to a message that goes out as its occurrence expires, whose silence is never recorded |
| Witnesses.AnsweredUnsettled | app/domain/reactions.py:88-90 | Empty tables lead, through a watcher, a pause and a resume, to a cycle that queues a delivery under a done occurrence |
| Witnesses.OwnerLeaves | app/services/sharing.py:188-196 | Empty tables lead to an owner for whom the service, if called, takes away their own row for something still ahead; no screen offers it, so the call itself is no step of a run |
| Services.DispatchingService.SelectDue | app/db/repositories/deliveries.py:52-79 | The rows pending or snoozed, due, and without a live lease: all of them if they fit, and otherwise the first by due time and then by id, in queue order, without repetition |
| Queue.RequeuedIsTaken | app/db/repositories/deliveries.py:52-65 | A delivery taken back for a repeat is in every claim from its repeat on that has room for all that waits |
| Queue.RefusedIsTaken | app/db/repositories/deliveries.py:52-65 | So is one that failed, after its delay, and one held back by flood control, a second after the time asked for |
| Queue.SnoozedIsTaken | app/db/repositories/deliveries.py:52-65 | So is a snoozed one, when the snooze is over |
| Queue.StaleIsTaken | app/db/repositories/deliveries.py:52-65 | So is one whose worker died, once the lease has run out |
| Queue.FreshIsTaken | app/db/repositories/deliveries.py:52-65 | And a new one, from its moment on |
| Services.DispatchingService.ClaimDue | app/db/repositories/deliveries.py:50-79 | Exactly the batch is leased and charged |
| Effects.AttemptTable | app/domain/dispatching.py:54-116 | What becomes of a row by what was read and what the network said: nothing goes out without context, for a closed occurrence or to a blocked user, and none of these costs an attempt |
| Effects.ViewIsTables | app/db/repositories/deliveries.py:80-100 | What a session reads is what the tables say |
| Services.AloneIsUpToDate | app/services/dispatching.py:76-97 | Reading once is harmless while nobody else writes: through its whole batch the session acts on what the tables say |
| Services.StatusesAreRows | app/services/dispatching.py:76-97 | A row is counted under the status it is left with |
| Effects.VerdictOnRow | app/services/dispatching.py:142-168 | A verdict frees the row, keeps what its recipient has answered, counts as sent exactly when the message went out, and gives another try only later |
| Effects.AttemptTouchesOnly | app/services/dispatching.py:142-168 | Of everything else an attempt touches two columns at most: the recipient is blocked exactly when they refused, the occurrence sent exactly when the message went out under one read as still to be sent |
| Effects.MovesOnExactly | app/services/dispatching.py:164-166 | Which is an occurrence read as pending or dispatching, to somebody not blocked, and still there |
| Services.DispatchingService.DeliverRow | app/services/dispatching.py:99-140 | One attempt on what the session has read: abort, success and the error table |
| Services.DispatchingService.Deliver | app/services/dispatching.py:76-97 | A cycle reads its context once, settles its batch row by row in order, its own writes showing in later rows, and counts every row under exactly one heading |
| Services.ReaperService.ExpireOverdue | app/services/dispatching.py:217-232 | Closes exactly the overdue ones of the batch and records silence once for each message still unanswered |
| Effects.ExpiresExactly | app/domain/sweeping.py:23-31 | Overdue is what is open and past its lifetime, whether or not anything was sent |
| Services.ReaperService.RepeatUnanswered | app/services/dispatching.py:250-284 | Requeues exactly the candidates the domain accepts, on a budget read once, and spends one repeat per occurrence |
| Effects.RepeatsExactly | app/db/repositories/deliveries.py:220-255 | Which candidates those are, column by column, and that they wait for the end of their own recipient's silence |
| Services.ReaperService.FreeStaleLocks | app/db/repositories/deliveries.py:292-303 | Frees exactly the queued rows whose lease had run out, touches nothing else, and counts them |
| Services.ReaperService.SweepOnce | app/services/dispatching.py:203-215 | The three passes in order are the sweep the theorems are about |
| Services.RepeatNext | app/services/dispatching.py:275-281 | The set of bumped occurrences is what keeps a shared occurrence from being charged twice |
| Transactions.ReactionsService.React | app/services/reactions.py:63-121 | Every branch of a tap, with its row, journal line and roll-up |
| Effects.TapClosesExactly | app/services/reactions.py:124-169 | A tap rewrites its own row alone and closes the occurrence, with its own kind, exactly when nothing of it is left open; refused, it writes nothing |
| Effects.AnsweredRefuses | app/domain/reactions.py:70-107 | Once answered, every further tap is refused, whatever it is and whenever it comes |
| Effects.DropExactly | app/db/repositories/occurrences.py:52-80 | An occurrence is taken back exactly when it is pending and so is every delivery of it; its deliveries go with it, the plan starts over, and nothing else changes |
| Effects.DropTakesUnsentOnly | app/services/reminders.py:211-220 | In any run, what a pause or an edit takes back has never gone out or been answered, a delivery goes exactly when its occurrence does, and the rest is left as it was |
| Effects.DropTwice | app/services/reminders.py:211-220 | Taking back twice is taking back once |
| Effects.StatusExactly | app/services/reminders.py:134-141 | A granted change of status is stored; leaving `active` takes back what waits, and then no pending occurrence has all its deliveries pending |
| Effects.EditableExactly | app/services/reminders.py:105-132 | Only the owner may edit, until the reminder is archived |
| Effects.StatusContract | app/services/reminders.py:134-141 | Refused, nothing changes; granted, a second call adds nothing, a paused or archived reminder is never due, and an archived one can never be changed again |
| Effects.RescheduleExactly | app/services/reminders.py:194-209 | A new schedule is stored exactly when the owner may edit and it fires within 366 days; then the plan starts over with it and nothing of the old one waits |
| Transactions.RemindersService.Reschedule | app/services/reminders.py:194-209 | A schedule with nothing ahead is refused before anything is written |
| Effects.InviteExactly | app/services/sharing.py:106-147 | A pending watcher is added exactly when the user is no recipient yet and fewer than ten watchers are |
| Effects.OpenTwice | app/services/sharing.py:106-147 | Opening an invitation again changes nothing, and no row that is there is ever touched |
| Effects.TenWatchersAtMost | app/services/sharing.py:106-147 | No run leaves a reminder with more than ten watchers, pending ones included |
| Transactions.SharingService.Accept | app/services/sharing.py:161-181 | Accepting backfills what is queued ahead, and a second press changes nothing |
| Effects.AcceptExactly | app/db/repositories/occurrences.py:82-99 | What that is, row by row: exactly the pending occurrences whose moment is still to come |
| Effects.LeaveContract | app/services/sharing.py:188-196 | Leaving takes back exactly what is waiting for the user, leaves everybody else and the occurrences alone, and a second call does nothing |
| Effects.InvitedAndLeft | app/services/sharing.py:106-196 | An invitation opened, accepted and left at once leaves the tables as they were |
| Transactions.PlanningService.MaterializeReminder | app/services/planning.py:92-132 | One reminder's rows, deliveries, watermark, count and archiving, and how many rows were new |
| Effects.CycleQueues | app/services/planning.py:160-177 | A cycle queues each expanded instant for the owner and the watchers who accepted, and for nobody else, due at its moment |
| Transactions.PlanningService.Materialize | app/services/planning.py:61-90 | The loop over the batch, and its counters of new occurrences, new deliveries and archived reminders, all exact |
| Cycles.DispatcherCycleIsRun | app/services/dispatching.py:76-97 | A dispatcher cycle as the service runs it, among any other sessions, is a run of the program; when it ends before any lease does it is a steady one |
| Cycles.PlannerCycleIsRun | app/services/planning.py:61-90 | So is a planner cycle, in which every due reminder gets exactly one plan cycle whatever its place in the batch |
| Cycles.SweepIsStep | app/services/dispatching.py:203-215 | And a sweep, which is one step |
| Effects.StepsAreTransactions | app/services/dispatching.py:76-284 | And every step of a run does to the tables what the transaction of its service does |
| Effects.UsersAreFree | app/services/reactions.py:63-121 | Users may act at any moment of a run |
| Digest.LastIsShown | app/domain/digest.py:28-46 | What is found is always the latest digest moment not after now among the days up to the one the clock shows |
| Digest.LastMomentExactly | app/domain/digest.py:28-46 | In every zone, it is the latest of all exactly when the clock has not fallen back over a coming one to the day before |
| Digest.MidnightShownTwice | app/domain/digest.py:28-46 | A zone and an instant at which the digest of the week before is found instead |
| Digest.LateHourNeverFallsBack | app/domain/digest.py:28-46 | Which a digest hour no smaller than the largest backward jump rules out |
| Digest.WindowsMeetExactly | app/domain/digest.py:49-58 | Weeks meet exactly when the hour was not skipped further this week than last; always when it was not skipped |
| Digest.SkippedHourLost | app/domain/digest.py:49-58 | A zone and a week in which an hour is reported in neither digest |
| Digest.DueExactly | app/domain/digest.py:61-82 | In every zone, a digest is due exactly when it is the latest one the clock still shows, unmarked, and past the silence |
| Digest.VisitTable | app/services/digest.py:69-132 | What a visit leaves by its outcome: a failure that may pass leaves no mark, and only a refusal by the user blocks them |
| Digest.SentOnce | app/services/digest.py:69-132 | Whatever the network, the zone, the silence and the clock do, each weekly moment is sent at most once and never after a later one |
| Digest.MarkOnlyRises | app/db/repositories/users.py:71-74 | The mark never goes back |
| Digest.PrefilterIsExact | app/db/repositories/users.py:11-14 | After a digest the prefilter hides nothing that is due exactly when the offset gains less than a day before the next one |
| Digest.PrefilterSkipsNothing | app/db/repositories/users.py:43-69 | So over any history in one zone, visiting a user the prefilter leaves out would change nothing, unless the offset gained a day in the week of their mark |
| Digest.NarrowZoneGainsLittle | app/db/repositories/users.py:11-14 | Which never happens in a zone whose offsets have always been less than a day apart |
| Digest.WholeDaySkipped | app/db/repositories/users.py:11-14 | A zone that skips a whole day, where the prefilter still looks away as a digest comes due |
| Digest.DigestService.One | app/services/digest.py:69-132 | What each outcome does to the mark and the block, and how it is counted |
| Digest.DigestService.Run | app/services/digest.py:59-67 | Everybody in the batch is visited once, nobody else is touched, and the headings add up |
| Stats.CurrentStreak | app/domain/stats.py:122-132 | The days ending today or yesterday, as far back as they go |
| Stats.LongestStreak | app/domain/stats.py:135-146 | The length of the longest stretch of consecutive days |
| Stats.FirstDaysSuffice | app/domain/stats.py:138-139 | Skipping days that do not start a run loses no run |
| Stats.StreaksAreUnique | app/domain/stats.py:122-146 | Both are determined by the days alone |
| Stats.CurrentWithinLongest | app/domain/stats.py:122-146 | And the current one never exceeds the longest |
| Stats.CategoryStreaksWithin | app/domain/stats.py:84-119 | No category's streak exceeds the overall one |
| Stats.Breakdown | app/domain/stats.py:84-105 | One entry per category with an outcome, in the order of their ids |
| Stats.BuildSummary | app/domain/stats.py:64-81 | The summary of the outcomes in the journal |
| Stats.SummaryCounts | app/domain/stats.py:64-153 | The windows count done, skip and recorded silence, never a snooze; completed are those done, and the streaks are over the local days with one of these |
| Stats.EntryCounts | app/domain/stats.py:84-105 | A category has an entry exactly when it has an outcome, and the entry counts its own |
| Stats.SummaryIgnoresOrder | app/domain/stats.py:64-81 | The same history in any order gives the same summary |
| Stats.BreakdownAddsUp | app/domain/stats.py:84-105 | The categories' windows add up to the overall ones, totals and completions alike |
| Categories.CandidatesDiffer | app/domain/categories.py:89-92 | Different numbers give different codes, however the base is trimmed |
| Categories.SomeCandidateIsFree | app/domain/categories.py:89-94 | One more candidate than taken codes: some candidate is free |
| Categories.CandidateIsSlugExactly | app/domain/categories.py:90-91 | Of a slug, a candidate is a slug exactly while the number fits into the column |
| Categories.CandidateKeepsBase | app/domain/categories.py:89-91 | A base that fits is kept whole before the number, and one too long is cut at its end |
| Categories.NextFreeCode | app/domain/categories.py:81-94 | Always returns from its loop with the first free code of the series, a slug for a slug base |
| Categories.SlugifiedIsSlug | app/domain/categories.py:63-78 | Whatever is left of a title, its code is one the column accepts |
| Categories.SlugIsItsCode | app/domain/categories.py:63-78 | A title that is a code already is its own code |
| Categories.SlugKeepsWords | app/domain/categories.py:63-78 | A code spells the letters and digits of its title in order, all of them when they fit, or is the fallback |
| Agenda.FirstFireExactly | app/domain/reminders.py:203-222 | In every zone, a schedule is refused exactly when it does not fire within 366 days, and otherwise the first firing is shown |
| Agenda.FirstFireIsPlanned | app/domain/reminders.py:203-222 | The planner materialises the moment the card showed, before anything else, however far ahead it looks |
| Recurrence.FirstIsFirst | app/domain/recurrence.py:77-105 | Because a first firing within ten years is returned first, cap or no cap |
| Agenda.EveryInstantHasOneDay | app/domain/reminders.py:190-200 | Local days cut time into pieces without gap or overlap, and which piece an instant lies in |

## Left out

- Transport and screens: handlers, keyboards, rendering, text catalogues, dialogue states, message edits. A send is one
  of its possible results, and its message leaves together with the verdict on it.
- SQL and ORM mechanics: row locks, `SKIP LOCKED`, cascades, isolation finer than one transaction.
- Invitation tokens, their issue and expiry: opening a live invitation is one step.
- Deleting a reminder or an account, which cascades to everything below it. After one, an unfinished row is gone and an
  outcome with it.
- Ticks in which the digest has no room for a user are allowed, but the order of its batches is not modelled.
- The planner's batches are proved to end on values (`Planning.PlannerCatchesUp`), not on the mutable tables.
- Unicode: normalisation, case folding, transliteration and hashing of titles are given as their result; grapheme
  clusters of emoji are not modelled.
- Validation of schedules: their validated form is a subset type. Dates are not limited to the years a calendar library
  accepts, so an overflow at its edges is not modelled.
- Titles, notes, parsing of user input, onboarding, operations metrics, health checks, logging and configuration.
- Attempts.MessagesAreAskedFor: counts messages whose verdict was written, since the row was inserted. A worker that
  dies after sending leaves one more on the recipient's screen, which is what at-least-once delivery means, and whoever
  leaves while their row waits for a repeat, comes back and meets a plan that has restarted gets a new row.
- Attempts.CounterIsFaults: asks for a run without crashes, because a worker that dies leaves its charge on the row.
- Journal.OneOutcome: asks for an orderly run, because a verdict can overwrite an answer in any other
  (`Findings.AnswerSticksExactly`). Its silences are counted by `Journal.SilenceIsRecorded`.
