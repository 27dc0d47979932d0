# Trade journal: a verified model

A Dafny model of the asynchronous pipeline of a trade journal service. HTTP requests insert trades
into Postgres and publish one event per trade to a Redis stream. A worker reads the stream through a
consumer group and keeps five behavioural metrics per user: plan adherence, revenge trades,
overtrading, win rate by emotional state, and session tilt. A batch job computes the same metrics
from the trades table at boot. Delivery is at least once, every statement may fail or take effect
although its answer is lost, and requests run between any two statements of the worker.

To verify: `dafny verify dfyconfig.toml` (Dafny 4.11).

## How it is built

Values and queries
- `prelude.dfy`, `windowing.dfy`: filtering, sums, `ORDER BY`, `ROW_NUMBER` and `LAG` over one partition.
- `calendar.dfy`, `codec.dfy`: the text of a stream entry and how it is read back.
- `trades.dfy`: derived columns, rounding, and the event of a trade.
- `plan_adherence.dfy`, `session_tilt.dfy`, `revenge.dfy`, `emotion.dfy`, `overtrading.dfy`,
  `ledger.dfy`: each metric twice, as the worker and as the batch compute it, and how the two relate.
  `partitions.dfy`: the batch queries over the whole table against the same queries over one user or session.
- `store.dfy`: the tables, and each SQL write as an atomic change.
- `columns.dfy`: what each metric is, read off the columns of the table with the numbers and emotions of its
  definition written out, and none of the functions that model its queries.

State machines
- `delivery*.dfy`: the stream, its group and any number of consumers, one Redis command per step.
  `drain.dfy`: recovery of one consumer. `submissions.dfy`: concurrent requests.
- `pipeline.dfy`: requests, publish goroutines, the delivery protocol of one worker, and the
  calculators statement by statement, from the tables that the boot leaves. `consistency.dfy`,
  `quiescence.dfy`, `effects.dfy`, `completeness.dfy`, `reports.dfy`, `conservation*.dfy`,
  `revenge_counters.dfy` and `publishing.dfy` hold its invariants and theorems.

Code
- `running_system.dfy`, `calculators.dfy`, `consumer.dfy`, `worker.dfy`, `worker_loop.dfy`: the request
  handler, the producer, the calculators, the consumer and the worker loop as methods over mutable state.
  What Postgres and Redis answer to each statement is an input of the method that sends it (a `Result` is
  `Ok`, `Failed`, or `AppliedButFailed` for an answer that is lost), so each contract says exactly what the
  method leaves under those answers. Only what other requests do meanwhile is left open. A ghost history
  shows that every execution is a run of `pipeline.dfy`, and `guarantees.dfy` states the theorems of the
  state machine about the real fields.
- `detection.dfy`, `backfill.dfy`: the batch detector with its loops and its transaction, the whole
  backfill, and the boot that runs it.
- `migrations.dfy`: the migration runner.

Assumptions. Trades are only inserted; the revenge flag is a column of its own. Instants are integer
nanoseconds. Rows that tie in a sort key are ordered by their position in the table, for the live and
the batch queries alike. `pipeline.dfy` has one worker and starts from any seeded trades, or none, with
the metrics of a backfill that was completed or stopped after any of its statements; a seeded row brings
its own PnL and outcome. A session may be shared by two users: nothing in the code prevents it.

## Where the code differs from its own description

- `internal/worker/worker.go:36-38` speaks of parallel goroutines; `Run` handles messages one after another.
- "After maxDeliveries attempts" (`internal/worker/worker.go:8-12`) holds when no crash drops a message
  that was handed out. `DeliveryExact.DeadLetterAfterFive` gives the exact law, and
  `DeliveryWitness.DeadLetterWithoutAttempt` a run with no attempt at all.
- An event whose UTC year does not have four digits is written but cannot be read back, so it is
  acknowledged and lost (`Codec.TimeRoundTrip`, `Codec.FiveDigitYearRefused`).
- "Every trade in a session shares the same user_id" (`internal/metrics/repo.go:207-209`) is not
  enforced. Any two closed trades of two users reach such a session (`Quiescence.SharedSessionIsReached`),
  the tilt statement fails exactly then (`SessionTilt.ConflictExactly`) and for good
  (`SessionTilt.ConflictIsForever`), and so does the backfill.
- The counter of overtrading events can exceed the rows when a backfill commits between the two
  writes of a worker (`Ledger.SafeAfterBatch` says exactly when).
- "Running it twice produces the same end state" (`internal/metrics/backfill.go:21-22`) holds, but the
  gate at boot does not run it twice: a backfill that stopped after its first metric is never
  completed (`Backfill.StoppedBackfillIsResumed`, `Backfill.StoppedBackfillStays`).
- "trade.closed - the worker computes ... revenge-flag" (`internal/queue/queue.go:8-9`) is not what the
  worker does: it looks for losing closes when a trade opens (`internal/worker/worker.go:160-176`), and a
  trade that is submitted closed publishes its close alone (`internal/trades/handler.go:137-143`). Such a
  trade is never flagged (`Completeness.ClosedTradesAreNeverFlagged`, `Completeness.ClosedRevengeIsReached`),
  while the batch flags it (`internal/metrics/backfill.go:74-96`). `Completeness.MissedFlags` lists
  every cause for which a trade that the batch flags is not flagged.
- A tilt statement that keeps failing, as it does for a shared session, makes one trade count five times
  in the emotion counters (`ConservationWitness.FiveIncrementsAreReached`).
- The live overtrading detector looks back only from trades that are not closed, because a closed trade
  publishes its close (`internal/trades/handler.go:137-143`), and from the whole millisecond; the batch
  counts every entry. `Overtrading.LiveSeesExactly` says exactly when it reports, and
  `Overtrading.LiveNeverOverReports` that the batch then reports too.

## Model

| member | source | states |
|---|---|---|
| `DeliverySafety.NothingIsLost` | internal/queue/consumer.go:73-109 | On every run of any number of consumers, with crashes and lost answers, each entry appended since the group was created is in exactly one of: not delivered, pending, acknowledged |
| `DeliverySafety.AcknowledgedForAReason` | internal/worker/worker.go:124-151 | An entry is acknowledged only after a clean call of `process`, as malformed, as undecodable, or with a delivery count above the limit |
| `DeliveryBounds.AttemptBound` | internal/worker/worker.go:131-139 | With k consumers `process` is called for one entry at most maxDeliveries + k - 1 times, so five times for one consumer |
| `DeliveryWitness.AttemptBoundIsReached` | internal/queue/consumer.go:138-151 | For every k there is a run with exactly that many calls: each consumer can act once on a count it read before the limit was passed |
| `DeliveryWitness.DeadLetterWithoutAttempt` | internal/worker/worker.go:131-137 | A consumer that crashes before every call makes an entry a dead letter with no attempt |
| `DeliveryExact.AttemptsAreAccountedFor` | internal/queue/consumer.go:119-174 | One consumer: for a pending readable entry, calls, messages lost to crashes and the message in hand add up to its delivery count, capped at five |
| `DeliveryExact.DeadLetterAfterFive` | internal/worker/worker.go:8-12 | One consumer: a dead-lettered readable entry had exactly five calls less the deliveries lost to crashes, so five exactly when none was lost |
| `DeliveryLower.NoDeadLetterBeforeFive` | internal/worker/worker.go:131-137 | For any number of consumers a dead-lettered readable entry was handed out to be processed at least five times, so processed five times where no crash lost a message and nobody holds one |
| `Drain.RecoveryDrains` | internal/worker/worker.go:106-119 | With working acknowledgements and no new reads, each claimed message lowers the total weight of the pending list; claims are bounded by it and then nothing is pending, whatever fails |
| `Drain.ClaimPays` | internal/queue/consumer.go:138-151 | A claim of n entries lowers the weight by one for each entry below the limit; the others are handed out to be given up |
| `Pipeline.RefinesDelivery` | internal/worker/worker.go:58-101 | Every run of requests, goroutines and the worker drives the protocol through a run of its own, so its theorems carry over |
| `Quiescence.ScoreIsRightOrOutstanding` | internal/metrics/plan_adherence.go:16-44 | From any boot, in every reachable state a stored score equals the batch average of the last ten of all trades, or some rated closed trade that the user submitted since the boot has no completed event; only where the backfill stopped before the scores, and until the user submits such a trade, may it be missing instead |
| `Quiescence.TiltIsRightOrOutstanding` | internal/metrics/repo.go:210-240 | The same for session tilt; a shared session in which a trade was closed since the boot always has an outstanding trade |
| `Quiescence.SharedSessionIsReached` | internal/trades/handler.go:69-89 | Any two storable closed trades of different users with one session id, submitted one after the other, make the tilt statement fail |
| `Consistency.InvPlanWrite` | internal/metrics/plan_adherence.go:39-43 | The upsert of a score computed from an earlier table keeps the invariant although inserts landed in between |
| `Consistency.InvTiltStore` | internal/metrics/repo.go:210-240 | The tilt statement keeps the invariant, whether it fails, finds no row, meets two users, or stores |
| `Effects.FlaggedTradesDeserveIt` | internal/metrics/revenge_flag.go:53-68 | From any boot, in every reachable state each flagged trade exists and satisfies the batch predicate on the current table |
| `Effects.CounterLaw` | internal/metrics/overtrading.go:59-64 | From any boot, on every run a user's event rows are the counter, one while the second write is due, and one for each row that a failed write or a crash left uncounted; so the two are equal exactly when nothing is due and nothing was left behind |
| `Completeness.CompletedOpensAreFlagged` | internal/metrics/revenge_flag.go:43-68 | On every run, once an opened event of a trade was completed the trade is flagged if the user was upset and a losing close in the window was stored before it, through retries, crashes and failed statements |
| `Completeness.ClosedTradesAreNeverFlagged` | internal/worker/worker.go:178-197 | On no run is a trade flagged that was submitted closed since the boot |
| `Completeness.SeededFlagsExactly` | internal/metrics/backfill.go:69-96 | On every run a seeded trade is flagged exactly when the backfill came to set flags and the seeded trades by themselves justify it |
| `Completeness.MissedFlags` | internal/metrics/revenge_flag.go:22-68 | A trade that the batch flags and the tables do not was seeded without a seeded reason, or was closed when submitted, or has no completed opened event, or has only losing closes in its window that were stored after it |
| `Completeness.ClosedRevengeIsReached` | internal/trades/handler.go:137-143 | Any losing close followed by any upset trade that is submitted closed within its 90 seconds reaches a state where the batch flags the second and the tables do not |
| `Completeness.CompletedOpensAreCovered` | internal/metrics/overtrading.go:26-64 | On every run, once an opened event of a trade was completed, and the user's trades up to it put more than ten entries in the thirty minutes up to its whole millisecond, some event of the user ends in those thirty minutes |
| `Reports.RecordedEventsAreCrowded` | internal/metrics/overtrading.go:26-58 | From any boot, in every reachable state each event row counts more than ten trades of its user, no more than the table has in the thirty minutes up to its end, and the batch reports that user too |
| `Conservation.EmotionConservation` | internal/metrics/win_rate.go:16-34 | From any boot, each side of each bucket is the number of trades that the boot counted for it (all the seeded ones, unless its backfill stopped before the buckets) plus the increments made for exactly the entries that qualify; each entry makes at most five, and at least one when it had a clean call |
| `Conservation.EmotionBracket` | internal/metrics/repo.go:191-204 | Above what the boot counted, a counter lies between the qualifying entries with a clean call and five times all qualifying entries |
| `ConservationWitness.FiveIncrementsAreReached` | internal/worker/worker.go:186-196 | From any start and for any closed trade with an emotion and a readable event there is a run, its calls failing at the tilt statement, in which one entry adds five to one side |
| `RevengeCounters.RevengeConservation` | internal/metrics/revenge_flag.go:64-68 | From any boot, a revenge counter is what the boot counted plus the increments made for the user's opened entries; each entry makes at most five, none unless its trade is flagged, and at least one when it had a clean call and a losing close in the window was stored before its trade |
| `RevengeCounters.RevengeBracket` | internal/metrics/repo.go:157-166 | Above what the boot counted, a revenge counter lies between the completed entries that were due when their trade was stored and five times the entries whose trade is flagged |
| `Conservation.AtMostFiveTries` | internal/worker/worker.go:27-34 | One worker never processes an entry more than five times |
| `Publishing.AtMostTwoEvents` | internal/queue/producer.go:31-46 | However often a trade is submitted, at most two XADDs are sent for it and the stream holds at most as many of its events; for a seeded trade there are none |
| `Publishing.OwnEventsAreWellFormed` | internal/worker/worker.go:157-210 | No entry that the system wrote is malformed, each names a stored trade of that user and status, and none is dropped as poison |
| `Submissions.FirstWriteWins` | internal/trades/repo.go:68-81 | From any table and over every interleaving of requests the fetch never misses and all responses for an id carry one record; for an id stored before, that record and no insertion; for any other, exactly one insertion is reported unless that statement reported a failure |
| `Trades.Round8Near` | internal/trades/repo.go:178-187 | Rounding moves a value by at most 0.5e-8 |
| `Trades.Round8Exactly` | internal/trades/repo.go:178-187 | The rounded value is n units of the eighth place exactly for the whole number n nearest to the amount in those units, the further from zero of two equally near |
| `Trades.Round8Odd` | internal/trades/repo.go:178-187 | Rounding commutes with negation |
| `Trades.Round8Monotone` | internal/trades/repo.go:178-181 | Rounding is monotone |
| `Trades.Round8Idempotent` | internal/trades/repo.go:178-181 | Rounding twice is rounding once |
| `Trades.Round8Fits` | internal/trades/repo.go:178-181 | The 64-bit conversion does not overflow below 1e10, and exactly when it does |
| `Trades.DeriveOutcome` | internal/trades/repo.go:156-176 | Both derived columns are set exactly for a closed trade with an exit price; it is a loss exactly when (exit - entry) * quantity, or (entry - exit) * quantity for a short position, is at most -0.5e-8 |
| `Trades.StoredAmounts` | internal/trades/repo.go:156-176 | The stored row holds the submission as it came; the PnL of a closed long trade is within 0.5e-8 of (exit - entry) * quantity, of a short one of (entry - exit) * quantity, and the outcome is a loss exactly when that product is at most -0.5e-8; any other trade has neither |
| `Trades.DeriveFlipped` | internal/trades/repo.go:160-165 | The opposite direction negates the PnL, whose sign for each direction `Trades.StoredAmounts` fixes; the outcome flips exactly when the amount is not rounded to zero |
| `Trades.EventForReceived` | internal/trades/handler.go:137-151 | What the consumer makes of a trade's event: the right ids, opened or closed by status (cancelled is opened), its entry time cut to milliseconds, or undecodable exactly for a year without four digits |
| `Trades.EntryOfTrade` | internal/queue/producer.go:48-60 | The stream entry of a trade has exactly five fields: trade.closed for a closed trade and trade.opened for any other, texts that parse to its three ids, and the text of its exit time if closed, of its entry time if not |
| `Trades.OvertradingEventReceived` | internal/worker/worker.go:213-225 | The worker's notice is received as a notice of that user at the end of the window cut to milliseconds, or is undecodable for such a year |
| `Codec.TimeRoundTrip` | internal/queue/producer.go:57 | Reading a written timestamp gives the instant cut to milliseconds exactly when the UTC year has four digits, else it is refused (RFC 3339 section 5.6) |
| `Codec.WrittenForm` | internal/queue/producer.go:57 | Where each part stands in a written timestamp: four digits of year, two of month and day of the date with that day number, then hour, minute, second and millisecond of the day |
| `Codec.WrittenMarks` | internal/queue/producer.go:57 | Its length and the marks between the digits (section 5.6 of RFC 3339) |
| `Codec.TimeTextOfTruncated` | internal/queue/producer.go:57 | Writing the instant that was read gives the same text |
| `Codec.FiveDigitYearRefused` | internal/queue/consumer.go:183-186 | The first instant of year 10000 does not survive the round trip, the one before it does |
| `Codec.EventRoundTrip` | internal/queue/consumer.go:176-194 | Decoding a written event returns it with its time cut to milliseconds, or nothing |
| `Codec.ReencodeIsIdentity` | internal/queue/consumer.go:176-194 | Writing a decoded event gives the same entry again |
| `Codec.UuidRoundTrip` | internal/worker/worker.go:161-163 | The text of an id parses to that id |
| `Codec.UuidForm` | internal/trades/handler.go:146-148 | The text of an id is its 32 hexadecimal digits in order and in lower case, with dashes at positions 8, 13, 18 and 23 (section 3 of RFC 4122) |
| `Calendar.DateOfDayNumber` | internal/queue/producer.go:57 | The Gregorian date of a day number is the date whose day number it is |
| `Calendar.GregorianDays` | internal/queue/producer.go:57 | The lengths of months and years, the leap rule, and 146,097 days in 400 years, so the day numbers are those of the Gregorian calendar |
| `PlanAdherence.LiveIsBatch` | internal/metrics/backfill.go:115-139 | The last ten by ORDER BY and LIMIT and the rows with ROW_NUMBER up to ten give the same score |
| `Columns.ScoreOfLatest` | internal/metrics/plan_adherence.go:16-44 | What the score is, in columns: there are rated closed rows of the user, as many as exist up to ten and each once, such that no such row left out exits later than one of them, and the average times their number is the sum of their plan_adherence; without such rows there is no score |
| `PlanAdherence.OthersDoNotMatter` | internal/metrics/plan_adherence.go:17-24 | Rows that are not rated closed trades of the user do not change the score |
| `PlanAdherence.ScoreRange` | internal/metrics/plan_adherence.go:30-43 | With ratings from 1 to 5 the score (of the rows that `Columns.ScoreOfLatest` gives) lies between 1 and 5 and its window is the number of rated trades, at most ten |
| `Partitions.WholeScoreIsBatch` | internal/metrics/backfill.go:117-132 | Ranking the rows of all users with PARTITION BY and grouping by user gives each user the score of that user's rows alone |
| `SessionTilt.LiveIsBatch` | internal/metrics/backfill.go:168-197 | The query for one session and the partitioned query give the same row |
| `Columns.TiltOfLosses` | internal/metrics/repo.go:211-229 | What the tilt is, in columns: the total is the number of closed rows of the session, the loss-following trades are its closed rows with outcome loss, less one when the row with the greatest entry time and position is one of them, and the index times the total is that number |
| `Columns.TiltIsStored` | internal/metrics/repo.go:219-238 | No tilt is computed exactly for a session without closed rows, and its statement fails exactly when two closed rows of it have different users; the backfill fails exactly when some session has two such rows |
| `SessionTilt.TiltClosedForm` | internal/metrics/repo.go:211-229 | The loss-following trades are the losses, less one when the last trade is a loss (in columns: `Columns.TiltOfLosses`) |
| `SessionTilt.TiltRange` | internal/metrics/repo.go:221-229 | Before storage rounding the index lies between 0 and (n - 1)/n |
| `Partitions.WholeTiltIsBatch` | internal/metrics/backfill.go:170-190 | LAG over the rows of all sessions with PARTITION BY gives each session the tilt of that session's rows alone |
| `SessionTilt.ConflictExactly` | internal/metrics/repo.go:219-238 | The statement meets one session twice exactly when two users have closed trades in it |
| `SessionTilt.ConflictIsForever` | internal/metrics/repo.go:219-238 | Once two users have closed trades in a session its statement always fails |
| `Revenge.LiveIsBatch` | internal/metrics/revenge_flag.go:36-64 | For a trade that is not closed the live query, the batch predicate and "some losing close within 90 seconds" agree |
| `Columns.FlagOfLoss` | internal/metrics/revenge_flag.go:36-64 | What the flag is, in columns: the batch flags a trade exactly when its emotion is anxious or fearful and some row with another id and the same user is closed, has outcome loss, and exits 0 to 90 seconds before its entry; the live look exactly when the same holds of some row, whatever its id |
| `Revenge.BatchFlagGrows` | internal/metrics/backfill.go:74-96 | Later inserts never take a flag's reason away |
| `Revenge.BatchIsInWindow` | internal/metrics/backfill.go:74-96 | The batch flags a trade exactly when it is upset and some losing close of another trade of the user lies in the 90 seconds up to its entry (in columns: `Columns.FlagOfLoss`) |
| `Revenge.LateLossIsMissed` | internal/metrics/revenge_flag.go:43-53 | Of one look at an open: whatever is inserted after a look that found nothing, the batch flags the trade exactly when some of it is a losing close in the window (`Completeness.MissedFlags` has all causes over runs) |
| `EmotionStats.RecordCounts` | internal/metrics/repo.go:191-204 | An event adds one to its own side of its own cell and to nothing else |
| `Columns.CellOfEvent` | internal/metrics/repo.go:191-204 | In columns: an event adds one to the wins of the bucket of its user and emotion if its outcome is win, one to the losses if it is loss, and leaves every other number |
| `Columns.CellOfOutcomes` | internal/metrics/backfill.go:142-160 | In columns: the backfill stores for a bucket the number of closed rows of that user and emotion with outcome win, and the number with outcome loss |
| `EmotionStats.ExactlyOnceIsBatch` | internal/metrics/backfill.go:142-160 | When each closed trade is processed once, in any order, the counts equal the batch GROUP BY |
| `Overtrading.Slide` | internal/metrics/backfill.go:244-248 | The window loop drops exactly the leading entries older than thirty minutes and appends the new one |
| `Overtrading.DetectSpikes` | internal/metrics/backfill.go:240-264 | The loop emits exactly the rising edges of "more than ten entries in the last thirty minutes" |
| `Overtrading.SpikeCountIsEleven` | internal/metrics/backfill.go:250-259 | Every event reports eleven entries |
| `Overtrading.SpikesAreWindows` | internal/metrics/backfill.go:250-259 | Every event ends at an entry and starts at the first entry of the thirty minutes up to there |
| `Overtrading.AnchoredWindowsSuffice` | internal/metrics/backfill.go:240-264 | The loop emits something exactly when some closed thirty-minute interval, starting anywhere, holds more than ten entries |
| `Overtrading.EveryCrowdedCallIsCovered` | internal/metrics/overtrading.go:26-64 | In any order of calls, each that sees more than ten entries ends up covered by an event that ends in its window |
| `Overtrading.InOrderEventsAreSpaced` | internal/metrics/overtrading.go:45-58 | With anchors in order, recorded events are more than thirty minutes apart |
| `Overtrading.EventsPerSpan` | internal/metrics/overtrading.go:45-58 | Hence at most one event per thirty minutes of the span, plus one |
| `Overtrading.LiveAgreesWithBatch` | internal/metrics/overtrading.go:22-71 | On an in-order history of millisecond-aligned opens the live detector and the loop agree on whether, and on the end and count of the first event |
| `Overtrading.LiveReportsExactly` | internal/metrics/overtrading.go:22-71 | For any calls in any order, an event is recorded exactly when some call sees more than ten entries |
| `Columns.LookAtEntries` | internal/metrics/overtrading.go:26-58 | In columns: one call reports exactly when more than ten rows of the user were entered in the thirty minutes up to its instant and no event of the user ends there, and it reports that window with that number |
| `Overtrading.LiveSeesExactly` | internal/metrics/overtrading.go:26-64 | For any arrivals, aligned or not, in any order, the live detector reports exactly when some trade that is not closed, cut to its millisecond, sees more than ten of the entries so far in the thirty minutes up to it |
| `Overtrading.InOrderReportsExactly` | internal/metrics/overtrading.go:26-64 | The same for histories in which every entry is looked at |
| `Overtrading.LiveNeverOverReports` | internal/metrics/overtrading.go:26-40 | What the live detector reports, the batch reports too |
| `Overtrading.ClosedEntriesAreNotSeen` | internal/trades/handler.go:137-143 | Entries of closed trades alone are never reported live, however many |
| `Overtrading.UnalignedOpensAreMissed` | internal/metrics/overtrading.go:26-36 | An instance of the law: eleven opens at one instant are detected live exactly when it is a whole millisecond, and by the batch always |
| `Ledger.RewriteBalances` | internal/metrics/backfill.go:266-300 | After the batch commits every counter equals the user's rows and detections, in whatever order users were visited |
| `Ledger.CounterNeverExceedsRows` | internal/metrics/repo.go:169-188 | Under any interleaving, retry or failure between the two writes a counter never exceeds the rows |
| `Ledger.SafeAfterBatch` | internal/metrics/backfill.go:266-300 | After the batch commits the counter stays within the rows on every later run exactly when no writer of that user was between its writes |
| `Detection.ReportedIffCrowded` | internal/metrics/backfill.go:206-264 | The batch reports a user exactly when some closed thirty minutes hold more than ten entries of that user, whatever the order of the table |
| `Columns.ReportOfEntries` | internal/metrics/backfill.go:240-264 | In columns: the batch reports a user exactly when, for some instant, more than ten rows of the user were entered in the 1,800 seconds from it |
| `Detection.LiveImpliesBatch` | internal/metrics/backfill.go:206-264 | On one table in any order of arrival, a user whom the live detector reports is one whom the batch reports |
| `Detection.QueryEntries` | internal/metrics/backfill.go:207-212 | The rows of each user come in ascending entry order, users in some order |
| `Detection.GroupByUser` | internal/metrics/backfill.go:221-231 | The map holds for each user exactly that user's entries in row order |
| `Detection.DetectAll` | internal/metrics/backfill.go:233-264 | Visiting the map in any order, each user's event rows are the rising edges in that user's entries, and the counts their numbers for the users that have any |
| `Backfill.Database.InsertEvents` | internal/metrics/backfill.go:275-283 | All events are inserted in order; an error is reported exactly when one of the inserts fails |
| `Backfill.Database.UpsertCounters` | internal/metrics/backfill.go:289-299 | The counters are overridden by the counts, in whatever order the map is visited; an error is reported exactly when one of the upserts fails |
| `Backfill.Database.RewriteInTransaction` | internal/metrics/backfill.go:266-300 | Events and counters are rewritten together exactly when every statement succeeds and the commit takes effect, else neither changes; without an error exactly when that is also answered |
| `Backfill.Database.BackfillOvertrading` | internal/metrics/backfill.go:206-301 | The tables afterwards are the rewrite for the detections of the window loop exactly when the query, every statement and the commit take effect, else they are unchanged |
| `Backfill.Database.Exec` | internal/metrics/backfill.go:115-197 | A statement takes effect unless it fails; the tilt statement fails exactly when it is refused or two users share a session |
| `Backfill.Database.BackfillRevengeFlag` | internal/metrics/backfill.go:69-112 | The three statements take effect in order up to the first that fails; the error says exactly whether one did |
| `Backfill.Database.BackfillFromTrades` | internal/metrics/backfill.go:27-49 | The statements take effect up to the first that fails, all seven and without an error when none does; the tilts and what follows them only when no session is shared |
| `Backfill.Database.Boot` | cmd/api/main.go:66-76 | When some user has a score or a counter, or the query for that is not answered, the boot changes nothing, with an error exactly in the second case; otherwise the backfill takes effect up to its first failing statement, whole and without an error when none fails |
| `Backfill.FlagsAreExact` | internal/metrics/backfill.go:69-112 | Afterwards exactly the trades that satisfy the predicate are flagged and each counter is the number of them |
| `Backfill.ScoresAndTiltsAreExact` | internal/metrics/backfill.go:115-197 | Afterwards scores and tilts are those the live calculators compute; rows of others are as before |
| `Backfill.CellsAreExact` | internal/metrics/backfill.go:142-160 | Afterwards each side of each bucket with a counted trade holds the number of such trades |
| `Backfill.EventsAreExact` | internal/metrics/backfill.go:206-301 | Afterwards each user's event rows are exactly the spikes that the window loop finds in the user's sorted entries, and the counter is their number |
| `Backfill.BackfillIsIdempotent` | internal/metrics/backfill.go:21-22 | Running the backfill twice, the users visited in any two orders, leaves every table as once, and every user with the same events in the same order |
| `Backfill.StoppedBackfillIsResumed` | cmd/api/main.go:66-76 | A backfill that stopped half way is resumed exactly when it stopped before the first metric's counters, or there are no trades |
| `Backfill.StoppedBackfillStays` | cmd/api/main.go:66-76 | After a stop past the first metric, any number of later boots leave the tables as they are, tilts and events missing |
| `Backfill.OpenGateIsBare` | cmd/api/main.go:66-76 | Where no metric row exists after earlier boots, nothing but flags was written, so the next backfill starts afresh |
| `Backfill.SnapshotsExactly` | internal/metrics/backfill.go:54-60 | The gate is closed exactly when some user has a score, a revenge counter or an overtrading counter |
| `Backfill.BootStarts` | cmd/api/main.go:62-77 | After any number of boots, one that reports no failure leaves a start state of the theorems, and one that fails leaves what the next boot can start from |
| `Backfill.BootCompletes` | cmd/api/main.go:62-77 | A first boot without failure on seeded trades leaves the effect of every statement |
| `Backfill.EmptyIsBooted` | cmd/api/main.go:62-77 | Empty tables, when nothing is seeded, are a start state too |
| `RunningSystem.Cluster.constructor` | internal/queue/queue.go:63-75 | A new stream and group beside the booted tables is an initial state of the pipeline |
| `RunningSystem.Start` | cmd/api/main.go:62-88 | A service that starts, on seeded trades and whatever earlier boots left, begins in a start state of the theorems: with the whole backfill when the gate was open, else as it was left. It starts whenever the gate is closed and answered, or every statement is answered and no session is shared |
| `RunningSystem.Cluster.Insert` | internal/trades/repo.go:38-82 | The row is inserted only when the id is new; otherwise the stored record is returned; a failure returns nothing |
| `RunningSystem.Cluster.Create` | internal/trades/handler.go:69-92 | A publish goroutine starts exactly when the row is new and the statement reports success; the response is then the stored record, and nothing on a failure |
| `RunningSystem.Cluster.PublishOnce` | internal/queue/producer.go:31-64 | One XADD appends the goroutine's event exactly when it takes effect; the goroutine goes on exactly after a failed first attempt with time left |
| `RunningSystem.Cluster.IsReached` | internal/worker/worker.go:58-101 | Whatever the code did is a run of the pipeline that ends in the present state |
| `Calculators.SumRatings` | internal/metrics/plan_adherence.go:30-38 | The row loop computes the sum of the plan_adherence fields of the rows and their number |
| `Calculators.SetPlanAdherenceScore` | internal/metrics/repo.go:144-154 | The score is stored exactly when the statement takes effect; an error is reported exactly when it does not report success |
| `Calculators.RunPlanAdherence` | internal/metrics/plan_adherence.go:16-44 | The stored score is the batch average of a table seen during the call exactly when the query is answered, there is data and the upsert takes effect, else unchanged; the error is exact |
| `Calculators.RunWinRate` | internal/metrics/win_rate.go:16-34 | The row's own side of its own cell, if it has one, is one higher exactly when both statements take effect, and nothing else changes; the error is exact |
| `Calculators.UpsertEmotionStat` | internal/metrics/repo.go:191-204 | One side of one cell goes up by one exactly when the statement takes effect |
| `Calculators.RunSessionTilt` | internal/metrics/session_tilt.go:14-16 | The stored tilt is the batch tilt of a table seen during the call exactly when the statement takes effect; two users, or no success, make it an error |
| `Calculators.SetRevengeFlag` | internal/trades/repo.go:100-107 | The flag of that trade and no other is set exactly when the statement takes effect |
| `Calculators.IncrementRevengeCount` | internal/metrics/repo.go:157-166 | That user's counter goes up by one, and no other, exactly when the statement takes effect |
| `Calculators.LookForLosingClose` | internal/metrics/revenge_flag.go:43-61 | The flag is due exactly when the live predicate holds of the table at the query |
| `Calculators.RunRevengeFlag` | internal/metrics/revenge_flag.go:22-68 | Flag and counter are raised exactly when both queries are answered, a table seen during the call justifies it and each write takes effect; the error is exact |
| `Calculators.LookBack` | internal/metrics/overtrading.go:26-58 | The two reads find exactly what the live detector would report; they fail exactly when a read that is needed does |
| `Calculators.AddOvertradingEvent` | internal/metrics/repo.go:181-188 | Exactly that row is appended exactly when the statement takes effect |
| `Calculators.IncrementOvertradingCount` | internal/metrics/repo.go:169-178 | That user's counter goes up by one exactly when the statement takes effect |
| `Calculators.RunOvertrading` | internal/metrics/overtrading.go:22-71 | The live detection of a table seen is recorded, then counted, as far as the writes take effect; the error is exact; a recorded and counted one is in the stream as a notice when one of its XADDs takes effect, and a lost notice is no failure |
| `Calculators.Publish` | internal/queue/producer.go:31-46 | The notice costs one XADD, and one more exactly when the first is retried; it is in the stream when one of them takes effect |
| `Consumer.XAck` | internal/queue/consumer.go:31-33 | The entry leaves the pending list exactly when the command takes effect; an error is reported exactly when it is not answered with success |
| `Consumer.DecodeBatch` | internal/queue/consumer.go:90-107 | The messages are the decodable entries in order; of the undecodable ones exactly those whose acknowledgement takes effect leave the pending list |
| `Consumer.Read` | internal/queue/consumer.go:73-109 | The cursor moves by all that the stream holds, up to the count, exactly when the command takes effect; with an answer the messages are the readable ones of those, in order, each with count 1, and the pending list afterwards is given exactly |
| `Consumer.ListIdle` | internal/queue/consumer.go:120-127 | The lowest pending entries that are idle, in id order with their true counts: none is passed over, and there are fewer than `count` only when no more are idle |
| `Consumer.Collect` | internal/queue/consumer.go:138-143 | The loop collects the ids and a map from id to delivery count |
| `Consumer.XClaim` | internal/queue/consumer.go:145-173 | The ids that are still idle are taken over exactly when the command takes effect, their counts go up by one, messages carry the count of before, and of the undecodable ones those whose acknowledgement takes effect leave the list |
| `Consumer.ClaimStuck` | internal/queue/consumer.go:119-174 | The same for listing the lowest idle entries and claiming them; nothing changes when the listing fails or is empty |
| `Worker.ProcessClosed` | internal/worker/worker.go:178-197 | The failures counted are exactly those of the three calculators under the answers given, and the tables afterwards are exactly what their statements, as far as they take effect, leave |
| `Worker.CleanClosed` | internal/worker/worker.go:178-197 | Where that number is zero, all three metrics were brought up to tables seen during the call |
| `Worker.ProcessOpened` | internal/worker/worker.go:160-176 | The same for flag and detection; the notice is in the stream when one of its XADDs takes effect |
| `Worker.CleanOpened` | internal/worker/worker.go:160-176 | Where that number is zero, the flag and its counter were raised exactly when the losing closes seen called for it, and exactly the live detection of a table seen was recorded and counted; no flag but that trade's is raised |
| `Worker.Process` | internal/worker/worker.go:157-210 | Dispatch by type: the number of failures and the tables are those of the calculators of that type; malformed exactly for a malformed event, which touches nothing; a notice is done at once |
| `Worker.Handle` | internal/worker/worker.go:124-151 | At the limit no attempt is made, below it exactly one; the message leaves the pending list exactly when it is at the limit or no calculator failed (so a malformed one does) and its acknowledgement takes effect, and otherwise stays; no other entry leaves |
| `Worker.HandleAll` | internal/worker/worker.go:96-98 | A batch costs one attempt per message below the limit, leaves pending exactly the messages with a failure below the limit and those whose acknowledgement does not take effect, and changes the tables message by message in order |
| `WorkerLoop.RecoverStuck` | internal/worker/worker.go:106-119 | A recovery lists the lowest 32 idle entries, takes over those still idle, and handles the readable ones with the count of before the claim: one attempt for each below the limit; the pending list and the tables afterwards are given exactly |
| `WorkerLoop.ReadAndHandle` | internal/worker/worker.go:78-98 | A read delivers the next 32 entries, or all there are, and handles the readable ones in order; cursor, pending list and tables afterwards are given exactly |
| `WorkerLoop.Turn` | internal/worker/worker.go:68-99 | A turn is a recovery exactly when its timer has fired, then a read |
| `WorkerLoop.ServedRead` | internal/worker/worker.go:5-12 | When a read and its messages are served, whatever it delivered is no longer pending, except a closed trade of a session with closed trades of two users |
| `WorkerLoop.ServedRecovery` | internal/worker/worker.go:106-119 | The same for what a recovery takes over |
| `WorkerLoop.BlockedStays` | internal/metrics/repo.go:210-240 | Such a message below the limit is never completed, whatever is answered |
| `WorkerLoop.ServedRun` | internal/worker/worker.go:58-101 | Over any number of turns whose reads and messages are served, recoveries failing as they may, the cursor moves 32 entries a turn until it has passed all that the stream held at the start, and every entry delivered meanwhile is settled, with that one exception |
| `WorkerLoop.Run` | internal/worker/worker.go:58-101 | For any script of answers the loop does exactly its turns in order and leaves a system of which every guarantee holds; if reads and messages are served, it makes the progress of `WorkerLoop.ServedRun` |
| `Guarantees.MetricsAreRightOrOutstanding` | internal/metrics/plan_adherence.go:10-15 | Of the real tables, seeded trades among them: a stored score or tilt that differs from the batch has an outstanding closed trade behind it that was submitted since the boot, or was never filled for want of both a finished backfill and such a trade |
| `Guarantees.DrainedScoreIsRight` | internal/worker/worker.go:5-12 | A system with nothing undelivered, pending, dead-lettered or unpublished since the boot stores the batch score of all trades, or none where the backfill stopped early and the user submitted no rated closed trade |
| `Guarantees.FlagsAreDeserved` | internal/metrics/revenge_flag.go:13-21 | Of the real tables: every set flag satisfies the batch predicate |
| `Guarantees.MissedFlagsHaveACause` | internal/metrics/revenge_flag.go:22-68 | Of the real tables: a trade that the batch would flag and that is not flagged has one of the four causes |
| `Guarantees.EventsAreBacked` | internal/metrics/overtrading.go:26-58 | Of the real tables: each event row counts more than ten trades in the thirty minutes up to its end |
| `Guarantees.CountersAreBacked` | internal/metrics/overtrading.go:59-64 | Of the real tables: no counter exceeds the event rows |
| `Guarantees.NothingIsDroppedSilently` | internal/worker/worker.go:5-12 | Of the real stream: an entry below the cursor that is not pending was completed, cannot be decoded, or was delivered more than five times |
| `Guarantees.ReachedIsSound` | internal/worker/worker.go:58-101 | Every state that the code reaches is sound: all the guarantees, for every user, session, trade and entry at once |
| `Guarantees.BackfillAgreesAtRest` | internal/metrics/backfill.go:115-139 | Where nothing is outstanding a backfill would store the score that is stored already, unless the score was never filled |
| `Migrations.Database.ApplyOne` | internal/db/db.go:126-148 | Schema and version change together exactly when the SQL is accepted, the version is new and the commit takes effect, else neither; the error is exact |
| `Migrations.Database.RunMigrations` | internal/db/db.go:70-123 | From a recorded prefix of the files a run goes on to its first failing file, and the recorded prefix then ends exactly there, or behind it when its commit took effect unanswered; the schema is the fold of the prefix, each committed once; without an error it is the whole list |
| `Migrations.Restart` | internal/db/db.go:70-123 | However many starts are cut short, the first complete one reaches the state of one uninterrupted run, a start whose statements are all answered is complete, and nothing is committed twice |

## Left out

- HTTP routing, authentication, validation, logging, health, configuration: plumbing or single-branch checks. `validate` only narrows the inputs; the model accepts any input that the table constraint accepts.
- Clocks: idle times, tickers and timeouts happen at any moment, so no result depends on thirty seconds.
- `LoadSnapshot`, `LoadBuckets`, `bucketExpression` and the parsing of the CSV seed: read paths and loading. The seeded rows are any rows that meet the table constraints.
- A start on seeded rows of which no backfill statement took effect: the gate makes the service retry or exit, so only a start with seeding switched off meets it, and then flags are whatever the seed says.
- Floating point: amounts and averages are exact reals. The storage of a score or tilt as NUMERIC(5,4), and of an instant in whole microseconds, is a final rounding that both forms share.
- go-redis retries below one command, and connection pooling: a command that is retried is one command with one outcome.
- Freshness of plan adherence and tilt with several workers: the read and the upsert of two workers can overtake each other, so those theorems have one worker. The delivery theorems have any number.
- The random event ids, and the order of event rows of different users: the model keeps rows in the order of insertion.
- Codec.ParseTime: models the form that the producer writes, ending in `Z` with three digits of fraction; the other RFC 3339 forms that the layout accepts are never written here.
- Codec.ParseUuid: models the canonical form of 36 characters; the other forms that the library accepts are never written here.
- Calculators.RunRevengeFlag: the row and the losing closes are read in two queries; the state machine has one step for them, because a stored row never changes.
- Calculators.RunWinRate: the query and the upsert are one step of the state machine for the same reason.
- WorkerLoop.Run: runs a given number of turns where the original loops until it is cancelled; a crash at any point is a step of the state machine and not of this method.
- WorkerLoop.ServedRun: says nothing of entries that were pending before the first turn; a recovery takes those over 32 at a time (`WorkerLoop.ServedRecovery`), and that recoveries alone drain the list is `Drain.RecoveryDrains`.
- Migrations.Database.RunMigrations: takes the sorted list of files as given, with distinct versions, which is what the directory listing and the sort give.
