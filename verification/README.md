# A verified model of the payment analytics pipeline

This project models the write path of the analytics pipeline, from an HTTP submission to the three rollup tables, as one
transactional state machine, together with the views that must agree with it: nightly compaction, the Redis leaderboard,
metrics queries and leaderboard queries. It states what the pipeline promises as theorems over every run, and says exactly
when a promise fails.

Check everything with `dafny verify dfyconfig.toml` (Dafny 4.11).

## How it is organised

| Files | What they hold |
|---|---|
| `Calendar`, `Events`, `FiniteSets` | UTC datetimes, buckets, months; the records that flow; facts about finite sets |
| `RollupAlgebra`, `Grouping`, `Ranking` | rollup tables as a commutative monoid, GROUP BY, top-N and RANK |
| `Database`, `EventRepository`, `IngestionService` | the tables behind a session; two-phase idempotent ingestion, single and batch |
| `Aggregation`, `RollupRepository`, `RollupWorker` | the worker's accumulators, the upserts, one batch transaction |
| `Ledger`, `Pipeline` | which (consumer, event) markers credit the tables; the state machine and its invariant |
| `Windows`, `NoLoss`, `ExactlyOnce`, `Draining` | what LIMIT leaves out, loss behind the cursor, exactly-once and confluence, progress and replay |
| `Submissions` | the same in terms of what clients submitted: rows, scores and metrics per first submission |
| `SampleRuns`, `LostEvents`, `Overcounts`, `LateEvents` | runs that lose events, show more or less than there is, or get a payment late |
| `Leaderboard`, `BoardAccounts` | the sorted sets, what reaches them and what does not |
| `Compaction`, `Metrics`, `LeaderboardQueries` | the derived views |

The classes (`BucketAccum`, `AggMap`, the repositories, the services, the worker, `RedisRepository`, `Session`) follow the
Python classes and update their fields in place. Each of their methods is proved against a function on values (`Single`,
`Batch`, `Committed`, `AddEvents`, `Compacted`, `AddVolume`), and the steps of the state machine in `Pipeline` apply the
same functions, so a theorem about runs is a theorem about what the methods do.

A run is any interleaving of requests, offset reads, fetches, commits, publishes, crashes, offset resets, expiring Redis keys
and compactions, by any number of workers and consumer ids, including workers that share a consumer id. Each step is one
transaction or one statement of a READ COMMITTED transaction; `IngestOne` and `IngestMany` append their rows when they
commit, with the `created_at` of the transaction's start, so rows may become visible out of order.

## Main results

* `Pipeline.RunKeepsInv`: in every reachable state each rollup table is the aggregate over the (consumer, event) markers.
* `NoLoss.NothingLostIff` and `CallIsSafeIff`: a step keeps every visible event safe from a consumer's cursor exactly when a
  stated condition holds, for a fetch one on the log, the cursor, the limit and the markers before it. `LostEvents` gives
  runs in which it fails and an event is lost. `NoLoss.LostForever` shows that without a reset of the consumer's offset it
  stays lost, `ResetRestores` what must follow a reset to recover it; `LostEvents.ReplayLosesItAgain` and
  `ReplayWithRoomRecovers` are a reset that does not and one that does.
* `Submissions.ExactlyOncePerSubmission`: a harmless run that ends drained counts every first submission of an idempotency
  key once, with the fields it was submitted with, in the bucket of its client timestamp; `ScoreOfSubmissions`,
  `MetricsOfSubmissions` and `SuccessRateOfSubmissions` carry this to the leaderboard and the metrics.
* `ExactlyOnce.ExactlyOncePerAcceptedKey`, `Confluence`, `CountedOnceIff`, `CellIsExactIff`: what drained runs end with, and
  exactly what a loss does to the tables.
* `Draining.Drain`, `DrainedResult`, `BatchesTaken`, `Replay`: draining terminates, with distinct `created_at` in exactly
  ceil(n / batch size) batches; a replay changes nothing but the offset when every event was marked, and otherwise counts
  the events that were lost, as far as its windows reach them.
* `Ingestion.BatchRefinesSingles`: the batch endpoint is the single endpoint event by event, or changes nothing.
* `BoardAccounts.BoardNeverOverstates`, `LeaderboardAgrees`: every confirmed cent is on the board, wiped, lost or in flight.
* `Compaction.DiscrepanciesAfterCompaction`, `Metrics.DiffersOnlyAtTheEdges`, `LeaderboardQueries.RebuildAgreesIff`: the
  derived views.

## Assumptions

* `uuid4` never repeats an identifier and never returns the nil UUID; a batch draws one identifier per key.
* Transactions are atomic, and the primary keys and `ON CONFLICT` clauses behave as PostgreSQL documents them.
* A client timestamp has a time zone. One without passes the schema (app/models/schemas.py:38) and fails at the TIMESTAMPTZ
  column, which rolls the request back; the model's `DateTime` leaves it out.
* The session time zone is UTC and timestamps are whole microseconds; datetimes are the proleptic Gregorian calendar of years 1 to 9999.
* Raw events are never deleted (app/models/orm.py:27-28), and merchants do not change.
* Redis scores are exact integers, which doubles are below 2^53.
* The worker is constructed as in tests/integration/test_rollup_worker.py:132-140.

## Where the code and its documentation disagree

* app/repositories/rollup_repository.py:4-6 and 161-163 call the additive upserts safe to replay. They are not
  (`RollupRepositories.AddingTwiceIff`); only the markers are, as README.md:54-55 says.
* README.md:83 says that no events are lost. An event is lost when LIMIT cuts a group of rows with equal `created_at`
  (a batch insert shares one), or when a row becomes visible after a later one was processed, because the cursor compares
  `created_at` alone (`LostEvents.TieLosesAnEvent`, `LostEvents.LateRowIsLost`). app/repositories/event_repository.py:170
  announces an id tie-break that the WHERE clause does not have.
* README.md:84 and README.md:714 say that several consumer ids can run without duplicate increments. Rollup tables have no
  consumer column, so k drained consumers multiply counts and sums by k (`ExactlyOnce.CountedOnceIff`,
  `Overcounts.TwoConsumersCountTwice`).
* app/repositories/rollup_repository.py:321 uses an inclusive BETWEEN, so a leaderboard read from rollup_day also counts the
  first day of the next month (`LeaderboardQueries.QueryAddsNextFirstDay`, `Overcounts.JuneCountsInMay`). The rebuild from
  that query at app/services/query_service.py:226-227 keeps only the top n merchants (`Overcounts.RebuildDropsTheSecond`).
* app/services/ingestion_service.py:186 falls back to the nil UUID; it is unreachable (`Ingestion.AnswerIsFirstAcceptance`).

## Model

| member | source | states |
|---|---|---|
| Calendar.BucketIsFloor | app/workers/rollup_worker.py:71-80 | zeroing the fields below minute, hour or day is rounding the instant down to a multiple of 60, 3600 or 86400 seconds |
| Calendar.FloorOfFiner | app/workers/rollup_worker.py:71-80 | truncating to the minute, then to the hour, gives the hour of the original instant; the same for hour and day |
| Calendar.BetweenOnBuckets | app/repositories/rollup_repository.py:215 | an inclusive BETWEEN over bucket starts selects exactly the instants from the first bucket start at or after `start` to the end of `end`'s bucket |
| Calendar.PeriodLength | app/services/query_service.py:198-203 | the first of the next month lies as many days after the first of the month as the month has, across December and leap years |
| Calendar.GregorianCalendar | app/services/query_service.py:198-203 | the twelve month lengths, the leap years, the 146097 days of 400 years, and 1970-01-01 as day 719162 |
| Calendar.PeriodsInOrder | app/services/query_service.py:198-203 | a later month never starts before an earlier one |
| Calendar.PeriodKeyIffDayInMonth | app/workers/rollup_worker.py:83-84 | the month key of a timestamp is p if and only if its day bucket lies in [start of p, start of the month after p) |
| Calendar.PeriodBoundsAreDays | app/services/query_service.py:198-203 | period bounds are day buckets, and every period is nonempty |
| Events.BucketedByClientTime | app/workers/rollup_worker.py:87-88 | an event is bucketed by its client timestamp when it has one and by its server timestamp otherwise, at the floor of that instant |
| RollupAlgebra.TableOfConcat | app/workers/rollup_worker.py:117-139 | splitting a list of events into two batches anywhere and merging their deltas gives the table of the whole list |
| RollupAlgebra.TableOfPermutation | app/workers/rollup_worker.py:117-139 | the table depends only on the multiset of events, not on their order |
| RollupAlgebra.MergeAssociates | app/repositories/rollup_repository.py:182-199 | additive upserts of delta maps associate |
| RollupAlgebra.MergeCommutes | app/repositories/rollup_repository.py:182-199 | additive upserts of delta maps commute |
| RollupAlgebra.AggOfCounts | app/workers/rollup_worker.py:107-108 | a cell's count and sum are the number and the total of the events in it |
| RollupAlgebra.AggOfBounds | app/workers/rollup_worker.py:103-110 | a cell has a row exactly when it has an event, and its min and max are bounds that some event attains |
| RollupAlgebra.TotalUnion | scripts/nightly_compaction.py:40-47 | aggregating the rows of two disjoint groups and merging the results is aggregating their union |
| RollupAlgebra.RowsReadEvents | app/repositories/rollup_repository.py:204-221 | for any condition on keys, aggregating the selected rows of a table of events is scanning the events whose key satisfies it |
| RollupAlgebra.CellReadsEvents | app/workers/rollup_worker.py:126-139 | every cell is the aggregate over exactly the events bucketed into it, with no orphan cells |
| RollupAlgebra.TableInBounds | app/models/orm.py:62-65 | every aggregated row has count >= 1 and count*min <= sum <= count*max |
| RollupAlgebra.CoarseRowsAggregateFiner | app/workers/rollup_worker.py:128-137 | each hour cell is the aggregate of its minute rows and each day cell of its hour rows, with orphans on neither side |
| Grouping.GroupBy | scripts/nightly_compaction.py:40-47 | one row per group that has rows, holding the aggregate of the group's rows |
| Ranking.TopN | app/repositories/rollup_repository.py:324-325 | min(n, merchants) distinct entries with their exact scores in non-increasing order, and nobody left out scores more than anybody listed |
| Ranking.TopVolumesAreDetermined | app/repositories/rollup_repository.py:324-325 | any two answers to a top-N query list the same volumes position by position |
| Ranking.PositionAmongScores | scripts/nightly_compaction.py:96 | at most i scores lie strictly above the entry at position i, and more than i lie at or above it |
| Ranking.RankAgainstPosition | scripts/nightly_compaction.py:96 | RANK never exceeds the position counted from 1, and equals it exactly when the entry does not tie with the one before |
| Ranking.AlwaysListedIff | app/repositories/rollup_repository.py:324-325 | every top-n answer lists a merchant if and only if at most n, itself included, score at least as much |
| Ranking.NeverListedIff | app/repositories/rollup_repository.py:324-325 | no top-n answer lists a merchant if and only if at least n score more; in between, ties decide |
| Database.Session.Commit | app/db/engine.py:98 | what the transaction did becomes the committed tables |
| Database.Session.Rollback | app/db/engine.py:100 | the tables return to the last commit |
| EventRepositories.WindowExists | app/repositories/event_repository.py:158-180 | the cursor query has an answer for every cursor and limit |
| EventRepositories.RowStoresSubmission | app/repositories/event_repository.py:72-86 | the inserted row has the submission's type, merchant, amount, key and client timestamp, and the id and times given to it |
| EventRepositories.RowsStoreEvents | app/repositories/event_repository.py:131-145 | every row of a batch stores, field by field, an event of the batch with an unclaimed key, under the id drawn for that key |
| EventRepositories.KeyBreaksIff | migrations/versions/0001_initial_schema.py:42 | one more row breaks the primary key if and only if a row has its id and its time |
| EventRepositories.EventRepository.InsertEvent | app/repositories/event_repository.py:25-88 | a new key is claimed and one row is appended that stores the submission field by field with the given id and times; a known key returns the row it points to as a duplicate and changes nothing; an amount beyond INTEGER or a primary-key clash fails |
| EventRepositories.EventRepository.InsertBatch | app/repositories/event_repository.py:90-156 | all unclaimed keys are claimed and one row is appended per event carrying such a key, storing that event field by field; the duplicate count is events less claimed keys; an amount beyond INTEGER or a primary-key clash fails |
| EventRepositories.EventRepository.GetEventsAfter | app/repositories/event_repository.py:158-180 | at most `limit` rows created strictly after the cursor's row, strictly in (created_at, id) order when there is a cursor and in created_at order otherwise, and no row left out sorts before one returned |
| Ingestion.IngestionService.IngestEvent | app/services/ingestion_service.py:47-106 | the response and tables of one submission: unknown merchant, amount beyond INTEGER, duplicate or accepted |
| Ingestion.IngestionService.IngestBatch | app/services/ingestion_service.py:108-204 | the accepted and duplicate counts, one response per event in order, and the tables of one batch |
| Ingestion.PostEvent | app/db/engine.py:84-101 | the request commits on success and leaves the committed tables unchanged on failure |
| Ingestion.PostBatch | app/db/engine.py:84-101 | the batch request commits on success and leaves the committed tables unchanged on failure |
| Ingestion.SingleOutcome | app/repositories/event_repository.py:40-88 | keys and rows stay one to one; a submission fails exactly for an unknown merchant or a new key with an amount above 2147483647; a repeat gets the first id and time and changes nothing; a new key gets the given id and time, and its row stores the submission field by field |
| Ingestion.BatchInsertsInOrder | app/repositories/event_repository.py:102-148 | unless an unclaimed key repeats or a new amount does not fit, inserting the batch is inserting its events one request at a time in order |
| Ingestion.BatchKeepsOneToOne | app/repositories/event_repository.py:102-148 | a batch whose unclaimed keys are distinct leaves keys and rows one to one |
| Ingestion.AmountsFitIff | app/models/orm.py:36 | every inserted amount fits INTEGER if and only if every event with an unclaimed key carries one that does |
| Ingestion.BatchFailsIff | app/repositories/event_repository.py:131-146 | the batch's rows violate PRIMARY KEY (id, occurred_at) if and only if an unclaimed key occurs twice in it |
| Ingestion.BatchErrors | app/services/ingestion_service.py:119-128 | an unknown merchant, else a new amount above 2147483647, else a new key at two positions: each error exactly in its case, in this order |
| Ingestion.BatchRefinesSingles | app/services/ingestion_service.py:119-204 | a batch fails exactly for an unknown merchant, a new amount beyond INTEGER or a repeated unclaimed key and then changes nothing; otherwise tables and answers are those of single submissions and accepted + duplicates is the batch length |
| Ingestion.AnswerIsFirstAcceptance | app/services/ingestion_service.py:169-191 | every answer of an accepted batch names the id and time its key was first accepted with; the nil UUID is never returned |
| Ingestion.BatchAnswersAt | app/services/ingestion_service.py:168-191 | the answers of an accepted batch are in the order of its events, one each |
| Aggregation.BucketAccum.Add | app/workers/rollup_worker.py:102-110 | the first amount starts the row and every further one is merged into it |
| Aggregation.AggMap.Add | app/workers/rollup_worker.py:122-139 | a key seen for the first time gets its own accumulator, other keys keep theirs |
| Aggregation.AggregateBatch | app/workers/rollup_worker.py:117-139 | the three maps hold exactly the minute, hour and day tables of the batch, with events bucketed as Events.BucketedByClientTime says |
| RollupRepositories.RollupRepository.UpsertRollup | app/repositories/rollup_repository.py:75-111 | the single-row upsert merges one row into one table and touches nothing else |
| RollupRepositories.RollupRepository.UpsertAllGranularities | app/repositories/rollup_repository.py:113-128 | one event through the single-row path is that event added to all three tables |
| RollupRepositories.RollupRepository.BatchUpsert | app/repositories/rollup_repository.py:150-200 | the multi-row upsert merges the whole delta map into one table and touches nothing else |
| RollupRepositories.RollupRepository.UpsertConsumerOffset | app/repositories/rollup_repository.py:339-362 | the consumer's offset is replaced, the others stay |
| RollupRepositories.BackfillEvents | app/repositories/rollup_repository.py:113-128 | a list of events through the single-row path gives the tables of the batch path |
| RollupRepositories.AddingTwiceIff | app/repositories/rollup_repository.py:161-163 | adding the same events a second time leaves the tables as they are if and only if there are no events |
| RollupWorkers.RollupWorker.InsertProcessedMarkers | app/workers/rollup_worker.py:393-422 | every event ends up marked, and the ids returned are exactly those that were not |
| RollupWorkers.RollupWorker.UpsertRollups | app/workers/rollup_worker.py:269-273 | aggregating and upserting adds exactly the new events to all three tables |
| RollupWorkers.RollupWorker.ProcessBatch | app/workers/rollup_worker.py:243-283 | one transaction: a window after the cursor, its markers, the deltas of its unmarked events, and the offset with the id and the server time of the window's last row; nothing changes when the window is empty |
| Ledger.CommitAddsToLedger | app/workers/rollup_worker.py:259-273 | a commit adds to the ledger of markers exactly the events it aggregated, whatever other consumers have marked |
| Ledger.UnmarkedRowsAddNothing | app/workers/rollup_worker.py:408-422 | rows nobody has marked contribute nothing |
| Ledger.LedgerOfDrainedConsumers | migrations/versions/0003_processed_rollup_events.py:60 | when all k consumers have marked every event, counts and sums are k times the raw ones, min and max unchanged |
| Pipeline.StartInv | migrations/versions/0001_initial_schema.py:20-60 | empty tables satisfy the invariant |
| Pipeline.RequestAppends | app/repositories/event_repository.py:71-88 | a request appends fresh rows with INTEGER amounts, stamped with its transaction's start, and touches only the two ingest tables |
| Pipeline.CommitKeepsTable | app/workers/rollup_worker.py:259-283 | a commit keeps each table the aggregate over the markers |
| Pipeline.CompactionKeepsInv | scripts/nightly_compaction.py:38-55 | in a reachable state compaction changes nothing |
| Pipeline.StepKeepsInv | app/workers/rollup_worker.py:219-314 | every step of every process keeps keys, markers, cursors and windows pointing at logged rows, keys and rows one to one, and the tables the aggregate over the markers |
| Pipeline.RunKeepsInv | app/workers/rollup_worker.py:223-236 | so does every run, with any number of consumers and workers |
| Pipeline.NoWorkerIsStuck | app/workers/rollup_worker.py:243-291 | in every reachable state each worker's next step can happen, for any batch size, and a crash instead leaves every table as it was |
| Windows.WindowIsDetermined | app/repositories/event_repository.py:167-177 | with a cursor the query has exactly one answer: the id breaks every tie |
| Windows.NoWindowCutsOffIff | app/repositories/event_repository.py:167-177 | no answer of the cursor query takes a row as late as e and leaves e out, if and only if e sorts within the limit or the limit ends before e's created_at |
| NoLoss.NothingLostIff | app/repositories/event_repository.py:167-177 | a step leaves every visible event up to the consumer's cursors marked or in its running windows if and only if the rows it appends come after every cursor and window the consumer holds, and a window the consumer fetches cuts off no row it has yet to mark |
| NoLoss.CallIsSafeIff | app/repositories/event_repository.py:167-177 | the same for every answer the database may give, on what can be checked before the call: log, cursor, limit and markers |
| NoLoss.HarmlessRunLosesNothing | app/workers/rollup_worker.py:247-281 | runs of such steps lose nothing for the consumer, also when a slower worker moves the cursor back |
| NoLoss.InOrderRunLosesNothing | app/workers/rollup_worker.py:247-281 | in particular runs in which appended rows become visible in increasing created_at and no window cuts off an unmarked row |
| NoLoss.DrainedIsAllMarked | app/workers/rollup_worker.py:247-257 | if nothing is lost and the cursor query is empty, every event is marked |
| NoLoss.SkippedStaysSkipped | app/repositories/event_repository.py:170-177 | an unmarked event that the cursor and all batches in flight have passed stays so in every step but a reset of the consumer's offset |
| NoLoss.LostForever | app/repositories/event_repository.py:170-177 | it stays lost in every run without such a reset |
| NoLoss.UnmarkedIsSkipped | app/repositories/event_repository.py:170-177 | once a consumer is drained with no batch in flight, its unmarked events are exactly those its cursor has passed |
| NoLoss.ResetRestores | tests/integration/test_rollup_worker.py:57-69 | if none of the consumer's batches in flight is past an unmarked event when its offset is deleted, and the run that follows is harmless for it and drains it, every event visible at the reset ends up marked, the lost ones included |
| LostEvents.TieLosesAnEvent | migrations/versions/0001_initial_schema.py:41 | a run of one batch request of two events and one fetch of one row ends drained with the second event lost |
| LostEvents.LateRowIsLost | app/repositories/event_repository.py:171-176 | a run in which the request that began first commits last ends drained with its event lost |
| LostEvents.ReplayLosesItAgain | app/repositories/event_repository.py:167-168 | deleting the offset after the tie loss and fetching with the same limit ends drained with the event lost again |
| LostEvents.ReplayWithRoomRecovers | app/repositories/event_repository.py:167-168 | deleting the offset after the tie loss and fetching with a limit of two is a harmless run that ends drained with the event marked |
| Overcounts.TwoConsumersCountTwice | README.md:714 | in a run of two consumer ids and one event both end drained and every cell of the event counts it twice |
| Overcounts.JuneCountsInMay | app/repositories/rollup_repository.py:321 | in a run of one payment on June 1 the query for May reports it, although May's rows sum to zero |
| Overcounts.RebuildDropsTheSecond | app/services/query_service.py:223-227 | in a run of two merchants' payments in May every rebuild from a top-1 answer leaves the smaller without a score, although nothing was confirmed on June 1 |
| LateEvents.LatePayment | app/workers/rollup_worker.py:83-88 | in a run of one confirmed payment with a client timestamp, only the client's day row and only the client's month hold it, in rollup_day and on Redis, whenever the server received it |
| LateEvents.LateEventLandsInItsMonth | app/workers/rollup_worker.py:83-88 | a payment made on the last day of a month and received in the next counts on that day and for that month, and nothing counts for the next |
| LateEvents.HalfAMinuteBeforeJune | app/workers/rollup_worker.py:83-88 | 100 cents made at 2026-05-31T23:59:30 and received at 2026-06-01T00:00:10 count on May 31 and for May |
| LateEvents.ExpiredMonth | app/repositories/redis_repository.py:78 | in a run in which the month's key expires after a payment the score is zero while rollup_day holds the amount |
| ExactlyOnce.OneRowPerAcceptedKey | app/repositories/event_repository.py:42-88 | after every run raw_events holds exactly one row for each key that a response accepted |
| ExactlyOnce.FirstAcceptanceStands | app/repositories/event_repository.py:52-69 | no later step changes the row a key was first accepted with |
| ExactlyOnce.RetryGetsFirstAnswer | app/services/ingestion_service.py:98-106 | a retry after any run gets the first acceptance's id and time, flagged duplicate, and changes nothing |
| ExactlyOnce.RetryInBatchGetsFirstAnswer | app/services/ingestion_service.py:169-191 | so does a retry inside an accepted batch after any run, at its position among the answers |
| ExactlyOnce.RowsInBounds | app/models/orm.py:62-65 | every row of every reachable state has count >= 1 and count*min <= sum <= count*max |
| ExactlyOnce.SumsFitBigint | app/models/orm.py:62-65 | in every reachable state the sum of a row that counts at most 2^32 events fits BIGINT |
| ExactlyOnce.GranularitiesAgree | app/workers/rollup_worker.py:128-137 | in every reachable state hour rows aggregate minute rows and day rows aggregate hour rows |
| ExactlyOnce.DrainedTables | app/workers/rollup_worker.py:393-422 | with k drained consumers that lost nothing each cell has k times the count and sum of its events, and their min and max |
| ExactlyOnce.CountedOnceIff | app/repositories/rollup_repository.py:182-199 | with all consumers drained a cell counts its events once each if and only if there is one consumer id or no event |
| ExactlyOnce.DrainedLedger | app/workers/rollup_worker.py:223-236 | one drained consumer leaves exactly the markers and tables of the log |
| ExactlyOnce.ExactlyOncePerAcceptedKey | app/workers/rollup_worker.py:223-236 | every run of one consumer id whose steps are harmless and which ends drained has, in each cell, the count, sum, min and max over the accepted keys, one event each |
| ExactlyOnce.InOrderRunsCountOnce | app/workers/rollup_worker.py:223-236 | in particular every in-order run that ends drained |
| ExactlyOnce.CellIsExactIff | app/workers/rollup_worker.py:223-236 | in every reachable state of one consumer id that is drained with no batch in flight, a cell is the aggregate of its events if and only if none of them was lost |
| ExactlyOnce.Confluence | app/workers/rollup_worker.py:229-233 | any two harmless runs of the same consumers from empty tables that end drained over the same events have the same tables and markers, whatever their batch sizes, crashes, resets, workers or interleavings |
| ExactlyOnce.OneCleanPass | app/workers/rollup_worker.py:229-233 | a drained consumer's tables and markers are those of one clean pass over the whole log |
| ExactlyOnce.ReplayChangesNothing | app/workers/rollup_worker.py:231-233 | a commit of events that are all marked changes no rollup row and publishes nothing |
| Submissions.LogStoresFirstSubmissions | app/repositories/event_repository.py:42-88 | after every run raw_events holds, row by row and field by field, the submissions first accepted under their keys |
| Submissions.FirstAcceptedIsSubmitted | app/repositories/event_repository.py:52-86 | exactly the accepted keys have one first submission each, and the row that answers its retries has every field of it |
| Submissions.BatchAddsItsNewEvents | app/repositories/event_repository.py:131-145 | after any run an admissible batch can come and adds its events with new keys, in order |
| Submissions.ExactlyOncePerSubmission | app/workers/rollup_worker.py:223-236 | every harmless run of one consumer id that ends drained leaves in each rollup row the number, sum, least and greatest amount of the first submissions of that merchant and type whose client timestamp, or else time of receipt, falls into the bucket |
| Submissions.ScoreOfSubmissions | app/workers/rollup_worker.py:316-330 | if Redis lost nothing and nothing is in flight, a score is the sum of the merchant's confirmed first submissions of that year and month |
| Submissions.MetricsOfSubmissions | app/services/query_service.py:93-112 | after such a run the totals of a metrics answer are the number and sum of the merchant's first submissions over the buckets asked |
| Submissions.SuccessRateOfSubmissions | app/repositories/rollup_repository.py:261-285 | after such a run the success rate is the confirmed share of the merchant's confirmed and failed first submissions over whole hours |
| Draining.EmptyIffDrained | app/workers/rollup_worker.py:256-257 | with a batch size of at least one a batch is empty if and only if nothing follows the cursor |
| Draining.BatchProgress | app/repositories/event_repository.py:170-177 | moving the cursor to the last row of a window leaves at most the remaining rows less the window |
| Draining.BatchTakesItsShare | app/repositories/event_repository.py:170-177 | with distinct created_at the window is min(limit, remaining) rows and leaves exactly the others |
| Draining.BatchesRoundUp | app/workers/rollup_worker.py:199-206 | taking at most `limit` rows at a time, n rows take ceil(n / limit) batches |
| Draining.Drain | app/workers/rollup_worker.py:199-210 | the loop reaches an empty batch with the tables still the aggregates over the markers; it loses nothing if no window can cut off an unmarked row, and changes nothing but the offset if every event was marked |
| Draining.DistinctTimesNeverCut | app/repositories/event_repository.py:167-177 | with distinct created_at no window of any limit cuts off a row |
| Draining.DrainedResult | app/workers/rollup_worker.py:199-210 | if nothing was lost before and no window can cut off an unmarked row, it ends with every row marked and the tables the aggregates of the whole log |
| Draining.BatchesTaken | app/workers/rollup_worker.py:199-210 | with distinct created_at it takes exactly ceil(n / limit) batches for n pending rows |
| Draining.Replay | tests/integration/test_rollup_worker.py:57-69 | deleting a drained consumer's offset and draining again ends at a row with the old cursor's created_at, the same row when no other shares it; nothing but the offset changes if every event was marked, and, if no window can cut off an unmarked row, every event ends marked, so then only if every event was marked |
| Leaderboard.ScoreAfterAdding | app/workers/rollup_worker.py:316-330 | publishing moves each delivered member by its confirmed volume in the batch and nobody else |
| Leaderboard.CreditedByClientTime | app/workers/rollup_worker.py:83-88 | the month credited is the year and month of the client timestamp when there is one and of the server's otherwise |
| Leaderboard.VolumeOfConcat | app/workers/rollup_worker.py:316-322 | volumes of two batches add up |
| Leaderboard.VolumeOfPermutation | app/workers/rollup_worker.py:316-322 | volumes depend only on the multiset of events |
| Leaderboard.RedisRepository.Zincrby | app/repositories/redis_repository.py:77 | one member's score grows by the amount, or the connection has failed and nothing changes |
| Leaderboard.RedisRepository.LeaderboardIncrementBatch | app/repositories/redis_repository.py:61-79 | the members of the applied part grow by their increments, all of them unless the connection fails |
| Leaderboard.RedisRepository.LeaderboardTopN | app/repositories/redis_repository.py:81-91 | a top-n selection of the month's sorted set, of all its members when n is zero |
| Leaderboard.RedisRepository.LeaderboardExists | app/repositories/redis_repository.py:93-94 | whether the month has any member |
| Leaderboard.RedisRepository.LeaderboardRebuild | app/repositories/redis_repository.py:96-109 | the month's set becomes exactly the entries, every member of another month keeps its score |
| Leaderboard.PeriodIncrements | app/workers/rollup_worker.py:317-321 | confirmed volume per month and merchant, with an entry exactly for the members the batch touches |
| Leaderboard.UpdateLeaderboard | app/workers/rollup_worker.py:316-330 | the board gains exactly the volumes of the delivered members, which are all touched members unless the connection has failed |
| BoardAccounts.StepKeepsBalance | app/workers/rollup_worker.py:283-291 | every step keeps: score + wiped + lost + in flight = confirmed volume of the ledger |
| BoardAccounts.StepMovesScore | app/workers/rollup_worker.py:283-291 | publishing adds what is delivered, expiry clears its month, nothing else touches a score; what is lost or wiped grows by exactly what publishing did not deliver, a crash dropped or an expiry cleared |
| BoardAccounts.StepKeepsSolvent | app/models/schemas.py:35 | every step keeps amounts, scores, losses and volumes in flight non-negative |
| BoardAccounts.MonthRowsHoldVolume | app/workers/rollup_worker.py:316-322 | the confirmed day rows with period_start <= bucket < period_end sum to the volume that the month key collects |
| BoardAccounts.BoardNeverOverstates | app/workers/rollup_worker.py:326-330 | in every run a score is the month's sum over rollup_day less what was wiped, lost or is in flight, each non-negative |
| BoardAccounts.LeaderboardAgrees | app/workers/rollup_worker.py:316-330 | without Redis loss, once nothing is in flight, every score is the month's sum over rollup_day |
| Compaction.CompactionIsExact | scripts/nightly_compaction.py:38-55 | from any rollup_day, each key of the date with hour rows becomes their aggregate and every other key keeps its row |
| Compaction.CompactionIsIdempotent | scripts/nightly_compaction.py:35-38 | running it again changes nothing |
| Compaction.DiscrepanciesAfterCompaction | scripts/nightly_compaction.py:57-76 | the report lists exactly the day rows of the date with a nonzero count and no hour rows |
| Compaction.CompactionOfAggregates | scripts/nightly_compaction.py:34-76 | on tables that aggregate the same events it changes no value and reports nothing |
| Compaction.CompactDayRollup | scripts/nightly_compaction.py:34-55 | the job's effect on the tables is that rewrite and nothing else |
| Metrics.InIncreasingOrder | app/repositories/rollup_repository.py:217 | every group's bucket once, strictly increasing |
| Metrics.GroupIsWholeBucket | app/repositories/rollup_repository.py:222-259 | a group is a whole hour or day as a multiple of its length, and a minute bucket as it is |
| Metrics.QueryRange | app/repositories/rollup_repository.py:204-259 | one data point per bucket with rows in range, strictly increasing, each the sum over its rows |
| Metrics.QuerySuccessRate | app/repositories/rollup_repository.py:261-285 | the rate exists exactly when there are confirmed or failed events in the hour rows in range, and times their number it is the number of confirmed ones |
| Metrics.GetMerchantMetrics | app/services/query_service.py:93-126 | minutes up to 3 hours, hours up to 720, days beyond; the data points of that table, totals over them, and as success rate the confirmed share of the hour rows |
| Metrics.TotalsOfAnswer | app/services/query_service.py:111-112 | the totals are the sums over all rows in range: grouping and ordering lose and repeat nothing |
| Metrics.MetricsReadTheLedger | app/services/query_service.py:93-112 | in every reachable state the totals are the count and sum over exactly the ledger's events of the merchant from the first bucket start at or after start to the end of end's bucket |
| Metrics.SuccessRateReadsTheLedger | app/repositories/rollup_repository.py:261-285 | in every reachable state the success rate is the confirmed share of the ledger's confirmed and failed events from the first hour at or after start to the end of end's hour, whatever granularity the totals use |
| Metrics.DiffersOnlyAtTheEdges | app/repositories/rollup_repository.py:215 | in every reachable state the totals are those of the exact window plus the events after end in end's bucket less those in a first bucket that begins before start |
| Metrics.PointReadsTheLedger | app/repositories/rollup_repository.py:204-259 | in every reachable state a data point lies in the range and has the count, at least one, and sum of exactly the ledger's events of the merchant in its bucket |
| Metrics.AnswerIsShort | app/services/query_service.py:43-51 | over a range the endpoint admits, the chosen granularity gives at most 181, 721 or 366 data points |
| Metrics.GranularityIsFinestAllowed | app/services/query_service.py:43-51 | the granularity is the finest of which the range spans at most 180 minutes or 720 hours: its answer needs at most one point more than that, and every finer one could need more widths than its limit |
| LeaderboardQueries.QueryLeaderboardFromDb | app/repositories/rollup_repository.py:307-329 | exact confirmed sums per merchant over the inclusive range, and a top-n selection of them |
| LeaderboardQueries.GetLeaderboard | app/services/query_service.py:188-247 | an error exactly outside years 1 to 9999 and months 1 to 12 and for December 9999; otherwise the top topN, or top 10 for zero, in order with ranks from 1: of Redis when it has the month, unchanged; else of rollup_day, with Redis rebuilt to exactly the entries and other months kept, where a score is the true month volume exactly for listed merchants with nothing at period_end and unlisted ones with nothing in the month |
| LeaderboardQueries.QueryAddsNextFirstDay | app/repositories/rollup_repository.py:307-329 | the query returns the month's volume plus the day row at period_end |
| LeaderboardQueries.RebuiltScore | app/repositories/redis_repository.py:96-109 | a rebuild leaves a listed merchant its month volume plus the day row at period_end, and an unlisted one nothing |
| LeaderboardQueries.RebuildAgreesIff | app/services/query_service.py:223-227 | every rebuild leaves a merchant its true month volume if and only if, when fewer than n stand above it, the day row at period_end is missing or sums to zero, and, when more than n stand as high as it, the month sums to zero |
| LeaderboardQueries.RedisLeaderboardIsTrue | app/services/query_service.py:208-217 | served from a Redis that lost nothing, entries carry true month volumes and nobody left out has more |
| LeaderboardQueries.SnapshotLeaderboard | scripts/nightly_compaction.py:85-120 | the day's top 100 by confirmed volume, each recorded with its rank over all merchants |
| LeaderboardQueries.RecordedRow | scripts/nightly_compaction.py:108-118 | listed merchants' rows hold rank and volume; every other row stays, including stale ones of the same day |
| LeaderboardQueries.SnapshotReadsTheLedger | scripts/nightly_compaction.py:92-103 | the volumes ranked are those of the ledger's confirmed events of the day |

## Left out

* HTTP routing, authentication, health, metrics, tracing, logging, the dashboard and the load simulator.
* The scheduling of the loops, signal handling, LISTEN/NOTIFY and connection pools: steps interleave freely instead.
* Currency, metadata, updated_at and merchant names: columns that nothing computes with.
* Requests that roll back because Redis or the database connection fails: a run has no step for them, as they change no table.
* Which unknown merchant of a batch the error names.
* The spelling of month keys and Redis keys; a period is the pair of its year and month.
* The metrics cache and its hit path, the sparkline and the leaderboard history.
* Redis failures while a leaderboard is read or rebuilt, which fail the request.
* Leaderboard runs with a rebuild: the steps of a run never rebuild, as the code keeps no promise after one.
* Expiry of a month's key in the middle of one worker's increments: publishing is one step.
* Compaction concurrent with a worker's commit, and the LIMIT 10 of its report.
* The identifiers of snapshot rows, and the weekly and monthly snapshots that nothing writes.
* Partitions of raw_events and the migrations, other than the keys and column types they declare.
* BIGINT overflow of a rollup column, which takes more than 2^32 events in one cell.
- Metrics.GetMerchantMetrics: leaves out the rounding of success_rate to four places and the latency.
- LeaderboardQueries.GetLeaderboard: takes the period as a parameter; the default of the current month is the caller's.
- Draining.Drain: nothing else runs between its batches; arrivals and other workers are the subject of the run theorems.
