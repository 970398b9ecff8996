# Fraud-detection platform: a verified model

The platform scores card transactions for fraud. A Spark job, the live API, an
upload route and the training code all compute the same rolling-window features,
each from a history it keeps in its own way. Scores are routed to approval, review
or blocking, analysts' labels flow back into retraining, and new models reach
production through an approval protocol with an automated gate.

This project models that behaviour in Dafny and proves:

* **Features.** `compute_features` does not depend on the order of its history
  except for distance and speed, and there the exact condition is proved. The
  micro-batch loop gives the same vectors however a stream is cut, and the limits of
  that are exact: which ties and which overflows of the stored 500 show a cut. Training
  agrees with the live path exactly when no tie in event times has ends at different
  places. The upload agrees with it exactly when, besides, nothing matters that fell
  off the stored 500; with distinct times and up to 501 rows per card both agree with
  each other and with the stream.
* **Uploads.** Truncation never changes a kept row, cards do not interfere, and
  the dashboard's buckets, tallies and top lists account for every row.
* **Promotion.** Over every interleaving of concurrent and crashing calls, nothing
  is in Production without an earlier approval. Whatever the automated call
  approves meets a recall floor in every country of its test set, and its name on an
  approval proves as much exactly when no hand-made call may use it.
* **Drift.** The breakpoints are the reference's quantiles, its buckets are even,
  histogram counts are conserved, and the stability index is bounded, with its scale.
* **Storage.** The sink is idempotent, and the review queue keeps an invariant
  that makes the retraining join lossless.
* **Generator.** It stops within 14 transactions of its target, and every
  transaction it builds without validation is valid all the same.

## Layout

| file | models |
|---|---|
| `Sequences.dfy`, `StableSort.dfy`, `Arithmetic.dfy` | comprehensions, `sorted`, facts about products and quotients |
| `Transactions.dfy`, `Features.dfy`, `FeatureStore.dfy` | the record, `compute_features`, the Redis store |
| `FeatureLaws.dfy` | what each feature is, on the raw history |
| `StreamConsumer.dfy`, `StreamLimits.dfy` | the micro-batch loop, the limits of its invariance |
| `StreamPipeline.dfy`, `StreamAgreement.dfy` | the loop with its sink, the loop against the live and upload paths |
| `Decision.dfy`, `Scoring.dfy`, `Dashboard.dfy` | routing, rules and reasons; live, upload and training paths; the payload |
| `Postgres.dfy`, `TransactionSink.dfy`, `ReviewQueue.dfy` | the tables, at-least-once delivery, the review state machine |
| `ValidationGate.dfy`, `Promotion.dfy` | training metrics and the gate; the promotion state machine |
| `Drift.dfy`, `PsiLaws.dfy`, `Generator.dfy` | the stability index and drift report, what the index measures; the generator |

Event times are integers (microseconds), amounts and scores are exact reals. The
great-circle distance, the square root, `round`, the logarithm, the
Kolmogorov-Smirnov p-value and the loaded model are function parameters; a lemma
that needs a fact about one names it (`RoundIsMonotone`, `IsLibrary`, `IsLn`,
`IsRandomness`, `RoundsToCents`), and functions that meet it exist (`SomeLibrary`,
`SomeLn`, `SomeRandomness`). A library is lawful if it meets `IsLibrary`. A model's
prediction may fail, so it returns an option. Row ids, the clock and the randomness of
the generator are parameters too. A protocol is a `State`, a `Step` and a partial
`Apply`; each step is one write, so a crash may fall between any two of them.

## Where the code and its documentation differ

* The comment at `src/api/fallback.py:84-86` says a new device does not trigger
  review on its own. With the default thresholds it does (`Decision.NewDeviceReviewed`,
  `Decision.NewDeviceAlone`).
* `get_history(limit=0)` returns the whole list, because `LRANGE key 0 -1` does
  (`FeatureStore.GetHistoryBounded`).
* The features of a stream can show where it was cut, when event times tie at
  different places or a row of the day falls off the stored 500
  (`StreamConsumer.CutsExact`), as in a day of more than 501 (`StreamLimits.SizeExact`).
* An upload keeps every row of a card and the live path 500, so for more than 501 rows
  in a day their features differ (`StreamAgreement.UploadSizeExact`).
* A reload reads the Production label and loads the Production artifact in two
  requests, so a promotion in between leaves a label that names another version
  (`Promotion.ReloadMayMislabel`, `Promotion.ServedIsApproved`).
* `approved_by` is free text: a hand-made promotion can bear the automated caller's
  name (`Promotion.ForgedRunShows`).
* A gate that passes with no `recall` or `precision` metric logged (floors at or
  below zero) raises while formatting its note and promotes nothing
  (`Promotion.PassedUnpromotable`).

## Model

| member | source | states |
|---|---|---|
| Transactions.ValidateRow | src/feature_engineering/validation.py:21-26 | A row is accepted exactly when it meets every field constraint; what comes out meets them too and is the row itself but for its two codes, whose lower-case letters are capitals. |
| Transactions.OnCardSnoc | src/api/batch.py:158-196 | Appending to one card's list lengthens that list and leaves every other card's alone. |
| StableSort.SortIsUnique | src/feature_engineering/features.py:81-84 | Any sorted arrangement that keeps the order of equal keys is the result of the sort, so nothing depends on the algorithm. |
| StableSort.SortFiltered | src/api/batch.py:157 | Sorting commutes with any filter, ties included. |
| StableSort.SortConcat | src/feature_engineering/spark_consumer.py:94-96 | Sorting chunk by chunk sorts the whole when no chunk reaches past the next. |
| Features.FeatureMeaning | src/feature_engineering/features.py:86-118 | Counts, sums, means and z-score are those of the other transactions in the trailing windows of the unsorted history, ends included, plus the current one where the source adds it. |
| Features.SetMeaning | src/feature_engineering/features.py:113-132 | Distinct merchants are those of the day's window with the current one; a device is new exactly when it is present, some other transaction names a device, and none names this one. |
| Features.PlaceMeaning | src/feature_engineering/features.py:93-105 | Gap and distance are measured from a latest other transaction; all three are absent when there is none, and speed exists exactly when the gap is positive. |
| FeatureLaws.CountLaw | src/feature_engineering/features.py:86-118 | Each count is one more than the number of places in the raw history that hold another transaction of the last 300, 3600 or 86400 seconds, both ends included. |
| FeatureLaws.SumLaw | src/feature_engineering/features.py:90-122 | Sums and means are over the amounts at those places and the current one. |
| FeatureLaws.ZscoreLaw | src/feature_engineering/features.py:107-113 | With n >= 2 other amounts in the day, mean m and variance v with n m = sum and n v = sum of squares, the score is (amount - m) over the root of v; with fewer, or no spread, it is 0. |
| FeatureLaws.MomentsExist | src/feature_engineering/features.py:107-110 | Such a mean and variance exist for every history with another amount in the day. |
| FeatureLaws.SetLaw | src/feature_engineering/features.py:113-132 | Merchants and new device, on the places of the raw history: an empty device id is no device. |
| FeatureLaws.TravelLaw | src/feature_engineering/features.py:93-105 | The gap in seconds is a millionth of the microseconds since a latest other transaction, and the unrounded speed times that gap is the distance times 3600000000; there is a speed exactly when the gap is positive. |
| FeatureLaws.TravelRuleLaw | src/feature_engineering/features.py:139-148 | Travel is impossible exactly when time has passed and the rounded distance per gap is above the limit; but for half a hundredth, when the distance is more than the limit covers in the gap. |
| Features.OrderIndependence | src/feature_engineering/features.py:67-136 | Every permutation of the history gives the same vector but for distance and speed, and those too when the latest other transactions share a place. |
| Features.PlaceNeeded | src/feature_engineering/features.py:81-105 | Where they do not, some permutation and some lawful distance give different features: the condition is the exact one. |
| Features.OwnCopiesIgnored | src/feature_engineering/features.py:81-84 | Copies with the current transaction's id change nothing. |
| Features.LastOfTied | src/feature_engineering/features.py:81-93 | `past[-1]` is the last, in list order, of the transactions tied for latest. |
| Features.ViewExact | src/feature_engineering/features.py:67-136 | Two histories of which one holds the other give the same vector for every lawful library if and only if no transaction that only one of them holds lies in the day, the new-device answer is the same, and so are the time and place of the last of the tied latest transactions. |
| Features.PermutationExact | src/feature_engineering/features.py:67-136 | Two given orders of one history give the same vector for every lawful library if and only if the last of the tied latest transactions shares a place in both. |
| Features.ReversalExact | src/feature_engineering/features.py:67-136 | A newest-first and an oldest-first list give the same vector for every lawful library if and only if the first and last of the tied latest transactions share a place. |
| Features.WindowNesting | src/feature_engineering/features.py:86-136 | 1 <= 5-minute count <= 1-hour count <= 24-hour count <= history + 1; 1 <= merchants <= 24-hour count; the hour's sum is at most the day's; no negative gap on a past history. |
| Features.DistinctTimesAgree | src/feature_engineering/features.py:67-136 | When event times identify transactions, the whole vector is independent of order. |
| FeatureStore.RedisFeatureStore.WriteFeatures | src/feature_engineering/feature_store.py:52-61 | The card's latest vector is replaced; nothing else changes. |
| FeatureStore.RedisFeatureStore.GetFeatures | src/feature_engineering/feature_store.py:63-69 | The latest vector written for the card, or none. |
| FeatureStore.RedisFeatureStore.AppendHistory | src/feature_engineering/feature_store.py:71-80 | The transaction goes to the head of its card's list, trimmed to 500; other cards keep theirs. |
| FeatureStore.RedisFeatureStore.GetHistory | src/feature_engineering/feature_store.py:82-85 | LRANGE 0 to limit - 1, negative stops included. |
| FeatureStore.PushAllKeepsNewest | src/feature_engineering/feature_store.py:71-80 | Any number of appends leaves the newest 500 of what was there and what came, newest first. |
| FeatureStore.BoundedHistory | src/ml/dataset.py:58-74 | From empty, the Redis list is the reverse of the last 500 appended, the training list is exactly its reverse, and both hold one multiset. |
| FeatureStore.GetHistoryBounded | src/feature_engineering/feature_store.py:82-85 | A limit of one or more reads that long a prefix; 0 reads the whole list, so the bound holds if and only if the limit is positive or it is 0 on an empty list. |
| StreamConsumer.GroupByCard | src/feature_engineering/spark_consumer.py:90-92 | Each card's group is its rows in arrival order, cards in order of first appearance. |
| StreamConsumer.CardsByFirstRow | src/feature_engineering/spark_consumer.py:90-94 | The cards are exactly those with a row, each earlier one with a row before the first of each later one. |
| StreamConsumer.ProcessCard | src/feature_engineering/spark_consumer.py:97-110 | The inner loop leaves the store, the valid rows and the invalid count of the specification `RunCard`. |
| StreamConsumer.ProcessPartitionGroup | src/feature_engineering/spark_consumer.py:81-112 | The whole loop computes the specification `RunBatch`, about which the theorems below speak. |
| StreamConsumer.RunBatchEffect | src/feature_engineering/spark_consumer.py:90-112 | A batch does to each card exactly this: its valid rows in event-time order, each scored on the stored history and the rows before it, written and pushed in that order, whatever the other cards do. |
| StreamConsumer.RowsAccounted | src/feature_engineering/spark_consumer.py:87-112 | The returned transactions are the rows that pass validation, with multiplicity, and valid plus invalid is the number of rows. |
| StreamConsumer.RowsTraced | src/feature_engineering/spark_consumer.py:87-112 | Every returned transaction is a valid row with its codes in upper case (same id, card, user, merchant, amount, place, device and time), and every valid row is returned so. |
| StreamConsumer.RunBatchesEffect | src/feature_engineering/spark_consumer.py:81-112 | For any sequence of batches and no condition at all: each arrival of a card is scored on exactly what it sees (the stored list its batch starts from, then the batch's earlier arrivals), logged in that order, and pushed in turn. |
| StreamConsumer.SightsMeaning | src/feature_engineering/spark_consumer.py:95-110 | With at most 500 stored and 501 in all, every arrival sees the stored list and all arrivals before it, in some order. |
| StreamConsumer.HistoryAfter | src/feature_engineering/feature_store.py:71-85 | After any batches the card's list is the newest 500 of its arrivals and what was stored, newest first. |
| StreamConsumer.SightSuffix | src/feature_engineering/spark_consumer.py:95-110 | Whatever the cut, an arrival sees the last so many of what was stored and arrived before it. |
| StreamConsumer.CutsExact | src/feature_engineering/spark_consumer.py:81-112 | Two cuts that bring a card the same arrivals, however many, agree on vectors, history and latest features for every lawful library if and only if, for each arrival, nothing that only one cut lets it see lies in its day, the new-device answer is the same, and so are the time and place of the last of the tied latest transactions. |
| StreamConsumer.ChronologicalArrivals | src/feature_engineering/spark_consumer.py:94-97 | When no batch holds a later event than the next, sorting batch by batch sorts the stream. |
| StreamConsumer.MicroBatchInvariance | src/feature_engineering/spark_consumer.py:81-112 | When event times identify a card's transactions and they number at most 501, two chronological ways to cut, and within batches to order, one stream give the card the same vectors in the same order, the same stored history and the same latest features. |
| StreamConsumer.RowByRow | src/feature_engineering/spark_consumer.py:81-112 | Any such cut agrees with processing the time-sorted stream row by row. |
| StreamConsumer.TotalsInvariant | src/feature_engineering/spark_consumer.py:87-112 | Valid transactions and invalid counts agree for any two cuts, with no condition on times or sizes. |
| StreamLimits.TiedTimesShowTheCut | src/feature_engineering/spark_consumer.py:94-108 | Two events at one instant, then a third: cutting before the third leaves the features alone, for every lawful library, if and only if the two happened at one place. |
| StreamLimits.LongDayShowsTheCut | src/feature_engineering/spark_consumer.py:95-108 | A day's valid rows of a card, if one batch and row by row agree on them, number at most 501: the in-memory history of a batch is not trimmed. |
| StreamLimits.SizeExact | src/feature_engineering/spark_consumer.py:81-112 | For the rows of one card within a day, with distinct ids and times, from an empty store: all chronological cuts agree if and only if there are at most 501. |
| StreamPipeline.ProcessBatch | src/feature_engineering/spark_consumer.py:124-163 | Features and history go to the store, the valid transactions to the table, and the written count is the table's growth. |
| StreamPipeline.TableInvariant | src/feature_engineering/spark_consumer.py:124-163 | When an id names one record, any two cuts of a stream fill the table with the same rows and report the same number written. |
| StreamAgreement.StreamMatches | src/feature_engineering/spark_consumer.py:81-112 | Under the conditions of micro-batch invariance, the vectors the stream logs for a card are those of the live path on its time-sorted valid rows, and those behind its rows in an upload of the whole stream. |
| Decision.DecideMeaning | src/api/decision.py:36-69 | For any thresholds: blocked means at or above the high one; approved means below it, at or below the low one and outside the band; the rest is reviewed. Risk and decision coincide, exactly the approved rows skip review, and the reason is the band before all others. |
| Decision.DefaultRouting | src/api/decision.py:36-69 | With the defaults: blocked from 0.8, approved up to 0.2, the band reason from 0.4 to 0.6. |
| Decision.ScoreByRules | src/api/fallback.py:52-90 | The score is the largest weight of the rules whose conditions hold on the vector's own fields (0.95 travel, 0.90 velocity, 0.85 amount, 0.35 new device), or 0.05; the rules are listed each once, in the order they are tried. |
| Decision.HeaviestRule | src/api/fallback.py:52-90 | The listed rules are exactly those that fire, and the score is the weight of the heaviest, or 0.05 when none does. |
| Decision.ReasonLaw | src/api/batch.py:128-149 | The tag is the first of velocity, amount and travel that holds; after them, on rows not approved, a new device and then the model; otherwise none. |
| Decision.CalibratedTagsAgree | src/api/batch.py:128-149 | Under calibrated thresholds a rule-scored row is blocked exactly for velocity, amount or travel, reviewed exactly for a new device, approved exactly with no signal, and never tagged a model signal. |
| Decision.TagAgreementExact | src/api/batch.py:128-149 | Every vector computed from a valid history agrees with its tag, whatever the lawful numeric library, if and only if 0.35 < high <= 0.85, low >= 0.05 and 0.05 lies outside the review band; with a velocity threshold below 1, if and only if high <= 0.90. |
| Decision.NewDeviceReviewed | src/api/fallback.py:83-88 | When only the new-device rule fires, the row reaches review if and only if 0.35 is below the high threshold and above the low one or in the band; with the defaults it does. |
| Decision.NewDeviceAlone | src/api/fallback.py:83-88 | A transaction and history on which only that rule fires exist if and only if the velocity threshold is at least 1. |
| Scoring.ModelState.Reload | src/api/inference.py:63-84 | What is served is the newest Production version in the registry; with none, or one that does not load, the rules alone. |
| Promotion.ServedIsApproved | src/ml/registry.py:160-197 | A reload that reads the version label at one point of a run and the artifact at a later one serves an approved version under the label of an approved version; they are one version if and only if the last move of the model to Production logged in between, if any, was of the labelled one. |
| Promotion.ReloadMayMislabel | src/ml/registry.py:160-197 | A run in which a promotion between the two reads leaves label 1 on version 2. |
| Scoring.ModelState.ScoreTransaction | src/api/inference.py:101-148 | On the vector of the stored history: when the model returns p, the score is p, from the model, and no rules are listed; with no model or a failed call it is the rule score, from the rules, with those that fired; the routing is that of the score. |
| Scoring.ScoreBatch | src/api/batch.py:152-198 | Every row, in event-time order, is scored on the earlier rows of its card: the model's own value, or the rule score when there is none; decision, risk, review flag and tag follow from that score and vector. |
| Scoring.PrefixStable | src/api/batch.py:157-198 | Scoring a prefix gives the prefix of the scores. |
| Scoring.TruncationStable | src/api/routes/batch.py:88-92 | The 5000-row cap keeps exactly the first results of the whole file, unchanged. |
| Scoring.CardsDoNotInterfere | src/api/batch.py:157-198 | One card's results within any file are, in order, the results of its rows uploaded alone, ties included. |
| Scoring.WindowsNestAlongFile | src/api/batch.py:157-198 | The nesting of the windows holds for every row of every upload, and the gap is never negative. |
| Scoring.LiveHistory | src/feature_engineering/feature_store.py:71-85 | The live path reads the last 500 earlier rows of the card, newest first. |
| Scoring.BatchEqualsLive | src/api/batch.py:152-198 | For a file of any size, the upload gives every row the score, source, routing and reason of the live path, for every model, settings and lawful library, if and only if nothing that fell off a card's list of 500 matters to a later row: no other transaction of its day, not the new-device answer, not the time or place of the latest, ties included. |
| Scoring.DistinctTimesBatchEqualsLive | src/api/inference.py:101-148 | When event times identify the rows of each card, the condition loses its part on places; and up to 501 rows per card the paths always agree. |
| StreamAgreement.UploadSizeExact | src/api/routes/batch.py:88-92 | On a day's rows of one card, with distinct ids and times, upload and live path agree for every model, settings and lawful library if and only if there are at most 501. |
| Scoring.BuildTrainingDataset | src/ml/dataset.py:56-74 | Every training row is computed from the last 500 earlier transactions of its card, oldest first. |
| Scoring.TrainServeAgree | src/ml/dataset.py:58-74 | For streams of any length training and serving agree on all but distance and speed, and on the whole vector, for every lawful library, if and only if no tie has ends at different places. |
| Dashboard.BucketTimeseries | src/api/batch.py:201-219 | Each bucket counts exactly the alerts in its interval (half open, the last closed, zero-span files included), and the counts sum to the alerts. |
| Dashboard.BucketIndex | src/api/batch.py:211-218 | `min(int(offset / width), n - 1)` is the bucket whose interval holds the offset. |
| Dashboard.BucketsDisjoint | src/api/batch.py:211-219 | No offset lies in two buckets. |
| Dashboard.SpanLaw | src/api/batch.py:207-210 | The clock starts at the earliest row and ends at the latest, both attained; the span is the seconds between them, or 1 when they coincide. |
| Dashboard.BucketLaw | src/api/batch.py:213-219 | A row is counted in bucket i when it is routed to review and its microseconds since the start are at least i and less than i + 1 million widths; the last bucket takes its end. |
| Dashboard.ReasonCounts | src/api/batch.py:245-258 | The reasons are exactly the tags of the blocked rows, each once, with its count, largest first, and the counts sum to the blocked rows. |
| Dashboard.TopK | src/api/batch.py:260-261 | The top list is part of the alerts, in descending order, no omitted alert outscores a listed one, and ties stay in file order. |
| Dashboard.BlockedFirst | src/api/batch.py:260-261 | Whatever the thresholds, the blocked rows come first in the ranked alerts. |
| Dashboard.BuildPayload | src/api/batch.py:229-299 | Totals, blocked amount, each of the 12 bucket counts, reasons largest first, the 200 top alerts and the 300 map points, each tied to the scored rows. |
| Dashboard.PayloadLaw | src/api/batch.py:238-258 | The counts are those of the places that hold a blocked row, a row routed to review and a row of the tag; the blocked amount sums the amounts at the blocked places. |
| Dashboard.ParseRows | src/api/batch.py:105-125 | Every row is kept or reported, never both, in file order, and a report names the spreadsheet row with the header as row 1. |
| Dashboard.KeptRowAt | src/api/batch.py:105-121 | A parsed row is kept at the place that counts the kept rows before it. |
| Dashboard.KeptRowsCount | src/api/batch.py:105-121 | As many rows are kept as were parsed. |
| Dashboard.BatchScore | src/api/routes/batch.py:61-118 | Refused exactly when no row is valid; otherwise counts, amount, buckets, reasons (largest first) and both ranked lists are those of the first 5000 results of the whole file, blocked <= alerts <= total, and scored plus skipped is the file exactly when it was not truncated. |
| Postgres.PostgresClient.PersistTransactions | src/storage/postgres_client.py:91-122 | Existing ids win, also within one batch, and the count returned is the table's growth. |
| Postgres.PostgresClient.WritePrediction | src/storage/postgres_client.py:172-206 | One prediction row is added and nothing else changes. |
| Postgres.PostgresClient.CreateReviewCase | src/storage/postgres_client.py:208-226 | One pending, unassigned case is added and nothing else changes. |
| Postgres.PostgresClient.SubmitFeedback | src/storage/postgres_client.py:287-314 | One feedback row is added and the case with that id resolved, in one transaction. |
| Postgres.FeedbackLaw | src/storage/postgres_client.py:287-314 | The named case gets status resolved, this analyst and this time, and keeps all else; no other case and no prediction changes. |
| Postgres.PostgresClient.RecordModelApproval | src/storage/postgres_client.py:341-365 | One approval is appended. |
| Postgres.PostgresClient.CheckApproval | src/storage/postgres_client.py:509-519 | True exactly when a row has this name, version and stage. |
| TransactionSink.FirstRecordWins | src/storage/postgres_client.py:118-122 | An id keeps the record it had, or gets the first one delivered under it. |
| TransactionSink.DeliverMeaning | src/storage/postgres_client.py:91-122 | Batch boundaries leave no trace and the returned counts sum to the ids added. |
| TransactionSink.ReplayHarmless | src/storage/postgres_client.py:91-122 | Running any earlier batch again changes nothing and returns 0. |
| TransactionSink.ExactlyOnceEffect | src/storage/postgres_client.py:91-122 | When redelivered records are the same records, table and counts depend only on which were delivered, not on order, repetition or batching. |
| ReviewQueue.ScoreRoute | src/api/routes/score.py:18-64 | One prediction is stored, with the vector, score and routing as computed; then, exactly when the routing asks for one, a pending case with that prediction's id, transaction, score and risk. |
| ReviewQueue.FeedbackRoute | src/api/routes/review.py:32-48 | Not found exactly when the case does not exist, and then nothing is written. |
| ReviewQueue.ScoreIsARun | src/api/routes/score.py:27-49 | An undisturbed score call is a run of the state machine. |
| ReviewQueue.FeedbackIsARun | src/api/routes/review.py:37-47 | An undisturbed feedback call is a run of the state machine. |
| ReviewQueue.StepKeeps | src/storage/postgres_client.py:172-226 | Every write of every concurrent or crashing call keeps the invariant: each case refers to one routed prediction with its transaction, score and risk; no prediction has two cases; resolved exactly when there is feedback. |
| ReviewQueue.RunSafe | src/storage/postgres_client.py:287-314 | So does every run, and along it predictions and feedback stay, cases keep their links, and a resolved case never reverts. |
| ReviewQueue.RoutedPredictionsAccounted | src/api/routes/score.py:27-49 | Over all runs, a routed prediction has neither a case nor an open call that will create one if and only if its call crashed between its two writes. |
| ReviewQueue.JoinIsLossless | src/storage/postgres_client.py:475-482 | The double join yields each feedback row exactly once, with the prediction behind it. |
| ReviewQueue.RetrainingLossless | src/storage/postgres_client.py:462-502 | One example per feedback row of the window, up to the limit, with its label and the features stored when the transaction was scored. |
| ReviewQueue.RetrainingFromScoring | src/storage/postgres_client.py:462-502 | Over all runs: one example for each feedback row since the given time, up to the limit, labelled fraud exactly for the two fraud labels, with the vector that a score call of the run computed for that transaction when it sent it to review. |
| ValidationGate.FairnessReport | src/ml/train.py:62-82 | One slice for every country of the test set, none empty. |
| ValidationGate.LogRun | src/ml/train.py:136-139 | The logged metrics are the overall ones, the four of each country, and nothing else; no key overwrites another. |
| ValidationGate.MetricsLaw | src/ml/train.py:49-59 | Counted on the raw test set at 0.5: precision is the share of flagged rows that are fraud, recall the share of frauds flagged, F1 twice their overlap over their sizes, the rates shares of all rows; each is 0 of nothing. |
| ValidationGate.SliceLaw | src/ml/train.py:70-82 | The same of each country's own rows, with their number. |
| ValidationGate.SliceKeysDiffer | src/ml/train.py:137-139 | A logged key determines its country and its statistic. |
| ValidationGate.RecallKeyRoundTrip | src/ml/auto_promote.py:62-66 | The country is read back from its recall key unchanged. |
| ValidationGate.EvaluateGate | src/ml/auto_promote.py:48-78 | It passes exactly when recall and precision reach their floors and, with two or more countries, no two recalls lie further apart than the limit; each of the three reasons is listed exactly when its check fails. |
| ValidationGate.FairnessReadBack | src/ml/auto_promote.py:62-66 | Whatever the iteration order, the gate sees the recall of every country of the test set and of no other. |
| ValidationGate.CountByCountry | src/ml/train.py:72-81 | Counting country by country counts every test row once. |
| ValidationGate.OverallRecallBelowBest | src/ml/train.py:49-82 | Overall recall does not exceed the best country's. |
| ValidationGate.PerCountryRecallFloor | src/ml/auto_promote.py:48-78 | A passing gate leaves no country below the minimum recall less the allowed gap, countries without fraud and single-country sets included. |
| ValidationGate.GateLaw | src/ml/auto_promote.py:48-78 | A passing gate, on the raw test set: at most 1 - minimum precision of the flagged rows are legitimate, at least the minimum recall of the frauds are flagged, and in each country at least the floor's share of its frauds. |
| Promotion.ModelRegistry.LatestVersion | src/ml/registry.py:53-59 | The newest version of the model in the stage, or none when no version is in it. |
| Promotion.ModelRegistry.RegisterAndStage | src/ml/registry.py:71-94 | The new version is in Staging and no other version changes. |
| Promotion.ModelRegistry.PromoteModel | src/ml/registry.py:97-157 | The approval row is written, then the version is in Production and the model's former Production versions archived; it fails, writing nothing, exactly for an unknown version. |
| Promotion.ToProductionLaw | src/ml/registry.py:145-150 | The version is in Production, every other Production version of the model is archived, and no other version changes. |
| Promotion.ModelRegistry.MaybeAutoPromote | src/ml/auto_promote.py:81-143 | It promotes exactly when enabled, drift was reported, there is a newest Staging version, it passes the gate and both metrics were logged; otherwise nothing changes. |
| Promotion.LoggedIsPromotable | src/ml/auto_promote.py:115-120 | For metrics that a training run logged, passing the gate is all that promotion needs. |
| Promotion.PassedUnpromotable | src/ml/auto_promote.py:115-120 | Metrics exist that pass the gate and cannot be promoted, because formatting a missing one raises, if and only if the recall or the precision floor is at most 0. |
| Promotion.RegistrationIsARun | src/ml/registry.py:71-94 | An undisturbed registration is a run of the state machine. |
| Promotion.PromotionIsARun | src/ml/registry.py:97-157 | An undisturbed promotion is a run of the state machine. |
| Promotion.AutoPromotionIsARun | src/ml/auto_promote.py:106-143 | An undisturbed automated call is a run of it: a promotion signed as automated, with the metrics the gate saw, or no change at all. |
| Promotion.NoAutoPromotion | src/ml/auto_promote.py:91-104 | Disabled, without drift or without a candidate, an automated call ends where it starts. |
| Promotion.StepKeeps | src/ml/registry.py:119-149 | Every step of every concurrent or crashing call keeps the invariant. |
| Promotion.RunSafe | src/ml/registry.py:71-157 | Along every run the invariant holds and no approval row or log entry is lost. |
| Promotion.ReachableIsSafe | src/ml/registry.py:71-157 | In every reachable state, for each Production version the log holds its move there and, before it, an approval for exactly that name, version and stage, which is in the table; the table holds exactly the logged approvals; each name has at most one Production version. |
| Promotion.CheckNeverFails | src/ml/registry.py:138-143 | The approval check after the write succeeds, whatever runs in between. |
| Promotion.AutoApprovedFloor | src/ml/auto_promote.py:81-143 | Every approval the automated call recorded bears its name and is for a version whose test set meets the floors: recall in every country, and of its flagged rows at most the rest of the minimum precision legitimate. |
| Promotion.ForgedRunShows | src/ml/registry.py:128-136 | A hand-made call can sign with the automated caller's name for a model that misses every fraud: a run in which the name proves no positive floor. |
| Promotion.SignatureExact | scripts/promote_model.py:12-30 | Over all runs, the automated caller's name on an approval implies the floor if and only if no hand-made call may use it, or the floor is at most 0. |
| PsiLaws.BreakpointsLaw | src/ml/drift.py:111-112 | The breakpoints are, strictly increasing, exactly the quantiles of the reference: at rank q(n - 1)/buckets the order statistic when the rank is whole, and otherwise dividing the gap between its neighbours as the rank does; the first is the minimum and the last the maximum. |
| PsiLaws.EvenBuckets | src/ml/drift.py:111-119 | When the n values of the reference differ there are as many buckets as asked for, and each holds n/buckets of them, up to one either way. |
| Drift.HistogramConserves | src/ml/drift.py:116-120 | Between open ends, every value lands in exactly one bucket. |
| PsiLaws.ShareAt | src/ml/drift.py:119-123 | A share times the sample size is the number of its values from the breakpoint up to the next, the first and the last bucket open-ended. |
| PsiLaws.PsiLaw | src/ml/drift.py:97-126 | The index is the sum over the buckets of (c - r) ln(c/r) for the shares raised to at least 1e-4, NaN dropped; 0 with fewer values than buckets, no current value or fewer than three breakpoints. |
| PsiLaws.FullShift | src/ml/drift.py:122-126 | A sample that moved from one bucket to the other has the index 2 (1 - 1e-4) ln(10^4). |
| Drift.PopulationStabilityIndex | src/ml/drift.py:97-126 | The method computes the specification `Psi`, early returns included. |
| Drift.PsiBelowDistance | src/ml/drift.py:122-126 | The sum is at most the summed shares times ln(10^4), because clipping brings shares no further apart. |
| Drift.PsiBounds | src/ml/drift.py:97-126 | For all samples the index lies between 0 and 2 ln(10^4). |
| Drift.PsiZero | src/ml/drift.py:97-126 | When buckets are formed, counts sum to the sample sizes, and the index is 0 if and only if the clipped shares coincide in every bucket. |
| Drift.ComputeFeatureDrift | src/ml/drift.py:129-166 | Exactly the requested columns present in both frames with two values each are reported, each with its index and flag. |
| PsiLaws.ComparableLaw | src/ml/drift.py:143-148 | A column is compared exactly when both frames hold it with at least two numbers each. |
| PsiLaws.FeatureLaw | src/ml/drift.py:150-164 | A result's index is that of the two columns, and it has drifted exactly when the p-value is below its threshold or the index above its own. |
| PsiLaws.ScoreLaw | src/ml/drift.py:169-186 | The same of the scores; with fewer than two on a side, index 0 and no drift. |
| PsiLaws.ReportLaw | src/ml/drift.py:56-68 | The maximum is the largest index held, or 0 of none; drift is reported exactly when a column or the scores drifted. |
| Drift.BuildDriftReport | src/ml/drift.py:189-217 | Columns and scores are judged at 0.05 and 0.25; the report's maximum obeys the bounds, and above 0.25 means drift was detected. |
| Generator.TransactionGenerator.constructor | src/ingestion/transaction_generator.py:77-87 | Every profile built is within the ranges the builders rely on. |
| Generator.TransactionGenerator.NormalTransaction | src/ingestion/transaction_generator.py:116-134 | The transaction is of its profile, meets the schema and is not labelled fraud. |
| Generator.TransactionGenerator.HighValueTransaction | src/ingestion/transaction_generator.py:136-141 | The spiked amount, set without validation, still meets the schema and, but for rounding by half a cent, is at least 15 deviations above the mean. |
| Generator.TransactionGenerator.ImpossibleTravelPair | src/ingestion/transaction_generator.py:143-160 | Two valid transactions of one card and device, 2 to 20 minutes apart in different countries, the second labelled fraud. |
| Generator.TransactionGenerator.VelocityAbuseBurst | src/ingestion/transaction_generator.py:162-172 | 6 to 15 valid transactions within 112 seconds, all labelled fraud. |
| Generator.TransactionGenerator.NewDeviceHighValue | src/ingestion/transaction_generator.py:174-178 | A spiked amount and a freshly drawn device id, set without validation, still meet the schema. |
| Generator.TransactionGenerator.Stream | src/ingestion/transaction_generator.py:180-206 | For n >= 1 it stops having emitted n to n + 14 transactions, all valid, each of a known profile and none before the start; a ratio of 0 or less labels none as fraud. |
| Generator.GaussBound | src/ingestion/transaction_generator.py:119 | A normal draw around any profile stays far below the schema's maximum. |

## Left out

- Kafka, Spark sessions, Redis, PostgreSQL and MLflow connections, time-to-live expiry, scheduling, HTTP wiring, authentication and metrics export: transport, modelled as atomic operations on state or not at all.
- Floating point: amounts, scores, means and the stability index are exact reals.
- The distance formula, `pstdev`'s square root, `round`, `ln`, the KS test, ROC and PR areas, and the learned models: parameters, assumed only where a lemma says so.
- Feature-row encoding (one-hot columns, column order): a model is any function of the vector and the transaction, so equal vectors give equal scores.
- The idempotence of the Redis history under redelivery is not claimed: a redelivered transaction is pushed a second time, and later transactions count both copies.
- Null columns in a streamed row, string coercion and non-ASCII upper-casing: rows reach validation fully typed.
- CSV reading, the missing-column error, reason labels, percentages, bucket labels and the model-performance block of the dashboard: text and formatting. The number of buckets is at least 1.
- SQL row order: the retraining query has no ORDER BY; the model reads insertion order. The order of feedback rows matters only to which ones a limit keeps.
- `in_review` is a case status nothing in the repository sets; the invariant shows no run reaches it.
- Promotion.ModelRegistry.RegisterAndStage: only Staging as the target, the one stage callers use; version numbers come from the registry and are the next above all of the model's.
- Decision.TagAgreementExact: with a travel threshold below 0 km/h, where every move is too fast, the histories that show a disagreement include an event that happened after the row and arrived before it.
- ValidationGate.FairnessReport: an empty test set, where the source's mean is NaN, gives 0 here; there is then no country to speak about.
- Generator.TransactionGenerator.NormalTransaction: a Gaussian draw is taken to stay within 9 standard deviations and an IPv4 address within 15 characters, as the Python library's algorithms do; `timedelta` rounds to the nearest microsecond.
- The audit log, card masking, listing endpoints, explanations (SHAP), model cards, resampling and business metrics: only easy members.
