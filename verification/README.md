# Patient glucose batch pipeline — Dafny model

A model of the daily patient driver (`patient/driver.py`). The driver reads one
day's batch of patient rows, strips the identifying columns, range-checks the
three glucose readings, drops rows with an implausible reading, derives a
rounded glucose mean, a glucose level label and the measurement date, and
splits the result into rows without and rows with missed readings.

Modules, in pipeline order:

- `Options`: the nullable column value (`None` is SQL NULL).
- `Sql`: the Spark column semantics the driver relies on. Comparisons with NULL
  give Unknown (Kleene three-valued logic). `when(c, a).otherwise(b)` selects `a`
  only when `c` is True. `filter` keeps a row only when its condition is True.
  `+` and `/` propagate NULL. `round(x, 1)` rounds HALF_UP to tenths.
- `Seqs`: row-wise `Map` and order-preserving `Filter` over a batch, with the
  lemmas that the stages share.
- `Records`: the raw, redacted, normalised and enriched rows, the sentinel
  `-2.0` and the plausible range `0 < v <= 999`.
- `Redactor`, `Normalizer`, `Enricher`, `Partitioner`: one module per stage.
  Each stage's expression is written in the `Sql` algebra, as the driver writes it.
  Its contract then restates that behaviour in plain terms.
- `Pipeline`: the whole run, and the batch-level facts about it.
- `Scenarios`: single-row batches that pin down documented behaviour.

Readings are exact reals. The sentinel is a real stored in the reading column,
just as the driver stores it. No in-range reading can equal `-2.0`, so a
reading is in one of three states: NULL, in range, or sentinel. The batch date
is a parameter of `Pipeline.Run`. The driver's fixed date is `Pipeline.SourceDate`.

## Model

| member | source | states |
|---|---|---|
| `Redactor.Redact` | patient/driver.py:28-33 | the result keeps the identifier, the three readings (as mg_dl_t1..t3), the cancer flag and atrophy_present, each unchanged |
| `Redactor.RedactForgetsIdentity` | patient/driver.py:27-33 | changing first name, last name, email or address does not change the redacted row |
| `Redactor.RedactAll` | patient/driver.py:28-33 | redaction keeps the row count and order |
| `Normalizer.NormalizeReading` | patient/driver.py:37-39 | NULL stays NULL, a value in (0, 999] is unchanged, any other value becomes -2 |
| `Normalizer.NormalizeReadingIdempotent` | patient/driver.py:37-39 | normalising an already normalised reading changes nothing |
| `Normalizer.CancerIndicator` | patient/driver.py:40 | the indicator is 0 or 1, and 1 exactly when the flag is true; false and NULL both give 0 |
| `Normalizer.Normalize` | patient/driver.py:36-41 | patient_id and atrophy_present pass through; each reading is normalised on its own; cancer_present is 1 exactly for a true flag |
| `Normalizer.NormalizeTriState` | patient/driver.py:37-39 | after normalisation each reading is NULL, in range, or the sentinel |
| `Normalizer.NormalizeAll` | patient/driver.py:36-41 | normalisation keeps the row count and order |
| `Normalizer.NotRejected` | patient/driver.py:43 | one conjunct of the filter is never Unknown and is True exactly when the reading is not the sentinel, NULL included |
| `Normalizer.Accept` | patient/driver.py:43 | the filter keeps a row exactly when none of its readings is the sentinel |
| `Normalizer.AcceptIffPlausible` | patient/driver.py:36-43 | a row survives exactly when each raw reading was NULL or in (0, 999] |
| `Normalizer.NullsAreKept` | patient/driver.py:43 | a row whose readings are NULL or in range is never dropped |
| `Normalizer.DropRejected` | patient/driver.py:43 | survivors have no sentinel and come from the input; every copy of a sentinel-free input row survives, and no copy of a row with a sentinel does |
| `Normalizer.SurvivorsArePlausible` | patient/driver.py:36-43 | after normalising and filtering, every reading is NULL or in (0, 999] |
| `Normalizer.PlausibleBatchKept` | patient/driver.py:43 | a batch with only NULL or in-range readings passes the filter unchanged |
| `Sql.RoundTenth` | patient/driver.py:46 | round(x, 1) gives a whole number of tenths within 0.05 of x, with halves rounded away from zero |
| `Sql.Round` | patient/driver.py:46 | round of NULL is NULL; otherwise the result is the tenth nearest the value, with halves rounded away from zero (HALF_UP) |
| `Sql.RoundTenthFixesTenths` | patient/driver.py:46 | rounding leaves a value that is already in tenths unchanged |
| `Enricher.Mean` | patient/driver.py:46 | the mean is NULL exactly when some reading is NULL; otherwise it is the rounded average of all three readings |
| `Enricher.MeanBetweenReadings` | patient/driver.py:46 | a present mean is in tenths and lies between the smallest and largest reading, up to 0.05 |
| `Enricher.MeanOfPlausibleInRange` | patient/driver.py:46 | the mean of three in-range readings lies in [0, 999] |
| `Enricher.GlucoseLevel` | patient/driver.py:49-53 | the label is one of the four levels: "normal" iff mean < 140, "prediabetes" iff 140 < mean < 199, "diabetes" iff mean > 200, "not applicable" iff the mean is NULL, exactly 140, or in [199, 200] |
| `Enricher.Enrich` | patient/driver.py:46-56 | the row is kept untouched; it gets the batch date, a mean present exactly when all readings are, and a level that is "not applicable" when the mean is NULL |
| `Enricher.EnrichAll` | patient/driver.py:46-56 | enrichment keeps count and order, stamps the same date on every row, and derives each mean and level from that row's readings |
| `Partitioner.IsComplete` | patient/driver.py:59 | the complete condition holds exactly when all three readings are present |
| `Partitioner.IsIncomplete` | patient/driver.py:60 | the incomplete condition holds exactly when some reading is NULL, which is the negation of the complete condition |
| `Partitioner.Complete` | patient/driver.py:59 | the complete output holds every copy of each batch row with all readings present, and nothing else |
| `Partitioner.Incomplete` | patient/driver.py:60 | the incomplete output holds every copy of each batch row with a missed reading, and nothing else |
| `Seqs.FilterMultiplicity` | patient/driver.py:43 | a row filter keeps every copy of an accepted row and no copy of a rejected one |
| `Seqs.FilterConcat` | patient/driver.py:43 | a row filter keeps order: filtering a batch in two consecutive parts gives the same rows, in order, as filtering it whole |
| `Partitioner.PartitionIsTotalAndDisjoint` | patient/driver.py:59-60 | the two outputs share no row and together hold every row exactly once, so their sizes add up to the batch size |
| `Partitioner.MeanFollowsCompleteness` | patient/driver.py:46-60 | every complete row has a mean; every incomplete row has none and is labelled "not applicable" |
| `Pipeline.EnrichedBatch` | patient/driver.py:28-56 | the enriched batch is no larger than the input, has no sentinel and only NULL or in-range readings, and every row has the batch date and consistent mean and level |
| `Pipeline.Run` | patient/driver.py:28-60 | the complete and incomplete outputs are disjoint, together make up the enriched batch, and differ in whether a mean is present |
| `Pipeline.EnrichedBatchIsPerRow` | patient/driver.py:28-56 | the enriched batch is the input rows whose readings are all NULL or in range, in input order, each processed independently |
| `Pipeline.OutputCount` | patient/driver.py:43-60 | the two outputs together hold as many rows as the input has rows with only NULL or in-range readings |
| `Pipeline.OutputRowsAreClean` | patient/driver.py:36-60 | every written row has no sentinel and only NULL or in-range readings, carries the batch date, and has one of the four labels, "not applicable" when the mean is NULL |
| `Scenarios.NonPositiveReadingDropsRow` | patient/driver.py:37-43 | readings (150, 160, -5) cause the row to be dropped |
| `Scenarios.HighReadingDropsRow` | patient/driver.py:37-43 | a reading of 1000 causes the row to be dropped even when the other readings are NULL |
| `Scenarios.MissedReadingIsIncomplete` | patient/driver.py:40-60 | readings (100, 110, NULL) give an incomplete row with no mean, "not applicable", and a NULL cancer flag becomes 0 |
| `Scenarios.NormalRowIsComplete` | patient/driver.py:46-59 | readings (80, 90, 100) give mean 90.0, "normal", dated 2020-10-28, in the complete output |
| `Scenarios.PrediabetesRow` | patient/driver.py:40-59 | readings (150, 150, 150) give mean 150.0 and "prediabetes", and a true cancer flag becomes 1 |
| `Scenarios.RoundingReachesGap` | patient/driver.py:46-53 | readings (140, 140, 139.9) average below 140, but the mean rounds to 140.0 and gets "not applicable" |
| `Scenarios.UpperGapIsNotApplicable` | patient/driver.py:49-53 | a mean of 199.5 gets "not applicable" |

## Left out

- Creating the Spark session (patient/driver.py:8). It carries no semantics.
- The schema declaration and the CSV load (patient/driver.py:11-25). The schema is the input contract, so it appears as `RawRecord`. Loading is I/O.
- The JSON writes and overwrite mode (patient/driver.py:63-64). These are output I/O. The model stops at the two row sequences.
- Formatting the date with `datetime`/`strftime` (patient/driver.py:24). The date is an opaque string parameter.
- 32-bit float behaviour of `FloatType` (rounding error, NaN, infinities). Readings and the mean are exact reals. In Spark, NaN compares above 999, so a NaN reading would be sentineled. Reals have no NaN.
- Sql.RoundTenth: does not model the decimal conversion that Spark's `round` applies to a binary double. On exact reals it is plain HALF_UP rounding to tenths.
- Distributed execution and row order across partitions. Spark does not promise any output order. The model keeps input order, which the per-row logic never depends on.
- The patient_id uniqueness invariant. It is an upstream assumption that the driver never checks.

## Notes on the design

- The threshold gaps are preserved as written: a mean of exactly 140, or one in [199, 200], is "not applicable". Categorisation works on the rounded mean, so an exact average just below 140 can land in the gap (`Scenarios.RoundingReachesGap`).
- A mean of exactly 199 is also "not applicable": the prediabetes rule requires `mean < 199`, so the gap is the closed interval [199, 200], not (199, 200].
- A mean of 150 falls under "prediabetes", because 140 < 150 < 199. This follows the code's comparisons.
