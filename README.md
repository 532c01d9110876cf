# subunit2sql ingestion core in Dafny

subunit2sql stores the results of test runs in a SQL database. One batch of outcomes holds, for each test id, a status, a start time, an end time and metadata. Ingesting a batch creates one Run row carrying the batch totals. It then creates or updates one cumulative Test row per test id, keeping the run count, the success and failure counts and a running average of the success durations. Finally it appends one TestRun row per outcome. The store API validates new Test rows and renders a test run's duration as text.

This project models that core and proves what it promises:

- `Model` (model.dfy): the entities (Test, Run, TestRun, metadata), the field delta that `increment_counts` builds, and the two errors.
- `Stats` (stats.dfy): `running_avg`, `increment_counts`, `get_run_totals` and the counts of a test seen for the first time.
- `Api` (api.dfy): the store. `StoreState` holds the tables as a value, with each store operation as a function. The class `Store` holds the same tables in fields that its methods update in place. Each method is proved to leave the store in the state the function of the same name gives.
- `Duration` (duration.dfy): `get_test_run_duration`. This covers timedelta normalisation of `end - start`, `'%d.%06ds'` formatting, and a parser that proves the rendering loses nothing.
- `Shell` (shell.dfy): `process_results`.
  - `Step`, `ResolveTest`, `RecordOutcome`, `IngestEntries` and `Ingest` state what one entry and one batch do to a store value.
  - The method `ProcessResults` works on a `Store` object: it creates the Run, then runs the loop `RecordEntries`. Both are proved to do exactly what `Ingest` and `IngestEntries` say.
  - The lemmas state the batch-level promises: the invariant `run_count == success + failure`, one TestRun recording each entry, the metadata records written, and which errors can stop a batch.
- `Scenario` (scenario.dfy): two batches worked through, from an empty store to the stored values.

Timestamps are whole microseconds (`int`). Durations and run times are exact `real`s. The duration helper of the result reader is a function parameter (`DurationFn`). Tables are sequences in which a row's surrogate id is its position.

## Model

| member | source | states |
|---|---|---|
| Stats.RunningAvg | subunit2sql/shell.py:58-69 | Only the `run_time` key is written. With no previous average it is the outcome's duration d. Otherwise it is the value r with r·(n+1) = n·avg + d, where n is the success count before the outcome, and it lies between avg and d. |
| Stats.RunningAvgIsMean | subunit2sql/shell.py:58-69 | If the stored run time is the mean of the durations of the test's n successes so far, the value written for one more success is the mean of all n+1 durations. |
| Stats.IncrementCounts | subunit2sql/shell.py:72-85 | success: exactly `running_avg` applied to {run_count+1, success+1}, so the run_time is the weighted average and there is no failure key. fail: run_count+1 and failure+1 only. skip: the empty delta. Any other status: UnknownStatus("Unknown test status " + status) and no delta. The result is Ok exactly for the three known statuses, and the delta is empty exactly for skip. |
| Stats.IncrementPreservesConsistency | subunit2sql/shell.py:73-79 | Applying the delta to a Test with run_count == success + failure keeps that equality and the Test's ids. run_count grows by one unless the status is skip. |
| Stats.FirstSeenCounts | subunit2sql/shell.py:111-120 | A first-seen test starts with one success exactly for `success`, one failure exactly for `fail`, and neither for any other status. |
| Stats.GetRunTotals | subunit2sql/shell.py:88-97 | Each of the success, fails and skips totals is the number of times its status occurs among the batch's statuses. |
| Stats.CountStatus | subunit2sql/shell.py:89-91 | The number of entries with a given status is at most the number of entries. |
| Stats.CountIsMultiplicity | subunit2sql/shell.py:88-97 | Each total of `get_run_totals` is the multiplicity of its status in the multiset of the batch's statuses. |
| Stats.TotalsIndependentOfOrder | subunit2sql/shell.py:88-97 | Two batches with the same multiset of statuses have the same totals. |
| Stats.TotalsCoverKnownEntries | subunit2sql/shell.py:88-97 | success + fails + skips ≤ number of entries, with equality exactly when every status is success, fail or skip. |
| Model.ApplyDelta | subunit2sql/shell.py:127-130 | Writing a delta onto a Test sets exactly the fields whose keys are present and keeps the others and the ids. The empty delta changes nothing. |
| Api.FirstMatch | subunit2sql/db/api.py:132-136 | The position of the first Test row at or after `from` whose `test_id` matches, or None when no row there matches. |
| Api.StoreState.FindTest | subunit2sql/db/api.py:132-136 | None exactly when no Test row has that `test_id`. Otherwise the result is a stored row with that `test_id`, found at its id. |
| Api.Store.GetTestByTestId | subunit2sql/db/api.py:132-136 | The scan over the Test table returns None exactly when no row has that `test_id`; otherwise a row with it, stored at its id. It returns the same result as `FindTest`. |
| Api.StoreState.CreateTest | subunit2sql/db/api.py:44-65 | InvalidRunCount, with the store unchanged, exactly when run_count ≠ success + failure. Otherwise exactly one new Test row holding the given values, with the next id. Validity and consistency of the store are kept. |
| Api.Store.CreateTest | subunit2sql/db/api.py:44-65 | The method on the store object leaves exactly the state and result of `StoreState.CreateTest`, and keeps the store valid. |
| Api.StoreState.CreateRun | subunit2sql/db/api.py:68-87 | Exactly one new Run row with skips, fails, passes and run time as given. `artifacts` is set exactly when the argument is a non-empty string, and then equals it. |
| Api.Store.CreateRun | subunit2sql/db/api.py:68-87 | The method leaves exactly the state and Run of `StoreState.CreateRun`. |
| Api.StoreState.CreateTestRun | subunit2sql/db/api.py:90-107 | Exactly one new TestRun row with the given test id, run id and timestamps. The status is not stored. Consistency is kept when the test and run exist. |
| Api.Store.CreateTestRun | subunit2sql/db/api.py:90-107 | The method, setting the fields one by one, leaves exactly the state and TestRun of `StoreState.CreateTestRun`. |
| Api.StoreState.UpdateTest | subunit2sql/shell.py:129-130 | Only the Test row with that id changes, by `ApplyDelta`. Every other row and table is unchanged. |
| Api.Store.UpdateTest | subunit2sql/shell.py:129-130 | The method leaves exactly the state of `StoreState.UpdateTest`. |
| Api.Store.AddRunMetadata | subunit2sql/shell.py:107-108 | The method appends exactly one run metadata record, owned by the given run, and leaves every other table unchanged. |
| Api.Store.AddTestRunMetadata | subunit2sql/shell.py:136-138 | The method appends exactly one test-run metadata record, owned by the given test run, and leaves every other table unchanged. |
| Api.Store.GetTestRunDuration | subunit2sql/db/api.py:161-173 | None exactly when no TestRun has that id. Otherwise the duration string of that row's start and end times. |
| Duration.Subtract | subunit2sql/db/api.py:170 | `end - start` as a normalised timedelta: 0 ≤ seconds < 86400 and 0 ≤ microseconds < 10^6, totalling exactly end − start microseconds, negative deltas included. |
| Duration.NormalDeltaParts | subunit2sql/db/api.py:171-172 | For a normalised delta of D microseconds, days·86400 + seconds = D div 10^6 and microseconds = D mod 10^6. |
| Duration.NatToString | subunit2sql/db/api.py:171-172 | `%d` of a natural: non-empty, all digits, no leading zero, and its decimal value is the number. |
| Duration.ZeroPad6 | subunit2sql/db/api.py:171-172 | `%06d` of a number below 10^6: exactly six digits whose value is the number. |
| Duration.FormatInt | subunit2sql/db/api.py:171-172 | `%d` of an integer: it reads back as the integer, starts with `-` exactly when the integer is negative, and its digits have no leading zero. |
| Duration.FormatDelta | subunit2sql/db/api.py:171-172 | For a normalised delta of D microseconds the text is exactly `'%d.%06ds'` of (D div 10^6, D mod 10^6), as `FormatMicros` spells it out, and it reads back as exactly D. |
| Duration.ParseFormatMicros | subunit2sql/db/api.py:171-172 | The `'%d.%06ds'` rendering of any microsecond count, negative ones included, reads back as that count, so the rendering loses nothing. |
| Duration.TestRunDuration | subunit2sql/db/api.py:165-173 | The empty string exactly when start or end is missing. Otherwise a string that reads back as exactly end − start microseconds. |
| Duration.TestRunDurationFormat | subunit2sql/db/api.py:165-173 | When both timestamps are present, the string is exactly `'%d.%06ds'` of (D div 10^6, D mod 10^6) for D = end − start microseconds. |
| Duration.OneAndAHalfSeconds | subunit2sql/db/api.py:170-173 | A test run lasting 1.5 s renders as `1.500000s`. |
| Shell.BeginRun | subunit2sql/shell.py:102-108 | Appends exactly one Run, with the batch totals, the popped run time and the non-empty artifacts location. The run metadata gains one record owned by the new Run exactly when run metadata is given. Tests, TestRuns and test-run metadata are unchanged, and validity and consistency are kept. |
| Shell.ResolveTest | subunit2sql/shell.py:110-130 | Finding or creating the Test fails exactly for an unknown status of a test that already exists, with the UnknownStatus message. Otherwise it touches neither the Runs, the TestRuns nor either metadata table. |
| Shell.RecordOutcome | subunit2sql/shell.py:131-138 | Appends the TestRun of the outcome, with the next id, the given Test and Run ids and the outcome's timestamps. The test-run metadata gains one record owned by that TestRun exactly when the outcome's metadata is non-empty. Tests, Runs and run metadata are unchanged. |
| Shell.Step | subunit2sql/shell.py:109-138 | One entry fails exactly for an unknown status of an existing test, with the UnknownStatus message. Otherwise it appends exactly one TestRun, keeps the existing ones, and adds the entry's metadata record exactly when its metadata is non-empty. Runs and run metadata are unchanged. |
| Shell.IngestEntries | subunit2sql/shell.py:109-138 | The loop leaves the Runs and run metadata alone and only appends TestRuns, at most one per entry. It ends without error exactly when it appends one per entry. On an error, the entry just after the recorded ones has an unknown status, and the error names that status. |
| Shell.Ingest | subunit2sql/shell.py:100-139 | A batch appends exactly one Run after the existing ones, with the totals of its entries, its run time and the non-empty artifacts location. It adds the run metadata record exactly when run metadata is given. Its TestRuns are those of `IngestEntries`: one per entry when it completes, otherwise up to the first entry of unknown status, which the error names. |
| Shell.ResolveEntryTest | subunit2sql/shell.py:110-130 | The first half of the loop body on the store object leaves the state and gives the Test id or error that `ResolveTest` gives. |
| Shell.RecordEntryOutcome | subunit2sql/shell.py:131-138 | The second half of the loop body on the store object leaves the state that `RecordOutcome` gives. |
| Shell.ProcessEntry | subunit2sql/shell.py:109-138 | One pass of the loop ends in the state `Step` gives, or stops with `Step`'s error and the store unchanged. |
| Shell.ProcessResults | subunit2sql/shell.py:100-139 | The method on the store object ends in exactly the state and error that `Ingest` gives for the batch, and keeps the store valid. |
| Shell.RecordEntries | subunit2sql/shell.py:109-138 | The loop over the entries on the store object ends in exactly the state and error that `IngestEntries` gives, and keeps the store valid. |
| Shell.ResolveTestFacts | subunit2sql/shell.py:110-130 | Finding or creating the Test keeps the store valid and consistent and keeps every existing test id. The id it gives is that of a Test with the entry's test id. |
| Shell.RecordOutcomeFacts | subunit2sql/shell.py:131-138 | Recording an outcome for an existing Test and Run keeps the store valid and consistent. |
| Shell.StepFacts | subunit2sql/shell.py:109-138 | One entry keeps the store valid and consistent and keeps every existing test id. Its TestRun records the entry: its run, its timestamps and a Test with its test id. |
| Shell.IngestEntriesFacts | subunit2sql/shell.py:109-138 | The loop keeps the store valid and consistent and keeps every existing test id. |
| Shell.IngestEntriesMetadata | subunit2sql/shell.py:109-138 | The test-run metadata the loop adds is exactly one record per recorded entry with non-empty metadata, in order, each owned by the id of that entry's TestRun. |
| Shell.MetadataRecordsOwners | subunit2sql/shell.py:136-138 | Each test-run metadata record of a batch is owned by the TestRun of one of its entries and holds non-empty metadata. |
| Shell.MetadataRecordsIncrease | subunit2sql/shell.py:136-138 | The owners of the test-run metadata records strictly increase, so no TestRun gets two records. |
| Shell.IngestEntriesRecords | subunit2sql/shell.py:109-135 | The k-th appended TestRun records the k-th entry: its run, its timestamps and a Test with its test id. |
| Shell.IngestPreservesConsistency | subunit2sql/shell.py:100-139 | After a batch the store is valid and every Test keeps run_count == success + failure. |
| Shell.IngestOneTestRunPerEntry | subunit2sql/shell.py:109-135 | Each TestRun a batch appends records its entry, in order: it is in the new Run, has the entry's timestamps and refers to the Test with the entry's test id. |
| Shell.IngestMetadata | subunit2sql/shell.py:100-139 | The test-run metadata a batch adds is exactly one record per recorded entry with non-empty metadata, in order, each owned by the id of that entry's TestRun. |
| Shell.IngestErrors | subunit2sql/shell.py:100-139 | A batch never stops with InvalidRunCount, and it always completes when every status is success, fail or skip. |
| Shell.StepFirstSeen | subunit2sql/shell.py:111-125 | A first-seen test never fails. It is created with counts 1/1/0 for success, 1/0/1 for fail and 0/0/0 for anything else, and with the outcome's duration as run time. |
| Shell.StepExisting | subunit2sql/shell.py:126-130 | For an existing test, a skip writes nothing to the Test table. success or fail writes the `increment_counts` delta to that row only. Any other status stops with UnknownStatus. |
| Scenario.FirstTotals | subunit2sql/shell.py:88-97 | A batch with one success, one fail and one skip has totals 1/1/1. |
| Scenario.FirstBatch | subunit2sql/shell.py:100-139 | Ingesting {A: success 2.0 s, B: fail, C: skip} into an empty store gives one Run with totals 1/1/1. A is created as 1/1/0 with run time 2.0 and B as 1/0/1. C, first seen as a skip, is created as 0/0/0. There are three TestRuns. |
| Scenario.SecondBatch | subunit2sql/shell.py:100-139 | A second success of A lasting 4.0 s makes A 2/2/0 with run time 3.0 and adds the second Run and a fourth TestRun. |

## Left out

- Command-line options, configuration loading and `main` (subunit2sql/shell.py:26-55, 142-154) are left out. They are configuration plumbing and file or stdin I/O. `ProcessResults` takes the artifacts location and the run metadata as parameters, and an empty run-metadata map stands for an unset option.
- The engine facade and sessions (subunit2sql/db/api.py:26-41) are left out, as are transaction semantics and `session.close()`. The database becomes the in-memory store of `Api`, and each write takes effect at once.
- The listing and query wrappers `get_all_*`, `get_test_by_id` and `get_test_runs_by_*` (subunit2sql/db/api.py:110-158) are left out. They are thin query calls outside the ingestion path. `get_test_run_by_id` appears only as the lookup inside `Api.Store.GetTestRunDuration`.
- The subunit stream reader and `subunit.get_duration` are not part of this model. The duration helper is the `DurationFn` parameter, and a batch is given already read.
- Api.Store.GetTestRunDuration: the source dereferences the lookup result without a check, so a missing test run raises an AttributeError there. The model gives None instead.
- Stats.RunningAvg: durations are exact reals. The IEEE floating-point rounding of the source is not modelled.
- Duration.Subtract: timestamps are integer microseconds, so datetime arithmetic, time zones and the truthiness of datetime objects are not modelled. A missing timestamp is `None`.
- Shell.ProcessResults: the `run_time` key is not popped out of the results mapping in place. The batch carries it as a separate field, which is the mapping the source has after the pop. Entries are a sequence in the mapping's iteration order.
- Concurrent ingestion into one database (read-modify-write races on Test rows) is left out. The code is single-threaded.
- The call sites in subunit2sql/shell.py do not match subunit2sql/db/api.py as written, and the model follows the intended data flow:
  - `create_run` is passed a `session` keyword it does not accept (subunit2sql/shell.py:104-106).
  - `create_test` is passed six arguments but takes four, and has no `run_time` parameter (subunit2sql/shell.py:123-125, subunit2sql/db/api.py:44). `Api.StoreState.CreateTest` stores the run time its caller passes.
  - `create_test_run` is passed a session it does not accept. It takes `status` and does not store it, and the model keeps that.
  - `update_test`, `add_run_metadata` and `add_test_run_metadata` are called but not defined in subunit2sql/db/api.py. They are modelled as the store updates their names and arguments describe.
- Two behaviours of the first sighting of a test, kept as the code has them:
  - A first-seen skip, or any status other than success or fail, still creates a Test with counts 0/0/0 and raises nothing (subunit2sql/shell.py:118-125).
  - The first-seen run time is the outcome's duration whatever the status (subunit2sql/shell.py:121-125), although later outcomes average only the durations of successes.
