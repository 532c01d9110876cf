/** The entities of the subunit2sql store and the values passed between the
    ingestion code and the store: Test, Run, TestRun, metadata, the field
    delta built by `increment_counts`, and the two exceptions of the core. */
module Model {
  import opened Wrappers

  /** A point in time, in whole microseconds since a fixed epoch. */
  type Timestamp = int

  /** The duration helper of the result reader, `get_duration(start, end)`:
      its code is not part of this model, so it is an input. */
  type DurationFn = (Option<Timestamp>, Option<Timestamp>) -> real

  const Success := "success"
  const Fail := "fail"
  const Skip := "skip"

  predicate IsKnownStatus(status: string) {
    status == Success || status == Fail || status == Skip
  }

  /** The cumulative record of one test identity. `runTime` is None while the
      column is unset (NULL), otherwise the smoothed average duration. */
  datatype Test = Test(id: nat, testId: string, runCount: nat, success: nat, failure: nat, runTime: Option<real>)
  {
    /** The invariant the whole core is built around. */
    predicate Consistent() {
      runCount == success + failure
    }
  }

  /** One ingested batch with its totals. */
  datatype Run = Run(id: nat, skips: nat, fails: nat, passes: nat, runTime: real, artifacts: Option<string>)

  /** One test's outcome within one run; `testId` and `runId` are the
      surrogate ids of the Test and Run rows. */
  datatype TestRun = TestRun(id: nat, testId: nat, runId: nat, startTime: Option<Timestamp>, endTime: Option<Timestamp>)

  /** A key/value mapping attached to a Run or a TestRun (by surrogate id). */
  datatype Metadata = Metadata(ownerId: nat, entries: map<string, string>)

  /** One entry of the result mapping produced by the stream reader. */
  datatype Outcome = Outcome(status: string, startTime: Option<Timestamp>, endTime: Option<Timestamp>, metadata: map<string, string>)

  /** One key of the result mapping with its outcome, in iteration order. */
  datatype Entry = Entry(testId: string, outcome: Outcome)

  /** The `test_values` dictionary: a field is Some exactly when its key is present. */
  datatype Delta = Delta(runCount: Option<nat>, success: Option<nat>, failure: Option<nat>, runTime: Option<real>)
  {
    /** An empty dictionary is falsy in the source. */
    predicate IsEmpty() {
      runCount.None? && success.None? && failure.None? && runTime.None?
    }
  }

  const EmptyDelta := Delta(None, None, None, None)

  datatype Error =
    | UnknownStatus(message: string)
    | InvalidRunCount

  /** Writes every key present in `values` onto the test (`update_test`);
      keys that are absent leave their field as it was. */
  function ApplyDelta(t: Test, values: Delta): (r: Test)
    ensures r.id == t.id && r.testId == t.testId
    ensures values.IsEmpty() ==> r == t
    ensures r.runCount == (if values.runCount.Some? then values.runCount.value else t.runCount)
    ensures r.success == (if values.success.Some? then values.success.value else t.success)
    ensures r.failure == (if values.failure.Some? then values.failure.value else t.failure)
    ensures r.runTime == (if values.runTime.Some? then values.runTime else t.runTime)
  {
    t.(runCount := if values.runCount.Some? then values.runCount.value else t.runCount,
       success := if values.success.Some? then values.success.value else t.success,
       failure := if values.failure.Some? then values.failure.value else t.failure,
       runTime := if values.runTime.Some? then values.runTime else t.runTime)
  }
}
