/** The store operations of subunit2sql/db/api.py. The SQLAlchemy session is
    replaced by an in-memory store: one table (a sequence of rows) per entity,
    where a row's surrogate id is its position. `StoreState` is the store as a
    value, with each operation as a function; the class `Store` holds the
    tables in fields that its methods update in place, each method proved to
    do what the function of the same name says. */
module Api {
  import opened Wrappers
  import opened Model
  import Duration

  /** The position of the first test row with the given `test_id` at or after
      `from` (`filter_by(test_id=...).first()`). */
  function FirstMatch(tests: seq<Test>, testId: string, from: nat): (r: Option<nat>)
    requires from <= |tests|
    ensures r.Some? ==> from <= r.value < |tests| && tests[r.value].testId == testId
                        && forall j :: from <= j < r.value ==> tests[j].testId != testId
    ensures r.None? ==> forall j :: from <= j < |tests| ==> tests[j].testId != testId
    decreases |tests| - from
  {
    if from == |tests| then None
    else if tests[from].testId == testId then Some(from)
    else FirstMatch(tests, testId, from + 1)
  }

  datatype StoreState = StoreState(
    tests: seq<Test>,
    runs: seq<Run>,
    testRuns: seq<TestRun>,
    runMetadata: seq<Metadata>,
    testRunMetadata: seq<Metadata>)
  {
    /** Surrogate ids are positions in their table. */
    predicate Valid() {
      && (forall i :: 0 <= i < |tests| ==> tests[i].id == i)
      && (forall i :: 0 <= i < |runs| ==> runs[i].id == i)
      && (forall i :: 0 <= i < |testRuns| ==> testRuns[i].id == i)
    }

    /** Every Test keeps run_count == success + failure, and every TestRun
        refers to a Test and a Run that exist. */
    predicate Consistent() {
      && (forall i :: 0 <= i < |tests| ==> tests[i].Consistent())
      && (forall i :: 0 <= i < |testRuns| ==> testRuns[i].testId < |tests| && testRuns[i].runId < |runs|)
    }

    /** `get_test_by_test_id`: the first Test with that `test_id`, or None. */
    function FindTest(testId: string): (r: Option<Test>)
      ensures r.None? <==> forall i :: 0 <= i < |tests| ==> tests[i].testId != testId
      ensures r.Some? ==> r.value.testId == testId && r.value in tests
      ensures r.Some? && Valid() ==> r.value.id < |tests| && tests[r.value.id] == r.value
    {
      match FirstMatch(tests, testId, 0)
      case Some(i) => Some(tests[i])
      case None => None
    }

    /** `create_test`: InvalidRunCount, and no write, exactly when the counts
        disagree; otherwise one new row holding the given values. */
    function CreateTest(testId: string, runCount: nat, success: nat, failure: nat, runTime: Option<real>)
      : (r: (StoreState, Result<Test, Error>))
      ensures r.1.Err? <==> runCount != success + failure
      ensures r.1.Err? ==> r.1.error == InvalidRunCount && r.0 == this
      ensures r.1.Ok? ==>
                && r.1.value == Test(|tests|, testId, runCount, success, failure, runTime)
                && r.0 == this.(tests := tests + [r.1.value])
      ensures Valid() ==> r.0.Valid()
      ensures Consistent() ==> r.0.Consistent()
    {
      if runCount != success + failure then (this, Err(InvalidRunCount))
      else
        var test := Test(|tests|, testId, runCount, success, failure, runTime);
        (this.(tests := tests + [test]), Ok(test))
    }

    /** `create_run`: one new row with the counts and run time as given;
        `artifacts` is stored only when it is a non-empty string. */
    function CreateRun(skips: nat, fails: nat, passes: nat, runTime: real, artifacts: Option<string>)
      : (r: (StoreState, Run))
      ensures r.1.id == |runs| && r.0 == this.(runs := runs + [r.1])
      ensures r.1.skips == skips && r.1.fails == fails && r.1.passes == passes && r.1.runTime == runTime
      ensures r.1.artifacts.Some? <==> artifacts.Some? && artifacts.value != ""
      ensures r.1.artifacts.Some? ==> r.1.artifacts == artifacts
      ensures Valid() ==> r.0.Valid()
      ensures Consistent() ==> r.0.Consistent()
    {
      var run := Run(|runs|, skips, fails, passes, runTime,
                     if artifacts.Some? && artifacts.value != "" then artifacts else None);
      (this.(runs := runs + [run]), run)
    }

    /** `create_test_run`: one new row linking a test and a run, with the two
        timestamps as given. The status is accepted and not stored. */
    function CreateTestRun(testId: nat, runId: nat, status: string, startTime: Option<Timestamp>, endTime: Option<Timestamp>)
      : (r: (StoreState, TestRun))
      ensures r.1 == TestRun(|testRuns|, testId, runId, startTime, endTime)
      ensures r.0 == this.(testRuns := testRuns + [r.1])
      ensures Valid() ==> r.0.Valid()
      ensures Consistent() && testId < |tests| && runId < |runs| ==> r.0.Consistent()
    {
      var testRun := TestRun(|testRuns|, testId, runId, startTime, endTime);
      (this.(testRuns := testRuns + [testRun]), testRun)
    }

    /** `update_test`: writes the keys of `values` onto the Test with that id;
        every other row is left as it was. */
    function UpdateTest(values: Delta, id: nat): (r: StoreState)
      ensures |r.tests| == |tests|
      ensures forall i :: 0 <= i < |tests| ==> r.tests[i] == if i == id then ApplyDelta(tests[i], values) else tests[i]
      ensures r == this.(tests := r.tests)
      ensures Valid() ==> r.Valid()
    {
      if id < |tests| then this.(tests := tests[id := ApplyDelta(tests[id], values)]) else this
    }

    /** `add_run_metadata` and `add_test_run_metadata`. */
    function AddRunMetadata(meta: map<string, string>, runId: nat): (r: StoreState)
      ensures r == this.(runMetadata := runMetadata + [Metadata(runId, meta)])
    {
      this.(runMetadata := runMetadata + [Metadata(runId, meta)])
    }

    function AddTestRunMetadata(meta: map<string, string>, testRunId: nat): (r: StoreState)
      ensures r == this.(testRunMetadata := testRunMetadata + [Metadata(testRunId, meta)])
    {
      this.(testRunMetadata := testRunMetadata + [Metadata(testRunId, meta)])
    }
  }

  const EmptyStore := StoreState([], [], [], [], [])

  /** The store with its tables held in fields that its methods update. */
  class Store {
    var tests: seq<Test>
    var runs: seq<Run>
    var testRuns: seq<TestRun>
    var runMetadata: seq<Metadata>
    var testRunMetadata: seq<Metadata>

    function State(): StoreState
      reads this
    {
      StoreState(tests, runs, testRuns, runMetadata, testRunMetadata)
    }

    predicate Valid()
      reads this
    {
      State().Valid()
    }

    constructor ()
      ensures State() == EmptyStore && Valid()
    {
      tests, runs, testRuns := [], [], [];
      runMetadata, testRunMetadata := [], [];
    }

    method CreateTest(testId: string, runCount: nat, success: nat, failure: nat, runTime: Option<real>)
      returns (r: Result<Test, Error>)
      requires Valid()
      modifies this
      ensures Valid()
      ensures (State(), r) == old(State()).CreateTest(testId, runCount, success, failure, runTime)
    {
      if runCount != success + failure {
        return Err(InvalidRunCount);
      }
      var test := Test(|tests|, testId, runCount, success, failure, runTime);
      tests := tests + [test];
      r := Ok(test);
    }

    method CreateRun(skips: nat, fails: nat, passes: nat, runTime: real, artifacts: Option<string>)
      returns (run: Run)
      requires Valid()
      modifies this
      ensures Valid()
      ensures (State(), run) == old(State()).CreateRun(skips, fails, passes, runTime, artifacts)
    {
      run := Run(|runs|, skips, fails, passes, runTime, None);
      if artifacts.Some? && artifacts.value != "" {
        run := run.(artifacts := artifacts);
      }
      runs := runs + [run];
    }

    method CreateTestRun(testId: nat, runId: nat, status: string, startTime: Option<Timestamp>, endTime: Option<Timestamp>)
      returns (testRun: TestRun)
      requires Valid()
      modifies this
      ensures Valid()
      ensures (State(), testRun) == old(State()).CreateTestRun(testId, runId, status, startTime, endTime)
    {
      testRun := TestRun(|testRuns|, testId, runId, None, None);
      testRun := testRun.(endTime := endTime);
      testRun := testRun.(startTime := startTime);
      testRuns := testRuns + [testRun];
    }

    method UpdateTest(values: Delta, id: nat)
      requires Valid()
      modifies this
      ensures Valid()
      ensures State() == old(State()).UpdateTest(values, id)
    {
      if id < |tests| {
        tests := tests[id := ApplyDelta(tests[id], values)];
      }
    }

    method AddRunMetadata(meta: map<string, string>, runId: nat)
      modifies this
      ensures State() == old(State()).AddRunMetadata(meta, runId)
    {
      runMetadata := runMetadata + [Metadata(runId, meta)];
    }

    method AddTestRunMetadata(meta: map<string, string>, testRunId: nat)
      modifies this
      ensures State() == old(State()).AddTestRunMetadata(meta, testRunId)
    {
      testRunMetadata := testRunMetadata + [Metadata(testRunId, meta)];
    }

    /** `get_test_by_test_id`: scans the Test table for the first row with
        that `test_id`. */
    method GetTestByTestId(testId: string) returns (r: Option<Test>)
      requires Valid()
      ensures r.None? <==> forall i :: 0 <= i < |tests| ==> tests[i].testId != testId
      ensures r.Some? ==> r.value.testId == testId && r.value.id < |tests| && tests[r.value.id] == r.value
      ensures r == State().FindTest(testId)
    {
      var i := 0;
      while i < |tests|
        invariant 0 <= i <= |tests|
        invariant FirstMatch(tests, testId, i) == FirstMatch(tests, testId, 0)
      {
        if tests[i].testId == testId {
          return Some(tests[i]);
        }
        i := i + 1;
      }
      return None;
    }

    /** `get_test_run_duration`: None where the source's lookup finds no row
        (and the attribute access on None fails), otherwise the duration string
        of that test run. */
    function GetTestRunDuration(testRunId: nat): (r: Option<string>)
      reads this
      requires Valid()
      ensures r.None? <==> forall i :: 0 <= i < |testRuns| ==> testRuns[i].id != testRunId
      ensures r.Some? ==> exists i :: 0 <= i < |testRuns| && testRuns[i].id == testRunId
                                    && r.value == Duration.TestRunDuration(testRuns[i].startTime, testRuns[i].endTime)
    {
      if testRunId < |testRuns| then
        var testRun := testRuns[testRunId];
        Some(Duration.TestRunDuration(testRun.startTime, testRun.endTime))
      else None
    }
  }
}
