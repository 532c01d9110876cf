/** The statistics rules of subunit2sql/shell.py: the smoothed running
    average, the per-status field delta, the run totals and the counts of a
    test seen for the first time. */
module Stats {
  import opened Wrappers
  import opened Model

  /** `running_avg`: writes the `run_time` key of `values`. With a numeric
      previous average the new value is the average weighted by the success
      count before this outcome; without one it is the outcome's duration. */
  function RunningAvg(test: Test, values: Delta, result: Outcome, getDuration: DurationFn): (r: Delta)
    ensures r == values.(runTime := r.runTime) && r.runTime.Some?
    ensures var d := getDuration(result.startTime, result.endTime);
            test.runTime.None? ==> r.runTime.value == d
    ensures var d := getDuration(result.startTime, result.endTime);
            test.runTime.Some? ==>
              r.runTime.value * (test.success as real + 1.0) == test.success as real * test.runTime.value + d
    ensures var d := getDuration(result.startTime, result.endTime);
            test.runTime.Some? ==> Between(r.runTime.value, test.runTime.value, d)
  {
    var count := test.success as real;
    var currRuntime := getDuration(result.startTime, result.endTime);
    match test.runTime
    case Some(avgPrev) =>
      var newAvg := (count * avgPrev + currRuntime) / (count + 1.0);
      WeightedAverageBetween(count, avgPrev, currRuntime);
      values.(runTime := Some(newAvg))
    case None =>
      values.(runTime := Some(currRuntime))
  }

  predicate Between(x: real, a: real, b: real) {
    (a <= x <= b) || (b <= x <= a)
  }

  lemma WeightedAverageBetween(c: real, a: real, d: real)
    requires c >= 0.0
    ensures var m := (c * a + d) / (c + 1.0);
            m * (c + 1.0) == c * a + d && Between(m, a, d)
  {
    var m := (c * a + d) / (c + 1.0);
    assert m * (c + 1.0) == c * a + d;
    assert m - a == (d - a) / (c + 1.0) by {
      assert (m - a) * (c + 1.0) == d - a;
    }
    assert d - m == c * (d - a) / (c + 1.0) by {
      assert (d - m) * (c + 1.0) == c * (d - a);
    }
    if a <= d {
      assert (d - a) / (c + 1.0) >= 0.0;
      assert c * (d - a) >= 0.0;
    } else {
      assert (d - a) / (c + 1.0) <= 0.0;
      assert c * (d - a) <= 0.0;
    }
  }

  /** `increment_counts`: the delta a new outcome applies to an existing test,
      or UnknownStatus naming the status. */
  function IncrementCounts(test: Test, result: Outcome, getDuration: DurationFn): (r: Result<Delta, Error>)
    ensures r.Ok? <==> IsKnownStatus(result.status)
    ensures r.Ok? ==> (r.value.IsEmpty() <==> result.status == Skip)
    ensures result.status == Success ==>
              r.Ok? && r.value.runCount == Some(test.runCount + 1) && r.value.success == Some(test.success + 1)
              && r.value.failure.None? && r.value.runTime.Some?
    ensures result.status == Success ==>
              r == Ok(RunningAvg(test, Delta(Some(test.runCount + 1), Some(test.success + 1), None, None),
                                 result, getDuration))
    ensures result.status == Fail ==>
              r.Ok? && r.value.runCount == Some(test.runCount + 1) && r.value.failure == Some(test.failure + 1)
              && r.value.success.None? && r.value.runTime.None?
    ensures result.status == Skip ==> r == Ok(EmptyDelta)
    ensures !IsKnownStatus(result.status) ==> r == Err(UnknownStatus("Unknown test status " + result.status))
  {
    var testValues := Delta(Some(test.runCount + 1), None, None, None);
    var status := result.status;
    if status == Success then
      Ok(RunningAvg(test, testValues.(success := Some(test.success + 1)), result, getDuration))
    else if status == Fail then
      Ok(testValues.(failure := Some(test.failure + 1)))
    else if status == Skip then
      Ok(EmptyDelta)
    else
      Err(UnknownStatus("Unknown test status " + status))
  }

  /** Applying the delta of a known non-skip status keeps
      run_count == success + failure. */
  lemma IncrementPreservesConsistency(test: Test, result: Outcome, getDuration: DurationFn)
    requires test.Consistent()
    ensures match IncrementCounts(test, result, getDuration)
            case Ok(values) =>
              var t' := ApplyDelta(test, values);
              t'.Consistent() && t'.id == test.id && t'.testId == test.testId
              && t'.runCount == test.runCount + (if result.status == Skip then 0 else 1)
            case Err(_) => true
  {
  }

  /** The counts a first-seen test is created with (shell.py, the `if not
      db_test` branch): one success, one failure, or neither for any other
      status, including skip and unknown ones. */
  function FirstSeenCounts(status: string): (r: (nat, nat))
    ensures r.0 + r.1 <= 1
    ensures r.0 == 1 <==> status == Success
    ensures r.1 == 1 <==> status == Fail
  {
    if status == Success then (1, 0)
    else if status == Fail then (0, 1)
    else (0, 0)
  }

  /** The `totals` dictionary of `get_run_totals`. */
  datatype Totals = Totals(success: nat, fails: nat, skips: nat)

  /** The number of entries whose status is `status`. */
  function CountStatus(results: seq<Entry>, status: string): (n: nat)
    ensures n <= |results|
  {
    if results == [] then 0
    else CountStatus(results[..|results| - 1], status) + (if results[|results| - 1].outcome.status == status then 1 else 0)
  }

  function Statuses(results: seq<Entry>): (r: seq<string>)
    ensures |r| == |results| && forall i :: 0 <= i < |results| ==> r[i] == results[i].outcome.status
  {
    seq(|results|, i requires 0 <= i < |results| => results[i].outcome.status)
  }

  /** `get_run_totals`: each total is the number of entries with that
      status. */
  function GetRunTotals(results: seq<Entry>): (r: Totals)
    ensures var statuses := multiset(Statuses(results));
            r.success == statuses[Success] && r.fails == statuses[Fail] && r.skips == statuses[Skip]
  {
    CountIsMultiplicity(results, Success);
    CountIsMultiplicity(results, Fail);
    CountIsMultiplicity(results, Skip);
    Totals(CountStatus(results, Success), CountStatus(results, Fail), CountStatus(results, Skip))
  }

  /** Each total is the multiplicity of its status among the entries, so the
      totals do not depend on the order of the entries. */
  lemma {:induction false} CountIsMultiplicity(results: seq<Entry>, status: string)
    ensures CountStatus(results, status) == multiset(Statuses(results))[status]
  {
    if results != [] {
      var init := results[..|results| - 1];
      CountIsMultiplicity(init, status);
      assert Statuses(results) == Statuses(init) + [results[|results| - 1].outcome.status];
    }
  }

  lemma TotalsIndependentOfOrder(a: seq<Entry>, b: seq<Entry>)
    requires multiset(Statuses(a)) == multiset(Statuses(b))
    ensures GetRunTotals(a) == GetRunTotals(b)
  {
  }

  predicate AllKnown(results: seq<Entry>) {
    forall i :: 0 <= i < |results| ==> IsKnownStatus(results[i].outcome.status)
  }

  /** Entries with any other status are counted nowhere: the three totals add
      up to at most the number of entries, with equality exactly when every
      status is success, fail or skip. */
  lemma {:induction false} TotalsCoverKnownEntries(results: seq<Entry>)
    ensures var t := GetRunTotals(results);
            t.success + t.fails + t.skips <= |results|
            && (t.success + t.fails + t.skips == |results| <==> AllKnown(results))
  {
    if results != [] {
      var init := results[..|results| - 1];
      TotalsCoverKnownEntries(init);
      var last := results[|results| - 1];
      if AllKnown(results) {
        assert AllKnown(init) by {
          forall i | 0 <= i < |init| ensures IsKnownStatus(init[i].outcome.status) {
            assert init[i] == results[i];
          }
        }
      }
      if !AllKnown(results) && IsKnownStatus(last.outcome.status) {
        var i :| 0 <= i < |results| && !IsKnownStatus(results[i].outcome.status);
        assert init[i] == results[i];
      }
    }
  }

  /** The sum and the arithmetic mean of a sequence of durations. */
  function Sum(ds: seq<real>): real {
    if ds == [] then 0.0 else Sum(ds[..|ds| - 1]) + ds[|ds| - 1]
  }

  function Mean(ds: seq<real>): real
    requires |ds| > 0
  {
    Sum(ds) / |ds| as real
  }

  /** The running average is the arithmetic mean of the durations of the
      test's successes: if the stored value is the mean of the `success`
      durations seen so far (anything at all while there are none), the value
      written for one more success is the mean including its duration. */
  lemma RunningAvgIsMean(test: Test, values: Delta, result: Outcome, getDuration: DurationFn, ds: seq<real>)
    requires |ds| == test.success
    requires |ds| > 0 ==> test.runTime == Some(Mean(ds))
    ensures RunningAvg(test, values, result, getDuration).runTime
            == Some(Mean(ds + [getDuration(result.startTime, result.endTime)]))
  {
    var d := getDuration(result.startTime, result.endTime);
    var ds' := ds + [d];
    assert ds'[..|ds'| - 1] == ds;
    assert Sum(ds') == Sum(ds) + d;
    var r := RunningAvg(test, values, result, getDuration).runTime.value;
    var n := |ds| as real;
    if |ds| == 0 {
      assert Sum(ds) == 0.0;
      assert r * 1.0 == d;
    } else {
      var a := test.runTime.value;
      assert a * n == Sum(ds);
      assert r * (n + 1.0) == n * a + d;
      assert r == Sum(ds') / (n + 1.0);
    }
  }
}
