/** Two batches ingested one after the other into an empty store, worked
    through to the stored values. */
module Scenario {
  import opened Wrappers
  import opened Model
  import opened Stats
  import opened Api
  import opened Shell

  /** Durations in seconds from two timestamps in microseconds, zero when one is missing. */
  function Elapsed(start: Option<Timestamp>, end: Option<Timestamp>): real {
    if start.Some? && end.Some? then (end.value - start.value) as real / 1000000.0 else 0.0
  }

  const EntryA := Entry("A", Outcome(Success, Some(0), Some(2000000), map[]))
  const EntryB := Entry("B", Outcome(Fail, Some(0), Some(1000000), map[]))
  const EntryC := Entry("C", Outcome(Skip, None, None, map[]))
  const First := Batch(10.0, [EntryA, EntryB, EntryC])

  const EntryA2 := Entry("A", Outcome(Success, Some(0), Some(4000000), map[]))
  const Second := Batch(5.0, [EntryA2])

  // The store after each step of the first batch.
  const Run0 := Run(0, 1, 1, 1, 10.0, None)
  const TestA := Test(0, "A", 1, 1, 0, Some(2.0))
  const TestB := Test(1, "B", 1, 0, 1, Some(1.0))
  const TestC := Test(2, "C", 0, 0, 0, Some(0.0))
  const RunA := TestRun(0, 0, 0, Some(0), Some(2000000))
  const RunB := TestRun(1, 1, 0, Some(0), Some(1000000))
  const RunC := TestRun(2, 2, 0, None, None)
  const AfterRun := StoreState([], [Run0], [], [], [])
  const AfterA := StoreState([TestA], [Run0], [RunA], [], [])
  const AfterB := StoreState([TestA, TestB], [Run0], [RunA, RunB], [], [])
  const AfterC := StoreState([TestA, TestB, TestC], [Run0], [RunA, RunB, RunC], [], [])

  lemma FirstTotals()
    ensures GetRunTotals(First.entries) == Totals(1, 1, 1)
  {
    var e := First.entries;
    assert e[..2][..1] == e[..1] && e[..1][..0] == [] && e[..3] == e;
    assert CountStatus(e[..1], Success) == 1 && CountStatus(e[..1], Fail) == 0 && CountStatus(e[..1], Skip) == 0;
    assert CountStatus(e[..2], Success) == 1 && CountStatus(e[..2], Fail) == 1 && CountStatus(e[..2], Skip) == 0;
  }

  lemma StepA()
    ensures Step(AfterRun, EntryA, 0, Elapsed) == Ok(AfterA)
  {
    assert AfterRun.FindTest("A").None?;
    assert Elapsed(Some(0), Some(2000000)) == 2.0;
    assert FirstSeenCounts(Success) == (1, 0);
    var (s', created) := AfterRun.CreateTest("A", 1, 1, 0, Some(2.0));
    assert created == Ok(TestA);
    assert s' == AfterRun.(tests := [TestA]);
    var (s'', testRun) := s'.CreateTestRun(0, 0, Success, Some(0), Some(2000000));
    assert testRun == RunA;
    assert s'' == AfterA;
  }

  lemma StepB()
    ensures Step(AfterA, EntryB, 0, Elapsed) == Ok(AfterB)
  {
    assert AfterA.FindTest("B").None?;
    assert Elapsed(Some(0), Some(1000000)) == 1.0;
    assert FirstSeenCounts(Fail) == (0, 1);
    var (s', created) := AfterA.CreateTest("B", 1, 0, 1, Some(1.0));
    assert created == Ok(TestB);
    assert s' == AfterA.(tests := [TestA, TestB]);
    var (s'', testRun) := s'.CreateTestRun(1, 0, Fail, Some(0), Some(1000000));
    assert testRun == RunB;
    assert s'' == AfterB;
  }

  lemma StepC()
    ensures Step(AfterB, EntryC, 0, Elapsed) == Ok(AfterC)
  {
    assert AfterB.FindTest("C").None?;
    assert Elapsed(None, None) == 0.0;
    assert FirstSeenCounts(Skip) == (0, 0);
    var (s', created) := AfterB.CreateTest("C", 0, 0, 0, Some(0.0));
    assert created == Ok(TestC);
    assert s' == AfterB.(tests := [TestA, TestB, TestC]);
    var (s'', testRun) := s'.CreateTestRun(2, 0, Skip, None, None);
    assert testRun == RunC;
    assert s'' == AfterC;
  }

  lemma EntriesC()
    ensures IngestEntries(AfterB, [EntryC], 0, Elapsed) == (AfterC, None)
  {
    StepC();
    assert [EntryC][1..] == [];
  }

  lemma EntriesBC()
    ensures IngestEntries(AfterA, [EntryB, EntryC], 0, Elapsed) == (AfterC, None)
  {
    StepB();
    EntriesC();
    assert [EntryB, EntryC][1..] == [EntryC];
  }

  lemma FirstEntries()
    ensures IngestEntries(AfterRun, [EntryA, EntryB, EntryC], 0, Elapsed) == (AfterC, None)
  {
    StepA();
    EntriesBC();
    assert [EntryA, EntryB, EntryC][1..] == [EntryB, EntryC];
  }

  /** The first batch gives one Run with one pass, one failure and one skip;
      A is created with one success and run time 2.0, B with one failure, and
      C, first seen as a skip, with all counts zero. */
  lemma FirstBatch()
    ensures Ingest(EmptyStore, First, None, map[], Elapsed) == (AfterC, None)
  {
    FirstTotals();
    var (s1, run) := EmptyStore.CreateRun(1, 1, 1, 10.0, None);
    assert run == Run0 && s1 == AfterRun;
    FirstEntries();
  }

  // The store after the second batch.
  const Run1 := Run(1, 0, 0, 1, 5.0, None)
  const TestA2 := Test(0, "A", 2, 2, 0, Some(3.0))
  const RunA2 := TestRun(3, 0, 1, Some(0), Some(4000000))
  const AfterRun1 := AfterC.(runs := [Run0, Run1])
  const AfterA2 := StoreState([TestA2, TestB, TestC], [Run0, Run1], [RunA, RunB, RunC, RunA2], [], [])

  lemma StepA2()
    ensures Step(AfterRun1, EntryA2, 1, Elapsed) == Ok(AfterA2)
  {
    assert AfterRun1.FindTest("A") == Some(TestA);
    assert Elapsed(Some(0), Some(4000000)) == 4.0;
    assert (1.0 * 2.0 + 4.0) / (1.0 + 1.0) == 3.0;
    var values := IncrementCounts(TestA, EntryA2.outcome, Elapsed);
    assert values == Ok(Delta(Some(2), Some(2), None, Some(3.0)));
    var s' := AfterRun1.UpdateTest(values.value, 0);
    assert s' == AfterRun1.(tests := [TestA2, TestB, TestC]);
    var (s'', testRun) := s'.CreateTestRun(0, 1, Success, Some(0), Some(4000000));
    assert testRun == RunA2;
    assert s'' == AfterA2;
  }

  /** A second success of A, lasting 4.0, makes its counts 2/2/0 and its run
      time the average (1 * 2.0 + 4.0) / 2 = 3.0; B and C are unchanged. */
  lemma SecondBatch()
    ensures Ingest(AfterC, Second, None, map[], Elapsed) == (AfterA2, None)
  {
    assert Second.entries[..0] == [] && Second.entries[..1] == Second.entries;
    assert GetRunTotals(Second.entries) == Totals(1, 0, 0);
    var (s1, run) := AfterC.CreateRun(0, 0, 1, 5.0, None);
    assert run == Run1 && s1 == AfterRun1;
    StepA2();
    assert [EntryA2][1..] == [];
    assert IngestEntries(AfterA2, [], 1, Elapsed) == (AfterA2, None);
  }
}
