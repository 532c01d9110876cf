/** `process_results` of subunit2sql/shell.py: ingests one batch of outcomes
    into the store. `Step`, `IngestEntries` and `Ingest` state what one entry
    and one batch do to the store, as values; `ProcessResults` and its loop
    `RecordEntries` work on a `Store` object, proved to do exactly that; the
    lemmas state what the ingestion promises. */
module Shell {
  import opened Wrappers
  import opened Model
  import opened Stats
  import opened Api

  /** The mapping returned by the result reader. Its `run_time` key is held
      apart from the test entries, which is what `results.pop('run_time')`
      leaves behind before the totals are taken. */
  datatype Batch = Batch(runTime: real, entries: seq<Entry>)

  /** The body of the loop of `process_results` for one entry: find or make
      its Test, then record the outcome. An UnknownStatus or InvalidRunCount
      error stops before any write for this entry. */
  function Step(s: StoreState, e: Entry, runId: nat, getDuration: DurationFn): (r: Result<StoreState, Error>)
    ensures r.Err? <==> s.FindTest(e.testId).Some? && !IsKnownStatus(e.outcome.status)
    ensures r.Err? ==> r.error == UnknownStatus("Unknown test status " + e.outcome.status)
    ensures r.Ok? ==>
              && r.value.runs == s.runs && r.value.runMetadata == s.runMetadata
              && |r.value.testRuns| == |s.testRuns| + 1 && r.value.testRuns[..|s.testRuns|] == s.testRuns
              && r.value.testRunMetadata == s.testRunMetadata + MetadataOf(|s.testRuns|, e.outcome.metadata)
  {
    match ResolveTest(s, e, getDuration)
    case Err(err) => Err(err)
    case Ok((s', testId)) => Ok(RecordOutcome(s', testId, e.outcome, runId))
  }

  /** The first half of the loop body: create the Test on first sight,
      otherwise apply the non-empty delta of `increment_counts`; gives the id
      of the entry's Test. */
  function ResolveTest(s: StoreState, e: Entry, getDuration: DurationFn): (r: Result<(StoreState, nat), Error>)
    ensures r.Err? <==> s.FindTest(e.testId).Some? && !IsKnownStatus(e.outcome.status)
    ensures r.Err? ==> r.error == UnknownStatus("Unknown test status " + e.outcome.status)
    ensures r.Ok? ==>
              && r.value.0.runs == s.runs && r.value.0.testRuns == s.testRuns
              && r.value.0.runMetadata == s.runMetadata && r.value.0.testRunMetadata == s.testRunMetadata
  {
    var o := e.outcome;
    var found := s.FindTest(e.testId);
    if found.None? then
      var (success, fails) := FirstSeenCounts(o.status);
      var runTime := getDuration(o.startTime, o.endTime);
      var (s', created) := s.CreateTest(e.testId, success + fails, success, fails, Some(runTime));
      match created
      case Err(err) => Err(err)
      case Ok(test) => Ok((s', test.id))
    else
      var dbTest := found.value;
      var values := IncrementCounts(dbTest, o, getDuration);
      if values.Err? then Err(values.error)
      else Ok((if values.value.IsEmpty() then s else s.UpdateTest(values.value, dbTest.id), dbTest.id))
  }

  /** The second half of the loop body: the TestRun of the outcome, then its
      metadata when there is any. */
  function RecordOutcome(s: StoreState, testId: nat, o: Outcome, runId: nat): (r: StoreState)
    ensures r.tests == s.tests && r.runs == s.runs && r.runMetadata == s.runMetadata
    ensures r.testRuns == s.testRuns + [TestRun(|s.testRuns|, testId, runId, o.startTime, o.endTime)]
    ensures r.testRunMetadata == s.testRunMetadata + MetadataOf(|s.testRuns|, o.metadata)
  {
    var (s', testRun) := s.CreateTestRun(testId, runId, o.status, o.startTime, o.endTime);
    if |o.metadata| > 0 then s'.AddTestRunMetadata(o.metadata, testRun.id) else s'
  }

  /** The metadata rows written for one owner: one holding the mapping, or
      none when the mapping is empty. */
  function MetadataOf(ownerId: nat, meta: map<string, string>): (r: seq<Metadata>)
    ensures |r| <= 1 && (|r| == 1 <==> |meta| > 0)
    ensures |r| == 1 ==> r[0].ownerId == ownerId && r[0].entries == meta
  {
    if |meta| > 0 then [Metadata(ownerId, meta)] else []
  }

  /** The test-run metadata rows of `entries` when their TestRuns get the ids
      from `base` on, in order. */
  function MetadataRecords(base: nat, entries: seq<Entry>): (r: seq<Metadata>)
    ensures |r| <= |entries|
    decreases |entries|
  {
    if entries == [] then []
    else MetadataOf(base, entries[0].outcome.metadata) + MetadataRecords(base + 1, entries[1..])
  }

  /** Every record holds a non-empty mapping owned by an id from `base` to
      `base + n - 1`. */
  predicate OwnedWithin(records: seq<Metadata>, base: nat, n: nat) {
    forall i :: 0 <= i < |records| ==> base <= records[i].ownerId < base + n && |records[i].entries| > 0
  }

  predicate OwnersIncrease(records: seq<Metadata>) {
    forall i, j :: 0 <= i < j < |records| ==> records[i].ownerId < records[j].ownerId
  }

  /** Each record belongs to the TestRun of one of the entries and holds a
      non-empty mapping. */
  lemma {:induction false} MetadataRecordsOwners(base: nat, entries: seq<Entry>)
    ensures OwnedWithin(MetadataRecords(base, entries), base, |entries|)
    decreases |entries|
  {
    if entries != [] {
      MetadataRecordsOwners(base + 1, entries[1..]);
      var head := MetadataOf(base, entries[0].outcome.metadata);
      var tail := MetadataRecords(base + 1, entries[1..]);
      var r := MetadataRecords(base, entries);
      assert r == head + tail;
      forall i | 0 <= i < |r|
        ensures base <= r[i].ownerId < base + |entries| && |r[i].entries| > 0
      {
        if i < |head| {
          assert r[i] == head[i];
        } else {
          assert r[i] == tail[i - |head|];
        }
      }
    }
  }

  /** The owners strictly increase, so no TestRun gets two records. */
  lemma {:induction false} MetadataRecordsIncrease(base: nat, entries: seq<Entry>)
    ensures OwnersIncrease(MetadataRecords(base, entries))
    decreases |entries|
  {
    if entries != [] {
      MetadataRecordsIncrease(base + 1, entries[1..]);
      MetadataRecordsOwners(base + 1, entries[1..]);
      var head := MetadataOf(base, entries[0].outcome.metadata);
      var tail := MetadataRecords(base + 1, entries[1..]);
      var r := MetadataRecords(base, entries);
      assert r == head + tail;
      forall i, j | 0 <= i < j < |r|
        ensures r[i].ownerId < r[j].ownerId
      {
        assert r[j] == tail[j - |head|];
        if i < |head| {
          assert r[i] == head[i];
        } else {
          assert r[i] == tail[i - |head|];
        }
      }
    }
  }


  /** The loop over the entries, in order, stopping at the first error; the
      writes made before the error stay. It leaves the Runs and their
      metadata alone and only appends TestRuns: one per entry when it
      completes, otherwise one per entry before the failing one, whose
      unknown status the error names. */
  function IngestEntries(s: StoreState, entries: seq<Entry>, runId: nat, getDuration: DurationFn)
    : (r: (StoreState, Option<Error>))
    ensures r.0.runs == s.runs && r.0.runMetadata == s.runMetadata
    ensures AppendsTestRuns(s.testRuns, entries, r.0.testRuns, r.1)
    decreases |entries|
  {
    if entries == [] then (s, None)
    else match Step(s, entries[0], runId, getDuration)
      case Err(err) => (s, Some(err))
      case Ok(s1) =>
        var r := IngestEntries(s1, entries[1..], runId, getDuration);
        AppendsTestRunsShift(s.testRuns, s1.testRuns, entries, r.0.testRuns, r.1);
        r
  }

  /** `after` extends the TestRuns `before` by at most one per entry: by
      exactly one per entry when there is no error, and otherwise by one per
      entry before the first entry of unknown status, which the error names. */
  predicate AppendsTestRuns(before: seq<TestRun>, entries: seq<Entry>, after: seq<TestRun>, err: Option<Error>) {
    && |before| <= |after| <= |before| + |entries|
    && after[..|before|] == before
    && (err.None? <==> |after| == |before| + |entries|)
    && var m := |after| - |before|;
       err.Some? ==> m < |entries| && !IsKnownStatus(entries[m].outcome.status)
                     && err.value == UnknownStatus("Unknown test status " + entries[m].outcome.status)
  }

  /** One TestRun for the first entry, then those of the rest. */
  lemma AppendsTestRunsShift(before: seq<TestRun>, mid: seq<TestRun>, entries: seq<Entry>, after: seq<TestRun>,
                             err: Option<Error>)
    requires |entries| > 0 && |mid| == |before| + 1 && mid[..|before|] == before
    requires AppendsTestRuns(mid, entries[1..], after, err)
    ensures AppendsTestRuns(before, entries, after, err)
  {
    PrefixOfPrefix(before, mid, after);
    var m := |after| - |before|;
    if err.Some? {
      assert entries[1..][m - 1] == entries[m];
    }
  }

  /** The whole of `process_results`: the Run with the batch totals, its
      metadata when given, then the entries. It creates exactly one Run,
      appended after the existing ones, carrying the batch totals, its run
      time and the non-empty artifacts location; it appends one TestRun per
      entry when it completes, and otherwise stops at the first entry of
      unknown status, whose status the error names. */
  function Ingest(s: StoreState, batch: Batch, artifacts: Option<string>, runMeta: map<string, string>,
                  getDuration: DurationFn): (r: (StoreState, Option<Error>))
    ensures var totals := GetRunTotals(batch.entries);
            && |r.0.runs| == |s.runs| + 1 && r.0.runs[..|s.runs|] == s.runs
            && r.0.runs[|s.runs|] == Run(|s.runs|, totals.skips, totals.fails, totals.success, batch.runTime,
                                         if artifacts.Some? && artifacts.value != "" then artifacts else None)
    ensures r.0.runMetadata == s.runMetadata + MetadataOf(|s.runs|, runMeta)
    ensures AppendsTestRuns(s.testRuns, batch.entries, r.0.testRuns, r.1)
  {
    var (s2, run) := BeginRun(s, batch, artifacts, runMeta);
    IngestEntries(s2, batch.entries, run.id, getDuration)
  }

  /** The part of `process_results` before the loop: the Run with the totals
      of the entries (the `run_time` key already taken out), then its
      metadata when given. */
  function BeginRun(s: StoreState, batch: Batch, artifacts: Option<string>, runMeta: map<string, string>)
    : (r: (StoreState, Run))
    ensures var totals := GetRunTotals(batch.entries);
            r.1 == Run(|s.runs|, totals.skips, totals.fails, totals.success, batch.runTime,
                       if artifacts.Some? && artifacts.value != "" then artifacts else None)
    ensures r.0.runs == s.runs + [r.1] && r.0.tests == s.tests && r.0.testRuns == s.testRuns
    ensures r.0.runMetadata == s.runMetadata + MetadataOf(r.1.id, runMeta)
    ensures r.0.testRunMetadata == s.testRunMetadata
    ensures s.Valid() ==> r.0.Valid()
    ensures s.Consistent() ==> r.0.Consistent()
  {
    var totals := GetRunTotals(batch.entries);
    var (s1, run) := s.CreateRun(totals.skips, totals.fails, totals.success, batch.runTime, artifacts);
    (if |runMeta| > 0 then s1.AddRunMetadata(runMeta, run.id) else s1, run)
  }

  /** One pass of the loop of `process_results`, on the store object. */
  method ProcessEntry(store: Store, e: Entry, runId: nat, getDuration: DurationFn) returns (err: Option<Error>)
    requires store.Valid()
    modifies store
    ensures store.Valid()
    ensures match Step(old(store.State()), e, runId, getDuration)
            case Err(x) => err == Some(x) && store.State() == old(store.State())
            case Ok(s') => err.None? && store.State() == s'
  {
    var resolved := ResolveEntryTest(store, e, getDuration);
    match resolved
    case Err(x) =>
      return Some(x);
    case Ok(testId) =>
      RecordEntryOutcome(store, testId, e.outcome, runId);
      return None;
  }

  /** The first half of the loop body on the store object. */
  method ResolveEntryTest(store: Store, e: Entry, getDuration: DurationFn) returns (r: Result<nat, Error>)
    requires store.Valid()
    modifies store
    ensures store.Valid()
    ensures match ResolveTest(old(store.State()), e, getDuration)
            case Err(x) => r == Err(x) && store.State() == old(store.State())
            case Ok((s', testId)) => r == Ok(testId) && store.State() == s'
  {
    var dbTest := store.GetTestByTestId(e.testId);
    if dbTest.None? {
      var (success, fails) := FirstSeenCounts(e.outcome.status);
      var runTime := getDuration(e.outcome.startTime, e.outcome.endTime);
      var created := store.CreateTest(e.testId, success + fails, success, fails, Some(runTime));
      match created
      case Err(x) =>
        return Err(x);
      case Ok(test) =>
        return Ok(test.id);
    } else {
      var testValues := IncrementCounts(dbTest.value, e.outcome, getDuration);
      match testValues
      case Err(x) =>
        return Err(x);
      case Ok(values) =>
        // a skip leaves the Test row as it is
        if !values.IsEmpty() {
          store.UpdateTest(values, dbTest.value.id);
        }
        return Ok(dbTest.value.id);
    }
  }

  /** The second half of the loop body on the store object. */
  method RecordEntryOutcome(store: Store, testId: nat, o: Outcome, runId: nat)
    requires store.Valid()
    modifies store
    ensures store.Valid()
    ensures store.State() == RecordOutcome(old(store.State()), testId, o, runId)
  {
    var testRun := store.CreateTestRun(testId, runId, o.status, o.startTime, o.endTime);
    if |o.metadata| > 0 {
      store.AddTestRunMetadata(o.metadata, testRun.id);
    }
  }

  /** `process_results`. `artifacts` and `runMeta` are the two configuration
      options it reads; an empty `runMeta` stands for an unset option. */
  method ProcessResults(store: Store, batch: Batch, artifacts: Option<string>, runMeta: map<string, string>,
                        getDuration: DurationFn)
    returns (err: Option<Error>)
    requires store.Valid()
    modifies store
    ensures store.Valid()
    ensures (store.State(), err) == Ingest(old(store.State()), batch, artifacts, runMeta, getDuration)
  {
    var results := batch.entries;
    var totals := GetRunTotals(results);
    var dbRun := store.CreateRun(totals.skips, totals.fails, totals.success, batch.runTime, artifacts);
    if |runMeta| > 0 {
      store.AddRunMetadata(runMeta, dbRun.id);
    }
    err := RecordEntries(store, results, dbRun.id, getDuration);
  }

  /** The loop of `process_results` over the entries, in order, on the store
      object; it returns at the first error. */
  method RecordEntries(store: Store, results: seq<Entry>, runId: nat, getDuration: DurationFn)
    returns (err: Option<Error>)
    requires store.Valid()
    modifies store
    ensures store.Valid()
    ensures (store.State(), err) == IngestEntries(old(store.State()), results, runId, getDuration)
  {
    var i := 0;
    while i < |results|
      invariant 0 <= i <= |results|
      invariant store.Valid()
      invariant IngestEntries(store.State(), results[i..], runId, getDuration)
                == IngestEntries(old(store.State()), results, runId, getDuration)
    {
      assert results[i..][0] == results[i] && results[i..][1..] == results[i + 1..];
      err := ProcessEntry(store, results[i], runId, getDuration);
      if err.Some? {
        return;
      }
      i := i + 1;
    }
    return None;
  }

  /** The TestRun at position `k` records the outcome of `e` in run `runId`,
      and refers to the Test row whose `test_id` is the entry's. */
  predicate RecordsEntry(s: StoreState, k: nat, e: Entry, runId: nat)
    requires k < |s.testRuns|
  {
    var tr := s.testRuns[k];
    && tr.runId == runId && tr.startTime == e.outcome.startTime && tr.endTime == e.outcome.endTime
    && tr.testId < |s.tests| && s.tests[tr.testId].testId == e.testId
  }

  /** `s'` has at least the Tests of `s`, each with its `test_id` unchanged. */
  predicate KeepsTestIds(s: StoreState, s': StoreState) {
    |s.tests| <= |s'.tests| && forall i :: 0 <= i < |s.tests| ==> s'.tests[i].testId == s.tests[i].testId
  }

  /** The TestRuns from position `base` on record `entries`, in order, as
      far as they reach. */
  predicate RecordsFrom(s: StoreState, base: nat, entries: seq<Entry>, runId: nat) {
    forall k :: 0 <= k < |entries| && base + k < |s.testRuns| ==> RecordsEntry(s, base + k, entries[k], runId)
  }

  /** One entry keeps the store valid and consistent, never changes the
      `test_id` of an existing Test, and its TestRun refers to the Test of
      the entry's `test_id`. */
  lemma StepFacts(s: StoreState, e: Entry, runId: nat, getDuration: DurationFn)
    requires s.Valid() && s.Consistent() && runId < |s.runs|
    ensures match Step(s, e, runId, getDuration)
            case Err(_) => true
            case Ok(s') =>
              && s'.Valid() && s'.Consistent() && KeepsTestIds(s, s')
              && RecordsEntry(s', |s.testRuns|, e, runId)
  {
    ResolveTestFacts(s, e, getDuration);
    match ResolveTest(s, e, getDuration)
    case Err(_) =>
    case Ok((s1, testId)) =>
      RecordOutcomeFacts(s1, testId, e.outcome, runId);
      var s' := RecordOutcome(s1, testId, e.outcome, runId);
      assert s'.tests == s1.tests;
  }

  /** Finding or making the Test keeps the store valid and consistent,
      keeps the `test_id` of every Test, and gives the id of a Test whose
      `test_id` is the entry's. */
  lemma ResolveTestFacts(s: StoreState, e: Entry, getDuration: DurationFn)
    requires s.Valid() && s.Consistent()
    ensures match ResolveTest(s, e, getDuration)
            case Err(_) => true
            case Ok((s', testId)) =>
              && s'.Valid() && s'.Consistent()
              && KeepsTestIds(s, s') && testId < |s'.tests| && s'.tests[testId].testId == e.testId
  {
    var o := e.outcome;
    var found := s.FindTest(e.testId);
    if found.Some? {
      var t := found.value;
      assert s.tests[t.id] == t;
      IncrementPreservesConsistency(t, o, getDuration);
      match IncrementCounts(t, o, getDuration)
      case Err(_) =>
      case Ok(values) =>
        var s1 := if values.IsEmpty() then s else s.UpdateTest(values, t.id);
        assert s1.Consistent() by {
          forall i | 0 <= i < |s1.tests| ensures s1.tests[i].Consistent() {
            assert s.tests[i].Consistent();
          }
        }
    }
  }

  /** Recording an outcome for an existing Test and Run keeps the store
      valid and consistent. */
  lemma RecordOutcomeFacts(s: StoreState, testId: nat, o: Outcome, runId: nat)
    requires s.Valid() && s.Consistent() && testId < |s.tests| && runId < |s.runs|
    ensures var s' := RecordOutcome(s, testId, o, runId);
            s'.Valid() && s'.Consistent()
  {
  }

  lemma PrefixOfPrefix<T>(a: seq<T>, b: seq<T>, c: seq<T>)
    requires |a| <= |b| <= |c| && b[..|a|] == a && c[..|b|] == b
    ensures c[..|a|] == a
  {
    assert c[..|a|] == c[..|b|][..|a|];
  }

  lemma KeepsTestIdsTrans(s: StoreState, s1: StoreState, s': StoreState)
    requires KeepsTestIds(s, s1) && KeepsTestIds(s1, s')
    ensures KeepsTestIds(s, s')
  {
  }

  /** The loop over the entries keeps the store valid and consistent and
      keeps the `test_id` of every existing Test. */
  lemma {:induction false} IngestEntriesFacts(s: StoreState, entries: seq<Entry>, runId: nat, getDuration: DurationFn)
    requires s.Valid() && s.Consistent() && runId < |s.runs|
    ensures var (s', _) := IngestEntries(s, entries, runId, getDuration);
            s'.Valid() && s'.Consistent() && KeepsTestIds(s, s')
    decreases |entries|
  {
    if entries != [] {
      StepFacts(s, entries[0], runId, getDuration);
      match Step(s, entries[0], runId, getDuration)
      case Err(_) =>
      case Ok(s1) =>
        assert IngestEntries(s, entries, runId, getDuration) == IngestEntries(s1, entries[1..], runId, getDuration);
        IngestEntriesFacts(s1, entries[1..], runId, getDuration);
        var s' := IngestEntries(s1, entries[1..], runId, getDuration).0;
        KeepsTestIdsTrans(s, s1, s');
    }
  }

  /** `after` is `before` followed by the test-run metadata of the entries
      whose TestRuns have the ids from `base` up to `end`, in order. */
  predicate MetadataUpTo(before: seq<Metadata>, base: nat, entries: seq<Entry>, after: seq<Metadata>, end: nat) {
    base <= end <= base + |entries| && after == before + MetadataRecords(base, entries[..end - base])
  }

  /** The loop writes the test-run metadata of the entries it records, in
      order, each owned by the id of its TestRun. */
  lemma {:induction false} IngestEntriesMetadata(s: StoreState, entries: seq<Entry>, runId: nat, getDuration: DurationFn)
    ensures var s' := IngestEntries(s, entries, runId, getDuration).0;
            MetadataUpTo(s.testRunMetadata, |s.testRuns|, entries, s'.testRunMetadata, |s'.testRuns|)
    decreases |entries|
  {
    if entries == [] || Step(s, entries[0], runId, getDuration).Err? {
      var s' := IngestEntries(s, entries, runId, getDuration).0;
      assert s' == s;
      NoMetadata(s.testRunMetadata, |s.testRuns|, entries);
    } else {
      var s1 := Step(s, entries[0], runId, getDuration).value;
      IngestEntriesMetadata(s1, entries[1..], runId, getDuration);
      IngestEntriesMetadataStep(s, s1, entries, runId, getDuration);
    }
  }

  /** The induction step of IngestEntriesMetadata. */
  lemma IngestEntriesMetadataStep(s: StoreState, s1: StoreState, entries: seq<Entry>, runId: nat, getDuration: DurationFn)
    requires entries != [] && Step(s, entries[0], runId, getDuration) == Ok(s1)
    requires var s' := IngestEntries(s1, entries[1..], runId, getDuration).0;
             MetadataUpTo(s1.testRunMetadata, |s1.testRuns|, entries[1..], s'.testRunMetadata, |s'.testRuns|)
    ensures var s' := IngestEntries(s, entries, runId, getDuration).0;
            MetadataUpTo(s.testRunMetadata, |s.testRuns|, entries, s'.testRunMetadata, |s'.testRuns|)
  {
    var s' := IngestEntries(s1, entries[1..], runId, getDuration).0;
    assert s' == IngestEntries(s, entries, runId, getDuration).0;
    MetadataRecordsShift(s.testRunMetadata, s1.testRunMetadata, s'.testRunMetadata, |s.testRuns|, |s1.testRuns|,
                         entries, |s'.testRuns|);
  }

  /** No entry recorded, no metadata written. */
  lemma NoMetadata(before: seq<Metadata>, base: nat, entries: seq<Entry>)
    ensures MetadataUpTo(before, base, entries, before, base)
  {
    assert entries[..0] == [];
  }

  /** The records of the first `n + 1` entries are those of the first entry,
      then those of the next `n` entries from the next id on. */
  lemma MetadataRecordsShift(before: seq<Metadata>, mid: seq<Metadata>, after: seq<Metadata>, base: nat, next: nat,
                             entries: seq<Entry>, end: nat)
    requires |entries| > 0 && next == base + 1
    requires mid == before + MetadataOf(base, entries[0].outcome.metadata)
    requires MetadataUpTo(mid, next, entries[1..], after, end)
    ensures MetadataUpTo(before, base, entries, after, end)
  {
    var m := end - base;
    assert entries[..m][0] == entries[0];
    assert entries[..m][1..] == entries[1..][..m - 1];
  }

  /** Appending TestRuns and Tests, and keeping the `test_id` of every
      Test, keeps what an existing TestRun records. */
  lemma RecordsEntryKept(s: StoreState, s': StoreState, k: nat, e: Entry, runId: nat)
    requires k < |s.testRuns| <= |s'.testRuns| && s'.testRuns[..|s.testRuns|] == s.testRuns
    requires KeepsTestIds(s, s')
    requires RecordsEntry(s, k, e, runId)
    ensures RecordsEntry(s', k, e, runId)
  {
    assert s'.testRuns[k] == s'.testRuns[..|s.testRuns|][k];
  }

  /** Each TestRun the loop appends records its entry, in order. */
  lemma {:induction false} IngestEntriesRecords(s: StoreState, entries: seq<Entry>, runId: nat, getDuration: DurationFn)
    requires s.Valid() && s.Consistent() && runId < |s.runs|
    ensures RecordsFrom(IngestEntries(s, entries, runId, getDuration).0, |s.testRuns|, entries, runId)
    decreases |entries|
  {
    if entries != [] {
      var s' := IngestEntries(s, entries, runId, getDuration).0;
      StepFacts(s, entries[0], runId, getDuration);
      match Step(s, entries[0], runId, getDuration)
      case Err(_) =>
        assert s' == s;
      case Ok(s1) =>
        var rest := entries[1..];
        assert s' == IngestEntries(s1, rest, runId, getDuration).0;
        IngestEntriesFacts(s1, rest, runId, getDuration);
        IngestEntriesRecords(s1, rest, runId, getDuration);
        RecordsShift(s, s1, s', entries, runId);
    }
  }

  /** The induction step of IngestEntriesRecords, on the three stores alone. */
  lemma RecordsShift(s: StoreState, s1: StoreState, s': StoreState, entries: seq<Entry>, runId: nat)
    requires |entries| > 0 && |s1.testRuns| == |s.testRuns| + 1 && RecordsEntry(s1, |s.testRuns|, entries[0], runId)
    requires |s1.testRuns| <= |s'.testRuns| && s'.testRuns[..|s1.testRuns|] == s1.testRuns
    requires KeepsTestIds(s1, s')
    requires RecordsFrom(s', |s1.testRuns|, entries[1..], runId)
    ensures RecordsFrom(s', |s.testRuns|, entries, runId)
  {
    var base := |s.testRuns|;
    RecordsEntryKept(s1, s', base, entries[0], runId);
    forall k | 0 < k < |entries| && base + k < |s'.testRuns|
      ensures RecordsEntry(s', base + k, entries[k], runId)
    {
      assert entries[k] == entries[1..][k - 1];
      assert base + k == |s1.testRuns| + (k - 1);
    }
  }

  /** The store stays valid and every Test keeps run_count == success + failure. */
  lemma IngestPreservesConsistency(s: StoreState, batch: Batch, artifacts: Option<string>, runMeta: map<string, string>,
                                   getDuration: DurationFn)
    requires s.Valid() && s.Consistent()
    ensures var (s', _) := Ingest(s, batch, artifacts, runMeta, getDuration);
            s'.Valid() && s'.Consistent()
  {
    var (s2, run) := BeginRun(s, batch, artifacts, runMeta);
    assert Ingest(s, batch, artifacts, runMeta, getDuration) == IngestEntries(s2, batch.entries, run.id, getDuration);
    IngestEntriesFacts(s2, batch.entries, run.id, getDuration);
  }

  /** Each TestRun a batch appends records its entry, in order, in the new
      Run and linked to the Test of the entry's `test_id`; with the TestRuns
      Ingest appends, one per entry up to the failing one, this is one
      TestRun per recorded entry. */
  lemma IngestOneTestRunPerEntry(s: StoreState, batch: Batch, artifacts: Option<string>, runMeta: map<string, string>,
                                 getDuration: DurationFn)
    requires s.Valid() && s.Consistent()
    ensures var (s', err) := Ingest(s, batch, artifacts, runMeta, getDuration);
            RecordsFrom(s', |s.testRuns|, batch.entries, |s.runs|)
  {
    var (s2, run) := BeginRun(s, batch, artifacts, runMeta);
    assert Ingest(s, batch, artifacts, runMeta, getDuration) == IngestEntries(s2, batch.entries, run.id, getDuration);
    assert s2.testRuns == s.testRuns && run.id == |s.runs|;
    IngestEntriesRecords(s2, batch.entries, run.id, getDuration);
  }

  /** A batch writes the test-run metadata of each entry it records, in order, each owned by the id of
      its TestRun. */
  lemma IngestMetadata(s: StoreState, batch: Batch, artifacts: Option<string>, runMeta: map<string, string>,
                       getDuration: DurationFn)
    ensures var s' := Ingest(s, batch, artifacts, runMeta, getDuration).0;
            MetadataUpTo(s.testRunMetadata, |s.testRuns|, batch.entries, s'.testRunMetadata, |s'.testRuns|)
  {
    var (s2, run) := BeginRun(s, batch, artifacts, runMeta);
    var s' := Ingest(s, batch, artifacts, runMeta, getDuration).0;
    assert s' == IngestEntries(s2, batch.entries, run.id, getDuration).0;
    assert s2.testRuns == s.testRuns && s2.testRunMetadata == s.testRunMetadata;
    IngestEntriesMetadata(s2, batch.entries, run.id, getDuration);
  }

  /** The only error a batch can stop with is UnknownStatus for a status
      that occurs in it: InvalidRunCount cannot arise, since the counts a
      first-seen test is created with always agree, and a batch whose statuses
      are all success, fail or skip always completes. */
  lemma IngestErrors(s: StoreState, batch: Batch, artifacts: Option<string>, runMeta: map<string, string>,
                     getDuration: DurationFn)
    requires s.Valid() && s.Consistent()
    ensures var (_, err) := Ingest(s, batch, artifacts, runMeta, getDuration);
            && err != Some(InvalidRunCount)
            && (AllKnown(batch.entries) ==> err.None?)
  {
  }

  /** A test seen for the first time is created with counts 1/1/0 for
      success, 1/0/1 for fail and 0/0/0 for any other status (skip and unknown
      ones alike, with no error), and with the outcome's duration as run
      time whatever the status. */
  lemma StepFirstSeen(s: StoreState, e: Entry, runId: nat, getDuration: DurationFn)
    requires s.FindTest(e.testId).None?
    ensures Step(s, e, runId, getDuration).Ok?
    ensures var status := e.outcome.status;
            var (runCount, success, failure) :=
              if status == Success then (1, 1, 0) else if status == Fail then (1, 0, 1) else (0, 0, 0);
            Step(s, e, runId, getDuration).value.tests
              == s.tests + [Test(|s.tests|, e.testId, runCount, success, failure,
                                 Some(getDuration(e.outcome.startTime, e.outcome.endTime)))]
  {
  }

  /** For a test that exists, a skip writes nothing to the Test table, a
      success or fail writes the delta of `increment_counts` to that row
      only, and any other status stops with UnknownStatus and writes nothing. */
  lemma StepExisting(s: StoreState, e: Entry, runId: nat, getDuration: DurationFn)
    requires s.Valid()
    requires s.FindTest(e.testId).Some?
    ensures var t := s.FindTest(e.testId).value;
            var status := e.outcome.status;
            && (status == Skip ==> Step(s, e, runId, getDuration).Ok? && Step(s, e, runId, getDuration).value.tests == s.tests)
            && (status == Success || status == Fail ==>
                  && Step(s, e, runId, getDuration).Ok?
                  && Step(s, e, runId, getDuration).value.tests
                     == s.tests[t.id := ApplyDelta(t, IncrementCounts(t, e.outcome, getDuration).value)])
            && (!IsKnownStatus(status) ==>
                  Step(s, e, runId, getDuration) == Err(UnknownStatus("Unknown test status " + status)))
  {
  }
}
