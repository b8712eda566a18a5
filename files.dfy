/** The JSON documents the harness keeps on disk, as typed in-memory values:
    the per-test reference store, the per-run report of running averages and
    the per-run failure log. A file that does not exist reads as its default
    document. */
module Files {

  import opened Common
  import opened Stats
  import opened Scoring

  /** The metric keys under which reports and failures are filed. */
  const SemanticSimilarityMetric: string := "semantic_similarity"
  const CriteriaCheckMetric: string := "criteria_check"
  const ClaimCheckMetric: string := "claim_check"

  /** One similarity test case: its reference text and its baseline statistics. */
  datatype ReferenceEntry = ReferenceEntry(
    reference: string,
    scores: seq<real>,
    mean: Option<real>,
    std: Option<real>,
    suggestedThreshold: Option<real>)

  /** The running statistics of one metric within a run. */
  datatype ReportEntry = ReportEntry(count: nat, avg: real)

  /** The context recorded with a failed assertion. */
  datatype FailureResult =
    | SimilarityFailure(assertionId: string, score: real, threshold: real, candidate: string, reference: string)
    | CriteriaFailure(criteria: CriteriaResult)
    | ClaimFailure(claims: ClaimResult)

  datatype FailureRecord = FailureRecord(metricType: string, result: FailureResult)

  /** The `semantic_similarity` object of a reference file, keyed by assertion id. */
  type ReferenceDoc = map<string, ReferenceEntry>

  /** A report file, keyed by metric. */
  type ReportDoc = map<string, ReportEntry>

  /** The `failures` list of a failure file. */
  type FailureLog = seq<FailureRecord>

  /** `_load_json(path, {"semantic_similarity": {}})["semantic_similarity"]`
      on a reference file: the stored entries, or none when the file does not
      exist. */
  function ReferencesAt(files: map<string, ReferenceDoc>, path: string): (r: ReferenceDoc)
    ensures path in files ==> r == files[path]
    ensures path !in files ==> r == map[]
  {
    if path in files then files[path] else map[]
  }

  /** `_load_json(path, {})` on a report file. */
  function ReportAt(files: map<string, ReportDoc>, path: string): (r: ReportDoc)
    ensures path in files ==> r == files[path]
    ensures path !in files ==> r == map[]
  {
    if path in files then files[path] else map[]
  }

  /** `_load_json(path, {"failures": []})["failures"]` on a failure file. */
  function FailuresAt(files: map<string, FailureLog>, path: string): (r: FailureLog)
    ensures path in files ==> r == files[path]
    ensures path !in files ==> r == []
  {
    if path in files then files[path] else []
  }

  // ----- reference store -----

  /** The reference document after `_set_reference` has stored `candidate`
      for `assertionId`: a fresh entry for that id, every other id as it was. */
  function WithReference(doc: ReferenceDoc, assertionId: string, candidate: string): (r: ReferenceDoc)
    ensures assertionId in r && r[assertionId] == ReferenceEntry(candidate, [], None, None, None)
    ensures forall k :: k != assertionId ==> (k in r <==> k in doc) && (k in doc ==> r[k] == doc[k])
  {
    doc[assertionId := ReferenceEntry(candidate, [], None, None, None)]
  }

  /** The entry after one baseline sample `score`: the score is appended
      at the end, the mean is the mean of all samples, a first sample has
      deviation 0, and the suggested threshold is the mean less two
      deviations. The reference text is kept. `stdOf` is numpy's standard
      deviation, used only when there are at least two samples. */
  function WithBaselineSample(e: ReferenceEntry, score: real, stdOf: seq<real> -> real): (r: ReferenceEntry)
    ensures r.reference == e.reference
    ensures r.scores == e.scores + [score]
    ensures r.mean == Some(Mean(r.scores))
    ensures |e.scores| == 0 ==> r.std == Some(0.0)
    ensures |e.scores| > 0 ==> r.std == Some(stdOf(r.scores))
    ensures r.std.Some? && r.suggestedThreshold == Some(r.mean.value - 2.0 * r.std.value)
  {
    var scores := e.scores + [score];
    var mean := Mean(scores);
    var std := if |scores| > 1 then stdOf(scores) else 0.0;
    e.(scores := scores, mean := Some(mean), std := Some(std), suggestedThreshold := Some(mean - 2.0 * std))
  }

  /** When numpy's value is the population standard deviation, the stored
      deviation is the population deviation of all samples (also for the
      single-sample shortcut), and the suggested threshold is at most the mean. */
  lemma BaselineStdIsPopulationStd(e: ReferenceEntry, score: real, stdOf: seq<real> -> real)
    requires |e.scores| > 0 ==> IsPopulationStd(e.scores + [score], stdOf(e.scores + [score]))
    ensures var r := WithBaselineSample(e, score, stdOf);
      && IsPopulationStd(r.scores, r.std.value)
      && r.suggestedThreshold.value <= r.mean.value
  {
    var r := WithBaselineSample(e, score, stdOf);
    if |e.scores| == 0 {
      assert r.scores == [score];
      SingleSampleStd(score);
    }
  }

  /** The entry after a sequence of baseline runs, one sample each. */
  function WithBaselineSamples(e: ReferenceEntry, xs: seq<real>, stdOf: seq<real> -> real): ReferenceEntry {
    if |xs| == 0 then e
    else WithBaselineSample(WithBaselineSamples(e, xs[..|xs| - 1], stdOf), xs[|xs| - 1], stdOf)
  }

  /** After `m` baseline runs the entry holds all `m` samples in order, its
      mean is their mean and its suggested threshold is mean less two deviations. */
  lemma {:induction false} BaselineAccumulates(e: ReferenceEntry, xs: seq<real>, stdOf: seq<real> -> real)
    ensures var r := WithBaselineSamples(e, xs, stdOf);
      && r.reference == e.reference
      && r.scores == e.scores + xs
      && (|xs| > 0 ==> r.mean == Some(Mean(e.scores + xs)))
      && (|xs| > 0 ==> r.std.Some? && r.suggestedThreshold == Some(r.mean.value - 2.0 * r.std.value))
  {
    if |xs| > 0 {
      var init := xs[..|xs| - 1];
      BaselineAccumulates(e, init, stdOf);
      assert e.scores + init + [xs[|xs| - 1]] == e.scores + xs;
    }
  }

  // ----- report -----

  /** The entry of `key`, or the fresh entry `_update_global` starts from. */
  function EntryOrNew(doc: ReportDoc, key: string): ReportEntry {
    if key in doc then doc[key] else ReportEntry(0, 0.0)
  }

  /** The report after `_update_global(key, score)`: the entry of `key` has
      one more sample and its average is updated incrementally; the other
      metrics are untouched. */
  function RecordScore(doc: ReportDoc, key: string, score: real): (r: ReportDoc)
    ensures key in r
    ensures r[key].count == EntryOrNew(doc, key).count + 1
    ensures r[key].avg == NextAverage(EntryOrNew(doc, key).avg, EntryOrNew(doc, key).count, score)
    ensures forall k :: k != key ==> (k in r <==> k in doc) && (k in doc ==> r[k] == doc[k])
  {
    var e := EntryOrNew(doc, key);
    doc[key := ReportEntry(e.count + 1, NextAverage(e.avg, e.count, score))]
  }

  /** The report after recording `xs` for `key`, one score after the other. */
  function RecordScores(doc: ReportDoc, key: string, xs: seq<real>): ReportDoc {
    if |xs| == 0 then doc else RecordScore(RecordScores(doc, key, xs[..|xs| - 1]), key, xs[|xs| - 1])
  }

  /** If an entry summarises the samples `prior`, recording `xs` leaves it
      summarising `prior + xs`: the count is the number of samples and the
      average is their arithmetic mean. No other metric changes. */
  lemma {:induction false} RunningAverageIsMean(doc: ReportDoc, key: string, prior: seq<real>, xs: seq<real>)
    requires EntryOrNew(doc, key) == ReportEntry(|prior|, Mean(prior))
    ensures EntryOrNew(RecordScores(doc, key, xs), key) == ReportEntry(|prior| + |xs|, Mean(prior + xs))
    ensures var r := RecordScores(doc, key, xs);
      forall k :: k != key ==> (k in r <==> k in doc) && (k in doc ==> r[k] == doc[k])
  {
    if |xs| == 0 {
      assert prior + xs == prior;
    } else {
      var init := xs[..|xs| - 1];
      var x := xs[|xs| - 1];
      RunningAverageIsMean(doc, key, prior, init);
      NextAverageIsMean(prior + init, x);
      assert prior + init + [x] == prior + xs;
    }
  }

  /** A metric first reported in this run averages exactly the scores
      recorded for it; scores in `[lo, hi]` (percentages in `[0, 100]`, say)
      give an average in `[lo, hi]`. */
  lemma NewMetricAverage(doc: ReportDoc, key: string, xs: seq<real>, lo: real, hi: real)
    requires key !in doc
    requires |xs| > 0
    requires forall i :: 0 <= i < |xs| ==> lo <= xs[i] <= hi
    ensures key in RecordScores(doc, key, xs)
    ensures RecordScores(doc, key, xs)[key] == ReportEntry(|xs|, Mean(xs))
    ensures lo <= RecordScores(doc, key, xs)[key].avg <= hi
  {
    RunningAverageIsMean(doc, key, [], xs);
    assert [] + xs == xs;
    MeanBounds(xs, lo, hi);
  }

  // ----- failure log -----

  /** The failure files after `_save_failure` has appended `rec` to the log
      at `path`: earlier records stay, in order, and other files are untouched. */
  function WithFailure(files: map<string, FailureLog>, path: string, rec: FailureRecord): (r: map<string, FailureLog>)
    ensures FailuresAt(r, path) == FailuresAt(files, path) + [rec]
    ensures forall p :: p != path ==> (p in r <==> p in files) && (p in files ==> r[p] == files[p])
  {
    files[path := FailuresAt(files, path) + [rec]]
  }

  /** The report files after `_update_global(key, score)` on the report at `path`. */
  function WithScore(files: map<string, ReportDoc>, path: string, key: string, score: real): map<string, ReportDoc> {
    files[path := RecordScore(ReportAt(files, path), key, score)]
  }

  /** The files on disk, by path. */
  class FileStore {
    var references: map<string, ReferenceDoc>
    var reports: map<string, ReportDoc>
    var failures: map<string, FailureLog>

    constructor (references: map<string, ReferenceDoc>, reports: map<string, ReportDoc>,
                 failures: map<string, FailureLog>)
      ensures this.references == references && this.reports == reports && this.failures == failures
    {
      this.references := references;
      this.reports := reports;
      this.failures := failures;
    }
  }
}
