/** The metrics engine: similarity, criteria and claim checks, dispatched on
    the current execution mode, reading and rewriting the files on disk.
    Embeddings and cosine similarity (`sim`), the language-model judge
    (`judge`), numpy's standard deviation (`stdOf`) and the claim checker's
    verdicts are inputs. */
module Metrics {

  import opened Common
  import opened State
  import opened Scoring
  import opened DataSources
  import opened Files

  /** The handlers `_handler` chooses between for a similarity score. */
  datatype SimilarityAction =
    | AssertSimilarityAction(threshold: Option<real>)
    | SetReferenceAction
    | SetBaselineAction
    | ReportSimilarityAction

  /** `_handler`: every mode has its own similarity handler; only the
      assertion takes the explicit threshold. */
  function SimilarityHandler(mode: Mode, threshold: Option<real>): (h: SimilarityAction)
    ensures mode == Assert <==> h == AssertSimilarityAction(threshold)
    ensures mode == SetReference <==> h == SetReferenceAction
    ensures mode == SetBaseline <==> h == SetBaselineAction
    ensures mode == Report <==> h == ReportSimilarityAction
  {
    match mode
    case Assert => AssertSimilarityAction(threshold)
    case SetReference => SetReferenceAction
    case SetBaseline => SetBaselineAction
    case Report => ReportSimilarityAction
  }

  /** The handlers for a criteria or claim result. */
  datatype ResultAction = AssertResultAction(threshold: Option<real>) | ReportResultAction | PassThrough

  /** `_criteria_handler` and `_claim_handler` (the same table): ASSERT and
      REPORT have handlers, every other mode passes the result through. */
  function ResultHandler(mode: Mode, threshold: Option<real>): (h: ResultAction)
    ensures mode == Assert <==> h == AssertResultAction(threshold)
    ensures mode == Report <==> h == ReportResultAction
    ensures h == PassThrough <==> mode != Assert && mode != Report
  {
    match mode
    case Assert => AssertResultAction(threshold)
    case Report => ReportResultAction
    case _ => PassThrough
  }

  /** A score as `similarity_score` returns it, next to `_set_reference`'s `None`. */
  function Lift(r: Result<real>): Result<Option<real>> {
    match r
    case Ok(score) => Ok(Some(score))
    case Err(e) => Err(e)
  }

  /** The comparison every assertion makes: below the threshold, record
      `rec` at the end of the failure log and raise; otherwise pass `value`
      on and leave the log alone. */
  function CheckScore<T>(value: T, score: real, threshold: real, rec: FailureRecord,
                         failures: map<string, FailureLog>, failuresFile: string)
    : (out: (Result<T>, map<string, FailureLog>))
    ensures out.0.Ok? <==> score >= threshold
    ensures out.0.Ok? ==> out.0.value == value && out.1 == failures
    ensures out.0.Err? ==> out.0.error == AssertionError(score, threshold)
    ensures out.0.Err? ==> FailuresAt(out.1, failuresFile) == FailuresAt(failures, failuresFile) + [rec]
    ensures forall p :: p != failuresFile ==> (p in out.1 <==> p in failures) && (p in failures ==> out.1[p] == failures[p])
  {
    if score < threshold then (Err(AssertionError(score, threshold)), WithFailure(failures, failuresFile, rec))
    else (Ok(value), failures)
  }

  /** What `_set_baseline` yields on the reference document `doc`: the score
      and the document with the sample added to that entry alone. */
  function BaselineOutcome(doc: ReferenceDoc, candidate: string, assertionId: string,
                           sim: (string, string) -> real, stdOf: seq<real> -> real)
    : (r: Result<(real, ReferenceDoc)>)
    ensures r.Err? <==> assertionId !in doc
    ensures r.Err? ==> r.error == KeyError(assertionId)
    ensures r.Ok? ==> r.value.0 == sim(candidate, doc[assertionId].reference)
    ensures r.Ok? ==> assertionId in r.value.1 && r.value.1[assertionId].scores == doc[assertionId].scores + [r.value.0]
    ensures r.Ok? ==> r.value.1[assertionId] == WithBaselineSample(doc[assertionId], r.value.0, stdOf)
    ensures r.Ok? ==> forall k :: k != assertionId ==> (k in r.value.1 <==> k in doc) && (k in doc ==> r.value.1[k] == doc[k])
  {
    if assertionId !in doc then Err(KeyError(assertionId))
    else
      var entry := doc[assertionId];
      var score := sim(candidate, entry.reference);
      Ok((score, doc[assertionId := WithBaselineSample(entry, score, stdOf)]))
  }

  /** What `_report_similarity` yields: the score, folded into the report's
      `semantic_similarity` average. */
  function ReportSimilarityOutcome(doc: ReferenceDoc, reports: map<string, ReportDoc>, reportFile: string,
                                   candidate: string, assertionId: string, sim: (string, string) -> real)
    : (out: (Result<real>, map<string, ReportDoc>))
    ensures out.0.Err? <==> assertionId !in doc
    ensures out.0.Err? ==> out.0.error == KeyError(assertionId) && out.1 == reports
    ensures out.0.Ok? ==> out.0.value == sim(candidate, doc[assertionId].reference)
    ensures out.0.Ok? ==> out.1 == WithScore(reports, reportFile, SemanticSimilarityMetric, out.0.value)
  {
    if assertionId !in doc then (Err(KeyError(assertionId)), reports)
    else
      var score := sim(candidate, doc[assertionId].reference);
      (Ok(score), WithScore(reports, reportFile, SemanticSimilarityMetric, score))
  }

  /** One `Metrics` object: the reference file it works on and its own
      thresholds. The language-model and embedding services are not modelled. */
  class Metrics {
    const referenceId: string
    const claimCheckThreshold: Option<real>
    const criteriaCheckThreshold: Option<real>
    const similarityThreshold: Option<real>

    constructor (referenceId: string, claimCheckThreshold: Option<real>,
                 criteriaCheckThreshold: Option<real>, similarityThreshold: Option<real>)
      ensures this.referenceId == referenceId
      ensures this.claimCheckThreshold == claimCheckThreshold
      ensures this.criteriaCheckThreshold == criteriaCheckThreshold
      ensures this.similarityThreshold == similarityThreshold
    {
      this.referenceId := referenceId;
      this.claimCheckThreshold := claimCheckThreshold;
      this.criteriaCheckThreshold := criteriaCheckThreshold;
      this.similarityThreshold := similarityThreshold;
    }

    /** `reference_dir / f"{reference_id}.json"`. */
    function ReferencePath(em: ExecutionMode): (r: string)
      reads em
      ensures |r| == |em.referenceDir| + |referenceId| + 6
      ensures r[..|em.referenceDir| + 1] == em.referenceDir + "/" && r[|r| - 5..] == ".json"
      ensures r[|em.referenceDir| + 1..|r| - 5] == referenceId
    {
      em.referenceDir + "/" + referenceId + ".json"
    }

    /** What `_assert_similarity` yields on the reference document `doc`:
        an unknown id raises KeyError; the threshold is the explicit one, else
        this object's, else the entry's suggested one (none of them: the
        comparison with None raises TypeError); the check fails, recording
        exactly one failure, exactly when the score is below the threshold. */
    function AssertSimilarityOutcome(doc: ReferenceDoc, failures: map<string, FailureLog>, failuresFile: string,
                                     candidate: string, assertionId: string, threshold: Option<real>,
                                     sim: (string, string) -> real)
      : (out: (Result<real>, map<string, FailureLog>))
      ensures assertionId !in doc ==> out == (Err(KeyError(assertionId)), failures)
      ensures out.0.Ok? ==> assertionId in doc && out.0.value == sim(candidate, doc[assertionId].reference)
      ensures out.0.Ok? ==> out.1 == failures
      ensures out.0.Ok? ==> var thr := FirstPresent(threshold, similarityThreshold, doc[assertionId].suggestedThreshold);
                            thr.Some? && out.0.value >= thr.value
      ensures out.0 == Err(NoneComparison) <==>
                assertionId in doc && threshold.None? && similarityThreshold.None? && doc[assertionId].suggestedThreshold.None?
      ensures out.0.Err? && out.0.error.AssertionError? ==>
                && assertionId in doc
                && out.0.error.score == sim(candidate, doc[assertionId].reference)
                && out.0.error.score < out.0.error.threshold
                && Some(out.0.error.threshold) == FirstPresent(threshold, similarityThreshold, doc[assertionId].suggestedThreshold)
                && FailuresAt(out.1, failuresFile) == FailuresAt(failures, failuresFile) + [
                     FailureRecord(SemanticSimilarityMetric,
                       SimilarityFailure(assertionId, out.0.error.score, out.0.error.threshold, candidate,
                                         doc[assertionId].reference))]
      ensures !(out.0.Err? && out.0.error.AssertionError?) ==> out.1 == failures
      ensures assertionId in doc && FirstPresent(threshold, similarityThreshold, doc[assertionId].suggestedThreshold).Some? ==>
                var thr := FirstPresent(threshold, similarityThreshold, doc[assertionId].suggestedThreshold).value;
                var score := sim(candidate, doc[assertionId].reference);
                && (score >= thr ==> out == (Ok(score), failures))
                && (score < thr ==> out.0 == Err(AssertionError(score, thr)))
      ensures forall p :: p != failuresFile ==> (p in out.1 <==> p in failures) && (p in failures ==> out.1[p] == failures[p])
    {
      if assertionId !in doc then (Err(KeyError(assertionId)), failures)
      else
        var entry := doc[assertionId];
        var score := sim(candidate, entry.reference);
        match FirstPresent(threshold, similarityThreshold, entry.suggestedThreshold)
        case None => (Err(NoneComparison), failures)
        case Some(thr) =>
          CheckScore(score, score, thr,
                     FailureRecord(SemanticSimilarityMetric, SimilarityFailure(assertionId, score, thr, candidate, entry.reference)),
                     failures, failuresFile)
    }

    /** `_save_failure`: append one record to the run's failure log. */
    method SaveFailure(metricType: string, result: FailureResult, em: ExecutionMode, fs: FileStore)
      modifies fs
      ensures fs.failures == WithFailure(old(fs.failures), em.failuresFile, FailureRecord(metricType, result))
      ensures fs.references == old(fs.references) && fs.reports == old(fs.reports)
    {
      var path := em.failuresFile;
      var data := FailuresAt(fs.failures, path);
      data := data + [FailureRecord(metricType, result)];
      fs.failures := fs.failures[path := data];
    }

    /** `_update_global`: fold `score` into the run report's running average for `key`. */
    method UpdateGlobal(key: string, score: real, em: ExecutionMode, fs: FileStore)
      modifies fs
      ensures fs.reports == WithScore(old(fs.reports), em.reportFile, key, score)
      ensures fs.references == old(fs.references) && fs.failures == old(fs.failures)
    {
      var path := em.reportFile;
      var data := ReportAt(fs.reports, path);
      ghost var loaded := data;
      if key !in data {
        data := data[key := ReportEntry(0, 0.0)];
      }
      var entry := data[key];
      assert entry == EntryOrNew(loaded, key);
      var c := entry.count;
      var avg := Stats.NextAverage(entry.avg, c, score);
      data := data[key := ReportEntry(c + 1, avg)];
      assert data == loaded[key := ReportEntry(c + 1, avg)];
      fs.reports := fs.reports[path := data];
    }

    /** `_assert_similarity`. */
    method AssertSimilarity(candidate: string, assertionId: string, threshold: Option<real>,
                            sim: (string, string) -> real, em: ExecutionMode, fs: FileStore)
      returns (r: Result<real>)
      modifies fs
      ensures (r, fs.failures) == AssertSimilarityOutcome(ReferencesAt(old(fs.references), ReferencePath(em)),
                                    old(fs.failures), em.failuresFile, candidate, assertionId, threshold, sim)
      ensures fs.references == old(fs.references) && fs.reports == old(fs.reports)
    {
      var data := ReferencesAt(fs.references, ReferencePath(em));
      if assertionId !in data {
        return Err(KeyError(assertionId));
      }
      var entry := data[assertionId];
      var score := sim(candidate, entry.reference);
      var thr := FirstPresent(threshold, similarityThreshold, entry.suggestedThreshold);
      if thr.None? {
        return Err(NoneComparison);
      }
      if score < thr.value {
        SaveFailure(SemanticSimilarityMetric,
                    SimilarityFailure(assertionId, score, thr.value, candidate, entry.reference), em, fs);
        return Err(AssertionError(score, thr.value));
      }
      r := Ok(score);
    }

    /** `_set_reference`: create or overwrite the entry of `assertionId`. */
    method SetReference(candidate: string, assertionId: string, em: ExecutionMode, fs: FileStore)
      modifies fs
      ensures fs.references == old(fs.references)[ReferencePath(em) :=
                WithReference(ReferencesAt(old(fs.references), ReferencePath(em)), assertionId, candidate)]
      ensures fs.reports == old(fs.reports) && fs.failures == old(fs.failures)
    {
      var path := ReferencePath(em);
      var data := ReferencesAt(fs.references, path);
      data := data[assertionId := ReferenceEntry(candidate, [], None, None, None)];
      fs.references := fs.references[path := data];
    }

    /** `_set_baseline`: add one sample to the entry of `assertionId` and
        recompute its statistics. */
    method SetBaseline(candidate: string, assertionId: string, sim: (string, string) -> real,
                       stdOf: seq<real> -> real, em: ExecutionMode, fs: FileStore)
      returns (r: Result<real>)
      modifies fs
      ensures var out := BaselineOutcome(ReferencesAt(old(fs.references), ReferencePath(em)),
                                         candidate, assertionId, sim, stdOf);
              out.Err? ==> r == Err(out.error) && fs.references == old(fs.references)
      ensures var out := BaselineOutcome(ReferencesAt(old(fs.references), ReferencePath(em)),
                                         candidate, assertionId, sim, stdOf);
              out.Ok? ==> r == Ok(out.value.0) && fs.references == old(fs.references)[ReferencePath(em) := out.value.1]
      ensures fs.reports == old(fs.reports) && fs.failures == old(fs.failures)
    {
      var path := ReferencePath(em);
      var data := ReferencesAt(fs.references, path);
      if assertionId !in data {
        return Err(KeyError(assertionId));
      }
      var entry := data[assertionId];
      var score := sim(candidate, entry.reference);
      var scores := entry.scores + [score];
      var mean := Stats.Mean(scores);
      var std := if |scores| > 1 then stdOf(scores) else 0.0;
      entry := entry.(scores := scores, mean := Some(mean), std := Some(std),
                      suggestedThreshold := Some(mean - 2.0 * std));
      data := data[assertionId := entry];
      fs.references := fs.references[path := data];
      r := Ok(score);
    }

    /** `_report_similarity`. */
    method ReportSimilarity(candidate: string, assertionId: string, sim: (string, string) -> real,
                            em: ExecutionMode, fs: FileStore)
      returns (r: Result<real>)
      modifies fs
      ensures (r, fs.reports) == ReportSimilarityOutcome(ReferencesAt(old(fs.references), ReferencePath(em)),
                                   old(fs.reports), em.reportFile, candidate, assertionId, sim)
      ensures fs.references == old(fs.references) && fs.failures == old(fs.failures)
    {
      var data := ReferencesAt(fs.references, ReferencePath(em));
      if assertionId !in data {
        return Err(KeyError(assertionId));
      }
      var score := sim(candidate, data[assertionId].reference);
      UpdateGlobal(SemanticSimilarityMetric, score, em, fs);
      r := Ok(score);
    }

    /** `similarity_score`: run the handler of the current mode. */
    method SimilarityScore(candidate: string, assertionId: string, threshold: Option<real>,
                           sim: (string, string) -> real, stdOf: seq<real> -> real,
                           em: ExecutionMode, fs: FileStore)
      returns (r: Result<Option<real>>)
      modifies fs
      ensures em.mode == Assert ==>
                var out := AssertSimilarityOutcome(ReferencesAt(old(fs.references), ReferencePath(em)),
                             old(fs.failures), em.failuresFile, candidate, assertionId, threshold, sim);
                && r == Lift(out.0) && fs.failures == out.1
                && fs.references == old(fs.references) && fs.reports == old(fs.reports)
      ensures em.mode == Mode.SetReference ==>
                && r == Ok(None)
                && fs.references == old(fs.references)[ReferencePath(em) :=
                     WithReference(ReferencesAt(old(fs.references), ReferencePath(em)), assertionId, candidate)]
                && fs.reports == old(fs.reports) && fs.failures == old(fs.failures)
      ensures em.mode == Mode.SetBaseline ==>
                var out := BaselineOutcome(ReferencesAt(old(fs.references), ReferencePath(em)),
                                           candidate, assertionId, sim, stdOf);
                && (out.Err? ==> r == Err(out.error) && fs.references == old(fs.references))
                && (out.Ok? ==> r == Ok(Some(out.value.0))
                                && fs.references == old(fs.references)[ReferencePath(em) := out.value.1])
                && fs.reports == old(fs.reports) && fs.failures == old(fs.failures)
      ensures em.mode == Report ==>
                var out := ReportSimilarityOutcome(ReferencesAt(old(fs.references), ReferencePath(em)),
                             old(fs.reports), em.reportFile, candidate, assertionId, sim);
                && r == Lift(out.0) && fs.reports == out.1
                && fs.references == old(fs.references) && fs.failures == old(fs.failures)
    {
      var mode := em.GetMode();
      match SimilarityHandler(mode, threshold)
      case AssertSimilarityAction(thr) =>
        var s := AssertSimilarity(candidate, assertionId, thr, sim, em, fs);
        r := Lift(s);
      case SetReferenceAction =>
        SetReference(candidate, assertionId, em, fs);
        r := Ok(None);
      case SetBaselineAction =>
        var s := SetBaseline(candidate, assertionId, sim, stdOf, em, fs);
        r := Lift(s);
      case ReportSimilarityAction =>
        var s := ReportSimilarity(candidate, assertionId, sim, em, fs);
        r := Lift(s);
    }

    // ----- criteria check -----

    /** The percentage a criteria result must reach. */
    function CriteriaThreshold(threshold: Option<real>, em: ExecutionMode): real
      reads em
    {
      ScaledThreshold(threshold, criteriaCheckThreshold, em.defaultThresholds.generalCriteria)
    }

    /** `_assert_criteria`. */
    method AssertCriteria(result: CriteriaResult, threshold: Option<real>, em: ExecutionMode, fs: FileStore)
      returns (r: Result<CriteriaResult>)
      modifies fs
      ensures (r, fs.failures) == CheckScore(result, result.score, CriteriaThreshold(threshold, em),
                                    FailureRecord(CriteriaCheckMetric, CriteriaFailure(result)),
                                    old(fs.failures), em.failuresFile)
      ensures fs.references == old(fs.references) && fs.reports == old(fs.reports)
    {
      var thr := CriteriaThreshold(threshold, em);
      if result.score < thr {
        SaveFailure(CriteriaCheckMetric, CriteriaFailure(result), em, fs);
        return Err(AssertionError(result.score, thr));
      }
      r := Ok(result);
    }

    /** `_report_criteria`. */
    method ReportCriteria(result: CriteriaResult, em: ExecutionMode, fs: FileStore) returns (r: CriteriaResult)
      modifies fs
      ensures r == result
      ensures fs.reports == WithScore(old(fs.reports), em.reportFile, CriteriaCheckMetric, result.score)
      ensures fs.references == old(fs.references) && fs.failures == old(fs.failures)
    {
      UpdateGlobal(CriteriaCheckMetric, result.score, em, fs);
      r := result;
    }

    /** `criteria_check`: judge and score, then run the handler of the current mode. */
    method CriteriaCheck(content: string, criteria: seq<string>, threshold: Option<real>,
                         judge: (string, string) -> bool, em: ExecutionMode, fs: FileStore)
      returns (r: Result<CriteriaResult>)
      modifies fs
      ensures CriteriaScoreOf(content, criteria, judge).Err? ==>
                r == CriteriaScoreOf(content, criteria, judge) && unchanged(fs)
      ensures CriteriaScoreOf(content, criteria, judge).Ok? && em.mode == Assert ==>
                var result := CriteriaScoreOf(content, criteria, judge).value;
                && (r, fs.failures) == CheckScore(result, result.score, CriteriaThreshold(threshold, em),
                                         FailureRecord(CriteriaCheckMetric, CriteriaFailure(result)),
                                         old(fs.failures), em.failuresFile)
                && fs.references == old(fs.references) && fs.reports == old(fs.reports)
      ensures CriteriaScoreOf(content, criteria, judge).Ok? && em.mode == Report ==>
                var result := CriteriaScoreOf(content, criteria, judge).value;
                && r == Ok(result)
                && fs.reports == WithScore(old(fs.reports), em.reportFile, CriteriaCheckMetric, result.score)
                && fs.references == old(fs.references) && fs.failures == old(fs.failures)
      ensures em.mode != Assert && em.mode != Report ==>
                r == CriteriaScoreOf(content, criteria, judge) && unchanged(fs)
    {
      var result := CriteriaCheckHandler(content, criteria, judge);
      if result.Err? {
        return result;
      }
      var mode := em.GetMode();
      match ResultHandler(mode, threshold)
      case AssertResultAction(thr) =>
        r := AssertCriteria(result.value, thr, em, fs);
      case ReportResultAction =>
        var v := ReportCriteria(result.value, em, fs);
        r := Ok(v);
      case PassThrough =>
        r := result;
    }

    // ----- claim check -----

    /** The percentage a claim result must reach. */
    function ClaimThreshold(threshold: Option<real>, em: ExecutionMode): real
      reads em
    {
      ScaledThreshold(threshold, claimCheckThreshold, em.defaultThresholds.claimCheck)
    }

    /** `_assert_claim`. */
    method AssertClaim(result: ClaimResult, threshold: Option<real>, em: ExecutionMode, fs: FileStore)
      returns (r: Result<ClaimResult>)
      modifies fs
      ensures (r, fs.failures) == CheckScore(result, result.totalScore, ClaimThreshold(threshold, em),
                                    FailureRecord(ClaimCheckMetric, ClaimFailure(result)),
                                    old(fs.failures), em.failuresFile)
      ensures fs.references == old(fs.references) && fs.reports == old(fs.reports)
    {
      var thr := ClaimThreshold(threshold, em);
      if result.totalScore < thr {
        SaveFailure(ClaimCheckMetric, ClaimFailure(result), em, fs);
        return Err(AssertionError(result.totalScore, thr));
      }
      r := Ok(result);
    }

    /** `_report_claim`. */
    method ReportClaim(result: ClaimResult, em: ExecutionMode, fs: FileStore) returns (r: ClaimResult)
      modifies fs
      ensures r == result
      ensures fs.reports == WithScore(old(fs.reports), em.reportFile, ClaimCheckMetric, result.totalScore)
      ensures fs.references == old(fs.references) && fs.failures == old(fs.failures)
    {
      UpdateGlobal(ClaimCheckMetric, result.totalScore, em, fs);
      r := result;
    }

    /** `claim_check`: validate the arguments and score the checker's
        verdicts, then run the handler of the current mode. */
    method ClaimCheck(content: Option<string>, source: DataSource, threshold: Option<real>,
                      kwargs: map<string, ArgValue>, verdicts: seq<ClaimVerdict>,
                      em: ExecutionMode, fs: FileStore)
      returns (r: Result<ClaimResult>)
      modifies fs
      ensures ClaimCheckOf(content, source, kwargs, verdicts).Err? ==>
                r == ClaimCheckOf(content, source, kwargs, verdicts) && unchanged(fs)
      ensures ClaimCheckOf(content, source, kwargs, verdicts).Ok? && em.mode == Assert ==>
                var result := ClaimCheckOf(content, source, kwargs, verdicts).value;
                && (r, fs.failures) == CheckScore(result, result.totalScore, ClaimThreshold(threshold, em),
                                         FailureRecord(ClaimCheckMetric, ClaimFailure(result)),
                                         old(fs.failures), em.failuresFile)
                && fs.references == old(fs.references) && fs.reports == old(fs.reports)
      ensures ClaimCheckOf(content, source, kwargs, verdicts).Ok? && em.mode == Report ==>
                var result := ClaimCheckOf(content, source, kwargs, verdicts).value;
                && r == Ok(result)
                && fs.reports == WithScore(old(fs.reports), em.reportFile, ClaimCheckMetric, result.totalScore)
                && fs.references == old(fs.references) && fs.failures == old(fs.failures)
      ensures em.mode != Assert && em.mode != Report ==>
                r == ClaimCheckOf(content, source, kwargs, verdicts) && unchanged(fs)
    {
      var result := ClaimCheckHandler(content, source, kwargs, verdicts);
      if result.Err? {
        return result;
      }
      var mode := em.GetMode();
      match ResultHandler(mode, threshold)
      case AssertResultAction(thr) =>
        r := AssertClaim(result.value, thr, em, fs);
      case ReportResultAction =>
        var v := ReportClaim(result.value, em, fs);
        r := Ok(v);
      case PassThrough =>
        r := result;
    }
  }
}
