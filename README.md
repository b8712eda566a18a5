# ai-metrics bookkeeping core in Dafny

This project models the bookkeeping layer of the `aim` evaluation harness and
proves properties of it. The harness scores text produced by a language
model in three ways:

- **semantic similarity** to a stored reference text;
- **criteria checks**, where a judge model says yes or no to each criterion;
- **claim checks**, where extracted claims are checked against a data source.

What the harness then does with a score depends on the global execution
mode:

- `test`: assert the score against a threshold and log any failure;
- `set-reference`: store a reference text;
- `set-baseline`: collect baseline statistics;
- `report`: fold the score into a per-run running average.

The model keeps the harness's own structure:

- `common.dfy` (`Common`): `Option`, the exceptions the harness raises (as an `Error` datatype), `Result`, and the "first non-`None`" selection every threshold uses.
- `text.dfy` (`Text`): Python's `str.isspace`/`str.strip`, `int(str)` for base-10 literals, and `str(int)`.
- `data_sources.dfy` (`DataSources`): the `DataSource` enum and its `required_args` table.
- `state.dfy` (`State`): the execution modes, the default thresholds, start-up from `AIM_MODE`/`AIM_ITERATION`, and the `ExecutionMode` global as a class with `SetMode` and `GetMode`.
- `stats.dfy` (`Stats`): sum, mean, population variance and standard deviation, and the incremental running average.
- `scoring.dfy` (`Scoring`): criteria and claim aggregation (specification functions plus the loop methods that implement them) and `_collect_args`.
- `files.dfy` (`Files`): the three JSON documents as typed maps, their pure updates with frame lemmas, and a `FileStore` class holding the files on disk by path.
- `metrics.dfy` (`Metrics`): the `Metrics` class. Its methods read and rewrite the `FileStore`, and each is proved equal to a pure outcome function.

Scores are exact `real`s. The services the harness calls are parameters:

- `sim(a, b)` is the embedding cosine similarity;
- `judge(criterion, content)` is the language model's verdict;
- `stdOf(xs)` is numpy's standard deviation;
- `verdicts` is the claim checker's output.

A file that does not exist reads as its default document, as `_load_json` does.

## Model

| member | source | states |
|---|---|---|
| Common.FirstPresent | src/aim/metrics.py:63-65 | the explicit threshold wins if present, else the instance's, else the third; the result is present iff one of them is |
| DataSources.RequiredArgs | src/aim/data_sources.py:9-15 | every source requires a non-empty list of arguments with no duplicates |
| DataSources.RequiredArgsTable | src/aim/data_sources.py:12-14 | WEB needs `urls`, MCP needs `params`, RETRIEVER needs `retriever_request` then `query` |
| Text.SkipSpacesStops | src/aim/metrics.py:261 | the forward scan of `strip()` passes over whitespace only and stops at the first character that is not whitespace |
| Text.SkipSpacesBackStops | src/aim/metrics.py:261 | the backward scan of `strip()` passes over whitespace only and stops after the last character that is not whitespace |
| Text.StripRemovesSurroundingWhitespace | src/aim/metrics.py:261 | `strip()` returns a slice of the string with only whitespace before and after it, and a non-empty result neither starts nor ends with whitespace |
| Text.StripUnique | src/aim/metrics.py:261 | any slice with only whitespace around it that is empty or has non-whitespace ends is what `strip()` returns: exactly the leading and trailing whitespace is removed |
| Text.StripBlank | src/aim/metrics.py:261 | `strip()` is empty exactly when every character is whitespace (the empty string included) |
| Text.StripKeepsTrimmed | src/aim/metrics.py:261 | `strip()` leaves a string unchanged when its first and last characters are not whitespace |
| Text.StripSkipsSurroundingSpaces | src/aim/metrics.py:261 | whitespace put around a string does not change what `strip()` leaves |
| Text.ParseLiteral | src/aim/state.py:24 | once the surrounding whitespace is gone, `int()` accepts exactly a digit string with at most one `+` or `-` in front |
| Text.ParseInt | src/aim/state.py:24 | `int()` accepts a string exactly when, with `int()`'s own whitespace stripped (the `str.isspace` set without U+001C..U+001F), it is a digit string with at most one `+` or `-` in front |
| Text.ParseIntBlank | src/aim/state.py:24 | a blank string (the empty string included) is not an integer literal, so `int()` raises |
| Text.ParseIntDigits | src/aim/state.py:24 | a digit string, underscores between digits allowed, reads as its decimal value |
| Text.ParseIntSigned | src/aim/state.py:24 | a `+` or `-` followed by a digit string reads as the value, negated for `-` |
| Text.ParseIntSkipsSurroundingSpaces | src/aim/state.py:24 | whitespace around a literal does not change what `int()` reads, or whether it raises |
| Text.IntToString | src/aim/cli_entrypoint.py:32 | `str(n)` is the decimal digits of `n`, with a leading `-` exactly when `n` is negative, no underscore and no leading zero, and they read back as `abs(n)` |
| Text.ParseIntToString | src/aim/state.py:24 | `int(str(n)) == n` for every integer |
| State.ModeOf | src/aim/state.py:6-10 | the mode found has the given value, and no mode has the value when none is found |
| State.ModeValueBijection | src/aim/state.py:6-10 | value to mode to value is the identity, and distinct modes have distinct values |
| State.InitialMode | src/aim/state.py:16-19 | unset or empty `AIM_MODE` gives ASSERT; otherwise the mode with that value; a value no mode has raises ValueError |
| State.ModeRoundTrip | src/aim/state.py:16-19 | starting up with a mode's value in `AIM_MODE` gives that mode |
| State.InitialIteration | src/aim/state.py:24 | an unset `AIM_ITERATION` gives 0; a set one gives exactly the value `int()` parses, or raises ValueError when it does not parse |
| State.FailuresFileName | src/aim/state.py:31 | the failure log name is the directory, `/failures_`, the stamp and `.json`, and the stamp can be read back from it |
| State.ReportFileName | src/aim/state.py:32 | the report name is the directory, `/report_`, the stamp and `.json`, and the stamp can be read back from it |
| State.IterationRoundTrip | src/aim/cli_entrypoint.py:29-32 | the command line writes `str(runs)` into a copy of its environment only for a non-zero run count: the tests then start with that count; otherwise they start with whatever `AIM_ITERATION` was inherited (0 when none was) |
| State.FileNamesDistinguishRuns | src/aim/state.py:31-32 | failure and report file names determine the time stamp, so runs with different stamps never share a file |
| State.ExecutionMode.constructor | src/aim/state.py:22-32 | the initial fields: the given mode and iteration, no config, 0.90/0.90 thresholds, the three directories, both files stamped with the same time stamp |
| State.ExecutionMode.SetMode | src/aim/state.py:35-43 | mode, iteration and config become exactly the arguments; both files are re-stamped with the same stamp in their unchanged directories; thresholds unchanged |
| State.ExecutionMode.GetMode | src/aim/state.py:48-49 | returns the mode most recently assigned |
| State.Initialize | src/aim/state.py:16-32 | an unknown mode raises first, then a malformed iteration; otherwise a fresh state with the start-up mode and iteration, no config, the default thresholds, the three fixed directories and the file names stamped with the start-up time |
| Stats.NextAverageIsMean | src/aim/metrics.py:125 | the incremental update turns the mean of `xs` into the mean of `xs + [x]` |
| Stats.NextAverage | src/aim/metrics.py:125 | the first score becomes the average, and every later average lies between the previous average and the new score |
| Stats.MeanBounds | src/aim/metrics.py:100 | the mean of samples in `[lo, hi]` is in `[lo, hi]` |
| Stats.SingleSampleStd | src/aim/metrics.py:101 | one sample has variance 0, so 0.0 is its population standard deviation |
| Stats.PopulationStdUnique | src/aim/metrics.py:101 | the population standard deviation is unique |
| Stats.VarianceNonNegative | src/aim/metrics.py:101 | the population variance of a non-empty sample is never negative |
| Scoring.Count | src/aim/metrics.py:182 | a count never exceeds the length |
| Scoring.CountExtremes | src/aim/metrics.py:182 | the count equals the length iff every element counts, and is 0 iff none does |
| Scoring.Percent | src/aim/metrics.py:181-183 | `k / n * 100` lies in `[0, 100]` for `k <= n`, is 100 iff `k == n` and 0 iff `k == 0` |
| Scoring.ScaledThreshold | src/aim/metrics.py:158-160 | (explicit ?? instance ?? default) * 100 |
| Scoring.CriteriaScoreOf | src/aim/metrics.py:170-193 | the i-th detail pairs `criteria[i]` with its verdict; score = #passed / #criteria * 100, in `[0, 100]`, 100 iff all pass, 0 iff none; empty criteria divide by zero |
| Scoring.CriteriaCheckHandler | src/aim/metrics.py:173-191 | the loop that judges each criterion in order produces exactly `CriteriaScoreOf` |
| Scoring.IsMissingCases | src/aim/metrics.py:261 | `None` and falsy objects are missing; a string is missing iff every character is whitespace (the empty string included) |
| Scoring.Missing | src/aim/metrics.py:261 | the list is never longer than the required keys; what it holds and in what order is stated by the four lemmas below |
| Scoring.MissingMembers | src/aim/metrics.py:261 | a key is listed iff it is required and its value is absent, falsy or blank |
| Scoring.MissingDistinct | src/aim/metrics.py:260-261 | required keys without duplicates give a missing list without duplicates |
| Scoring.MissingSnoc | src/aim/metrics.py:261 | one more required key adds it at the end of the list exactly when its value is missing |
| Scoring.MissingAppend | src/aim/metrics.py:261 | the list keeps the order of the required keys: the list for `a + b` is the list for `a` followed by the list for `b` |
| Scoring.CollectArgs | src/aim/metrics.py:259-264 | raises ValueError naming the missing arguments (non-empty, no duplicates) iff one is missing; otherwise the keys are exactly the required ones, each with its given value |
| Scoring.ClaimCheckOf | src/aim/metrics.py:226-256 | argument errors come first; score = #valid / #verdicts * 100, in `[0, 100]`, 100 iff all valid, 0 iff none; no verdicts divide by zero; content and verdicts returned |
| Scoring.ClaimCheckHandler | src/aim/metrics.py:244-250 | the counting loop produces exactly `ClaimCheckOf` |
| Files.ReferencesAt | src/aim/metrics.py:34-38 | loading a reference file gives its stored entries, or no entries (the default at lines 59, 81, 93 and 109) when it does not exist |
| Files.ReportAt | src/aim/metrics.py:34-38 | loading a report file gives its stored metrics, or none (the default at line 118) when it does not exist |
| Files.FailuresAt | src/aim/metrics.py:34-38 | loading a failure file gives its stored records, or the empty list (the default at line 132) when it does not exist |
| Files.WithReference | src/aim/metrics.py:82-88 | the entry of the id becomes the candidate with no scores and no statistics; every other entry unchanged |
| Files.WithBaselineSample | src/aim/metrics.py:96-102 | the score is appended at the end; mean is the mean of all scores; std is 0 for a first sample and numpy's value otherwise; suggested = mean - 2*std; reference kept |
| Files.BaselineStdIsPopulationStd | src/aim/metrics.py:99-102 | if numpy returns the population deviation, the stored std is the population deviation also for one sample, and suggested <= mean |
| Files.BaselineAccumulates | src/aim/metrics.py:91-105 | after m baseline runs the scores are the old ones followed by all m samples, the mean is their mean, suggested = mean - 2*std |
| Files.RecordScore | src/aim/metrics.py:116-128 | the key's count grows by one and its average is updated incrementally from (0, 0.0) for a new key; other keys unchanged |
| Files.RunningAverageIsMean | src/aim/metrics.py:120-126 | after recording n scores the entry holds their count and their arithmetic mean; other metrics unchanged |
| Files.NewMetricAverage | src/aim/metrics.py:120-126 | a new metric averages exactly the recorded scores, and scores in `[lo, hi]` keep the average in `[lo, hi]` |
| Files.WithFailure | src/aim/metrics.py:130-137 | the record is appended after all earlier records, in order; other files unchanged |
| Files.FileStore.constructor | src/aim/metrics.py:34-38 | the files on disk by path |
| Metrics.SimilarityHandler | src/aim/metrics.py:49-55 | each mode selects its own similarity handler; only the assertion takes the threshold |
| Metrics.ResultHandler | src/aim/metrics.py:151-155 | ASSERT asserts, REPORT reports, every other mode passes the result through unchanged |
| Metrics.CheckScore | src/aim/metrics.py:161-164 | raises AssertionError and appends exactly one failure iff score < threshold; otherwise returns the value with the log unchanged |
| Metrics.BaselineOutcome | src/aim/metrics.py:91-105 | a missing id raises KeyError; otherwise the score is `sim(candidate, reference)` and only that entry gains the sample |
| Metrics.ReportSimilarityOutcome | src/aim/metrics.py:107-114 | a missing id raises KeyError with the report unchanged; otherwise the score is folded into `semantic_similarity` |
| Metrics.Metrics.constructor | src/aim/metrics.py:16-32 | the reference id and the three optional thresholds |
| Metrics.Metrics.ReferencePath | src/aim/metrics.py:58 | the reference file is `<reference_dir>/<reference_id>.json`, and the reference id can be read back from the path |
| Metrics.Metrics.AssertSimilarityOutcome | src/aim/metrics.py:57-77 | missing id raises KeyError; thr = explicit ?? instance ?? suggested (all None: TypeError); exactly one failure recorded and AssertionError(score, thr) iff score < thr; score >= thr returns the score with the log unchanged |
| Metrics.Metrics.SaveFailure | src/aim/metrics.py:130-137 | the run's failure log gains the record at its end; nothing else changes |
| Metrics.Metrics.UpdateGlobal | src/aim/metrics.py:116-128 | the run's report becomes `RecordScore` of the old one; nothing else changes |
| Metrics.Metrics.AssertSimilarity | src/aim/metrics.py:57-77 | result and failure log are those of `AssertSimilarityOutcome` on the reference file; references and reports unchanged |
| Metrics.Metrics.SetReference | src/aim/metrics.py:79-89 | the reference file becomes `WithReference` of the old one; nothing else changes |
| Metrics.Metrics.SetBaseline | src/aim/metrics.py:91-105 | a missing id raises KeyError with nothing changed; otherwise the reference file is `BaselineOutcome`'s document and the score is returned |
| Metrics.Metrics.ReportSimilarity | src/aim/metrics.py:107-114 | result and report are those of `ReportSimilarityOutcome`; references and failures unchanged |
| Metrics.Metrics.SimilarityScore | src/aim/metrics.py:45-47 | in each mode, the result and the files are exactly those of that mode's handler |
| Metrics.Metrics.AssertCriteria | src/aim/metrics.py:157-164 | compares the score with (explicit ?? instance ?? default) * 100 and fails exactly as `CheckScore` |
| Metrics.Metrics.ReportCriteria | src/aim/metrics.py:166-168 | returns the result and folds its score into `criteria_check` |
| Metrics.Metrics.CriteriaCheck | src/aim/metrics.py:144-149 | scoring errors change nothing; ASSERT asserts, REPORT reports, other modes return the scored result with no file touched |
| Metrics.Metrics.AssertClaim | src/aim/metrics.py:213-220 | compares the total score with (explicit ?? instance ?? default) * 100 and fails exactly as `CheckScore` |
| Metrics.Metrics.ReportClaim | src/aim/metrics.py:222-224 | returns the result and folds its total score into `claim_check` |
| Metrics.Metrics.ClaimCheck | src/aim/metrics.py:196-205 | argument and scoring errors change nothing; ASSERT asserts, REPORT reports, other modes return the scored result with no file touched |

## Left out

- Floating point: scores, means and averages are exact reals, so rounding in `(avg * c + s) / (c + 1)`, `k / n * 100` and `mean - 2 * std` is not modelled.
- Embeddings and cosine similarity (`_cosim`, src/aim/metrics.py:139-142) are the parameter `sim`; its range is not assumed.
- numpy's `std` is the parameter `stdOf`. `Files.BaselineStdIsPopulationStd` states what follows when it returns the population deviation.
- Language-model, MCP and retriever calls are inputs: the judge's verdicts are `judge`, and the checker's verdicts are `verdicts`. Claim extraction, fetching and chunking are not modelled. Python calls `extract_claims` before `_collect_args`; as both are external or pure here, that order is not observable.
- The judge's answer is modelled as a `bool`. Any other truthy object is not distinguished.
- `judge` is a pure function, so equal criteria always get equal verdicts and the order of the calls cannot be observed. `evaluate_criterion` (src/aim/metrics.py:176) is a language-model call that may answer differently each time. The model fixes one answer per (criterion, content) pair.
- A claim verdict is modelled as its `claim` and `validity` fields. Other keys of the checker's dictionaries are not modelled.
- Claim-checker classes (`vector_checker.py`, `mcp_checker.py`) and `_get_checker` (src/aim/metrics.py:266-273) are not part of this model. `_get_checker` builds `MCPChecker` from the language-model service alone, while `MCPChecker.__init__` also requires the server parameters (src/aim/claim_checking/mcp_checker.py:7). As written, every MCP claim check whose arguments validate would raise a TypeError. The model does not include that step.
- JSON I/O (`_load_json`, `_save_json`) is replaced by maps keyed by path: a missing file gives the default document.
- The three kinds of file are kept in three separate maps (`Files.FileStore`), while Python reaches one file system through `pathlib`. A `reference_id` such as `../report/report_<stamp>` makes `_set_reference` overwrite the run's report. The model cannot express that, so the "reports unchanged" and "failures unchanged" clauses of `SetReference`, `SetBaseline` and `AssertSimilarity` hold only when reference paths, report paths and failure paths never coincide. Malformed or hand-edited files, and documents missing the `semantic_similarity` or `failures` key, are not modelled.
- Path joining with `pathlib` is modelled as string concatenation with `/`.
- `int()` is modelled for ASCII digits, an optional sign, single underscores between digits and the whitespace `int()` skips: every character `str.isspace` accepts except U+001C..U+001F, which `str.strip` removes but which make `int()` raise (`Text.IsSpace` with `IntSpaces`). Non-ASCII Unicode digits are not modelled. Python's 4300-digit limit on `int(str)` and `str(int)` is not modelled, so `Text.ParseIntToString` holds for all integers rather than only for those under the limit.
- The command line (`cli_entrypoint.py`, `cli_args.py`, `cli/parser.py`) and its subprocesses are not modelled. Only what it writes into `AIM_MODE` and `AIM_ITERATION` appears, in `State.ModeRoundTrip` and `State.IterationRoundTrip`. The rest of the environment the tests inherit is not modelled.
- `datetime.now()` is the parameter `timestamp`.
- `get_base_thresholds` (src/aim/state.py:45-46) is a plain getter of `defaultThresholds`. It has no member of its own.
- The configuration loaded from JSON is modelled as a `map<string, string>`.
- Concurrency and the async `await`s are not modelled. All calls run sequentially.
- Provider clients, model tables and the tool schema carry no logic; they are not modelled.
