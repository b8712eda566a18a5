/** The process-wide execution state: which mode the harness runs in, the
    iteration count, the configuration, the default thresholds and the paths
    of the files it reads and writes. */
module State {

  import opened Common
  import opened Text

  /** The four execution modes. */
  datatype Mode = Assert | Report | SetReference | SetBaseline

  /** The string each mode stands for (the value of `AIM_MODE` and the CLI command). */
  function Value(m: Mode): string {
    match m
    case Assert => "test"
    case Report => "report"
    case SetReference => "set-reference"
    case SetBaseline => "set-baseline"
  }

  /** The mode whose value is `value`, if there is one (`ExecutionModes(value)`). */
  function ModeOf(value: string): (r: Option<Mode>)
    ensures r.Some? ==> Value(r.value) == value
    ensures r.None? ==> forall m: Mode :: Value(m) != value
  {
    if value == "test" then Some(Assert)
    else if value == "report" then Some(Report)
    else if value == "set-reference" then Some(SetReference)
    else if value == "set-baseline" then Some(SetBaseline)
    else None
  }

  /** Mode and value determine each other. */
  lemma ModeValueBijection(m: Mode, n: Mode)
    ensures ModeOf(Value(m)) == Some(m)
    ensures Value(m) == Value(n) ==> m == n
  {
  }

  /** The default thresholds, as fractions of one. */
  datatype Thresholds = Thresholds(claimCheck: real, generalCriteria: real)

  const DefaultThresholds: Thresholds := Thresholds(0.90, 0.90)

  /** The mode at start-up, from the `AIM_MODE` environment variable:
      unset or empty means ASSERT, otherwise it must name a mode. */
  function InitialMode(aimMode: Option<string>): (r: Result<Mode>)
    ensures aimMode == None || aimMode == Some("") ==> r == Ok(Assert)
    ensures r.Ok? && aimMode.Some? && aimMode.value != "" ==> Value(r.value) == aimMode.value
    ensures r.Err? <==> aimMode.Some? && aimMode.value != "" && forall m: Mode :: Value(m) != aimMode.value
    ensures r.Err? ==> r.error == InvalidMode(aimMode.value)
  {
    if aimMode.None? || aimMode.value == "" then Ok(Assert)
    else match ModeOf(aimMode.value)
      case Some(m) => Ok(m)
      case None => Err(InvalidMode(aimMode.value))
  }

  /** The command line puts the value of its mode into `AIM_MODE`; the tests
      start up in that same mode. */
  lemma ModeRoundTrip(m: Mode)
    ensures InitialMode(Some(Value(m))) == Ok(m)
  {
    ModeValueBijection(m, m);
  }

  /** The iteration count at start-up: `int(os.getenv("AIM_ITERATION", "0"))`. */
  function InitialIteration(aimIteration: Option<string>): (r: Result<int>)
    ensures aimIteration.None? ==> r == Ok(0)
    ensures aimIteration.Some? ==> (r.Ok? <==> ParseInt(aimIteration.value).Some?)
    ensures aimIteration.Some? && ParseInt(aimIteration.value).Some? ==> r == Ok(ParseInt(aimIteration.value).value)
    ensures r.Err? ==> r.error == InvalidLiteral(aimIteration.value)
  {
    match aimIteration
    case None => Ok(0)
    case Some(s) =>
      match ParseInt(s)
      case Some(n) => Ok(n)
      case None => Err(InvalidLiteral(s))
  }

  /** The command line copies its own environment, where `AIM_ITERATION`
      holds `inherited`, and writes `str(runs)` into it only when a non-zero
      run count was given. The tests then start with that run count; with no
      run count, or 0, they start with whatever was inherited (0 when nothing was). */
  lemma IterationRoundTrip(runs: Option<int>, inherited: Option<string>)
    ensures var passed := if runs.Some? && runs.value != 0 then Some(IntToString(runs.value)) else inherited;
      && (runs.Some? && runs.value != 0 ==> InitialIteration(passed) == Ok(runs.value))
      && (runs.None? || runs.value == 0 ==> InitialIteration(passed) == InitialIteration(inherited))
      && (inherited.None? ==> InitialIteration(passed) == Ok(if runs.Some? then runs.value else 0))
  {
    if runs.Some? && runs.value != 0 {
      ParseIntToString(runs.value);
    }
  }

  const FailuresDir: string := "aim_data/failures"
  const ReportDir: string := "aim_data/report"
  const ReferenceDir: string := "aim_data/reference"

  /** The failure log of the run stamped `timestamp`. */
  function FailuresFileName(dir: string, timestamp: string): (r: string)
    ensures |r| == |dir| + |timestamp| + 15
    ensures r[..|dir|] == dir && r[|dir|..|dir| + 10] == "/failures_" && r[|r| - 5..] == ".json"
    ensures r[|dir| + 10..|r| - 5] == timestamp
  {
    dir + "/failures_" + timestamp + ".json"
  }

  /** The report of the run stamped `timestamp`. */
  function ReportFileName(dir: string, timestamp: string): (r: string)
    ensures |r| == |dir| + |timestamp| + 13
    ensures r[..|dir|] == dir && r[|dir|..|dir| + 8] == "/report_" && r[|r| - 5..] == ".json"
    ensures r[|dir| + 8..|r| - 5] == timestamp
  {
    dir + "/report_" + timestamp + ".json"
  }

  /** Runs with different time stamps write to different files. */
  lemma {:induction false} FileNamesDistinguishRuns(dir: string, t1: string, t2: string)
    ensures FailuresFileName(dir, t1) == FailuresFileName(dir, t2) ==> t1 == t2
    ensures ReportFileName(dir, t1) == ReportFileName(dir, t2) ==> t1 == t2
  {
    var f1, f2 := FailuresFileName(dir, t1), FailuresFileName(dir, t2);
    if f1 == f2 {
      var k := |dir + "/failures_"|;
      assert t1 == f1[k..|f1| - 5];
      assert t2 == f2[k..|f2| - 5];
    }
    var r1, r2 := ReportFileName(dir, t1), ReportFileName(dir, t2);
    if r1 == r2 {
      var k := |dir + "/report_"|;
      assert t1 == r1[k..|r1| - 5];
      assert t2 == r2[k..|r2| - 5];
    }
  }

  /** A run's configuration, as loaded from its JSON file. */
  type Config = map<string, string>

  /** The global execution state (the class attributes of `ExecutionMode`). */
  class ExecutionMode {
    var mode: Mode
    var iteration: Option<int>
    var config: Option<Config>
    var defaultThresholds: Thresholds
    var failuresDir: string
    var reportDir: string
    var referenceDir: string
    var failuresFile: string
    var reportFile: string

    /** The state at import time, given the start-up mode and iteration and
        the time stamp of the clock. */
    constructor (mode: Mode, iteration: int, timestamp: string)
      ensures this.mode == mode && this.iteration == Some(iteration) && config == None
      ensures defaultThresholds == DefaultThresholds
      ensures failuresDir == FailuresDir && reportDir == ReportDir && referenceDir == ReferenceDir
      ensures failuresFile == FailuresFileName(FailuresDir, timestamp)
      ensures reportFile == ReportFileName(ReportDir, timestamp)
    {
      this.mode := mode;
      this.iteration := Some(iteration);
      config := None;
      defaultThresholds := DefaultThresholds;
      failuresDir := FailuresDir;
      reportDir := ReportDir;
      referenceDir := ReferenceDir;
      failuresFile := FailuresFileName(FailuresDir, timestamp);
      reportFile := ReportFileName(ReportDir, timestamp);
    }

    /** `set_mode`: overwrite mode, iteration and configuration, and start a new
        failure log and report stamped with the same `timestamp`. */
    method SetMode(mode: Mode, iteration: Option<int>, config: Option<Config>, timestamp: string)
      modifies this
      ensures this.mode == mode && this.iteration == iteration && this.config == config
      ensures failuresFile == FailuresFileName(failuresDir, timestamp)
      ensures reportFile == ReportFileName(reportDir, timestamp)
      ensures failuresDir == old(failuresDir) && reportDir == old(reportDir) && referenceDir == old(referenceDir)
      ensures defaultThresholds == old(defaultThresholds)
    {
      this.mode := mode;
      this.iteration := iteration;
      this.config := config;
      failuresFile := FailuresFileName(failuresDir, timestamp);
      reportFile := ReportFileName(reportDir, timestamp);
    }

    /** `get_mode`: the mode most recently assigned. */
    method GetMode() returns (m: Mode)
      ensures m == mode
    {
      m := mode;
    }
  }

  /** Importing the state module: read `AIM_MODE` (an unknown mode raises
      first), then `AIM_ITERATION`, and stamp the file names with `timestamp`. */
  method Initialize(aimMode: Option<string>, aimIteration: Option<string>, timestamp: string)
    returns (r: Result<ExecutionMode>)
    ensures InitialMode(aimMode).Err? ==> r == Err(InitialMode(aimMode).error)
    ensures InitialMode(aimMode).Ok? && InitialIteration(aimIteration).Err? ==>
              r == Err(InitialIteration(aimIteration).error)
    ensures r.Ok? <==> InitialMode(aimMode).Ok? && InitialIteration(aimIteration).Ok?
    ensures r.Ok? ==> fresh(r.value)
    ensures r.Ok? ==> r.value.mode == InitialMode(aimMode).value
    ensures r.Ok? ==> r.value.iteration == Some(InitialIteration(aimIteration).value)
    ensures r.Ok? ==> r.value.config == None && r.value.defaultThresholds == DefaultThresholds
    ensures r.Ok? ==> r.value.failuresFile == FailuresFileName(FailuresDir, timestamp)
    ensures r.Ok? ==> r.value.reportFile == ReportFileName(ReportDir, timestamp)
    ensures r.Ok? ==> r.value.failuresDir == FailuresDir && r.value.reportDir == ReportDir
                      && r.value.referenceDir == ReferenceDir
  {
    var mode := InitialMode(aimMode);
    if mode.Err? {
      return Err(mode.error);
    }
    var iteration := InitialIteration(aimIteration);
    if iteration.Err? {
      return Err(iteration.error);
    }
    var state := new ExecutionMode(mode.value, iteration.value, timestamp);
    r := Ok(state);
  }
}
