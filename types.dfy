/** Values the reporter receives from the test runner and the abstract output it produces. */
module Types {

  datatype Option<T> = None | Some(value: T)

  /** An error object thrown by a test or a hook; the reporter never looks inside it. */
  datatype ErrorRef = ErrorRef(id: nat)

  /** One entry of an error list: the phase the error was raised in, and the error. */
  datatype ErrorEntry = ErrorEntry(phase: string, error: ErrorRef)

  /** The runner the reporter is booted with; opaque to the reporter. */
  datatype RunnerRef = RunnerRef(id: nat)

  /** Per-run counts by outcome category (JavaScript numbers, here integers). */
  datatype Aggregates = Aggregates(
    total: int,
    failed: int,
    passed: int,
    todo: int,
    skipped: int,
    regression: int,
    uncaughtExceptions: int)

  /** A failed test inside a group. */
  datatype TestFailure = TestFailure(title: string, errors: seq<ErrorEntry>)

  /** A child of a suite in the failure tree: a group with its failed tests, or a bare test. */
  datatype SuiteChild =
    | GroupFailure(name: string, errors: seq<ErrorEntry>, children: seq<TestFailure>)
    | BareTestFailure(title: string, errors: seq<ErrorEntry>)

  /** A top-level node of the failure tree. */
  datatype SuiteFailure = SuiteFailure(name: string, errors: seq<ErrorEntry>, children: seq<SuiteChild>)

  /** The part of the runner's summary that printSummary reads. */
  datatype RunSummary = RunSummary(
    aggregates: Aggregates,
    hasError: bool,
    duration: real,
    failureTree: seq<SuiteFailure>)

  datatype Banner = NoTests | Passed | Failed

  /** The categories printSummary prints an aggregate line for. */
  datatype Category =
    TotalCount | FailedCount | PassedCount | TodoCount | SkippedCount | RegressionCount | UncaughtCount | DurationText

  /** The value printed on an aggregate line: a count, or the humanised duration. */
  datatype AggregateValue = Count(n: int) | Text(s: string)

  /** One step of printSummary's output: a console line, or a call into the errors printer. */
  datatype Output =
    | Blank
    | ShowBanner(banner: Banner)
    | Aggregate(category: Category, value: AggregateValue, padWidth: int)
    | PrintErrors(caption: string, errors: seq<ErrorEntry>)

  /** The events the reporter subscribes to at boot, with the payload fields it reads. */
  datatype Event =
    | TestStart(fileName: Option<string>)
    | TestEnd
    | GroupStart(fileName: Option<string>)
    | GroupEnd
    | SuiteStart(name: string)
    | SuiteEnd
    | UncaughtException(error: ErrorRef)
    | RunnerStart
    | RunnerEnd

  /** The overridable hooks an event handler invokes. */
  datatype Hook = OnTestStart | OnTestEnd | OnGroupStart | OnGroupEnd | OnSuiteStart | OnSuiteEnd | Start | End
}
