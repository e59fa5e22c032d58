/**
 * The BaseReporter class: its options, the state its event handlers
 * update, and printSummary, which issues the output that Summary.SummaryTrace
 * specifies.
 */
module Reporter {
  import opened Types
  import opened Summary
  import opened Events

  /** `options.stackLinesCount || 5`: an absent option and 0 both fall back to 5. */
  function StackLinesCount(option: Option<int>): (r: int)
    ensures r != 0
    ensures option.Some? && option.value != 0 ==> r == option.value
    ensures option.None? || option.value == 0 ==> r == 5
  {
    if option.Some? && option.value != 0 then option.value else 5
  }

  class BaseReporter {
    /** How many stack-trace lines the errors printer shows per error. */
    const stackLinesCount: int

    /** The runner, set by Boot. */
    var runner: Option<RunnerRef>

    /** File of the test or group that started last. */
    var currentFileName: Option<string>

    /** Suite being run, if any. */
    var currentSuiteName: Option<string>

    /** Uncaught exceptions, in the order they were reported. */
    var uncaughtExceptions: seq<ErrorEntry>

    /** The part of the reporter the event handlers update. */
    function State(): ReporterState
      reads this
    {
      ReporterState(currentFileName, currentSuiteName, uncaughtExceptions)
    }

    constructor (stackLinesCountOption: Option<int>)
      ensures stackLinesCount == StackLinesCount(stackLinesCountOption)
      ensures runner == None
      ensures State() == ReporterState(None, None, [])
    {
      stackLinesCount := StackLinesCount(stackLinesCountOption);
      runner := None;
      currentFileName := None;
      currentSuiteName := None;
      uncaughtExceptions := [];
    }

    /** Keeps the runner; the handlers it registers are the cases of Handle. */
    method Boot(r: RunnerRef)
      modifies this`runner
      ensures runner == Some(r)
    {
      runner := Some(r);
    }

    /**
     * The handler boot registered for `e`: updates the state, then invokes
     * the hook it returns, so a hook sees the updated state.
     */
    method Handle(e: Event) returns (hook: Option<Hook>)
      requires runner.Some?
      modifies this`currentFileName, this`currentSuiteName, this`uncaughtExceptions
      ensures State() == Step(old(State()), e)
      ensures hook == HookFor(e)
    {
      match e {
        case TestStart(fileName) =>
          currentFileName := fileName;
          hook := Some(OnTestStart);
        case TestEnd =>
          hook := Some(OnTestEnd);
        case GroupStart(fileName) =>
          currentFileName := fileName;
          hook := Some(OnGroupStart);
        case GroupEnd =>
          hook := Some(OnGroupEnd);
        case SuiteStart(name) =>
          currentSuiteName := Some(name);
          hook := Some(OnSuiteStart);
        case SuiteEnd =>
          currentSuiteName := None;
          hook := Some(OnSuiteEnd);
        case UncaughtException(error) =>
          uncaughtExceptions := uncaughtExceptions + [UncaughtEntry(error)];
          hook := None;
        case RunnerStart =>
          hook := Some(Start);
        case RunnerEnd =>
          hook := Some(End);
      }
    }

    /**
     * printSummary: `ms` is the duration humaniser. The console lines and
     * the errors-printer calls come out in the order SummaryTrace gives.
     */
    method PrintSummary(summary: RunSummary, ms: real -> string) returns (trace: seq<Output>)
      ensures trace == SummaryTrace(summary, ms(summary.duration), uncaughtExceptions)
    {
      var aggregates := summary.aggregates;
      trace := [Blank];
      if aggregates.total == 0 && !summary.hasError {
        trace := trace + [ShowBanner(NoTests)];
        return;
      }
      if summary.hasError {
        trace := trace + [ShowBanner(Failed)];
      } else {
        trace := trace + [ShowBanner(Passed)];
      }
      trace := trace + [Blank];
      assert trace == [Blank, ShowBanner(Verdict(summary)), Blank];

      var lines := PrintAggregates(aggregates, ms(summary.duration));
      trace := trace + lines;
      if |summary.failureTree| != 0 || |uncaughtExceptions| != 0 {
        trace := trace + [Blank, Blank];
      }
      assert trace == [Blank, ShowBanner(Verdict(summary)), Blank] + lines + Gap(summary, uncaughtExceptions);
      var calls := PrintFailureTree(summary.failureTree);
      trace := trace + calls;
      trace := trace + [PrintErrors(UncaughtLabel, uncaughtExceptions)];
    }

    /** The eight printAggregate calls, all at the width chosen from the uncaught-exceptions count. */
    method PrintAggregates(aggregates: Aggregates, humanizedDuration: string) returns (lines: seq<Output>)
      ensures lines == AggregateLines(aggregates, humanizedDuration)
    {
      var aggregatesWhiteSpace := if aggregates.uncaughtExceptions != 0 then 19 else 10;
      lines := AggregateLine(TotalCount, Count(aggregates.total), aggregatesWhiteSpace);
      lines := lines + AggregateLine(FailedCount, Count(aggregates.failed), aggregatesWhiteSpace);
      lines := lines + AggregateLine(PassedCount, Count(aggregates.passed), aggregatesWhiteSpace);
      lines := lines + AggregateLine(TodoCount, Count(aggregates.todo), aggregatesWhiteSpace);
      lines := lines + AggregateLine(SkippedCount, Count(aggregates.skipped), aggregatesWhiteSpace);
      lines := lines + AggregateLine(RegressionCount, Count(aggregates.regression), aggregatesWhiteSpace);
      lines := lines + AggregateLine(UncaughtCount, Count(aggregates.uncaughtExceptions), aggregatesWhiteSpace);
      lines := lines + AggregateLine(DurationText, Text(humanizedDuration), aggregatesWhiteSpace);
    }

    /** The errors-printer calls for one suite: the suite, then each child, a group followed by its tests. */
    method PrintSuite(suite: SuiteFailure) returns (calls: seq<Output>)
      ensures calls == SuiteCalls(suite)
    {
      calls := [PrintErrors(suite.name, suite.errors)];
      for j := 0 to |suite.children|
        invariant calls == [PrintErrors(suite.name, suite.errors)] + ChildrenCalls(suite.children[..j])
      {
        match suite.children[j] {
          case GroupFailure(name, errors, tests) =>
            var testCalls := PrintTests(tests);
            calls := calls + ([PrintErrors(name, errors)] + testCalls);
          case BareTestFailure(title, errors) =>
            calls := calls + [PrintErrors(title, errors)];
        }
        ConcatMapAt(suite.children, ChildCalls, j);
      }
      assert suite.children[..|suite.children|] == suite.children;
    }

    /** The errors-printer calls for the failed tests of a group, in order. */
    method PrintTests(tests: seq<TestFailure>) returns (calls: seq<Output>)
      ensures calls == ConcatMap(tests, TestCall)
    {
      calls := [];
      for k := 0 to |tests|
        invariant calls == ConcatMap(tests[..k], TestCall)
      {
        calls := calls + [PrintErrors(tests[k].title, tests[k].errors)];
        ConcatMapAt(tests, TestCall, k);
      }
      assert tests[..|tests|] == tests;
    }

    /** The errors-printer calls for the failure tree, suite after suite. */
    method PrintFailureTree(tree: seq<SuiteFailure>) returns (calls: seq<Output>)
      ensures calls == TreeCalls(tree)
    {
      calls := [];
      for i := 0 to |tree|
        invariant calls == TreeCalls(tree[..i])
      {
        var suiteCalls := PrintSuite(tree[i]);
        calls := calls + suiteCalls;
        ConcatMapAt(tree, SuiteCalls, i);
      }
      assert tree[..|tree|] == tree;
    }
  }
}
