# base-reporter, modelled in Dafny

This project models `BaseReporter` from `@japa/base-reporter`. It is the abstract class that custom Japa test reporters extend. The model has three parts:

- the options default set by the constructor;
- the handlers `boot` registers on the runner's emitter, which keep track of the current file, the current suite and the uncaught exceptions of the run;
- `printSummary`, which prints a banner, one line per non-zero aggregate count, the failure tree and the uncaught exceptions.

Modules:

- `Types` (`types.dfy`) holds the values the reporter receives:
  - aggregates, the failure tree, events and opaque error and runner references;
  - the abstract `Output` it produces: a blank console line, a banner, an aggregate line, or a call into the errors printer.
- `Summary` (`summary.dfy`) specifies printSummary as a pure function `SummaryTrace`, from the summary, the humanised duration and the recorded uncaught exceptions to the ordered outputs. It proves what that trace contains: outputs kind by kind, counts, order and alignment.
- `Events` (`events.dfy`) specifies each handler as a transition `Step` on the reporter's state, and a stream of events as `Run`. It proves what a stream leaves in each field.
- `Reporter` (`base_reporter.dfy`) holds the class `BaseReporter`. Its fields are those the source updates. Its methods are proved against the functions above:
  - `Handle` is one emitter callback;
  - `PrintSummary` issues its trace step by step, with loops over the failure tree.

The code prints one aggregate line per category with a truthy value: total, failed, passed, todo, skipped, regression, uncaught exceptions and duration.

## Model

| member | source | states |
|---|---|---|
| Reporter.StackLinesCount | src/base_reporter.ts:57 | `stackLinesCount \|\| 5`: a non-zero option is kept; an absent option or 0 gives 5; the result is never 0 |
| Reporter.BaseReporter.constructor | src/base_reporter.ts:53-59 | stackLinesCount is the option's value or 5; no runner yet; no file, no suite, no uncaught exceptions |
| Reporter.BaseReporter.Boot | src/base_reporter.ts:154-155 | boot keeps the runner it is given |
| Reporter.BaseReporter.Handle | src/base_reporter.ts:157-195 | the callback for an event moves the state exactly as `Step` says; it then invokes the hook for that event (none for uncaught:exception) |
| Reporter.BaseReporter.PrintSummary | src/base_reporter.ts:88-149 | the outputs come out in the order SummaryTrace gives, reading the reporter's own uncaught-exception list |
| Reporter.BaseReporter.PrintAggregates | src/base_reporter.ts:103-116 | the eight printAggregate calls produce exactly AggregateLines |
| Reporter.BaseReporter.PrintFailureTree | src/base_reporter.ts:130-143 | the tree loop issues one call per suite, each followed by the calls for its children (TreeCalls) |
| Reporter.BaseReporter.PrintSuite | src/base_reporter.ts:131-142 | a suite's call, then each child's: a group's call followed by its tests' calls, or a bare test's call |
| Reporter.BaseReporter.PrintTests | src/base_reporter.ts:136-138 | one call per failed test of a group, titled by the test, in order |
| Events.Step | src/base_reporter.ts:157-195 | test:start and group:start set the file name; suite:start sets the suite name and suite:end clears it; uncaught:exception appends a `test`-phase entry; each field not named is unchanged |
| Events.RunAppend | src/base_reporter.ts:154-196 | delivering two event streams one after the other is delivering their concatenation |
| Events.RunAppendsUncaught | src/base_reporter.ts:185-187 | after any stream, the exception list is the old list followed by one entry per uncaught:exception event, in order |
| Events.SuiteNameUntouched | src/base_reporter.ts:175-183 | only suite events change the suite name |
| Events.SuiteNameFollowsLastSuiteEvent | src/base_reporter.ts:175-183 | the suite name after a stream is that of the last suite:start, or undefined if the last suite event was suite:end |
| Events.FileNameUntouched | src/base_reporter.ts:157-169 | only test:start and group:start change the file name |
| Events.FileNameFollowsLastStart | src/base_reporter.ts:157-169 | the file name after a stream is the one carried by the last test:start or group:start |
| Summary.SummaryTrace | src/base_reporter.ts:88-149 | defines printSummary's output: a blank line and NO TESTS EXECUTED when nothing ran and nothing failed; otherwise a blank line, the FAILED or PASSED banner, a blank line, the aggregate lines, the gap, the tree calls and the uncaught-exception call |
| Summary.NoTestsRun | src/base_reporter.ts:91 | defines the early-return condition: total is 0 and hasError is false |
| Summary.WhitespaceLength | src/base_reporter.ts:103 | the padding leaves room for the label "uncaught exceptions" iff the uncaught-exception count is non-zero (19, otherwise 10) |
| Summary.Caption | src/base_reporter.ts:105-116 | the eight labels; only "uncaught exceptions" is longer than 10 characters |
| Summary.AggregateLines | src/base_reporter.ts:103-116 | defines the eight printAggregate calls in source order, all at the same whitespace length |
| Summary.Gap | src/base_reporter.ts:118-121 | defines the gap: two blank lines iff the failure tree or the uncaught-exception list is non-empty |
| Summary.TreeCalls | src/base_reporter.ts:130-143 | defines the tree loop's calls: each suite's calls, suite after suite |
| Summary.SuiteCalls | src/base_reporter.ts:131-142 | defines a suite's calls: its own call, then each child's calls |
| Summary.ChildCalls | src/base_reporter.ts:134-141 | defines a child's calls: a group's call followed by one call per test, or a bare test's call |
| Events.HookFor | src/base_reporter.ts:157-195 | defines the hook each callback invokes after updating the state: onTestStart, onTestEnd, onGroupStart, onGroupEnd, onSuiteStart, onSuiteEnd, start, end; none for uncaught:exception |
| Events.Run | src/base_reporter.ts:154-196 | defines the state after the registered callbacks ran for a stream of events, in order |
| Summary.Verdict | src/base_reporter.ts:91-100 | defines the banner: NO TESTS EXECUTED when total is 0 and hasError is false, otherwise FAILED if hasError, else PASSED |
| Summary.Truthy | src/base_reporter.ts:65 | defines JavaScript truthiness of a printed value: a count is truthy iff it is non-zero, a string iff it is non-empty |
| Summary.ValueOf | src/base_reporter.ts:105-116 | defines the value passed to printAggregate for each category: the matching count, or the humanised duration |
| Summary.Rank | src/base_reporter.ts:105-116 | defines each category's position among the eight printAggregate calls, from 0 for total to 7 for duration |
| Summary.UncaughtLabel | src/base_reporter.ts:148 | defines the caption of the final errors-printer call, "Uncaught exception" |
| Events.UncaughtEntry | src/base_reporter.ts:186 | defines the entry the uncaught:exception callback pushes: phase `test` and the error |
| Summary.AggregateLine | src/base_reporter.ts:64-68 | printAggregate prints a line iff its value is truthy; the line has the given category and value and the padding `whitespaceLength + 2` |
| Summary.PadEnd | src/base_reporter.ts:66 | padEnd gives the label followed by spaces up to the width, or the label unchanged when it is already that long |
| Summary.AggregateLinesShape | src/base_reporter.ts:103-116 | every printed aggregate line shows its category's value, which is truthy, padded to the same width: 21 with uncaught exceptions, 12 without |
| Summary.CategoryPrinted | src/base_reporter.ts:105-116 | a category's line is printed iff its value is truthy |
| Summary.AggregateLinesOrdered | src/base_reporter.ts:105-116 | the printed lines follow the call order and no category is printed twice |
| Summary.CaptionFits | src/base_reporter.ts:103-115 | a printed category's label fits its padding; "uncaught exceptions" is printed only when the wider padding is chosen |
| Summary.TreeCallsAreCalls | src/base_reporter.ts:130-143 | the tree loop produces only errors-printer calls |
| Summary.TestCallsCount | src/base_reporter.ts:136-138 | one call per failed test of a group |
| Summary.ChildrenCallsCount | src/base_reporter.ts:133-142 | one call per suite child, plus one per test inside each group |
| Summary.TreeCallsCount | src/base_reporter.ts:130-143 | the tree loop makes one call per suite, per child and per test inside a group |
| Summary.SuiteCallPosition | src/base_reporter.ts:130-133 | pre-order: a suite's call comes right after the calls for the suites before it; the calls for its children follow at once |
| Summary.TestCallAt | src/base_reporter.ts:136-138 | test `k` of a group is called at position `k`, with its title and errors |
| Summary.ChildCallPosition | src/base_reporter.ts:133-141 | pre-order: a child's call comes right after those of the children before it; a group's tests follow it in order |
| Summary.TraceKinds | src/base_reporter.ts:88-149 | in a full summary, the outputs of each kind come part by part: header, aggregate lines, gap, tree calls, final call |
| Summary.TraceOpening | src/base_reporter.ts:89-101 | the output opens with a blank line and the banner; unless the method returned early, another blank line follows |
| Summary.BannerChoice | src/base_reporter.ts:91-100 | exactly one banner is printed: NO TESTS EXECUTED when nothing ran and nothing failed, otherwise FAILED iff hasError, else PASSED |
| Summary.EarlyReturn | src/base_reporter.ts:89-94 | the output is exactly a blank line and the NO TESTS EXECUTED banner iff total is 0 and hasError is false |
| Summary.ErrorCalls | src/base_reporter.ts:130-148 | on the early return, no errors-printer calls; otherwise the tree calls in pre-order, then the uncaught-exception call, even for an empty list |
| Summary.UncaughtCallLast | src/base_reporter.ts:145-148 | unless the method returned early, the uncaught-exception call comes last |
| Summary.ErrorCallCount | src/base_reporter.ts:130-148 | the errors printer is called once per suite, child and group test, plus once for the uncaught exceptions |
| Summary.BlankLines | src/base_reporter.ts:89-121 | one blank line on the early return; otherwise two, plus two more iff the failure tree or the uncaught-exception list is non-empty |
| Summary.AggregateLinesInTrace | src/base_reporter.ts:103-116 | the aggregate lines of the output are exactly those of the eight printAggregate calls; there are none on the early return |
| Summary.CategoryPrintedIff | src/base_reporter.ts:91-116 | a category's line is in the output iff the method did not return early and the category's value is truthy; the lines come in call order |
| Summary.AggregateColumnsAligned | src/base_reporter.ts:103-116 | every aggregate line is padded to 21 when uncaught exceptions are counted, and to 12 otherwise; every label fits, so the colons line up |

## Left out

- Console output, colours and the `dim` styling are left out. A console line is the abstract `Output` value it stands for. The aggregate label comes from `Caption` and its padding from `PadEnd`.
- The `ms` package is outside the model. printSummary takes the duration humaniser as a parameter `ms: real -> string`. The duration line is printed iff its result is non-empty.
- The internals of the errors printer are left out. A call is modelled by its caption and error list. `stackLinesCount` is computed and stored, but the errors printer that reads it is not modelled.
- The emitter and the runner are left out. `Boot` stores the runner, and `Handle` stands for the callback that boot registers for each event. `Handle` requires a runner, since the callbacks exist only once boot has run. Of each payload, only the fields the callbacks read are modelled.
- Boot is taken to be called once per reporter, as the runner does. A second call would register every callback again, so each event would run its callback twice and each uncaught exception would be pushed twice. `Handle` models one registered callback per event.
- The bodies of the overridable hooks are left out; in the base class they do nothing. `Handle` returns which hook it invokes after updating the state.
- `async` and `await` are not modelled. The callbacks and the errors-printer calls are taken to run to completion in the order they are issued.
- The counts (the aggregates and the stackLinesCount option) are integers here: NaN, fractions and negative zero are not modelled. This affects the `||` default of `StackLinesCount`, the truthiness tests in printAggregate and the whitespace choice. The duration is a `real` that is only passed to `ms`.
- Reporter.StackLinesCount: an option of NaN also falls back to 5 in the source. The model has no NaN.
