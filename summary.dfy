/**
 * printSummary as a pure function from the runner's summary, the humanised
 * duration and the recorded uncaught exceptions to the ordered trace of
 * console lines and errors-printer calls it issues, with the properties of
 * that trace.
 */
module Summary {
  import opened Types

  /** Label of the final errors-printer call. */
  const UncaughtLabel: string := "Uncaught exception"

  // ---------------------------------------------------------------------
  // Sequence helpers
  // ---------------------------------------------------------------------

  /**
   * The four kinds of output printSummary produces. `Select` filters by a
   * kind rather than by a predicate passed as a function value, which keeps
   * the proofs about it first-order and cheap.
   */
  datatype Kind = BlankKind | BannerKind | AggregateKind | CallKind

  function KindOf(o: Output): Kind
  {
    match o
    case Blank => BlankKind
    case ShowBanner(_) => BannerKind
    case Aggregate(_, _, _) => AggregateKind
    case PrintErrors(_, _) => CallKind
  }

  /** The items of `trace` of kind `k`, in order. */
  function Select(trace: seq<Output>, k: Kind): seq<Output>
  {
    if trace == [] then []
    else
      var last := trace[|trace| - 1];
      Select(trace[..|trace| - 1], k) + (if KindOf(last) == k then [last] else [])
  }

  lemma {:induction false} SelectAppend(a: seq<Output>, b: seq<Output>, k: Kind)
    ensures Select(a + b, k) == Select(a, k) + Select(b, k)
    decreases |b|
  {
    if b == [] {
      assert a + b == a;
    } else {
      var b' := b[..|b| - 1];
      assert (a + b)[..|a + b| - 1] == a + b';
      SelectAppend(a, b', k);
    }
  }

  lemma {:induction false} SelectNone(trace: seq<Output>, k: Kind)
    requires forall o | o in trace :: KindOf(o) != k
    ensures Select(trace, k) == []
    decreases |trace|
  {
    if trace != [] {
      var front, last := trace[..|trace| - 1], trace[|trace| - 1];
      assert trace == front + [last];
      SelectNone(front, k);
    }
  }

  lemma {:induction false} SelectAll(trace: seq<Output>, k: Kind)
    requires forall o | o in trace :: KindOf(o) == k
    ensures Select(trace, k) == trace
    decreases |trace|
  {
    if trace != [] {
      var front, last := trace[..|trace| - 1], trace[|trace| - 1];
      assert trace == front + [last];
      SelectAll(front, k);
    }
  }

  /** `s` when `b` holds, nothing otherwise. */
  function OnlyIf(b: bool, s: seq<Output>): seq<Output>
  {
    if b then s else []
  }

  /** The outputs of `f` for each element of `xs`, concatenated in order. */
  function ConcatMap<T>(xs: seq<T>, f: T -> seq<Output>): seq<Output>
  {
    if xs == [] then [] else ConcatMap(xs[..|xs| - 1], f) + f(xs[|xs| - 1])
  }

  lemma {:induction false} ConcatMapAppend<T>(xs: seq<T>, ys: seq<T>, f: T -> seq<Output>)
    ensures ConcatMap(xs + ys, f) == ConcatMap(xs, f) + ConcatMap(ys, f)
    decreases |ys|
  {
    if ys == [] {
      assert xs + ys == xs;
    } else {
      var ys' := ys[..|ys| - 1];
      assert (xs + ys)[..|xs + ys| - 1] == xs + ys';
      ConcatMapAppend(xs, ys', f);
    }
  }

  /** The outputs for element `i` sit right after those of the elements before it. */
  lemma ConcatMapAt<T>(xs: seq<T>, f: T -> seq<Output>, i: nat)
    requires i < |xs|
    ensures ConcatMap(xs[..i + 1], f) == ConcatMap(xs[..i], f) + f(xs[i])
    ensures ConcatMap(xs, f) == ConcatMap(xs[..i], f) + f(xs[i]) + ConcatMap(xs[i + 1..], f)
  {
    var front, back := xs[..i + 1], xs[i + 1..];
    assert xs == front + back;
    assert front[..|front| - 1] == xs[..i] && front[|front| - 1] == xs[i];
    assert ConcatMap(front, f) == ConcatMap(xs[..i], f) + f(xs[i]);
    ConcatMapAppend(front, back, f);
  }

  /** Every item of `trace` is an errors-printer call. */
  predicate AllCalls(trace: seq<Output>)
  {
    forall o | o in trace :: o.PrintErrors?
  }

  lemma {:induction false} ConcatMapAllCalls<T>(xs: seq<T>, f: T -> seq<Output>)
    requires forall i | 0 <= i < |xs| :: AllCalls(f(xs[i]))
    ensures AllCalls(ConcatMap(xs, f))
    decreases |xs|
  {
    if xs != [] {
      ConcatMapAllCalls(xs[..|xs| - 1], f);
      assert AllCalls(f(xs[|xs| - 1]));
    }
  }

  // ---------------------------------------------------------------------
  // Aggregate lines (printAggregate and its eight calls)
  // ---------------------------------------------------------------------

  /** JavaScript truthiness of the value printAggregate tests. */
  predicate Truthy(v: AggregateValue)
  {
    match v
    case Count(n) => n != 0
    case Text(s) => s != ""
  }

  /** `whitespaceLength` of printSummary: room for "uncaught exceptions" only when that count is non-zero. */
  function WhitespaceLength(a: Aggregates): (r: int)
    ensures |Caption(UncaughtCount)| <= r + 2 <==> a.uncaughtExceptions != 0
  {
    if a.uncaughtExceptions != 0 then 19 else 10
  }

  /** printAggregate: one line, its label padded to `whitespaceLength + 2`, when the value is truthy. */
  function AggregateLine(category: Category, value: AggregateValue, whitespaceLength: int): (r: seq<Output>)
    ensures r != [] <==> Truthy(value)
    ensures r == [] || r == [Aggregate(category, value, whitespaceLength + 2)]
  {
    if Truthy(value) then [Aggregate(category, value, whitespaceLength + 2)] else []
  }

  /** The label printAggregate is called with for each category. */
  function Caption(c: Category): (r: string)
    ensures |r| > 10 <==> c == UncaughtCount
  {
    match c
    case TotalCount => "total"
    case FailedCount => "failed"
    case PassedCount => "passed"
    case TodoCount => "todo"
    case SkippedCount => "skipped"
    case RegressionCount => "regression"
    case UncaughtCount => "uncaught exceptions"
    case DurationText => "duration"
  }

  /** The position of a category among printSummary's printAggregate calls. */
  function Rank(c: Category): nat
  {
    match c
    case TotalCount => 0
    case FailedCount => 1
    case PassedCount => 2
    case TodoCount => 3
    case SkippedCount => 4
    case RegressionCount => 5
    case UncaughtCount => 6
    case DurationText => 7
  }

  /** The value printSummary passes to printAggregate for a category. */
  function ValueOf(a: Aggregates, humanizedDuration: string, c: Category): AggregateValue
  {
    match c
    case TotalCount => Count(a.total)
    case FailedCount => Count(a.failed)
    case PassedCount => Count(a.passed)
    case TodoCount => Count(a.todo)
    case SkippedCount => Count(a.skipped)
    case RegressionCount => Count(a.regression)
    case UncaughtCount => Count(a.uncaughtExceptions)
    case DurationText => Text(humanizedDuration)
  }

  /** The eight printAggregate calls of printSummary, in call order. */
  function AggregateLines(a: Aggregates, humanizedDuration: string): seq<Output>
  {
    var ws := WhitespaceLength(a);
    AggregateLine(TotalCount, Count(a.total), ws)
    + AggregateLine(FailedCount, Count(a.failed), ws)
    + AggregateLine(PassedCount, Count(a.passed), ws)
    + AggregateLine(TodoCount, Count(a.todo), ws)
    + AggregateLine(SkippedCount, Count(a.skipped), ws)
    + AggregateLine(RegressionCount, Count(a.regression), ws)
    + AggregateLine(UncaughtCount, Count(a.uncaughtExceptions), ws)
    + AggregateLine(DurationText, Text(humanizedDuration), ws)
  }

  /** Every line is that of a category with a truthy value, shows that value, and is padded to `whitespaceLength + 2`. */
  predicate LinesFrom(a: Aggregates, humanizedDuration: string, lines: seq<Output>)
  {
    forall o | o in lines ::
      && o.Aggregate?
      && o.value == ValueOf(a, humanizedDuration, o.category)
      && Truthy(o.value)
      && o.padWidth == WhitespaceLength(a) + 2
  }

  lemma LinesFromAppend(a: Aggregates, humanizedDuration: string, x: seq<Output>, y: seq<Output>)
    requires LinesFrom(a, humanizedDuration, x) && LinesFrom(a, humanizedDuration, y)
    ensures LinesFrom(a, humanizedDuration, x + y)
  {
  }

  /** Every printed line belongs to a category with a truthy value, shows that value, and is padded to `whitespaceLength + 2`. */
  lemma AggregateLinesShape(a: Aggregates, humanizedDuration: string)
    ensures LinesFrom(a, humanizedDuration, AggregateLines(a, humanizedDuration))
  {
    var ws := WhitespaceLength(a);
    var l0 := AggregateLine(TotalCount, Count(a.total), ws);
    var l1 := AggregateLine(FailedCount, Count(a.failed), ws);
    var l2 := AggregateLine(PassedCount, Count(a.passed), ws);
    var l3 := AggregateLine(TodoCount, Count(a.todo), ws);
    var l4 := AggregateLine(SkippedCount, Count(a.skipped), ws);
    var l5 := AggregateLine(RegressionCount, Count(a.regression), ws);
    var l6 := AggregateLine(UncaughtCount, Count(a.uncaughtExceptions), ws);
    var l7 := AggregateLine(DurationText, Text(humanizedDuration), ws);
    assert LinesFrom(a, humanizedDuration, l0);
    assert LinesFrom(a, humanizedDuration, l1);
    assert LinesFrom(a, humanizedDuration, l2);
    assert LinesFrom(a, humanizedDuration, l3);
    assert LinesFrom(a, humanizedDuration, l4);
    assert LinesFrom(a, humanizedDuration, l5);
    assert LinesFrom(a, humanizedDuration, l6);
    assert LinesFrom(a, humanizedDuration, l7);
    LinesFromAppend(a, humanizedDuration, l0, l1);
    LinesFromAppend(a, humanizedDuration, l0 + l1, l2);
    LinesFromAppend(a, humanizedDuration, l0 + l1 + l2, l3);
    LinesFromAppend(a, humanizedDuration, l0 + l1 + l2 + l3, l4);
    LinesFromAppend(a, humanizedDuration, l0 + l1 + l2 + l3 + l4, l5);
    LinesFromAppend(a, humanizedDuration, l0 + l1 + l2 + l3 + l4 + l5, l6);
    LinesFromAppend(a, humanizedDuration, l0 + l1 + l2 + l3 + l4 + l5 + l6, l7);
  }

  /** The label of a printed category fits the padding: "uncaught exceptions" is printed only with the wider one. */
  lemma CaptionFits(a: Aggregates, humanizedDuration: string, c: Category)
    requires Truthy(ValueOf(a, humanizedDuration, c))
    ensures |Caption(c)| <= WhitespaceLength(a) + 2
  {
  }

  /** A category is printed iff its value is truthy. */
  lemma CategoryPrinted(a: Aggregates, humanizedDuration: string, c: Category)
    ensures Aggregate(c, ValueOf(a, humanizedDuration, c), WhitespaceLength(a) + 2) in AggregateLines(a, humanizedDuration)
        <==> Truthy(ValueOf(a, humanizedDuration, c))
  {
    AggregateLinesShape(a, humanizedDuration);
  }

  /** Strictly increasing ranks: lines come in call order and no category is printed twice. */
  predicate RanksIncrease(lines: seq<Output>)
  {
    forall i, j | 0 <= i < j < |lines| ::
      lines[i].Aggregate? && lines[j].Aggregate? && Rank(lines[i].category) < Rank(lines[j].category)
  }

  /** Every line is an aggregate line of rank below `r`. */
  predicate RanksBelow(lines: seq<Output>, r: int)
  {
    forall o | o in lines :: o.Aggregate? && Rank(o.category) < r
  }

  lemma RanksSnoc(prefix: seq<Output>, line: seq<Output>, r: int)
    requires RanksIncrease(prefix) && RanksBelow(prefix, r)
    requires |line| <= 1 && forall o | o in line :: o.Aggregate? && Rank(o.category) == r
    ensures RanksIncrease(prefix + line) && RanksBelow(prefix + line, r + 1)
  {
    var s := prefix + line;
    forall i, j | 0 <= i < j < |s|
      ensures s[i].Aggregate? && s[j].Aggregate? && Rank(s[i].category) < Rank(s[j].category)
    {
      if j >= |prefix| {
        assert s[j] in line && s[i] == prefix[i] && prefix[i] in prefix;
      }
    }
  }

  /** The printed lines follow the call order total, failed, passed, todo, skipped, regression, uncaught exceptions, duration. */
  lemma AggregateLinesOrdered(a: Aggregates, humanizedDuration: string)
    ensures RanksIncrease(AggregateLines(a, humanizedDuration))
  {
    var ws := WhitespaceLength(a);
    var l0 := AggregateLine(TotalCount, Count(a.total), ws);
    var l1 := AggregateLine(FailedCount, Count(a.failed), ws);
    var l2 := AggregateLine(PassedCount, Count(a.passed), ws);
    var l3 := AggregateLine(TodoCount, Count(a.todo), ws);
    var l4 := AggregateLine(SkippedCount, Count(a.skipped), ws);
    var l5 := AggregateLine(RegressionCount, Count(a.regression), ws);
    var l6 := AggregateLine(UncaughtCount, Count(a.uncaughtExceptions), ws);
    var l7 := AggregateLine(DurationText, Text(humanizedDuration), ws);
    assert RanksIncrease(l0) && RanksBelow(l0, 1);
    RanksSnoc(l0, l1, 1);
    RanksSnoc(l0 + l1, l2, 2);
    RanksSnoc(l0 + l1 + l2, l3, 3);
    RanksSnoc(l0 + l1 + l2 + l3, l4, 4);
    RanksSnoc(l0 + l1 + l2 + l3 + l4, l5, 5);
    RanksSnoc(l0 + l1 + l2 + l3 + l4 + l5, l6, 6);
    RanksSnoc(l0 + l1 + l2 + l3 + l4 + l5 + l6, l7, 7);
  }

  /** The aggregate lines contain nothing else. */
  lemma AggregateLinesKinds(a: Aggregates, humanizedDuration: string, k: Kind)
    ensures Select(AggregateLines(a, humanizedDuration), k) == OnlyIf(k == AggregateKind, AggregateLines(a, humanizedDuration))
  {
    AggregateLinesShape(a, humanizedDuration);
    if k == AggregateKind {
      SelectAll(AggregateLines(a, humanizedDuration), k);
    } else {
      SelectNone(AggregateLines(a, humanizedDuration), k);
    }
  }

  // ---------------------------------------------------------------------
  // The failure tree, flattened in pre-order
  // ---------------------------------------------------------------------

  function TestCall(t: TestFailure): seq<Output>
  {
    [PrintErrors(t.title, t.errors)]
  }

  /** The call for a suite child's own errors, labelled with its name (group) or title (test). */
  function ChildHead(c: SuiteChild): Output
  {
    match c
    case GroupFailure(name, errors, _) => PrintErrors(name, errors)
    case BareTestFailure(title, errors) => PrintErrors(title, errors)
  }

  /** A group, then each of its tests; or a bare test. */
  function ChildCalls(c: SuiteChild): seq<Output>
  {
    match c
    case GroupFailure(_, _, tests) => [ChildHead(c)] + ConcatMap(tests, TestCall)
    case BareTestFailure(_, _) => [ChildHead(c)]
  }

  function ChildrenCalls(children: seq<SuiteChild>): seq<Output>
  {
    ConcatMap(children, ChildCalls)
  }

  /** A suite, then each of its children. */
  function SuiteCalls(s: SuiteFailure): seq<Output>
  {
    [PrintErrors(s.name, s.errors)] + ChildrenCalls(s.children)
  }

  /** The errors-printer calls for the whole failure tree, suite after suite. */
  function TreeCalls(tree: seq<SuiteFailure>): seq<Output>
  {
    ConcatMap(tree, SuiteCalls)
  }

  lemma TreeCallsAreCalls(tree: seq<SuiteFailure>)
    ensures AllCalls(TreeCalls(tree))
  {
    forall i | 0 <= i < |tree| ensures AllCalls(SuiteCalls(tree[i])) {
      var s := tree[i];
      forall j | 0 <= j < |s.children| ensures AllCalls(ChildCalls(s.children[j])) {
        var c := s.children[j];
        if c.GroupFailure? {
          ConcatMapAllCalls(c.children, TestCall);
        }
      }
      ConcatMapAllCalls(s.children, ChildCalls);
    }
    ConcatMapAllCalls(tree, SuiteCalls);
  }

  /** Number of children over all suites. */
  function ChildTotal(tree: seq<SuiteFailure>): int
  {
    if tree == [] then 0 else ChildTotal(tree[..|tree| - 1]) + |tree[|tree| - 1].children|
  }

  /** Number of tests inside the groups among `children`. */
  function GroupTests(children: seq<SuiteChild>): int
  {
    if children == [] then 0
    else
      var c := children[|children| - 1];
      GroupTests(children[..|children| - 1]) + (if c.GroupFailure? then |c.children| else 0)
  }

  /** Number of tests inside groups over all suites. */
  function GroupTestTotal(tree: seq<SuiteFailure>): int
  {
    if tree == [] then 0 else GroupTestTotal(tree[..|tree| - 1]) + GroupTests(tree[|tree| - 1].children)
  }

  lemma {:induction false} TestCallsCount(tests: seq<TestFailure>)
    ensures |ConcatMap(tests, TestCall)| == |tests|
    decreases |tests|
  {
    if tests != [] {
      TestCallsCount(tests[..|tests| - 1]);
    }
  }

  lemma {:induction false} ChildrenCallsCount(children: seq<SuiteChild>)
    ensures |ChildrenCalls(children)| == |children| + GroupTests(children)
    decreases |children|
  {
    if children != [] {
      ChildrenCallsCount(children[..|children| - 1]);
      var c := children[|children| - 1];
      if c.GroupFailure? {
        TestCallsCount(c.children);
      }
    }
  }

  /** One call per suite, per suite child, and per test inside a group. */
  lemma {:induction false} TreeCallsCount(tree: seq<SuiteFailure>)
    ensures |TreeCalls(tree)| == |tree| + ChildTotal(tree) + GroupTestTotal(tree)
    decreases |tree|
  {
    if tree != [] {
      TreeCallsCount(tree[..|tree| - 1]);
      ChildrenCallsCount(tree[|tree| - 1].children);
    }
  }

  /**
   * Pre-order, suite level: suite `i`'s own call comes right after the calls
   * of the suites before it, followed at once by the calls of its children.
   */
  lemma SuiteCallPosition(tree: seq<SuiteFailure>, i: nat)
    requires i < |tree|
    ensures var p := |TreeCalls(tree[..i])|;
      && p + 1 + |ChildrenCalls(tree[i].children)| == |TreeCalls(tree[..i + 1])| <= |TreeCalls(tree)|
      && TreeCalls(tree)[p] == PrintErrors(tree[i].name, tree[i].errors)
      && TreeCalls(tree)[p + 1..p + 1 + |ChildrenCalls(tree[i].children)|] == ChildrenCalls(tree[i].children)
  {
    ConcatMapAt(tree, SuiteCalls, i);
  }

  /** A group's tests are called in order, one call each. */
  lemma TestCallAt(tests: seq<TestFailure>, k: nat)
    requires k < |tests|
    ensures |ConcatMap(tests, TestCall)| == |tests|
    ensures ConcatMap(tests, TestCall)[k] == PrintErrors(tests[k].title, tests[k].errors)
  {
    TestCallsCount(tests);
    ConcatMapAt(tests, TestCall, k);
    TestCallsCount(tests[..k]);
  }

  /**
   * Pre-order, child level: child `j`'s own call comes right after the calls
   * of the children before it, and a group's tests follow it in order.
   */
  lemma ChildCallPosition(children: seq<SuiteChild>, j: nat)
    requires j < |children|
    ensures var q := |ChildrenCalls(children[..j])|;
      && q < |ChildrenCalls(children)|
      && ChildrenCalls(children)[q] == ChildHead(children[j])
      && (children[j].GroupFailure? ==>
            q + 1 + |children[j].children| <= |ChildrenCalls(children)|
            && forall k | 0 <= k < |children[j].children| ::
                 ChildrenCalls(children)[q + 1 + k]
                   == PrintErrors(children[j].children[k].title, children[j].children[k].errors))
  {
    ConcatMapAt(children, ChildCalls, j);
    var before := ChildrenCalls(children[..j]);
    var rest := ConcatMap(children[j + 1..], ChildCalls);
    var c := children[j];
    assert ChildrenCalls(children) == before + ChildCalls(c) + rest;
    if c.GroupFailure? {
      var tests := ConcatMap(c.children, TestCall);
      TestCallsCount(c.children);
      assert ChildrenCalls(children) == before + ([ChildHead(c)] + tests) + rest;
      forall k | 0 <= k < |c.children|
        ensures ChildrenCalls(children)[|before| + 1 + k] == PrintErrors(c.children[k].title, c.children[k].errors)
      {
        TestCallAt(c.children, k);
      }
    }
  }


  /** The failure-tree calls contain nothing else. */
  lemma TreeCallsKinds(tree: seq<SuiteFailure>, k: Kind)
    ensures Select(TreeCalls(tree), k) == OnlyIf(k == CallKind, TreeCalls(tree))
  {
    TreeCallsAreCalls(tree);
    if k == CallKind {
      SelectAll(TreeCalls(tree), k);
    } else {
      SelectNone(TreeCalls(tree), k);
    }
  }

  // ---------------------------------------------------------------------
  // The whole trace
  // ---------------------------------------------------------------------

  /** The early-return condition: nothing ran and nothing failed. */
  predicate NoTestsRun(summary: RunSummary)
  {
    summary.aggregates.total == 0 && !summary.hasError
  }

  /** The two blank lines printed before the errors. */
  function Gap(summary: RunSummary, uncaught: seq<ErrorEntry>): seq<Output>
  {
    if |summary.failureTree| != 0 || |uncaught| != 0 then [Blank, Blank] else []
  }

  /** Everything printSummary emits, in order. */
  function SummaryTrace(summary: RunSummary, humanizedDuration: string, uncaught: seq<ErrorEntry>): seq<Output>
  {
    if NoTestsRun(summary) then [Blank, ShowBanner(NoTests)]
    else
      [Blank, ShowBanner(if summary.hasError then Failed else Passed), Blank]
      + AggregateLines(summary.aggregates, humanizedDuration)
      + Gap(summary, uncaught)
      + TreeCalls(summary.failureTree)
      + [PrintErrors(UncaughtLabel, uncaught)]
  }

  /** The banner a summary deserves. */
  function Verdict(summary: RunSummary): Banner
  {
    if NoTestsRun(summary) then NoTests else if summary.hasError then Failed else Passed
  }

  /** The lines of kind `k` in the trace of the early return. */
  lemma EarlyKinds(k: Kind)
    ensures Select([Blank, ShowBanner(NoTests)], k)
         == OnlyIf(k == BlankKind, [Blank]) + OnlyIf(k == BannerKind, [ShowBanner(NoTests)])
  {
    assert [Blank, ShowBanner(NoTests)][..1] == [Blank];
  }

  /** The lines of kind `k` in the blank line, banner, blank line that open a full summary. */
  lemma HeaderKinds(banner: Banner, k: Kind)
    ensures Select([Blank, ShowBanner(banner), Blank], k)
         == OnlyIf(k == BlankKind, [Blank, Blank]) + OnlyIf(k == BannerKind, [ShowBanner(banner)])
  {
    var h := [Blank, ShowBanner(banner), Blank];
    assert h[..2][..1] == [Blank] && h[..2] == [Blank, ShowBanner(banner)] && h[..2][..1][..0] == [];
    assert Select(h[..2], k) == OnlyIf(k == BlankKind, [Blank]) + OnlyIf(k == BannerKind, [ShowBanner(banner)]);
    if k == BlankKind {
      assert [Blank] + [Blank] == [Blank, Blank];
    }
  }

  /**
   * The outputs of kind `k` in a full summary, part by part: the header's
   * blank lines and banner, the aggregate lines, the gap's blank lines, the
   * tree calls and the final uncaught-exception call.
   */
  lemma TraceKinds(summary: RunSummary, humanizedDuration: string, uncaught: seq<ErrorEntry>, k: Kind)
    requires !NoTestsRun(summary)
    ensures Select(SummaryTrace(summary, humanizedDuration, uncaught), k)
         == Select([Blank, ShowBanner(Verdict(summary)), Blank], k)
          + OnlyIf(k == AggregateKind, AggregateLines(summary.aggregates, humanizedDuration))
          + OnlyIf(k == BlankKind, Gap(summary, uncaught))
          + OnlyIf(k == CallKind, TreeCalls(summary.failureTree))
          + OnlyIf(k == CallKind, [PrintErrors(UncaughtLabel, uncaught)])
  {
    var header := [Blank, ShowBanner(Verdict(summary)), Blank];
    var aggs := AggregateLines(summary.aggregates, humanizedDuration);
    var gap := Gap(summary, uncaught);
    var tree := TreeCalls(summary.failureTree);
    var last := [PrintErrors(UncaughtLabel, uncaught)];
    SelectAppend(header, aggs, k);
    SelectAppend(header + aggs, gap, k);
    SelectAppend(header + aggs + gap, tree, k);
    SelectAppend(header + aggs + gap + tree, last, k);
    AggregateLinesKinds(summary.aggregates, humanizedDuration, k);
    assert Select(gap, k) == OnlyIf(k == BlankKind, gap) by {
      if gap != [] {
        assert gap[..1] == [Blank];
      }
    }
    TreeCallsKinds(summary.failureTree, k);
    assert Select(last, k) == OnlyIf(k == CallKind, last) by {
      assert last[..0] == [];
    }
  }

  /** The trace opens with a blank line, the banner and, unless it returned early, another blank line. */
  lemma TraceOpening(summary: RunSummary, humanizedDuration: string, uncaught: seq<ErrorEntry>)
    ensures var trace := SummaryTrace(summary, humanizedDuration, uncaught);
      && |trace| >= 2 && trace[0] == Blank && trace[1] == ShowBanner(Verdict(summary))
      && (!NoTestsRun(summary) ==> |trace| >= 3 && trace[2] == Blank)
  {
  }

  /** Exactly one banner is printed: NO TESTS EXECUTED on the early return, else FAILED iff hasError. */
  lemma BannerChoice(summary: RunSummary, humanizedDuration: string, uncaught: seq<ErrorEntry>)
    ensures Select(SummaryTrace(summary, humanizedDuration, uncaught), BannerKind) == [ShowBanner(Verdict(summary))]
  {
    if NoTestsRun(summary) {
      EarlyKinds(BannerKind);
    } else {
      TraceKinds(summary, humanizedDuration, uncaught, BannerKind);
      HeaderKinds(Verdict(summary), BannerKind);
    }
  }

  /** The early return prints exactly a blank line and the NO TESTS EXECUTED banner, and only then. */
  lemma EarlyReturn(summary: RunSummary, humanizedDuration: string, uncaught: seq<ErrorEntry>)
    ensures SummaryTrace(summary, humanizedDuration, uncaught) == [Blank, ShowBanner(NoTests)]
        <==> NoTestsRun(summary)
  {
    TraceOpening(summary, humanizedDuration, uncaught);
  }

  /**
   * The errors-printer calls: none on the early return; otherwise one per
   * failure-tree node in pre-order, then the uncaught-exception call, even
   * for an empty list.
   */
  lemma ErrorCalls(summary: RunSummary, humanizedDuration: string, uncaught: seq<ErrorEntry>)
    ensures Select(SummaryTrace(summary, humanizedDuration, uncaught), CallKind)
         == if NoTestsRun(summary) then []
            else TreeCalls(summary.failureTree) + [PrintErrors(UncaughtLabel, uncaught)]
  {
    if NoTestsRun(summary) {
      EarlyKinds(CallKind);
    } else {
      var tree, last := TreeCalls(summary.failureTree), [PrintErrors(UncaughtLabel, uncaught)];
      TraceKinds(summary, humanizedDuration, uncaught, CallKind);
      HeaderKinds(Verdict(summary), CallKind);
      assert Select(SummaryTrace(summary, humanizedDuration, uncaught), CallKind) == [] + [] + [] + tree + last;
    }
  }

  /** The uncaught-exception call is the last thing printSummary does, unless it returned early. */
  lemma UncaughtCallLast(summary: RunSummary, humanizedDuration: string, uncaught: seq<ErrorEntry>)
    requires !NoTestsRun(summary)
    ensures var trace := SummaryTrace(summary, humanizedDuration, uncaught);
      trace[|trace| - 1] == PrintErrors(UncaughtLabel, uncaught)
  {
  }

  /** Number of errors-printer calls: one per tree node plus the uncaught-exception call. */
  lemma ErrorCallCount(summary: RunSummary, humanizedDuration: string, uncaught: seq<ErrorEntry>)
    ensures |Select(SummaryTrace(summary, humanizedDuration, uncaught), CallKind)|
         == if NoTestsRun(summary) then 0
            else |summary.failureTree| + ChildTotal(summary.failureTree) + GroupTestTotal(summary.failureTree) + 1
  {
    ErrorCalls(summary, humanizedDuration, uncaught);
    TreeCallsCount(summary.failureTree);
  }

  /** Blank lines: one before the banner, one after it, and two more iff there are failures or uncaught exceptions. */
  lemma BlankLines(summary: RunSummary, humanizedDuration: string, uncaught: seq<ErrorEntry>)
    ensures |Select(SummaryTrace(summary, humanizedDuration, uncaught), BlankKind)|
         == if NoTestsRun(summary) then 1
            else if |summary.failureTree| != 0 || |uncaught| != 0 then 4
            else 2
  {
    if NoTestsRun(summary) {
      EarlyKinds(BlankKind);
    } else {
      TraceKinds(summary, humanizedDuration, uncaught, BlankKind);
      HeaderKinds(Verdict(summary), BlankKind);
    }
  }

  /** The aggregate lines of the trace are exactly the eight printAggregate calls' output; none on the early return. */
  lemma AggregateLinesInTrace(summary: RunSummary, humanizedDuration: string, uncaught: seq<ErrorEntry>)
    ensures Select(SummaryTrace(summary, humanizedDuration, uncaught), AggregateKind)
         == if NoTestsRun(summary) then [] else AggregateLines(summary.aggregates, humanizedDuration)
  {
    if NoTestsRun(summary) {
      EarlyKinds(AggregateKind);
    } else {
      TraceKinds(summary, humanizedDuration, uncaught, AggregateKind);
      HeaderKinds(Verdict(summary), AggregateKind);
    }
  }

  /**
   * A category's line, with its value, is in the trace iff the summary is
   * not the early return and the value is truthy; lines of different
   * categories come in call order.
   */
  lemma CategoryPrintedIff(summary: RunSummary, humanizedDuration: string, uncaught: seq<ErrorEntry>, c: Category)
    ensures var aggs := Select(SummaryTrace(summary, humanizedDuration, uncaught), AggregateKind);
      var v := ValueOf(summary.aggregates, humanizedDuration, c);
      && (Aggregate(c, v, WhitespaceLength(summary.aggregates) + 2) in aggs <==> !NoTestsRun(summary) && Truthy(v))
      && RanksIncrease(aggs)
  {
    AggregateLinesInTrace(summary, humanizedDuration, uncaught);
    CategoryPrinted(summary.aggregates, humanizedDuration, c);
    AggregateLinesOrdered(summary.aggregates, humanizedDuration);
  }

  /**
   * Every aggregate line is padded to 21 when the summary counts uncaught
   * exceptions and to 12 otherwise, and every printed label fits that
   * width, so the " : " separators line up.
   */
  lemma AggregateColumnsAligned(summary: RunSummary, humanizedDuration: string, uncaught: seq<ErrorEntry>)
    ensures forall o | o in Select(SummaryTrace(summary, humanizedDuration, uncaught), AggregateKind) ::
        && o.Aggregate?
        && o.padWidth == (if summary.aggregates.uncaughtExceptions != 0 then 21 else 12)
        && |PadEnd(Caption(o.category), o.padWidth)| == o.padWidth
  {
    var a := summary.aggregates;
    AggregateLinesInTrace(summary, humanizedDuration, uncaught);
    AggregateLinesShape(a, humanizedDuration);
    forall o | o in AggregateLines(a, humanizedDuration)
      ensures |Caption(o.category)| <= o.padWidth
    {
      CaptionFits(a, humanizedDuration, o.category);
    }
  }

  /** String.prototype.padEnd with spaces: `s` followed by spaces up to `width`; `s` itself when already that long. */
  function PadEnd(s: string, width: int): (r: string)
    ensures |r| == if |s| >= width then |s| else width
    ensures r[..|s|] == s
    ensures forall i | |s| <= i < |r| :: r[i] == ' '
  {
    if |s| >= width then s else s + seq(width - |s|, _ => ' ')
  }
}
