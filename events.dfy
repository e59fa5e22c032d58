/**
 * The handlers boot registers with the emitter, as transitions on the
 * reporter's three pieces of scratch state, with what a whole stream of
 * events does to that state.
 */
module Events {
  import opened Types

  /** The fields the handlers write. */
  datatype ReporterState = ReporterState(
    currentFileName: Option<string>,
    currentSuiteName: Option<string>,
    uncaughtExceptions: seq<ErrorEntry>)

  /** The entry the uncaught:exception handler pushes. */
  function UncaughtEntry(error: ErrorRef): ErrorEntry
  {
    ErrorEntry("test", error)
  }

  predicate IsSuiteEvent(e: Event) { e.SuiteStart? || e.SuiteEnd? }
  predicate IsFileEvent(e: Event) { e.TestStart? || e.GroupStart? }

  /** The state after the handler for `e` ran on state `s`. */
  function Step(s: ReporterState, e: Event): (r: ReporterState)
    ensures IsFileEvent(e) ==> r.currentFileName == e.fileName
    ensures !IsFileEvent(e) ==> r.currentFileName == s.currentFileName
    ensures e.SuiteStart? ==> r.currentSuiteName == Some(e.name)
    ensures e.SuiteEnd? ==> r.currentSuiteName == None
    ensures !IsSuiteEvent(e) ==> r.currentSuiteName == s.currentSuiteName
    ensures e.UncaughtException? ==> r.uncaughtExceptions == s.uncaughtExceptions + [UncaughtEntry(e.error)]
    ensures !e.UncaughtException? ==> r.uncaughtExceptions == s.uncaughtExceptions
  {
    match e
    case TestStart(fileName) => s.(currentFileName := fileName)
    case GroupStart(fileName) => s.(currentFileName := fileName)
    case SuiteStart(name) => s.(currentSuiteName := Some(name))
    case SuiteEnd => s.(currentSuiteName := None)
    case UncaughtException(error) => s.(uncaughtExceptions := s.uncaughtExceptions + [UncaughtEntry(error)])
    case TestEnd => s
    case GroupEnd => s
    case RunnerStart => s
    case RunnerEnd => s
  }

  /** The overridable hook the handler for `e` invokes after updating the state, if any. */
  function HookFor(e: Event): Option<Hook>
  {
    match e
    case TestStart(_) => Some(OnTestStart)
    case TestEnd => Some(OnTestEnd)
    case GroupStart(_) => Some(OnGroupStart)
    case GroupEnd => Some(OnGroupEnd)
    case SuiteStart(_) => Some(OnSuiteStart)
    case SuiteEnd => Some(OnSuiteEnd)
    case UncaughtException(_) => None
    case RunnerStart => Some(Start)
    case RunnerEnd => Some(End)
  }

  /** The state after the emitter delivered `events`, in order. */
  function Run(s: ReporterState, events: seq<Event>): ReporterState
  {
    if events == [] then s else Step(Run(s, events[..|events| - 1]), events[|events| - 1])
  }

  /** The entries the uncaught:exception events among `events` push, in order. */
  function Captured(events: seq<Event>): seq<ErrorEntry>
  {
    if events == [] then []
    else
      var e := events[|events| - 1];
      Captured(events[..|events| - 1]) + (if e.UncaughtException? then [UncaughtEntry(e.error)] else [])
  }

  /** The exception list only grows: earlier entries stay as they were, and each uncaught:exception adds one. */
  lemma {:induction false} RunAppendsUncaught(s: ReporterState, events: seq<Event>)
    ensures Run(s, events).uncaughtExceptions == s.uncaughtExceptions + Captured(events)
    decreases |events|
  {
    if events != [] {
      RunAppendsUncaught(s, events[..|events| - 1]);
    }
  }

  /** Delivering `a` then `b` is delivering `a + b`. */
  lemma {:induction false} RunAppend(s: ReporterState, a: seq<Event>, b: seq<Event>)
    ensures Run(s, a + b) == Run(Run(s, a), b)
    decreases |b|
  {
    if b == [] {
      assert a + b == a;
    } else {
      assert (a + b)[..|a + b| - 1] == a + b[..|b| - 1];
      RunAppend(s, a, b[..|b| - 1]);
    }
  }

  /** Without suite events the suite name is left alone. */
  lemma {:induction false} SuiteNameUntouched(s: ReporterState, events: seq<Event>)
    requires forall m | 0 <= m < |events| :: !IsSuiteEvent(events[m])
    ensures Run(s, events).currentSuiteName == s.currentSuiteName
    decreases |events|
  {
    if events != [] {
      SuiteNameUntouched(s, events[..|events| - 1]);
    }
  }

  /**
   * The suite name is that of the last suite event: its name after a
   * suite:start, undefined after a suite:end.
   */
  lemma SuiteNameFollowsLastSuiteEvent(s: ReporterState, events: seq<Event>, k: nat)
    requires k < |events| && IsSuiteEvent(events[k])
    requires forall m | k < m < |events| :: !IsSuiteEvent(events[m])
    ensures Run(s, events).currentSuiteName == if events[k].SuiteStart? then Some(events[k].name) else None
  {
    assert events == events[..k + 1] + events[k + 1..];
    RunAppend(s, events[..k + 1], events[k + 1..]);
    SuiteNameUntouched(Run(s, events[..k + 1]), events[k + 1..]);
    assert events[..k + 1][..k] == events[..k];
  }

  /** Without test:start or group:start events the file name is left alone. */
  lemma {:induction false} FileNameUntouched(s: ReporterState, events: seq<Event>)
    requires forall m | 0 <= m < |events| :: !IsFileEvent(events[m])
    ensures Run(s, events).currentFileName == s.currentFileName
    decreases |events|
  {
    if events != [] {
      FileNameUntouched(s, events[..|events| - 1]);
    }
  }

  /** The file name is the one carried by the last test:start or group:start event. */
  lemma FileNameFollowsLastStart(s: ReporterState, events: seq<Event>, k: nat)
    requires k < |events| && IsFileEvent(events[k])
    requires forall m | k < m < |events| :: !IsFileEvent(events[m])
    ensures Run(s, events).currentFileName == events[k].fileName
  {
    assert events == events[..k + 1] + events[k + 1..];
    RunAppend(s, events[..k + 1], events[k + 1..]);
    FileNameUntouched(Run(s, events[..k + 1]), events[k + 1..]);
    assert events[..k + 1][..k] == events[..k];
  }
}
