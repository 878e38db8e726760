/** The older reporter of `index.ts`. It records every ended test without
    looking at its status, and names the case's class after the enclosing
    group, or after the test file's base name when the parent's title is
    empty.
    `onBegin`, `onTestBegin` and `onEnd` have the same effect on the
    in-memory suite as the newer reporter's, so their suite functions are
    shared with module Reporter. (`onEnd` differs in when it writes the
    report, which this model leaves out.)
 */
module LegacyReporter {
  import opened JUnitBuilder
  import opened Playwright
  import Reporter

  /** JavaScript's `s.lastIndexOf(c)`: the last position holding `c`, or -1. */
  function LastIndexOf(s: string, c: char): (r: int)
    ensures -1 <= r < |s|
    ensures r >= 0 ==> s[r] == c
    ensures forall i :: r < i < |s| ==> s[i] != c
  {
    if s == [] then -1
    else if s[|s| - 1] == c then |s| - 1
    else LastIndexOf(s[..|s| - 1], c)
  }

  /** `file.substring(file.lastIndexOf('/') + 1)`: the part after the last
      slash, which is the whole path when it has none. */
  function Basename(path: string): (b: string)
    ensures '/' !in b
    ensures |b| <= |path| && path[|path| - |b|..] == b
    ensures '/' !in path ==> b == path
    ensures |b| < |path| ==> path[|path| - |b| - 1] == '/'
  {
    path[LastIndexOf(path, '/') + 1..]
  }

  /** The base name is the only suffix without a slash that is either the
      whole path or comes right after a slash. */
  lemma BasenameUnique(path: string, b: string)
    requires '/' !in b
    requires |b| <= |path| && path[|path| - |b|..] == b
    requires |b| == |path| || path[|path| - |b| - 1] == '/'
    ensures b == Basename(path)
  {
  }

  /** `test.parent.title || filename`: a title is used unless it is the
      empty string, which JavaScript treats as false. */
  function ClassName(parentTitle: string, file: string): (r: string)
    ensures parentTitle != "" ==> r == parentTitle
    ensures parentTitle == "" ==> r == Basename(file)
  {
    if parentTitle != "" then parentTitle else Basename(file)
  }

  /** The case record this reporter's `onTestEnd` appends: the result's
      status and error are never read. */
  function LegacyCase(t: TestCase, r: TestResult): (c: Case)
    ensures c.name == t.title && c.time == r.duration && c.file == t.file
    ensures c.classname == ClassName(t.parentTitle, t.file)
    ensures !c.failed && !c.skipped && c.failureMessage == None
  {
    BlankCase.(name := t.title, time := r.duration, file := t.file,
               classname := ClassName(t.parentTitle, t.file))
  }

  /** The suite after this reporter's `onTestEnd`: one unmarked case
      appended, nothing else changed, so neither mark count moves. */
  function TestEndSuite(s: SuiteState, t: TestCase, r: TestResult): (s': SuiteState)
    ensures |s'.cases| == |s.cases| + 1
    ensures s'.cases[..|s.cases|] == s.cases && s'.cases[|s.cases|] == LegacyCase(t, r)
    ensures s'.name == s.name && s'.timestamp == s.timestamp && s'.time == s.time
    ensures FailureCount(s'.cases) == FailureCount(s.cases)
    ensures SkippedCount(s'.cases) == SkippedCount(s.cases)
  {
    var cs := s.cases + [LegacyCase(t, r)];
    CountWhereAppend(s.cases, [LegacyCase(t, r)], IsFailure);
    CountWhereAppend(s.cases, [LegacyCase(t, r)], IsSkipped);
    s.(cases := cs)
  }

  /** One callback's effect on the suite. */
  function Step(s: SuiteState, e: Event): SuiteState {
    match e
    case Begin(k, title, now) => Reporter.BeginSuite(s, k, title, now)
    case TestBegin(_, now) => Reporter.TestBeginSuite(s, now)
    case TestEnd(t, r) => TestEndSuite(s, t, r)
    case End(full) => Reporter.EndSuite(s, full.duration)
  }

  /** The suite after a whole stream of callbacks, in order. */
  function Replay(s: SuiteState, events: seq<Event>): (s': SuiteState)
    ensures |s'.cases| == |s.cases| + |Ended(events)|
    decreases |events|
  {
    if events == [] then s
    else Step(Replay(s, events[..|events| - 1]), events[|events| - 1])
  }

  /** Whatever the statuses, a run of this reporter records one case per
      ended test and reports no failures and no skipped tests. */
  lemma {:induction false} ReplayCounts(events: seq<Event>)
    ensures TestCount(Replay(EmptySuite, events).cases) == |Ended(events)|
    ensures FailureCount(Replay(EmptySuite, events).cases) == 0
    ensures SkippedCount(Replay(EmptySuite, events).cases) == 0
    decreases |events|
  {
    if events != [] {
      var prefix := events[..|events| - 1];
      ReplayCounts(prefix);
      if !events[|events| - 1].TestEnd? {
        assert Ended(events) == Ended(prefix);
      }
    }
  }

  /** Two suites that agree on everything the two reporters fill in the same
      way: the suite fields and, case by case, name, file and time, and the
      classname whenever the newer reporter's case has a non-empty one. */
  ghost predicate SameSkeleton(s: SuiteState, legacy: SuiteState) {
    && s.name == legacy.name && s.timestamp == legacy.timestamp && s.time == legacy.time
    && |s.cases| == |legacy.cases|
    && forall k :: 0 <= k < |s.cases| ==>
         && s.cases[k].name == legacy.cases[k].name
         && s.cases[k].file == legacy.cases[k].file
         && s.cases[k].time == legacy.cases[k].time
         && (s.cases[k].classname != "" ==> legacy.cases[k].classname == s.cases[k].classname)
  }

  /** On every stream of callbacks the two reporters build the same suite
      except for the status marks and the classname fallback. */
  lemma {:induction false} ReplayMatchesReporter(events: seq<Event>)
    ensures SameSkeleton(Reporter.Replay(EmptySuite, events), Replay(EmptySuite, events))
    decreases |events|
  {
    if events != [] {
      var prefix := events[..|events| - 1];
      ReplayMatchesReporter(prefix);
      var current, legacy := Reporter.Replay(EmptySuite, prefix), Replay(EmptySuite, prefix);
      match events[|events| - 1]
      case TestEnd(t, r) =>
        var current', legacy' := Reporter.TestEndSuite(current, t, r), TestEndSuite(legacy, t, r);
        forall k | 0 <= k < |current'.cases|
          ensures current'.cases[k].name == legacy'.cases[k].name
          ensures current'.cases[k].file == legacy'.cases[k].file
          ensures current'.cases[k].time == legacy'.cases[k].time
          ensures current'.cases[k].classname != "" ==> legacy'.cases[k].classname == current'.cases[k].classname
        {
          if k < |current.cases| {
            assert current'.cases[k] == current.cases[k] && legacy'.cases[k] == legacy.cases[k];
          }
        }
      case _ =>
    }
  }

  /** The older reporter object, holding the suite it fills. */
  class TrunkReporter {
    const testSuite: Suite

    constructor ()
      ensures fresh(testSuite) && testSuite.State() == EmptySuite
    {
      testSuite := new Suite();
    }

    /** `onBegin(config, suite)`; the configuration is not read. */
    method OnBegin(suiteType: SuiteType, title: string, now: Timestamp)
      modifies testSuite
      ensures testSuite.State() == Reporter.BeginSuite(old(testSuite.State()), suiteType, title, now)
    {
      match suiteType {
        case Root =>
          testSuite.SetName("playwright tests");
          testSuite.SetTimestamp(now);
        case Describe =>
          testSuite.SetName(title);
        case Project =>
        case File =>
      }
    }

    /** `onTestBegin(test, result)`; neither argument is read. */
    method OnTestBegin(test: TestCase, result: TestResult, now: Timestamp)
      modifies testSuite
      ensures testSuite.State() == Reporter.TestBeginSuite(old(testSuite.State()), now)
    {
      testSuite.SetTimestamp(now);
    }

    /** `onTestEnd(test, result)`: compute the file's base name, then append
        a case with name, time, file and classname. */
    method OnTestEnd(test: TestCase, result: TestResult)
      modifies testSuite
      ensures testSuite.State() == TestEndSuite(old(testSuite.State()), test, result)
    {
      var filename := test.file[LastIndexOf(test.file, '/') + 1..];
      var testCase := BlankCase.(name := test.title, time := result.duration);
      testCase := testCase.(file := test.file, classname := if test.parentTitle != "" then test.parentTitle else filename);
      testSuite.AddCase(testCase);
    }

    /** `onEnd(result)`: the suite's total time; the write is not modelled. */
    method OnEnd(full: FullResult)
      modifies testSuite
      ensures testSuite.State() == Reporter.EndSuite(old(testSuite.State()), full.duration)
    {
      testSuite.SetTime(full.duration);
    }
  }

  /** A failing test and a test whose parent title is empty, reported by the
      older reporter: no failure is counted, and the second case is named
      after its file's base name. */
  method DemoRun() returns (tests: nat, failures: nat, skipped: nat, classnames: seq<string>)
    ensures tests == 2 && failures == 0 && skipped == 0
    ensures classnames == ["Demo test suite", "edge.ts"]
  {
    var grouped := TestCase("1", "home page has expected h2", "e2e/demo.ts", "Demo test suite");
    var untitled := TestCase("2", "top-level test", "e2e/edge.ts", "");
    var failed := TestResult(Failed, 5000, Some(TestError(Some("locator('h2')"))));
    var timedOut := TestResult(TimedOut, 30000, None);
    BasenameUnique(untitled.file, "edge.ts");
    assert LegacyCase(untitled, timedOut).classname == "edge.ts";
    var reporter := new TrunkReporter();
    reporter.OnBegin(Root, "", "t0");
    reporter.OnTestBegin(grouped, TestResult(Passed, 0, None), "t1");
    reporter.OnTestEnd(grouped, failed);
    reporter.OnTestBegin(untitled, TestResult(Passed, 0, None), "t2");
    reporter.OnTestEnd(untitled, timedOut);
    reporter.OnEnd(FullResult(35000));
    var cases := reporter.testSuite.cases;
    assert cases == [LegacyCase(grouped, failed), LegacyCase(untitled, timedOut)];
    tests, failures, skipped := TestCount(cases), FailureCount(cases), SkippedCount(cases);
    classnames := [cases[0].classname, cases[1].classname];
  }
}
