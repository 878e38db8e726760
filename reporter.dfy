/** The reporter of `src/reporter.ts`: it folds Playwright's lifecycle
    callbacks into one JUnit suite, classifying each test's status as a
    failure, a skip or a pass.
 */
module Reporter {
  import opened JUnitBuilder
  import opened Playwright

  /** `result.error?.message` */
  function ErrorMessage(r: TestResult): (m: Option<string>)
    ensures m.Some? <==> r.error.Some? && r.error.value.message.Some?
    ensures m.Some? ==> r.error.value.message == m
  {
    match r.error
    case None => None
    case Some(e) => e.message
  }

  /** The case record `onTestEnd` leaves at the end of the suite. */
  function NewCase(t: TestCase, r: TestResult): (c: Case)
    ensures c.name == t.title && c.classname == t.parentTitle
    ensures c.file == t.file && c.time == r.duration
    ensures c.failed <==> IsFailing(r.status)
    ensures c.failureMessage == (if IsFailing(r.status) then ErrorMessage(r) else None)
    ensures c.skipped <==> r.status == Skipped
  {
    var marked :=
      match r.status
      case Failed | TimedOut | Interrupted => BlankCase.(failed := true, failureMessage := ErrorMessage(r))
      case Skipped => BlankCase.(skipped := true)
      case Passed => BlankCase;
    marked.(name := t.title, time := r.duration, file := t.file, classname := t.parentTitle)
  }

  /** The suite after `onBegin`: a root suite names it and stamps it, a
      `describe` suite names it after its title, any other leaves it alone. */
  function BeginSuite(s: SuiteState, suiteType: SuiteType, title: string, now: Timestamp): (s': SuiteState)
    ensures s'.cases == s.cases && s'.time == s.time
    ensures suiteType == Root ==> s'.name == Some("playwright tests") && s'.timestamp == Some(now)
    ensures suiteType == Describe ==> s'.name == Some(title) && s'.timestamp == s.timestamp
    ensures suiteType == Project || suiteType == File ==> s' == s
  {
    match suiteType
    case Root => s.(name := Some("playwright tests"), timestamp := Some(now))
    case Describe => s.(name := Some(title))
    case _ => s
  }

  /** The suite after `onTestBegin`: only the timestamp is replaced. */
  function TestBeginSuite(s: SuiteState, now: Timestamp): (s': SuiteState)
    ensures s'.timestamp == Some(now)
    ensures s'.name == s.name && s'.time == s.time && s'.cases == s.cases
  {
    s.(timestamp := Some(now))
  }

  /** The suite after `onTestEnd`: one case appended, nothing else changed. */
  function TestEndSuite(s: SuiteState, t: TestCase, r: TestResult): (s': SuiteState)
    ensures |s'.cases| == |s.cases| + 1
    ensures s'.cases[..|s.cases|] == s.cases && s'.cases[|s.cases|] == NewCase(t, r)
    ensures s'.name == s.name && s'.timestamp == s.timestamp && s'.time == s.time
    ensures FailureCount(s'.cases) == FailureCount(s.cases) + (if IsFailing(r.status) then 1 else 0)
    ensures SkippedCount(s'.cases) == SkippedCount(s.cases) + (if r.status == Skipped then 1 else 0)
  {
    var cs := s.cases + [NewCase(t, r)];
    CountWhereAppend(s.cases, [NewCase(t, r)], IsFailure);
    CountWhereAppend(s.cases, [NewCase(t, r)], IsSkipped);
    s.(cases := cs)
  }

  /** The suite after `onEnd`: only the total time is set. */
  function EndSuite(s: SuiteState, duration: nat): (s': SuiteState)
    ensures s'.time == Some(duration)
    ensures s'.name == s.name && s'.timestamp == s.timestamp && s'.cases == s.cases
  {
    s.(time := Some(duration))
  }

  /** One callback's effect on the suite. */
  function Step(s: SuiteState, e: Event): SuiteState {
    match e
    case Begin(k, title, now) => BeginSuite(s, k, title, now)
    case TestBegin(_, now) => TestBeginSuite(s, now)
    case TestEnd(t, r) => TestEndSuite(s, t, r)
    case End(full) => EndSuite(s, full.duration)
  }

  /** The suite after a whole stream of callbacks, in order. */
  function Replay(s: SuiteState, events: seq<Event>): (s': SuiteState)
    ensures |s'.cases| == |s.cases| + |Ended(events)|
    decreases |events|
  {
    if events == [] then s
    else Step(Replay(s, events[..|events| - 1]), events[|events| - 1])
  }

  /** The case records of the ended tests, one per test, in order. */
  function CasesOf(ends: seq<(TestCase, TestResult)>): (cs: seq<Case>)
    ensures |cs| == |ends|
    ensures forall i :: 0 <= i < |ends| ==> cs[i] == NewCase(ends[i].0, ends[i].1)
  {
    seq(|ends|, i requires 0 <= i < |ends| => NewCase(ends[i].0, ends[i].1))
  }

  /** The cases of a replayed stream are the cases it started with followed
      by one case per `TestEnd`, in the order those events came. */
  lemma {:induction false} ReplayCases(s: SuiteState, events: seq<Event>)
    ensures Replay(s, events).cases == s.cases + CasesOf(Ended(events))
    decreases |events|
  {
    if events == [] {
    } else {
      var prefix := events[..|events| - 1];
      var last := events[|events| - 1];
      ReplayCases(s, prefix);
      if last.TestEnd? {
        assert CasesOf(Ended(events)) == CasesOf(Ended(prefix)) + [NewCase(last.test, last.result)];
      } else {
        assert Ended(events) == Ended(prefix);
      }
    }
  }

  /** Counting over the case records is counting over the statuses. */
  lemma {:induction false} CasesOfCounts(ends: seq<(TestCase, TestResult)>)
    ensures FailureCount(CasesOf(ends)) == CountStatus(ends, IsFailing)
    ensures SkippedCount(CasesOf(ends)) == CountStatus(ends, IsSkippedStatus)
    decreases |ends|
  {
    if ends != [] {
      var prefix := ends[..|ends| - 1];
      CasesOfCounts(prefix);
      assert CasesOf(ends)[..|ends| - 1] == CasesOf(prefix);
    }
  }

  /** The root counts of a whole run: `tests` is the number of ended tests,
      `failures` the number whose status is failed, timedOut or interrupted,
      `skipped` the number skipped, and `errors` is zero. */
  lemma {:induction false} ReplayCounts(events: seq<Event>)
    ensures TestCount(Replay(EmptySuite, events).cases) == |Ended(events)|
    ensures FailureCount(Replay(EmptySuite, events).cases) == CountStatus(Ended(events), IsFailing)
    ensures SkippedCount(Replay(EmptySuite, events).cases) == CountStatus(Ended(events), IsSkippedStatus)
    ensures ErrorCount(Replay(EmptySuite, events).cases) == 0
  {
    ReplayCases(EmptySuite, events);
    assert Replay(EmptySuite, events).cases == CasesOf(Ended(events));
    CasesOfCounts(Ended(events));
  }

  /** The k-th case of the report belongs to the k-th test that ended. */
  lemma {:induction false} ReplayOrder(events: seq<Event>, k: nat)
    requires k < |Ended(events)|
    ensures k < |Replay(EmptySuite, events).cases|
    ensures Replay(EmptySuite, events).cases[k] == NewCase(Ended(events)[k].0, Ended(events)[k].1)
  {
    ReplayCases(EmptySuite, events);
  }

  /** Later callbacks never change or remove a case already recorded. */
  lemma {:induction false} ReplayKeepsRecorded(s: SuiteState, events: seq<Event>)
    ensures |s.cases| <= |Replay(s, events).cases|
    ensures Replay(s, events).cases[..|s.cases|] == s.cases
  {
    ReplayCases(s, events);
  }

  /** The reporter object, holding the suite it fills. */
  class TrunkReporter {
    const testSuite: Suite

    constructor ()
      ensures fresh(testSuite) && testSuite.State() == EmptySuite
    {
      testSuite := new Suite();
    }

    /** `onBegin(config, suite)`; the configuration is not read. */
    method OnBegin(suiteType: SuiteType, title: string, now: Timestamp)
      modifies testSuite
      ensures testSuite.State() == BeginSuite(old(testSuite.State()), suiteType, title, now)
    {
      match suiteType {
        case Root =>
          testSuite.SetName("playwright tests");
          testSuite.SetTimestamp(now);
        case Describe =>
          testSuite.SetName(title);
        case Project =>
        case File =>
      }
    }

    /** `onTestBegin(test, result)`; neither argument is read. */
    method OnTestBegin(test: TestCase, result: TestResult, now: Timestamp)
      modifies testSuite
      ensures testSuite.State() == TestBeginSuite(old(testSuite.State()), now)
    {
      testSuite.SetTimestamp(now);
    }

    /** `onTestEnd(test, result)`: classify the status, then fill in the
        case's name, time, file and classname. */
    method OnTestEnd(test: TestCase, result: TestResult)
      modifies testSuite
      ensures testSuite.State() == TestEndSuite(old(testSuite.State()), test, result)
    {
      var testCase := BlankCase;
      match result.status {
        case Failed | TimedOut | Interrupted =>
          testCase := testCase.(failed := true, failureMessage := ErrorMessage(result));
        case Skipped =>
          testCase := testCase.(skipped := true);
        case Passed =>
      }
      testCase := testCase.(name := test.title, time := result.duration);
      testCase := testCase.(file := test.file, classname := test.parentTitle);
      testSuite.AddCase(testCase);
    }

    /** `onEnd(result)`: the suite's total time; the write is not modelled. */
    method OnEnd(full: FullResult)
      modifies testSuite
      ensures testSuite.State() == EndSuite(old(testSuite.State()), full.duration)
    {
      testSuite.SetTime(full.duration);
    }
  }

  /** A run shaped after what the report tests expect (their counts, names
      and classname, not a run of the fixture files): three tests of one
      group end passed, passed and failed, and the report counts 3 tests, 1
      failure, 0 skipped and 0 errors, with the failure on the third case. */
  method DemoRun(message: string) returns (tests: nat, failures: nat, skipped: nat, errors: nat, third: Case)
    ensures tests == 3 && failures == 1 && skipped == 0 && errors == 0
    ensures third.failed && third.failureMessage == Some(message) && !third.skipped
  {
    var group := "Tests defined within`test.describe()`";
    var path := "test/target/e2e/demo.test.ts";
    var h1 := TestCase("1", "home page has expected h1", path, group);
    var p := TestCase("2", "home page has expected p", path, group);
    var h2 := TestCase("3", "home page has expected h2", path, group);
    var reporter := new TrunkReporter();
    reporter.OnBegin(Root, "", "t0");
    reporter.OnTestBegin(h1, TestResult(Passed, 0, None), "t1");
    reporter.OnTestEnd(h1, TestResult(Passed, 120, None));
    reporter.OnTestBegin(p, TestResult(Passed, 0, None), "t2");
    reporter.OnTestEnd(p, TestResult(Passed, 80, None));
    reporter.OnTestBegin(h2, TestResult(Passed, 0, None), "t3");
    reporter.OnTestEnd(h2, TestResult(Failed, 5000, Some(TestError(Some(message)))));
    reporter.OnEnd(FullResult(5300));
    var cases := reporter.testSuite.cases;
    tests, failures, skipped, errors := TestCount(cases), FailureCount(cases), SkippedCount(cases), ErrorCount(cases);
    third := cases[2];
  }
}
