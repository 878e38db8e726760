/** The records the Playwright test runner hands to a reporter, reduced to the
    fields the reporters read, and the callbacks as a stream of events.
 */
module Playwright {
  import opened JUnitBuilder

  /** `Suite.type` */
  datatype SuiteType = Root | Project | File | Describe

  /** `TestResult.status` */
  datatype Status = Passed | Failed | TimedOut | Skipped | Interrupted

  /** `TestResult.error`: only its optional `message` is read. */
  datatype TestError = TestError(message: Option<string>)

  /** `TestCase`: its id, title, `location.file` and `parent.title`. */
  datatype TestCase = TestCase(id: string, title: string, file: string, parentTitle: string)

  /** `TestResult`: status, duration in milliseconds and optional error. */
  datatype TestResult = TestResult(status: Status, duration: nat, error: Option<TestError>)

  /** `FullResult`: the whole run's duration in milliseconds. */
  datatype FullResult = FullResult(duration: nat)

  /** One reporter callback, with the clock reading it would take. */
  datatype Event =
    | Begin(suiteType: SuiteType, suiteTitle: string, beganAt: Timestamp)
    | TestBegin(test: TestCase, startedAt: Timestamp)
    | TestEnd(test: TestCase, result: TestResult)
    | End(full: FullResult)

  /** The statuses a JUnit report records as a failure. */
  predicate IsFailing(s: Status)
    ensures IsFailing(s) <==> s != Passed && s != Skipped
  {
    s == Failed || s == TimedOut || s == Interrupted
  }

  /** The (test, result) pairs of the `TestEnd` events, in order. */
  function Ended(events: seq<Event>): (ends: seq<(TestCase, TestResult)>)
    ensures |ends| <= |events|
  {
    if events == [] then []
    else
      var last := events[|events| - 1];
      Ended(events[..|events| - 1]) + (if last.TestEnd? then [(last.test, last.result)] else [])
  }

  /** The number of ended tests whose status satisfies `p`. */
  function CountStatus(ends: seq<(TestCase, TestResult)>, p: Status -> bool): (n: nat)
    ensures n <= |ends|
  {
    if ends == [] then 0
    else CountStatus(ends[..|ends| - 1], p) + (if p(ends[|ends| - 1].1.status) then 1 else 0)
  }

  predicate IsSkippedStatus(s: Status) { s == Skipped }
}
