/** An abstract view of the part of the `junit-report-builder` library that the
    reporters use: one test suite with a name, a timestamp, a total time and an
    ordered list of test-case records, and the root counts of the JUnit
    document (`tests`, `failures`, `skipped`, `errors`) computed from it.
 */
module JUnitBuilder {

  datatype Option<T> = None | Some(value: T)

  /** A point in time, as whatever the runner's clock produced. */
  type Timestamp = string

  /** One `testcase` record. `failed` is the builder's failure mark (set by
      `failure(message)`, the message itself possibly absent); `skipped` is
      its skipped mark. Neither reporter ever sets the builder's error mark,
      so the record has none. */
  datatype Case = Case(
    name: string,
    classname: string,
    file: string,
    time: nat,
    failureMessage: Option<string>,
    failed: bool,
    skipped: bool)

  /** The record `testCase()` creates before any setter is applied. */
  const BlankCase := Case("", "", "", 0, None, false, false)

  /** The value of a suite: what the document is serialised from. */
  datatype SuiteState = SuiteState(
    name: Option<string>,
    timestamp: Option<Timestamp>,
    time: Option<nat>,
    cases: seq<Case>)

  /** A freshly created suite: nothing set, no cases. */
  const EmptySuite := SuiteState(None, None, None, [])

  /** The number of cases that satisfy `p`. */
  function CountWhere(cases: seq<Case>, p: Case -> bool): (n: nat)
    ensures n <= |cases|
    ensures n == 0 <==> forall i :: 0 <= i < |cases| ==> !p(cases[i])
  {
    if cases == [] then 0
    else CountWhere(cases[..|cases| - 1], p) + (if p(cases[|cases| - 1]) then 1 else 0)
  }

  lemma {:induction false} CountWhereAppend(a: seq<Case>, b: seq<Case>, p: Case -> bool)
    ensures CountWhere(a + b, p) == CountWhere(a, p) + CountWhere(b, p)
    decreases |b|
  {
    if b == [] {
      assert a + b == a;
    } else {
      var b' := b[..|b| - 1];
      assert (a + b)[..|a + b| - 1] == a + b';
      CountWhereAppend(a, b', p);
    }
  }

  predicate IsFailure(c: Case) { c.failed }
  predicate IsSkipped(c: Case) { c.skipped }

  /** The root attribute `tests`. */
  function TestCount(cases: seq<Case>): nat { |cases| }

  /** The root attribute `failures`: at most one per case, and zero exactly
      when no case carries the failure mark. */
  function FailureCount(cases: seq<Case>): (n: nat)
    ensures n <= |cases|
    ensures n == 0 <==> forall i :: 0 <= i < |cases| ==> !cases[i].failed
  {
    CountWhere(cases, IsFailure)
  }

  /** The root attribute `skipped`: at most one per case, and zero exactly
      when no case carries the skipped mark. */
  function SkippedCount(cases: seq<Case>): (n: nat)
    ensures n <= |cases|
    ensures n == 0 <==> forall i :: 0 <= i < |cases| ==> !cases[i].skipped
  {
    CountWhere(cases, IsSkipped)
  }

  /** The root attribute `errors`: the number of cases carrying an error
      mark, of which there are none in this model. */
  function ErrorCount(cases: seq<Case>): nat { 0 }

  /** The mutable suite object returned by `builder.testSuite()`. */
  class Suite {
    var name: Option<string>
    var timestamp: Option<Timestamp>
    var time: Option<nat>
    var cases: seq<Case>

    function State(): SuiteState
      reads this
    {
      SuiteState(name, timestamp, time, cases)
    }

    constructor ()
      ensures State() == EmptySuite
    {
      name, timestamp, time, cases := None, None, None, [];
    }

    /** `suite.name(n)` */
    method SetName(n: string)
      modifies this
      ensures State() == old(State()).(name := Some(n))
    {
      name := Some(n);
    }

    /** `suite.timestamp(t)` */
    method SetTimestamp(t: Timestamp)
      modifies this
      ensures State() == old(State()).(timestamp := Some(t))
    {
      timestamp := Some(t);
    }

    /** `suite.time(d)` */
    method SetTime(d: nat)
      modifies this
      ensures State() == old(State()).(time := Some(d))
    {
      time := Some(d);
    }

    /** `suite.testCase()`, with the case's setters already applied to `c`. */
    method AddCase(c: Case)
      modifies this
      ensures State() == old(State()).(cases := old(cases) + [c])
    {
      cases := cases + [c];
    }
  }
}
