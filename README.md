# trunk-playwright-reporter, modelled in Dafny

The repository is a Playwright reporter that produces a JUnit report. The
runner calls the reporter's callbacks in order: `onBegin` once, then a
`onTestBegin`/`onTestEnd` pair for each test, then `onEnd`. The reporter
folds these calls into one in-memory `junit-report-builder` test suite. The
suite has a name, a timestamp, a total time and an ordered list of test-case
records. The document's root counts (`tests`, `failures`, `skipped`,
`errors`) come from that list.

There are two versions of the reporter:

- `TrunkReporter` in `src/reporter.ts` sorts each runner status into one of
  three outcomes. `failed`, `timedOut` and `interrupted` become a failure
  that carries `result.error?.message`, possibly undefined. `skipped` becomes
  a skipped mark. `passed` gets no mark.
- The older default export of `index.ts` never looks at the status. Its
  classname is the parent's title. When that title is empty, it uses the
  test file's base name instead (the text after the last `/`).

Files:

- `junit_builder.dfy` (module `JUnitBuilder`) is an abstract view of the
  builder library. `SuiteState` is the suite as a value. class `Suite` is the
  mutable suite object, with one setter method per builder call. The root
  counts are functions over the case list.
- `playwright.dfy` (module `Playwright`) holds the runner's records, reduced
  to the fields the reporters read. It also defines callback streams (`Event`)
  and the list of ended tests in a stream.
- `reporter.dfy` (module `Reporter`) models `src/reporter.ts`. It has one pure
  function per callback (`BeginSuite`, `TestBeginSuite`, `TestEndSuite`,
  `EndSuite`) and their fold over a stream (`Replay`). It has the class
  `TrunkReporter`, whose methods change its `testSuite` field in place and are
  proved against those functions. It also has lemmas about whole runs: the
  counts, the order of the cases, and that recorded cases are never changed.
- `legacy_reporter.dfy` (module `LegacyReporter`) models `index.ts`. It covers
  `lastIndexOf`, the base name and the `||` fallback, its class and its fold.
  It proves that the fold never counts a failure or a skip. It also proves
  that its suite matches the newer reporter's on everything except the status
  marks and the classname fallback. Its `onBegin`, `onTestBegin` and `onEnd`
  have the same effect on the in-memory suite as the newer file's, so it
  reuses that file's suite functions. Its `onEnd` still differs in when it
  writes the report: see the first line under "## Left out".
- `pending_tests.dfy` (module `PendingTests`) holds a registry of pending test
  ids (tests that began and have not ended). Only the resilience tests of
  `test/reporter.test.ts` show this registry. The reporter (`src/reporter.ts`)
  has no such field. The registry is kept in a separate module, and the two
  reporter modules do not use it.

Clock readings (`Date.now()`) are an opaque `Timestamp` parameter of the
callbacks. Durations are `nat` milliseconds, passed through unchanged.

## Model

| member | source | states |
|---|---|---|
| JUnitBuilder.CountWhere | test/reporter.test.ts:63-81 | a root count is at most the number of cases, and it is zero exactly when no case has the mark |
| JUnitBuilder.CountWhereAppend | test/reporter.test.ts:63-81 | the count of a concatenation is the sum of the counts of its parts |
| JUnitBuilder.TestCount | test/reporter.test.ts:63-66 | the root attribute `tests`: the number of case records |
| JUnitBuilder.FailureCount | test/reporter.test.ts:73-76 | the root attribute `failures`: at most one per case, and zero exactly when no case has a failure mark |
| JUnitBuilder.SkippedCount | test/reporter.test.ts:68-71 | the root attribute `skipped`: at most one per case, and zero exactly when no case has a skipped mark |
| JUnitBuilder.ErrorCount | test/reporter.test.ts:78-81 | the root attribute `errors`: 0, because neither reporter ever sets an error mark |
| JUnitBuilder.Suite.constructor | src/reporter.ts:13 | `builder.testSuite()` gives a suite with no name, timestamp or time, and no cases |
| JUnitBuilder.Suite.SetName | src/reporter.ts:18 | sets the name and nothing else |
| JUnitBuilder.Suite.SetTimestamp | src/reporter.ts:28 | sets the timestamp and nothing else |
| JUnitBuilder.Suite.SetTime | src/reporter.ts:56 | sets the total time and nothing else |
| JUnitBuilder.Suite.AddCase | src/reporter.ts:32-33 | appends one case at the end and changes nothing else |
| Playwright.IsFailing | src/reporter.ts:36-38 | the fall-through group of the status switch: a status is failing exactly when it is neither passed nor skipped |
| Reporter.ErrorMessage | src/reporter.ts:39 | `result.error?.message`: present exactly when the result has an error and that error has a message, and then it is that message |
| Reporter.NewCase | src/reporter.ts:31-53 | name is the test title, classname the parent title, file the location file, time the duration. The case is failed exactly when the status is failed, timedOut or interrupted, and then its message is `result.error?.message`, possibly absent; otherwise it has no message. It is skipped exactly when the status is skipped |
| Reporter.BeginSuite | src/reporter.ts:15-24 | root: name "playwright tests" and timestamp `now`. describe: name is the suite's title and the timestamp is kept. project or file: no change. Never touches the cases or the time |
| Reporter.TestBeginSuite | src/reporter.ts:27-29 | replaces the timestamp. Name, time and cases are kept |
| Reporter.TestEndSuite | src/reporter.ts:31-53 | the case list grows by one: earlier cases are unchanged and the new last case is `NewCase`. The failure count goes up by one exactly for failing statuses, the skipped count exactly for skipped. The suite fields are kept |
| Reporter.EndSuite | src/reporter.ts:55-56 | sets the total time to the run's duration. Everything else is kept |
| Reporter.Replay | src/reporter.ts:15-56 | the suite after a stream of callbacks taken in order; it has one more case per ended test |
| Reporter.ReplayCases | src/reporter.ts:31-53 | after any callback stream, the cases are the initial cases followed by one `NewCase` per ended test, in end order |
| Reporter.CasesOfCounts | test/reporter.test.ts:63-81 | the failure count of the recorded cases is the number of ended tests with status failed, timedOut or interrupted. The skipped count is the number with status skipped |
| Reporter.ReplayCounts | test/reporter.test.ts:63-81 | after a whole run, `tests` is the number of ended tests, `failures` and `skipped` count the failing and skipped statuses, and `errors` is 0 |
| Reporter.ReplayOrder | test/reporter.test.ts:84-97 | the k-th case of the report belongs to the k-th test that ended |
| Reporter.ReplayKeepsRecorded | src/reporter.ts:31-33 | later callbacks never change or remove a case that is already recorded |
| Reporter.TrunkReporter.constructor | src/reporter.ts:12-13 | a new reporter holds a fresh, empty suite |
| Reporter.TrunkReporter.OnBegin | src/reporter.ts:15-24 | the suite becomes `BeginSuite` of what it was |
| Reporter.TrunkReporter.OnTestBegin | src/reporter.ts:27-29 | the suite becomes `TestBeginSuite` of what it was |
| Reporter.TrunkReporter.OnTestEnd | src/reporter.ts:31-53 | the status switch plus the four setters leave the suite as `TestEndSuite` of what it was: exactly `NewCase` appended |
| Reporter.TrunkReporter.OnEnd | src/reporter.ts:55-56 | the suite becomes `EndSuite` of what it was |
| Reporter.DemoRun | test/reporter.test.ts:63-97 | a run shaped after the report tests' expectations (not a run of the fixture files): tests end passed, passed, failed. The counts are 3 tests, 1 failure, 0 skipped, 0 errors, and the third case carries the failure message |
| LegacyReporter.LastIndexOf | index.ts:32 | returns -1 or a position holding the character, and no later position holds it |
| LegacyReporter.Basename | index.ts:32 | returns a suffix of the path with no `/`. It is the whole path when the path has no `/`, and otherwise it starts right after a `/` |
| LegacyReporter.BasenameUnique | index.ts:32 | any suffix with no `/` that is the whole path, or starts right after a `/`, is the base name |
| LegacyReporter.ClassName | index.ts:38 | the parent title when it is not empty, otherwise the file's base name |
| LegacyReporter.LegacyCase | index.ts:31-39 | name, time and file come from the test and result, classname is `ClassName`, and there is never a failure or skipped mark |
| LegacyReporter.TestEndSuite | index.ts:31-39 | exactly one unmarked case is appended, earlier cases are unchanged, and the failure and skipped counts do not move |
| LegacyReporter.Replay | index.ts:15-43 | the suite after a stream of callbacks taken in order; it has one more case per ended test |
| LegacyReporter.ReplayCounts | index.ts:31-39 | after any run, `tests` is the number of ended tests, and `failures` and `skipped` are 0 whatever the statuses |
| LegacyReporter.ReplayMatchesReporter | index.ts:12-45 | on every stream, the old and new reporters agree on name, timestamp, time and number of cases. Case by case they agree on name, file and time, and on the classname whenever the parent title is not empty |
| LegacyReporter.TrunkReporter.constructor | index.ts:12-13 | a new reporter holds a fresh, empty suite |
| LegacyReporter.TrunkReporter.OnBegin | index.ts:15-24 | same rules as the newer reporter: the suite becomes `Reporter.BeginSuite` of what it was |
| LegacyReporter.TrunkReporter.OnTestBegin | index.ts:27-29 | only the timestamp is replaced |
| LegacyReporter.TrunkReporter.OnTestEnd | index.ts:31-39 | the suite becomes `TestEndSuite` of what it was: exactly `LegacyCase` appended |
| LegacyReporter.TrunkReporter.OnEnd | index.ts:41-44 | only the total time is set |
| LegacyReporter.DemoRun | index.ts:31-39 | a failed test and a timed-out test count 0 failures. The test with an empty parent title gets its file's base name as classname |
| PendingTests.AfterBegin | test/reporter.test.ts:207-217 | beginning a test adds its id, and only that id |
| PendingTests.AfterEnd | test/reporter.test.ts:219-262 | ending a test removes its id, and only that id. An id that was never registered leaves the registry unchanged |
| PendingTests.EndShrinks | test/reporter.test.ts:219-227 | ending a registered test shrinks the registry by exactly one |
| PendingTests.EndTwice | test/reporter.test.ts:243-262 | ending a test a second time changes nothing |
| PendingTests.BeginAllAdds | test/reporter.test.ts:268-273 | beginning a sequence of tests registers exactly their ids |
| PendingTests.EndAllRemoves | test/reporter.test.ts:277-280 | ending a sequence of tests removes exactly their ids |
| PendingTests.BeginEndEachRemoves | test/reporter.test.ts:243-253 | a sequence of begin/end pairs removes exactly their ids |
| PendingTests.BeginAllSize | test/reporter.test.ts:264-275 | beginning N tests with distinct ids registers N ids |
| PendingTests.LeakFree | test/reporter.test.ts:264-283 | beginning N tests and then ending them all leaves the registry empty |
| PendingTests.PairsLeakFree | test/reporter.test.ts:243-253 | N begin/end pairs leave the registry empty |
| PendingTests.PendingRegistry.constructor | test/reporter.test.ts:132-134 | a new registry is empty |
| PendingTests.PendingRegistry.Begin | test/reporter.test.ts:213-215 | the registry becomes `AfterBegin` of what it was, keyed on the test's `id` |
| PendingTests.PendingRegistry.End | test/reporter.test.ts:220-226 | the registry becomes `AfterEnd` of what it was, keyed on the test's `id` |
| PendingTests.CleanUpRun | test/reporter.test.ts:207-228 | three begins, then three ends: the sizes are 3, 2, 1, 0 |
| PendingTests.OrphanAndDuplicateRun | test/reporter.test.ts:230-262 | an orphan end leaves size 0. Begin, end, end gives sizes 1, 0, 0 |

## Left out

- Writing the report is not modelled. `builder.writeTo('report.xml')` (src/reporter.ts:57, index.ts:42) is file I/O inside the builder library. The two files differ here: `src/reporter.ts` sets the suite time and then writes (src/reporter.ts:56-57), while `index.ts` writes first and sets the time afterwards (index.ts:42-43), so the older reporter's written report does not carry the run's duration. The model captures only the in-memory effect, which is the same in both.
- XML serialisation, attribute escaping and the `testsuites` wrapper belong to `junit-report-builder`. The model stops at the suite value they are computed from. The reporters use one suite, so the root counts are that suite's counts.
- The failure-message round trip through XML entities (test/reporter.test.ts:87) depends only on that library. The model shows only that the message reaches the case unchanged.
- The builder's error mark is never set by either reporter, so `Case` does not have one and `ErrorCount` is 0.
- The builder's test-case object is not modelled as an object. `testCase()` returns it, and the chained setters then change it in place. The model builds the same record as a local value and appends it once. Nothing reads the suite between the append and the setters.
- Clock readings are not modelled. `Date.now()` and `toISOString()` become an opaque `Timestamp` argument. The difference between the `Date` that `onBegin` stores and the string that `onTestBegin` stores is lost.
- Callback arguments that neither reporter reads are left out: `FullConfig`, and everything in `Suite`, `TestCase`, `TestResult` and `FullResult` beyond the fields listed in `playwright.dfy`.
- Missing or undefined fields are not modelled, because `TestCase` holds `title`, `file` and `parentTitle` as strings that are always present. In `src/reporter.ts`, `onTestEnd` reads `test.location.file` and `test.parent.title` without a guard (src/reporter.ts:51-52). A missing `location` or `parent` therefore throws a `TypeError` there, which is what the tests at test/reporter.test.ts:137-148 and 163-174 run into. An undefined `title`, `location.file` or `parent.title` (test/reporter.test.ts:176-187, 354-365, 367-378) does not throw: it is passed on to the case's name, file or classname (src/reporter.ts:49, 51, 52) and the case is still recorded. The model cannot represent such a case. The failed-without-error test (test/reporter.test.ts:150-161) is not about a missing field: `Reporter.NewCase` covers it as a failure with no message.
- Durations are `nat` milliseconds, not floating-point numbers.
- The Playwright fixture tests and the shell-driven specs (`test/target/*`, `test/reporter.spec.ts`, `test/test.spec.ts`, `tests/reporter.spec.ts`) drive a browser and shell commands. Of these, only the expectation that the suite is named "playwright tests" is modelled, by `Reporter.BeginSuite`.
- The registry in `PendingTests` holds only ids. The tests look only at its size, so what the real map stores per id is not modelled.
