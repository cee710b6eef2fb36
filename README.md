# jstest engine, modelled in Dafny

jstest is a small browser test runner. A user calls `jstest(tests)`, where
`tests` maps each test name either to a function or to a pair
`[attributes, function]`. The engine works in three stages:

- **Normalization** (`normalizeTests`). Each function or pair becomes a `Test`
  record, and any other value is dropped. An attribute array is sorted so
  that numbers come first, in ascending order, followed by everything else.
- **Suite construction** (`Suite`). The builder walks each test's sorted
  attributes.
  - `jstest.Ignore` stops the walk for that test.
  - The four lifecycle tags install the test's function as a hook. Using a
    tag a second time throws.
  - `jstest.ExpectsException(ctor)` moves the test to the end of the
    executable list and records `ctor` as an expected exception.
  - A `null` or `undefined` attribute throws a TypeError.
  - Any other attribute adds the test once more.
  - A test without attributes is added once.
- **Running** (`runSuite`). The runner calls the suite setup, then for each
  executable test its test setup, body and test teardown, and finally the
  suite teardown.
  - A body that returns passes unless exceptions are expected.
  - A body that throws passes exactly when the thrown object's constructor
    is one of the expected ones.
  - The footer reports `Passed: p / t = x%`.

The `assert` object supplies the predicates that test bodies call. Each one
throws an `AssertFailure` when its check fails:

- `isEqual`, `notEqual` and `isNull` build the message from the values they
  compare.
- `notNull`, `isTrue` and `isFalse` use fixed texts: "Unexpected null Value.",
  "Expected true." and "Expected false.".

The model runs along the same stages. Each stateful part has a pure
specification function on values, and an imperative method or class that
is proved equal to it:

| module | contents |
|---|---|
| `JsValues` | exception constructors and the values the asserts compare, with `typeof`, `===` and string conversion |
| `Attributes` | attribute values, the builder's routing of one attribute, and the sort |
| `TestRecord` | class `Test` and its methods |
| `Normalizer` | `NormalizeSpec` (values) and `NormalizeTests` (a loop that creates `Test` objects) |
| `SuiteBuilder` | `BuildSpec` (values) and class `Suite` (the hook fields, the executable list, the constructor's loop) |
| `SuiteProperties` | what the construction guarantees |
| `Runner` | `RunSpec` (values) and `RunSuite` (the loop with its counters) |
| `RunProperties` | what a run guarantees |
| `Stats` | the percentage and the footer text |
| `Assertions` | the predicates |
| `Jstest` | the whole call |
| `Scenarios` | suites taken from `mytests.js`, with what jstest reports for them |

Test bodies and hooks are data. An `Outcome` says whether the procedure
returns or throws an exception of a given kind with a given message. A run's
`Report` records:

- the sequence of procedures called;
- one result per executed test, holding its name, whether it passed, and its
  message;
- the two counters;
- whether the run finished, or was aborted because a hook threw.

The source does not catch a hook's exception, so such an exception ends the
run.

The source defines the suite-teardown constant as `jstest.SutieTeardown`;
see Findings. The model uses the intended routing, with 4 as the suite
teardown. `Attributes.ClassifyAsWritten` keeps the routing as written.

The comment at jstest/jstest.js:306-311 says that types are always shown for
primitive values. The code instead leaves out both type tags whenever the two
`typeof`s agree. The model follows the code.

## Model

| member | source | states |
|---|---|---|
| JsValues.StrictEqSameType | jstest/jstest.js:312-376 | strictly equal values always have the same `typeof` (the fact that makes notEqual's tags dead) |
| JsValues.StrictEqSymmetricReflexive | jstest/jstest.js:312-376 | `===` is symmetric, and a value is strictly equal to itself exactly when it is not NaN |
| JsValues.TypeOf | jstest/jstest.js:312-343 | `typeof` gives one of the six type names, and "object" exactly for null and objects |
| JsValues.IntToStringInjective | jstest/jstest.js:312-376 | different integers have different string forms, so a message tells the compared numbers apart |
| JsValues.NatToString | jstest/jstest.js:77-78 | the decimal text of a count: non-empty, digits only, no leading zero |
| JsValues.ParseNatToString | jstest/jstest.js:77-78 | reading a count's decimal text back gives the count |
| JsValues.NatToStringInjective | jstest/jstest.js:77-78 | distinct counts print differently |
| Attributes.Classify | jstest/jstest.js:184-219 | the branch an attribute takes: Stop exactly for Ignore (-1); a hook slot exactly for the four lifecycle tags, and the slot is the tag's own; the expectation branch exactly for ExpectsException markers, with their argument; a TypeError exactly for null and undefined; a push for every other value |
| Attributes.AsWrittenSuiteTeardownMisroutes | jstest/jstest.js:206-210 | with the constant as written, 4 adds the test as executable and undefined installs the suite teardown; with the intended constant, 4 installs the suite teardown and undefined throws a TypeError |
| Attributes.ClassifyAsWritten | jstest/jstest.js:187-219 | the routing with the constants as written agrees with the intended routing on every attribute except 4 (pushed) and undefined (installed as the suite teardown) |
| Attributes.Sorter | jstest/jstest.js:127-135 | on defined attributes the comparator is negative exactly when the first strictly precedes the second in the order numbers-ascending-then-the-rest; a non-number first argument always compares after |
| Attributes.SortAttributes | jstest/jstest.js:149 | `attributes.sort(sorter)` returns a permutation of the attributes |
| Attributes.SortAttributesSorted | jstest/jstest.js:127-135 | after `attributes.sort(sorter)`, numbers ascend and every number comes before every non-number; undefined comes last |
| Attributes.SortAttributesStable | jstest/jstest.js:127-135 | defined non-numbers keep their written relative order |
| Attributes.SortAttributesKeepsExpectOrder | jstest/jstest.js:127-135 | ExpectsException markers come out in the order they were written |
| Attributes.SortAttributesIgnoreFirst | jstest/jstest.js:286 | when Ignore is present and no number is below -1, Ignore is the first attribute after sorting |
| Attributes.LowerNumberSortsBeforeIgnore | jstest/jstest.js:286 | an example: `[Ignore, -2]` sorts to `[-2, Ignore]`, so a number below -1 is met before Ignore; the general order is SortAttributesSorted's |
| TestRecord.Test.constructor | jstest/jstest.js:83-87 | a new Test has the given procedure, name and attributes, and expects no exception |
| TestRecord.Test.ExpectsException | jstest/jstest.js:89-96 | true exactly when the constructor is one of the expected ones, compared by identity |
| TestRecord.Test.ExpectsAnyException | jstest/jstest.js:98-100 | true exactly when some exception is expected |
| TestRecord.Test.ExpectException | jstest/jstest.js:102-107 | a constructor is appended; null and non-function values leave the list as it was |
| TestRecord.Test.GetExpectedExceptionList | jstest/jstest.js:109-120 | the list holds the name of each expected kind, in order |
| Normalizer.NormalizeSpecKeepsTestShapes | jstest/jstest.js:137-154 | there is one Test per function or array entry, in iteration order, and other entries are dropped; a bare function gets no attributes and an array gets its attributes sorted |
| Normalizer.NormalizeSpecExpectsNothing | jstest/jstest.js:87 | every normalized Test starts with no expected exception |
| Normalizer.NormalizeEntry | jstest/jstest.js:139-153 | a function or array entry gives exactly one Test, with the entry's name and procedure and no expected exception, with no attributes exactly for a bare function and a permutation of the array's attributes otherwise; any other entry gives none |
| Normalizer.NormalizeSpec | jstest/jstest.js:124-156 | normalization never produces more Tests than there are entries |
| Normalizer.NewTest | jstest/jstest.js:139-153 | the fresh Test for one entry is exactly that entry's normalized record |
| Normalizer.NormalizeTests | jstest/jstest.js:124-156 | the loop returns fresh, pairwise distinct Test objects whose fields are the specified normalization |
| SuiteBuilder.SetHook | jstest/jstest.js:195-210 | installing a hook fills that slot and leaves the other three as they were |
| SuiteBuilder.BuildSpec | jstest/jstest.js:180-224 | a successful build keeps one expected list per test and schedules only indices of normalized tests |
| SuiteBuilder.BuildUpToOrderBound | jstest/jstest.js:180-224 | after the first k tests, the executable list holds only their indices |
| SuiteBuilder.BuildErrorPersists | jstest/jstest.js:191-210 | once construction has thrown, later tests change nothing: the same error is reported |
| SuiteBuilder.Suite.constructor | jstest/jstest.js:160-165 | every hook is the empty function and the executable list is empty |
| SuiteBuilder.Suite.RemoveTest | jstest/jstest.js:169-178 | the list is rebuilt without any occurrence of the test, order kept, and the hooks are untouched |
| SuiteBuilder.Suite.ApplyAttribute | jstest/jstest.js:191-219 | one attribute changes the hooks, the list and the test's expected kinds as the specification step does, or throws exactly the specified error |
| SuiteBuilder.Suite.Reschedule | jstest/jstest.js:211-215 | the test is removed, gains the marker's constructor, and is pushed at the end |
| SuiteBuilder.Suite.ApplyAttributes | jstest/jstest.js:184-220 | the walk over one test's attributes with its break at Ignore agrees with the specification, error included |
| SuiteBuilder.Suite.AddTest | jstest/jstest.js:181-223 | one test, with or without attributes, is processed as specified |
| SuiteBuilder.Suite.AddEach | jstest/jstest.js:180-224 | the constructor's loop either throws the specified error or yields the specified state |
| SuiteBuilder.Suite.AddTests | jstest/jstest.js:180-224 | from the empty suite, the loop throws exactly when the specification fails, with its error; otherwise the suite holds the specified hooks, list and expected kinds |
| SuiteBuilder.NewSuite | jstest/jstest.js:159-225 | `new Suite(tests)` throws exactly the specified error, or yields a fresh suite whose hooks and executable Tests are the specified ones |
| SuiteProperties.IgnoredTestContributesNothing | jstest/jstest.js:184-190 | a test carrying Ignore fills no slot, is not added and gains no expected kind, whatever its other attributes, provided no number below -1 is among them (see the next row) |
| SuiteProperties.LowerNumberDefeatsIgnore | jstest/jstest.js:184-190 | with a number below -1 in front of Ignore, the test is added anyway |
| SuiteProperties.ProcessAttrsKeepsHooks | jstest/jstest.js:191-210 | a hook that is already installed is never replaced |
| SuiteProperties.ProcessAttrsFillsSlot | jstest/jstest.js:191-210 | reaching a slot's tag without throwing means the slot was empty before and is filled after |
| SuiteProperties.BuildKeepsHooks | jstest/jstest.js:191-210 | during a successful build, every earlier stage succeeded and a filled slot keeps its procedure to the end |
| SuiteProperties.LifecycleTagTwiceFails | jstest/jstest.js:191-210 | two non-ignored tests carrying the same lifecycle tag make construction throw |
| SuiteProperties.StepAttrThrows | jstest/jstest.js:187-219 | one attribute throws exactly when it is null or undefined, or the tag of a slot already filled, and the error names that slot; otherwise filled slots keep their procedure and a tag fills its slot with the test's procedure |
| SuiteProperties.DuplicateMessages | jstest/jstest.js:191-210 | the four messages "Cannot use more than one TestSetup / TestTeardown / SuiteSetup / SuiteTeardown attribute." |
| SuiteProperties.ProcessAttrsDuplicate | jstest/jstest.js:191-210 | within one test, reaching the tag of a filled slot after attributes that did not throw throws the duplicate error for that slot |
| SuiteProperties.SecondTagThrowsDuplicate | jstest/jstest.js:191-210 | when a test reaches the tag of a slot an earlier test filled, and nothing before that tag throws, `new Suite` throws exactly the duplicate error for that slot |
| SuiteProperties.HookOnlyTestNotScheduled | jstest/jstest.js:191-210 | a test whose attributes are all lifecycle tags becomes each of those hooks and is not added as executable |
| SuiteProperties.MovedToEndTwice | jstest/jstest.js:211-215 | moving a test to the end twice is the same as moving it once with both lists of kinds |
| SuiteProperties.ExpectMarkerStep | jstest/jstest.js:211-215 | one marker moves the test to the end and records its constructor, if it is one |
| SuiteProperties.ExpectMarkersScheduleOnce | jstest/jstest.js:211-215 | N >= 1 markers leave the test exactly once, at the end, with every constructor among them added in order; null and non-function arguments are ignored |
| SuiteProperties.SortAttributesMarkersUnchanged | jstest/jstest.js:127-135 | sorting an array of markers only leaves it unchanged |
| SuiteProperties.ExpectOnlyTestScheduledOnce | jstest/jstest.js:211-215 | a normalized test (its array sorted) holding only ExpectsException markers is scheduled exactly once, at the end, expecting every constructor among them in order |
| SuiteProperties.OtherAttributesPushEach | jstest/jstest.js:217-219 | each unrecognised attribute adds the test once more, without removing it first, so an empty array adds nothing |
| SuiteProperties.BuildSpecKeepsNormalizedOrder | jstest/jstest.js:180-224 | the executable list is in normalization order (repeats allowed) |
| SuiteProperties.ProcessAttrsFrame | jstest/jstest.js:184-219 | walking the attributes of one test leaves every other test alone: it occurs in the executable list as often as before and expects the same kinds |
| SuiteProperties.ProcessTestFrame | jstest/jstest.js:180-223 | one iteration of the constructor's loop leaves every other test's occurrence count and expected kinds alone |
| SuiteProperties.BuildUpToFrame | jstest/jstest.js:180-223 | the iterations for other tests keep a test's occurrence count and expected kinds, and a build that succeeds at the end succeeded at every earlier test |
| SuiteProperties.TestReached | jstest/jstest.js:180-223 | in a successful build, a test is reached with no occurrence of its own in the list and its kinds as normalized, and what its own iteration leaves for it is what the finished suite holds |
| SuiteProperties.IgnoredTestNotInSuite | jstest/jstest.js:187-190 | in the finished suite, a test carrying Ignore (and no number below -1) never occurs among the executable tests and expects nothing new |
| SuiteProperties.HookOnlyTestNotInSuite | jstest/jstest.js:191-210 | in the finished suite, a test whose attributes are all lifecycle tags is not executable and each of its slots holds its procedure |
| SuiteProperties.ExpectOnlyTestOnceInSuite | jstest/jstest.js:211-215 | in the finished suite, a normalized test holding only ExpectsException markers occurs exactly once and expects every constructor among them, in order |
| SuiteProperties.PlainTestOnceInSuite | jstest/jstest.js:220-222 | in the finished suite, a test without attributes occurs exactly once and expects nothing new |
| Runner.Verdict | jstest/jstest.js:252-269 | a test passes exactly when it returns with nothing expected, or throws an expected constructor; a pass has an empty message; a return that was expected to throw fails with "Expected Exception(s): " and the names; any other exception fails with its own message |
| Runner.VerdictsPointwise | jstest/jstest.js:247-272 | the k-th result is the verdict on the k-th test |
| Runner.CountPassed | jstest/jstest.js:234-238 | the pass counter never exceeds the number of results |
| Runner.StepConsistent | jstest/jstest.js:248-271 | one iteration adds at most the next test's verdict, keeps the counters in agreement, and never finishes the run |
| Runner.RunUpToConsistent | jstest/jstest.js:247-272 | after k iterations the results are the verdicts on the first tests in order, and passed + failed is their number; a run still going has visited all k tests |
| Runner.RunSpecConsistent | jstest/jstest.js:230-277 | a run ends finished or aborted, with results in list order and counters that agree; a finished run has a verdict for every test |
| Runner.AbortPersists | jstest/jstest.js:245-271 | once a hook has thrown, no later test is called or reported |
| Runner.Judge | jstest/jstest.js:252-269 | the try/catch around one body gives the specified verdict |
| Runner.RunTest | jstest/jstest.js:248-271 | one iteration of the loop is the specified step |
| Runner.RunSuite | jstest/jstest.js:230-277 | `runSuite` produces the specified report: calls, results, counters and status |
| RunProperties.StepWhenHooksComplete | jstest/jstest.js:250-271 | with returning test hooks, one iteration adds the setup, body and teardown calls and one verdict |
| RunProperties.RunUpToWhenHooksComplete | jstest/jstest.js:247-272 | with all hooks returning, the loop calls setup, body and teardown for each test in order and records each verdict |
| RunProperties.RunWhenHooksComplete | jstest/jstest.js:230-277 | with all hooks returning: the suite setup runs once before any test and the suite teardown once after all; each body sits between a test setup and a test teardown; there is one verdict per test, in order; passed + failed is the number of tests; no body's exception stops the run |
| RunProperties.SuiteSetupRaises | jstest/jstest.js:245 | a throwing suite setup calls nothing else and reports nothing |
| RunProperties.TestSetupRaises | jstest/jstest.js:250 | a throwing test setup stops the run before the first body |
| RunProperties.TestTeardownRaises | jstest/jstest.js:271 | a throwing test teardown stops the run after the first test's verdict |
| RunProperties.AbortedIffHookRaises | jstest/jstest.js:245-274 | the run is aborted exactly when a hook that gets called throws |
| RunProperties.RunUpToIgnoresSuiteTeardown | jstest/jstest.js:247-272 | the loop never calls the suite teardown |
| RunProperties.FinishedRunFooter | jstest/jstest.js:68-80 | after a finished run, called at jstest/jstest.js:276, passed is the number of passing verdicts and passed + failed the number of executable tests; the footer reads "Passed: " + passes + " / " + tests + " = " + the cut percentage text + "%" |
| Stats.Percent | jstest/jstest.js:70-71 | 100 * passed / max(total, 1), between 0 and 100; an empty run gives 0 with no division by zero; all passing gives 100 |
| Stats.IndexOf | jstest/jstest.js:74 | the first position of the character, or -1 exactly when it does not occur |
| Stats.WholeNumberUntrimmed | jstest/jstest.js:74-76 | a text without a decimal point is shown unchanged |
| Stats.TrimKeepsPrefix | jstest/jstest.js:74-76 | cutting keeps a prefix, at most five characters long, and never rounds |
| Stats.OneOfFour | jstest/jstest.js:68-78 | one pass of four is 25 percent, shown as "Passed: 1 / 4 = 25%" |
| Stats.SevenOfTwentyFiveShown | jstest/jstest.js:74-76 | the host's 28.000000000000004 is shown as 28.00 |
| Stats.TwoOfThreeShown | jstest/jstest.js:74-76 | 66.66666666666666 is cut, not rounded, to 66.66 |
| Assertions.IsEqual | jstest/jstest.js:312-343 | returns exactly when the values are `===`-equal, and otherwise throws an AssertFailure |
| Assertions.IsEqualSameTypeUntagged | jstest/jstest.js:312-343 | values of the same type are shown without tags |
| Assertions.IsEqualDifferentTypesTagged | jstest/jstest.js:312-343 | values of different types always fail, and each side is tagged with its `(type)` unless it is an object, null or a function |
| Assertions.NotEqual | jstest/jstest.js:344-376 | returns exactly when the values are not `===`-equal, and otherwise throws an AssertFailure |
| Assertions.NotEqualNeverTagged | jstest/jstest.js:344-376 | notEqual's message never shows type tags |
| Assertions.NotNull | jstest/jstest.js:377-381 | returns exactly when the value is not null; undefined passes |
| Assertions.IsNull | jstest/jstest.js:382-386 | returns exactly when the value is null; the message shows the value |
| Assertions.IsTrue | jstest/jstest.js:387-391 | returns exactly for the boolean true, not for a truthy value |
| Assertions.IsFalse | jstest/jstest.js:392-396 | returns exactly for the boolean false, not for a falsy value |
| Assertions.NaNNeverEqual | jstest/jstest.js:312-376 | isEqual(NaN, NaN) fails and notEqual(NaN, NaN) passes |
| Assertions.ObjectsByIdentity | jstest/jstest.js:312-343 | two distinct objects with the same text are unequal, and are shown untagged |
| Assertions.NumberAgainstFunction | mytests.js:10-12 | isEqual(1, a function) tags only the number: "Expected <text> but received (number)1." |
| Jstest.Jstest | jstest/jstest.js:279-283 | `jstest(tests)` is normalization, construction and the run: the construction error, or the report |
| Jstest.PlainFunctionsRunInOrder | jstest/jstest.js:137-277 | for a map of plain functions, every function runs exactly once, in iteration order, between empty hooks, and gets the verdict on its body |
| Scenarios.ExpectingSuite | jstest/jstest.js:211-269 | a single entry of ExpectsException markers runs once, with the markers' constructors expected in order |
| Scenarios.ExpectedRangeErrorPasses | mytests.js:67-73 | a RangeError, when MyError or RangeError is expected, passes |
| Scenarios.UnexpectedErrorFails | mytests.js:60-66 | a plain Error is neither constructor, so the test fails with the error's message |
| Scenarios.MissingExceptionFails | mytests.js:93-99 | returning normally when exceptions are expected fails with "Expected Exception(s): MyError, RangeError" |
| Scenarios.AssertFailureIsNotError | mytests.js:86-91 | notEqual(1, 1) throws an AssertFailure; it does not match an expected Error, so the test fails with the assertion's message |
| Scenarios.IgnoredTestNeverRuns | mytests.js:44-51 | an ignored test is never called and never reported |
| Scenarios.TwoTestSetupsRejected | jstest/jstest.js:191-195 | two TestSetup tests make `jstest` throw "Cannot use more than one TestSetup attribute." before anything runs |

## Left out

- The DOM: `createContainer`, `addTestResult` and the footer write (jstest/jstest.js:31-65, 69, 79). They only render results. The model keeps the results and the footer text as values.
- The console shim (jstest/jstest.js:13-21), the `window.jstest` and `window.assert` exposure, and `jstest.container` (jstest/jstest.js:279-280, 305). These are environment plumbing.
- `jstest.Trace` (jstest/jstest.js:294-296). It reads a stack trace from the host.
- Stats.Percent: the value is exact, not an IEEE double. The decimal text the host prints for it (`+ ''`, jstest/jstest.js:71) is host formatting, so `Stats.Footer` takes that text as a parameter. Only the cut to five characters is modelled.
- Closures are not executed. A test body or hook is an `Outcome`: it returns, or it throws a kind with a message. Effects a hook has on shared state, and `this` inside hooks, are not modelled.
- Attributes.Attr: a numeric attribute is an integer. Fractional numbers and `NaN` as attributes are not modelled. `NaN` would make the comparator's `a - b` NaN, which the host's sort treats as equal.
- JsValues.ToStr: numbers are integers or NaN, and an object's or a function's string conversion is a text it carries. Floating-point numbers, `toString` overrides and `valueOf` are not modelled.
- An exception's kind is its constructor. Its `name` is the one an instance made by `new ctor()` would carry. Side effects of that constructor, and a constructor whose instances have no `name`, are not modelled (jstest/jstest.js:115). Neither is a thrown value without a `constructor`, such as `throw null`, on which the catch block itself throws (jstest/jstest.js:264).
- Normalizer.NormalizeSpec: a `null` or `undefined` map value, on which `tests[test].constructor` throws a TypeError (jstest/jstest.js:139), is not modelled. Neither is an array entry whose first element is not an array. `OtherShape` means any other non-null value, which is dropped.
- `attributes.sort` sorts the user's own array in place (jstest/jstest.js:149). The model sorts a value, so the aliasing of that array is not captured. For two non-numbers the comparator only ever answers "the first goes after", which is not a consistent order, so the result depends on the host's sort algorithm. The model inserts each element after the sorted prefix and moves it left only while the comparator puts it before its neighbour, which keeps non-numbers in their written order. `undefined` entries go to the end uncompared, as the language's sort does.
- `for ... in` visits the map's keys in the host's iteration order. The model takes that order as given: a definition map is a sequence of entries.
- SuiteBuilder.StepAttr: the TypeError raised by `attr.constructor` on a null or undefined attribute (jstest/jstest.js:211) is modelled as the error `AttributeTypeError`. Its message depends on the host and is not modelled.
- Runner.Join: the runner joins names that are always strings. Joining `undefined` or `null` entries is not modelled.
- `testAssertNotNull` in `mytests.js` (mytests.js:16-19) needs a DOM element. The model covers `notNull` on any object through `Assertions.NotNull`.

## Findings

| source | as written | input that shows it | evidently intended | confidence | as-written member | corrected member |
|---|---|---|---|---|---|---|
| jstest/jstest.js:290 | the suite-teardown tag is defined as `jstest.SutieTeardown = 4`, so `jstest.SuiteTeardown` (compared at jstest/jstest.js:206 and used at mytests.js:39) is `undefined` | the attribute `4` (the value users get from `jstest.SutieTeardown`) makes the test executable instead of the suite teardown, and any undefined attribute, such as a misspelt tag, installs the suite teardown | `jstest.SuiteTeardown = 4`, with 4 routed to the suite-teardown slot and `undefined` rejected like `null` | not executed | Attributes.AsWrittenSuiteTeardownMisroutes | Attributes.Classify |
