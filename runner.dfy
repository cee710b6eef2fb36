/**
 * Running a built suite: the suite setup, then for every executable test its
 * test setup, body and test teardown, then the suite teardown. A test body's
 * exception is caught and decides the verdict; a hook's exception is not
 * caught and ends the run. RunSpec states the run on values; RunSuite performs it.
 */
module Runner {
  import opened Wrappers
  import opened JsValues
  import opened TestRecord
  import opened SuiteBuilder

  /** A procedure the runner calls, in the order it calls them. */
  datatype Event =
    | SuiteSetupCalled
    | TestSetupCalled
    | BodyCalled(name: string)
    | TestTeardownCalled
    | SuiteTeardownCalled

  /** One line of output: the test's name, Passed!/Failed! and the message ("" on a pass). */
  datatype TestResult = TestResult(name: string, passed: bool, message: string)

  /**
   * Running: the loop is still going. Finished: the suite teardown returned and
   * the statistics are shown. Aborted: a hook threw and the exception left the run.
   */
  datatype Status = Running | Finished | Aborted(kind: Kind, message: string)

  datatype Report = Report(calls: seq<Event>, results: seq<TestResult>, passed: nat, failed: nat, status: Status)

  /** Calling a hook slot: an empty slot holds the empty function, which returns. */
  function Call(hook: Option<Outcome>): (o: Outcome)
    ensures hook.None? ==> o == Completes
    ensures hook.Some? ==> o == hook.value
  {
    if hook.None? then Completes else hook.value
  }

  /** `Array.prototype.join(sep)` on strings. */
  function Join(parts: seq<string>, sep: string): string
  {
    if parts == [] then ""
    else if |parts| == 1 then parts[0]
    else parts[0] + sep + Join(parts[1..], sep)
  }

  /** The failure message of a test that returned although it expects exceptions. */
  function ExpectedMessage(expected: seq<Kind>): string
  {
    "Expected Exception(s): " + Join(Names(expected), ", ")
  }

  /** The verdict on one test body. */
  function Verdict(v: TestView): (r: TestResult)
    ensures r.name == v.name
    ensures r.passed <==>
      (v.body.Completes? && v.expected == []) || (v.body.Raises? && v.body.kind in v.expected)
    ensures r.passed ==> r.message == ""
    ensures !r.passed && v.body.Completes? ==> r.message == ExpectedMessage(v.expected)
    ensures !r.passed && v.body.Raises? ==> r.message == v.body.message
  {
    match v.body
    case Completes =>
      if |v.expected| > 0 then TestResult(v.name, false, ExpectedMessage(v.expected))
      else TestResult(v.name, true, "")
    case Raises(kind, message) =>
      if kind in v.expected then TestResult(v.name, true, "")
      else TestResult(v.name, false, message)
  }

  /** The verdicts on the tests `vs`, in order. */
  function Verdicts(vs: seq<TestView>): (rs: seq<TestResult>)
    ensures |rs| == |vs|
  {
    if vs == [] then [] else Verdicts(vs[..|vs| - 1]) + [Verdict(vs[|vs| - 1])]
  }

  /** The `k`-th result is the verdict on the `k`-th test. */
  lemma {:induction false} VerdictsPointwise(vs: seq<TestView>)
    ensures forall k :: 0 <= k < |vs| ==> Verdicts(vs)[k] == Verdict(vs[k])
    decreases |vs|
  {
    if vs != [] {
      VerdictsPointwise(vs[..|vs| - 1]);
    }
  }

  /** How many results are passes. */
  function CountPassed(rs: seq<TestResult>): (n: nat)
    ensures n <= |rs|
  {
    if rs == [] then 0
    else CountPassed(rs[..|rs| - 1]) + (if rs[|rs| - 1].passed then 1 else 0)
  }

  /** The run before the loop: the suite setup is called. */
  function Start(h: Hooks): Report
  {
    match Call(h.suiteSetup)
    case Raises(kind, message) => Report([SuiteSetupCalled], [], 0, 0, Aborted(kind, message))
    case Completes => Report([SuiteSetupCalled], [], 0, 0, Running)
  }

  /** One iteration of the loop for the test `v`. */
  function Step(h: Hooks, r: Report, v: TestView): Report
  {
    var calls := r.calls + [TestSetupCalled];
    match Call(h.testSetup)
    case Raises(kind, message) => r.(calls := calls, status := Aborted(kind, message))
    case Completes =>
      var res := Verdict(v);
      var judged := r.(calls := calls + [BodyCalled(v.name), TestTeardownCalled],
                       results := r.results + [res],
                       passed := if res.passed then r.passed + 1 else r.passed,
                       failed := if res.passed then r.failed else r.failed + 1);
      match Call(h.testTeardown)
      case Raises(kind, message) => judged.(status := Aborted(kind, message))
      case Completes => judged
  }

  /** The results are the verdicts on a prefix of `views`, in order, and the counters agree with them. */
  predicate Consistent(views: seq<TestView>, r: Report)
  {
    |r.results| <= |views| &&
    r.results == Verdicts(views[..|r.results|]) &&
    r.passed == CountPassed(r.results) && r.passed + r.failed == |r.results|
  }

  /** An iteration over the next test keeps the report consistent, adding at most that test's verdict. */
  lemma StepConsistent(h: Hooks, views: seq<TestView>, p: Report)
    requires Consistent(views, p) && |p.results| < |views| && p.status == Running
    ensures Consistent(views, Step(h, p, views[|p.results|]))
    ensures Step(h, p, views[|p.results|]).status != Finished
    ensures |Step(h, p, views[|p.results|]).results| <= |p.results| + 1
    ensures Step(h, p, views[|p.results|]).status == Running ==>
      |Step(h, p, views[|p.results|]).results| == |p.results| + 1
  {
    var k := |p.results|;
    var r := Step(h, p, views[k]);
    if r.results != p.results {
      assert r.results == p.results + [Verdict(views[k])];
      assert r.results[..k] == p.results;
      assert views[..k + 1][..k] == views[..k];
    }
  }

  /** The run after the loop has visited the first `k` tests. */
  function RunUpTo(h: Hooks, views: seq<TestView>, k: nat): Report
    requires k <= |views|
  {
    if k == 0 then Start(h)
    else
      var p := RunUpTo(h, views, k - 1);
      if p.status != Running then p else Step(h, p, views[k - 1])
  }

  /**
   * After `k` iterations the run is still going or aborted, never finished;
   * its results are the verdicts on the first tests, one per test visited,
   * and a run still going has visited all `k`.
   */
  lemma {:induction false} RunUpToConsistent(h: Hooks, views: seq<TestView>, k: nat)
    requires k <= |views|
    ensures RunUpTo(h, views, k).status != Finished
    ensures Consistent(views, RunUpTo(h, views, k))
    ensures |RunUpTo(h, views, k).results| <= k
    ensures RunUpTo(h, views, k).status == Running ==> |RunUpTo(h, views, k).results| == k
  {
    if k == 0 {
      assert views[..0] == [];
    } else {
      RunUpToConsistent(h, views, k - 1);
      var p := RunUpTo(h, views, k - 1);
      if p.status == Running {
        StepConsistent(h, views, p);
      }
    }
  }

  /** The run after the loop: the suite teardown is called. */
  function Finish(h: Hooks, r: Report): Report
  {
    var calls := r.calls + [SuiteTeardownCalled];
    match Call(h.suiteTeardown)
    case Raises(kind, message) => r.(calls := calls, status := Aborted(kind, message))
    case Completes => r.(calls := calls, status := Finished)
  }

  /** `runSuite`: the whole run, which either finishes or is aborted by a hook. */
  function RunSpec(h: Hooks, views: seq<TestView>): Report
  {
    var p := RunUpTo(h, views, |views|);
    if p.status == Running then Finish(h, p) else p
  }

  /**
   * A run ends finished or aborted; its results are the verdicts on the
   * tests it reached, in order, with counters that agree, and a finished
   * run has a verdict for every test.
   */
  lemma RunSpecConsistent(h: Hooks, views: seq<TestView>)
    ensures RunSpec(h, views).status != Running
    ensures Consistent(views, RunSpec(h, views))
    ensures RunSpec(h, views).status == Finished ==> RunSpec(h, views).results == Verdicts(views)
  {
    RunUpToConsistent(h, views, |views|);
    assert views[..|views|] == views;
  }

  /** Once a hook has thrown, later iterations change nothing. */
  lemma {:induction false} AbortPersists(h: Hooks, views: seq<TestView>, k: nat, n: nat)
    requires k <= n <= |views|
    requires RunUpTo(h, views, k).status.Aborted?
    ensures RunUpTo(h, views, n) == RunUpTo(h, views, k)
    decreases n - k
  {
    if k < n {
      AbortPersists(h, views, k, n - 1);
    }
  }

  /** The try/catch around one test body: pass or fail, with the message. */
  method Judge(t: Test) returns (res: TestResult)
    ensures res == Verdict(t.View())
  {
    var body := t.body;
    if body.Completes? {
      var any := t.ExpectsAnyException();
      if any {
        var list := t.GetExpectedExceptionList();
        assert list == Names(t.expectedExceptions);
        res := TestResult(t.name, false, "Expected Exception(s): " + Join(list, ", "));
      } else {
        res := TestResult(t.name, true, "");
      }
    } else {
      var found := t.ExpectsException(body.kind);
      if found {
        res := TestResult(t.name, true, "");
      } else {
        res := TestResult(t.name, false, body.message);
      }
    }
  }

  /** One iteration of the loop: test setup, body (under try/catch), verdict, test teardown. */
  method RunTest(suite: Suite, t: Test, r: Report) returns (next: Report)
    ensures next == Step(suite.CurrentHooks(), r, t.View())
  {
    var calls := r.calls + [TestSetupCalled];
    var o := Call(suite.testSetup);
    if o.Raises? {
      return r.(calls := calls, status := Aborted(o.kind, o.message));
    }
    calls := calls + [BodyCalled(t.name)];
    var res := Judge(t);
    var passed, failed := r.passed, r.failed;
    if res.passed {
      passed := passed + 1;
    } else {
      failed := failed + 1;
    }
    calls := calls + [TestTeardownCalled];
    next := r.(calls := calls, results := r.results + [res], passed := passed, failed := failed);
    o := Call(suite.testTeardown);
    if o.Raises? {
      next := next.(status := Aborted(o.kind, o.message));
    }
  }

  /** `runSuite(suite)`: calls the hooks and the bodies and records each verdict. */
  method RunSuite(suite: Suite) returns (report: Report)
    ensures report == RunSpec(suite.CurrentHooks(), Views(suite.tests))
  {
    ghost var h := suite.CurrentHooks();
    ghost var views := Views(suite.tests);
    var o := Call(suite.suiteSetup);
    if o.Raises? {
      AbortPersists(h, views, 0, |views|);
      return Report([SuiteSetupCalled], [], 0, 0, Aborted(o.kind, o.message));
    }
    report := Report([SuiteSetupCalled], [], 0, 0, Running);
    for k := 0 to |suite.tests|
      invariant report == RunUpTo(h, views, k) && report.status == Running
    {
      report := RunTest(suite, suite.tests[k], report);
      if report.status != Running {
        AbortPersists(h, views, k + 1, |views|);
        assert RunSpec(h, views) == RunUpTo(h, views, |views|);
        return;
      }
    }
    assert RunSpec(h, views) == Finish(h, RunUpTo(h, views, |views|));
    var calls := report.calls + [SuiteTeardownCalled];
    o := Call(suite.suiteTeardown);
    if o.Raises? {
      return report.(calls := calls, status := Aborted(o.kind, o.message));
    }
    return report.(calls := calls, status := Finished);
  }
}
