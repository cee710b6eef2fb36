/** What a run promises: the order of calls, which hooks end it, and what is reported. */
module RunProperties {
  import opened Wrappers
  import opened JsValues
  import opened TestRecord
  import opened SuiteBuilder
  import opened Runner
  import opened Stats

  /** The calls made for the tests `vs` when every test hook returns. */
  function TestCalls(vs: seq<TestView>): seq<Event>
  {
    if vs == [] then []
    else TestCalls(vs[..|vs| - 1]) + [TestSetupCalled, BodyCalled(vs[|vs| - 1].name), TestTeardownCalled]
  }

  /** Every one of the four hooks returns. */
  predicate HooksComplete(h: Hooks)
  {
    Call(h.suiteSetup).Completes? && Call(h.testSetup).Completes? &&
    Call(h.testTeardown).Completes? && Call(h.suiteTeardown).Completes?
  }

  /** One iteration when the test hooks return: three calls and one verdict are added. */
  lemma StepWhenHooksComplete(h: Hooks, r: Report, v: TestView)
    requires Call(h.testSetup).Completes? && Call(h.testTeardown).Completes?
    ensures Step(h, r, v) ==
      r.(calls := r.calls + [TestSetupCalled, BodyCalled(v.name), TestTeardownCalled],
         results := r.results + [Verdict(v)],
         passed := r.passed + (if Verdict(v).passed then 1 else 0),
         failed := r.failed + (if Verdict(v).passed then 0 else 1))
  {
    assert r.calls + [TestSetupCalled] + [BodyCalled(v.name), TestTeardownCalled] ==
      r.calls + [TestSetupCalled, BodyCalled(v.name), TestTeardownCalled];
  }

  /** Extending the prefix of visited tests by one test. */
  lemma PrefixSnoc(views: seq<TestView>, k: nat)
    requires 0 < k <= |views|
    ensures Verdicts(views[..k]) == Verdicts(views[..k - 1]) + [Verdict(views[k - 1])]
    ensures CountPassed(Verdicts(views[..k])) ==
      CountPassed(Verdicts(views[..k - 1])) + (if Verdict(views[k - 1]).passed then 1 else 0)
    ensures TestCalls(views[..k]) ==
      TestCalls(views[..k - 1]) + [TestSetupCalled, BodyCalled(views[k - 1].name), TestTeardownCalled]
  {
    var vs := Verdicts(views[..k]);
    assert views[..k][..k - 1] == views[..k - 1];
    assert vs[..k - 1] == Verdicts(views[..k - 1]);
  }

  lemma {:induction false} RunUpToWhenHooksComplete(h: Hooks, views: seq<TestView>, k: nat)
    requires k <= |views|
    requires HooksComplete(h)
    ensures RunUpTo(h, views, k) ==
      Report([SuiteSetupCalled] + TestCalls(views[..k]), Verdicts(views[..k]),
             CountPassed(Verdicts(views[..k])), k - CountPassed(Verdicts(views[..k])), Running)
  {
    if k == 0 {
      assert views[..0] == [];
    } else {
      RunUpToWhenHooksComplete(h, views, k - 1);
      var p := RunUpTo(h, views, k - 1);
      var v := views[k - 1];
      assert RunUpTo(h, views, k) == Step(h, p, v);
      StepWhenHooksComplete(h, p, v);
      PrefixSnoc(views, k);
      var calls := [TestSetupCalled, BodyCalled(v.name), TestTeardownCalled];
      assert [SuiteSetupCalled] + TestCalls(views[..k - 1]) + calls == [SuiteSetupCalled] + TestCalls(views[..k]);
    }
  }

  /**
   * When every hook returns, the run finishes: the suite setup, then for each
   * test its setup, body and teardown in order, then the suite teardown; one
   * verdict per test in order, and the counters add up to the number of tests.
   */
  lemma RunWhenHooksComplete(h: Hooks, views: seq<TestView>)
    requires HooksComplete(h)
    ensures RunSpec(h, views) ==
      Report([SuiteSetupCalled] + TestCalls(views) + [SuiteTeardownCalled], Verdicts(views),
             CountPassed(Verdicts(views)), |views| - CountPassed(Verdicts(views)), Finished)
  {
    RunUpToWhenHooksComplete(h, views, |views|);
    assert views[..|views|] == views;
  }

  /** A throwing suite setup: nothing else is called and no test is reported. */
  lemma SuiteSetupRaises(h: Hooks, views: seq<TestView>)
    requires Call(h.suiteSetup).Raises?
    ensures RunSpec(h, views) ==
      Report([SuiteSetupCalled], [], 0, 0, Aborted(Call(h.suiteSetup).kind, Call(h.suiteSetup).message))
  {
    AbortPersists(h, views, 0, |views|);
  }

  /** A throwing test setup: the first test's body is never called and nothing is reported. */
  lemma TestSetupRaises(h: Hooks, views: seq<TestView>)
    requires Call(h.suiteSetup).Completes? && Call(h.testSetup).Raises?
    requires |views| > 0
    ensures RunSpec(h, views) ==
      Report([SuiteSetupCalled, TestSetupCalled], [], 0, 0,
             Aborted(Call(h.testSetup).kind, Call(h.testSetup).message))
  {
    AbortPersists(h, views, 1, |views|);
  }

  /** A throwing test teardown: the first test is reported and no other test is called. */
  lemma TestTeardownRaises(h: Hooks, views: seq<TestView>)
    requires Call(h.suiteSetup).Completes? && Call(h.testSetup).Completes? && Call(h.testTeardown).Raises?
    requires |views| > 0
    ensures RunSpec(h, views).results == [Verdict(views[0])]
    ensures RunSpec(h, views).calls == [SuiteSetupCalled, TestSetupCalled, BodyCalled(views[0].name), TestTeardownCalled]
    ensures RunSpec(h, views).status == Aborted(Call(h.testTeardown).kind, Call(h.testTeardown).message)
  {
    AbortPersists(h, views, 1, |views|);
  }

  /**
   * The run is aborted exactly when a hook that is called throws: the suite
   * setup, the test hooks when there is a test, or the suite teardown. A
   * test body's exception never ends the run.
   */
  lemma AbortedIffHookRaises(h: Hooks, views: seq<TestView>)
    ensures RunSpec(h, views).status.Aborted? <==>
      Call(h.suiteSetup).Raises? ||
      (|views| > 0 && (Call(h.testSetup).Raises? || Call(h.testTeardown).Raises?)) ||
      Call(h.suiteTeardown).Raises?
  {
    if Call(h.suiteSetup).Raises? {
      SuiteSetupRaises(h, views);
    } else if |views| > 0 && Call(h.testSetup).Raises? {
      TestSetupRaises(h, views);
    } else if |views| > 0 && Call(h.testTeardown).Raises? {
      TestTeardownRaises(h, views);
    } else if |views| == 0 {
      assert RunUpTo(h, views, 0) == Start(h);
    } else {
      assert HooksComplete(h.(suiteTeardown := None));
      RunUpToWhenHooksComplete(h.(suiteTeardown := None), views, |views|);
      RunUpToIgnoresSuiteTeardown(h, views, |views|);
    }
  }

  /** The loop never calls the suite teardown. */
  lemma {:induction false} RunUpToIgnoresSuiteTeardown(h: Hooks, views: seq<TestView>, k: nat)
    requires k <= |views|
    ensures RunUpTo(h, views, k) == RunUpTo(h.(suiteTeardown := None), views, k)
  {
    if k > 0 {
      RunUpToIgnoresSuiteTeardown(h, views, k - 1);
      var p := RunUpTo(h, views, k - 1);
      assert Step(h, p, views[k - 1]) == Step(h.(suiteTeardown := None), p, views[k - 1]);
    }
  }

  /**
   * The footer `updateStats` writes once a run has finished: the number of
   * passing verdicts out of the number of executable tests. With the
   * counters adding up to that number, Percent's contract makes the
   * percentage exactly the share of passing tests. An aborted run never
   * reaches `updateStats`.
   */
  lemma FinishedRunFooter(h: Hooks, views: seq<TestView>, r: Report, percentText: string)
    requires r == RunSpec(h, views) && r.status == Finished
    ensures r.passed == CountPassed(Verdicts(views))
    ensures r.passed + r.failed == |views|
    ensures Footer(r.passed, r.failed, percentText) ==
      "Passed: " + NatToString(CountPassed(Verdicts(views))) + " / " + NatToString(|views|) +
      " = " + TrimPercent(percentText) + "%"
  {
    RunSpecConsistent(h, views);
    var n := r.passed + r.failed;
    assert n == |views|;
    assert Footer(r.passed, r.failed, percentText) ==
      "Passed: " + NatToString(r.passed) + " / " + NatToString(n) + " = " + TrimPercent(percentText) + "%";
  }
}
