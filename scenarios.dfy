/** Single-entry suites taken from the repository's example test file, and what jstest reports for them. */
module Scenarios {
  import opened Wrappers
  import opened JsValues
  import opened Attributes
  import opened TestRecord
  import opened Normalizer
  import opened SuiteBuilder
  import opened Runner
  import opened RunProperties
  import opened SuiteProperties
  import opened Assertions
  import opened Seqs
  import opened Jstest

  /** The example file's own exception constructor, whose instances are named "MyError". */
  const MyError: Kind := Kind(3, "MyError")

  /** The calls of a run over one executable test named `name`, with every hook empty. */
  function OneTestCalls(name: string): seq<Event>
  {
    [SuiteSetupCalled, TestSetupCalled, BodyCalled(name), TestTeardownCalled, SuiteTeardownCalled]
  }

  /** Sorting a one-element attribute array leaves it as it is. */
  lemma SortSingleton(a: Attr)
    ensures SortAttributes([a]) == [a]
  {
    var r := SortAttributes([a]);
    assert |r| == |multiset(r)| == 1;
    assert r[0] in multiset([a]);
  }

  /** A one-entry map normalizes to that entry's Test. */
  lemma NormalizeOne(e: Entry)
    ensures NormalizeSpec([e]) == NormalizeEntry(e)
  {
    assert [e][..0] == [];
  }

  /** Building a one-test suite is processing that test from the initial state. */
  lemma BuildOne(v: TestView)
    ensures BuildSpec([v]) == ProcessTest(InitialState([v]), 0, v)
  {
    assert BuildUpTo([v], 0) == Ok(InitialState([v]));
  }

  /** Running no test with every hook empty: only the two suite hooks are called. */
  lemma RunEmpty()
    ensures RunSpec(NoHooks, []) == Report([SuiteSetupCalled, SuiteTeardownCalled], [], 0, 0, Finished)
  {
    assert RunUpTo(NoHooks, [], 0) == Start(NoHooks);
  }

  lemma CountOne(r: TestResult)
    ensures CountPassed([r]) == if r.passed then 1 else 0
  {
    assert [r][..0] == [];
  }

  /** Running a single test with every hook empty. */
  lemma RunOne(v: TestView)
    ensures RunSpec(NoHooks, [v]) ==
      Report(OneTestCalls(v.name), [Verdict(v)], if Verdict(v).passed then 1 else 0,
             if Verdict(v).passed then 0 else 1, Finished)
  {
    CountOne(Verdict(v));
    assert HooksComplete(NoHooks);
    RunWhenHooksComplete(NoHooks, [v]);
    assert [v][..0] == [];
    assert TestCalls([v]) == [TestSetupCalled, BodyCalled(v.name), TestTeardownCalled];
    assert Verdicts([v]) == [Verdict(v)];
  }

  /** A one-entry map of ExpectsException markers normalizes to one Test with the markers unchanged. */
  lemma NormalizeMarks(name: string, marks: seq<Attr>, body: Outcome)
    requires forall k :: 0 <= k < |marks| ==> marks[k].Expect?
    ensures NormalizeSpec([(name, Attributed(marks, body))]) == [TestView(name, body, Some(marks), [])]
  {
    NormalizeOne((name, Attributed(marks, body)));
    SortAttributesMarkersUnchanged(marks);
  }

  /** Building from that Test: no hook, the test once, expecting the markers' constructors. */
  lemma BuildMarks(v: TestView, marks: seq<Attr>)
    requires |marks| >= 1 && forall k :: 0 <= k < |marks| ==> marks[k].Expect?
    requires v.attributes == Some(marks) && v.expected == []
    ensures BuildSpec([v]) == Ok(BuildState(NoHooks, [0], [CtorKinds(Args(marks))]))
  {
    BuildOne(v);
    var st0 := InitialState([v]);
    assert st0 == BuildState(NoHooks, [], [[]]);
    SortAttributesMarkersUnchanged(marks);
    ExpectOnlyTestScheduledOnce(st0, 0, v, marks);
    assert Remove(st0.order, 0) == [];
    SingleExpectedList(CtorKinds(Args(marks)));
  }

  lemma SingleExpectedList(kinds: seq<Kind>)
    ensures BuildState(NoHooks, [], [[]]).(order := [] + [0], expected := [[]][0 := [] + kinds]) ==
      BuildState(NoHooks, [0], [kinds])
  {
    assert [] + kinds == kinds;
    assert [[]][0 := kinds] == [kinds];
  }

  lemma ScheduledOne(v: TestView, kinds: seq<Kind>)
    ensures Scheduled([v], BuildState(NoHooks, [0], [kinds])) == [v.(expected := kinds)]
  {
  }

  /**
   * A single entry whose attributes are all ExpectsException markers runs
   * once, with the markers' constructors expected in order.
   */
  lemma ExpectingSuite(name: string, marks: seq<Attr>, body: Outcome)
    requires |marks| >= 1 && forall k :: 0 <= k < |marks| ==> marks[k].Expect?
    ensures var v := TestView(name, body, Some(marks), CtorKinds(Args(marks)));
      JstestSpec([(name, Attributed(marks, body))]) ==
      Ok(Report(OneTestCalls(name), [Verdict(v)], if Verdict(v).passed then 1 else 0,
                if Verdict(v).passed then 0 else 1, Finished))
  {
    var v := TestView(name, body, Some(marks), []);
    var kinds := CtorKinds(Args(marks));
    NormalizeMarks(name, marks, body);
    BuildMarks(v, marks);
    JstestOf([(name, Attributed(marks, body))], [v], BuildState(NoHooks, [0], [kinds]));
    ScheduledOne(v, kinds);
    RunOne(v.(expected := kinds));
  }

  lemma JoinTwo(a: string, b: string, sep: string)
    ensures Join([a, b], sep) == a + sep + b
  {
    assert [a, b][1..] == [b];
  }

  /** The kinds expected after ExpectsException(MyError), ExpectsException(RangeError). */
  lemma MyErrorOrRangeError()
    ensures CtorKinds(Args([Expect(Ctor(MyError)), Expect(Ctor(RangeError))])) == [MyError, RangeError]
  {
    var marks := [Expect(Ctor(MyError)), Expect(Ctor(RangeError))];
    assert marks[1..][1..] == [];
    assert Args(marks) == [Ctor(MyError), Ctor(RangeError)];
    var args := [Ctor(MyError), Ctor(RangeError)];
    assert args[1..] == [Ctor(RangeError)] && args[1..][1..] == [];
    assert ExpectedAfter([], Ctor(MyError)) == [MyError];
    assert ExpectedAfter([], Ctor(RangeError)) == [RangeError];
    assert CtorKinds([Ctor(RangeError)]) == [RangeError] + [];
    assert CtorKinds(args) == [MyError] + [RangeError];
  }

  /** A one-entry suite of ExpectsException markers, once its expected kinds and verdict are known. */
  lemma ExpectingSuiteResult(name: string, marks: seq<Attr>, body: Outcome, kinds: seq<Kind>, r: TestResult)
    requires |marks| >= 1 && forall k :: 0 <= k < |marks| ==> marks[k].Expect?
    requires CtorKinds(Args(marks)) == kinds
    requires Verdict(TestView(name, body, Some(marks), kinds)) == r
    ensures JstestSpec([(name, Attributed(marks, body))]) ==
      Ok(Report(OneTestCalls(name), [r], if r.passed then 1 else 0, if r.passed then 0 else 1, Finished))
  {
    ExpectingSuite(name, marks, body);
  }

  /** `testAttributeExpectedException1_PASS`: a RangeError when MyError or RangeError is expected passes. */
  lemma ExpectedRangeErrorPasses(name: string, message: string)
    ensures JstestSpec([(name, Attributed([Expect(Ctor(MyError)), Expect(Ctor(RangeError))],
                                          Raises(RangeError, message)))]) ==
      Ok(Report(OneTestCalls(name), [TestResult(name, true, "")], 1, 0, Finished))
  {
    MyErrorOrRangeError();
    ExpectingSuiteResult(name, [Expect(Ctor(MyError)), Expect(Ctor(RangeError))], Raises(RangeError, message),
                         [MyError, RangeError], TestResult(name, true, ""));
  }

  /** `testAttributeExpectedException2_FAIL`: a plain Error is neither constructor and fails with its message. */
  lemma UnexpectedErrorFails(name: string, message: string)
    ensures JstestSpec([(name, Attributed([Expect(Ctor(MyError)), Expect(Ctor(RangeError))],
                                          Raises(Error, message)))]) ==
      Ok(Report(OneTestCalls(name), [TestResult(name, false, message)], 0, 1, Finished))
  {
    MyErrorOrRangeError();
    ExpectingSuiteResult(name, [Expect(Ctor(MyError)), Expect(Ctor(RangeError))], Raises(Error, message),
                         [MyError, RangeError], TestResult(name, false, message));
  }

  /** The message listing MyError and RangeError. */
  lemma MyErrorOrRangeErrorMessage()
    ensures ExpectedMessage([MyError, RangeError]) == "Expected Exception(s): " + "MyError" + ", " + "RangeError"
  {
    assert Names([MyError, RangeError]) == ["MyError", "RangeError"];
    JoinTwo("MyError", "RangeError", ", ");
  }

  /** `testExpectsException_FAIL`: returning normally when exceptions are expected fails and lists them. */
  lemma MissingExceptionFails(name: string)
    ensures JstestSpec([(name, Attributed([Expect(Ctor(MyError)), Expect(Ctor(RangeError))], Completes))]) ==
      Ok(Report(OneTestCalls(name),
                [TestResult(name, false, "Expected Exception(s): " + "MyError" + ", " + "RangeError")], 0, 1, Finished))
  {
    MyErrorOrRangeError();
    MyErrorOrRangeErrorMessage();
    ExpectingSuiteResult(name, [Expect(Ctor(MyError)), Expect(Ctor(RangeError))], Completes,
                         [MyError, RangeError], TestResult(name, false, ExpectedMessage([MyError, RangeError])));
  }

  /** The kinds expected after ExpectsException(Error). */
  lemma ErrorOnly()
    ensures CtorKinds(Args([Expect(Ctor(Error))])) == [Error]
  {
    assert [Expect(Ctor(Error))][1..] == [];
    assert Args([Expect(Ctor(Error))]) == [Ctor(Error)];
    assert [Ctor(Error)][1..] == [];
  }

  /**
   * `testNotEqual_FAIL`: notEqual(1, 1) throws an AssertFailure, which is not
   * the expected Error, so the test fails with the assertion's message.
   */
  lemma AssertFailureIsNotError(name: string)
    ensures JstestSpec([(name, Attributed([Expect(Ctor(Error))], NotEqual(Number(1), Number(1))))]) ==
      Ok(Report(OneTestCalls(name),
                [TestResult(name, false, "Values should not be equal: " + "1" + " and " + "1" + ".")], 0, 1, Finished))
  {
    NotEqualNeverTagged(Number(1), Number(1));
    assert ToStr(Number(1)) == "1";
    ErrorOnly();
    ExpectingSuiteResult(name, [Expect(Ctor(Error))], NotEqual(Number(1), Number(1)),
                         [Error], TestResult(name, false, "Values should not be equal: " + "1" + " and " + "1" + "."));
  }

  /** `testAttributeIgnore`: an ignored test is never called and never reported, whatever its body does. */
  lemma IgnoredTestNeverRuns(name: string, body: Outcome)
    ensures JstestSpec([(name, Attributed([Ignore], body))]) ==
      Ok(Report([SuiteSetupCalled, SuiteTeardownCalled], [], 0, 0, Finished))
  {
    var e := (name, Attributed([Ignore], body));
    NormalizeOne(e);
    SortSingleton(Ignore);
    var v := TestView(name, body, Some([Ignore]), []);
    assert NormalizeSpec([e]) == [v];
    BuildOne(v);
    assert BuildSpec([v]) == Ok(InitialState([v]));
    JstestOf([e], [v], InitialState([v]));
    assert Scheduled([v], InitialState([v])) == [];
    RunEmpty();
  }

  lemma NormalizeTwoSetups(a: Outcome, b: Outcome)
    ensures NormalizeSpec([("setupA", Attributed([TestSetup], a)), ("setupB", Attributed([TestSetup], b))]) ==
      [TestView("setupA", a, Some([TestSetup]), []), TestView("setupB", b, Some([TestSetup]), [])]
  {
    var defs := [("setupA", Attributed([TestSetup], a)), ("setupB", Attributed([TestSetup], b))];
    SortSingleton(TestSetup);
    assert defs[..1] == [defs[0]];
    NormalizeOne(defs[0]);
  }

  /** The second of two TestSetup tests finds the slot taken. */
  lemma BuildTwoSetups(views: seq<TestView>, a: Outcome, b: Outcome)
    requires views == [TestView("setupA", a, Some([TestSetup]), []), TestView("setupB", b, Some([TestSetup]), [])]
    ensures BuildSpec(views) == Err(DuplicateHook(TestSetupSlot))
  {
    var st0 := InitialState(views);
    var st1 := st0.(hooks := NoHooks.(testSetup := Some(a)));
    assert Classify(TestSetup) == Fill(TestSetupSlot);
    assert BuildUpTo(views, 0) == Ok(st0);
    assert StepAttr(st0, 0, a, TestSetup) == Ok(st1);
    assert ProcessAttrs(st0, 0, a, [TestSetup]) == ProcessAttrs(st1, 0, a, []);
    assert BuildUpTo(views, 1) == Ok(st1);
  }

  /** Two tests tagged TestSetup: construction throws "Cannot use more than one TestSetup attribute.". */
  lemma TwoTestSetupsRejected(a: Outcome, b: Outcome)
    ensures JstestSpec([("setupA", Attributed([TestSetup], a)), ("setupB", Attributed([TestSetup], b))]) ==
      Err(DuplicateHook(TestSetupSlot))
    ensures DuplicateMessage(TestSetupSlot) == "Cannot use more than one " + "TestSetup" + " attribute."
  {
    NormalizeTwoSetups(a, b);
    BuildTwoSetups(NormalizeSpec([("setupA", Attributed([TestSetup], a)), ("setupB", Attributed([TestSetup], b))]), a, b);
  }
}
