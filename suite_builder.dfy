/**
 * The Suite builder: walks each normalized Test's sorted attributes, fills the
 * four hook slots, attaches expected exceptions and collects the executable
 * tests. BuildSpec states the construction on values; class Suite performs it.
 */
module SuiteBuilder {
  import opened Wrappers
  import opened JsValues
  import opened Seqs
  import opened Attributes
  import opened TestRecord
  import opened Normalizer

  /** The procedure in each hook slot; None is the shared empty function. */
  datatype Hooks = Hooks(
    testSetup: Option<Outcome>,
    testTeardown: Option<Outcome>,
    suiteSetup: Option<Outcome>,
    suiteTeardown: Option<Outcome>)

  const NoHooks: Hooks := Hooks(None, None, None, None)

  function HookAt(h: Hooks, s: Slot): Option<Outcome>
  {
    match s
    case TestSetupSlot => h.testSetup
    case TestTeardownSlot => h.testTeardown
    case SuiteSetupSlot => h.suiteSetup
    case SuiteTeardownSlot => h.suiteTeardown
  }

  function SetHook(h: Hooks, s: Slot, body: Outcome): (r: Hooks)
    ensures HookAt(r, s) == Some(body)
    ensures forall s' :: s' != s ==> HookAt(r, s') == HookAt(h, s')
  {
    match s
    case TestSetupSlot => h.(testSetup := Some(body))
    case TestTeardownSlot => h.(testTeardown := Some(body))
    case SuiteSetupSlot => h.(suiteSetup := Some(body))
    case SuiteTeardownSlot => h.(suiteTeardown := Some(body))
  }

  function SlotName(s: Slot): string
  {
    match s
    case TestSetupSlot => "TestSetup"
    case TestTeardownSlot => "TestTeardown"
    case SuiteSetupSlot => "SuiteSetup"
    case SuiteTeardownSlot => "SuiteTeardown"
  }

  /** Why construction throws: a second test for one hook slot, or a null/undefined attribute. */
  datatype BuildError = DuplicateHook(slot: Slot) | AttributeTypeError

  /** The message of the `Error` thrown for a second hook of the same slot. */
  function DuplicateMessage(s: Slot): string
  {
    "Cannot use more than one " + SlotName(s) + " attribute."
  }

  /**
   * The builder's state: the hooks, the executable list as indices into the
   * normalized tests, and each normalized test's expected kinds.
   */
  datatype BuildState = BuildState(hooks: Hooks, order: seq<nat>, expected: seq<seq<Kind>>)

  /** One attribute other than Ignore, applied to test `i` (procedure `body`). */
  function StepAttr(st: BuildState, i: nat, body: Outcome, a: Attr): (r: Result<BuildState, BuildError>)
    requires i < |st.expected|
    ensures r.Ok? ==> |r.value.expected| == |st.expected|
  {
    match Classify(a)
    case Stop => Ok(st)
    case Fill(slot) =>
      if HookAt(st.hooks, slot).Some? then Err(DuplicateHook(slot))
      else Ok(st.(hooks := SetHook(st.hooks, slot, body)))
    case ExpectKind(arg) =>
      Ok(st.(order := Remove(st.order, i) + [i],
             expected := st.expected[i := ExpectedAfter(st.expected[i], arg)]))
    case Push => Ok(st.(order := st.order + [i]))
    case Crash => Err(AttributeTypeError)
  }

  /** Processes the attributes of test `i` from the front, stopping at the first Ignore or error. */
  function ProcessAttrs(st: BuildState, i: nat, body: Outcome, attrs: seq<Attr>): (r: Result<BuildState, BuildError>)
    requires i < |st.expected|
    ensures r.Ok? ==> |r.value.expected| == |st.expected|
    decreases |attrs|
  {
    if attrs == [] || attrs[0] == Ignore then Ok(st)
    else
      match StepAttr(st, i, body, attrs[0])
      case Err(e) => Err(e)
      case Ok(next) => ProcessAttrs(next, i, body, attrs[1..])
  }

  /** A test without attributes is pushed once; one with attributes goes through ProcessAttrs. */
  function ProcessTest(st: BuildState, i: nat, v: TestView): (r: Result<BuildState, BuildError>)
    requires i < |st.expected|
    ensures r.Ok? ==> |r.value.expected| == |st.expected|
  {
    match v.attributes
    case None => Ok(st.(order := st.order + [i]))
    case Some(attrs) => ProcessAttrs(st, i, v.body, attrs)
  }

  function InitialState(views: seq<TestView>): (st: BuildState)
    ensures |st.expected| == |views|
  {
    BuildState(NoHooks, [], seq(|views|, j requires 0 <= j < |views| => views[j].expected))
  }

  /** The state after the first `k` tests, or the error that stopped construction. */
  function BuildUpTo(views: seq<TestView>, k: nat): (r: Result<BuildState, BuildError>)
    requires k <= |views|
    ensures r.Ok? ==> |r.value.expected| == |views|
  {
    if k == 0 then Ok(InitialState(views))
    else
      match BuildUpTo(views, k - 1)
      case Err(e) => Err(e)
      case Ok(st) => ProcessTest(st, k - 1, views[k - 1])
  }

  /** Processing test `i` adds no index other than `i` to the executable list. */
  lemma {:induction false} ProcessAttrsOrderBound(st: BuildState, i: nat, body: Outcome, attrs: seq<Attr>, bound: nat)
    requires i < |st.expected| && i < bound
    requires forall m :: 0 <= m < |st.order| ==> st.order[m] < bound
    ensures ProcessAttrs(st, i, body, attrs).Ok? ==>
      forall m :: 0 <= m < |ProcessAttrs(st, i, body, attrs).value.order| ==>
        ProcessAttrs(st, i, body, attrs).value.order[m] < bound
    decreases |attrs|
  {
    if attrs != [] && attrs[0] != Ignore && StepAttr(st, i, body, attrs[0]).Ok? {
      var next := StepAttr(st, i, body, attrs[0]).value;
      if Classify(attrs[0]).ExpectKind? {
        RemoveMembers(st.order, i);
      }
      assert forall m :: 0 <= m < |next.order| ==> next.order[m] < bound;
      ProcessAttrsOrderBound(next, i, body, attrs[1..], bound);
    }
  }

  /** After the first `k` tests, the executable list holds only their indices. */
  lemma {:induction false} BuildUpToOrderBound(views: seq<TestView>, k: nat)
    requires k <= |views|
    ensures BuildUpTo(views, k).Ok? ==>
      forall m :: 0 <= m < |BuildUpTo(views, k).value.order| ==> BuildUpTo(views, k).value.order[m] < k
  {
    if k > 0 {
      BuildUpToOrderBound(views, k - 1);
      if BuildUpTo(views, k - 1).Ok? && views[k - 1].attributes.Some? {
        ProcessAttrsOrderBound(BuildUpTo(views, k - 1).value, k - 1, views[k - 1].body,
                               views[k - 1].attributes.value, k);
      }
    }
  }

  function BuildSpec(views: seq<TestView>): (r: Result<BuildState, BuildError>)
    ensures r.Ok? ==> |r.value.expected| == |views|
    ensures r.Ok? ==> forall m :: 0 <= m < |r.value.order| ==> r.value.order[m] < |views|
  {
    BuildUpToOrderBound(views, |views|);
    BuildUpTo(views, |views|)
  }

  /** Once construction has failed, it stays failed with the same error. */
  lemma {:induction false} BuildErrorPersists(views: seq<TestView>, k: nat, n: nat)
    requires k <= n <= |views|
    requires BuildUpTo(views, k).Err?
    ensures BuildUpTo(views, n) == BuildUpTo(views, k)
    decreases n - k
  {
    if k < n {
      BuildErrorPersists(views, k, n - 1);
    }
  }

  /** The executable tests a successful build yields, in order, with their expected kinds. */
  function Scheduled(views: seq<TestView>, st: BuildState): (ts: seq<TestView>)
    requires |st.expected| == |views|
    requires forall m :: 0 <= m < |st.order| ==> st.order[m] < |views|
    ensures |ts| == |st.order|
  {
    seq(|st.order|, m requires 0 <= m < |st.order| =>
      views[st.order[m]].(expected := st.expected[st.order[m]]))
  }

  /** `tests[m]` is `normalized[order[m]]` for every position `m`. */
  ghost predicate Maps(tests: seq<Test>, order: seq<nat>, normalized: seq<Test>)
  {
    |tests| == |order| &&
    forall m :: 0 <= m < |order| ==> order[m] < |normalized| && tests[m] == normalized[order[m]]
  }

  lemma MapsSnoc(tests: seq<Test>, order: seq<nat>, normalized: seq<Test>, i: nat)
    requires i < |normalized|
    requires Maps(tests, order, normalized)
    ensures Maps(tests + [normalized[i]], order + [i], normalized)
  {
  }

  /** Removing a test object matches removing its index, since the objects are distinct. */
  lemma {:induction false} RemoveMaps(tests: seq<Test>, order: seq<nat>, normalized: seq<Test>, i: nat)
    requires Distinct(normalized) && i < |normalized|
    requires Maps(tests, order, normalized)
    ensures Maps(Remove(tests, normalized[i]), Remove(order, i), normalized)
    decreases |order|
  {
    if order != [] {
      var n := |order| - 1;
      RemoveMaps(tests[..n], order[..n], normalized, i);
      assert tests[n] == normalized[i] <==> order[n] == i;
      if order[n] != i {
        MapsSnoc(Remove(tests[..n], normalized[i]), Remove(order[..n], i), normalized, order[n]);
      }
    }
  }

  /** `views` records the procedure and attributes of each test in `normalized`. */
  ghost predicate SameShapes(views: seq<TestView>, normalized: seq<Test>)
  {
    |views| == |normalized| &&
    forall j :: 0 <= j < |views| ==>
      views[j].body == normalized[j].body && views[j].attributes == normalized[j].attributes
  }

  lemma BuildUpToStep(views: seq<TestView>, k: nat, st: BuildState)
    requires k < |views| && BuildUpTo(views, k) == Ok(st)
    ensures BuildUpTo(views, k + 1) == ProcessTest(st, k, views[k])
  {
  }

  class Suite {
    var testSetup: Option<Outcome>
    var testTeardown: Option<Outcome>
    var suiteSetup: Option<Outcome>
    var suiteTeardown: Option<Outcome>
    var tests: seq<Test>

    /** Every hook is the empty function and no test is executable yet. */
    constructor ()
      ensures CurrentHooks() == NoHooks && tests == []
    {
      testSetup, testTeardown, suiteSetup, suiteTeardown := None, None, None, None;
      tests := [];
    }

    function CurrentHooks(): Hooks
      reads this
    {
      Hooks(testSetup, testTeardown, suiteSetup, suiteTeardown)
    }

    /** `removeTest`: rebuilds the executable list without any occurrence of `remTest`. */
    method RemoveTest(remTest: Test)
      modifies this
      ensures tests == Remove(old(tests), remTest)
      ensures CurrentHooks() == old(CurrentHooks())
    {
      var newTests := [];
      for k := 0 to |tests|
        invariant newTests == Remove(tests[..k], remTest)
      {
        assert tests[..k + 1][..k] == tests[..k];
        if tests[k] != remTest {
          newTests := newTests + [tests[k]];
        }
      }
      assert tests[..|tests|] == tests;
      tests := newTests;
    }

    /** The suite and the normalized tests hold the state `st`. */
    ghost predicate Realizes(normalized: seq<Test>, st: BuildState)
      reads this, normalized
    {
      CurrentHooks() == st.hooks &&
      |st.expected| == |normalized| &&
      (forall j :: 0 <= j < |normalized| ==> normalized[j].expectedExceptions == st.expected[j]) &&
      Maps(tests, st.order, normalized)
    }

    /** The branch of the constructor's if-chain for one attribute other than Ignore. */
    method ApplyAttribute(normalized: seq<Test>, k: nat, attr: Attr, ghost st: BuildState)
      returns (err: Option<BuildError>, ghost next: BuildState)
      requires Distinct(normalized) && k < |normalized|
      requires attr != Ignore
      requires Realizes(normalized, st)
      modifies this, normalized[k]
      ensures err.Some? <==> StepAttr(st, k, normalized[k].body, attr).Err?
      ensures err.Some? ==> err.value == StepAttr(st, k, normalized[k].body, attr).error
      ensures err.None? ==> next == StepAttr(st, k, normalized[k].body, attr).value && Realizes(normalized, next)
    {
      var nTest := normalized[k];
      err, next := None, st;
      if attr == TestSetup {
        if testSetup.Some? { return Some(DuplicateHook(TestSetupSlot)), st; }
        testSetup := Some(nTest.body);
      } else if attr == TestTeardown {
        if testTeardown.Some? { return Some(DuplicateHook(TestTeardownSlot)), st; }
        testTeardown := Some(nTest.body);
      } else if attr == SuiteSetup {
        if suiteSetup.Some? { return Some(DuplicateHook(SuiteSetupSlot)), st; }
        suiteSetup := Some(nTest.body);
      } else if attr == SuiteTeardown {
        if suiteTeardown.Some? { return Some(DuplicateHook(SuiteTeardownSlot)), st; }
        suiteTeardown := Some(nTest.body);
      } else if attr.Expect? {
        next := Reschedule(normalized, k, attr.arg, st);
        return;
      } else if attr == NullAttr || attr == UndefinedAttr {
        return Some(AttributeTypeError), st;
      } else {
        tests := tests + [nTest];
      }
      next := StepAttr(st, k, nTest.body, attr).value;
    }

    /** The ExpectsException branch: the test moves to the end of the list and records `arg`. */
    method Reschedule(normalized: seq<Test>, k: nat, arg: CtorArg, ghost st: BuildState)
      returns (ghost next: BuildState)
      requires Distinct(normalized) && k < |normalized|
      requires Realizes(normalized, st)
      modifies this, normalized[k]
      ensures next == st.(order := Remove(st.order, k) + [k],
                          expected := st.expected[k := ExpectedAfter(st.expected[k], arg)])
      ensures Realizes(normalized, next)
    {
      var nTest := normalized[k];
      RemoveMaps(tests, st.order, normalized, k);
      RemoveTest(nTest);
      MapsSnoc(tests, Remove(st.order, k), normalized, k);
      nTest.ExpectException(arg);
      tests := tests + [nTest];
      next := st.(order := Remove(st.order, k) + [k],
                  expected := st.expected[k := ExpectedAfter(st.expected[k], arg)]);
    }

    /** The constructor's walk over one test's sorted attributes, with its early `break` at Ignore. */
    method ApplyAttributes(normalized: seq<Test>, k: nat, ghost st: BuildState)
      returns (err: Option<BuildError>, ghost next: BuildState)
      requires Distinct(normalized) && k < |normalized|
      requires normalized[k].attributes.Some?
      requires Realizes(normalized, st)
      modifies this, normalized[k]
      ensures ProcessAttrs(st, k, normalized[k].body, normalized[k].attributes.value).Err? <==> err.Some?
      ensures err.Some? ==> err.value == ProcessAttrs(st, k, normalized[k].body, normalized[k].attributes.value).error
      ensures err.None? ==>
        next == ProcessAttrs(st, k, normalized[k].body, normalized[k].attributes.value).value &&
        Realizes(normalized, next)
    {
      var nTest := normalized[k];
      var attrs := nTest.attributes.value;
      err, next := None, st;
      var a := 0;
      while a < |attrs|
        invariant 0 <= a <= |attrs|
        invariant Realizes(normalized, next)
        invariant err == None
        invariant ProcessAttrs(next, k, nTest.body, attrs[a..]) == ProcessAttrs(st, k, nTest.body, attrs)
      {
        var attr := attrs[a];
        assert attrs[a..][1..] == attrs[a + 1..];
        if attr == Ignore {
          // Ignore sorts first, so breaking here skips the other attributes.
          break;
        }
        ghost var cur := next;
        err, next := ApplyAttribute(normalized, k, attr, cur);
        if err.Some? {
          return;
        }
        a := a + 1;
      }
    }

    /** One iteration of the constructor's loop: test `k`, whose fields `v` records. */
    method AddTest(normalized: seq<Test>, k: nat, ghost st: BuildState, ghost v: TestView)
      returns (err: Option<BuildError>, ghost next: BuildState)
      requires Distinct(normalized) && k < |normalized|
      requires v.body == normalized[k].body && v.attributes == normalized[k].attributes
      requires Realizes(normalized, st)
      modifies this, normalized[k]
      ensures ProcessTest(st, k, v).Err? <==> err.Some?
      ensures err.Some? ==> err.value == ProcessTest(st, k, v).error
      ensures err.None? ==> next == ProcessTest(st, k, v).value && Realizes(normalized, next)
    {
      var nTest := normalized[k];
      if nTest.attributes.Some? {
        err, next := ApplyAttributes(normalized, k, st);
      } else {
        MapsSnoc(tests, st.order, normalized, k);
        tests := tests + [nTest];
        err, next := None, st.(order := st.order + [k]);
      }
    }

    /**
     * The loop of the Suite constructor over the normalized tests. It returns
     * the error the constructor would throw, or None with the suite built.
     */
    method AddTests(normalized: seq<Test>) returns (err: Option<BuildError>)
      requires Distinct(normalized)
      requires tests == [] && CurrentHooks() == NoHooks
      modifies this, normalized
      ensures err.Some? <==> BuildSpec(old(Views(normalized))).Err?
      ensures err.Some? ==> err.value == BuildSpec(old(Views(normalized))).error
      ensures err.None? ==> Realizes(normalized, BuildSpec(old(Views(normalized))).value)
    {
      ghost var v0 := Views(normalized);
      assert SameShapes(v0, normalized);
      assert Realizes(normalized, InitialState(v0));
      ghost var st;
      err, st := AddEach(normalized, v0);
    }

    /** The loop itself, from the initial state of the tests `views` that `normalized` holds. */
    method AddEach(normalized: seq<Test>, ghost views: seq<TestView>)
      returns (err: Option<BuildError>, ghost st: BuildState)
      requires Distinct(normalized) && SameShapes(views, normalized)
      requires Realizes(normalized, InitialState(views))
      modifies this, normalized
      ensures err.Some? ==> BuildUpTo(views, |views|) == Err(err.value)
      ensures err.None? ==> BuildUpTo(views, |views|) == Ok(st) && Realizes(normalized, st)
    {
      st := InitialState(views);
      err := None;
      var k := 0;
      while k < |normalized| && err.None?
        invariant 0 <= k <= |normalized|
        invariant err.None? ==> BuildUpTo(views, k) == Ok(st) && Realizes(normalized, st)
        invariant err.Some? ==> BuildUpTo(views, k) == Err(err.value)
      {
        ghost var cur := st;
        BuildUpToStep(views, k, cur);
        err, st := AddTest(normalized, k, cur, views[k]);
        k := k + 1;
      }
      if err.Some? {
        BuildErrorPersists(views, k, |views|);
      }
    }
  }

  /** `new Suite(tests)`: normalizes the definitions and builds the suite, or throws. */
  method NewSuite(defs: seq<Entry>) returns (r: Result<Suite, BuildError>)
    ensures r.Err? <==> BuildSpec(NormalizeSpec(defs)).Err?
    ensures r.Err? ==> r.error == BuildSpec(NormalizeSpec(defs)).error
    ensures r.Ok? ==> fresh(r.value)
    ensures r.Ok? ==>
      r.value.CurrentHooks() == BuildSpec(NormalizeSpec(defs)).value.hooks &&
      Views(r.value.tests) == Scheduled(NormalizeSpec(defs), BuildSpec(NormalizeSpec(defs)).value)
  {
    var suite := new Suite();
    var normalized := NormalizeTests(defs);
    var err := suite.AddTests(normalized);
    if err.Some? {
      return Err(err.value);
    }
    ghost var views := NormalizeSpec(defs);
    ghost var st := BuildSpec(views).value;
    NormalizeSpecExpectsNothing(defs);
    forall m | 0 <= m < |suite.tests|
      ensures suite.tests[m].View() == Scheduled(views, st)[m]
    {
    }
    return Ok(suite);
  }
}
