/** What the suite builder guarantees, stated on BuildSpec and proved from its definition. */
module SuiteProperties {
  import opened Wrappers
  import opened JsValues
  import opened Seqs
  import opened Attributes
  import opened TestRecord
  import opened SuiteBuilder

  /**
   * A test carrying Ignore changes nothing: it fills no hook slot, is not
   * added to the executable list and gains no expected kind, whatever its
   * other attributes (as long as no number below -1 sorts before Ignore).
   */
  lemma IgnoredTestContributesNothing(st: BuildState, i: nat, v: TestView, attrs: seq<Attr>)
    requires i < |st.expected|
    requires v.attributes == Some(SortAttributes(attrs))
    requires Ignore in attrs
    requires forall k :: 0 <= k < |attrs| && attrs[k].Num? ==> attrs[k].n >= -1
    ensures ProcessTest(st, i, v) == Ok(st)
  {
    SortAttributesIgnoreFirst(attrs);
  }

  /** A number below -1 is handled before Ignore, so that test is still executed. */
  lemma LowerNumberDefeatsIgnore(st: BuildState, i: nat, v: TestView)
    requires i < |st.expected|
    requires v.attributes == Some(SortAttributes([Ignore, Num(-2)]))
    ensures ProcessTest(st, i, v) == Ok(st.(order := st.order + [i]))
  {
    LowerNumberSortsBeforeIgnore();
    var next := st.(order := st.order + [i]);
    assert Classify(Num(-2)) == Push;
    assert StepAttr(st, i, v.body, Num(-2)) == Ok(next);
    assert [Num(-2), Ignore][1..] == [Ignore];
    assert ProcessAttrs(next, i, v.body, [Ignore]) == Ok(next);
  }

  /** Hooks already installed stay as they are through one test's attributes. */
  lemma {:induction false} ProcessAttrsKeepsHooks(st: BuildState, i: nat, body: Outcome, attrs: seq<Attr>, s: Slot)
    requires i < |st.expected|
    requires ProcessAttrs(st, i, body, attrs).Ok?
    requires HookAt(st.hooks, s).Some?
    ensures HookAt(ProcessAttrs(st, i, body, attrs).value.hooks, s) == HookAt(st.hooks, s)
    decreases |attrs|
  {
    if attrs != [] && attrs[0] != Ignore {
      var next := StepAttr(st, i, body, attrs[0]).value;
      assert HookAt(next.hooks, s) == HookAt(st.hooks, s);
      ProcessAttrsKeepsHooks(next, i, body, attrs[1..], s);
    }
  }

  /**
   * Reaching the tag of slot `s` (no Ignore in the way) either throws or
   * leaves `s` filled; it throws when `s` was filled already.
   */
  lemma {:induction false} ProcessAttrsFillsSlot(st: BuildState, i: nat, body: Outcome, attrs: seq<Attr>, s: Slot)
    requires i < |st.expected|
    requires SlotTag(s) in attrs && Ignore !in attrs
    requires ProcessAttrs(st, i, body, attrs).Ok?
    ensures HookAt(st.hooks, s).None?
    ensures HookAt(ProcessAttrs(st, i, body, attrs).value.hooks, s).Some?
    decreases |attrs|
  {
    var next := StepAttr(st, i, body, attrs[0]).value;
    if attrs[0] == SlotTag(s) {
      assert Classify(attrs[0]) == Fill(s);
      ProcessAttrsKeepsHooks(next, i, body, attrs[1..], s);
    } else {
      assert attrs == [attrs[0]] + attrs[1..];
      assert HookAt(next.hooks, s) == HookAt(st.hooks, s);
      ProcessAttrsFillsSlot(next, i, body, attrs[1..], s);
    }
  }

  /** A successful build up to `n` was successful at every earlier point and kept the hooks filled there. */
  lemma {:induction false} BuildKeepsHooks(views: seq<TestView>, k: nat, n: nat, s: Slot)
    requires k <= n <= |views|
    requires BuildUpTo(views, n).Ok?
    ensures BuildUpTo(views, k).Ok?
    ensures HookAt(BuildUpTo(views, k).value.hooks, s).Some? ==>
      HookAt(BuildUpTo(views, n).value.hooks, s) == HookAt(BuildUpTo(views, k).value.hooks, s)
    decreases n - k
  {
    if k < n {
      BuildKeepsHooks(views, k, n - 1, s);
      var prev := BuildUpTo(views, n - 1).value;
      if HookAt(BuildUpTo(views, k).value.hooks, s).Some? && views[n - 1].attributes.Some? {
        ProcessAttrsKeepsHooks(prev, n - 1, views[n - 1].body, views[n - 1].attributes.value, s);
      }
    }
  }

  /**
   * Two tests carrying the tag of the same lifecycle slot (neither ignored)
   * make construction throw: at most one test supplies each hook.
   */
  lemma LifecycleTagTwiceFails(views: seq<TestView>, i: nat, j: nat, s: Slot)
    requires i < j < |views|
    requires views[i].attributes.Some? && views[j].attributes.Some?
    requires SlotTag(s) in views[i].attributes.value && Ignore !in views[i].attributes.value
    requires SlotTag(s) in views[j].attributes.value && Ignore !in views[j].attributes.value
    ensures BuildSpec(views).Err?
  {
    if BuildSpec(views).Ok? {
      BuildKeepsHooks(views, i, |views|, s);
      BuildKeepsHooks(views, j + 1, |views|, s);
      BuildKeepsHooks(views, i + 1, j, s);
      var sti := BuildUpTo(views, i).value;
      ProcessAttrsFillsSlot(sti, i, views[i].body, views[i].attributes.value, s);
      var stj := BuildUpTo(views, j).value;
      ProcessAttrsFillsSlot(stj, j, views[j].body, views[j].attributes.value, s);
    }
  }

  /**
   * One attribute throws exactly when it is null or undefined, or when it is
   * the tag of a slot that is already filled; the error names that slot.
   * Otherwise filled slots keep their procedure, and a tag fills its slot.
   */
  lemma StepAttrThrows(st: BuildState, i: nat, body: Outcome, a: Attr)
    requires i < |st.expected|
    ensures StepAttr(st, i, body, a).Err? <==>
      Classify(a) == Crash || (Classify(a).Fill? && HookAt(st.hooks, Classify(a).slot).Some?)
    ensures StepAttr(st, i, body, a).Err? && Classify(a).Fill? ==>
      StepAttr(st, i, body, a).error == DuplicateHook(Classify(a).slot)
    ensures StepAttr(st, i, body, a).Err? && !Classify(a).Fill? ==>
      StepAttr(st, i, body, a).error == AttributeTypeError
    ensures StepAttr(st, i, body, a).Ok? ==>
      forall s :: HookAt(st.hooks, s).Some? ==> HookAt(StepAttr(st, i, body, a).value.hooks, s) == HookAt(st.hooks, s)
    ensures StepAttr(st, i, body, a).Ok? && Classify(a).Fill? ==>
      HookAt(StepAttr(st, i, body, a).value.hooks, Classify(a).slot) == Some(body)
  {
  }

  /** The messages of the four errors a second hook of one slot throws. */
  lemma DuplicateMessages()
    ensures DuplicateMessage(TestSetupSlot) == "Cannot use more than one " + "TestSetup" + " attribute."
    ensures DuplicateMessage(TestTeardownSlot) == "Cannot use more than one " + "TestTeardown" + " attribute."
    ensures DuplicateMessage(SuiteSetupSlot) == "Cannot use more than one " + "SuiteSetup" + " attribute."
    ensures DuplicateMessage(SuiteTeardownSlot) == "Cannot use more than one " + "SuiteTeardown" + " attribute."
  {
  }

  /**
   * Reaching the tag of a filled slot, after attributes that did not throw,
   * throws the duplicate-hook error for that slot.
   */
  lemma {:induction false} ProcessAttrsDuplicate(st: BuildState, i: nat, body: Outcome, pre: seq<Attr>, s: Slot, post: seq<Attr>)
    requires i < |st.expected|
    requires HookAt(st.hooks, s).Some?
    requires Ignore !in pre
    requires ProcessAttrs(st, i, body, pre).Ok?
    ensures ProcessAttrs(st, i, body, pre + [SlotTag(s)] + post) == Err(DuplicateHook(s))
    decreases |pre|
  {
    var attrs := pre + [SlotTag(s)] + post;
    if pre == [] {
      assert attrs[0] == SlotTag(s);
      assert Classify(SlotTag(s)) == Fill(s);
    } else {
      assert attrs[0] == pre[0];
      assert pre[0] in pre;
      StepAttrThrows(st, i, body, pre[0]);
      var next := StepAttr(st, i, body, pre[0]).value;
      assert attrs[1..] == pre[1..] + [SlotTag(s)] + post;
      assert ProcessAttrs(st, i, body, pre) == ProcessAttrs(next, i, body, pre[1..]);
      ProcessAttrsDuplicate(next, i, body, pre[1..], s, post);
    }
  }

  /**
   * The error itself: when test `j` reaches the tag of a slot an earlier test
   * filled, and nothing before that tag throws, `new Suite` throws the
   * duplicate-hook error for that slot.
   */
  lemma SecondTagThrowsDuplicate(views: seq<TestView>, j: nat, s: Slot, pre: seq<Attr>, post: seq<Attr>)
    requires j < |views| && BuildUpTo(views, j).Ok?
    requires HookAt(BuildUpTo(views, j).value.hooks, s).Some?
    requires views[j].attributes == Some(pre + [SlotTag(s)] + post) && Ignore !in pre
    requires ProcessAttrs(BuildUpTo(views, j).value, j, views[j].body, pre).Ok?
    ensures BuildSpec(views) == Err(DuplicateHook(s))
  {
    ProcessAttrsDuplicate(BuildUpTo(views, j).value, j, views[j].body, pre, s, post);
    assert BuildUpTo(views, j + 1) == Err(DuplicateHook(s));
    BuildErrorPersists(views, j + 1, |views|);
  }

  /** A test whose attributes are all lifecycle tags becomes those hooks and is not executable. */
  lemma {:induction false} HookOnlyTestNotScheduled(st: BuildState, i: nat, body: Outcome, attrs: seq<Attr>)
    requires i < |st.expected|
    requires forall k :: 0 <= k < |attrs| ==> Classify(attrs[k]).Fill?
    requires ProcessAttrs(st, i, body, attrs).Ok?
    ensures ProcessAttrs(st, i, body, attrs).value.order == st.order
    ensures forall k :: 0 <= k < |attrs| ==>
      HookAt(ProcessAttrs(st, i, body, attrs).value.hooks, Classify(attrs[k]).slot) == Some(body)
    decreases |attrs|
  {
    if attrs != [] {
      var next := StepAttr(st, i, body, attrs[0]).value;
      HookOnlyTestNotScheduled(next, i, body, attrs[1..]);
      var r := ProcessAttrs(st, i, body, attrs).value;
      forall k | 0 <= k < |attrs|
        ensures HookAt(r.hooks, Classify(attrs[k]).slot) == Some(body)
      {
        if k == 0 {
          ProcessAttrsKeepsHooks(next, i, body, attrs[1..], Classify(attrs[0]).slot);
        } else {
          assert attrs[k] == attrs[1..][k - 1];
        }
      }
    }
  }

  function Args(attrs: seq<Attr>): (args: seq<CtorArg>)
    requires forall k :: 0 <= k < |attrs| ==> attrs[k].Expect?
    ensures |args| == |attrs|
  {
    if attrs == [] then [] else [attrs[0].arg] + Args(attrs[1..])
  }

  /** The state after test `i` has been moved to the end of the list and `kinds` added to what it expects. */
  function MovedToEnd(st: BuildState, i: nat, kinds: seq<Kind>): BuildState
    requires i < |st.expected|
  {
    st.(order := Remove(st.order, i) + [i], expected := st.expected[i := st.expected[i] + kinds])
  }

  /** Moving a test to the end twice is moving it once with both lists of kinds. */
  lemma MovedToEndTwice(st: BuildState, i: nat, k1: seq<Kind>, k2: seq<Kind>)
    requires i < |st.expected|
    ensures MovedToEnd(MovedToEnd(st, i, k1), i, k2) == MovedToEnd(st, i, k1 + k2)
  {
    var base := Remove(st.order, i);
    RemoveSnocSame(base, i);
    RemoveAbsent(base, i);
    assert Remove(base + [i], i) == base;
    assert st.expected[i] + k1 + k2 == st.expected[i] + (k1 + k2);
  }

  /** One ExpectsException marker moves the test to the end and records its constructor. */
  lemma ExpectMarkerStep(st: BuildState, i: nat, body: Outcome, a: Attr)
    requires i < |st.expected|
    requires a.Expect?
    ensures StepAttr(st, i, body, a) == Ok(MovedToEnd(st, i, ExpectedAfter([], a.arg)))
  {
    assert Classify(a) == ExpectKind(a.arg);
    if a.arg.Ctor? {
      assert ExpectedAfter([], a.arg) == [a.arg.kind];
    }
    assert ExpectedAfter(st.expected[i], a.arg) == st.expected[i] + ExpectedAfter([], a.arg);
  }

  /** Processing a non-empty list whose head is not Ignore and steps successfully continues on its tail. */
  lemma ProcessAttrsUnfold(st: BuildState, i: nat, body: Outcome, attrs: seq<Attr>)
    requires i < |st.expected|
    requires attrs != [] && attrs[0] != Ignore
    requires StepAttr(st, i, body, attrs[0]).Ok?
    ensures ProcessAttrs(st, i, body, attrs) == ProcessAttrs(StepAttr(st, i, body, attrs[0]).value, i, body, attrs[1..])
  {
  }

  /**
   * N >= 1 ExpectsException markers leave the test exactly once at the end
   * of the executable list, with every constructor among them added to its
   * expected kinds in order (null and non-function arguments ignored).
   */
  lemma {:induction false} ExpectMarkersScheduleOnce(st: BuildState, i: nat, body: Outcome, attrs: seq<Attr>)
    requires i < |st.expected|
    requires |attrs| >= 1
    requires forall k :: 0 <= k < |attrs| ==> attrs[k].Expect?
    ensures ProcessAttrs(st, i, body, attrs) ==
      Ok(st.(order := Remove(st.order, i) + [i],
             expected := st.expected[i := st.expected[i] + CtorKinds(Args(attrs))]))
    decreases |attrs|
  {
    var rest := attrs[1..];
    var k0 := ExpectedAfter([], attrs[0].arg);
    var next := MovedToEnd(st, i, k0);
    ExpectMarkerStep(st, i, body, attrs[0]);
    ProcessAttrsUnfold(st, i, body, attrs);
    assert Args(attrs)[1..] == Args(rest);
    assert CtorKinds(Args(attrs)) == k0 + CtorKinds(Args(rest));
    if rest == [] {
      assert CtorKinds(Args(attrs)) == k0;
    } else {
      ExpectMarkersScheduleOnce(next, i, body, rest);
      MovedToEndTwice(st, i, k0, CtorKinds(Args(rest)));
    }
  }

  /** Markers other than numbers and undefined keep their written order through the sort. */
  lemma SortAttributesMarkersUnchanged(s: seq<Attr>)
    requires forall k :: 0 <= k < |s| ==> IsMarker(s[k])
    ensures SortAttributes(s) == s
  {
    SortAttributesStable(s);
    var r := SortAttributes(s);
    forall k | 0 <= k < |r|
      ensures IsMarker(r[k])
    {
      assert r[k] in multiset(s);
    }
    FilterAll(IsMarker, s);
    FilterAll(IsMarker, r);
  }

  /** The same, for a normalized test whose attribute array holds only ExpectsException markers. */
  lemma ExpectOnlyTestScheduledOnce(st: BuildState, i: nat, v: TestView, marks: seq<Attr>)
    requires i < |st.expected|
    requires |marks| >= 1 && forall k :: 0 <= k < |marks| ==> marks[k].Expect?
    requires v.attributes == Some(SortAttributes(marks))
    ensures ProcessTest(st, i, v) ==
      Ok(st.(order := Remove(st.order, i) + [i],
             expected := st.expected[i := st.expected[i] + CtorKinds(Args(marks))]))
  {
    SortAttributesMarkersUnchanged(marks);
    ExpectMarkersScheduleOnce(st, i, v.body, marks);
  }

  /**
   * Each unrecognised attribute adds the test once more, without removing it
   * first; so an empty attribute array adds nothing.
   */
  lemma {:induction false} OtherAttributesPushEach(st: BuildState, i: nat, body: Outcome, attrs: seq<Attr>)
    requires i < |st.expected|
    requires forall k :: 0 <= k < |attrs| ==> Classify(attrs[k]) == Push
    ensures ProcessAttrs(st, i, body, attrs) == Ok(st.(order := st.order + Repeat(i, |attrs|)))
    decreases |attrs|
  {
    if attrs != [] {
      var next := st.(order := st.order + [i]);
      assert Classify(attrs[0]) == Push && attrs[0] != Ignore;
      assert StepAttr(st, i, body, attrs[0]) == Ok(next);
      OtherAttributesPushEach(next, i, body, attrs[1..]);
      assert [i] + Repeat(i, |attrs| - 1) == Repeat(i, |attrs|);
      assert next.order + Repeat(i, |attrs| - 1) == st.order + Repeat(i, |attrs|);
    } else {
      assert st.order + Repeat(i, 0) == st.order;
    }
  }

  ghost predicate OrderBelow(st: BuildState, bound: nat)
  {
    NonDecreasing(st.order) && forall m :: 0 <= m < |st.order| ==> st.order[m] <= bound
  }

  lemma {:induction false} RemoveKeepsNonDecreasing(s: seq<nat>, x: nat)
    requires NonDecreasing(s)
    ensures NonDecreasing(Remove(s, x))
    decreases |s|
  {
    if s != [] {
      var init := s[..|s| - 1];
      RemoveKeepsNonDecreasing(init, x);
      var r := Remove(init, x);
      RemoveMembers(init, x);
      forall m | 0 <= m < |r|
        ensures r[m] <= s[|s| - 1]
      {
        var j :| 0 <= j < |init| && init[j] == r[m];
      }
    }
  }

  /** Appending the current index keeps the list sorted. */
  lemma PushKeepsOrder(st: BuildState, i: nat)
    requires OrderBelow(st, i)
    ensures OrderBelow(st.(order := st.order + [i]), i)
  {
    var s := st.order + [i];
    forall m, n | 0 <= m < n < |s|
      ensures s[m] <= s[n]
    {
      if n < |st.order| {
        assert s[m] == st.order[m] && s[n] == st.order[n];
      }
    }
  }

  /** One attribute keeps the list sorted with indices up to `i`. */
  lemma StepAttrKeepsOrder(st: BuildState, i: nat, body: Outcome, a: Attr)
    requires i < |st.expected|
    requires OrderBelow(st, i)
    requires StepAttr(st, i, body, a).Ok?
    ensures OrderBelow(StepAttr(st, i, body, a).value, i)
  {
    match Classify(a)
    case ExpectKind(_) =>
      RemoveKeepsNonDecreasing(st.order, i);
      var r := Remove(st.order, i);
      RemoveMembers(st.order, i);
      assert OrderBelow(st.(order := r), i);
      PushKeepsOrder(st.(order := r), i);
    case Push =>
      PushKeepsOrder(st, i);
    case _ =>
  }

  lemma {:induction false} ProcessAttrsKeepsOrder(st: BuildState, i: nat, body: Outcome, attrs: seq<Attr>)
    requires i < |st.expected|
    requires OrderBelow(st, i)
    requires ProcessAttrs(st, i, body, attrs).Ok?
    ensures OrderBelow(ProcessAttrs(st, i, body, attrs).value, i)
    decreases |attrs|
  {
    if attrs != [] && attrs[0] != Ignore {
      StepAttrKeepsOrder(st, i, body, attrs[0]);
      ProcessAttrsKeepsOrder(StepAttr(st, i, body, attrs[0]).value, i, body, attrs[1..]);
    }
  }

  /** One test keeps the list sorted with indices up to its own. */
  lemma ProcessTestKeepsOrder(st: BuildState, i: nat, v: TestView)
    requires i < |st.expected|
    requires OrderBelow(st, i)
    requires ProcessTest(st, i, v).Ok?
    ensures OrderBelow(ProcessTest(st, i, v).value, i)
  {
    if v.attributes.Some? {
      ProcessAttrsKeepsOrder(st, i, v.body, v.attributes.value);
    } else {
      PushKeepsOrder(st, i);
    }
  }

  /** Before test `k` is processed the list is sorted and holds indices below `k`. */
  lemma PrefixOrderBelow(views: seq<TestView>, k: nat)
    requires 0 < k <= |views|
    requires BuildUpTo(views, k - 1).Ok?
    requires NonDecreasing(BuildUpTo(views, k - 1).value.order)
    ensures OrderBelow(BuildUpTo(views, k - 1).value, k - 1)
  {
    BuildUpToOrderBound(views, k - 1);
  }

  lemma {:induction false} BuildUpToKeepsOrder(views: seq<TestView>, k: nat)
    requires k <= |views|
    requires BuildUpTo(views, k).Ok?
    ensures NonDecreasing(BuildUpTo(views, k).value.order)
    decreases k
  {
    if k > 0 {
      BuildUpToKeepsOrder(views, k - 1);
      PrefixOrderBelow(views, k);
      ProcessTestKeepsOrder(BuildUpTo(views, k - 1).value, k - 1, views[k - 1]);
    }
  }

  /** The executable tests appear in the normalizer's order (a test may repeat, never out of place). */
  lemma BuildSpecKeepsNormalizedOrder(views: seq<TestView>)
    requires BuildSpec(views).Ok?
    ensures NonDecreasing(BuildSpec(views).value.order)
  {
    BuildUpToKeepsOrder(views, |views|);
  }

  /**
   * Processing the attributes of test `j` leaves another test `i` alone: `i`
   * occurs in the executable list as often as before and expects the same kinds.
   */
  lemma {:induction false} ProcessAttrsFrame(st: BuildState, j: nat, body: Outcome, attrs: seq<Attr>, i: nat)
    requires j < |st.expected| && i < |st.expected| && i != j
    requires ProcessAttrs(st, j, body, attrs).Ok?
    ensures multiset(ProcessAttrs(st, j, body, attrs).value.order)[i] == multiset(st.order)[i]
    ensures ProcessAttrs(st, j, body, attrs).value.expected[i] == st.expected[i]
    decreases |attrs|
  {
    if attrs != [] && attrs[0] != Ignore {
      var next := StepAttr(st, j, body, attrs[0]).value;
      if Classify(attrs[0]).ExpectKind? {
        RemoveCount(st.order, j, i);
      }
      assert multiset(next.order)[i] == multiset(st.order)[i];
      ProcessAttrsFrame(next, j, body, attrs[1..], i);
    }
  }

  lemma ProcessTestFrame(st: BuildState, j: nat, v: TestView, i: nat)
    requires j < |st.expected| && i < |st.expected| && i != j
    requires ProcessTest(st, j, v).Ok?
    ensures multiset(ProcessTest(st, j, v).value.order)[i] == multiset(st.order)[i]
    ensures ProcessTest(st, j, v).value.expected[i] == st.expected[i]
  {
    if v.attributes.Some? {
      ProcessAttrsFrame(st, j, v.body, v.attributes.value, i);
    }
  }

  /**
   * Processing the tests from `k` to `n`, none of them test `i`, keeps how
   * often `i` is executable and what it expects; a build that succeeds up to
   * `n` succeeded up to `k`.
   */
  lemma {:induction false} BuildUpToFrame(views: seq<TestView>, i: nat, k: nat, n: nat)
    requires k <= n <= |views| && i < |views| && !(k <= i < n)
    requires BuildUpTo(views, n).Ok?
    ensures BuildUpTo(views, k).Ok?
    ensures multiset(BuildUpTo(views, n).value.order)[i] == multiset(BuildUpTo(views, k).value.order)[i]
    ensures BuildUpTo(views, n).value.expected[i] == BuildUpTo(views, k).value.expected[i]
    decreases n - k
  {
    if k < n {
      assert BuildUpTo(views, n - 1).Ok?;
      BuildUpToFrame(views, i, k, n - 1);
      ProcessTestFrame(BuildUpTo(views, n - 1).value, n - 1, views[n - 1], i);
    }
  }

  /**
   * In a successful build, test `i` is reached with no occurrence of its own
   * in the list and its expected kinds as normalized; the next state is that
   * test's step, and nothing after it changes what concerns `i`.
   */
  lemma TestReached(views: seq<TestView>, i: nat)
    requires i < |views| && BuildSpec(views).Ok?
    ensures BuildUpTo(views, i).Ok?
    ensures i !in BuildUpTo(views, i).value.order
    ensures BuildUpTo(views, i).value.expected[i] == views[i].expected
    ensures BuildUpTo(views, i + 1) == ProcessTest(BuildUpTo(views, i).value, i, views[i])
    ensures BuildUpTo(views, i + 1).Ok?
    ensures multiset(BuildSpec(views).value.order)[i] == multiset(BuildUpTo(views, i + 1).value.order)[i]
    ensures BuildSpec(views).value.expected[i] == BuildUpTo(views, i + 1).value.expected[i]
  {
    BuildUpToFrame(views, i, i + 1, |views|);
    BuildUpToFrame(views, i, 0, i);
    BuildUpToOrderBound(views, i);
  }

  /**
   * In the built suite, a test carrying Ignore (and no number below -1) is
   * not executable at all and expects nothing beyond what it started with.
   */
  lemma IgnoredTestNotInSuite(views: seq<TestView>, i: nat, attrs: seq<Attr>)
    requires i < |views| && BuildSpec(views).Ok?
    requires views[i].attributes == Some(SortAttributes(attrs))
    requires Ignore in attrs
    requires forall k :: 0 <= k < |attrs| && attrs[k].Num? ==> attrs[k].n >= -1
    ensures i !in BuildSpec(views).value.order
    ensures BuildSpec(views).value.expected[i] == views[i].expected
  {
    TestReached(views, i);
    IgnoredTestContributesNothing(BuildUpTo(views, i).value, i, views[i], attrs);
  }

  /**
   * In the built suite, a test whose attributes are all lifecycle tags is not
   * executable, and each of its slots holds its procedure.
   */
  lemma HookOnlyTestNotInSuite(views: seq<TestView>, i: nat)
    requires i < |views| && BuildSpec(views).Ok?
    requires views[i].attributes.Some?
    requires forall k :: 0 <= k < |views[i].attributes.value| ==> Classify(views[i].attributes.value[k]).Fill?
    ensures i !in BuildSpec(views).value.order
    ensures forall k :: 0 <= k < |views[i].attributes.value| ==>
      HookAt(BuildSpec(views).value.hooks, Classify(views[i].attributes.value[k]).slot) == Some(views[i].body)
  {
    TestReached(views, i);
    var attrs := views[i].attributes.value;
    var st := BuildUpTo(views, i).value;
    var next := BuildUpTo(views, i + 1).value;
    assert ProcessAttrs(st, i, views[i].body, attrs) == Ok(next);
    HookOnlyTestNotScheduled(st, i, views[i].body, attrs);
    forall k | 0 <= k < |attrs|
      ensures HookAt(BuildSpec(views).value.hooks, Classify(attrs[k]).slot) == Some(views[i].body)
    {
      assert HookAt(next.hooks, Classify(attrs[k]).slot) == Some(views[i].body);
      BuildKeepsHooks(views, i + 1, |views|, Classify(attrs[k]).slot);
    }
  }

  /**
   * In the built suite, a normalized test holding only ExpectsException
   * markers occurs exactly once and expects every constructor among them, in order.
   */
  lemma ExpectOnlyTestOnceInSuite(views: seq<TestView>, i: nat, marks: seq<Attr>)
    requires i < |views| && BuildSpec(views).Ok?
    requires |marks| >= 1 && forall k :: 0 <= k < |marks| ==> marks[k].Expect?
    requires views[i].attributes == Some(SortAttributes(marks))
    ensures multiset(BuildSpec(views).value.order)[i] == 1
    ensures BuildSpec(views).value.expected[i] == views[i].expected + CtorKinds(Args(marks))
  {
    TestReached(views, i);
    var st := BuildUpTo(views, i).value;
    ExpectOnlyTestScheduledOnce(st, i, views[i], marks);
    RemoveCount(st.order, i, i);
  }

  /** In the built suite, a test without attributes occurs exactly once and expects nothing new. */
  lemma PlainTestOnceInSuite(views: seq<TestView>, i: nat)
    requires i < |views| && BuildSpec(views).Ok?
    requires views[i].attributes.None?
    ensures multiset(BuildSpec(views).value.order)[i] == 1
    ensures BuildSpec(views).value.expected[i] == views[i].expected
  {
    TestReached(views, i);
  }
}
