/**
 * Test attributes: the lifecycle tags, the exception-expectation marker, how the
 * suite builder routes each value, and the order the normalizer sorts them in.
 */
module Attributes {
  import opened JsValues
  import opened Seqs

  /** The argument given to `jstest.ExpectsException`. */
  datatype CtorArg = NullArg | NonFunction | Ctor(kind: Kind)

  /** A value in a test's attribute array. */
  datatype Attr =
    | Num(n: int)            // a number; the lifecycle tags are numbers
    | Expect(arg: CtorArg)   // an ExpectedException marker
    | UndefinedAttr          // `undefined`, e.g. a property of `jstest` that does not exist
    | NullAttr
    | OtherValue             // any other value: a string, a boolean, another object

  const Ignore: Attr := Num(-1)
  const TestSetup: Attr := Num(1)
  const TestTeardown: Attr := Num(2)
  const SuiteSetup: Attr := Num(3)
  // The intended suite-teardown tag. The source defines it under the name
  // `SutieTeardown`, so `jstest.SuiteTeardown` reads as `undefined`; the
  // builder is modelled with the intended value (see ClassifyAsWritten).
  const SuiteTeardown: Attr := Num(4)
  const SuiteTeardownAsWritten: Attr := UndefinedAttr

  /** The four lifecycle hook slots of a suite. */
  datatype Slot = TestSetupSlot | TestTeardownSlot | SuiteSetupSlot | SuiteTeardownSlot

  function SlotTag(s: Slot): Attr
  {
    match s
    case TestSetupSlot => TestSetup
    case TestTeardownSlot => TestTeardown
    case SuiteSetupSlot => SuiteSetup
    case SuiteTeardownSlot => SuiteTeardown
  }

  /** What the suite builder does with one attribute. */
  datatype Role =
    | Stop                   // Ignore: skip the rest of the test's attributes
    | Fill(slot: Slot)       // install the test's procedure as a hook
    | ExpectKind(arg: CtorArg)
    | Push                   // add the test to the executable list
    | Crash                  // `attr.constructor` on null or undefined throws a TypeError

  /** The builder's if-chain, as code, for a given value of the suite-teardown tag. */
  function ClassifyWith(a: Attr, suiteTeardownTag: Attr): Role
  {
    if a == Ignore then Stop
    else if a == TestSetup then Fill(TestSetupSlot)
    else if a == TestTeardown then Fill(TestTeardownSlot)
    else if a == SuiteSetup then Fill(SuiteSetupSlot)
    else if a == suiteTeardownTag then Fill(SuiteTeardownSlot)
    else match a
      case Expect(arg) => ExpectKind(arg)
      case NullAttr => Crash
      case UndefinedAttr => Crash
      case _ => Push
  }

  /** The routing with the intended tag values. */
  function Classify(a: Attr): (r: Role)
    ensures r == Stop <==> a == Ignore
    ensures r.Fill? <==> a in {TestSetup, TestTeardown, SuiteSetup, SuiteTeardown}
    ensures r.Fill? ==> a == SlotTag(r.slot)
    ensures r.ExpectKind? <==> a.Expect?
    ensures r.ExpectKind? ==> r.arg == a.arg
    ensures r == Crash <==> a == NullAttr || a == UndefinedAttr
    ensures r == Push <==> a == OtherValue || (a.Num? && a.n !in {-1, 1, 2, 3, 4})
  {
    ClassifyWith(a, SuiteTeardown)
  }

  /** The routing as the source defines the constants. */
  function ClassifyAsWritten(a: Attr): (r: Role)
    ensures a != Num(4) && a != UndefinedAttr ==> r == Classify(a)
    ensures a == Num(4) ==> r == Push
    ensures a == UndefinedAttr ==> r == Fill(SuiteTeardownSlot)
  {
    ClassifyWith(a, SuiteTeardownAsWritten)
  }

  /**
   * As written, the number 4 (the value of `jstest.SutieTeardown`) makes the
   * test executable instead of the suite teardown, while `undefined` (any
   * misspelt attribute, `jstest.SuiteTeardown` included) installs the suite
   * teardown. With the intended constant, 4 installs the suite teardown and
   * undefined throws a TypeError, as null does.
   */
  lemma AsWrittenSuiteTeardownMisroutes()
    ensures ClassifyAsWritten(Num(4)) == Push
    ensures ClassifyAsWritten(UndefinedAttr) == Fill(SuiteTeardownSlot)
    ensures Classify(Num(4)) == Fill(SuiteTeardownSlot)
    ensures Classify(UndefinedAttr) == Crash
  {
  }

  // ---------------------------------------------------------------- sorting

  /** The comparator the normalizer passes to `Array.prototype.sort`. */
  function Sorter(a: Attr, b: Attr): (r: int)
    ensures IsDefined(a) && IsDefined(b) ==> (r < 0 <==> Le(a, b) && !Le(b, a))
    ensures !a.Num? ==> r > 0
  {
    if !a.Num? then 1
    else if !b.Num? then -1
    else a.n - b.n
  }

  /** 0 for numbers, 1 for other defined values, 2 for `undefined`. */
  function Class(a: Attr): nat
  {
    if a.Num? then 0 else if a.UndefinedAttr? then 2 else 1
  }

  /** The order the sorted array obeys: numbers ascending, then the rest, `undefined` last. */
  predicate Le(a: Attr, b: Attr)
  {
    Class(a) < Class(b) || (Class(a) == Class(b) && (a.Num? ==> a.n <= b.n))
  }

  ghost predicate Sorted(s: seq<Attr>)
  {
    forall i, j :: 0 <= i < j < |s| ==> Le(s[i], s[j])
  }

  predicate IsDefined(a: Attr) { !a.UndefinedAttr? }
  predicate IsUndefined(a: Attr) { a.UndefinedAttr? }
  /** A defined value that is not a number. */
  predicate IsMarker(a: Attr) { Class(a) == 1 }
  predicate IsExpect(a: Attr) { a.Expect? }

  /** Places `x` after the sorted prefix, moving left past every element the comparator puts after it. */
  function InsertAttr(sorted: seq<Attr>, x: Attr): seq<Attr>
    decreases |sorted|
  {
    if sorted == [] then [x]
    else if Sorter(x, sorted[|sorted| - 1]) < 0 then
      InsertAttr(sorted[..|sorted| - 1], x) + [sorted[|sorted| - 1]]
    else sorted + [x]
  }

  function InsertionSort(s: seq<Attr>): seq<Attr>
  {
    if s == [] then [] else InsertAttr(InsertionSort(s[..|s| - 1]), s[|s| - 1])
  }

  /**
   * `attributes.sort(sorter)`: `undefined` entries go to the end without being
   * compared, and the rest are sorted with the comparator.
   */
  function SortAttributes(s: seq<Attr>): (r: seq<Attr>)
    ensures multiset(r) == multiset(s)
  {
    FilterMembers(IsDefined, s);
    InsertionSortProperties(Filter(IsDefined, s));
    FilterDefinedSplits(s);
    InsertionSort(Filter(IsDefined, s)) + Filter(IsUndefined, s)
  }

  lemma {:induction false} InsertAttrPermutes(sorted: seq<Attr>, x: Attr)
    ensures multiset(InsertAttr(sorted, x)) == multiset(sorted) + multiset{x}
    decreases |sorted|
  {
    if sorted != [] && Sorter(x, sorted[|sorted| - 1]) < 0 {
      var init := sorted[..|sorted| - 1];
      InsertAttrPermutes(init, x);
      assert sorted == init + [sorted[|sorted| - 1]];
    }
  }

  lemma {:induction false} InsertAttrSorted(sorted: seq<Attr>, x: Attr)
    requires Sorted(sorted)
    requires forall k :: 0 <= k < |sorted| ==> IsDefined(sorted[k])
    requires IsDefined(x)
    ensures Sorted(InsertAttr(sorted, x))
    decreases |sorted|
  {
    if sorted != [] {
      var last := sorted[|sorted| - 1];
      var init := sorted[..|sorted| - 1];
      if Sorter(x, last) < 0 {
        InsertAttrSorted(init, x);
        InsertAttrPermutes(init, x);
        var ins := InsertAttr(init, x);
        forall k | 0 <= k < |ins|
          ensures Le(ins[k], last)
        {
          assert ins[k] in multiset(ins);
          if ins[k] != x {
            assert ins[k] in multiset(init);
            var m :| 0 <= m < |init| && init[m] == ins[k];
            assert Le(sorted[m], sorted[|sorted| - 1]);
          }
        }
      } else {
        forall k | 0 <= k < |sorted|
          ensures Le(sorted[k], x)
        {
          assert Le(sorted[k], last) || k == |sorted| - 1;
        }
      }
    }
  }

  lemma {:induction false} InsertAttrKeepsMarkers(sorted: seq<Attr>, x: Attr)
    ensures Filter(IsMarker, InsertAttr(sorted, x)) == Filter(IsMarker, sorted) + (if IsMarker(x) then [x] else [])
    decreases |sorted|
  {
    if sorted == [] {
      FilterSnoc(IsMarker, [], x);
    } else {
      var last := sorted[|sorted| - 1];
      var init := sorted[..|sorted| - 1];
      assert sorted == init + [last];
      if Sorter(x, last) < 0 {
        assert !IsMarker(x);
        InsertAttrKeepsMarkers(init, x);
        FilterSnoc(IsMarker, InsertAttr(init, x), last);
        FilterSnoc(IsMarker, init, last);
      } else {
        FilterSnoc(IsMarker, sorted, x);
      }
    }
  }

  lemma {:induction false} InsertionSortProperties(s: seq<Attr>)
    requires forall k :: 0 <= k < |s| ==> IsDefined(s[k])
    ensures multiset(InsertionSort(s)) == multiset(s)
    ensures Sorted(InsertionSort(s))
    ensures Filter(IsMarker, InsertionSort(s)) == Filter(IsMarker, s)
    decreases |s|
  {
    if s != [] {
      var init := s[..|s| - 1];
      var x := s[|s| - 1];
      assert s == init + [x];
      InsertionSortProperties(init);
      var sorted := InsertionSort(init);
      InsertAttrPermutes(sorted, x);
      forall k | 0 <= k < |sorted|
        ensures IsDefined(sorted[k])
      {
        assert sorted[k] in multiset(init);
      }
      InsertAttrSorted(sorted, x);
      InsertAttrKeepsMarkers(sorted, x);
      FilterSnoc(IsMarker, init, x);
    }
  }

  lemma {:induction false} FilterDefinedSplits(s: seq<Attr>)
    ensures multiset(Filter(IsDefined, s)) + multiset(Filter(IsUndefined, s)) == multiset(s)
    decreases |s|
  {
    if s != [] {
      var init := s[..|s| - 1];
      assert s == init + [s[|s| - 1]];
      FilterDefinedSplits(init);
    }
  }

  /** Every number comes before every non-number, numbers ascend, and `undefined` comes last. */
  lemma SortAttributesSorted(s: seq<Attr>)
    ensures Sorted(SortAttributes(s))
  {
    var d := Filter(IsDefined, s);
    var u := Filter(IsUndefined, s);
    FilterMembers(IsDefined, s);
    FilterMembers(IsUndefined, s);
    InsertionSortProperties(d);
    var sd := InsertionSort(d);
    forall k | 0 <= k < |sd|
      ensures IsDefined(sd[k])
    {
      assert sd[k] in multiset(d);
    }
  }

  /** Values that are neither numbers nor `undefined` keep their relative order. */
  lemma SortAttributesStable(s: seq<Attr>)
    ensures Filter(IsMarker, SortAttributes(s)) == Filter(IsMarker, s)
  {
    var d := Filter(IsDefined, s);
    var u := Filter(IsUndefined, s);
    FilterMembers(IsDefined, s);
    FilterMembers(IsUndefined, s);
    InsertionSortProperties(d);
    FilterConcat(IsMarker, InsertionSort(d), u);
    FilterFilter(IsMarker, IsDefined, s);
    FilterNone(IsMarker, u);
  }

  /** The ExpectsException markers come out in the order they were written. */
  lemma SortAttributesKeepsExpectOrder(s: seq<Attr>)
    ensures Filter(IsExpect, SortAttributes(s)) == Filter(IsExpect, s)
  {
    SortAttributesStable(s);
    FilterFilter(IsExpect, IsMarker, SortAttributes(s));
    FilterFilter(IsExpect, IsMarker, s);
  }

  /**
   * When no number below -1 is present, `Ignore` comes first after sorting
   * whenever it is present, so the builder meets it before anything else.
   */
  lemma SortAttributesIgnoreFirst(s: seq<Attr>)
    requires Ignore in s
    requires forall k :: 0 <= k < |s| && s[k].Num? ==> s[k].n >= -1
    ensures |SortAttributes(s)| > 0 && SortAttributes(s)[0] == Ignore
  {
    var r := SortAttributes(s);
    SortAttributesSorted(s);
    assert Ignore in multiset(r);
    var j :| 0 <= j < |r| && r[j] == Ignore;
    if j > 0 {
      assert Le(r[0], r[j]);
      assert r[0] in multiset(s);
      var m :| 0 <= m < |s| && s[m] == r[0];
    }
  }

  /** A number below -1 sorts before `Ignore`, so the builder handles it first. */
  lemma LowerNumberSortsBeforeIgnore()
    ensures SortAttributes([Ignore, Num(-2)]) == [Num(-2), Ignore]
  {
    assert Filter(IsDefined, [Ignore, Num(-2)]) == [Ignore, Num(-2)] by {
      assert [Ignore, Num(-2)][..1] == [Ignore];
      assert [Ignore][..0] == [];
    }
    assert Filter(IsUndefined, [Ignore, Num(-2)]) == [] by {
      assert [Ignore, Num(-2)][..1] == [Ignore];
      assert [Ignore][..0] == [];
    }
    assert InsertionSort([Ignore]) == [Ignore] by {
      assert [Ignore][..0] == [];
    }
    assert [Ignore, Num(-2)][..1] == [Ignore];
    assert InsertionSort([Ignore, Num(-2)]) == InsertAttr([Ignore], Num(-2));
    assert [Ignore][..0] == [];
    assert InsertAttr([Ignore], Num(-2)) == [Num(-2), Ignore];
  }
}
