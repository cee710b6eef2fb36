/** normalizeTests: from the user's name-to-definition map to a sequence of Test records. */
module Normalizer {
  import opened Wrappers
  import opened JsValues
  import opened Seqs
  import opened Attributes
  import opened TestRecord

  /**
   * A value of the definition map: a bare function, an `[attributes, function]`
   * array, or any other value (which the normalizer drops).
   */
  datatype Definition = Bare(body: Outcome) | Attributed(attrs: seq<Attr>, body: Outcome) | OtherShape

  /** A map entry, in the map's iteration order. */
  type Entry = (string, Definition)

  predicate IsTestShape(e: Entry)
  {
    !e.1.OtherShape?
  }

  /** The Test an entry becomes, if any. */
  function NormalizeEntry(e: Entry): (r: seq<TestView>)
    ensures |r| == (if IsTestShape(e) then 1 else 0)
    ensures |r| == 1 ==> r[0].name == e.0 && r[0].body == e.1.body && r[0].expected == []
    ensures |r| == 1 ==> (r[0].attributes.None? <==> e.1.Bare?)
    ensures |r| == 1 && e.1.Attributed? ==> multiset(r[0].attributes.value) == multiset(e.1.attrs)
  {
    match e.1
    case Bare(body) => [TestView(e.0, body, None, [])]
    case Attributed(attrs, body) => [TestView(e.0, body, Some(SortAttributes(attrs)), [])]
    case OtherShape => []
  }

  function NormalizeSpec(defs: seq<Entry>): (r: seq<TestView>)
    ensures |r| <= |defs|
  {
    if defs == [] then [] else NormalizeSpec(defs[..|defs| - 1]) + NormalizeEntry(defs[|defs| - 1])
  }

  lemma NormalizeSpecSnoc(defs: seq<Entry>, e: Entry)
    ensures NormalizeSpec(defs + [e]) == NormalizeSpec(defs) + NormalizeEntry(e)
  {
    assert (defs + [e])[..|defs|] == defs;
  }

  /**
   * One Test per function or array entry, in iteration order; every other
   * entry is dropped. Each Test starts with no expected exception; a bare
   * function gets no attributes and an array gets its attributes sorted.
   */
  lemma {:induction false} NormalizeSpecKeepsTestShapes(defs: seq<Entry>)
    ensures |NormalizeSpec(defs)| == |Filter(IsTestShape, defs)|
    ensures forall k :: 0 <= k < |NormalizeSpec(defs)| ==>
      NormalizeEntry(Filter(IsTestShape, defs)[k]) == [NormalizeSpec(defs)[k]]
    decreases |defs|
  {
    if defs != [] {
      var init := defs[..|defs| - 1];
      var e := defs[|defs| - 1];
      assert defs == init + [e];
      NormalizeSpecKeepsTestShapes(init);
      FilterSnoc(IsTestShape, init, e);
    }
  }

  /** Every normalized Test starts with an empty expected-exception list. */
  lemma {:induction false} NormalizeSpecExpectsNothing(defs: seq<Entry>)
    ensures forall k :: 0 <= k < |NormalizeSpec(defs)| ==> NormalizeSpec(defs)[k].expected == []
    decreases |defs|
  {
    if defs != [] {
      NormalizeSpecExpectsNothing(defs[..|defs| - 1]);
    }
  }

  /** The Test object for a function or array entry. */
  method NewTest(e: Entry) returns (t: Test)
    requires IsTestShape(e)
    ensures fresh(t)
    ensures [t.View()] == NormalizeEntry(e)
  {
    var (name, def) := e;
    if def.Bare? {
      t := new Test(def.body, name, None);
    } else {
      t := new Test(def.body, name, Some(SortAttributes(def.attrs)));
    }
  }

  /** `normalizeTests`: walks the entries and pushes a new Test for each function or array. */
  method NormalizeTests(tests: seq<Entry>) returns (normalized: seq<Test>)
    ensures forall k :: 0 <= k < |normalized| ==> fresh(normalized[k])
    ensures Distinct(normalized)
    ensures Views(normalized) == NormalizeSpec(tests)
  {
    normalized := [];
    for i := 0 to |tests|
      invariant forall k :: 0 <= k < |normalized| ==> fresh(normalized[k])
      invariant Distinct(normalized)
      invariant Views(normalized) == NormalizeSpec(tests[..i])
    {
      var def := tests[i].1;
      assert tests[..i + 1] == tests[..i] + [tests[i]];
      NormalizeSpecSnoc(tests[..i], tests[i]);
      if !def.OtherShape? {
        var t := NewTest(tests[i]);
        DistinctSnoc(normalized, t);
        ViewsSnoc(normalized, t);
        normalized := normalized + [t];
      }
    }
    assert tests[..|tests|] == tests;
  }
}
