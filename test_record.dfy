/** The Test record: a named procedure, its sorted attributes and the exception kinds it expects. */
module TestRecord {
  import opened Wrappers
  import opened JsValues
  import opened Attributes

  /** The value of a Test object's fields at one moment. */
  datatype TestView = TestView(name: string, body: Outcome, attributes: Option<seq<Attr>>, expected: seq<Kind>)

  /** The expected list after `expectException(arg)`: null and non-function arguments leave it as it is. */
  function ExpectedAfter(expected: seq<Kind>, arg: CtorArg): seq<Kind>
  {
    if arg.Ctor? then expected + [arg.kind] else expected
  }

  /** The kinds among `args`, in order, null and non-function arguments left out. */
  function CtorKinds(args: seq<CtorArg>): seq<Kind>
  {
    if args == [] then [] else ExpectedAfter([], args[0]) + CtorKinds(args[1..])
  }

  /** The display names of the kinds, in order. */
  function Names(kinds: seq<Kind>): (names: seq<string>)
    ensures |names| == |kinds|
    ensures forall i :: 0 <= i < |kinds| ==> names[i] == kinds[i].name
  {
    seq(|kinds|, i requires 0 <= i < |kinds| => kinds[i].name)
  }

  class Test {
    const body: Outcome
    const name: string
    const attributes: Option<seq<Attr>>
    var expectedExceptions: seq<Kind>

    constructor (body: Outcome, name: string, attributes: Option<seq<Attr>>)
      ensures this.body == body && this.name == name && this.attributes == attributes
      ensures expectedExceptions == []
    {
      this.body := body;
      this.name := name;
      this.attributes := attributes;
      expectedExceptions := [];
    }

    function View(): TestView
      reads this
    {
      TestView(name, body, attributes, expectedExceptions)
    }

    /** Whether `expected` is one of the expected kinds (compared by identity). */
    method ExpectsException(expected: Kind) returns (found: bool)
      ensures found <==> expected in expectedExceptions
    {
      var i := 0;
      while i < |expectedExceptions|
        invariant 0 <= i <= |expectedExceptions|
        invariant expected !in expectedExceptions[..i]
      {
        if expected == expectedExceptions[i] {
          return true;
        }
        i := i + 1;
      }
      assert expectedExceptions[..i] == expectedExceptions;
      return false;
    }

    function ExpectsAnyException(): (any: bool)
      reads this
      ensures any <==> exists k :: k in expectedExceptions
    {
      if |expectedExceptions| > 0 then assert expectedExceptions[0] in expectedExceptions; true else false
    }

    /** Appends `ex` to the expected kinds when it is a constructor; ignores null and other values. */
    method ExpectException(ex: CtorArg)
      modifies this
      ensures expectedExceptions == ExpectedAfter(old(expectedExceptions), ex)
    {
      if ex == NullArg { return; }
      if !ex.Ctor? { return; }
      expectedExceptions := expectedExceptions + [ex.kind];
    }

    /** The display name of each expected kind, in order. */
    method GetExpectedExceptionList() returns (list: seq<string>)
      ensures |list| == |expectedExceptions|
      ensures forall i :: 0 <= i < |list| ==> list[i] == expectedExceptions[i].name
    {
      list := [];
      for i := 0 to |expectedExceptions|
        invariant |list| == i
        invariant forall j :: 0 <= j < i ==> list[j] == expectedExceptions[j].name
      {
        list := list + [expectedExceptions[i].name];
      }
    }
  }

  /** The fields of each Test in `ts`. */
  function Views(ts: seq<Test>): (vs: seq<TestView>)
    reads ts
    ensures |vs| == |ts|
    ensures forall k :: 0 <= k < |ts| ==> vs[k] == ts[k].View()
  {
    seq(|ts|, k reads ts requires 0 <= k < |ts| => ts[k].View())
  }

  lemma ViewsSnoc(ts: seq<Test>, t: Test)
    ensures Views(ts + [t]) == Views(ts) + [t.View()]
  {
  }
}
