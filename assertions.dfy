/**
 * The `assert` object: each predicate returns when its condition holds and
 * otherwise throws an AssertFailure carrying a message built from the values.
 */
module Assertions {
  import opened JsValues

  /** The type tag shown in a message: nothing for objects and functions, "(type)" otherwise. */
  function TypeTag(t: string): string
  {
    if t == "object" || t == "function" then "" else "(" + t + ")"
  }

  /** The tags for two values: none when their `typeof` agree, else one tag each. */
  function Tags(a: Value, b: Value): (string, string)
  {
    if TypeOf(a) == TypeOf(b) then ("", "") else (TypeTag(TypeOf(a)), TypeTag(TypeOf(b)))
  }

  function Fail(message: string): (o: Outcome)
    ensures o.Raises? && o.kind == AssertFailure && o.message == message
  {
    Raises(AssertFailure, message)
  }

  /** `assert.isEqual(actual, expected)`. */
  function IsEqual(actual: Value, expected: Value): (o: Outcome)
    ensures o.Completes? <==> StrictEq(actual, expected)
    ensures o.Raises? ==> o.kind == AssertFailure
  {
    if StrictEq(actual, expected) then Completes
    else
      var (actualTag, expectedTag) := Tags(actual, expected);
      Fail("Expected " + expectedTag + ToStr(expected) + " but received " + actualTag + ToStr(actual) + ".")
  }

  /** Values of one type are compared without tags. */
  lemma IsEqualSameTypeUntagged(actual: Value, expected: Value)
    requires !StrictEq(actual, expected) && TypeOf(actual) == TypeOf(expected)
    ensures IsEqual(actual, expected).message ==
      "Expected " + ToStr(expected) + " but received " + ToStr(actual) + "."
  {
  }

  /** Values of different types are tagged, except objects, null and functions. */
  lemma IsEqualDifferentTypesTagged(actual: Value, expected: Value)
    requires TypeOf(actual) != TypeOf(expected)
    ensures IsEqual(actual, expected).Raises?
    ensures IsEqual(actual, expected).message ==
      "Expected " + TypeTag(TypeOf(expected)) + ToStr(expected) +
      " but received " + TypeTag(TypeOf(actual)) + ToStr(actual) + "."
  {
    if StrictEq(actual, expected) {
      StrictEqSameType(actual, expected);
    }
  }

  /** `assert.notEqual(a, b)`. */
  function NotEqual(a: Value, b: Value): (o: Outcome)
    ensures o.Completes? <==> !StrictEq(a, b)
    ensures o.Raises? ==> o.kind == AssertFailure
  {
    if !StrictEq(a, b) then Completes
    else
      var (tagA, tagB) := Tags(a, b);
      Fail("Values should not be equal: " + tagA + ToStr(a) + " and " + tagB + ToStr(b) + ".")
  }

  /**
   * The tags in notEqual's message are never shown: it complains only about
   * strictly equal values, and those always have the same type.
   */
  lemma NotEqualNeverTagged(a: Value, b: Value)
    requires StrictEq(a, b)
    ensures NotEqual(a, b) == Fail("Values should not be equal: " + ToStr(a) + " and " + ToStr(b) + ".")
  {
    StrictEqSameType(a, b);
    assert Tags(a, b) == ("", "");
    var prefix := "Values should not be equal: ";
    assert prefix + "" + ToStr(a) + " and " + "" + ToStr(b) + "." == prefix + ToStr(a) + " and " + ToStr(b) + ".";
  }

  /** `assert.notNull(value)`. */
  function NotNull(value: Value): (o: Outcome)
    ensures o.Completes? <==> value != Null
    ensures o.Raises? ==> o == Fail("Unexpected null Value.")
  {
    if value == Null then Fail("Unexpected null Value.") else Completes
  }

  /** `assert.isNull(value)`: undefined is not null. */
  function IsNull(value: Value): (o: Outcome)
    ensures o.Completes? <==> value == Null
    ensures o.Raises? ==> o == Fail("Expected null Value, but got " + ToStr(value) + ".")
  {
    if value != Null then Fail("Expected null Value, but got " + ToStr(value) + ".") else Completes
  }

  /** `assert.isTrue(flag)`: only the boolean true passes, not a truthy value. */
  function IsTrue(flag: Value): (o: Outcome)
    ensures o.Completes? <==> flag == Bool(true)
    ensures o.Raises? ==> o == Fail("Expected true.")
  {
    if flag != Bool(true) then Fail("Expected true.") else Completes
  }

  /** `assert.isFalse(flag)`: only the boolean false passes, not a falsy value. */
  function IsFalse(flag: Value): (o: Outcome)
    ensures o.Completes? <==> flag == Bool(false)
    ensures o.Raises? ==> o == Fail("Expected false.")
  {
    if flag != Bool(false) then Fail("Expected false.") else Completes
  }

  /** NaN is never equal to itself, so isEqual(NaN, NaN) fails and notEqual(NaN, NaN) passes. */
  lemma NaNNeverEqual()
    ensures IsEqual(NaN, NaN).Raises?
    ensures NotEqual(NaN, NaN) == Completes
  {
  }

  /** Equality is by identity for objects: two objects with the same text differ. */
  lemma ObjectsByIdentity(r: nat, q: nat, text: string)
    requires r != q
    ensures IsEqual(Object(r, text), Object(q, text)) == Fail("Expected " + text + " but received " + text + ".")
  {
  }

  /** Of a number and a function only the number is tagged. */
  lemma NumberAgainstFunction(ref: nat, text: string)
    ensures IsEqual(Number(1), Function(ref, text)) == Fail("Expected " + text + " but received (number)1.")
  {
    assert "number"[0] != "function"[0];
    IsEqualDifferentTypesTagged(Number(1), Function(ref, text));
    assert "number"[0] != "object"[0];
    assert TypeTag("number") == "(number)";
    assert ToStr(Number(1)) == "1";
    assert "(number)" + "1" + "." == "(number)1.";
    assert " but received " + "(number)1." == " but received (number)1.";
  }
}
