/**
 * The JavaScript values the engine inspects: exception constructors ("kinds"),
 * what running a procedure does, and the plain values the assert predicates
 * compare, with `typeof`, `===` and string conversion.
 */
module JsValues {

  /**
   * An exception constructor. Two kinds are the same constructor exactly when
   * they are equal; `name` is the `name` of an instance made with `new`.
   */
  datatype Kind = Kind(id: nat, name: string)

  const AssertFailure: Kind := Kind(0, "AssertFailure")
  const Error: Kind := Kind(1, "Error")
  const RangeError: Kind := Kind(2, "RangeError")

  /** What calling a procedure (a test body or a hook) does. */
  datatype Outcome = Completes | Raises(kind: Kind, message: string)

  /**
   * A JavaScript value. Numbers are integers or NaN; an object or a function is
   * identified by `ref` and carries the text that string conversion gives it.
   */
  datatype Value =
    | Undefined
    | Null
    | Bool(b: bool)
    | Number(n: int)
    | NaN
    | Str(s: string)
    | Object(ref: nat, text: string)
    | Function(ref: nat, text: string)

  /** JavaScript `typeof` (note `typeof null` is "object"). */
  function TypeOf(v: Value): (t: string)
    ensures t in ["undefined", "object", "boolean", "number", "string", "function"]
    ensures t == "object" <==> v.Null? || v.Object?
  {
    match v
    case Undefined => "undefined"
    case Null => "object"
    case Bool(_) => "boolean"
    case Number(_) => "number"
    case NaN => "number"
    case Str(_) => "string"
    case Object(_, _) => "object"
    case Function(_, _) => "function"
  }

  /** JavaScript `===`: no coercion, NaN differs from itself, objects by identity. */
  predicate StrictEq(a: Value, b: Value)
  {
    match (a, b)
    case (Undefined, Undefined) => true
    case (Null, Null) => true
    case (Bool(x), Bool(y)) => x == y
    case (Number(x), Number(y)) => x == y
    case (Str(x), Str(y)) => x == y
    case (Object(r, _), Object(q, _)) => r == q
    case (Function(r, _), Function(q, _)) => r == q
    case _ => false
  }

  /** Strictly equal values have the same `typeof`. */
  lemma StrictEqSameType(a: Value, b: Value)
    requires StrictEq(a, b)
    ensures TypeOf(a) == TypeOf(b)
  {
  }

  /** `===` is symmetric, and every value except NaN is strictly equal to itself. */
  lemma StrictEqSymmetricReflexive(a: Value, b: Value)
    ensures StrictEq(a, b) <==> StrictEq(b, a)
    ensures StrictEq(a, a) <==> a != NaN
  {
  }

  function DigitChar(d: nat): char
    requires d < 10
  {
    ('0' as int + d) as char
  }

  function DigitValue(c: char): nat
  {
    if '0' <= c <= '9' then (c as int - '0' as int) as nat else 0
  }

  /** The decimal digits of `n`, most significant first, with no leading zero. */
  function NatToString(n: nat): (s: string)
    ensures |s| > 0
    ensures forall k :: 0 <= k < |s| ==> '0' <= s[k] <= '9'
    ensures |s| > 1 ==> s[0] != '0'
  {
    if n < 10 then [DigitChar(n)] else NatToString(n / 10) + [DigitChar(n % 10)]
  }

  /** Reading decimal digits back, the inverse of NatToString. */
  function ParseNat(s: string): nat
  {
    if s == [] then 0 else ParseNat(s[..|s| - 1]) * 10 + DigitValue(s[|s| - 1])
  }

  lemma {:induction false} ParseNatToString(n: nat)
    ensures ParseNat(NatToString(n)) == n
  {
    var s := NatToString(n);
    if n < 10 {
      assert s[..0] == [];
    } else {
      ParseNatToString(n / 10);
      assert s[..|s| - 1] == NatToString(n / 10);
    }
  }

  /** Distinct numbers print differently. */
  lemma NatToStringInjective(m: nat, n: nat)
    requires NatToString(m) == NatToString(n)
    ensures m == n
  {
    ParseNatToString(m);
    ParseNatToString(n);
  }

  /** JavaScript string conversion `'' + v` of an integer. */
  function IntToString(i: int): string
  {
    if i < 0 then "-" + NatToString(-i) else NatToString(i)
  }

  /** Different integers have different string forms. */
  lemma IntToStringInjective(m: int, n: int)
    requires IntToString(m) == IntToString(n)
    ensures m == n
  {
    if m < 0 && n < 0 {
      assert NatToString(-m) == IntToString(m)[1..];
      NatToStringInjective(-m, -n);
    } else if m >= 0 && n >= 0 {
      NatToStringInjective(m, n);
    }
  }

  /** JavaScript string conversion `'' + v`. */
  function ToStr(v: Value): string
  {
    match v
    case Undefined => "undefined"
    case Null => "null"
    case Bool(b) => if b then "true" else "false"
    case Number(n) => IntToString(n)
    case NaN => "NaN"
    case Str(s) => s
    case Object(_, text) => text
    case Function(_, text) => text
  }
}
