/**
 * The footer shown after a finished run: "Passed: p / t = x%", where x is the
 * pass percentage cut to its first five characters when it has a decimal point.
 */
module Stats {
  import opened JsValues

  /** `passed / (total > 0 ? total : 1) * 100`, computed exactly. */
  function Percent(passed: nat, failed: nat): (p: real)
    ensures 0.0 <= p <= 100.0
    ensures passed + failed == 0 ==> p == 0.0
    ensures passed + failed > 0 ==> p * (passed + failed) as real == 100.0 * passed as real
    ensures passed > 0 && failed == 0 ==> p == 100.0
  {
    var total := passed + failed;
    var q := (passed as real) / (if total > 0 then total as real else 1.0);
    RatioBounds(passed, if total > 0 then total else 1);
    q * 100.0
  }

  lemma RatioBounds(a: nat, b: nat)
    requires a <= b && b > 0
    ensures 0.0 <= a as real / b as real <= 1.0
  {
    var q := a as real / b as real;
    assert q * b as real == a as real;
  }

  /** `String.prototype.indexOf(c)`: the first position of `c`, or -1. */
  function IndexOf(s: string, c: char): (i: int)
    ensures -1 <= i < |s|
    ensures i == -1 <==> c !in s
    ensures i >= 0 ==> s[i] == c && c !in s[..i]
  {
    if s == [] then -1
    else if s[0] == c then 0
    else
      var j := IndexOf(s[1..], c);
      assert j >= 0 ==> s[1..][..j] == s[1..j + 1];
      if j == -1 then -1 else j + 1
  }

  /** The percentage text: cut to five characters when a '.' appears after the first character. */
  function TrimPercent(text: string): (t: string)
    ensures IndexOf(text, '.') > 0 ==> t == text[..if |text| < 5 then |text| else 5]
    ensures IndexOf(text, '.') <= 0 ==> t == text
  {
    if IndexOf(text, '.') > 0 then text[..if |text| < 5 then |text| else 5] else text
  }

  /** A text without a decimal point, such as a whole percentage, is shown unchanged. */
  lemma WholeNumberUntrimmed(text: string)
    requires '.' !in text
    ensures TrimPercent(text) == text
  {
  }

  /** Cutting keeps a prefix of at most five characters and never rounds. */
  lemma TrimKeepsPrefix(text: string)
    ensures |TrimPercent(text)| <= |text|
    ensures TrimPercent(text) == text[..|TrimPercent(text)|]
    ensures IndexOf(text, '.') > 0 ==> |TrimPercent(text)| <= 5
  {
  }

  /** The footer text, given the host's decimal text for the percentage. */
  function Footer(passed: nat, failed: nat, percentText: string): (msg: string)
  {
    "Passed: " + NatToString(passed) + " / " + NatToString(passed + failed) + " = " + TrimPercent(percentText) + "%"
  }

  /** One pass out of four: 25 percent, shown as "Passed: 1 / 4 = 25%". */
  lemma OneOfFour()
    ensures Percent(1, 3) == 25.0
    ensures Footer(1, 3, "25") == "Passed: 1 / 4 = 25%"
  {
  }

  /** A text whose first '.' is at position `i > 0` is cut to its first five characters. */
  lemma CutAtDecimalPoint(text: string, i: nat)
    requires 0 < i < |text| && text[i] == '.' && '.' !in text[..i]
    ensures TrimPercent(text) == text[..if |text| < 5 then |text| else 5]
  {
    assert text[i] in text;
  }

  lemma SevenOfTwentyFivePercent()
    ensures Percent(7, 18) == 28.0
  {
  }

  /** The host prints 7 / 25 * 100 as 28.000000000000004, which is shown as 28.00. */
  lemma SevenOfTwentyFiveShown()
    ensures TrimPercent("28.000000000000004") == "28.00"
  {
    CutAtDecimalPoint("28.000000000000004", 2);
  }

  /** Cut, not rounded: 66.66666666666666 is shown as 66.66. */
  lemma TwoOfThreeShown()
    ensures TrimPercent("66.66666666666666") == "66.66"
  {
    CutAtDecimalPoint("66.66666666666666", 2);
  }
}
