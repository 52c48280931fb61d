/**
 * What the component shows under "Error:": the block appears only when `error` is a
 * non-empty string, and its text carries a "Line N: " prefix only when `errorLine` is truthy.
 */
module ErrorView {
  import opened Wrappers
  import opened Decimal

  /** JavaScript truthiness of `error`: `null` and `""` are falsy. */
  predicate ErrorShown(error: Option<string>) {
    error.Some? && error.value != ""
  }

  /** JavaScript truthiness of `errorLine`: `null` and `0` are falsy, every other integer is truthy. */
  predicate LineTruthy(errorLine: Option<int>) {
    errorLine.Some? && errorLine.value != 0
  }

  function LinePrefix(errorLine: Option<int>): string {
    if LineTruthy(errorLine) then "Line " + ShowInt(errorLine.value) + ": " else ""
  }

  /** The text of the error block, or None when the block is not rendered at all. */
  function ErrorBlock(error: Option<string>, errorLine: Option<int>): (r: Option<string>)
    ensures r.Some? <==> ErrorShown(error)
    ensures r.Some? ==> |r.value| >= |error.value| && r.value[|r.value| - |error.value|..] == error.value
    ensures r.Some? && !LineTruthy(errorLine) ==> r.value == error.value
    ensures r.Some? && LineTruthy(errorLine) ==> |r.value| > |error.value| + 7 && r.value[..5] == "Line "
  {
    if ErrorShown(error) then Some(LinePrefix(errorLine) + error.value) else None
  }

  /**
   * Reads a string of the form "Line " + decimal integer + ": " + text back into the
   * line number and the text; None for any other string.
   */
  function SplitLabel(text: string): Option<(int, string)> {
    if |text| < 5 || text[..5] != "Line " then None
    else if |text| > 5 && text[5] == '-' then
      match ReadNumberAndText(text[6..])
      case Some((m, rest)) => Some((-(m as int), rest))
      case None => None
    else
      match ReadNumberAndText(text[5..])
      case Some((m, rest)) => Some((m as int, rest))
      case None => None
  }

  /**
   * Reads a run of digits followed by ": " and returns its value and whatever follows.
   * The digits must be a rendering the label can hold: no leading zero, and not 0,
   * since a zero line number gets no prefix.
   */
  function ReadNumberAndText(s: string): Option<(nat, string)> {
    var k := SpanDigits(s);
    if k == 0 || s[0] == '0' || |s| < k + 2 || s[k..k + 2] != ": " then None
    else Some((DigitsValue(s[..k]), s[k + 2..]))
  }

  /** Whatever ReadNumberAndText accepts is a positive number's rendering, ": ", and the rest. */
  lemma ReadNumberAndTextInverse(s: string)
    requires ReadNumberAndText(s).Some?
    ensures ReadNumberAndText(s).value.0 > 0
    ensures s == ShowNat(ReadNumberAndText(s).value.0) + ": " + ReadNumberAndText(s).value.1
  {
    var k := SpanDigits(s);
    var d := s[..k];
    assert d[0] == s[0];
    DigitsValuePositive(d);
    ShowNatOfDigitsValue(d);
    assert s == d + s[k..k + 2] + s[k + 2..];
  }

  lemma ReadNumberAndTextOfShowNat(m: nat, e: string)
    requires m > 0
    ensures ReadNumberAndText(ShowNat(m) + ": " + e) == Some((m, e))
  {
    var digits := ShowNat(m);
    var s := digits + (": " + e);
    assert s == ShowNat(m) + ": " + e;
    SpanDigitsOfAppend(digits, ": " + e);
    assert s[..|digits|] == digits && s[0] == digits[0];
    assert s[|digits|..|digits| + 2] == ": ";
    assert s[|digits| + 2..] == e;
    DigitsValueOfShowNat(m);
  }

  lemma SplitLabelOfNegative(m: nat, e: string)
    requires m > 0
    ensures SplitLabel(LinePrefix(Some(-(m as int))) + e) == Some((-(m as int), e))
  {
    var after := ShowNat(m) + ": " + e;
    var t := LinePrefix(Some(-(m as int))) + e;
    assert ShowInt(-(m as int)) == "-" + ShowNat(m);
    assert t == "Line " + "-" + after;
    assert t[..5] == "Line " && t[5] == '-' && t[6..] == after;
    ReadNumberAndTextOfShowNat(m, e);
  }

  lemma SplitLabelOfPositive(m: nat, e: string)
    requires m > 0
    ensures SplitLabel(LinePrefix(Some(m)) + e) == Some((m as int, e))
  {
    var after := ShowNat(m) + ": " + e;
    var t := LinePrefix(Some(m)) + e;
    assert t == "Line " + after;
    assert t[..5] == "Line " && t[5..] == after;
    assert t[5] == ShowNat(m)[0];
    ReadNumberAndTextOfShowNat(m, e);
  }

  /** A "Line N: " label gives back exactly the line number and the error text it was built from. */
  lemma SplitLabelOfErrorBlock(error: Option<string>, errorLine: Option<int>)
    requires ErrorShown(error) && LineTruthy(errorLine)
    ensures SplitLabel(ErrorBlock(error, errorLine).value) == Some((errorLine.value, error.value))
  {
    var n := errorLine.value;
    if n < 0 {
      SplitLabelOfNegative(-n, error.value);
    } else {
      SplitLabelOfPositive(n, error.value);
    }
  }

  lemma SplitLabelInverseNegative(text: string)
    requires |text| > 5 && text[..5] == "Line " && text[5] == '-'
    requires ReadNumberAndText(text[6..]).Some?
    ensures var (m, e) := ReadNumberAndText(text[6..]).value;
            m > 0 && text == LinePrefix(Some(-(m as int))) + e
  {
    var rest := text[6..];
    ReadNumberAndTextInverse(rest);
    var (m, e) := ReadNumberAndText(rest).value;
    assert ShowInt(-(m as int)) == "-" + ShowNat(m);
    calc {
      LinePrefix(Some(-(m as int))) + e;
      "Line " + ("-" + ShowNat(m)) + ": " + e;
      "Line " + "-" + (ShowNat(m) + ": " + e);
      text[..5] + [text[5]] + rest;
      text;
    }
  }

  lemma SplitLabelInversePositive(text: string)
    requires |text| >= 5 && text[..5] == "Line "
    requires ReadNumberAndText(text[5..]).Some?
    ensures var (m, e) := ReadNumberAndText(text[5..]).value;
            m > 0 && text == LinePrefix(Some(m as int)) + e
  {
    var rest := text[5..];
    ReadNumberAndTextInverse(rest);
    var (m, e) := ReadNumberAndText(rest).value;
    calc {
      LinePrefix(Some(m as int)) + e;
      "Line " + ShowNat(m) + ": " + e;
      "Line " + (ShowNat(m) + ": " + e);
      text[..5] + rest;
      text;
    }
  }

  /**
   * The converse: a string SplitLabel accepts is exactly the "Line N: " prefix of a
   * truthy line number followed by the text, so the digits of a label are pinned down.
   */
  lemma SplitLabelOnlyOfPrefix(text: string, n: int, e: string)
    requires SplitLabel(text) == Some((n, e))
    ensures LineTruthy(Some(n)) && text == LinePrefix(Some(n)) + e
  {
    if |text| > 5 && text[5] == '-' {
      SplitLabelInverseNegative(text);
    } else {
      SplitLabelInversePositive(text);
    }
  }

  /** A remote error reported at line 3, such as a NameError, is shown as "Line 3: " and the error text. */
  lemma ErrorAtLineThree(e: string)
    requires e != ""
    ensures ErrorBlock(Some(e), Some(3)) == Some("Line 3: " + e)
  {
    assert ShowNat(3) == "3";
    assert "Line " + "3" + ": " == "Line 3: ";
  }
}
