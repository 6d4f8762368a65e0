/**
 * The slice of JavaScript value semantics that the mini-app's decision logic
 * depends on: `undefined`/`null`, truthiness, `x == null`, `x == true`,
 * numeric conversion of strings, and property reads that throw on
 * `null`/`undefined`.
 */
module JsValues {

  datatype Option<+T> = None | Some(value: T) {
    function GetOr(default: T): T {
      match this
      case Some(v) => v
      case None => default
    }
  }

  /** A JavaScript value. Functions are not values here; callbacks are
      identified separately (see BeepSDK.CbId). NaN is not represented. */
  datatype JsValue =
    | JUndefined
    | JNull
    | JBool(b: bool)
    | JNum(n: real)
    | JStr(s: string)
    | JArr(items: seq<JsValue>)
    | JObj(props: map<string, JsValue>)

  /** `v == null` (loose equality holds for both null and undefined). */
  predicate IsNullish(v: JsValue) {
    v.JUndefined? || v.JNull?
  }

  /** JavaScript truthiness (`if (v)`), NaN aside. */
  predicate Truthy(v: JsValue) {
    match v
    case JUndefined => false
    case JNull => false
    case JBool(b) => b
    case JNum(n) => n != 0.0
    case JStr(s) => s != ""
    case JArr(_) => true
    case JObj(_) => true
  }

  /** `v.k`: None when the read throws a TypeError (v is null or undefined).
      Strings and arrays expose `length`; other own properties of primitives
      and arrays read as undefined. */
  function Get(v: JsValue, k: string): (r: Option<JsValue>)
    ensures r.None? <==> IsNullish(v)
    ensures v.JObj? ==> r == Some(if k in v.props then v.props[k] else JUndefined)
  {
    match v
    case JUndefined => None
    case JNull => None
    case JObj(p) => Some(if k in p then p[k] else JUndefined)
    case JArr(a) => Some(if k == "length" then JNum(|a| as real) else JUndefined)
    case JStr(s) => Some(if k == "length" then JNum(|s| as real) else JUndefined)
    case _ => Some(JUndefined)
  }

  /** `v.k != null` evaluated without throwing: the property exists and is
      neither null nor undefined. */
  predicate HasField(v: JsValue, k: string) {
    Get(v, k).Some? && !IsNullish(Get(v, k).value)
  }

  /** The message V8 puts in the TypeError thrown by reading property `k`
      of a null or undefined `v`. */
  function ReadErrorMessage(v: JsValue, k: string): string {
    "TypeError: Cannot read properties of "
      + (if v.JNull? then "null" else "undefined")
      + " (reading '" + k + "')"
  }

  // ---------------------------------------------------------------------------
  // Numbers from strings

  predicate IsDigit(c: char) {
    '0' <= c <= '9'
  }

  predicate AllDigits(s: string) {
    forall i :: 0 <= i < |s| ==> IsDigit(s[i])
  }

  /** The value of a string of decimal digits, most significant first. */
  function DigitsValue(s: string): (n: nat)
    requires AllDigits(s)
  {
    if s == [] then 0
    else DigitsValue(s[..|s| - 1]) * 10 + ((s[|s| - 1] as int) - ('0' as int))
  }

  function Pow10(k: nat): (p: nat)
    ensures p >= 1
  {
    if k == 0 then 1 else 10 * Pow10(k - 1)
  }

  /** Position of the first '.', or |s| when there is none. */
  function DotIndex(s: string): (i: nat)
    ensures i <= |s|
    ensures i < |s| ==> s[i] == '.'
    ensures forall j :: 0 <= j < i ==> s[j] != '.'
  {
    if s == [] then 0
    else if s[0] == '.' then 0
    else 1 + DotIndex(s[1..])
  }

  /** An unsigned decimal literal: "12", "12.5", ".5" or "12."; at least one digit. */
  function UnsignedDecimal(s: string): (r: Option<real>)
    ensures r.Some? ==> r.value >= 0.0
    ensures s != "" && AllDigits(s) ==> r == Some(DigitsValue(s) as real)
  {
    var i := DotIndex(s);
    var whole := s[..i];
    assert AllDigits(s) ==> i == |s| && whole == s by {
      assert !IsDigit('.');
    }
    var frac := if i < |s| then s[i + 1..] else "";
    if AllDigits(whole) && AllDigits(frac) && |whole| + |frac| > 0 then Some(DecimalValue(whole, frac))
    else None
  }

  /** The value of the literal `whole.frac`. */
  function DecimalValue(whole: string, frac: string): real
    requires AllDigits(whole) && AllDigits(frac)
  {
    DigitsValue(whole) as real + (DigitsValue(frac) as real) / (Pow10(|frac|) as real)
  }

  /** A digit string, a '.', and a digit string, at least one digit in all,
      is the whole part plus the fraction scaled by its number of digits. */
  lemma UnsignedDecimalParts(whole: string, frac: string)
    requires AllDigits(whole) && AllDigits(frac) && |whole| + |frac| > 0
    ensures UnsignedDecimal(whole + "." + frac) == Some(DecimalValue(whole, frac))
  {
    var s := whole + "." + frac;
    DotAfterDigits(whole, frac);
    assert s[..|whole|] == whole;
    assert s[|whole| + 1..] == frac;
  }

  lemma DotAfterDigits(whole: string, frac: string)
    requires AllDigits(whole)
    ensures DotIndex(whole + "." + frac) == |whole|
  {
    assert (whole + "." + frac)[|whole|] == '.';
  }

  /** A string without a digit, such as "" or ".", is no decimal literal. */
  lemma UnsignedDecimalNeedsDigit(s: string)
    requires forall k :: 0 <= k < |s| ==> !IsDigit(s[k])
    ensures UnsignedDecimal(s).None?
  {
    var i := DotIndex(s);
    if i > 0 {
      assert !IsDigit(s[..i][0]);
    } else if i < |s| && |s| > 1 {
      assert !IsDigit(s[i + 1..][0]);
    }
  }

  /** `Number(s)` for strings: "" is 0, an optionally signed decimal literal
      is its value, anything else is NaN (None). */
  function StringToNumber(s: string): (r: Option<real>)
    ensures s == "" ==> r == Some(0.0)
    ensures (|s| > 0 && IsDigit(s[0]) && AllDigits(s)) ==> r == Some(DigitsValue(s) as real)
    ensures |s| > 0 && s[0] == '-'
            ==> (r.Some? <==> UnsignedDecimal(s[1..]).Some?)
                && (r.Some? ==> r.value == -UnsignedDecimal(s[1..]).value)
    ensures |s| > 0 && s[0] == '+' ==> r == UnsignedDecimal(s[1..])
    ensures |s| > 0 && s[0] != '-' && s[0] != '+' ==> r == UnsignedDecimal(s)
    ensures r.Some? && r.value < 0.0 ==> s[0] == '-'
  {
    if s == "" then Some(0.0)
    else if s[0] == '-' then
      match UnsignedDecimal(s[1..])
      case Some(n) => Some(-n)
      case None => None
    else if s[0] == '+' then UnsignedDecimal(s[1..])
    else UnsignedDecimal(s)
  }

  /** `Number(String(e))` for one element of a one-element array. */
  function ElementToNumber(e: JsValue): Option<real>
    decreases e, 1
  {
    match e
    case JUndefined => Some(0.0)
    case JNull => Some(0.0)
    case JBool(_) => None
    case JNum(n) => Some(n)
    case JStr(s) => StringToNumber(s)
    case JArr(_) => ToNumber(e)
    case JObj(_) => None
  }

  /** `Number(v)`; None stands for NaN. Arrays go through their string form
      (empty is 0, one element is that element's string, more contain ','). */
  function ToNumber(v: JsValue): (r: Option<real>)
    decreases v, 0
    ensures v.JUndefined? || v.JObj? ==> r.None?
    ensures v.JNull? || v == JArr([]) || v == JStr("") ==> r == Some(0.0)
    ensures v.JBool? ==> r == Some(if v.b then 1.0 else 0.0)
    ensures v.JNum? ==> r == Some(v.n)
    ensures v.JArr? && |v.items| > 1 ==> r.None?
  {
    match v
    case JUndefined => None
    case JNull => Some(0.0)
    case JBool(b) => Some(if b then 1.0 else 0.0)
    case JNum(n) => Some(n)
    case JStr(s) => StringToNumber(s)
    case JArr(a) =>
      if |a| == 0 then Some(0.0)
      else if |a| == 1 then ElementToNumber(a[0])
      else None
    case JObj(_) => None
  }

  /** `v == true`: `true` converts to 1 and every non-null operand is
      compared numerically; null and undefined are never loosely equal to it. */
  predicate LooselyTrue(v: JsValue) {
    !IsNullish(v) && ToNumber(v) == Some(1.0)
  }

  /** The falsy values are exactly undefined, null, false, 0 and "". */
  lemma FalsyValues(v: JsValue)
    ensures !Truthy(v) <==> v == JUndefined || v == JNull || v == JBool(false) || v == JNum(0.0) || v == JStr("")
  {
  }

  /** A value loosely equal to `true` is truthy. */
  lemma {:induction false} LooselyTrueIsTruthy(v: JsValue)
    ensures LooselyTrue(v) ==> Truthy(v)
  {
    if v.JStr? && LooselyTrue(v) {
      assert StringToNumber("") == Some(0.0);
    }
  }

  lemma LooselyTrueExamples()
    ensures LooselyTrue(JBool(true)) && !LooselyTrue(JBool(false))
    ensures LooselyTrue(JNum(1.0)) && LooselyTrue(JStr("1")) && LooselyTrue(JArr([JNum(1.0)]))
    ensures !LooselyTrue(JStr("true")) && !LooselyTrue(JNull) && !LooselyTrue(JObj(map[]))
  {
    assert DotIndex("1") == 1;
    assert "1"[..1] == "1";
    assert DigitsValue("1") == 1 by { assert "1"[..0] == ""; }
    assert DotIndex("true") == 4;
    assert !IsDigit("true"[0]);
  }

  /** A leading sign negates or keeps the literal's value, as `Number` does. */
  lemma SignedExamples()
    ensures StringToNumber("-1.5") == Some(-1.5)
    ensures StringToNumber("+2") == Some(2.0)
  {
    assert DigitsValue("1") == 1 by { assert "1"[..0] == ""; }
    assert DigitsValue("5") == 5 by { assert "5"[..0] == ""; }
    assert Pow10(|"5"|) == 10 by { assert Pow10(0) == 1; }
    assert DecimalValue("1", "5") == 1.5;
    assert "-1.5"[1..] == "1" + "." + "5";
    UnsignedDecimalParts("1", "5");
    assert StringToNumber("+2") == Some(2.0) by {
      assert "+2"[1..] == "2";
      assert AllDigits("2");
      assert DigitsValue("2") == 2 by { assert "2"[..0] == ""; }
    }
  }

  /** A bare fraction converts; a lone sign or a lone point does not. */
  lemma FractionExamples()
    ensures StringToNumber(".5") == Some(0.5)
    ensures StringToNumber("-").None? && StringToNumber(".").None?
  {
    assert DigitsValue("5") == 5 by { assert "5"[..0] == ""; }
    assert ".5" == "" + "." + "5";
    UnsignedDecimalParts("", "5");
    assert "-"[1..] == "";
    UnsignedDecimalNeedsDigit("");
    UnsignedDecimalNeedsDigit(".");
  }
}
