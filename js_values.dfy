/** JavaScript values as the client sees them: the results of `JSON.parse`, `undefined`,
    and the conversions the client applies to them (truthiness, property access,
    `String(...)` and `Number(...)`). Numbers are restricted to integers. */
module JsValues {
  import opened Common
  import opened JsStrings

  /** A JavaScript value. `JObj` is a plain object (such as a parsed JSON object);
      `JNum` covers the integral numbers only. */
  datatype JsValue =
    | JUndefined
    | JNull
    | JBool(b: bool)
    | JNum(n: int)
    | JStr(s: string)
    | JArr(elems: seq<JsValue>)
    | JObj(props: map<string, JsValue>)

  /** The exceptions the client can raise or observe. `Error(m)` is `new Error(m)`;
      `TypeError` covers property access on `null`/`undefined`, calling a missing
      method and a failed `fetch`; `SyntaxError` is a failed `JSON.parse`. */
  datatype JsError = Error(message: string) | TypeError | SyntaxError

  /** How a statement sequence ended: normally, or by throwing. */
  datatype Completion = Normal | Threw(error: JsError)

  /** `null` or `undefined`: the values `?.` stops at and `.` throws on. */
  predicate IsNullish(v: JsValue) {
    v.JUndefined? || v.JNull?
  }

  /** JavaScript truthiness (`!!v`). */
  predicate IsTruthy(v: JsValue) {
    match v
    case JUndefined => false
    case JNull => false
    case JBool(b) => b
    case JNum(n) => n != 0
    case JStr(s) => s != ""
    case JArr(_) => true
    case JObj(_) => true
  }

  /** Only `undefined`, `null`, `false`, `0` and `""` are falsy. */
  lemma FalsyValues(v: JsValue)
    ensures !IsTruthy(v) <==> v in {JUndefined, JNull, JBool(false), JNum(0), JStr("")}
  {
  }

  /** `v?.key`: the own property `key` of a plain object, `undefined` for anything else.
      On a non-nullish `v` this is also `v.key`; the keys the client reads are not
      built-in properties of strings or arrays. */
  function Prop(v: JsValue, key: string): (r: JsValue)
    ensures r != JUndefined ==> v.JObj? && key in v.props && r == v.props[key]
  {
    if v.JObj? && key in v.props then v.props[key] else JUndefined
  }

  /** `a || b`: the first operand when it is truthy, else the second. */
  function Or(a: JsValue, b: JsValue): (r: JsValue)
    ensures IsTruthy(r) <==> IsTruthy(a) || IsTruthy(b)
  {
    if IsTruthy(a) then a else b
  }

  // ---------------------------------------------------------------- String(v)

  /** The decimal digit character of `d`. */
  function DigitChar(d: nat): char
    requires d < 10
  {
    ('0' as int + d) as char
  }

  /** `c` is one of `0`..`9`. */
  predicate IsDigit(c: char) {
    '0' <= c <= '9'
  }

  /** Every character of `s` is a decimal digit. */
  predicate AllDigits(s: string) {
    forall i :: 0 <= i < |s| ==> IsDigit(s[i])
  }

  /** The decimal numeral of `n`, without leading zeros. */
  function NatToDigits(n: nat): (r: string)
    ensures |r| >= 1 && AllDigits(r)
    ensures |r| > 1 ==> r[0] != '0'
  {
    if n < 10 then [DigitChar(n)] else NatToDigits(n / 10) + [DigitChar(n % 10)]
  }

  /** `String(n)` for an integer `n`. */
  function IntToDecimal(n: int): string {
    if n < 0 then "-" + NatToDigits(-n) else NatToDigits(n)
  }

  /** `String(v)`: the string a template literal, `new Error(v)` or
      `localStorage.setItem` makes of `v`. Arrays are joined with commas, and their
      `null`/`undefined` elements become empty strings. */
  function ToStr(v: JsValue): (r: string)
    decreases v
    ensures v.JStr? ==> r == v.s
    ensures !v.JStr? && !v.JArr? ==> r != ""
  {
    match v
    case JUndefined => "undefined"
    case JNull => "null"
    case JBool(b) => if b then "true" else "false"
    case JNum(n) => IntToDecimal(n)
    case JStr(s) => s
    case JArr(elems) =>
      var strs := seq(|elems|, i requires 0 <= i < |elems| =>
        if IsNullish(elems[i]) then "" else ToStr(elems[i]));
      if |strs| == 0 then "" else Join(strs, ',')
    case JObj(_) => "[object Object]"
  }

  // ---------------------------------------------------------------- Number(v)

  /** The value of a non-empty digit string. */
  function DigitsValue(s: string): nat
    requires AllDigits(s)
  {
    if |s| == 0 then 0 else DigitsValue(s[..|s| - 1]) * 10 + (s[|s| - 1] as int - '0' as int)
  }

  /** `Number(s)` for strings written as decimal integers; every other string is NaN
      (`None`). An all-white-space string converts to 0. */
  function StringToNumber(s: string): (r: Option<int>)
    ensures (forall i :: 0 <= i < |s| ==> IsWhiteSpace(s[i])) ==> r == Some(0)
  {
    var t := Trim(s);
    if t == [] then Some(0)
    else if t[0] == '-' && |t| > 1 && AllDigits(t[1..]) then Some(0 - DigitsValue(t[1..]) as int)
    else if t[0] == '+' && |t| > 1 && AllDigits(t[1..]) then Some(DigitsValue(t[1..]))
    else if AllDigits(t) then Some(DigitsValue(t))
    else None
  }

  /** `Number(v)` restricted to integers; `None` stands for NaN. */
  function ToNumber(v: JsValue): (r: Option<int>)
    ensures v.JUndefined? || v.JObj? ==> r.None?
    ensures v.JNull? ==> r == Some(0)
    ensures v.JNum? ==> r == Some(v.n)
  {
    match v
    case JUndefined => None
    case JNull => Some(0)
    case JBool(b) => Some(if b then 1 else 0)
    case JNum(n) => Some(n)
    case JStr(s) => StringToNumber(s)
    case JArr(_) => StringToNumber(ToStr(v))
    case JObj(_) => None
  }

  /** `Number(v) * k` compared with `<`; every comparison with NaN is false. */
  predicate NumLess(a: Option<int>, b: int) {
    a.Some? && a.value < b
  }

  /** `Number(v) * k` compared with `>`; every comparison with NaN is false. */
  predicate NumGreater(a: Option<int>, b: int) {
    a.Some? && a.value > b
  }

  /** `k * v` for a number-or-NaN `v`. */
  function Scale(a: Option<int>, k: int): Option<int> {
    if a.Some? then Some(a.value * k) else None
  }

  // ---------------------------------------------------------------- round trips

  /** Reading back a numeral gives the number. */
  lemma {:induction false} DigitsValueOfNatToDigits(n: nat)
    ensures DigitsValue(NatToDigits(n)) == n
  {
    var r := NatToDigits(n);
    if n >= 10 {
      DigitsValueOfNatToDigits(n / 10);
      assert r[..|r| - 1] == NatToDigits(n / 10);
    }
  }

  /** A string without white space is its own trimmed form. */
  lemma TrimNoWhiteSpace(s: string)
    requires forall i :: 0 <= i < |s| ==> !IsWhiteSpace(s[i])
    ensures Trim(s) == s
  {
    assert TrimStart(s) == s;
    assert TrimEnd(s) == s;
  }

  /** Digits are not white space. */
  lemma DigitsNoWhiteSpace(s: string)
    requires AllDigits(s) || (|s| > 0 && s[0] == '-' && AllDigits(s[1..]))
    ensures forall i :: 0 <= i < |s| ==> !IsWhiteSpace(s[i])
  {
    forall i | 0 <= i < |s| ensures !IsWhiteSpace(s[i]) {
      if !AllDigits(s) {
        if i > 0 {
          assert s[i] == s[1..][i - 1];
        }
      }
    }
  }

  /** A non-empty digit string reads as its value. */
  lemma DigitsRead(d: string)
    requires |d| >= 1 && AllDigits(d)
    ensures StringToNumber(d) == Some(DigitsValue(d))
  {
    DigitsNoWhiteSpace(d);
    TrimNoWhiteSpace(d);
    assert IsDigit(d[0]);
  }

  /** A minus sign followed by a non-empty digit string reads as minus its value. */
  lemma MinusDigitsRead(d: string, k: nat)
    requires |d| >= 1 && AllDigits(d) && DigitsValue(d) == k
    ensures StringToNumber("-" + d) == Some(0 - k)
  {
    var s := "-" + d;
    assert s[0] == '-' && s[1..] == d;
    DigitsNoWhiteSpace(s);
    TrimNoWhiteSpace(s);
  }

  /** The decimal form of a non-negative `n` reads back as `n`. */
  lemma NonNegativeDecimalReadsBack(n: int)
    requires n >= 0
    ensures StringToNumber(IntToDecimal(n)) == Some(n)
  {
    DigitsRead(NatToDigits(n));
    DigitsValueOfNatToDigits(n);
  }

  /** The decimal form of a negative `n`, a minus sign and the numeral of `-n`, reads
      back as `n`. */
  lemma NegativeDecimalReadsBack(n: int)
    requires n < 0
    ensures StringToNumber(IntToDecimal(n)) == Some(n)
  {
    var d := NatToDigits(-n);
    assert IntToDecimal(n) == "-" + d;
    assert StringToNumber("-" + d) == Some(n) by {
      DigitsValueOfNatToDigits(-n);
      MinusDigitsRead(d, -n);
    }
  }

  /** The decimal form of `n` reads back as `n`. */
  lemma DecimalReadsBack(n: int)
    ensures StringToNumber(IntToDecimal(n)) == Some(n)
  {
    if n < 0 {
      NegativeDecimalReadsBack(n);
    } else {
      NonNegativeDecimalReadsBack(n);
    }
  }

  /** `Number(String(n)) == n` for every integer `n`. */
  lemma NumberOfString(n: int)
    ensures ToNumber(JStr(IntToDecimal(n))) == Some(n)
  {
    DecimalReadsBack(n);
  }



}
