/** JavaScript values as the three route handlers see them: the values that
    JSON.parse can produce, `undefined` for a property that is not there,
    truthiness, property reads and conversion to a string. */
module JsValue {

  datatype Option<+T> = None | Some(value: T)

  /** A value produced by JSON.parse. Numbers are integral in this model. */
  datatype Json =
    | JNull
    | JBool(b: bool)
    | JNum(n: int)
    | JStr(s: string)
    | JArr(elems: seq<Json>)
    | JObj(fields: map<string, Json>)

  /** Runtime errors the handlers do not raise themselves; the JavaScript
      engine writes their message text. */
  datatype Fault =
    | RequestNotJson       // request.json() rejected
    | DestructureNullish   // destructuring fields out of a null body
    | ReadOfNullish        // reading a property of null or undefined
    | NotAFunction         // calling `join` on a value that is not an array
    | FetchRejected        // fetch itself rejected
    | ReplyNotJson         // response.json() rejected
    | BodyOnNullBodyStatus // a Response built with a body and a status such as 304

  /** The value of an expression that may throw. */
  datatype Result<+T> = Ok(value: T) | Threw(fault: Fault)

  /** `!!v` for a value that is not undefined. */
  predicate JsTruthy(v: Json) {
    match v
    case JNull => false
    case JBool(b) => b
    case JNum(n) => n != 0
    case JStr(s) => s != ""
    case JArr(_) => true
    case JObj(_) => true
  }

  /** `!!v`, where `None` is undefined. */
  predicate Truthy(v: Option<Json>) {
    v.Some? && JsTruthy(v.value)
  }

  /** `Array.isArray(v)`. */
  predicate IsArray(v: Option<Json>) {
    v.Some? && v.value.JArr?
  }

  // ---------------------------------------------------------------------
  // Decimal numerals

  predicate IsDigit(c: char) {
    '0' <= c <= '9'
  }

  predicate AllDigits(s: string) {
    forall i :: 0 <= i < |s| ==> IsDigit(s[i])
  }

  function DigitChar(d: nat): (c: char)
    requires d < 10
    ensures IsDigit(c)
  {
    ('0' as int + d) as char
  }

  /** The decimal numeral of `n`, without leading zeros. */
  function NatText(n: nat): (s: string)
    ensures |s| > 0 && AllDigits(s)
    ensures n > 0 ==> s[0] != '0'
    ensures n == 0 ==> s == "0"
  {
    if n < 10 then [DigitChar(n)] else NatText(n / 10) + [DigitChar(n % 10)]
  }

  /** `String(n)` for an integral number. */
  function IntText(n: int): string {
    if n < 0 then "-" + NatText(-n) else NatText(n)
  }

  /** The number a string of digits denotes. */
  function DigitsValue(s: string): nat
    requires AllDigits(s)
  {
    if |s| == 0 then 0 else DigitsValue(s[..|s| - 1]) * 10 + (s[|s| - 1] as int - '0' as int)
  }

  /** The index a property key denotes on an array or string: a decimal
      numeral in canonical form ("0", or no leading zero). */
  function IndexKey(k: string): Option<nat> {
    if |k| > 0 && AllDigits(k) && (k == "0" || k[0] != '0') then Some(DigitsValue(k)) else None
  }

  lemma {:induction false} DigitsValueOfNatText(n: nat)
    ensures DigitsValue(NatText(n)) == n
  {
    if n >= 10 {
      var s := NatText(n);
      assert s[..|s| - 1] == NatText(n / 10);
      DigitsValueOfNatText(n / 10);
    }
  }

  /** The property key `String(n)` is recognised as index `n`. */
  lemma IndexKeyOfNatText(n: nat)
    ensures IndexKey(NatText(n)) == Some(n)
  {
    DigitsValueOfNatText(n);
  }

  // ---------------------------------------------------------------------
  // Property reads

  /** `v[k]` on a value that is neither null nor undefined (reading a
      property of those throws, and callers deal with that first): own
      properties of an object, indices and `length` of an array or string,
      and nothing on a boolean or number. No name the handlers read is an
      inherited member. */
  function Get(v: Json, k: string): Option<Json>
    requires v != JNull
  {
    match v
    case JObj(fields) => if k in fields then Some(fields[k]) else None
    case JArr(es) =>
      if k == "length" then Some(JNum(|es|))
      else if IndexKey(k).Some? && IndexKey(k).value < |es| then Some(es[IndexKey(k).value])
      else None
    case JStr(s) =>
      if k == "length" then Some(JNum(|s|))
      else if IndexKey(k).Some? && IndexKey(k).value < |s| then Some(JStr([s[IndexKey(k).value]]))
      else None
    case _ => None
  }

  /** `a[i]` reads element `i` of an array, and `undefined` past its end. */
  lemma GetIndex(es: seq<Json>, i: nat)
    ensures Get(JArr(es), NatText(i)) == if i < |es| then Some(es[i]) else None
  {
    IndexKeyOfNatText(i);
    assert NatText(i) != "length" by {
      assert IsDigit(NatText(i)[0]);
    }
  }

  // ---------------------------------------------------------------------
  // Conversion to string, as `${v}` in a template literal performs it

  /** `String(v)`. */
  function ToText(v: Json): string
    decreases v, 1
  {
    match v
    case JNull => "null"
    case JBool(b) => if b then "true" else "false"
    case JNum(n) => IntText(n)
    case JStr(s) => s
    case JArr(es) => JoinValues(",", es)
    case JObj(_) => "[object Object]"
  }

  /** `String(v)` where `None` is undefined. */
  function OptText(v: Option<Json>): string {
    if v.None? then "undefined" else ToText(v.value)
  }

  /** `parts.join(sep)` over strings. */
  function Join(sep: string, parts: seq<string>): string {
    if |parts| == 0 then ""
    else if |parts| == 1 then parts[0]
    else parts[0] + sep + Join(sep, parts[1..])
  }

  /** `es.join(sep)`: null elements contribute the empty string. */
  function JoinValues(sep: string, es: seq<Json>): string
    decreases JArr(es), 0
  {
    Join(sep, seq(|es|, i requires 0 <= i < |es| => if es[i] == JNull then "" else ToText(es[i])))
  }

  /** Joining one more part appends the separator and that part. */
  lemma {:induction false} JoinSnoc(sep: string, parts: seq<string>, last: string)
    requires |parts| > 0
    ensures Join(sep, parts + [last]) == Join(sep, parts) + sep + last
  {
    if |parts| > 1 {
      assert (parts + [last])[1..] == parts[1..] + [last];
      JoinSnoc(sep, parts[1..], last);
    }
  }
}
