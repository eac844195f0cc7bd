/**
 * The JavaScript values the client handles: JSON values as `JSON.parse`
 * produces them, their truthiness, optional property access, and the string
 * conversion used by template literals, object keys and `Array#join`.
 */
module Js {
  import opened Wrappers

  /** A JSON value. Numbers are integers (fractions are not modelled). */
  datatype Json =
    | JNull
    | JBool(b: bool)
    | JNum(n: int)
    | JStr(s: string)
    | JArr(items: seq<Json>)
    | JObj(fields: map<string, Json>)

  /** JavaScript truthiness of a JSON value (`!!j`). */
  predicate Truthy(j: Json) {
    match j
    case JNull => false
    case JBool(b) => b
    case JNum(n) => n != 0
    case JStr(s) => s != ""
    case JArr(_) => true
    case JObj(_) => true
  }

  /** Truthiness of a value that may be `undefined` (None). */
  predicate TruthyValue(v: Option<Json>) {
    v.Some? && Truthy(v.value)
  }

  /** `j?.key`: an own property of an object, `undefined` for anything else. */
  function Field(j: Json, key: string): Option<Json> {
    if j.JObj? && key in j.fields then Some(j.fields[key]) else None
  }

  /** `v ?? fallback`: the fallback replaces `undefined` and `null`. */
  function Coalesce(v: Option<Json>, fallback: Json): (r: Json)
    ensures r == fallback || Some(r) == v
    ensures r == fallback <== v.None? || v == Some(JNull)
    ensures v.Some? && !v.value.JNull? ==> r == v.value
  {
    if v.None? || v.value.JNull? then fallback else v.value
  }

  /** `String(j)`, as a template literal or an object key converts it. */
  function ToJsString(j: Json): string
    decreases j, 2
  {
    match j
    case JNull => "null"
    case JBool(b) => if b then "true" else "false"
    case JNum(n) => IntToString(n)
    case JStr(s) => s
    case JArr(items) => JoinStrings(ElementStrings(items), ",")
    case JObj(_) => "[object Object]"
  }

  /** `String(v)` for a value that may be `undefined`. */
  function ToJsStringOpt(v: Option<Json>): string {
    if v.None? then "undefined" else ToJsString(v.value)
  }

  /** How `Array#join` renders one element: `null` becomes the empty string. */
  function ElementString(j: Json): string
    decreases j, 3
  {
    if j.JNull? then "" else ToJsString(j)
  }

  /** The element strings `Array#join` concatenates. */
  function ElementStrings(items: seq<Json>): (r: seq<string>)
    ensures |r| == |items|
    decreases JArr(items), 1
  {
    seq(|items|, i requires 0 <= i < |items| => ElementString(items[i]))
  }

  /** The element strings of a list of strings are those strings. */
  lemma ElementStringsOfStrings(items: seq<Json>, parts: seq<string>)
    requires |items| == |parts|
    requires forall i :: 0 <= i < |items| ==> items[i] == JStr(parts[i])
    ensures ElementStrings(items) == parts
  {
    forall i | 0 <= i < |parts| ensures ElementStrings(items)[i] == parts[i] {
      assert ElementString(items[i]) == parts[i];
    }
  }

  /** The strings of `ss` with `sep` between consecutive ones. */
  function JoinStrings(ss: seq<string>, sep: string): string {
    if |ss| == 0 then ""
    else if |ss| == 1 then ss[0]
    else ss[0] + sep + JoinStrings(ss[1..], sep)
  }

  /** Joining is the left-to-right accumulation of the language's definition of `join`. */
  lemma {:induction false} JoinStringsSnoc(ss: seq<string>, x: string, sep: string)
    requires |ss| > 0
    ensures JoinStrings(ss + [x], sep) == JoinStrings(ss, sep) + sep + x
  {
    if |ss| == 1 {
      assert ss + [x] == [ss[0], x];
      assert [ss[0], x][1..] == [x];
    } else {
      assert (ss + [x])[1..] == ss[1..] + [x];
      JoinStringsSnoc(ss[1..], x, sep);
    }
  }

  // ----- decimal rendering of numbers -----

  function DigitChar(d: nat): char
    requires d < 10
  {
    "0123456789"[d]
  }

  predicate IsDigit(c: char) {
    '0' <= c <= '9'
  }

  function DigitValue(c: char): nat
    requires IsDigit(c)
  {
    (c as int) - ('0' as int)
  }

  /** `String(n)` for a non-negative integer. */
  function NatToString(n: nat): string
    decreases n
  {
    if n < 10 then [DigitChar(n)] else NatToString(n / 10) + [DigitChar(n % 10)]
  }

  /** `String(n)`; magnitudes from 10^21 on are not printed in exponent form here. */
  function IntToString(n: int): string {
    if n < 0 then "-" + NatToString(-n) else NatToString(n)
  }

  /** The value of a string of decimal digits; the inverse of NatToString. */
  function DecimalValue(s: string): nat
    requires forall i :: 0 <= i < |s| ==> IsDigit(s[i])
  {
    if |s| == 0 then 0 else DecimalValue(s[..|s| - 1]) * 10 + DigitValue(s[|s| - 1])
  }

  lemma {:induction false} NatToStringDigits(n: nat)
    ensures |NatToString(n)| > 0
    ensures forall i :: 0 <= i < |NatToString(n)| ==> IsDigit(NatToString(n)[i])
    decreases n
  {
    if n >= 10 {
      NatToStringDigits(n / 10);
    }
  }

  /** Reading back the printed digits gives the number back. */
  lemma {:induction false} NatToStringRoundTrip(n: nat)
    ensures forall i :: 0 <= i < |NatToString(n)| ==> IsDigit(NatToString(n)[i])
    ensures DecimalValue(NatToString(n)) == n
    decreases n
  {
    NatToStringDigits(n);
    var s := NatToString(n);
    if n >= 10 {
      NatToStringRoundTrip(n / 10);
      assert s[..|s| - 1] == NatToString(n / 10);
    }
  }

  /** Distinct non-negative numbers print differently. */
  lemma NatToStringInjective(m: nat, n: nat)
    requires NatToString(m) == NatToString(n)
    ensures m == n
  {
    NatToStringRoundTrip(m);
    NatToStringRoundTrip(n);
  }

  /** A printed number starts with a minus sign exactly when it is negative. */
  lemma IntToStringSign(n: int)
    ensures |IntToString(n)| > 0
    ensures IntToString(n)[0] == '-' <==> n < 0
  {
    if n >= 0 {
      NatToStringDigits(n);
      assert IsDigit(NatToString(n)[0]);
    } else {
      NatToStringDigits(-n);
    }
  }

  /** Distinct numbers print differently, so distinct numeric ids give distinct endpoints. */
  lemma IntToStringInjective(a: int, b: int)
    requires IntToString(a) == IntToString(b)
    ensures a == b
  {
    IntToStringSign(a);
    IntToStringSign(b);
    if a < 0 {
      assert NatToString(-a) == IntToString(a)[1..];
      assert NatToString(-b) == IntToString(b)[1..];
      NatToStringInjective(-a, -b);
    } else {
      NatToStringInjective(a, b);
    }
  }
}
