/** JavaScript values and the few built-in string operations the page
    controllers rely on: truthiness, `a || "fallback"`, `startsWith`, and
    the decimal text a template literal gives a number. */
module Js {

  datatype Option<+T> = None | Some(value: T)

  /** A value as a JSON response or a prop may carry it. Numbers are
      modelled as integers only (no fractions, NaN or infinities). */
  datatype Value = Undefined | Null | Bool(b: bool) | Num(n: int) | Str(s: string)

  /** JavaScript truthiness of a value. */
  predicate Truthy(v: Value)
  {
    match v
    case Undefined => false
    case Null => false
    case Bool(b) => b
    case Num(n) => n != 0
    case Str(s) => s != ""
  }

  /** Truthiness of an optional string (a query parameter, a stored item,
      a server message): absent and empty are both falsy. */
  predicate Present(s: Option<string>)
  {
    s.Some? && s.value != ""
  }

  /** `s || fallback` for an optional string. */
  function OrElse(s: Option<string>, fallback: string): (r: string)
    ensures r == fallback || (s == Some(r) && r != "")
    ensures fallback != "" ==> r != ""
    ensures Present(s) ==> r == s.value
  {
    if Present(s) then s.value else fallback
  }

  /** `s.startsWith(prefix)`. */
  predicate StartsWith(s: string, prefix: string)
  {
    |prefix| <= |s| && s[..|prefix|] == prefix
  }

  predicate IsDigit(c: char)
  {
    '0' <= c <= '9'
  }

  predicate AllDigits(s: string)
  {
    forall i :: 0 <= i < |s| ==> IsDigit(s[i])
  }

  /** `String(n)` for a non-negative integer: its shortest decimal text. */
  function DecimalString(n: nat): (r: string)
    ensures |r| > 0 && AllDigits(r)
    ensures r[0] == '0' ==> n == 0
    decreases n
  {
    if n < 10 then [('0' as int + n) as char]
    else DecimalString(n / 10) + [('0' as int + n % 10) as char]
  }

  /** The number a string of decimal digits denotes: the partner of
      DecimalString. */
  function DecimalValue(s: string): nat
    requires AllDigits(s)
  {
    if s == [] then 0
    else 10 * DecimalValue(s[..|s| - 1]) + (s[|s| - 1] as int - '0' as int)
  }

  lemma {:induction false} DecimalRoundTrip(n: nat)
    ensures DecimalValue(DecimalString(n)) == n
    decreases n
  {
    if n >= 10 {
      var r := DecimalString(n);
      assert r[..|r| - 1] == DecimalString(n / 10);
      DecimalRoundTrip(n / 10);
    }
  }

  /** Different numbers never print the same. */
  lemma DecimalStringInjective(m: nat, n: nat)
    requires DecimalString(m) == DecimalString(n)
    ensures m == n
  {
    DecimalRoundTrip(m);
    DecimalRoundTrip(n);
  }

  /** The text `${v}` produces for a value in a template literal. */
  function Text(v: Value): (r: string)
    ensures v.Str? ==> r == v.s
    ensures v.Num? && v.n >= 0 ==> r == DecimalString(v.n)
    ensures v.Num? && v.n < 0 ==> r == "-" + DecimalString(-v.n)
  {
    match v
    case Undefined => "undefined"
    case Null => "null"
    case Bool(b) => if b then "true" else "false"
    case Num(n) => if n >= 0 then DecimalString(n) else "-" + DecimalString(-n)
    case Str(s) => s
  }
}
