/**
 * The Python values the client handles: decoded JSON bodies, the values
 * callers pass through `**kwargs`, Python truthiness and `str()`.
 */
module Values {

  /** A JSON value as `response.json()` decodes it. Numbers are integers only. */
  datatype Json =
    | JNull
    | JBool(b: bool)
    | JInt(i: int)
    | JStr(s: string)
    | JArr(items: seq<Json>)
    | JObj(fields: map<string, Json>)

  /** One record of a list-shaped body: a decoded JSON object. */
  type Record = map<string, Json>

  function BoolAsInt(b: bool): int
  {
    if b then 1 else 0
  }

  /**
   * Python's `==` on decoded JSON values. `bool` is a subclass of `int`, so
   * `True == 1` and `False == 0`; every other pair compares structurally.
   */
  predicate PyEq(a: Json, b: Json)
  {
    match (a, b)
    case (JBool(x), JInt(n)) => BoolAsInt(x) == n
    case (JInt(n), JBool(x)) => BoolAsInt(x) == n
    case _ => a == b
  }

  /** A value a caller passes as a keyword argument: a string, an int, a bool or None. */
  datatype Arg = AStr(s: string) | AInt(i: int) | ABool(b: bool) | ANone

  /** Python truthiness: empty strings, zero, False and None are false. */
  predicate Truthy(a: Arg)
  {
    match a
    case AStr(s) => s != ""
    case AInt(i) => i != 0
    case ABool(b) => b
    case ANone => false
  }

  /** `kwargs.get(key)`: None when the key was not passed. */
  function Get(kwargs: map<string, Arg>, key: string): Arg
  {
    if key in kwargs then kwargs[key] else ANone
  }

  function DigitChar(d: nat): (c: char)
    requires d < 10
    ensures IsDigit(c) && DigitValue(c) == d
  {
    ('0' as int + d) as char
  }

  predicate IsDigit(c: char)
  {
    '0' <= c <= '9'
  }

  function DigitValue(c: char): (v: int)
    ensures IsDigit(c) ==> 0 <= v <= 9
  {
    c as int - '0' as int
  }

  predicate IsDecimal(s: string)
  {
    |s| > 0 && forall k :: 0 <= k < |s| ==> IsDigit(s[k])
  }

  /** The digits Python's `str()` prints for a non-negative integer. */
  function NatToDecimal(n: nat): (s: string)
    ensures IsDecimal(s)
    ensures |s| > 1 ==> s[0] != '0'
  {
    if n < 10 then [DigitChar(n)] else NatToDecimal(n / 10) + [DigitChar(n % 10)]
  }

  /** The value of a string of decimal digits. */
  function DecimalValue(s: string): nat
    requires forall k :: 0 <= k < |s| ==> IsDigit(s[k])
  {
    if s == [] then 0 else DecimalValue(s[..|s| - 1]) * 10 + DigitValue(s[|s| - 1])
  }

  lemma {:induction false} DecimalRoundTrip(n: nat)
    ensures DecimalValue(NatToDecimal(n)) == n
  {
    var s := NatToDecimal(n);
    if n >= 10 {
      DecimalRoundTrip(n / 10);
      assert s[..|s| - 1] == NatToDecimal(n / 10);
    }
  }

  /** `str(i)` for a Python int: a minus sign before the digits of a negative number. */
  function IntToString(i: int): string
  {
    if i < 0 then "-" + NatToDecimal(-i) else NatToDecimal(i)
  }

  /** Reads back what `IntToString` prints. */
  function ParseInt(s: string): int
    requires |s| > 0
    requires forall k :: 0 < k < |s| ==> IsDigit(s[k])
    requires s[0] == '-' || IsDigit(s[0])
  {
    if s[0] == '-' then 0 - DecimalValue(s[1..]) as int else DecimalValue(s)
  }

  lemma IntToStringRoundTrip(i: int)
    ensures var s := IntToString(i);
      |s| > 0 && (s[0] == '-' <==> i < 0) &&
      (forall k :: 0 <= k < |s| ==> s[k] == '-' || IsDigit(s[k])) &&
      ParseInt(s) == i
  {
    if i < 0 {
      DecimalRoundTrip(-i);
      assert IntToString(i)[1..] == NatToDecimal(-i);
    } else {
      DecimalRoundTrip(i);
    }
  }

  /** `str(a)` for a keyword argument. */
  function Str(a: Arg): string
  {
    match a
    case AStr(s) => s
    case AInt(i) => IntToString(i)
    case ABool(b) => if b then "True" else "False"
    case ANone => "None"
  }
}
