/** JavaScript values as they arrive in a parsed JSON request body, and the
    few language operations the controllers apply to them: truthiness,
    property reads, `Number.isInteger` and string conversion. */
module Js {

  datatype Option<+T> = None | Some(value: T)

  /** A JavaScript value. `Missing` is `undefined` (an absent property).
      Finite numbers are reals; `Inf` is Infinity or -Infinity, which
      `JSON.parse` yields for a number literal beyond the double range
      (`1e400`). NaN cannot come out of JSON. */
  datatype Value =
    | Missing
    | Null
    | Bool(b: bool)
    | Num(n: real)
    | Inf(negative: bool)
    | Str(s: string)
    | Arr(items: seq<Value>)
    | Obj(fields: map<string, Value>)

  /** A plain JavaScript object, such as a stored dish or order. */
  type Record = map<string, Value>

  /** `null` and `undefined`: reading a property of one of these throws a TypeError. */
  predicate Nullish(v: Value) {
    v.Missing? || v.Null?
  }

  /** JavaScript truthiness: `!v` is false exactly for these values. */
  predicate Truthy(v: Value) {
    match v
    case Missing => false
    case Null => false
    case Bool(b) => b
    case Num(n) => n != 0.0
    case Inf(_) => true
    case Str(s) => s != ""
    case Arr(_) => true
    case Obj(_) => true
  }

  /** The test `v === null || v === undefined || v === ""` used by the id and price checks. */
  predicate Blank(v: Value) {
    v == Missing || v == Null || v == Str("")
  }

  /** `Number.isInteger(v)`. */
  predicate IsInteger(v: Value) {
    v.Num? && v.n == v.n.Floor as real
  }

  /** `v.key` for a value that is not null or undefined. Only the property
      names of this service are read, and none of them is a built-in
      property of strings, arrays, numbers or booleans. */
  function Field(v: Value, key: string): Value
    requires !Nullish(v)
  {
    if v.Obj? && key in v.fields then v.fields[key] else Missing
  }

  /** `r.key` for a plain object. */
  function Get(r: Record, key: string): Value {
    if key in r then r[key] else Missing
  }

  /** Decimal digits of a natural number, as template literals print it. */
  function NatToString(n: nat): (s: string)
    ensures |s| > 0
    ensures forall i :: 0 <= i < |s| ==> '0' <= s[i] <= '9'
  {
    if n < 10 then [Digit(n)] else NatToString(n / 10) + [Digit(n % 10)]
  }

  /** Different numbers print differently, so a message that embeds a
      number names exactly one number. */
  lemma {:induction false} NatToStringInjective(a: nat, b: nat)
    requires NatToString(a) == NatToString(b)
    ensures a == b
  {
    var s := NatToString(a);
    if a < 10 && b < 10 {
      DigitInjective(a, b);
    } else if a >= 10 && b >= 10 {
      var p, q := NatToString(a / 10), NatToString(b / 10);
      assert s == p + [Digit(a % 10)] && s == q + [Digit(b % 10)];
      assert |p| == |q|;
      assert p == s[..|s| - 1] == q;
      NatToStringInjective(a / 10, b / 10);
      DigitInjective(a % 10, b % 10);
    }
  }

  lemma DigitInjective(c: nat, d: nat)
    requires c < 10 && d < 10 && Digit(c) == Digit(d)
    ensures c == d
  {
  }

  function Digit(d: nat): char
    requires d < 10
  {
    "0123456789"[d]
  }

  /** `${v}` throws a TypeError. A JSON value holds no functions, so an
      object with its own `toString` property has no callable `toString`,
      and its `valueOf` returns the object itself rather than a primitive.
      An array converts through `join`, which converts each item that is
      not null or undefined. */
  predicate ShowThrows(v: Value) {
    match v
    case Obj(fields) => "toString" in fields
    case Arr(items) => exists i :: 0 <= i < |items| && ShowThrows(items[i])
    case _ => false
  }

  /** `${v}` in a template literal (JavaScript's String(v)), for a value
      whose conversion does not throw. */
  function Show(v: Value): string
    requires !ShowThrows(v)
  {
    match v
    case Missing => "undefined"
    case Null => "null"
    case Bool(b) => if b then "true" else "false"
    case Num(n) => ShowNumber(n)
    case Inf(negative) => if negative then "-Infinity" else "Infinity"
    case Str(s) => s
    case Arr(items) => Join(seq(|items|, i requires 0 <= i < |items| => if Nullish(items[i]) then "" else Show(items[i])))
    case Obj(_) => "[object Object]"
  }

  /** Integral numbers print as their full decimal digits; any other number
      prints as a placeholder. JavaScript's shortest round-trip form, and its
      exponent form for magnitudes of 1e21 or more (`String(1e21)` is
      "1e+21"), are not modelled. */
  function ShowNumber(n: real): string {
    var k := n.Floor;
    if n != k as real then "<number>"
    else if k < 0 then "-" + NatToString(-k)
    else NatToString(k)
  }

  /** `Array.prototype.join` with the default separator. */
  function Join(parts: seq<string>): string {
    if |parts| == 0 then ""
    else if |parts| == 1 then parts[0]
    else parts[0] + "," + Join(parts[1..])
  }
}
