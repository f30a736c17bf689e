/** JavaScript values as the server sees them: the parsed JSON request body
    and the parsed JSON upstream payload, with the three JavaScript operations
    the handlers apply to them — truthiness (`if (!x)`, `a || b`), property
    reads (`o.k`, `o?.k`) and string conversion (`String(x)`, which
    `RegExp.prototype.test` applies to its argument). */
module JsValues {

  datatype Option<+T> = None | Some(value: T)

  /** A JSON value, plus `undefined` for a property that is absent.
      Numbers are integers: JSON fractions and NaN are not modelled. */
  datatype Value =
    | Undefined
    | Null
    | Bool(b: bool)
    | Num(n: int)
    | Str(s: string)
    | Arr(items: seq<Value>)
    | Obj(fields: map<string, Value>)

  /** JavaScript's ToBoolean: `undefined`, `null`, `false`, `0` and `""` are
      falsy; every other value, every array and every object is truthy. */
  predicate Truthy(v: Value)
    ensures Truthy(v) <==> v != Undefined && v != Null && v != Bool(false) && v != Num(0) && v != Str("")
  {
    match v
    case Undefined => false
    case Null => false
    case Bool(b) => b
    case Num(n) => n != 0
    case Str(s) => s != ""
    case Arr(_) => true
    case Obj(_) => true
  }

  /** `null` or `undefined`: the values on which a property read throws.
      They are the falsy values that are none of a boolean, a number and a
      string. */
  predicate Nullish(v: Value)
    ensures Nullish(v) <==> !Truthy(v) && !v.Bool? && !v.Num? && !v.Str?
  {
    v.Undefined? || v.Null?
  }

  /** `a || b`: the left operand when it is truthy, the right one otherwise. */
  function Or(a: Value, b: Value): (r: Value)
    ensures Truthy(a) ==> r == a
    ensures !Truthy(a) ==> r == b
    ensures Truthy(r) <==> Truthy(a) || Truthy(b)
  {
    if Truthy(a) then a else b
  }

  /** `v.key` on a value that is neither null nor undefined. Only objects
      have own properties here; the keys the server reads (`url`, `title`,
      `owner`, ...) name no built-in property of strings, arrays, numbers or
      booleans, so on those the read gives `undefined`. */
  function Get(v: Value, key: string): (r: Value)
    requires !Nullish(v)
    ensures !v.Obj? ==> r == Undefined
  {
    if v.Obj? && key in v.fields then v.fields[key] else Undefined
  }

  /** `v?.key`: optional chaining gives `undefined` instead of throwing.
      Only an object with the key gives anything else: an `owner` that is
      missing, null, a string or a number gives `undefined`. */
  function OptGet(v: Value, key: string): (r: Value)
    ensures !v.Obj? ==> r == Undefined
    ensures r != Undefined ==> v.Obj? && key in v.fields && v.fields[key] == r
  {
    if Nullish(v) then Undefined else Get(v, key)
  }

  const DIGITS: string := "0123456789"

  /** Decimal digits of a natural number, most significant first. */
  function NatToDecimal(n: nat): (r: string)
    ensures |r| > 0
    ensures forall k :: 0 <= k < |r| ==> r[k] in DIGITS
  {
    if n < 10 then [DIGITS[n]] else NatToDecimal(n / 10) + [DIGITS[n % 10]]
  }

  /** `String(n)` for an integer in plain decimal notation. */
  function IntToDecimal(n: int): (r: string)
    ensures forall k :: 0 <= k < |r| ==> r[k] == '-' || r[k] in DIGITS
  {
    if n < 0 then "-" + NatToDecimal(-n) else NatToDecimal(n)
  }

  /** Array.prototype.join(","): separators between the parts. */
  function JoinWithCommas(parts: seq<string>): string {
    if |parts| == 0 then ""
    else if |parts| == 1 then parts[0]
    else parts[0] + "," + JoinWithCommas(parts[1..])
  }

  /** Converting `v` to a string throws a TypeError. A parsed JSON object
      with its own `toString` key has a `toString` that cannot be called,
      and its inherited `valueOf` gives back the object, so no string is
      produced; an array converts each element that is not null or
      undefined, so such an object anywhere inside it throws too. */
  predicate StringConversionThrows(v: Value)
    decreases v
  {
    match v
    case Obj(fields) => "toString" in fields
    case Arr(items) => exists k :: 0 <= k < |items| && StringConversionThrows(items[k])
    case _ => false
  }

  /** `String(v)`, `None` when the conversion throws. An array joins its
      elements with commas, writing null and undefined elements as the
      empty string; any other object prints as "[object Object]". */
  function ToJsString(v: Value): (r: Option<string>)
    ensures r.None? <==> StringConversionThrows(v)
    ensures v.Str? ==> r == Some(v.s)
    decreases v
  {
    match v
    case Undefined => Some("undefined")
    case Null => Some("null")
    case Bool(b) => Some(if b then "true" else "false")
    case Num(n) => Some(IntToDecimal(n))
    case Str(s) => Some(s)
    case Arr(items) =>
      var parts := seq(|items|, k requires 0 <= k < |items| =>
        if Nullish(items[k]) then Some("") else ToJsString(items[k]));
      assert forall k :: 0 <= k < |items| ==> (parts[k].None? <==> StringConversionThrows(items[k]));
      if exists k :: 0 <= k < |parts| && parts[k].None? then None
      else Some(JoinWithCommas(seq(|parts|, k requires 0 <= k < |parts| => parts[k].value)))
    case Obj(fields) => if "toString" in fields then None else Some("[object Object]")
  }

  /** Only strings and arrays can print as text containing a lower-case
      `i`: numbers, booleans and objects that convert never do. */
  lemma ScalarStringsHaveNoLetterI(v: Value)
    requires v.Num? || v.Bool? || v.Obj?
    ensures ToJsString(v).Some? ==> 'i' !in ToJsString(v).value
  {
  }

  /** A one-element array of a string prints as that string. */
  lemma SingletonArrayString(s: string)
    ensures ToJsString(Arr([Str(s)])) == Some(s)
  {
    var items := [Str(s)];
    var parts := seq(|items|, k requires 0 <= k < |items| =>
      if Nullish(items[k]) then Some("") else ToJsString(items[k]));
    assert parts == [Some(s)];
    assert seq(|parts|, k requires 0 <= k < |parts| => parts[k].value) == [s];
  }
}
