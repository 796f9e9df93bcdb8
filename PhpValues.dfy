/**
 * The generic structured value that sits between the transport and the typed
 * resources: what `json_decode($content, true)` yields, and what the
 * serializers build as their wire maps.  PHP keeps lists and string-keyed
 * arrays in one type; here they are two constructors.  Floating-point numbers
 * are not modelled.
 */
module PhpValues {

  datatype Value =
    | VNull
    | VBool(b: bool)
    | VInt(i: int)
    | VStr(s: string)
    | VList(items: seq<Value>)
    | VMap(fields: map<string, Value>)

  /** The values that PHP accepts for a parameter declared `array`. */
  predicate IsArray(v: Value) {
    v.VList? || v.VMap?
  }

  /** PHP's `empty()` on a string: the empty string and "0". */
  predicate IsEmptyString(s: string) {
    s == "" || s == "0"
  }

  /** PHP's `empty()` on a value: null, false, 0, "", "0" and the empty array. */
  predicate IsEmpty(v: Value) {
    match v
    case VNull => true
    case VBool(b) => !b
    case VInt(i) => i == 0
    case VStr(s) => IsEmptyString(s)
    case VList(items) => items == []
    case VMap(fields) => fields == map[]
  }

  /**
   * Reading `$v[$key]`: the entry when `v` is a string-keyed array holding
   * `key`, and null (with a PHP notice) otherwise.
   */
  function Offset(v: Value, key: string): Value {
    if v.VMap? && key in v.fields then v.fields[key] else VNull
  }

  /** The decimal digits of a natural number. */
  function NatToString(n: nat): string
    decreases n
  {
    var digit := "0123456789"[n % 10];
    if n < 10 then [digit] else NatToString(n / 10) + [digit]
  }

  /** What `sprintf('%s', $v)` prints for a value (an array prints as "Array"). */
  function ToPhpString(v: Value): string {
    match v
    case VNull => ""
    case VBool(b) => if b then "1" else ""
    case VInt(i) => if i < 0 then "-" + NatToString(-i) else NatToString(i)
    case VStr(s) => s
    case VList(_) => "Array"
    case VMap(_) => "Array"
  }
}
