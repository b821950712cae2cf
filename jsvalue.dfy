/**
 * The JSON values that travel between the web client and the server, with the
 * three JavaScript operations the server applies to them: truthiness (`||`,
 * `if`), conversion to a string (template literals and property keys) and
 * object spread (`{ ...config, ...clientConfig }`).
 */
module JsValue {
  import opened Text

  /**
   * A finite decimal number digits / 10^scale. It stands for the binary64
   * double whose shortest decimal rendering it is; decimals that no double
   * renders as (too many digits, too small a magnitude) are not meant.
   */
  datatype Decimal = Decimal(digits: int, scale: nat)

  /** The same number with trailing fractional zeros removed. */
  function Normalize(d: Decimal): (n: Decimal)
    ensures n.scale <= d.scale
    ensures n.scale == 0 || n.digits % 10 != 0
    ensures (n.digits == 0) == (d.digits == 0)
    ensures (n.digits < 0) == (d.digits < 0)
    decreases d.scale
  {
    if d.scale > 0 && d.digits % 10 == 0 then Normalize(Decimal(d.digits / 10, d.scale - 1)) else d
  }

  predicate IsNumberChar(c: char) {
    IsDigit(c) || c == '-' || c == '.'
  }

  predicate AllNumberChars(s: string) {
    forall i :: 0 <= i < |s| ==> IsNumberChar(s[i])
  }

  /** Number characters are closed under concatenation, stated once so the renderer need not re-derive it. */
  lemma NumberCharsConcat(a: string, b: string)
    requires AllNumberChars(a) && AllNumberChars(b)
    ensures AllNumberChars(a + b)
  {
  }

  /**
   * JavaScript's Number::toString for a number in the range where it prints
   * plain decimal notation: the shortest decimal, a leading "-" for negatives,
   * "0" for zero.
   */
  function DecimalToString(d: Decimal): (s: string)
    ensures |s| >= 1 && AllNumberChars(s)
  {
    var n := Normalize(d);
    var magnitude: nat := if n.digits < 0 then -n.digits else n.digits;
    var sign := if n.digits < 0 then "-" else "";
    var unit := Pow10(n.scale);
    DivModBounds(magnitude, unit);
    var whole := NatToString(magnitude / unit);
    NumberCharsConcat(sign, whole);
    if n.scale == 0 then sign + whole
    else
      var fraction := PaddedDigits(magnitude % unit, n.scale);
      NumberCharsConcat(sign + whole, ".");
      NumberCharsConcat(sign + whole + ".", fraction);
      sign + whole + "." + fraction
  }

  datatype JsonValue =
    | JNull
    | JBool(b: bool)
    | JNum(n: Decimal)
    | JStr(s: string)
    | JArray(items: seq<JsonValue>)
    | JObject(fields: map<string, JsonValue>)

  /** JavaScript truthiness: null, false, 0 and "" are falsy; arrays and objects are truthy. */
  predicate Truthy(v: JsonValue) {
    match v
    case JNull => false
    case JBool(b) => b
    case JNum(n) => n.digits != 0
    case JStr(s) => s != ""
    case JArray(_) => true
    case JObject(_) => true
  }

  /** `String(v)`: what a template literal interpolates and what a property lookup uses as key. */
  function JsString(v: JsonValue): string
    decreases v
  {
    match v
    case JNull => "null"
    case JBool(b) => if b then "true" else "false"
    case JNum(n) => DecimalToString(n)
    case JStr(s) => s
    case JArray(items) =>
      JoinWith(seq(|items|, i requires 0 <= i < |items| => if items[i].JNull? then "" else JsString(items[i])), ",")
    case JObject(_) => "[object Object]"
  }

  /** `String(x)` when `x` may be `undefined` (a missing property). */
  function PropertyKey(v: Option<JsonValue>): string {
    match v
    case None => "undefined"
    case Some(x) => JsString(x)
  }

  lemma NatToStringInjectiveAll()
    ensures forall m: nat, n: nat {:trigger NatToString(m), NatToString(n)} ::
      NatToString(m) == NatToString(n) ==> m == n
  {
    forall m: nat, n: nat | NatToString(m) == NatToString(n)
      ensures m == n
    {
      NatToStringInjective(m, n);
    }
  }

  /** The index-keyed properties of an array or string: "0", "1", ... */
  function IndexMap<T>(xs: seq<T>): (m: map<string, T>)
    ensures forall i :: 0 <= i < |xs| ==> NatToString(i) in m && m[NatToString(i)] == xs[i]
    ensures forall k :: k in m ==> exists i :: 0 <= i < |xs| && k == NatToString(i)
  {
    NatToStringInjectiveAll();
    map i | 0 <= i < |xs| :: NatToString(i) := xs[i]
  }

  /**
   * The own enumerable properties that `{ ...v }` copies: an object's fields,
   * the elements of an array or the characters of a string under their
   * indices, and nothing for null, booleans and numbers.
   */
  function SpreadProperties(v: JsonValue): (m: map<string, JsonValue>)
    ensures v.JObject? ==> m == v.fields
    ensures v.JNull? || v.JBool? || v.JNum? ==> m == map[]
  {
    match v
    case JObject(fields) => fields
    case JArray(items) => IndexMap(items)
    case JStr(s) => IndexMap(seq(|s|, i requires 0 <= i < |s| => JStr([s[i]])))
    case _ => map[]
  }

  /**
   * The names a plain object literal inherits from Object.prototype. Looking
   * one of them up on `{ ... }` finds a function (or, for "__proto__", the
   * prototype object), which is truthy.
   */
  const ObjectPrototypeNames: set<string> := {
    "constructor", "hasOwnProperty", "isPrototypeOf", "propertyIsEnumerable",
    "toLocaleString", "toString", "valueOf", "__proto__",
    "__defineGetter__", "__defineSetter__", "__lookupGetter__", "__lookupSetter__"
  }
}
