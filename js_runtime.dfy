/**
 * The slice of JavaScript semantics the rest of the model relies on:
 * `undefined` as an Option, JSON values as `JSON.parse` produces them,
 * truthiness, property access, string prefixes and the conversion a
 * template literal applies to a value.
 */
module JsRuntime {

  /** `undefined` (None) or a present value (Some). */
  datatype Option<+T> = None | Some(value: T)

  /** The largest whole number a JavaScript number holds exactly: 2^53 - 1. */
  const MaxSafeInteger: int := 0x1F_FFFF_FFFF_FFFF

  /** The whole numbers `JSON.parse` reads exactly. */
  type SafeInteger = n: int | -MaxSafeInteger <= n <= MaxSafeInteger

  /**
   * A value produced by `JSON.parse`. Numbers are safe whole numbers here:
   * fractional, exponent and larger forms are not part of this model.
   */
  datatype Json =
    | JNull
    | JBool(b: bool)
    | JNumber(n: SafeInteger)
    | JString(s: string)
    | JArray(items: seq<Json>)
    | JObject(fields: map<string, Json>)

  /** JavaScript truthiness of a possibly-undefined JSON value. */
  predicate Truthy(v: Option<Json>)
  {
    match v
    case None => false
    case Some(JNull) => false
    case Some(JBool(b)) => b
    case Some(JNumber(n)) => n != 0
    case Some(JString(s)) => s != ""
    case Some(JArray(_)) => true
    case Some(JObject(_)) => true
  }

  /** Truthiness of a possibly-undefined string, such as an environment variable. */
  predicate NonEmpty(s: Option<string>)
  {
    s.Some? && s.value != ""
  }

  /**
   * `v.key` for a named key that is neither an array index nor `length`
   * and is not inherited from a prototype (every key the handler reads is
   * such a key). Only own fields of an object are found; on any other
   * non-nullish value the access yields undefined.
   */
  function Prop(v: Json, key: string): (r: Option<Json>)
    requires v != JNull
    ensures r.Some? <==> v.JObject? && key in v.fields
    ensures r.Some? ==> r.value == v.fields[key]
  {
    match v
    case JObject(fields) => if key in fields then Some(fields[key]) else None
    case _ => None
  }

  /** `v[0]`: the first element of an array, the first character of a string, an object's field "0". */
  function Elem0(v: Json): (r: Option<Json>)
    requires v != JNull
    ensures v.JArray? ==> (r.Some? <==> |v.items| > 0)
    ensures v.JString? ==> (r.Some? <==> |v.s| > 0)
    ensures v.JObject? ==> (r.Some? <==> "0" in v.fields)
    ensures v.JNumber? || v.JBool? ==> r.None?
  {
    match v
    case JArray(items) => if |items| > 0 then Some(items[0]) else None
    case JString(s) => if |s| > 0 then Some(JString(s[..1])) else None
    case JObject(fields) => if "0" in fields then Some(fields["0"]) else None
    case _ => None
  }

  predicate StartsWith(s: string, prefix: string)
  {
    |prefix| <= |s| && s[..|prefix|] == prefix
  }

  /** The decimal digit for 0 <= d < 10. */
  function Digit(d: int): (c: char)
    requires 0 <= d < 10
    ensures '0' <= c <= '9'
    ensures c as int - '0' as int == d
  {
    ('0' as int + d) as char
  }

  /** How JavaScript prints a non-negative whole number: decimal, no leading zeros. */
  function NatToDecimal(n: nat): (s: string)
    ensures |s| > 0
    ensures forall i :: 0 <= i < |s| ==> '0' <= s[i] <= '9'
    ensures s[0] == '0' ==> n == 0
  {
    if n < 10 then [Digit(n)] else NatToDecimal(n / 10) + [Digit(n % 10)]
  }

  /** The number a string of decimal digits denotes, most significant first. */
  function DecimalValue(s: string): nat
    requires forall i :: 0 <= i < |s| ==> '0' <= s[i] <= '9'
  {
    if s == [] then 0
    else 10 * DecimalValue(s[..|s| - 1]) + (s[|s| - 1] as int - '0' as int)
  }

  /** Printing then reading a whole number gives it back. */
  lemma {:induction false} DecimalRoundTrip(n: nat)
    ensures DecimalValue(NatToDecimal(n)) == n
  {
    var s := NatToDecimal(n);
    if n >= 10 {
      DecimalRoundTrip(n / 10);
      assert s[..|s| - 1] == NatToDecimal(n / 10);
    }
  }

  /** Different whole numbers print differently. */
  lemma DecimalInjective(m: nat, n: nat)
    requires NatToDecimal(m) == NatToDecimal(n)
    ensures m == n
  {
    DecimalRoundTrip(m);
    DecimalRoundTrip(n);
  }

  /** How JavaScript prints a whole number (a leading '-' for negatives). */
  function IntToDecimal(n: int): (s: string)
    ensures |s| > 0
    ensures n >= 0 ==> s == NatToDecimal(n)
    ensures n < 0 ==> s == "-" + NatToDecimal(-n)
  {
    if n >= 0 then NatToDecimal(n) else "-" + NatToDecimal(-n)
  }

  /** The outcome of converting a value to a string: the string, or the TypeError thrown. */
  datatype Conversion = Converted(s: string) | ConversionError(message: string)

  /** The engine's TypeError when an object has no callable `toString` or `valueOf`. */
  const NoPrimitiveMessage: string := "Cannot convert object to primitive value"

  /**
   * The values a template literal can print. A parsed object's own
   * `toString` key hides the callable one it inherits, and its `valueOf`
   * gives back the object itself, so such an object has no string form;
   * an array prints its elements, so it is printable when they all are.
   */
  predicate Printable(v: Json)
    decreases v
  {
    match v
    case JObject(fields) => "toString" !in fields
    case JArray(items) => forall i :: 0 <= i < |items| ==> Printable(items[i])
    case _ => true
  }

  /**
   * The string a template literal `${v}` inserts for a JSON value:
   * `String(v)`. Arrays print their elements joined by commas, with null
   * elements printed as nothing; objects print as "[object Object]" unless
   * an own `toString` key makes the conversion throw.
   */
  function TemplateString(v: Json): (r: Conversion)
    ensures r.Converted? <==> Printable(v)
    ensures r.ConversionError? ==> r.message == NoPrimitiveMessage
    decreases v
  {
    match v
    case JNull => Converted("null")
    case JBool(b) => Converted(if b then "true" else "false")
    case JNumber(n) => Converted(IntToDecimal(n))
    case JString(s) => Converted(s)
    case JArray(items) => JoinElements(items)
    case JObject(fields) =>
      if "toString" in fields then ConversionError(NoPrimitiveMessage) else Converted("[object Object]")
  }

  /**
   * `Array.prototype.join(",")` over JSON elements, left to right; a null
   * element prints as nothing, and the first element that cannot be
   * printed makes the whole join throw.
   */
  function JoinElements(items: seq<Json>): (r: Conversion)
    ensures r.Converted? <==> forall i :: 0 <= i < |items| ==> Printable(items[i])
    ensures r.ConversionError? ==> r.message == NoPrimitiveMessage
    decreases items
  {
    if items == [] then Converted("")
    else
      var first := if items[0] == JNull then Converted("") else TemplateString(items[0]);
      if first.ConversionError? then first
      else if |items| == 1 then first
      else
        match JoinElements(items[1..])
        case ConversionError(m) => ConversionError(m)
        case Converted(rest) =>
          assert forall i :: 1 <= i < |items| ==> items[i] == items[1..][i - 1];
          Converted(first.s + "," + rest)
  }

  /** A string prints as itself; whole numbers print in decimal, negative ones after a '-'. */
  lemma TemplateStringOfScalars(v: Json)
    ensures v.JString? ==> TemplateString(v) == Converted(v.s)
    ensures v.JNumber? && v.n >= 0 ==>
      TemplateString(v).Converted? && DecimalValue(TemplateString(v).s) == v.n
    ensures v.JNumber? && v.n < 0 ==>
      && TemplateString(v).Converted? && |TemplateString(v).s| > 1 && TemplateString(v).s[0] == '-'
      && (forall i :: 1 <= i < |TemplateString(v).s| ==> '0' <= TemplateString(v).s[i] <= '9')
      && DecimalValue(TemplateString(v).s[1..]) == -v.n
  {
    if v.JNumber? {
      if v.n >= 0 {
        DecimalRoundTrip(v.n);
      } else {
        DecimalRoundTrip(-v.n);
        assert TemplateString(v).s[1..] == NatToDecimal(-v.n);
      }
    }
  }
}
