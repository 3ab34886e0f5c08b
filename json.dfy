/**
 * The Python values that flow through the pipeline: JSON-shaped
 * dictionaries, lists and scalars, plus the `Decimal` numbers DynamoDB
 * stores. Numbers are modelled as reals, whatever their Python type.
 */
module JsonValue {
  import opened Wrappers

  datatype Json =
    | JNull
    | JBool(b: bool)
    | JInt(i: int)
    | JFloat(f: real)
      /** A `decimal.Decimal`, the only number type DynamoDB accepts. */
    | JDecimal(d: real)
    | JStr(s: string)
    | JList(items: seq<Json>)
    | JObject(fields: map<string, Json>)

  /** Python truthiness. */
  predicate Truthy(j: Json)
  {
    match j
    case JNull => false
    case JBool(b) => b
    case JInt(i) => i != 0
    case JFloat(f) => f != 0.0
    case JDecimal(d) => d != 0.0
    case JStr(s) => s != []
    case JList(items) => items != []
    case JObject(fields) => fields != map[]
  }

  /** Python `a and b`: `a` itself when it is falsy, otherwise `b`. */
  function And(a: Json, b: Json): (r: Json)
    ensures Truthy(r) <==> Truthy(a) && Truthy(b)
    ensures r == JBool(true) <==> Truthy(a) && b == JBool(true)
  {
    if Truthy(a) then b else a
  }

  /** `d.get(key, default)` on a dictionary. */
  function Get(fields: map<string, Json>, key: string, default: Json): (v: Json)
    ensures key in fields ==> v == fields[key]
    ensures key !in fields ==> v == default
  {
    if key in fields then fields[key] else default
  }

  /** `d.get(key, {})` on a value that must be a dictionary. */
  function GetDict(d: Json, key: string): (r: Result<Json>)
    ensures r.Ok? <==> d.JObject?
    ensures r.Ok? ==> r.value == Get(d.fields, key, JObject(map[]))
  {
    if d.JObject? then Ok(Get(d.fields, key, JObject(map[]))) else Err(AttributeError("get"))
  }

  /**
   * `event.get('requestContext', {}).get('identity', {}).get('sourceIp', 'unknown')`:
   * 'unknown' when a level is missing; an AttributeError when a level
   * present is not a dictionary.
   */
  function SourceIp(event: map<string, Json>): (r: Result<Json>)
    ensures "requestContext" !in event ==> r == Ok(JStr("unknown"))
    ensures r.Ok? <==>
      var context := Get(event, "requestContext", JObject(map[]));
      context.JObject? && Get(context.fields, "identity", JObject(map[])).JObject?
  {
    match GetDict(JObject(event), "requestContext")
    case Err(e) => Err(e)
    case Ok(context) =>
      match GetDict(context, "identity")
      case Err(e) => Err(e)
      case Ok(identity) =>
        if identity.JObject? then Ok(Get(identity.fields, "sourceIp", JStr("unknown"))) else Err(AttributeError("get"))
  }

  /** `str(x)`: a string is itself; any other value is rendered by `render`. */
  function Str(render: Json -> string, j: Json): string
  {
    if j.JStr? then j.s else render(j)
  }

  /** `x[:n]` for n >= 0: defined on strings and lists, a TypeError on anything else. */
  function Take(j: Json, n: nat): (r: Option<Json>)
    ensures r.Some? <==> j.JStr? || j.JList?
    ensures j.JStr? ==> r == Some(JStr(if |j.s| <= n then j.s else j.s[..n]))
  {
    match j
    case JStr(s) => Some(JStr(if |s| <= n then s else s[..n]))
    case JList(items) => Some(JList(if |items| <= n then items else items[..n]))
    case _ => None
  }

  /**
   * The value of a number as Python arithmetic with a float sees it:
   * `bool` and `int` take part as numbers; `Decimal` does not mix with
   * `float` (a TypeError), nor does anything else.
   */
  function AsFloatOperand(j: Json): (r: Option<real>)
    ensures r.Some? <==> j.JBool? || j.JInt? || j.JFloat?
  {
    match j
    case JBool(b) => Some(if b then 1.0 else 0.0)
    case JInt(i) => Some(i as real)
    case JFloat(f) => Some(f)
    case _ => None
  }

  /**
   * `Decimal(str(x))` and `float(d)`: the two conversions between a float
   * and the decimal DynamoDB stores. They are left abstract; `RoundTrips`
   * is the property the pipeline relies on (a float's `repr` converts back
   * to the same float). `parseFloat` is `float(s)` on a string: the number
   * the text denotes, or None where Python raises ValueError.
   */
  datatype Codec = Codec(toDecimal: real -> real, toFloat: real -> real, parseFloat: string -> Option<real>)

  ghost predicate RoundTrips(c: Codec)
  {
    forall x :: c.toFloat(c.toDecimal(x)) == x
  }

  predicate NoFloats(j: Json)
  {
    match j
    case JFloat(_) => false
    case JList(items) => forall i :: 0 <= i < |items| ==> NoFloats(items[i])
    case JObject(fields) => forall k :: k in fields ==> NoFloats(fields[k])
    case _ => true
  }

  predicate NoDecimals(j: Json)
  {
    match j
    case JDecimal(_) => false
    case JList(items) => forall i :: 0 <= i < |items| ==> NoDecimals(items[i])
    case JObject(fields) => forall k :: k in fields ==> NoDecimals(fields[k])
    case _ => true
  }

  /** `_convert_floats_to_decimal`: every float, however deeply nested, becomes a decimal; nothing else changes. */
  function ToDecimal(c: Codec, j: Json): (r: Json)
    ensures NoFloats(r)
  {
    match j
    case JFloat(f) => JDecimal(c.toDecimal(f))
    case JList(items) => JList(seq(|items|, i requires 0 <= i < |items| => ToDecimal(c, items[i])))
    case JObject(fields) => JObject(map k | k in fields :: ToDecimal(c, fields[k]))
    case _ => j
  }

  /** `_convert_decimal_to_float`: every decimal, however deeply nested, becomes a float; nothing else changes. */
  function ToFloat(c: Codec, j: Json): (r: Json)
    ensures NoDecimals(r)
  {
    match j
    case JDecimal(d) => JFloat(c.toFloat(d))
    case JList(items) => JList(seq(|items|, i requires 0 <= i < |items| => ToFloat(c, items[i])))
    case JObject(fields) => JObject(map k | k in fields :: ToFloat(c, fields[k]))
    case _ => j
  }

  /** Storing then reading back restores a decimal-free value exactly, provided each float survives its decimal form. */
  lemma {:induction false} DecimalRoundTrip(c: Codec, j: Json)
    requires RoundTrips(c)
    requires NoDecimals(j)
    ensures ToFloat(c, ToDecimal(c, j)) == j
  {
    match j
    case JList(items) =>
      var back := ToFloat(c, ToDecimal(c, j)).items;
      forall i | 0 <= i < |items| ensures back[i] == items[i] {
        DecimalRoundTrip(c, items[i]);
      }
      assert back == items;
    case JObject(fields) =>
      var back := ToFloat(c, ToDecimal(c, j)).fields;
      forall k | k in fields ensures back[k] == fields[k] {
        DecimalRoundTrip(c, fields[k]);
      }
      assert back == fields;
    case _ =>
  }

  /** Converting twice is converting once: a stored value has no float left to convert. */
  lemma {:induction false} ToDecimalIdempotent(c: Codec, j: Json)
    ensures ToDecimal(c, ToDecimal(c, j)) == ToDecimal(c, j)
  {
    match j
    case JList(items) =>
      var once := ToDecimal(c, j).items;
      forall i | 0 <= i < |items| ensures ToDecimal(c, once[i]) == once[i] {
        ToDecimalIdempotent(c, items[i]);
      }
    case JObject(fields) =>
      var once := ToDecimal(c, j).fields;
      forall k | k in fields ensures ToDecimal(c, once[k]) == once[k] {
        ToDecimalIdempotent(c, fields[k]);
      }
    case _ =>
  }
}
