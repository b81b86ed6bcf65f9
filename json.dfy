/**
 * JSON values as JavaScript sees them once `JSON.parse` has produced them,
 * together with the few JavaScript operations the handlers apply to them:
 * truthiness, property reads, `x[0]`, and conversion to a string inside a
 * template literal.
 */
module JsValues {
  import opened Wrappers

  /**
   * A parsed JSON value.  A number is kept as the text JavaScript prints for
   * it (`String(n)`), so that `-0` is `Num("0")`; no arithmetic is done on
   * numbers anywhere in the model.
   */
  datatype Json =
    | Null
    | Bool(b: bool)
    | Num(repr: string)
    | Str(s: string)
    | Arr(items: seq<Json>)
    | Obj(fields: map<string, Json>)

  /** The outcome of `JSON.parse`: a value, or the message of the SyntaxError it throws. */
  datatype Parsed = Parsed(value: Json) | SyntaxError(message: string)

  /**
   * `JSON.parse` on a string.  The grammar of JSON (RFC 8259) is not modelled:
   * every ladder in the model takes the parser as a parameter and is proved
   * for all parsers.
   */
  type Parser = string -> Parsed

  /** JavaScript truthiness of a JSON value: null, false, 0, NaN and "" are falsy. */
  predicate Truthy(v: Json) {
    match v
    case Null => false
    case Bool(b) => b
    case Num(r) => r != "0" && r != "NaN"
    case Str(s) => s != ""
    case Arr(_) => true
    case Obj(_) => true
  }

  /** Truthiness of a value that may be `undefined` (`None`). */
  predicate Present(v: Option<Json>) {
    v.Some? && Truthy(v.value)
  }

  /** `v.key` for a value that is not null: only objects have the keys the handlers read. */
  function Member(v: Json, key: string): (r: Option<Json>)
    ensures r.Some? <==> v.Obj? && key in v.fields
    ensures r.Some? ==> r.value == v.fields[key]
  {
    if v.Obj? && key in v.fields then Some(v.fields[key]) else None
  }

  /**
   * `body.key` for a request body that `express.json()` produced: an object, or
   * an array, which has none of the keys the handlers read (an empty map).
   */
  function Field(body: map<string, Json>, key: string): (r: Option<Json>)
    ensures r.Some? <==> key in body
    ensures r == Member(Obj(body), key)
  {
    if key in body then Some(body[key]) else None
  }

  /** `v.key` where `v` itself may be `undefined`; only used after a truthiness check. */
  function MemberOf(v: Option<Json>, key: string): Option<Json> {
    if v.Some? then Member(v.value, key) else None
  }

  /** `v[0]`: the first element of an array, the first character of a string, key "0" of an object. */
  function First(v: Json): (r: Option<Json>)
    ensures v.Arr? ==> (r.Some? <==> |v.items| > 0)
  {
    match v
    case Arr(items) => if |items| > 0 then Some(items[0]) else None
    case Str(s) => if |s| > 0 then Some(Str([s[0]])) else None
    case Obj(fields) => Member(v, "0")
    case _ => None
  }

  /** `v || fallback`. */
  function OrElse(v: Option<Json>, fallback: Json): (r: Json)
    ensures Present(v) ==> r == v.value
    ensures !Present(v) ==> r == fallback
  {
    if Present(v) then v.value else fallback
  }

  /** `String(v)`, the text a template literal `${v}` inserts; `undefined` prints as "undefined". */
  function ToText(v: Option<Json>): string {
    match v
    case None => "undefined"
    case Some(j) => Show(j)
  }

  /** `String(j)` for a present value; an array prints its elements joined by commas, null elements as "". */
  function Show(j: Json): string {
    match j
    case Null => "null"
    case Bool(b) => if b then "true" else "false"
    case Num(r) => r
    case Str(s) => s
    case Arr(items) => ShowElements(items)
    case Obj(_) => "[object Object]"
  }

  /** `String` of an array: its elements printed and joined by commas, null elements as "". */
  function ShowElements(items: seq<Json>): string {
    JoinWithCommas(seq(|items|, i requires 0 <= i < |items| => if items[i].Null? then "" else Show(items[i])))
  }

  function JoinWithCommas(parts: seq<string>): string {
    if |parts| == 0 then ""
    else if |parts| == 1 then parts[0]
    else parts[0] + "," + JoinWithCommas(parts[1..])
  }
}
