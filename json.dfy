/** A JSON-shaped value: the Python dicts passed through the channel layer and
    the objects parsed from WebSocket frames on the frontend.  Numbers are
    integers; floating point is not modelled. */
module Json {
  import opened Wrappers
  import Text

  datatype Json =
    | JNull
    | JBool(b: bool)
    | JNum(n: int)
    | JStr(s: string)
    | JArr(items: seq<Json>)
    | JObj(fields: map<string, Json>)

  /** Property access: `None` is a missing key (JavaScript `undefined`, a
      missing dict key) or a receiver that is not an object. */
  function Get(j: Json, key: string): (r: Option<Json>)
    ensures r.Some? <==> j.JObj? && key in j.fields
  {
    if j.JObj? && key in j.fields then Some(j.fields[key]) else None
  }

  /** Python truthiness (`bool(x)`). */
  predicate PyTruthy(j: Json) {
    match j
    case JNull => false
    case JBool(b) => b
    case JNum(n) => n != 0
    case JStr(s) => s != []
    case JArr(xs) => xs != []
    case JObj(m) => m != map[]
  }

  /** JavaScript truthiness: arrays and objects are always truthy. */
  predicate JsTruthy(j: Json) {
    match j
    case JNull => false
    case JBool(b) => b
    case JNum(n) => n != 0
    case JStr(s) => s != []
    case JArr(_) => true
    case JObj(_) => true
  }

  predicate OptPyTruthy(o: Option<Json>) { o.Some? && PyTruthy(o.value) }

  predicate OptJsTruthy(o: Option<Json>) { o.Some? && JsTruthy(o.value) }

  /** Nullish: `null` or `undefined`. */
  predicate Nullish(o: Option<Json>) { o.None? || o.value.JNull? }

  /** JavaScript `a ?? b`. */
  function Coalesce(a: Option<Json>, b: Option<Json>): (r: Option<Json>)
    ensures !Nullish(a) ==> r == a
    ensures Nullish(a) ==> r == b
  {
    if Nullish(a) then b else a
  }

  /** JavaScript `a || b`. */
  function JsOr(a: Option<Json>, b: Option<Json>): (r: Option<Json>)
    ensures OptJsTruthy(a) ==> r == a
    ensures !OptJsTruthy(a) ==> r == b
  {
    if OptJsTruthy(a) then a else b
  }

  /** A dict literal of string-keyed entries. */
  function Obj1(k: string, v: Json): Json { JObj(map[k := v]) }

  /** JavaScript `String(x)`, as used by template literals: arrays are joined
      with commas (a `null` element becomes empty), objects render as
      `[object Object]`. */
  function JsString(j: Json): (r: string)
    ensures j.JStr? ==> r == j.s
    ensures j.JNull? ==> r == "null"
    ensures j.JBool? ==> r == (if j.b then "true" else "false")
    ensures j.JObj? ==> r == "[object Object]"
    ensures j == JArr([]) || j == JArr([JNull]) ==> r == ""
    ensures j.JArr? && |j.items| == 1 && j.items[0].JStr? ==> r == j.items[0].s
    decreases j
  {
    match j
    case JNull => "null"
    case JBool(b) => if b then "true" else "false"
    case JNum(n) => Text.IntToString(n)
    case JStr(s) => s
    case JArr(items) => JoinItems(items)
    case JObj(_) => "[object Object]"
  }

  /** `items.join(",")`. */
  function JoinItems(items: seq<Json>): (r: string)
    decreases items
  {
    if items == [] then ""
    else
      var head := if items[0].JNull? then "" else JsString(items[0]);
      if |items| == 1 then head else head + "," + JoinItems(items[1..])
  }

  /** `String(x)` of a possibly missing value. */
  function OptJsString(o: Option<Json>): (r: string)
    ensures o.None? ==> r == "undefined"
    ensures o.Some? ==> r == JsString(o.value)
  {
    if o.None? then "undefined" else JsString(o.value)
  }

  /** `Number(text)` for decimal digits surrounded by white space; any other
      text is `NaN`. */
  function TextNumber(s: string): (r: Option<int>)
    ensures Text.Trim(s) == "" ==> r == Some(0)
    ensures r.Some? && Text.Trim(s) != "" ==> Text.AllDigits(Text.Trim(s))
  {
    var t := Text.Trim(s);
    if t == "" then Some(0)
    else if Text.AllDigits(t) then Some(Text.ParseDigits(t))
    else None
  }

  /** JavaScript `Number(x)`; `None` is `NaN`. */
  function JsNumber(j: Json): (r: Option<int>)
    ensures j.JNum? ==> r == Some(j.n)
    ensures j.JNull? || j == JArr([]) ==> r == Some(0)
    ensures j.JBool? ==> r == Some(if j.b then 1 else 0)
    ensures j.JStr? ==> r == TextNumber(j.s)
    ensures j.JArr? && |j.items| == 1 && j.items[0].JStr? ==> r == TextNumber(j.items[0].s)
    ensures j.JObj? || (j.JArr? && |j.items| >= 2) ==> r.None?
  {
    match j
    case JNull => Some(0)
    case JBool(b) => Some(if b then 1 else 0)
    case JNum(n) => Some(n)
    case JStr(s) => TextNumber(s)
    case JArr(items) =>
      if items == [] then Some(0)
      else if |items| == 1 then TextNumber(JoinItems(items))
      else None
    case JObj(_) => None
  }

  /** A number is its own value; an empty text or array is 0; an object is NaN. */
  lemma JsNumberValues(n: int, b: bool)
    ensures JsNumber(JNum(n)) == Some(n)
    ensures JsNumber(JBool(b)) == Some(if b then 1 else 0)
    ensures JsNumber(JStr("")) == Some(0) && JsNumber(JArr([])) == Some(0)
    ensures JsNumber(JObj(map[])) == None
  {
    assert Text.Trim("") == "";
  }

  /** Decimal text converts to its value. */
  lemma JsNumberDecimal(n: nat)
    ensures JsNumber(JStr(Text.NatToString(n))) == Some(n)
  {
    var s := Text.NatToString(n);
    Text.TrimNoop(s);
    assert !Text.IsSpace(s[0]) && !Text.IsSpace(s[|s| - 1]);
    Text.ParseNatToString(n);
  }
}
