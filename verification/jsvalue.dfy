/** Parsed JSON values as the route sees them, and the JavaScript coercions
    it applies to them: truthiness, optional property access, `String(v)` and
    `Number(v)`. */
module JsValue {

  /** A value produced by `JSON.parse`. Numbers are finite and exact; an
      object is a map from keys to values (for duplicate keys, the last wins). */
  datatype Json =
    | JNull
    | JBool(b: bool)
    | JNum(x: real)
    | JStr(s: string)
    | JArr(items: seq<Json>)
    | JObj(fields: map<string, Json>)

  /** `None` stands for JavaScript's `undefined` (an absent property). */
  datatype Option<+T> = None | Some(value: T)

  /** A computation that may throw; `Err` carries the thrown error's message. */
  datatype Result<+T> = Ok(value: T) | Err(message: string) {
    predicate IsFailure() { Err? }

    function PropagateFailure<U>(): Result<U>
      requires Err?
    {
      Err(message)
    }

    function Extract(): T
      requires Ok?
    {
      value
    }

    function GetOr(default: T): T {
      if Ok? then value else default
    }
  }

  /** The runtime primitives the model leaves uninterpreted: `JSON.parse`
      (`None` when it throws), `Number` applied to a string (`None` when the
      result is NaN or infinite), and the `String` rendering of numbers,
      arrays and objects. */
  datatype Runtime = Runtime(
    parseJson: string -> Option<Json>,
    parseNumber: string -> Option<real>,
    render: Json -> string)

  /** The message of the TypeError thrown when a value cannot be converted to a primitive. */
  const TypeErrorMessage := "Cannot convert object to primitive value"

  /** JavaScript truthiness: `undefined`, `null`, `false`, `0` and `""` are falsy. */
  predicate Truthy(v: Option<Json>)
    ensures !Truthy(v) <==>
      || v.None? || v == Some(JNull) || v == Some(JBool(false))
      || v == Some(JNum(0.0)) || v == Some(JStr(""))
  {
    match v
    case None => false
    case Some(JNull) => false
    case Some(JBool(b)) => b
    case Some(JNum(x)) => x != 0.0
    case Some(JStr(s)) => s != ""
    case Some(JArr(_)) => true
    case Some(JObj(_)) => true
  }

  /** `v?.[key]` for a key that is not a property of every object (no
      prototype member is ever looked up by the route). Anything but an object
      has no such property. */
  function Get(v: Option<Json>, key: string): (r: Option<Json>)
    ensures r.Some? ==> v.Some? && v.value.JObj? && key in v.value.fields
    ensures r.Some? ==> r.value == v.value.fields[key]
    ensures v.Some? && v.value.JObj? && key in v.value.fields ==> r == Some(v.value.fields[key])
  {
    match v
    case Some(JObj(m)) => if key in m then Some(m[key]) else None
    case _ => None
  }

  /** `v || fallback` */
  function OrElse(v: Option<Json>, fallback: Json): (r: Json)
    ensures Truthy(v) ==> r == v.value
    ensures !Truthy(v) ==> r == fallback
  {
    if Truthy(v) then v.value else fallback
  }

  /** `String(v || d)`: the fallback `d` when `v` is falsy, otherwise the
      string conversion of `v`. */
  function StringOr(rt: Runtime, v: Option<Json>, d: string): (r: Result<string>)
    ensures r.Err? <==> v.Some? && Poisoned(v.value)
    ensures r.Err? ==> r.message == TypeErrorMessage
    ensures !Truthy(v) ==> r == Ok(d)
    ensures Truthy(v) ==> r == ToText(rt, v.value)
  {
    if Truthy(v) then ToText(rt, v.value) else Ok(d)
  }

  /** A value whose conversion to a primitive throws: an object with an own
      `toString` key (JSON values are never callable, so both of
      OrdinaryToPrimitive's methods fail), or an array holding such a value
      (`Array.prototype.join` converts every element). */
  predicate Poisoned(v: Json)
    ensures Poisoned(v) ==> v.JObj? || v.JArr?
    ensures v.JObj? ==> (Poisoned(v) <==> "toString" in v.fields)
  {
    match v
    case JObj(m) => "toString" in m
    case JArr(items) => exists i :: 0 <= i < |items| && Poisoned(items[i])
    case _ => false
  }

  /** A value that is absent or can be converted to a primitive. */
  predicate Clean(v: Option<Json>) {
    v.None? || !Poisoned(v.value)
  }

  /** `String(v)` for a defined value: strings are kept, `null` and booleans
      have fixed spellings, and the rest go through the runtime's rendering,
      unless the conversion throws. */
  function ToText(rt: Runtime, v: Json): (r: Result<string>)
    ensures r.Err? <==> Poisoned(v)
    ensures r.Err? ==> r.message == TypeErrorMessage
    ensures v.JStr? ==> r == Ok(v.s)
    ensures v == JNull ==> r == Ok("null")
    ensures v == JBool(true) ==> r == Ok("true")
    ensures v == JBool(false) ==> r == Ok("false")
    ensures v.JNum? ==> r == Ok(rt.render(v))
  {
    match v
    case JStr(s) => Ok(s)
    case JNull => Ok("null")
    case JBool(b) => Ok(if b then "true" else "false")
    case JNum(_) => Ok(rt.render(v))
    case _ => if Poisoned(v) then Err(TypeErrorMessage) else Ok(rt.render(v))
  }

  /** `Number(v)`, with `None` for a result that is not finite (NaN): an
      absent value is NaN, `null` is 0, a boolean is 0 or 1, a number is
      itself, and a string, array or object is read as number text. */
  function ToNumber(rt: Runtime, v: Option<Json>): (r: Result<Option<real>>)
    ensures r.Err? <==> v.Some? && Poisoned(v.value)
    ensures v.None? ==> r == Ok(None)
    ensures v == Some(JNull) ==> r == Ok(Some(0.0))
    ensures v.Some? && v.value.JNum? ==> r == Ok(Some(v.value.x))
    ensures v == Some(JBool(true)) ==> r == Ok(Some(1.0))
    ensures v == Some(JBool(false)) ==> r == Ok(Some(0.0))
    ensures v.Some? && v.value.JStr? ==> r == Ok(rt.parseNumber(v.value.s))
  {
    match v
    case None => Ok(None)
    case Some(JNull) => Ok(Some(0.0))
    case Some(JBool(b)) => Ok(Some(if b then 1.0 else 0.0))
    case Some(JNum(x)) => Ok(Some(x))
    case Some(JStr(s)) => Ok(rt.parseNumber(s))
    case Some(j) =>
      var text :- ToText(rt, j);
      Ok(rt.parseNumber(text))
  }

  /** Whether a finite number has no fractional part. */
  predicate IsInteger(x: real) {
    x.Floor as real == x
  }

  /** `Math.round(x)`: the nearest integer, halves rounded up. */
  function Round(x: real): (r: int)
    ensures r as real - 0.5 <= x < r as real + 0.5
    ensures IsInteger(x) ==> r == x.Floor
  {
    (x + 0.5).Floor
  }

  /** `Math.max(lo, Math.min(hi, n))` */
  function Clamp(n: int, lo: int, hi: int): (r: int)
    ensures lo <= hi ==> lo <= r <= hi
    ensures lo <= n <= hi ==> r == n
    ensures n < lo ==> r == lo
    ensures lo <= hi < n ==> r == hi
  {
    if hi < n then (if hi < lo then lo else hi) else if n < lo then lo else n
  }
}
