/**
 * JavaScript values as the adapter reads them, the null-safe accessors of the
 * exchange base class, and the base-class, clock and transport operations that
 * the adapter calls but does not define.
 */
module Base {
  import opened Wrappers

  /** A JavaScript value: JSON plus `undefined`. Numbers are exact reals. */
  datatype Json =
    | JUndef
    | JNull
    | JBool(b: bool)
    | JNum(n: real)
    | JNaN                          // the number NaN
    | JStr(s: string)
    | JArr(items: seq<Json>)
    | JObj(fields: map<string, Json>)

  /** An object whose key order matters (request parameters, query strings). */
  type Params = seq<(string, Json)>

  /** A number produced by parsing or arithmetic: finite, or NaN. */
  datatype Float = Finite(r: real) | NaN

  /**
   * The operations the adapter borrows from its base class, the JavaScript
   * runtime, the clock and the transport. The model fixes nothing about them.
   */
  datatype Env = Env(
    show: Json -> string,                 // String(x) for a value that is not a string
    number: string -> Float,              // Number(s)
    parseFloat: string -> Float,          // parseFloat(s)
    floatString: Float -> string,         // x.toString() for a number
    lower: string -> string,              // s.toLowerCase()
    iso8601: real -> string,              // iso8601(timestamp) for a defined timestamp
    currencyCode: (Option<string>, Option<string>) -> Option<string>,  // safeCurrencyCode(id, currency)
    safeSymbol: (Option<string>, Option<string>) -> Option<string>,    // safeSymbol(marketId, market)
    urlencode: Params -> string,          // urlencode(params)
    urlencodeRepeat: Params -> string,    // urlencodeWithArrayRepeat(params)
    hmac: (string, string) -> string,     // hmac(encode(query), encode(secret))
    checkAddress: string -> bool,         // true when checkAddress(address) does not throw
    invoke: (string, Params) -> Json,     // this[endpoint](params): the response of one call
    nonceAt: nat -> int                   // the value of nonce() at its n-th call within an operation
  )

  predicate IsNullish(v: Json) {
    v.JUndef? || v.JNull?
  }

  /** `o[k]` for an object `o`; `undefined` for every other value. */
  function Prop(o: Json, k: string): Json {
    if o.JObj? && k in o.fields then o.fields[k] else JUndef
  }

  /** `o[i]` for an array `o`; `undefined` for every other value. */
  function Item(o: Json, i: nat): Json {
    if o.JArr? && i < |o.items| then o.items[i] else JUndef
  }

  /** The `in` operator on an object. */
  predicate In(k: string, o: Json) {
    o.JObj? && k in o.fields
  }

  /** The unguarded read `o[k]`, which throws on `undefined` and `null`. */
  function Member(o: Json, k: string): Result<Json> {
    if IsNullish(o) then Failure(TypeError) else Success(Prop(o, k))
  }

  /** `safeValue(o, k)`: the property, with `null` read as `undefined`. */
  function SafeValue(o: Json, k: string): Json {
    var v := Prop(o, k);
    if v.JNull? then JUndef else v
  }

  function StringOf(env: Env, v: Json): Option<string> {
    match v
    case JUndef => None
    case JNull => None
    case JStr(s) => Some(s)
    case _ => Some(env.show(v))
  }

  /** Math.trunc on a finite number. */
  function Trunc(x: real): int {
    if x >= 0.0 then x.Floor else -((-x).Floor)
  }

  /** A number or a non-empty string, converted with parseFloat; undefined when that is NaN. */
  function FloatOf(env: Env, v: Json): Option<real> {
    match v
    case JNum(n) => Some(n)
    case JStr(s) =>
      if s == "" then None
      else (match env.parseFloat(s) case Finite(x) => Some(x) case NaN => None)
    case _ => None
  }

  /** A number or a non-empty string, converted with Number and truncated. */
  function IntegerOf(env: Env, v: Json): Option<int> {
    match v
    case JNum(n) => Some(Trunc(n))
    case JStr(s) =>
      if s == "" then None
      else (match env.number(s) case Finite(x) => Some(Trunc(x)) case NaN => None)
    case _ => None
  }

  function SafeString(env: Env, o: Json, k: string): Option<string> {
    StringOf(env, Prop(o, k))
  }

  /** `safeString2(o, k1, k2)`: the first of the two keys that is defined. */
  function SafeString2(env: Env, o: Json, k1: string, k2: string): Option<string> {
    if IsNullish(Prop(o, k1)) then SafeString(env, o, k2) else SafeString(env, o, k1)
  }

  function SafeFloat(env: Env, o: Json, k: string): Option<real> {
    FloatOf(env, Prop(o, k))
  }

  function SafeInteger(env: Env, o: Json, k: string): Option<int> {
    IntegerOf(env, Prop(o, k))
  }

  /** `safeTimestamp(o, k)`: a time in seconds, as integer milliseconds. */
  function SafeTimestamp(env: Env, o: Json, k: string): Option<int> {
    match SafeFloat(env, o, k)
    case Some(x) => Some(Trunc(x * 1000.0))
    case None => None
  }

  /** The global `parseFloat(v)`, which reads its argument as a string. */
  function ParseFloat(env: Env, v: Json): Float {
    match v
    case JNum(n) => Finite(n)
    case JStr(s) => env.parseFloat(s)
    case JArr(_) => env.parseFloat(env.show(v))
    case JObj(_) => env.parseFloat(env.show(v))
    case _ => NaN
  }

  /** JavaScript truthiness. */
  predicate Truthy(v: Json) {
    match v
    case JUndef => false
    case JNull => false
    case JBool(b) => b
    case JNum(n) => n != 0.0
    case JNaN => false
    case JStr(s) => s != ""
    case _ => true
  }

  /** The elements a `for (i = 0; i < v.length; i++) ... v[i]` loop visits. */
  function ListOf(v: Json): Result<seq<Json>> {
    match v
    case JUndef => Failure(TypeError)
    case JNull => Failure(TypeError)
    case JArr(items) => Success(items)
    case JStr(s) => Success(seq(|s|, i requires 0 <= i < |s| => JStr([s[i]])))
    case _ => Success([])
  }

  /** A possibly undefined string used in a string concatenation. */
  function JsString(s: Option<string>): string {
    match s
    case Some(x) => x
    case None => "undefined"
  }

  /** The property key a value becomes when it is used as `o[v]`. */
  function PropertyKey(env: Env, v: Json): string {
    match v
    case JUndef => "undefined"
    case JNull => "null"
    case JBool(b) => if b then "true" else "false"
    case JStr(s) => s
    case _ => env.show(v)
  }

  /** `iso8601(timestamp)`: undefined for an undefined timestamp. */
  function Datetime(env: Env, t: Option<real>): Option<string> {
    match t
    case Some(x) => Some(env.iso8601(x))
    case None => None
  }

  /** The number a `Float` is, as a value. */
  function FloatValue(f: Float): Json {
    match f
    case Finite(x) => JNum(x)
    case NaN => JNaN
  }

  function AsReal(t: Option<int>): Option<real> {
    match t
    case Some(x) => Some(x as real)
    case None => None
  }

  /** Number addition: NaN is absorbing. */
  function Add(x: Float, y: Float): Float {
    if x.Finite? && y.Finite? then Finite(x.r + y.r) else NaN
  }

  /** A millisecond timestamp survives the seconds-to-milliseconds round trip of trades. */
  lemma TruncIntegral(n: int)
    ensures Trunc(n as real * 1000.0) == n * 1000
  {
    assert n as real * 1000.0 == (n * 1000) as real;
  }

  /** A whole number of seconds becomes exactly that many thousand milliseconds. */
  lemma SecondsIntegral(env: Env, o: Json, k: string)
    ensures var t := Prop(o, k);
            t.JNum? && t.n == t.n.Floor as real ==> SafeTimestamp(env, o, k) == Some(t.n.Floor * 1000)
  {
    var t := Prop(o, k);
    if t.JNum? && t.n == t.n.Floor as real {
      TruncIntegral(t.n.Floor);
    }
  }
}
