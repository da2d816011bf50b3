/**
 * The JavaScript values a request handler of the backend sees: what JSON.parse
 * produces (null, booleans, numbers, strings, arrays, plain objects) plus
 * `undefined` for a missing property. Numbers are exact reals: JSON cannot
 * produce NaN or an infinity, and double rounding is not modelled.
 *
 * The two conversions the JavaScript runtime performs between numbers and
 * text (Number.prototype.toString and the StringToNumber grammar) are not part
 * of the program: they are passed in as a `Runtime` record.
 */
module JsValues {
  import opened Wrappers

  datatype JsValue =
    | Undefined
    | Null
    | Bool(b: bool)
    | Num(x: real)
    | Str(s: string)
    | Arr(elems: seq<JsValue>)
    | Obj(fields: map<string, JsValue>)

  /** The runtime's number-to-text rendering, and its text-to-number parse (None is NaN). */
  datatype Runtime = Runtime(numberText: real -> string, parseNumber: string -> Option<real>)

  predicate Nullish(v: JsValue) {
    v.Undefined? || v.Null?
  }

  /** JavaScript's ToBoolean, restricted to the values above. */
  predicate Truthy(v: JsValue) {
    match v
    case Undefined => false
    case Null => false
    case Bool(b) => b
    case Num(x) => x != 0.0
    case Str(s) => s != ""
    case Arr(_) => true
    case Obj(_) => true
  }

  /** The value of `a || b`. */
  function Or(a: JsValue, b: JsValue): JsValue {
    if Truthy(a) then a else b
  }

  /**
   * Reading `v.key` for one of the data field names the backend reads (none of
   * which is an inherited property): None when `v` is null or undefined, which
   * throws a TypeError in JavaScript.
   */
  function Prop(v: JsValue, key: string): (r: Option<JsValue>)
    ensures r.None? <==> Nullish(v)
  {
    match v
    case Undefined => None
    case Null => None
    case Obj(m) => Some(if key in m then m[key] else Undefined)
    case _ => Some(Undefined)
  }

  /** `v.key` where `v` is known not to be null or undefined. */
  function Field(v: JsValue, key: string): JsValue
    requires !Nullish(v)
  {
    Prop(v, key).value
  }

  /** JavaScript's ToString. An array renders as its elements joined by ",", with null and undefined elements empty. */
  function ToText(rt: Runtime, v: JsValue): string
    decreases v, if v.Arr? then |v.elems| + 1 else 0
  {
    match v
    case Undefined => "undefined"
    case Null => "null"
    case Bool(b) => if b then "true" else "false"
    case Num(x) => rt.numberText(x)
    case Str(s) => s
    case Arr(es) => ElementsText(rt, v, 0)
    case Obj(_) => "[object Object]"
  }

  /** Array.prototype.join(",") over the elements of the array `a` from index `i` on. */
  function ElementsText(rt: Runtime, a: JsValue, i: nat): string
    requires a.Arr? && i <= |a.elems|
    decreases a, |a.elems| - i
  {
    if i == |a.elems| then ""
    else
      var e := a.elems[i];
      var head := if Nullish(e) then "" else ToText(rt, e);
      if i + 1 == |a.elems| then head else head + "," + ElementsText(rt, a, i + 1)
  }

  /** JavaScript's ToNumber (None is NaN): arrays and objects go through their text. */
  function ToNumber(rt: Runtime, v: JsValue): Option<real> {
    match v
    case Undefined => None
    case Null => Some(0.0)
    case Bool(b) => Some(if b then 1.0 else 0.0)
    case Num(x) => Some(x)
    case Str(s) => rt.parseNumber(s)
    case Arr(_) => rt.parseNumber(ToText(rt, v))
    case Obj(_) => rt.parseNumber(ToText(rt, v))
  }

  /** The comparison `v <= 0`: false whenever `v` converts to NaN. */
  predicate AtMostZero(rt: Runtime, v: JsValue) {
    match ToNumber(rt, v)
    case None => false
    case Some(x) => x <= 0.0
  }

  /** An exception the JavaScript runtime raises while a handler runs. */
  datatype JsError =
    | ReadOfNullish(target: JsValue, key: string)   // `target.key` with target null or undefined
    | NotAFunction(callee: string)                  // calling a member that is not a function

  /** The `message` of such an exception, in the wording of the V8 engine. */
  function ErrorText(e: JsError): string {
    match e
    case ReadOfNullish(t, k) =>
      "Cannot read properties of " + (if t.Null? then "null" else "undefined") + " (reading '" + k + "')"
    case NotAFunction(c) => c + " is not a function"
  }
}
