/**
 * The JavaScript values the core inspects: request bodies, handler results
 * and the per-request context object. Numbers are integers here; NaN and
 * fractional numbers play no part in any decision of the core.
 */
module JsValues {

  datatype Value =
    | Undefined
    | Null
    | Bool(b: bool)
    | Num(n: int)
    | Str(s: string)
    | Arr(items: seq<Value>)
    | Obj(fields: map<string, Value>)

  /** JavaScript truthiness, as used by `!x` and `if (x)`. */
  predicate Truthy(v: Value) {
    match v
    case Undefined => false
    case Null => false
    case Bool(b) => b
    case Num(n) => n != 0
    case Str(s) => s != ""
    case Arr(_) => true
    case Obj(_) => true
  }

  /** Nullish in the sense of `??` and `?.`: only `null` and `undefined`. */
  predicate Nullish(v: Value) {
    v.Undefined? || v.Null?
  }

  /** Property read `o[k]` on a plain object; an absent key reads as `undefined`. */
  function Get(fields: map<string, Value>, k: string): Value
  {
    if k in fields then fields[k] else Undefined
  }

  /**
   * Optional-chaining read `v?.k`. A nullish base short-circuits to
   * `undefined`; primitives and arrays carry no own property named by the
   * keys this core reads, so they also read as `undefined`.
   */
  function OptionalGet(v: Value, k: string): Value
  {
    match v
    case Obj(fields) => Get(fields, k)
    case _ => Undefined
  }
}
