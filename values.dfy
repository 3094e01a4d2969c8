/**
 * JavaScript values as far as the session layer inspects them: their truthiness (the `||`
 * defaults), whether they are strings (the call-shape test), and the own properties that an
 * object contributes to `assign`.
 */
module JsValues {
  import opened Cookies

  datatype Value =
    | Undefined
    | Null
    | Bool(b: bool)
    | Num(n: int)
    | Str(s: string)
    | Obj(fields: map<string, Value>)
    | List(items: seq<Value>)
    | JarRef(jar: CookieJar)

  /** Request options, and any other plain object, as a map from property name to value. */
  type Options = map<string, Value>

  /** What a throwing or rejecting call carries: a TypeError raised by the runtime, or a thrown value. */
  datatype Error = TypeError(message: string) | Thrown(reason: Value)

  /** JavaScript truthiness: `undefined`, `null`, `false`, `0` and `""` are falsy, every object is truthy. */
  predicate Truthy(v: Value)
  {
    match v
    case Undefined => false
    case Null => false
    case Bool(b) => b
    case Num(n) => n != 0
    case Str(s) => s != ""
    case _ => true
  }

  /** `a || b` */
  function Or(a: Value, b: Value): Value
  {
    if Truthy(a) then a else b
  }

  /** Primitives cannot carry properties; in strict mode assigning one on them throws. */
  predicate IsPrimitive(v: Value)
  {
    v.Undefined? || v.Null? || v.Bool? || v.Num? || v.Str?
  }

  /**
   * The own enumerable properties a value contributes as a source of `assign`. Only plain
   * objects are tracked; primitives other than strings have none.
   */
  function OwnProps(v: Value): Options
  {
    if v.Obj? then v.fields else map[]
  }

  /** Property access `v.key`, `undefined` when absent. */
  function Property(v: Value, key: string): Value
  {
    if v.Obj? && key in v.fields then v.fields[key] else Undefined
  }
}
