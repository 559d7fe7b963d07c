/**
 * JavaScript values as far as the model needs them: primitives and plain objects.
 * An array is an object whose keys are its indices, which is how `Object.entries`
 * and the `in` operator see it.
 */
module JsValue {

  datatype Json =
    | Undefined
    | Null
    | Bool(b: bool)
    | Num(n: int)
    | Str(s: string)
    | Obj(fields: map<string, Json>)

  /** `value instanceof Object`: true for objects and arrays, false for every primitive. */
  predicate IsObject(v: Json) {
    v.Obj?
  }

  /** `o[k]`: the value of a property, `undefined` when it is missing. */
  function Get(o: map<string, Json>, k: string): Json
  {
    if k in o then o[k] else Undefined
  }

  /** JavaScript truthiness: `undefined`, `null`, `false`, 0 and "" are falsy. */
  predicate Truthy(v: Json) {
    match v
    case Undefined => false
    case Null => false
    case Bool(b) => b
    case Num(n) => n != 0
    case Str(s) => s != ""
    case Obj(_) => true
  }

  /**
   * The properties `v.…` reads: an object's own fields; a string, number or
   * boolean has none of a transaction's fields, so every such read gives undefined.
   */
  function PropertiesOf(v: Json): map<string, Json> {
    if v.Obj? then v.fields else map[]
  }

  /** A one-element JavaScript array `[item]`. */
  function Singleton(item: Json): Json
  {
    Obj(map["0" := item])
  }
}
