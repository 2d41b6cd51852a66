/**
 * The JavaScript values the helpers inspect: events, request contexts, path-parameter maps
 * and the extra values handed to the logger. Only what the helpers distinguish is kept:
 * nullish values, truthiness, `typeof ... === 'string'`, `instanceof Error` and property reads.
 */
module JsValues {

  import opened Wrappers

  datatype JsValue =
    | Undefined
    | Null
    | Bool(b: bool)
    | Num(n: int)
    | Str(s: string)
    /** A plain object; its own enumerable properties. */
    | Obj(props: map<string, JsValue>)
    /** An `Error` instance, with its `name` and `message`. */
    | ErrorObj(name: string, message: string)

  /** `undefined` or `null`: reading a property of one throws a TypeError. */
  predicate Nullish(v: JsValue) {
    v.Undefined? || v.Null?
  }

  /** JavaScript truthiness (`!!v`); numbers are integers here, so NaN does not occur. */
  predicate Truthy(v: JsValue) {
    match v
    case Undefined => false
    case Null => false
    case Bool(b) => b
    case Num(n) => n != 0
    case Str(s) => s != ""
    case Obj(_) => true
    case ErrorObj(_, _) => true
  }

  /** The property read `v[key]` (or `v.key`); a missing property reads as `undefined`. */
  function Get(v: JsValue, key: string): (r: JsValue)
    requires !Nullish(v)
    ensures v.Obj? ==> (r.Undefined? <==> key !in v.props || v.props[key].Undefined?)
    ensures !v.Obj? && !v.ErrorObj? ==> r == Undefined
  {
    match v
    case Obj(props) => if key in props then props[key] else Undefined
    case ErrorObj(name, message) =>
      if key == "name" then Str(name) else if key == "message" then Str(message) else Undefined
    case _ => Undefined
  }

  /** `Some(s)` becomes the string `s`, `None` becomes `null`, as in `{actual: role}`. */
  function OrNull(o: Option<string>): (r: JsValue)
    ensures r.Null? <==> o.None?
    ensures o.Some? ==> r == Str(o.value)
  {
    if o.Some? then Str(o.value) else Null
  }
}
