/** Values of the browser's JavaScript data model that the diagram engine
    reads from the JSON payload, together with the two defaulting operators
    it relies on: `a ?? d` (only null and undefined fall back) and
    `a || d` (every falsy value falls back). */
module Json {

  datatype Option<+T> = None | Some(value: T) {
    /** `this ?? d`: the default replaces only an absent value. */
    function GetOr(d: T): T {
      match this
      case Some(v) => v
      case None => d
    }
  }

  datatype Result<+T, +E> = Ok(value: T) | Err(error: E)

  /** A JSON value as JavaScript sees it after `JSON.parse`, plus `undefined`
      for a property that is not there. Numbers are modelled as integers. */
  datatype Value =
    | Undefined
    | Null
    | Bool(b: bool)
    | Num(n: int)
    | Str(s: string)
    | Arr(elems: seq<Value>)
    | Obj(fields: map<string, Value>)

  /** JavaScript truthiness: undefined, null, false, 0 and '' are falsy. */
  predicate Truthy(v: Value) {
    match v
    case Undefined => false
    case Null => false
    case Bool(b) => b
    case Num(n) => n != 0
    case Str(s) => s != ""
    case Arr(_) => true
    case Obj(_) => true
  }

  /** Truthiness of an optional string field: absent or empty is falsy. */
  predicate Present(o: Option<string>) {
    o.Some? && o.value != ""
  }

  /** The value of an optional string field, `undefined` when absent. */
  function AsValue(o: Option<string>): (v: Value)
    ensures Truthy(v) <==> Present(o)
  {
    match o
    case Some(s) => Str(s)
    case None => Undefined
  }

  /** Property access `obj[key]` on an object's own properties. */
  function Get(m: map<string, Value>, key: string): Value {
    if key in m then m[key] else Undefined
  }

  /** `v ?? d` on values. */
  function Coalesce(v: Value, d: Value): (r: Value)
    ensures (v.Undefined? || v.Null?) ==> r == d
    ensures !(v.Undefined? || v.Null?) ==> r == v
  {
    if v.Undefined? || v.Null? then d else v
  }
}
