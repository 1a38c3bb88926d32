/**
 * The JavaScript values the client reads and writes: the trees produced by JSON
 * deserialization plus `undefined`, which is what reading a missing property gives.
 * Numbers are modelled as integers.
 */
module Json {
  import opened Wrappers

  datatype Value =
    | Undefined
    | Null
    | Bool(b: bool)
    | Num(n: int)
    | Str(s: string)
    | Obj(fields: map<string, Value>)

  /** `TypeUtil.isNullOrUndefined`. */
  predicate IsNullOrUndefined(v: Value) {
    v.Undefined? || v.Null?
  }

  /** A JavaScript primitive: anything that is not an object. */
  predicate IsPrimitive(v: Value) {
    !v.Obj?
  }

  /** JavaScript truthiness (`!!v`). */
  predicate Truthy(v: Value) {
    match v
    case Undefined => false
    case Null => false
    case Bool(b) => b
    case Num(n) => n != 0
    case Str(s) => s != ""
    case Obj(_) => true
  }

  /** `o[key]` on an object: a key that is not present reads as `undefined`. */
  function Get(o: map<string, Value>, key: string): Value {
    if key in o then o[key] else Undefined
  }

  /**
   * `v[key]` on an arbitrary value: None when the read throws a TypeError
   * (reading a property of `null` or `undefined`); a property of a primitive
   * reads as `undefined`.
   */
  function Member(v: Value, key: string): (r: Option<Value>)
    ensures r.None? <==> IsNullOrUndefined(v)
    ensures r.Some? && !v.Obj? ==> r.value == Undefined
    ensures v.Obj? ==> r == Some(Get(v.fields, key))
  {
    match v
    case Undefined => None
    case Null => None
    case Obj(m) => Some(Get(m, key))
    case _ => Some(Undefined)
  }

  /** The object literal `{ [key]: v }`: the single key `key`, holding `v` unchanged. */
  function SingleKey(key: string, v: Value): (r: Value)
    ensures r.Obj? && r.fields.Keys == {key} && r.fields[key] == v
  {
    Obj(map[key := v])
  }

  /** A nullable string is truthy exactly when it is present and non-empty. */
  predicate Present(s: Option<string>) {
    s.Some? && s.value != ""
  }
}
