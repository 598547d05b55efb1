/** JavaScript values as the SDK sees them once a record has been read from
    storage, from the network or from the push plugin: plain JSON-like data.
    Truthiness is made explicit so that every `||` of the source is visible. */
module JsValues {

  datatype Value =
    | Undefined
    | Null
    | Bool(b: bool)
    | Num(n: int)
    | Str(s: string)
    | Obj(fields: map<string, Value>)

  /** ECMAScript ToBoolean for the values above: `undefined`, `null`, `false`,
      `0` and `""` are falsy, everything else (every object included) is truthy. */
  predicate Truthy(v: Value) {
    match v
    case Undefined => false
    case Null => false
    case Bool(b) => b
    case Num(n) => n != 0
    case Str(s) => s != ""
    case Obj(_) => true
  }

  /** `a || b`: the left operand when it is truthy, otherwise the right one. */
  function Or(a: Value, b: Value): (r: Value)
    ensures Truthy(a) ==> r == a
    ensures !Truthy(a) ==> r == b
  {
    if Truthy(a) then a else b
  }

  /** `v || null`, the coercion the SDK applies to optional fields: a truthy
      value survives, every falsy one (including `0` and `""`) becomes `null`. */
  function OrNull(v: Value): (r: Value)
    ensures Truthy(r) <==> Truthy(v)
    ensures Truthy(v) ==> r == v
    ensures !Truthy(v) ==> r == Null
    ensures r != Undefined && (r == v || r == Null)
  {
    Or(v, Null)
  }

  /** The property read `v.name`: an own field of an object, `undefined` otherwise. */
  function Field(v: Value, name: string): (r: Value)
    ensures r != Undefined ==> v.Obj? && name in v.fields && r == v.fields[name]
  {
    if v.Obj? && name in v.fields then v.fields[name] else Undefined
  }

  /** The own fields a `for (k in v)` loop visits: none unless `v` is an object. */
  function FieldsOf(v: Value): (m: map<string, Value>)
    ensures v.Obj? ==> m == v.fields
    ensures !v.Obj? ==> m == map[]
  {
    if v.Obj? then v.fields else map[]
  }

  /** The empty object literal `{}`. */
  const EmptyObject: Value := Obj(map[])
}
