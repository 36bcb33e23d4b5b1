/** The JavaScript values that travel as log metadata, and the truthiness
    test that `x || default` applies to them. */
module JsValues {
  import opened Wrappers

  /** A JSON-shaped JavaScript value (numbers restricted to integers). */
  datatype Json =
    | Null
    | Bool(b: bool)
    | Num(n: int)
    | Str(s: string)
    | Arr(items: seq<Json>)
    | Obj(fields: map<string, Json>)

  /** JavaScript truthiness: `null`, `false`, `0` and `""` are falsy,
      every array and object is truthy. */
  predicate Truthy(v: Json) {
    match v
    case Null => false
    case Bool(b) => b
    case Num(n) => n != 0
    case Str(s) => s != ""
    case Arr(_) => true
    case Obj(_) => true
  }

  /** The empty object literal `{}`. */
  const EmptyObject: Json := Obj(map[])

  /** `meta || {}`: an optional argument that is missing (`undefined`) or
      falsy is replaced by an empty object. */
  function OrEmptyObject(meta: Option<Json>): (r: Json)
    ensures Truthy(r)
    ensures meta.Some? && Truthy(meta.value) ==> r == meta.value
    ensures meta.None? || !Truthy(meta.value) ==> r == EmptyObject
  {
    if meta.Some? && Truthy(meta.value) then meta.value else EmptyObject
  }
}
