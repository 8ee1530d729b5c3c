/** JavaScript values as the adapter sees them: tool-call arguments and HTTP
    response bodies arrive as parsed JSON, and are inspected with `typeof`,
    the `in` operator and (optional-chaining) property reads. */
module Json {

  datatype Option<+T> = None | Some(value: T)

  /** A JavaScript value. `Undefined` is the value a missing property reads
      as; numbers are kept opaque (no NaN, no infinities, no arithmetic).
      Arrays are their own constructor because `typeof` calls them objects
      while JSON Schema does not. */
  datatype Value =
    | Undefined
    | Null
    | Bool(b: bool)
    | Num(n: real)
    | Str(s: string)
    | Arr(elems: seq<Value>)
    | Obj(fields: map<string, Value>)

  /** JavaScript's `typeof` operator on these values. */
  function TypeOf(v: Value): (t: string)
    ensures t in {"undefined", "object", "boolean", "number", "string"}
    ensures t == "object" <==> v.Null? || v.Arr? || v.Obj?
    ensures t == "string" <==> v.Str?
    ensures t == "number" <==> v.Num?
  {
    match v
    case Undefined => "undefined"
    case Null => "object"
    case Bool(_) => "boolean"
    case Num(_) => "number"
    case Str(_) => "string"
    case Arr(_) => "object"
    case Obj(_) => "object"
  }

  /** The JSON Schema type of a value (`"null"` and `"array"` are not
      `"object"` here, unlike `typeof`); `Undefined` is not a JSON value. */
  function JsonType(v: Value): (t: string)
    ensures t == "object" <==> v.Obj?
    ensures t == "string" <==> v.Str?
    ensures t == "number" <==> v.Num?
    ensures t == "boolean" <==> v.Bool?
  {
    match v
    case Undefined => "undefined"
    case Null => "null"
    case Bool(_) => "boolean"
    case Num(_) => "number"
    case Str(_) => "string"
    case Arr(_) => "array"
    case Obj(_) => "object"
  }

  /** `null` and `undefined`, the values `??` and `?.` treat as absent. */
  predicate IsNullish(v: Value)
    ensures IsNullish(v) <==> TypeOf(v) == "undefined" || v == Null
  {
    v.Undefined? || v.Null?
  }

  /** `k in v` for an object `v`. Only plain objects have own properties
      with the names this adapter asks about; an array's own keys are its
      indices and `length`, none of which is one of those names. */
  predicate Has(v: Value, k: string)
    ensures Has(v, k) ==> TypeOf(v) == "object" && !v.Null? && !v.Arr?
    ensures v.Obj? ==> (Has(v, k) <==> k in v.fields)
  {
    v.Obj? && k in v.fields
  }

  /** `v?.k`: the property if it is present, `undefined` otherwise
      (including when `v` itself is nullish or a primitive). */
  function Get(v: Value, k: string): (r: Value)
    ensures Has(v, k) ==> r == v.fields[k]
    ensures !Has(v, k) ==> r == Undefined
    ensures v.Arr? || TypeOf(v) != "object" || IsNullish(v) ==> r == Undefined
  {
    if v.Obj? && k in v.fields then v.fields[k] else Undefined
  }
}
