/**
 * The JSON-like values that flow through the storefront at run time
 * (`unknown` in TypeScript), with the three JavaScript operations the code
 * applies to them: optional property access `v?.k`, truthiness, and the
 * nullish-coalescing operator `??`.
 */
module Json {
  import opened Wrappers

  /**
   * `Undefined` is JavaScript's `undefined`; `Num` carries a finite number
   * (NaN is not modelled). An object is a map from keys to values; arrays
   * carry no named keys.
   */
  datatype Json =
    | Undefined
    | Null
    | Bool(b: bool)
    | Num(n: real)
    | Str(s: string)
    | Arr(items: seq<Json>)
    | Obj(fields: map<string, Json>)

  /** `null` or `undefined`: the values `??` and `?.` skip. */
  predicate IsNullish(v: Json) {
    v.Undefined? || v.Null?
  }

  /** JavaScript truthiness: `undefined`, `null`, `false`, `0` and `""` are falsy. */
  predicate IsTruthy(v: Json) {
    match v
    case Undefined => false
    case Null => false
    case Bool(b) => b
    case Num(n) => n != 0.0
    case Str(s) => s != []
    case Arr(_) => true
    case Obj(_) => true
  }

  /**
   * A `string | null | undefined` value used as a condition (`if (token)`,
   * `!token`): truthy when present and not the empty string.
   */
  predicate IsTruthyString(s: Option<string>) {
    s.Some? && s.value != []
  }

  /** An optional string is truthy exactly when the JSON string it holds is. */
  lemma TruthyStringAgrees(s: Option<string>)
    ensures IsTruthyString(s) <==> s.Some? && IsTruthy(Str(s.value))
  {
  }

  /** The `in` operator: `key in v` for an object `v`. */
  predicate HasKey(v: Json, key: string) {
    v.Obj? && key in v.fields
  }

  /**
   * `v?.key`: the property when `v` is an object that has it, `undefined`
   * for every other value (primitives and arrays have none of the keys the
   * storefront reads, and `?.` short-circuits on `null` and `undefined`).
   */
  function Get(v: Json, key: string): Json {
    if v.Obj? && key in v.fields then v.fields[key] else Undefined
  }

  /** `a ?? b`: `a` unless it is `null` or `undefined`. */
  function Coalesce(a: Json, b: Json): Json {
    if IsNullish(a) then b else a
  }
}
