/**
 * `parseApiData` (`lib/utils.ts`): backend bodies may arrive wrapped as
 * `{ data: T, meta?, message? }`; callers peel off one `data` layer when the
 * key is present and otherwise use the body as it is.
 */
module ApiData {
  import opened Json

  /** A truthy object that has a `data` key gives that key's value; any other value is returned as it is. */
  function ParseApiData(value: Json): Json {
    if IsTruthy(value) && (value.Arr? || value.Obj?) && HasKey(value, "data") then value.fields["data"] else value
  }

  /** An object carrying a `data` key yields exactly that key's value, even when it is `null` or `undefined`. */
  lemma UnwrapsDataKey(value: Json)
    requires HasKey(value, "data")
    ensures ParseApiData(value) == value.fields["data"]
  {
  }

  /** Everything else comes back unchanged: primitives (falsy ones included), `null`, arrays, objects without `data`. */
  lemma PassesThroughOtherValues(value: Json)
    requires !HasKey(value, "data")
    ensures ParseApiData(value) == value
  {
  }

  /** Round trip: wrapping any value under `data`, beside any other keys, and parsing gives the value back. */
  lemma WrapThenParse(x: Json, others: map<string, Json>)
    ensures ParseApiData(Obj(others["data" := x])) == x
  {
  }

  /** Only one layer is removed: `{data: {data: x}}` becomes `{data: x}`. */
  lemma UnwrapsOneLevelOnly(x: Json)
    ensures ParseApiData(Obj(map["data" := Obj(map["data" := x])])) == Obj(map["data" := x])
    ensures ParseApiData(ParseApiData(Obj(map["data" := Obj(map["data" := x])]))) == x
  {
  }
}
