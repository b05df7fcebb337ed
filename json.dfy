/** Decoded JSON values, as Go's `encoding/json` hands them to an
    `interface{}`: string, number, bool, object, array or null.  Numbers are
    kept as integers (Go decodes them to float64); the parser only ever
    passes them through. */
module Json {
  import opened Wrappers

  datatype Json =
    | Null
    | Bool(b: bool)
    | Number(n: int)
    | Str(s: string)
    | Array(items: seq<Json>)
    | Object(fields: map<string, Json>)

  /** `v, ok := m[key].(string)`: the string under `key`, if there is one. */
  function StringAt(m: map<string, Json>, key: string): (r: Option<string>)
    ensures r.Some? <==> key in m && m[key].Str?
    ensures r.Some? ==> m[key] == Str(r.value)
  {
    if key in m && m[key].Str? then Some(m[key].s) else None
  }

  /** `v, _ := m[key].(string)`: the string under `key`, or "" otherwise. */
  function StringOr(m: map<string, Json>, key: string): (r: string)
    ensures r == StringAt(m, key).GetOr("")
  {
    if key in m && m[key].Str? then m[key].s else ""
  }

  /** `v, _ := m[key].(bool)`: the bool under `key`, or false otherwise. */
  function BoolOr(m: map<string, Json>, key: string): (r: bool)
    ensures r <==> key in m && m[key] == Bool(true)
  {
    if key in m && m[key].Bool? then m[key].b else false
  }

  /** `v, _ := m[key].(map[string]interface{})`: the object under `key`; a
      missing or non-object value gives Go's nil map, kept as `Null` because
      `json.Marshal` writes it as `null` where an empty object is `{}`. */
  function ObjectOr(m: map<string, Json>, key: string): (r: Json)
    ensures r.Null? || r.Object?
    ensures key in m && m[key].Object? ==> r == m[key]
    ensures !(key in m && m[key].Object?) ==> r == Null
  {
    if key in m && m[key].Object? then m[key] else Null
  }

  /** The entries a Go map holds: reading a nil map finds no key. */
  function Entries(v: Json): (r: map<string, Json>)
    ensures v.Object? ==> r == v.fields
    ensures !v.Object? ==> r == map[]
  {
    if v.Object? then v.fields else map[]
  }
}
