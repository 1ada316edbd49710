/**
  The parsed schema document: an abstract model of `serde_json::Value` and of
  the accessors the schema loader uses on it (`v["key"]`, `as_str`, `as_i64`,
  `as_bool`, `as_array`, `as_object`).
 */
module Json {
  import opened Wrappers

  const MinI64: int := -0x8000_0000_0000_0000
  const MaxI64: int := 0x7FFF_FFFF_FFFF_FFFF

  /** Object entries are kept in the map's iteration order. */
  datatype Json =
    | Null
    | Bool(b: bool)
    | Int(i: int)
    | Str(s: string)
    | Arr(items: seq<Json>)
    | Obj(entries: seq<(string, Json)>)

  /** `map.get(key)`: the value stored under `key`, from the first entry that has it. */
  function Lookup(entries: seq<(string, Json)>, key: string): Option<Json> {
    if entries == [] then None
    else if entries[0].0 == key then Some(entries[0].1)
    else Lookup(entries[1..], key)
  }

  /** `v[key]`: indexing a non-object, or with an absent key, gives `Null`. */
  function Get(v: Json, key: string): (r: Json)
    ensures !v.Obj? ==> r == Null
    ensures v.Obj? && Lookup(v.entries, key).None? ==> r == Null
  {
    match v
    case Obj(entries) => Lookup(entries, key).GetOr(Null)
    case _ => Null
  }

  function AsStr(v: Json): Option<string> {
    if v.Str? then Some(v.s) else None
  }

  function AsBool(v: Json): Option<bool> {
    if v.Bool? then Some(v.b) else None
  }

  /** `as_i64`: only an integer that fits in 64 signed bits. */
  function AsI64(v: Json): (r: Option<int>)
    ensures r.Some? ==> MinI64 <= r.value <= MaxI64
  {
    if v.Int? && MinI64 <= v.i <= MaxI64 then Some(v.i) else None
  }

  function AsArray(v: Json): Option<seq<Json>> {
    if v.Arr? then Some(v.items) else None
  }

  function AsObject(v: Json): Option<seq<(string, Json)>> {
    if v.Obj? then Some(v.entries) else None
  }
}
