/** The JSON-like values that make up a handler payload. `Null` is Python's
    None, which is what `dict.get` returns for an absent key. */
module JsonValues {

  datatype Json =
    | Null
    | Bool(b: bool)
    | Num(n: int)
    | Str(s: string)
    | Arr(items: seq<Json>)
    | Obj(fields: map<string, Json>)

  /** A Python dict with string keys, such as the payload `data`. */
  type Dict = map<string, Json>

  /** `d.get(key)`: the entry, or None when the key is absent. */
  function Get(d: Dict, key: string): Json
  {
    if key in d then d[key] else Null
  }
}
