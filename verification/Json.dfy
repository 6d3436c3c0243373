/** JSON values as the configuration compiler sees them: objects are unordered. */
module Json {
  import opened Wrappers

  datatype Json =
    | Null
    | Bool(b: bool)
    | Num(n: int)
    | Str(s: string)
    | Arr(items: seq<Json>)
    | Obj(fields: map<string, Json>)

  /** A member of an object; absent members and members of other values are `None`. */
  function Get(v: Json, key: string): Option<Json> {
    if v.Obj? && key in v.fields then Some(v.fields[key]) else None
  }

  /** The entry of an object that is created as null when missing. */
  function Entry(fields: map<string, Json>, key: string): Json {
    if key in fields then fields[key] else Null
  }

  predicate IsStr(v: Option<Json>, s: string) {
    v == Some(Str(s))
  }

  function Strs(values: seq<string>): Json {
    Arr(seq(|values|, i requires 0 <= i < |values| => Str(values[i])))
  }
}
