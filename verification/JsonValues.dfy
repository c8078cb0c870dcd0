/** JSON values as `JSON.parse` yields them, and the accessors of json.ts. */
module JsonValues {
  import opened Options

  // Finite numbers are integers here; a literal such as 1e999 parses to an infinity.
  datatype Json =
    | Null
    | Bool(b: bool)
    | Number(n: int)
    | Infinite
    | Str(s: string)
    | Arr(items: seq<Json>)
    | Obj(fields: map<string, Json>)

  function AsObject(v: Option<Json>): Option<Json> {
    if v.Some? && v.value.Obj? then v else None
  }

  function AsArray(v: Option<Json>): Option<seq<Json>> {
    if v.Some? && v.value.Arr? then Some(v.value.items) else None
  }

  function AsString(v: Option<Json>): Option<string> {
    if v.Some? && v.value.Str? then Some(v.value.s) else None
  }

  function NumberOrNull(v: Option<Json>): Option<int> {
    if v.Some? && v.value.Number? then Some(v.value.n) else None
  }

  /** `target?.key`. */
  function Field(target: Option<Json>, key: string): Option<Json> {
    if target.Some? && target.value.Obj? && key in target.value.fields
    then Some(target.value.fields[key])
    else None
  }

  /** `array?.[0]`. */
  function First(items: Option<seq<Json>>): Option<Json> {
    if items.Some? && |items.value| > 0 then Some(items.value[0]) else None
  }
}
