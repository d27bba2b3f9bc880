/** JSON values as decoded by encoding/json, with the lenient accessors of internal/translate/types.go. */
module Json {
  datatype Json = Null | Bool(b: bool) | Num(n: int) | Str(s: string) | Arr(items: seq<Json>) | Obj(fields: map<string, Json>)

  /** A missing field reads as null. */
  function Get(fields: map<string, Json>, key: string): Json {
    if key in fields then fields[key] else Null
  }

  function AsStr(v: Json): string {
    if v.Str? then v.s else ""
  }

  function AsMap(v: Json): map<string, Json> {
    if v.Obj? then v.fields else map[]
  }

  function AsArr(v: Json): seq<Json> {
    if v.Arr? then v.items else []
  }
}
