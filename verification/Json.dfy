/** JSON values as the Go decoder represents them. */
module Json {
  datatype Json =
    | Null
    | Bool(b: bool)
    | Num(n: int)
    | Str(s: string)
    | Arr(items: seq<Json>)
    | Obj(m: map<string, Json>)

  type Fields = map<string, Json>
}
