/** Values that cross every module: optional values, JSON, and the JSON objects records carry. */
module Values {

  datatype Option<+T> = None | Some(value: T)

  /** A JSON value whose numbers are integers. An object is a finite map, so the
      order in which its keys were written is not part of the value. */
  datatype Json =
    | Null
    | Bool(b: bool)
    | Int(n: int)
    | Text(s: string)
    | List(items: seq<Json>)
    | Object(fields: map<string, Json>)

  type Dict = map<string, Json>

  /** All but the last element. */
  function Init<T>(s: seq<T>): seq<T>
    requires |s| > 0
  {
    s[..|s| - 1]
  }

  function Last<T>(s: seq<T>): T
    requires |s| > 0
  {
    s[|s| - 1]
  }
}
