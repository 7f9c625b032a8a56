/**
 * The values that Python dictionaries in the demos hold once written as JSON:
 * a `Dict` is a JSON object, keyed by string.
 */
module Json {

  datatype Json =
    | Null
    | Bool(b: bool)
    | Num(n: int)
    | Float(x: real)
    | Str(s: string)
    | Array(items: seq<Json>)
    | Object(fields: map<string, Json>)

  type Dict = map<string, Json>
}
