/**
 * The dynamically typed values that cross the API boundary (`any` in
 * TypeScript, `Any` in Python): JSON values whose numbers are integers.
 */
module Json {

  datatype Value =
    | Null
    | Bool(b: bool)
    | Num(n: int)
    | Str(s: string)
    | Arr(items: seq<Value>)
    | Obj(fields: map<string, Value>)
}
