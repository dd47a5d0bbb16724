/**
 * Decoded JSON values, as both peers see them once their JSON library has
 * parsed the text. An object is a finite map from keys to values (key order is
 * immaterial on the wire).
 */
module Json {
  datatype Value =
    | Null
    | Bool(b: bool)
    | Num(n: int)
    | Str(s: string)
    | Arr(items: seq<Value>)
    | Obj(fields: map<string, Value>)

  type JsonObject = map<string, Value>
}
