/** Request data as the JSON parser hands it to the serializers. */
module Json {

  /** A parsed JSON value (floating-point numbers are not modelled). */
  datatype Json =
    | JNull
    | JBool(b: bool)
    | JInt(i: int)
    | JStr(s: string)
    | JList(items: seq<Json>)
    | JObject(fields: map<string, Json>)

  /** The Python type name (`type(v).__name__`) of the object the JSON parser
      builds for `j`; the framework quotes it in its type-mismatch messages. */
  function PythonTypeName(j: Json): string {
    match j
    case JNull => "NoneType"
    case JBool(_) => "bool"
    case JInt(_) => "int"
    case JStr(_) => "str"
    case JList(_) => "list"
    case JObject(_) => "dict"
  }
}
