/** The JSON-like values that tool arguments, schemas and replies are made of. */
module Json {

  /** A Python dict/list/str/int/bool/None as carried over the tool protocol.
      Floating-point numbers are not part of the model. */
  datatype Json =
    | JNull
    | JBool(b: bool)
    | JInt(i: int)
    | JStr(s: string)
    | JArr(items: seq<Json>)
    | JObj(fields: map<string, Json>)

  /** Keyword arguments of a tool call: a dict from parameter name to value. */
  type Args = map<string, Json>
}
