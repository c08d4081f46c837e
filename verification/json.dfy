/**
 * JSON as the kiosk's org.json calls see it. Text is not parsed or printed
 * character by character: a stored or broadcast string is one of four
 * shapes, which is all the readers distinguish.
 */
module Json {

  /** A JSON value; `Null` is org.json's `JSONObject.NULL` marker. */
  datatype Value =
    | Null
    | Str(s: string)
    | Num(n: int)
    | Bool(b: bool)
    | Obj(fields: map<string, Value>)
    | Arr(items: seq<Value>)

  /**
   * A string handed to a JSON reader: blank (empty or whitespace only),
   * malformed (non-blank, but neither an object nor an array), or the
   * printed form of an object or of an array.
   */
  datatype JsonText =
    | Blank
    | Malformed
    | ObjectText(fields: map<string, Value>)
    | ArrayText(items: seq<Value>)
}
