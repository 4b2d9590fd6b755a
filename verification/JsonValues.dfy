/** Decoded JSON documents, as the Agent receives them from the Bridge and from the Backend. */
module JsonValues {

  datatype Json =
    | JNull | JBool(b: bool) | JInt(n: int) | JFloat(f: Float) | JString(s: string)
    | JArray(items: seq<Json>) | JObject(fields: map<string, Json>)

  /** A floating-point number without rounding: a real, an infinity or not a number. */
  datatype Float = Finite(r: real) | Infinite(positive: bool) | NaN

  /** Reading a member that is absent gives null. */
  function Field(o: Json, name: string): Json
    requires o.JObject?
  {
    if name in o.fields then o.fields[name] else JNull
  }
}
