/** The JSON values the export builds with `org.json`, kept abstract: how a
    value is rendered as text is not part of the model. */
module Json {

  datatype Value =
    | JString(str: string)
    | JArray(elems: seq<Value>)
    | JObject(members: map<string, Value>)
}
