/**
 * The JSON document that the provider payloads of a cluster-api resource hold
 * (a `runtime.RawExtension`). Byte-level framing is not modelled: a payload is
 * the parsed document.
 */
module Json {

  datatype Json =
    | JNull
    | JBool(b: bool)
    | JNum(n: int)
    | JStr(s: string)
    | JArr(items: seq<Json>)
    | JObj(fields: map<string, Json>)
}
