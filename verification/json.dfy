/**
 * The value `json.loads` hands to the places lookup: JSON objects become
 * dictionaries (a map here, since every access is by key), arrays become
 * lists, and numbers are kept as exact reals.
 */
module Json {

  datatype Json =
    | JNull
    | JBool(bit: bool)
    | JNumber(num: real)
    | JString(str: string)
    | JArray(elems: seq<Json>)
    | JObject(members: map<string, Json>)
}
