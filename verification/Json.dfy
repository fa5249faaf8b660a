/** JSON values, as far as the client looks into them. */
module Json {
  datatype Json =
    | Null
    | Scalar(text: string)
    | Array(items: seq<Json>)
    | Object(members: map<string, Json>)
}
