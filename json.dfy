/**
 * A JSON document as the serialisers see it. An object keeps its entries in
 * the order they appear in the text, so repeated keys can be represented.
 */
module JsonValues {
  datatype Json =
    | JNull
    | JBool(b: bool)
    | JNum(n: real)
    | JStr(s: string)
    | JArr(items: seq<Json>)
    | JObject(entries: seq<(string, Json)>)

  /** Failures a deserialiser reports. */
  datatype DecodeError =
    | UnknownField(field: string)
    | DuplicateField(field: string)
    | MissingField(field: string)
    | InvalidType(expected: string)
    | UnknownVariant(variant: string)
    | InvalidValue(rep: string)
    | DuplicateKey(key: string)

  /** The keys of an object's entries, in text order. */
  function Keys(entries: seq<(string, Json)>): (ks: seq<string>)
    ensures |ks| == |entries|
    ensures forall i :: 0 <= i < |entries| ==> ks[i] == entries[i].0
  {
    if |entries| == 0 then [] else [entries[0].0] + Keys(entries[1..])
  }
}
