/** JavaScript values as far as the core inspects them. `JSON.parse` and
    `JSON.stringify` are not modelled; where they occur they are
    parameters. */
module Json {

  datatype JsValue =
    | JsUndefined
    | JsNull
    | JsBool(b: bool)
    | JsNumber(n: int)
    | JsString(s: string)
    | JsArray(elements: seq<JsValue>)
    | JsObject(fields: seq<(string, JsValue)>)

  /** The keys of an object in insertion order. */
  function Keys(fields: seq<(string, JsValue)>): (ks: seq<string>)
    ensures |ks| == |fields| && forall i :: 0 <= i < |fields| ==> ks[i] == fields[i].0
  {
    if fields == [] then [] else [fields[0].0] + Keys(fields[1..])
  }
}
