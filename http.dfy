/** Values shared by the web layers: JSON documents as Flask parses and
    produces them, Python exceptions as the service raises them, and the
    (status, body) pair every handler returns. */
module Http {

  datatype Option<T> = None | Some(value: T)

  /** A JSON value. Numbers are integers only. */
  datatype Json =
    | JNull
    | JBool(b: bool)
    | JInt(i: int)
    | JStr(s: string)
    | JList(items: seq<Json>)
    | JObject(fields: map<string, Json>)

  /** The exceptions the handlers tell apart: `ValueError` (raised by the
      service for a missing field or a missing task, and by `uuid.UUID` for
      malformed text) and every other kind. */
  datatype Error =
    | ValueError(message: string)
    | TypeError(message: string)
    | IntegrityError(message: string)

  /** The outcome of a service call: a value, or the exception it raised. */
  datatype Result<T> = Ok(value: T) | Err(error: Error)

  /** What a handler hands back to Flask: a status code and a JSON body. */
  datatype Response = Response(status: int, body: Json)

  /** Python's `d.get(key, default)`. */
  function GetOr(d: map<string, Json>, key: string, default: Json): (v: Json)
  {
    if key in d then d[key] else default
  }

  /** The body `jsonify({"error": message})`. */
  function ErrorBody(message: string): (body: Json)
  {
    JObject(map["error" := JStr(message)])
  }

  /** Python's list comprehension `[f(x) for x in xs]`: one element per
      element of `xs`, in the same order. */
  function MapList<A, B>(xs: seq<A>, f: A -> B): (ys: seq<B>)
    ensures |ys| == |xs|
    ensures forall i :: 0 <= i < |xs| ==> ys[i] == f(xs[i])
  {
    if xs == [] then [] else [f(xs[0])] + MapList(xs[1..], f)
  }
}
