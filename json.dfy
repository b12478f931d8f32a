/** A decoded JSON response, seen as the Python value `resp.json()` returns,
    and the Python exceptions that picking it apart can raise. */
module Json {
  import opened Wrappers

  /** JSON reals are not part of this model (the endpoints modelled send
      prices and quantities as strings). A `Dict` is a decoded object: its
      keys are distinct and in document order. */
  datatype Json =
    | Null
    | Boolean(b: bool)
    | Integer(i: int)
    | Str(s: string)
    | List(items: seq<Json>)
    | Dict(fields: seq<(string, Json)>)

  datatype Error =
    | HttpFailure(detail: string)      // transport error, non-2xx status, undecodable body
    | AttributeError(name: string)
    | KeyError(key: Json)
    | TypeError(detail: string)
    | IndexError(detail: string)
    | ValueError(message: string)
    | FloatError(value: Json)          // float(value) raised

  /** The value stored under `key`, if any. */
  function Get(fields: seq<(string, Json)>, key: string): (r: Option<Json>)
    ensures r.Some? <==> exists i :: 0 <= i < |fields| && fields[i].0 == key
  {
    if fields == [] then None
    else if fields[0].0 == key then Some(fields[0].1)
    else
      var r := Get(fields[1..], key);
      assert forall i :: 1 <= i < |fields| ==> fields[i] == fields[1..][i - 1];
      r
  }

  /** `j.get(key, default)`; only a dict has `get`. */
  function DictGet(j: Json, key: string, default: Json): Result<Json, Error>
  {
    match j
    case Dict(fields) =>
      Success(match Get(fields, key) case Some(v) => v case None => default)
    case _ => Failure(AttributeError("get"))
  }

  /** `j[key]` for a string key. */
  function Subscript(j: Json, key: string): Result<Json, Error>
  {
    match j
    case Dict(fields) =>
      (match Get(fields, key)
       case Some(v) => Success(v)
       case None => Failure(KeyError(Str(key))))
    case List(_) => Failure(TypeError("list indices must be integers or slices, not str"))
    case Str(_) => Failure(TypeError("string indices must be integers"))
    case _ => Failure(TypeError("object is not subscriptable"))
  }

  /** `j[0]`. */
  function First(j: Json): Result<Json, Error>
  {
    match j
    case List(items) =>
      if items == [] then Failure(IndexError("list index out of range")) else Success(items[0])
    case Str(s) =>
      if s == [] then Failure(IndexError("string index out of range")) else Success(Str([s[0]]))
    case Dict(_) => Failure(KeyError(Integer(0)))
    case _ => Failure(TypeError("object is not subscriptable"))
  }

  /** What `for x in j` visits: list items, dict keys, string characters. */
  function Iterate(j: Json): Result<seq<Json>, Error>
  {
    match j
    case List(items) => Success(items)
    case Dict(fields) => Success(seq(|fields|, i requires 0 <= i < |fields| => Str(fields[i].0)))
    case Str(s) => Success(seq(|s|, i requires 0 <= i < |s| => Str([s[i]])))
    case _ => Failure(TypeError("object is not iterable"))
  }

  /** Python's truth value of a decoded JSON value. */
  predicate Truthy(j: Json)
  {
    match j
    case Null => false
    case Boolean(b) => b
    case Integer(i) => i != 0
    case Str(s) => s != []
    case List(items) => items != []
    case Dict(fields) => fields != []
  }

  /** Whether the value can be a dict key. */
  predicate Hashable(j: Json)
  {
    !j.List? && !j.Dict?
  }
}
