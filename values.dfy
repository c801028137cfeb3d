/** Values that flow through the HTTP layer: decoded JSON, plus the opaque Python
    objects (uploaded files, the resolve info, objects returned by resolvers)
    that end up in the same dictionaries. */
module Values {

  datatype Option<+T> = None | Some(value: T) {
    function GetOr(default: T): T {
      match this
      case Some(v) => v
      case None => default
    }
  }

  datatype Result<+R, +E> = Success(value: R) | Failure(error: E)

  /** A Python value as seen by the view and the resolvers. `Null` is `None`;
      `Object` stands for any non-JSON object, identified by an opaque tag. */
  datatype Value =
    | Null
    | Bool(b: bool)
    | Int(i: int)
    | Str(s: string)
    | List(items: seq<Value>)
    | Dict(entries: map<string, Value>)
    | Object(tag: nat)

  /** Python's `d.get(k)`: the value bound to `k`, or `None` when `k` is absent. */
  function Get(d: map<string, Value>, k: string): Value {
    if k in d then d[k] else Null
  }

  /** The outcome of `json.loads` on a text the model does not look into. */
  datatype Decoded = Malformed | Decoded(value: Value)
}
