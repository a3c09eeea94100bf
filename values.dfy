/** Scalar values carried by the RPC channel, and the failure-aware wrappers
    every operation of the session controller returns. */
module Values {

  /** A JSON null, boolean, integer or string as it arrives in a request's
      `data` or `internal` object. `Null` is Python's `None`. */
  datatype Value = Null | Bool(b: bool) | Int(i: int) | Str(s: string)

  datatype Option<+T> = None | Some(value: T)

  /** Why an operation raised. Each variant names the Python exception path
      of the controller it stands for. */
  datatype Error =
    | MissingField(field: string)     // TypeError("missing ...") or KeyError on data["..."]
    | KeyNotFound                     // KeyError on a registry lookup
    | NoSuchMid                       // AttributeError: no transceiver carries the mid
    | UnknownMethod(name: string)     // TypeError: unknown request method
    | UnknownEvent(name: string)      // TypeError: unknown notification event
    | TrackUnavailable                // the track source yielded no track
    | MissingAttribute                // AttributeError inside a stats serializer
    | EngineError                     // whatever the media engine raised

  datatype Result<+T> = Ok(value: T) | Err(error: Error)

  /** Python's `dict.get(key)`: the stored value, or `None` when the key is
      absent, so an absent key and an explicit JSON null look the same. */
  function Get(m: map<string, Value>, key: string): (v: Value)
    ensures key in m ==> v == m[key]
    ensures key !in m ==> v == Null
  {
    if key in m then m[key] else Null
  }
}
