/** Values shared by every part of the model: PHP option arrays, nullable
    values, the error results that stand for the source's exceptions, and
    the default endpoint. */
module Values {

  /** A nullable value: PHP's NULL is None. */
  datatype Option<+T> = None | Some(value: T)

  /** A PHP value that can stand in an options array. Only string keys are
      modelled, so an array is a map from strings. */
  datatype Value =
    | VNull
    | VBool(b: bool)
    | VInt(i: int)
    | VStr(s: string)
    | VMap(entries: map<string, Value>)

  /** An associative array of HTTP client options, such as `query`. */
  type Options = map<string, Value>

  /** The endpoint every facade and library starts with. */
  const DefaultEndpoint: string := "https://api.stanford.edu"

  /** The exceptions the core raises or lets through. */
  datatype Error =
    | UndefinedApi(name: string)  // api($name) with a name it does not know
    | TransportRaised             // the HTTP client's get() threw; nothing catches it
    | InvalidResponse             // makeRequest: makeRawRequest returned FALSE
    | NoBody                      // makeRequest: reading the response body threw

  datatype Result<+T> = Ok(value: T) | Err(error: Error)
}
