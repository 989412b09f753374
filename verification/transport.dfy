/**
  * What the dispatcher sees of the HTTP client library: the five bound
  * client operations, the call each request turns into, and what comes
  * back — a response with a status, an optional reason phrase and raw
  * content, or a transport-level failure (connect error, timeout,
  * protocol error) that never produced a response.
  */
module Transport {
  import opened Wrappers
  import opened PyValues

  /** The bound operations `client.get`, `client.post`, `client.put`, `client.patch`, `client.delete`. */
  datatype HttpMethod = Get | Post | Put | Patch | Delete

  /** The `__name__` of the bound operation. */
  function OperationName(m: HttpMethod): (name: string)
    ensures name in {"get", "post", "put", "patch", "delete"}
  {
    match m
    case Get => "get"
    case Post => "post"
    case Put => "put"
    case Patch => "patch"
    case Delete => "delete"
  }

  /** One invocation of a client operation: the path, `params=` and, when it is passed, `json=`. */
  datatype Call = Call(operation: HttpMethod, path: string, params: Value, json: Option<Value>)

  datatype Response = Response(statusCode: int, reasonPhrase: Option<string>, content: seq<byte>)

  /** What one awaited call produced: a response, or the transport exception it raised. */
  datatype Exchange = Received(response: Response) | TransportFailed(reason: string)

  /** `Response.is_success`: a 2xx status. */
  predicate IsSuccess(status: int) { 200 <= status <= 299 }

  /** `Response.is_client_error`: a 4xx status. */
  predicate IsClientError(status: int) { 400 <= status <= 499 }

  /** `Response.is_server_error`: a 5xx status. */
  predicate IsServerError(status: int) { 500 <= status <= 599 }
}
