/** What the two Python clients share: the JSON-RPC 2.0 request envelope
    (section 4 of the JSON-RPC 2.0 specification), the Unity end of the
    connection seen as a function from request to reply, and the exceptions
    the request layer raises. */
module Transport {
  import opened Wrappers
  import opened JsonValues

  /** The exceptions of the request layer, by where they are raised. The
      text Python would show for each is described at the constructor. */
  datatype Exc =
      /** `ValueError(message)` from argument validation. */
    | ValueError(message: string)
      /** `TypeError` from `len()` or `in` applied to an unsuitable value. */
    | TypeError
      /** `Exception("Unity error: " + str(detail))` for an error reply. */
    | UnityError(detail: Json)
      /** `AttributeError` from `.get` on an `error` member that is not an object. */
    | AttributeError
      /** `Exception("Response is not in JSON format: ...")`. */
    | NotJson
      /** `ConnectionError("Connection to Unity lost: ...")`. */
    | ConnectionLost
      /** `ConnectionError("Could not connect to Unity server: ...")`. */
    | CouldNotConnect
      /** `Exception("Unknown URI: " + uri)`. */
    | UnknownUri(uri: string)
      /** `Exception("Error reading resource (" + uri + "): " + str(cause))`. */
    | ResourceError(uri: string, cause: Exc)

  /** What one request/reply exchange on a socket produces: a reply decoded
      as a JSON object, a reply that is not JSON, or a socket error. */
  datatype Exchange =
    | Replied(response: Object)
    | Garbled
    | SocketError

  /** The Unity end of the connection: whether it accepts a connection, and
      what it answers to each request. */
  datatype Endpoint = Endpoint(listening: bool, answer: Json -> Exchange)

  /** `params or {}` */
  function OrEmpty(params: Json): (p: Json)
    ensures Truthy(params) ==> p == params
    ensures !Truthy(params) ==> p == JObj(Empty)
  {
    if Truthy(params) then params else JObj(Empty)
  }

  /** The request object `{"jsonrpc": "2.0", "method": ..., "params": ...,
      "id": ...}` both clients send. */
  function Envelope(methodName: string, params: Json, id: string): (request: Json)
    ensures request.JObj? && request.obj.Keys == {"jsonrpc", "method", "params", "id"}
    ensures Get(request.obj, "jsonrpc") == Some(JStr("2.0"))
    ensures Get(request.obj, "method") == Some(JStr(methodName))
    ensures Get(request.obj, "params") == Some(params)
    ensures Get(request.obj, "id") == Some(JStr(id))
  {
    JObj(map["jsonrpc" := JStr("2.0"), "method" := JStr(methodName), "params" := params, "id" := JStr(id)])
  }
}
