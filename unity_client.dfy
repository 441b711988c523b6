/** The TCP client the MCP server uses to reach Unity: it keeps one socket
    open between commands, normalises the parameters of each command, wraps
    them in a JSON-RPC 2.0 request and maps the reply (section 5 of the
    JSON-RPC 2.0 specification) to a value or an exception. */
module UnityTcpClient {
  import opened Wrappers
  import opened JsonValues
  import opened Numerals
  import opened Transport

  /** A TCP socket created for `host:port`. */
  datatype Socket = Socket(host: string, port: int)

  /** `params = params or {}`, then a dict holding a "params" key is replaced
      by that key's value. */
  function NormaliseParams(params: Json): (p: Json)
    ensures !Truthy(params) ==> p == JObj(Empty)
    ensures params.JObj? && HasKey(params.obj, "params") ==> Some(p) == Get(params.obj, "params")
    ensures Truthy(params) && !(params.JObj? && HasKey(params.obj, "params")) ==> p == params
  {
    var p := OrEmpty(params);
    if p.JObj? && HasKey(p.obj, "params") then Get(p.obj, "params").value else p
  }

  /** `str(id(params)) if params else "0"`: `id()` is the object's address,
      which is never 0. */
  function RequestId(params: Json, address: nat): (id: string)
    requires address > 0
    ensures id == "0" <==> !Truthy(params)
    ensures Truthy(params) ==> ParseInt(id) == Some(address as int)
  {
    if Truthy(params) then
      ParseDecimal(address);
      DecimalString(address)
    else "0"
  }

  /** The request `send_command` writes to the socket: JSON-RPC "2.0", the
      method, the normalised params, and the id "0" exactly when those
      params are empty. */
  function CommandRequest(methodName: string, params: Json, address: nat): (request: Json)
    requires address > 0
    ensures request.JObj?
    ensures Get(request.obj, "jsonrpc") == Some(JStr("2.0"))
    ensures Get(request.obj, "method") == Some(JStr(methodName))
    ensures Get(request.obj, "params") == Some(NormaliseParams(params))
    ensures Get(request.obj, "id") == Some(JStr("0")) <==> !Truthy(NormaliseParams(params))
  {
    var p := NormaliseParams(params);
    Envelope(methodName, p, RequestId(p, address))
  }

  /** How `send_command` turns one exchange into a value or an exception:
      an `error` member raises, otherwise the `result` member (or None) is
      returned as it is, with no second decoding. */
  function CommandReply(x: Exchange): (r: Result<Json, Exc>)
    ensures x.SocketError? ==> r == Failure(ConnectionLost)
    ensures x.Garbled? ==> r == Failure(NotJson)
    ensures x.Replied? && HasKey(x.response, "error") ==> r.Failure?
    ensures x.Replied? && HasKey(x.response, "error") && Get(x.response, "error").value.JObj? ==>
      var error := Get(x.response, "error").value.obj;
      r == Failure(UnityError(Get(error, "message").GetOr(JStr("Unknown error"))))
    ensures x.Replied? && HasKey(x.response, "error") && !Get(x.response, "error").value.JObj? ==>
      r == Failure(AttributeError)
    ensures x.Replied? && !HasKey(x.response, "error") ==>
      r == Success(Get(x.response, "result").GetOr(JNull))
  {
    match x
    case SocketError => Failure(ConnectionLost)
    case Garbled => Failure(NotJson)
    case Replied(response) =>
      match Get(response, "error")
      case Some(JObj(error)) =>
        Failure(UnityError(Get(error, "message").GetOr(JStr("Unknown error"))))
      case Some(_) => Failure(AttributeError)
      case None => Success(Get(response, "result").GetOr(JNull))
  }

  /** What `send_command` returns or raises, given whether the client was
      already connected. */
  function CommandOutcome(ready: bool, methodName: string, params: Json, endpoint: Endpoint, address: nat)
    : (r: Result<Json, Exc>)
    requires address > 0
    ensures r.Failure? ==>
      r.error in {CouldNotConnect, ConnectionLost, NotJson, AttributeError} || r.error.UnityError?
    ensures r.Failure? && r.error == CouldNotConnect <==> !ready && !endpoint.listening
  {
    if !ready && !endpoint.listening then Failure(CouldNotConnect)
    else CommandReply(endpoint.answer(CommandRequest(methodName, params, address)))
  }

  /** The socket and `connected` flag `send_command` leaves behind: a failed
      connect leaves the new socket unconnected, a socket error disconnects,
      and otherwise the client is connected, on the socket it had or on the
      one it just created. */
  function StateAfter(ready: bool, socket: Option<Socket>, created: Socket, listening: bool, x: Exchange)
    : (state: (Option<Socket>, bool))
    requires ready ==> socket.Some?
    ensures state.1 ==> state.0.Some?
  {
    if !ready && !listening then (Some(created), false)
    else if x.SocketError? then (None, false)
    else (if ready then socket else Some(created), true)
  }

  /** The next command needs no new connection exactly when this one found
      or made a connection and met no socket error. */
  lemma ReadyForNext(ready: bool, socket: Option<Socket>, created: Socket, listening: bool, x: Exchange)
    requires ready ==> socket.Some?
    ensures var (s, c) := StateAfter(ready, socket, created, listening, x);
      (c && s.Some?) <==> (ready || listening) && !x.SocketError?
  {
  }

  class UnityClient {
    var host: string
    var port: int
    var socket: Option<Socket>
    var connected: bool

    /** `connected` is only ever set while a socket exists. */
    ghost predicate Valid()
      reads this
    {
      connected ==> socket.Some?
    }

    constructor (host: string, port: int)
      ensures Valid()
      ensures this.host == host && this.port == port
      ensures socket == None && !connected
    {
      this.host := host;
      this.port := port;
      socket := None;
      connected := false;
    }

    /** Creates a socket and connects it; `connected` is set only on success,
        and a failure raises ConnectionError. */
    method Connect(endpoint: Endpoint) returns (outcome: Outcome<Exc>)
      requires Valid()
      modifies this
      ensures Valid()
      ensures host == old(host) && port == old(port)
      ensures socket == Some(Socket(host, port))
      ensures outcome == if endpoint.listening then Pass else Fail(CouldNotConnect)
      ensures connected == (endpoint.listening || old(connected))
    {
      socket := Some(Socket(host, port));
      if endpoint.listening {
        connected := true;
        outcome := Pass;
      } else {
        outcome := Fail(CouldNotConnect);
      }
    }

    /** Closes the socket, only when there is one and it is connected. */
    method Disconnect()
      requires Valid()
      modifies this
      ensures Valid()
      ensures host == old(host) && port == old(port)
      ensures old(socket.Some? && connected) ==> socket == None && !connected
      ensures !old(socket.Some? && connected) ==> socket == old(socket) && connected == old(connected)
    {
      if socket.Some? && connected {
        socket := None;
        connected := false;
      }
    }

    /** Connects first when needed, sends the request and maps the reply; a
        socket error disconnects before ConnectionError is raised. */
    method SendCommand(methodName: string, params: Json, endpoint: Endpoint, address: nat)
      returns (r: Result<Json, Exc>)
      requires Valid()
      requires address > 0
      modifies this
      ensures Valid()
      ensures host == old(host) && port == old(port)
      ensures r == CommandOutcome(old(connected && socket.Some?), methodName, params, endpoint, address)
      ensures (socket, connected) ==
        StateAfter(old(connected && socket.Some?), old(socket), Socket(host, port), endpoint.listening,
                   endpoint.answer(CommandRequest(methodName, params, address)))
    {
      if !connected || socket.None? {
        var outcome := Connect(endpoint);
        if outcome.Fail? {
          return Failure(outcome.error);
        }
      }
      var p := NormaliseParams(params);
      var request := Envelope(methodName, p, RequestId(p, address));
      var exchange := endpoint.answer(request);
      if exchange.SocketError? {
        Disconnect();
      }
      r := CommandReply(exchange);
    }
  }
}
