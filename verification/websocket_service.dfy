/**
 * The server side of the client WebSocket: the `clients` registry updated
 * on open and close, the message dispatcher and its replies, the HTTP path
 * router in front of the upgrade, and the process-wide server-instance slot.
 * Every `send` appends the (msgpack-encoded) payload to the socket's outbox.
 */
module WebSocketService {
  import opened Wrappers

  /** `ClientData`: the id a connection is given at upgrade and its
      subscription keys (`exchange:symbol`). */
  datatype ClientData = ClientData(id: string, subscriptions: set<string>)

  /** A payload the server sends. The replies use a `type` key, not the `t`
      key of the shared message union, and the error reply has no code. */
  datatype Payload =
    | Connected(id: string, message: string)   // {type:'connected', id, message}
    | Pong                                     // {type:'pong'}
    | Error(message: string)                   // {type:'error', message}
    | Echo(raw: string)                        // the received message, sent back unchanged

  /** The greeting sent on open. */
  const CONNECTED_MESSAGE: string := "Connected to coin WebSocket server"
  /** The reply to a parsed message of an unhandled type. */
  const UNKNOWN_TYPE_MESSAGE: string := "Unknown message type"
  /** The reply to a message whose parsing or dispatch failed. */
  const INVALID_JSON_MESSAGE: string := "Invalid JSON"

  /** A close frame sent by `close(code, reason)`. */
  datatype CloseFrame = CloseFrame(code: int, reason: string)

  /** A server-side socket (a Bun `ServerWebSocket` or an h3 peer): the data
      attached at upgrade, and what has been sent on it. */
  class Socket {
    const data: ClientData
    var outbox: seq<Payload>
    var closes: seq<CloseFrame>

    constructor (data: ClientData)
      ensures this.data == data && outbox == [] && closes == []
    {
      this.data := data;
      outbox := [];
      closes := [];
    }

    /** `close(code, reason)`: sends one close frame. */
    method Close(code: int, reason: string)
      modifies this
      ensures closes == old(closes) + [CloseFrame(code, reason)]
      ensures outbox == old(outbox)
    {
      closes := closes + [CloseFrame(code, reason)];
    }
  }

  /** What `JSON.parse(message.toString())` gives: a failure, `null` (whose
      `.type` throws), or a value whose `type` property is a string or not. */
  datatype ParsedInput = Unparseable | ParsedNull | Parsed(messageType: Option<string>)

  /** The message types that `handleMessage` recognises. */
  const KNOWN_TYPES: set<string> := {"subscribe", "unsubscribe", "snapshot", "ping"}

  /** The `handleMessage` switch: the single reply to a message, if any.
      Subscribe, unsubscribe and snapshot are accepted silently, ping is
      answered with pong, any other type with an error, and a parse failure
      (or a `null` message) with an invalid-JSON error. */
  function Dispatch(input: ParsedInput): (reply: Option<Payload>)
    ensures reply == Some(Pong) <==> input == Parsed(Some("ping"))
    ensures reply == None <==>
      input.Parsed? && input.messageType.Some? && input.messageType.value in KNOWN_TYPES - {"ping"}
    ensures reply == Some(Error(UNKNOWN_TYPE_MESSAGE)) <==>
      input.Parsed? && (input.messageType.None? || input.messageType.value !in KNOWN_TYPES)
    ensures reply == Some(Error(INVALID_JSON_MESSAGE)) <==> !input.Parsed?
  {
    match input
    case Unparseable => Some(Error(INVALID_JSON_MESSAGE))
    case ParsedNull => Some(Error(INVALID_JSON_MESSAGE))
    case Parsed(t) =>
      if t == Some("subscribe") || t == Some("unsubscribe") || t == Some("snapshot") then None
      else if t == Some("ping") then Some(Pong)
      else Some(Error(UNKNOWN_TYPE_MESSAGE))
  }

  /** The replies of `Dispatch` as a list of zero or one payloads. */
  function Replies(input: ParsedInput): (r: seq<Payload>)
    ensures |r| <= 1
    ensures |r| == 1 <==> Dispatch(input).Some?
  {
    match Dispatch(input)
    case None => []
    case Some(p) => [p]
  }

  /** Every message is answered at most once, and the only payloads ever
      produced by dispatch are pong and the two errors. */
  lemma DispatchRepliesAreKnown(input: ParsedInput)
    ensures forall p :: p in Replies(input) ==>
      p == Pong || p == Error(UNKNOWN_TYPE_MESSAGE) || p == Error(INVALID_JSON_MESSAGE)
  {
  }

  /** A server instance, identified by an opaque handle. */
  type ServerHandle = nat

  /** What the `fetch` hook answers. */
  datatype FetchResponse =
    | Upgraded(data: ClientData)              // the request becomes a WebSocket
    | Respond(status: int, body: string)

  /** The `fetch` path router: `/ws` upgrades with a fresh id and no
      subscriptions (or answers 400 when the upgrade is refused), `/health`
      answers 200 `OK`, every other path 404. */
  function Route(pathname: string, freshId: string, upgradeAccepted: bool): (r: FetchResponse)
    ensures r.Upgraded? <==> pathname == "/ws" && upgradeAccepted
    ensures r.Upgraded? ==> r.data == ClientData(freshId, {})
    ensures r.Respond? && r.status == 200 <==> pathname == "/health"
    ensures r.Respond? && r.status == 404 <==> pathname != "/ws" && pathname != "/health"
    ensures r.Respond? && r.status == 400 <==> pathname == "/ws" && !upgradeAccepted
    ensures r.Respond? ==> r.body == (if r.status == 200 then "OK"
                                      else if r.status == 404 then "Not Found"
                                      else "WebSocket upgrade failed")
  {
    if pathname == "/ws" then
      if upgradeAccepted then Upgraded(ClientData(freshId, {}))
      else Respond(400, "WebSocket upgrade failed")
    else if pathname == "/health" then Respond(200, "OK")
    else Respond(404, "Not Found")
  }

  /** The module-level state of `server/services/websocket.ts`. */
  class WebSocketServer {
    /** `clients`: every open connection and its data. */
    var clients: map<Socket, ClientData>
    /** The server instance stored on `globalThis`, if any. */
    var instance: Option<ServerHandle>
    /** Every `stop()` issued on an instance, oldest first. */
    var stopCalls: seq<ServerHandle>

    constructor ()
      ensures clients == map[] && instance == None && stopCalls == []
    {
      clients := map[];
      instance := None;
      stopCalls := [];
    }

    /** `handleOpen`: registers the connection with its data and greets it
        with exactly one `connected` message carrying its id. */
    method HandleOpen(ws: Socket)
      modifies this, ws
      ensures clients == old(clients)[ws := ws.data]
      ensures ws.outbox == old(ws.outbox) + [Connected(ws.data.id, CONNECTED_MESSAGE)]
      ensures ws.closes == old(ws.closes)
      ensures instance == old(instance) && stopCalls == old(stopCalls)
    {
      clients := clients[ws := ws.data];
      ws.outbox := ws.outbox + [Connected(ws.data.id, CONNECTED_MESSAGE)];
    }

    /** `handleClose`: removes only this connection; closing an unknown one
        changes nothing. */
    method HandleClose(ws: Socket)
      modifies this
      ensures clients == old(clients) - {ws}
      ensures instance == old(instance) && stopCalls == old(stopCalls)
    {
      clients := clients - {ws};
    }

    /** `getServerInstance`. */
    function GetServerInstance(): (r: Option<ServerHandle>)
      reads this
      ensures r == instance
    {
      instance
    }

    /** `setServerInstance`. */
    method SetServerInstance(handle: Option<ServerHandle>)
      modifies this
      ensures instance == handle
      ensures clients == old(clients) && stopCalls == old(stopCalls)
    {
      instance := handle;
    }

    /** `stopServer`: without an instance nothing happens; otherwise the
        instance is stopped and, unless `stop()` throws (the error is logged),
        the slot is emptied. */
    method StopServer(stopThrows: bool)
      modifies this
      ensures old(instance) == None ==> instance == None && stopCalls == old(stopCalls)
      ensures old(instance).Some? ==> stopCalls == old(stopCalls) + [old(instance).value]
      ensures old(instance).Some? ==> instance == (if stopThrows then old(instance) else None)
      ensures clients == old(clients)
    {
      var serverInstance := GetServerInstance();
      if serverInstance.Some? {
        stopCalls := stopCalls + [serverInstance.value];
        if !stopThrows {
          SetServerInstance(None);
        }
      }
    }

    /** `startWebSocketServer` as intended: skipped while prerendering or
        without the Bun runtime (the absence is logged); otherwise a running
        instance is stopped first (emptying the slot unless `stop()` throws)
        and the new instance is stored. When `Bun.serve` throws, nothing
        catches it: `threw` reports the exception that reaches the caller, and
        the slot keeps what the stop attempt left in it. */
    method StartWebSocketServer(prerender: bool, bunAvailable: bool, stopThrows: bool,
                                serveThrows: bool, started: ServerHandle) returns (threw: bool)
      modifies this
      ensures threw <==> !prerender && bunAvailable && serveThrows
      ensures prerender || !bunAvailable ==> instance == old(instance) && stopCalls == old(stopCalls)
      ensures !prerender && bunAvailable && !serveThrows ==> instance == Some(started)
      ensures !prerender && bunAvailable && serveThrows ==>
        instance == (if stopThrows then old(instance) else None)
      ensures !prerender && bunAvailable ==>
        stopCalls == old(stopCalls) + (if old(instance).Some? then [old(instance).value] else [])
      ensures clients == old(clients)
    {
      if prerender || !bunAvailable {
        return false;
      }
      StopServer(stopThrows);
      if serveThrows {
        return true;
      }
      SetServerInstance(Some(started));
      threw := false;
    }

    /** `startWebSocketServer` as written: the log line of the no-Bun branch
        names the undeclared global `Bun`, so evaluating its arguments throws
        a `ReferenceError` before the `return`. The state is the intended
        one; only the outcome differs, and only in that branch. */
    method StartWebSocketServerAsWritten(prerender: bool, bunAvailable: bool, stopThrows: bool,
                                         serveThrows: bool, started: ServerHandle) returns (threw: bool)
      modifies this
      ensures threw <==> !prerender && (!bunAvailable || serveThrows)
      ensures prerender || !bunAvailable ==> instance == old(instance) && stopCalls == old(stopCalls)
      ensures !prerender && bunAvailable && !serveThrows ==> instance == Some(started)
      ensures !prerender && bunAvailable && serveThrows ==>
        instance == (if stopThrows then old(instance) else None)
      ensures !prerender && bunAvailable ==>
        stopCalls == old(stopCalls) + (if old(instance).Some? then [old(instance).value] else [])
      ensures clients == old(clients)
    {
      if !prerender && !bunAvailable {
        return true;
      }
      threw := StartWebSocketServer(prerender, bunAvailable, stopThrows, serveThrows, started);
    }

    /** `handleMessage`: parses the message and sends the dispatcher's reply,
        if any, on the same socket; the registry is not touched. */
    method HandleMessage(ws: Socket, input: ParsedInput)
      modifies ws
      ensures ws.outbox == old(ws.outbox) + Replies(input)
      ensures ws.closes == old(ws.closes)
    {
      var reply := Dispatch(input);
      if reply.Some? {
        ws.outbox := ws.outbox + [reply.value];
      }
    }

    /** The Bun `message` hook: it does not dispatch but echoes the raw
        message back. */
    method BunMessage(ws: Socket, raw: string)
      modifies ws
      ensures ws.outbox == old(ws.outbox) + [Echo(raw)]
      ensures ws.closes == old(ws.closes)
    {
      ws.outbox := ws.outbox + [Echo(raw)];
    }
  }

  /** Outside prerendering and without Bun, the code as written throws where
      the intended version logs and returns. */
  method NoBunThrowsAsWritten(started: ServerHandle) returns (asWritten: bool, intended: bool)
    ensures asWritten && !intended
  {
    var written := new WebSocketServer();
    asWritten := written.StartWebSocketServerAsWritten(false, false, false, false, started);
    var fixed := new WebSocketServer();
    intended := fixed.StartWebSocketServer(false, false, false, false, started);
  }
}
