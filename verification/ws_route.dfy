/**
 * The h3 WebSocket route: the set of live peers kept so that a hot reload
 * can close them all, and the `open`/`message`/`close` hooks that track
 * peers and delegate to the WebSocket service.
 */
module WsRoute {
  import opened Wrappers
  import opened WebSocketService

  /** The close code sent on hot reload: 1012, service restart. */
  const SERVICE_RESTART: int := 1012

  /** The close reason sent on hot reload. */
  const RESTART_REASON: string := "Server restarting due to file change"

  /** What `message.text()` gives: a failure (the error is caught and
      logged), or the text, here already as its `JSON.parse` outcome. */
  datatype IncomingMessage = TextFailed | Text(input: ParsedInput)

  /** The module-level state of `server/routes/ws.ts`. */
  class HmrRoute {
    /** `activePeers`. */
    var activePeers: set<Socket>
    /** The WebSocket service the hooks delegate to. */
    const service: WebSocketServer

    constructor (service: WebSocketServer)
      ensures this.service == service && activePeers == {}
    {
      this.service := service;
      activePeers := {};
    }

    /** `open`: tracks the peer, then hands it to `handleOpen`. */
    method Open(peer: Socket)
      modifies this, service, peer
      ensures activePeers == old(activePeers) + {peer}
      ensures service.clients == old(service.clients)[peer := peer.data]
      ensures peer.outbox == old(peer.outbox) + [Connected(peer.data.id, CONNECTED_MESSAGE)]
      ensures peer.closes == old(peer.closes)
      ensures service.instance == old(service.instance) && service.stopCalls == old(service.stopCalls)
    {
      activePeers := activePeers + {peer};
      service.HandleOpen(peer);
    }

    /** `message`: hands the text to `handleMessage`; a failure to read the
        text is caught and changes nothing. */
    method Message(peer: Socket, message: IncomingMessage)
      modifies peer
      ensures message.TextFailed? ==> peer.outbox == old(peer.outbox)
      ensures message.Text? ==> peer.outbox == old(peer.outbox) + Replies(message.input)
      ensures peer.closes == old(peer.closes)
    {
      if message.Text? {
        service.HandleMessage(peer, message.input);
      }
    }

    /** `close`: stops tracking the peer, then hands it to `handleClose`. */
    method Close(peer: Socket)
      modifies this, service
      ensures activePeers == old(activePeers) - {peer}
      ensures service.clients == old(service.clients) - {peer}
      ensures service.instance == old(service.instance) && service.stopCalls == old(service.stopCalls)
    {
      activePeers := activePeers - {peer};
      service.HandleClose(peer);
    }

    /** `closePeers`: every peer tracked at the call receives exactly one
        close frame with code 1012, and then none is tracked. */
    method ClosePeers()
      modifies this, activePeers
      ensures activePeers == {}
      ensures forall p :: p in old(activePeers) ==>
        p.closes == old(p.closes) + [CloseFrame(SERVICE_RESTART, RESTART_REASON)]
      ensures forall p :: p in old(activePeers) ==> p.outbox == old(p.outbox)
    {
      var remaining := activePeers;
      while remaining != {}
        invariant remaining <= old(activePeers) && activePeers == old(activePeers)
        invariant forall p :: p in old(activePeers) - remaining ==>
          p.closes == old(p.closes) + [CloseFrame(SERVICE_RESTART, RESTART_REASON)]
        invariant forall p :: p in remaining ==> p.closes == old(p.closes)
        invariant forall p :: p in old(activePeers) ==> p.outbox == old(p.outbox)
        decreases remaining
      {
        var peer :| peer in remaining;
        peer.Close(SERVICE_RESTART, RESTART_REASON);
        remaining := remaining - {peer};
      }
      activePeers := {};
    }
  }
}
