/**
 * The browser-side WebSocket composable: a shared state record holding the
 * socket, a connected flag and a message log capped at 200 entries, the
 * `connect` guard, the socket event handlers and `sendMessage`.
 *
 * The wall-clock text `new Date().toLocaleTimeString()` is a parameter
 * `now`; msgpack decoding followed by `JSON.stringify` is given to the
 * message handler as its outcome.
 */
module UseWebSocket {
  import opened Wrappers

  /** The cap on the message log. */
  const MAX_MESSAGES: nat := 200

  /** One log line: `{ time, text }`. */
  datatype LogEntry = LogEntry(time: string, text: string)

  /** Log texts written by the event handlers and by `sendMessage`. */
  const OPENED_TEXT: string := "Server: Connected to WebSocket."
  const CLOSED_TEXT: string := "Server: Disconnected from WebSocket."
  const SOCKET_ERROR_TEXT: string := "Server: WebSocket error occurred."
  const NOT_CONNECTED_TEXT: string := "Error: Not connected."

  /** The log after `push` and, when it then holds more than 200 entries,
      `shift`. */
  function BoundedAppend(log: seq<LogEntry>, e: LogEntry): (r: seq<LogEntry>)
    ensures |r| >= 1 && r[|r| - 1] == e
    ensures |log| <= MAX_MESSAGES ==> |r| <= MAX_MESSAGES
    ensures |log| < MAX_MESSAGES ==> r == log + [e]
    ensures |log| >= MAX_MESSAGES ==> |r| == |log| && r[..|r| - 1] == log[1..]
  {
    var pushed := log + [e];
    if |pushed| > MAX_MESSAGES then pushed[1..] else pushed
  }

  /** The log after appending every entry of `es` in turn. */
  function AppendAll(log: seq<LogEntry>, es: seq<LogEntry>): seq<LogEntry>
    decreases |es|
  {
    if es == [] then log else AppendAll(BoundedAppend(log, es[0]), es[1..])
  }

  /** The newest `min(200, |all|)` entries of `all`, oldest first. */
  function Newest(all: seq<LogEntry>): (r: seq<LogEntry>)
    ensures |r| <= MAX_MESSAGES
  {
    var n := if |all| < MAX_MESSAGES then |all| else MAX_MESSAGES;
    all[|all| - n..]
  }

  /** Dropping old entries that the window would drop anyway changes
      nothing. */
  lemma NewestOfSuffix(all: seq<LogEntry>, k: nat)
    requires k <= |all| && |all| - k >= |Newest(all)|
    ensures Newest(all[k..]) == Newest(all)
  {
  }

  /** The log is a sliding window: starting within the cap, any run of
      appends leaves exactly the newest `min(200, total)` entries of the
      whole history, oldest first. */
  lemma {:induction false} AppendAllKeepsNewest(log: seq<LogEntry>, es: seq<LogEntry>)
    requires |log| <= MAX_MESSAGES
    ensures AppendAll(log, es) == Newest(log + es)
    decreases |es|
  {
    if es == [] {
      assert log + es == log;
    } else {
      var next := BoundedAppend(log, es[0]);
      AppendAllKeepsNewest(next, es[1..]);
      var drop := |log| + 1 - |next|;
      assert next == (log + [es[0]])[drop..];
      assert next + es[1..] == (log + es)[drop..];
      NewestOfSuffix(log + es, drop);
    }
  }

  /** The browser `WebSocket`, seen through what was sent on it. */
  class BrowserSocket {
    var sent: seq<string>

    constructor ()
      ensures sent == []
    {
      sent := [];
    }

    /** `send(text)`. */
    method Send(text: string)
      modifies this
      ensures sent == old(sent) + [text]
    {
      sent := sent + [text];
    }
  }

  /** The shared `webSocketState` record, plus the sockets `connect` has
      created (their handlers are the closures of those calls). */
  class ClientState {
    var ws: BrowserSocket?
    var connected: bool
    var messages: seq<LogEntry>
    ghost var created: set<BrowserSocket>

    ghost predicate Valid()
      reads this
    {
      |messages| <= MAX_MESSAGES && (ws != null ==> ws in created)
    }

    /** The initial state: no socket, not connected, empty log. */
    constructor ()
      ensures Valid()
      ensures ws == null && !connected && messages == [] && created == {}
    {
      ws := null;
      connected := false;
      messages := [];
      created := {};
    }

    /** `addMessage(text)`, stamped with `now`. */
    method AddMessage(text: string, now: string)
      requires Valid()
      modifies this
      ensures Valid()
      ensures messages == BoundedAppend(old(messages), LogEntry(now, text))
      ensures ws == old(ws) && connected == old(connected) && created == old(created)
    {
      messages := BoundedAppend(messages, LogEntry(now, text));
    }

    /** `connect()`: does nothing while `ws` is set; otherwise creates a new
        socket. `ws` itself is only set once that socket opens. */
    method Connect() returns (sock: BrowserSocket?)
      requires Valid()
      modifies this
      ensures Valid()
      ensures old(ws) != null ==> sock == null && created == old(created)
      ensures old(ws) == null ==>
        sock != null && fresh(sock) && sock.sent == [] && created == old(created) + {sock}
      ensures ws == old(ws) && connected == old(connected) && messages == old(messages)
    {
      if ws != null {
        return null;
      }
      sock := new BrowserSocket();
      created := created + {sock};
    }

    /** `onopen` of `sock`. */
    method OnOpen(sock: BrowserSocket, now: string)
      requires Valid() && sock in created
      modifies this
      ensures Valid()
      ensures connected && ws == sock
      ensures messages == BoundedAppend(old(messages), LogEntry(now, OPENED_TEXT))
      ensures created == old(created)
    {
      connected := true;
      ws := sock;
      AddMessage(OPENED_TEXT, now);
    }

    /** `onmessage`: `decoded` is the `JSON.stringify` text of the msgpack
        decoding of the frame, or `None` when decoding threw; `raw` is the
        frame's string form. Only the log changes. */
    method OnMessage(decoded: Option<string>, raw: string, now: string)
      requires Valid()
      modifies this
      ensures Valid()
      ensures decoded.Some? ==>
        messages == BoundedAppend(old(messages), LogEntry(now, "Server: " + decoded.value))
      ensures decoded.None? ==>
        messages == BoundedAppend(old(messages), LogEntry(now, "Error: Failed to decode message. " + raw))
      ensures ws == old(ws) && connected == old(connected) && created == old(created)
    {
      match decoded
      case Some(text) => AddMessage("Server: " + text, now);
      case None => AddMessage("Error: Failed to decode message. " + raw, now);
    }

    /** `onclose`: disconnected, no socket. */
    method OnClose(now: string)
      requires Valid()
      modifies this
      ensures Valid()
      ensures !connected && ws == null
      ensures messages == BoundedAppend(old(messages), LogEntry(now, CLOSED_TEXT))
      ensures created == old(created)
    {
      connected := false;
      ws := null;
      AddMessage(CLOSED_TEXT, now);
    }

    /** `onerror`: only logs. */
    method OnError(now: string)
      requires Valid()
      modifies this
      ensures Valid()
      ensures messages == BoundedAppend(old(messages), LogEntry(now, SOCKET_ERROR_TEXT))
      ensures ws == old(ws) && connected == old(connected) && created == old(created)
    {
      AddMessage(SOCKET_ERROR_TEXT, now);
    }

    /** `sendMessage`: `text` is the `JSON.stringify` form of the message.
        It is sent only when a socket is set and connected. */
    method SendMessage(text: string, now: string)
      requires Valid()
      modifies this, ws
      ensures Valid()
      ensures ws == old(ws) && connected == old(connected) && created == old(created)
      ensures old(ws) != null && old(connected) ==>
        ws.sent == old(ws.sent) + [text] &&
        messages == BoundedAppend(old(messages), LogEntry(now, "You: " + text))
      ensures !(old(ws) != null && old(connected)) ==>
        (ws != null ==> ws.sent == old(ws.sent)) &&
        messages == BoundedAppend(old(messages), LogEntry(now, NOT_CONNECTED_TEXT))
    {
      if ws != null && connected {
        ws.Send(text);
        AddMessage("You: " + text, now);
      } else {
        AddMessage(NOT_CONNECTED_TEXT, now);
      }
    }
  }

  /** Two `connect` calls before the first socket opens both create a
      socket: the guard looks at `ws`, which only `onopen` sets. */
  method DoubleConnectBeforeOpen()
  {
    var state := new ClientState();
    var first := state.Connect();
    var second := state.Connect();
    assert first != null && second != null && first != second;
    assert state.created == {first, second};
  }

  /** Once a socket has opened, `connect` creates nothing more. */
  method ConnectAfterOpen(now: string)
  {
    var state := new ClientState();
    var sock := state.Connect();
    state.OnOpen(sock, now);
    var again := state.Connect();
    assert again == null && state.created == {sock};
  }
}
