/** The WebSocket hook (src/hooks/useWebSocket.ts): a connection status, the last parsed
    message, an error text and a reference to the current socket. The browser's socket is a
    value here; its events are method calls that say whether they come from the socket the
    reference currently holds, because the handlers of a replaced socket stay attached. */
module UseWebSocket {
  import opened Wrappers
  import opened Protocol

  datatype ConnectionStatus = Connecting | Connected | Disconnected | Error

  /** `WebSocket.readyState`. */
  datatype ReadyState = SocketConnecting | SocketOpen | SocketClosing | SocketClosed

  /** A socket: its URL, its ready state and the messages handed to its `send`. */
  datatype Socket = Socket(url: string, readyState: ReadyState, sent: seq<Json>)

  /** The hook's whole state. */
  datatype HookState = HookState(status: ConnectionStatus, lastMessage: Json, error: Option<string>,
                                 socket: Option<Socket>)

  const CreateFailedMessage := "Failed to create WebSocket connection"
  const SocketErrorMessage := "WebSocket connection error"

  function SocketUrl(sessionId: string): (u: string)
    ensures |u| == 23 + |sessionId| && u[..23] == "ws://localhost:8000/ws/" && u[23..] == sessionId
  {
    "ws://localhost:8000/ws/" + sessionId
  }

  predicate IsOpen(s: HookState) {
    s.socket.Some? && s.socket.value.readyState == SocketOpen
  }

  /** The state on mount: disconnected, nothing received, no error, no socket. */
  function Initial(): HookState {
    HookState(Disconnected, JNull, None, None)
  }

  /** `connect`: nothing while the current socket is open; otherwise `connecting` with the error
      cleared, then a new socket for the session, or the creation error (the reference keeps
      what it held, since the assignment never happens). */
  function ConnectState(s: HookState, sessionId: string, createFails: bool): (r: HookState)
    ensures IsOpen(s) ==> r == s
    ensures !IsOpen(s) && !createFails ==>
      r.status == Connecting && r.error == None && r.socket == Some(Socket(SocketUrl(sessionId), SocketConnecting, []))
    ensures !IsOpen(s) && createFails ==>
      r.status == Error && r.error == Some(CreateFailedMessage) && r.socket == s.socket
    ensures r.lastMessage == s.lastMessage
  {
    if IsOpen(s) then s
    else if createFails then s.(status := Error, error := Some(CreateFailedMessage))
    else s.(status := Connecting, error := None, socket := Some(Socket(SocketUrl(sessionId), SocketConnecting, [])))
  }

  /** The current socket with a new ready state; a missing socket stays missing. */
  function WithReadyState(socket: Option<Socket>, rs: ReadyState): Option<Socket> {
    if socket.Some? then Some(socket.value.(readyState := rs)) else None
  }

  /** `onopen`: `connected`, from any socket whose handler fires. */
  function OnOpen(s: HookState, fromCurrent: bool): (r: HookState)
    ensures r.status == Connected && r.error == s.error && r.lastMessage == s.lastMessage
    ensures fromCurrent && s.socket.Some? ==> IsOpen(r)
    ensures !fromCurrent ==> r.socket == s.socket
  {
    s.(status := Connected, socket := if fromCurrent then WithReadyState(s.socket, SocketOpen) else s.socket)
  }

  /** `onclose`: `disconnected`; the error text stays. */
  function OnClose(s: HookState, fromCurrent: bool): (r: HookState)
    ensures r.status == Disconnected && r.error == s.error && r.lastMessage == s.lastMessage
    ensures fromCurrent ==> !IsOpen(r)
    ensures !fromCurrent ==> r.socket == s.socket
  {
    s.(status := Disconnected, socket := if fromCurrent then WithReadyState(s.socket, SocketClosed) else s.socket)
  }

  /** `onerror`: `error`, with the connection error text. */
  function OnError(s: HookState): (r: HookState)
    ensures r.status == Error && r.error == Some(SocketErrorMessage)
    ensures r.socket == s.socket && r.lastMessage == s.lastMessage
  {
    s.(status := Error, error := Some(SocketErrorMessage))
  }

  /** `onmessage`: the parsed message (None when `JSON.parse` throws) replaces the last one;
      a parse failure changes nothing. */
  function OnMessage(s: HookState, parsed: Option<Json>): (r: HookState)
    ensures parsed.Some? ==> r.lastMessage == parsed.value
    ensures parsed.None? ==> r == s
    ensures r.status == s.status && r.error == s.error && r.socket == s.socket
  {
    if parsed.Some? then s.(lastMessage := parsed.value) else s
  }

  /** `disconnect`: closes and drops the socket and reports `disconnected`. */
  function DisconnectState(s: HookState): (r: HookState)
    ensures r.socket.None? && r.status == Disconnected
    ensures r.lastMessage == s.lastMessage && r.error == s.error
  {
    s.(status := Disconnected, socket := None)
  }

  /** Disconnecting twice is disconnecting once. */
  lemma DisconnectIdempotent(s: HookState)
    ensures DisconnectState(DisconnectState(s)) == DisconnectState(s)
  {
  }

  /** `sendMessage`: the message goes to the socket only when it is open. */
  function Send(s: HookState, message: Json): (r: HookState)
    ensures IsOpen(s) ==> r.socket.Some? && r.socket.value.sent == s.socket.value.sent + [message]
    ensures !IsOpen(s) ==> r == s
    ensures r.status == s.status && r.lastMessage == s.lastMessage && r.error == s.error
    ensures IsOpen(r) == IsOpen(s)
  {
    if IsOpen(s) then s.(socket := Some(s.socket.value.(sent := s.socket.value.sent + [message]))) else s
  }

  /** The demo timer of the mount effect: reports `connected` whatever the socket. */
  function DemoTimer(s: HookState): (r: HookState)
    ensures r.status == Connected && r.socket == s.socket
    ensures r.lastMessage == s.lastMessage && r.error == s.error
  {
    s.(status := Connected)
  }

  /** A connection opened for a session delivers what is sent afterwards, on that session's URL. */
  lemma ConnectOpenSend(sessionId: string, m: Json)
    ensures var s := Send(OnOpen(ConnectState(Initial(), sessionId, false), true), m);
      s.status == Connected && s.socket == Some(Socket(SocketUrl(sessionId), SocketOpen, [m]))
  {
    var afterOpen := OnOpen(ConnectState(Initial(), sessionId, false), true);
    assert afterOpen.socket == Some(Socket(SocketUrl(sessionId), SocketOpen, []));
    assert [] + [m] == [m];
  }

  /** Connecting again while open keeps the socket and does not reset the status. */
  lemma ReconnectWhileOpenKeepsSocket(s: HookState, sessionId: string, other: string, createFails: bool)
    ensures var t := OnOpen(ConnectState(s, sessionId, false), true);
      ConnectState(t, other, createFails) == t
  {
    var t := OnOpen(ConnectState(s, sessionId, false), true);
    assert IsOpen(t);
  }

  /** On mount the demo timer shows `connected` although there is no socket: messages are dropped. */
  lemma DemoTimerConnectedWithoutSocket(m: Json)
    ensures DemoTimer(Initial()).status == Connected
    ensures Send(DemoTimer(Initial()), m) == DemoTimer(Initial())
  {
  }

  /** The handlers of a replaced socket remain attached: its open event reports `connected`
      while the current socket is still connecting, and a send is dropped. */
  lemma StaleOpenMisreportsStatus(id1: string, id2: string, m: Json)
    ensures var s := OnOpen(ConnectState(OnError(ConnectState(Initial(), id1, false)), id2, false), false);
      s.status == Connected && !IsOpen(s) && Send(s, m) == s
  {
  }

  /** The hook as the component holds it. */
  class WebSocketHook {
    var status: ConnectionStatus
    var lastMessage: Json
    var error: Option<string>
    var socket: Option<Socket>

    function State(): HookState
      reads this
    {
      HookState(status, lastMessage, error, socket)
    }

    constructor()
      ensures State() == Initial()
    {
      status := Disconnected;
      lastMessage := JNull;
      error := None;
      socket := None;
    }

    /** `connect(sessionId)`; `createFails` says whether `new WebSocket(url)` throws. */
    method Connect(sessionId: string, createFails: bool)
      modifies this
      ensures State() == ConnectState(old(State()), sessionId, createFails)
    {
      if socket.Some? && socket.value.readyState == SocketOpen {
        return;
      }
      status := Connecting;
      error := None;
      if createFails {
        status := Error;
        error := Some(CreateFailedMessage);
      } else {
        socket := Some(Socket(SocketUrl(sessionId), SocketConnecting, []));
      }
    }

    method HandleOpen(fromCurrent: bool)
      modifies this`status, this`socket
      ensures State() == OnOpen(old(State()), fromCurrent)
    {
      if fromCurrent && socket.Some? {
        socket := Some(socket.value.(readyState := SocketOpen));
      }
      status := Connected;
    }

    method HandleMessage(parsed: Option<Json>)
      modifies this`lastMessage
      ensures State() == OnMessage(old(State()), parsed)
    {
      if parsed.Some? {
        lastMessage := parsed.value;
      }
    }

    method HandleClose(fromCurrent: bool)
      modifies this`status, this`socket
      ensures State() == OnClose(old(State()), fromCurrent)
    {
      if fromCurrent && socket.Some? {
        socket := Some(socket.value.(readyState := SocketClosed));
      }
      status := Disconnected;
    }

    method HandleError()
      modifies this`status, this`error
      ensures State() == OnError(old(State()))
    {
      status := Error;
      error := Some(SocketErrorMessage);
    }

    method Disconnect()
      modifies this`status, this`socket
      ensures State() == DisconnectState(old(State()))
    {
      if socket.Some? {
        socket := None;
      }
      status := Disconnected;
    }

    /** `sendMessage`; `sent` says whether the message went to the socket. */
    method SendMessage(message: Json) returns (sent: bool)
      modifies this`socket
      ensures State() == Send(old(State()), message)
      ensures sent <==> IsOpen(old(State()))
    {
      sent := socket.Some? && socket.value.readyState == SocketOpen;
      if sent {
        socket := Some(socket.value.(sent := socket.value.sent + [message]));
      }
    }

    method FireDemoTimer()
      modifies this`status
      ensures State() == DemoTimer(old(State()))
    {
      status := Connected;
    }
  }
}
