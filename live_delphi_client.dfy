/** Model of client-src/js/live-delphi-client.js, the browser widget that
    holds the participant's WebSocket. Messages sent before the socket is
    open wait in a queue that is flushed, oldest first, when it opens. The
    browser's socket is a value whose ready state the model changes where
    the browser would; a message is the text `JSON.stringify` produced. */
module LiveDelphiClient {
  import opened Base

  /** The widget's `_state`: `null` after creation, then 'CONNECTING' or 'CONNECTED'. */
  datatype State = Unset | Connecting | Connected

  /** The `readyState` of a WebSocket. */
  datatype ReadyState = SocketConnecting | SocketOpen | SocketClosing | SocketClosed

  datatype Socket = Socket(url: string, readyState: ReadyState)

  /** An event the widget triggers on its element. */
  datatype Event = ConnectEvent | MessageEvent(name: string, payload: Option<string>)

  /** An incoming frame after `JSON.parse`: its `type` and `data` fields. */
  datatype Frame = Frame(msgType: Option<string>, data: Option<string>)

  const DefaultWsUrl: string := "ws://localhost:8000"
  const DefaultReconnectTimeout: nat := 3000

  /** `wsUrl + '/' + sessionId`, where a missing session id renders as "undefined". */
  function SocketUrl(wsUrl: string, sessionId: Option<string>): (url: string)
    ensures |url| > |wsUrl| && url[..|wsUrl|] == wsUrl && url[|wsUrl|] == '/'
    ensures url[|wsUrl| + 1..] == StrOrUndefined(sessionId)
  {
    wsUrl + "/" + StrOrUndefined(sessionId)
  }

  /** Two sessions never share a socket URL. */
  lemma SocketUrlInjective(wsUrl: string, a: string, b: string)
    requires SocketUrl(wsUrl, Some(a)) == SocketUrl(wsUrl, Some(b))
    ensures a == b
  {
    assert a == SocketUrl(wsUrl, Some(a))[|wsUrl| + 1..];
  }

  /** The name of the event an incoming frame triggers. */
  function MessageEventName(frame: Frame): (name: string)
    ensures |name| >= 8 && name[..8] == "message:" && name[8..] == StrOrUndefined(frame.msgType)
  {
    "message:" + StrOrUndefined(frame.msgType)
  }

  class Client {
    const wsUrl: string
    const reconnectTimeout: nat
    /** Whether the browser offers `WebSocket` or `MozWebSocket`. */
    const webSocketSupported: bool

    var state: State
    var pending: seq<string>
    var webSocket: Option<Socket>
    /** Whether a reconnect timer is scheduled. */
    var timerScheduled: bool
    /** The session id of the most recent `connect`. */
    var sessionId: Option<string>
    /** Every message written to a socket, in order. */
    var sent: seq<string>
    /** Every event triggered on the element, in order. */
    var events: seq<Event>
    /** Every message handed to `sendMessage`, in order. */
    ghost var submitted: seq<string>

    /** Nothing is lost or reordered: what was written to the socket followed
        by what still waits is exactly what was submitted, and nothing waits
        once the widget is connected. */
    ghost predicate Valid()
      reads this
    {
      && sent + pending == submitted
      && (state == Connected ==> pending == [] && webSocket.Some?)
      && (webSocket.Some? ==> webSocket.value.url == SocketUrl(wsUrl, sessionId))
    }

    /** `_create` with the widget options. */
    constructor (wsUrl: string, reconnectTimeout: nat, webSocketSupported: bool)
      ensures Valid()
      ensures this.wsUrl == wsUrl && this.reconnectTimeout == reconnectTimeout
      ensures this.webSocketSupported == webSocketSupported
      ensures state == Unset && pending == [] && webSocket == None && !timerScheduled
      ensures sent == [] && events == [] && submitted == []
    {
      this.wsUrl := wsUrl;
      this.reconnectTimeout := reconnectTimeout;
      this.webSocketSupported := webSocketSupported;
      state := Unset;
      pending := [];
      webSocket := None;
      timerScheduled := false;
      sessionId := None;
      sent := [];
      events := [];
      submitted := [];
    }

    /** `connect`: the state becomes CONNECTING before the socket is created;
        without WebSocket support there is no socket and nothing else happens.
        A new socket starts in the CONNECTING ready state. */
    method Connect(sessionId: Option<string>)
      requires Valid()
      modifies this
      ensures Valid()
      ensures state == Connecting && this.sessionId == sessionId
      ensures webSocket == if webSocketSupported then Some(Socket(SocketUrl(wsUrl, sessionId), SocketConnecting)) else None
      ensures pending == old(pending) && sent == old(sent) && events == old(events) && submitted == old(submitted)
      ensures timerScheduled == old(timerScheduled)
    {
      state := Connecting;
      this.sessionId := sessionId;
      if !webSocketSupported {
        webSocket := None;
        return;
      }
      webSocket := Some(Socket(SocketUrl(wsUrl, sessionId), SocketConnecting));
    }

    /** `_sendMessage`: written to the socket when CONNECTED, queued otherwise. */
    method SendMessage(message: string)
      requires Valid()
      modifies this
      ensures Valid()
      ensures submitted == old(submitted) + [message]
      ensures old(state) == Connected ==> sent == old(sent) + [message] && pending == old(pending)
      ensures old(state) != Connected ==> pending == old(pending) + [message] && sent == old(sent)
      ensures state == old(state) && webSocket == old(webSocket) && events == old(events)
      ensures timerScheduled == old(timerScheduled) && sessionId == old(sessionId)
    {
      submitted := submitted + [message];
      if state == Connected {
        sent := sent + [message];
      } else {
        pending := pending + [message];
      }
    }

    /** `_onWebSocketOpen`: the browser opens the socket; the queue is written
        out oldest first until it is empty, then the widget is CONNECTED and
        triggers exactly one "connect" event. */
    method OnWebSocketOpen()
      requires Valid()
      requires webSocket.Some? && webSocket.value.readyState == SocketConnecting
      modifies this
      ensures Valid()
      ensures sent == old(sent) + old(pending) && pending == []
      ensures state == Connected
      ensures webSocket == Some(old(webSocket).value.(readyState := SocketOpen))
      ensures events == old(events) + [ConnectEvent]
      ensures submitted == old(submitted) && timerScheduled == old(timerScheduled) && sessionId == old(sessionId)
    {
      webSocket := Some(webSocket.value.(readyState := SocketOpen));
      while |pending| > 0
        invariant sent + pending == old(sent) + old(pending)
        invariant submitted == old(submitted) && sessionId == old(sessionId) && events == old(events)
        invariant webSocket == Some(old(webSocket).value.(readyState := SocketOpen))
        invariant state == old(state) && timerScheduled == old(timerScheduled)
        decreases |pending|
      {
        sent := sent + [pending[0]];
        pending := pending[1..];
      }
      state := Connected;
      events := events + [ConnectEvent];
    }

    /** `_onWebSocketMessage`: the frame's data is passed on under the event
        "message:" + its type. */
    method OnWebSocketMessage(frame: Frame)
      requires Valid()
      modifies this
      ensures Valid()
      ensures events == old(events) + [MessageEvent(MessageEventName(frame), frame.data)]
      ensures state == old(state) && pending == old(pending) && sent == old(sent) && webSocket == old(webSocket)
      ensures submitted == old(submitted) && timerScheduled == old(timerScheduled) && sessionId == old(sessionId)
    {
      events := events + [MessageEvent(MessageEventName(frame), frame.data)];
    }

    /** `_reconnect` as written: the scheduled timer is cleared; a new socket
        is requested, by `connect()` with no session id, only when there is no
        socket or it is not CONNECTING; a new timer is scheduled. */
    method Reconnect()
      requires Valid()
      modifies this
      ensures Valid()
      ensures timerScheduled
      ensures var reconnects := old(webSocket).None? || old(webSocket).value.readyState != SocketConnecting;
        && (reconnects ==>
              && state == Connecting && sessionId == None
              && webSocket == if webSocketSupported then Some(Socket(wsUrl + "/undefined", SocketConnecting)) else None)
        && (!reconnects ==> state == old(state) && webSocket == old(webSocket) && sessionId == old(sessionId))
      ensures pending == old(pending) && sent == old(sent) && events == old(events) && submitted == old(submitted)
    {
      timerScheduled := false;
      if webSocket.None? || webSocket.value.readyState != SocketConnecting {
        assert SocketUrl(wsUrl, None) == wsUrl + "/undefined";
        Connect(None);
      }
      timerScheduled := true;
    }

    /** `_reconnect` as evidently intended: the new socket is for the session
        the widget was connected to, so its URL is the one it had before. */
    method ReconnectToSession()
      requires Valid()
      modifies this
      ensures Valid()
      ensures timerScheduled
      ensures var reconnects := old(webSocket).None? || old(webSocket).value.readyState != SocketConnecting;
        && (reconnects ==>
              && state == Connecting && sessionId == old(sessionId)
              && webSocket == if webSocketSupported then Some(Socket(SocketUrl(wsUrl, old(sessionId)), SocketConnecting)) else None)
        && (!reconnects ==> state == old(state) && webSocket == old(webSocket) && sessionId == old(sessionId))
      ensures old(webSocket).Some? && webSocket.Some? ==> webSocket.value.url == old(webSocket).value.url
      ensures pending == old(pending) && sent == old(sent) && events == old(events) && submitted == old(submitted)
    {
      timerScheduled := false;
      if webSocket.None? || webSocket.value.readyState != SocketConnecting {
        Connect(sessionId);
      }
      timerScheduled := true;
    }

    /** The reconnect timer fires: when the socket is CLOSED, reconnect again.
        Without a socket the callback throws reading its ready state and does
        nothing. */
    method OnReconnectTimeout()
      requires Valid()
      requires timerScheduled
      modifies this
      ensures Valid()
      ensures old(webSocket).Some? && old(webSocket).value.readyState == SocketClosed ==>
        timerScheduled && state == Connecting && sessionId == None
      ensures !(old(webSocket).Some? && old(webSocket).value.readyState == SocketClosed) ==>
        !timerScheduled && state == old(state) && webSocket == old(webSocket)
      ensures pending == old(pending) && sent == old(sent) && events == old(events) && submitted == old(submitted)
    {
      timerScheduled := false;
      if webSocket.Some? && webSocket.value.readyState == SocketClosed {
        Reconnect();
      }
    }

    /** `_onWebSocketClose`: the browser closes the socket and the widget reconnects. */
    method OnWebSocketClose()
      requires Valid()
      requires webSocket.Some?
      modifies this
      ensures Valid()
      ensures timerScheduled && state == Connecting && sessionId == None
      ensures webSocketSupported ==> webSocket == Some(Socket(wsUrl + "/undefined", SocketConnecting))
      ensures pending == old(pending) && sent == old(sent) && events == old(events) && submitted == old(submitted)
    {
      webSocket := Some(webSocket.value.(readyState := SocketClosed));
      Reconnect();
    }

    /** `_onWebSocketError`: the widget reconnects as `_reconnect` does; the
        ready state is the browser's and is left as it is. */
    method OnWebSocketError()
      requires Valid()
      modifies this
      ensures Valid()
      ensures timerScheduled
      ensures var reconnects := old(webSocket).None? || old(webSocket).value.readyState != SocketConnecting;
        && (reconnects ==>
              && state == Connecting && sessionId == None
              && webSocket == if webSocketSupported then Some(Socket(wsUrl + "/undefined", SocketConnecting)) else None)
        && (!reconnects ==> state == old(state) && webSocket == old(webSocket) && sessionId == old(sessionId))
      ensures pending == old(pending) && sent == old(sent) && events == old(events) && submitted == old(submitted)
    {
      Reconnect();
    }
  }

  /** A session's socket closes and the widget reconnects to a URL without
      the session id. */
  method ReconnectLosesSession() returns (before: string, after: string)
    ensures before == "ws://localhost:8000/abc"
    ensures after == "ws://localhost:8000/undefined"
  {
    var client := new Client(DefaultWsUrl, DefaultReconnectTimeout, true);
    client.Connect(Some("abc"));
    before := client.webSocket.value.url;
    client.OnWebSocketClose();
    after := client.webSocket.value.url;
  }

  /** With the corrected reconnect the widget returns to its session. */
  method ReconnectKeepsSession() returns (before: string, after: string)
    ensures before == "ws://localhost:8000/abc"
    ensures after == before
  {
    var client := new Client(DefaultWsUrl, DefaultReconnectTimeout, true);
    client.Connect(Some("abc"));
    before := client.webSocket.value.url;
    client.webSocket := Some(client.webSocket.value.(readyState := SocketClosed));
    client.ReconnectToSession();
    after := client.webSocket.value.url;
  }

  /** Messages queued before the socket opens reach it before any message
      sent after it opened. */
  method QueuedBeforeLater(early: string, late: string) returns (written: seq<string>)
    ensures written == [early, late]
  {
    var client := new Client(DefaultWsUrl, DefaultReconnectTimeout, true);
    client.Connect(Some("abc"));
    client.SendMessage(early);
    client.OnWebSocketOpen();
    client.SendMessage(late);
    written := client.sent;
  }
}
