/** Model of public/index.js, the older client widget. It keeps the same
    pending-message queue as the current widget, but builds its socket URL
    from the page's host and port, triggers no "connect" event on open and
    passes every incoming message on as one generic "message" event. */
module LegacyClient {
  import opened Base
  import opened LiveDelphiClient

  /** `'ws://' + host + ':' + port + '/' + sessionId`. */
  function LegacySocketUrl(host: string, port: string, sessionId: Option<string>): (url: string)
    ensures |url| == 7 + |host| + |port| + |StrOrUndefined(sessionId)|
    ensures url[..5] == "ws://"
    ensures url[5..5 + |host|] == host && url[5 + |host|] == ':'
    ensures url[6 + |host|..6 + |host| + |port|] == port && url[6 + |host| + |port|] == '/'
    ensures url[7 + |host| + |port|..] == StrOrUndefined(sessionId)
  {
    "ws://" + host + ":" + port + "/" + StrOrUndefined(sessionId)
  }

  /** The legacy URL is the current widget's URL for the base
      `'ws://' + host + ':' + port`. */
  lemma LegacyUrlIsSocketUrl(host: string, port: string, sessionId: Option<string>)
    ensures LegacySocketUrl(host, port, sessionId) == SocketUrl("ws://" + host + ":" + port, sessionId)
  {
  }

  class Client {
    const host: string
    const port: string
    const reconnectTimeout: nat
    const webSocketSupported: bool

    var state: State
    var pending: seq<string>
    var webSocket: Option<Socket>
    var timerScheduled: bool
    var sessionId: Option<string>
    var sent: seq<string>
    /** The parsed messages passed on in "message" events, in order. */
    var messages: seq<Frame>
    ghost var submitted: seq<string>

    ghost predicate Valid()
      reads this
    {
      && sent + pending == submitted
      && (state == Connected ==> pending == [] && webSocket.Some?)
      && (webSocket.Some? ==> webSocket.value.url == LegacySocketUrl(host, port, sessionId))
    }

    /** `_create`, with the page location's host and port. */
    constructor (host: string, port: string, reconnectTimeout: nat, webSocketSupported: bool)
      ensures Valid()
      ensures this.host == host && this.port == port && this.reconnectTimeout == reconnectTimeout
      ensures this.webSocketSupported == webSocketSupported
      ensures state == Unset && pending == [] && webSocket == None && !timerScheduled
      ensures sent == [] && messages == [] && submitted == []
    {
      this.host := host;
      this.port := port;
      this.reconnectTimeout := reconnectTimeout;
      this.webSocketSupported := webSocketSupported;
      state := Unset;
      pending := [];
      webSocket := None;
      timerScheduled := false;
      sessionId := None;
      sent := [];
      messages := [];
      submitted := [];
    }

    /** `connect`: CONNECTING first, then a new socket if the browser has one. */
    method Connect(sessionId: Option<string>)
      requires Valid()
      modifies this
      ensures Valid()
      ensures state == Connecting && this.sessionId == sessionId
      ensures webSocket == if webSocketSupported then Some(Socket(LegacySocketUrl(host, port, sessionId), SocketConnecting)) else None
      ensures pending == old(pending) && sent == old(sent) && messages == old(messages) && submitted == old(submitted)
      ensures timerScheduled == old(timerScheduled)
    {
      state := Connecting;
      this.sessionId := sessionId;
      if !webSocketSupported {
        webSocket := None;
        return;
      }
      webSocket := Some(Socket(LegacySocketUrl(host, port, sessionId), SocketConnecting));
    }

    /** `_sendMessage`: straight to the socket when CONNECTED, else queued. */
    method SendMessage(message: string)
      requires Valid()
      modifies this
      ensures Valid()
      ensures submitted == old(submitted) + [message]
      ensures old(state) == Connected ==> sent == old(sent) + [message] && pending == old(pending)
      ensures old(state) != Connected ==> pending == old(pending) + [message] && sent == old(sent)
      ensures state == old(state) && webSocket == old(webSocket) && messages == old(messages)
      ensures timerScheduled == old(timerScheduled) && sessionId == old(sessionId)
    {
      submitted := submitted + [message];
      if state == Connected {
        sent := sent + [message];
      } else {
        pending := pending + [message];
      }
    }

    /** `_onWebSocketOpen`: the queue is written out oldest first, then the
        widget is CONNECTED; no event is triggered. */
    method OnWebSocketOpen()
      requires Valid()
      requires webSocket.Some? && webSocket.value.readyState == SocketConnecting
      modifies this
      ensures Valid()
      ensures sent == old(sent) + old(pending) && pending == []
      ensures state == Connected
      ensures webSocket == Some(old(webSocket).value.(readyState := SocketOpen))
      ensures messages == old(messages)
      ensures submitted == old(submitted) && timerScheduled == old(timerScheduled) && sessionId == old(sessionId)
    {
      webSocket := Some(webSocket.value.(readyState := SocketOpen));
      while |pending| > 0
        invariant sent + pending == old(sent) + old(pending)
        invariant submitted == old(submitted) && sessionId == old(sessionId) && messages == old(messages)
        invariant webSocket == Some(old(webSocket).value.(readyState := SocketOpen))
        invariant state == old(state) && timerScheduled == old(timerScheduled)
        decreases |pending|
      {
        sent := sent + [pending[0]];
        pending := pending[1..];
      }
      state := Connected;
    }

    /** `_onWebSocketMessage`: one "message" event carrying the whole parsed message. */
    method OnWebSocketMessage(frame: Frame)
      requires Valid()
      modifies this
      ensures Valid()
      ensures messages == old(messages) + [frame]
      ensures state == old(state) && pending == old(pending) && sent == old(sent) && webSocket == old(webSocket)
      ensures submitted == old(submitted) && timerScheduled == old(timerScheduled) && sessionId == old(sessionId)
    {
      messages := messages + [frame];
    }

    /** `_reconnect`: clear the timer, call `connect()` without a session id
        unless the socket is CONNECTING, schedule a new timer. */
    method Reconnect()
      requires Valid()
      modifies this
      ensures Valid()
      ensures timerScheduled
      ensures var reconnects := old(webSocket).None? || old(webSocket).value.readyState != SocketConnecting;
        && (reconnects ==>
              && state == Connecting && sessionId == None
              && webSocket == if webSocketSupported then Some(Socket(LegacySocketUrl(host, port, None), SocketConnecting)) else None)
        && (!reconnects ==> state == old(state) && webSocket == old(webSocket) && sessionId == old(sessionId))
      ensures pending == old(pending) && sent == old(sent) && messages == old(messages) && submitted == old(submitted)
    {
      timerScheduled := false;
      if webSocket.None? || webSocket.value.readyState != SocketConnecting {
        Connect(None);
      }
      timerScheduled := true;
    }

    /** The reconnect timer fires and reconnects when the socket is CLOSED. */
    method OnReconnectTimeout()
      requires Valid()
      requires timerScheduled
      modifies this
      ensures Valid()
      ensures old(webSocket).Some? && old(webSocket).value.readyState == SocketClosed ==>
        timerScheduled && state == Connecting && sessionId == None
      ensures !(old(webSocket).Some? && old(webSocket).value.readyState == SocketClosed) ==>
        !timerScheduled && state == old(state) && webSocket == old(webSocket)
      ensures pending == old(pending) && sent == old(sent) && messages == old(messages) && submitted == old(submitted)
    {
      timerScheduled := false;
      if webSocket.Some? && webSocket.value.readyState == SocketClosed {
        Reconnect();
      }
    }

    /** `_onWebSocketClose`: the socket is closed and the widget reconnects. */
    method OnWebSocketClose()
      requires Valid()
      requires webSocket.Some?
      modifies this
      ensures Valid()
      ensures timerScheduled && state == Connecting && sessionId == None
      ensures webSocketSupported ==> webSocket == Some(Socket(LegacySocketUrl(host, port, None), SocketConnecting))
      ensures pending == old(pending) && sent == old(sent) && messages == old(messages) && submitted == old(submitted)
    {
      webSocket := Some(webSocket.value.(readyState := SocketClosed));
      Reconnect();
    }

    /** `_onWebSocketError`: the widget reconnects as `_reconnect` does. */
    method OnWebSocketError()
      requires Valid()
      modifies this
      ensures Valid()
      ensures timerScheduled
      ensures var reconnects := old(webSocket).None? || old(webSocket).value.readyState != SocketConnecting;
        && (reconnects ==>
              && state == Connecting && sessionId == None
              && webSocket == if webSocketSupported then Some(Socket(LegacySocketUrl(host, port, None), SocketConnecting)) else None)
        && (!reconnects ==> state == old(state) && webSocket == old(webSocket) && sessionId == old(sessionId))
      ensures pending == old(pending) && sent == old(sent) && messages == old(messages) && submitted == old(submitted)
    {
      Reconnect();
    }
  }
}
