/** The client object's real-time state (`DClient`) and the socket handler
    it creates (`MessengerWebSocketClient`). The handler's callbacks reach
    the client's listener lists through an explicit reference. The socket
    library itself is reduced to three flags that the simulated callbacks
    and `close()` set. */
module Client {
  import opened Models
  import opened Urls
  import opened Dispatch

  /** `login` keeps the token of a response that succeeded and carries one;
      otherwise (a failed login, a missing token, or no response because the
      request or its decoding threw) the stored token stays as it was. */
  function TokenAfterLogin(current: Option<string>, response: Option<AuthResponse>): (r: Option<string>)
    ensures r == current || (response.Some? && response.value.success && r.Some? && r == response.value.token)
    ensures response.Some? && response.value.success && response.value.token.Some? ==> r == response.value.token
  {
    match response
    case Some(resp) => if resp.success && resp.token.Some? then resp.token else current
    case None => current
  }

  /** A successful login never clears the token: once set, a token stays set
      through any sequence of login responses. */
  lemma {:induction false} TokenStaysSet(current: Option<string>, responses: seq<Option<AuthResponse>>)
    requires current.Some?
    ensures LoginAll(current, responses).Some?
    decreases |responses|
  {
    if responses != [] {
      TokenStaysSet(TokenAfterLogin(current, responses[0]), responses[1..]);
    }
  }

  /** The token after a sequence of `login` calls, first to last: the
      initial one, or the token of one of the successful responses. */
  function LoginAll(current: Option<string>, responses: seq<Option<AuthResponse>>): (r: Option<string>)
    ensures r == current
         || exists i :: 0 <= i < |responses| && responses[i].Some? && responses[i].value.success
                        && r.Some? && r == responses[i].value.token
    decreases |responses|
  {
    if responses == [] then current
    else LoginAll(TokenAfterLogin(current, responses[0]), responses[1..])
  }

  /** `MessengerWebSocketClient`: one socket handle and its four callbacks. */
  class MessengerSocket {
    /** The URL the handle was created with; fixed for its lifetime. */
    const url: string
    /** The client whose listener lists the callbacks read. */
    const client: DClient
    /** `connect()` was called (the handshake runs elsewhere). */
    var started: bool
    /** `close()` was called. */
    var closeRequested: bool
    /** The library's `isOpen()`. */
    var open: bool

    constructor (url: string, client: DClient)
      ensures this.url == url && this.client == client
      ensures !started && !closeRequested && !open
    {
      this.url := url;
      this.client := client;
      started, closeRequested, open := false, false, false;
    }

    /** `connect()`: starts the handshake and returns at once. */
    method Connect()
      modifies this`started
      ensures started
    {
      started := true;
    }

    /** `close()`: after it the handle no longer reports itself open. */
    method Close()
      modifies this`closeRequested, this`open
      ensures closeRequested && !open
    {
      closeRequested, open := true, false;
    }

    /** `onOpen`: the handle is open and every global listener, in order, is
        handed the `connected` event. There is no `try` around the loop, so
        a listener that throws ends it and `escaped` reports the exception
        leaving the callback. */
    method OnOpen(fails: Delivery -> bool) returns (trace: seq<Delivery>, escaped: bool)
      modifies this`open
      ensures open
      ensures Fanout(trace, escaped) == Broadcast(client.eventListeners, OpenEvent(), fails)
    {
      open := true;
      trace, escaped := Deliver(GlobalCalls(client.eventListeners, OpenEvent()), fails);
    }

    /** `onMessage`: decode, hand a new chat message to its channel's
        listeners, then hand the event to the global listeners, all inside
        one `try`; `caught` says that the `catch (Exception e)` ran. */
    method OnMessage(frame: string, decode: string -> Option<WebSocketEvent>,
                     convert: Option<JsonObject> -> Option<Message>, fails: Delivery -> bool)
      returns (trace: seq<Delivery>, caught: bool)
      ensures Fanout(trace, caught)
           == Dispatch.Dispatch(client.messageListeners, client.eventListeners, decode(frame), convert, fails)
    {
      var decoded := decode(frame);
      if decoded.None? {
        return [], true;
      }
      var event := decoded.value;
      var channels := client.messageListeners;
      var globals := client.eventListeners;
      trace := [];
      if IsNewMessage(event) {
        var converted := convert(event.data);
        if converted.None? {
          return [], true;
        }
        var msg := converted.value;
        if msg.channel.None? {
          // ConcurrentHashMap.get(null) throws before any listener runs
          return [], true;
        }
        var channel := msg.channel.value;
        if channel in channels {
          var faulted;
          trace, faulted := Deliver(ChannelCalls(channels[channel], msg), fails);
          if faulted {
            return trace, true;
          }
        }
        assert trace == RunAll(ChannelCalls(Lookup(channels, channel), msg), fails).trace;
      }
      var second;
      second, caught := Deliver(GlobalCalls(globals, event), fails);
      trace := trace + second;
    }

    /** `onClose`: the handle is closed and every global listener, in order,
        is handed the `disconnected` event with the close reason. */
    method OnClose(code: int, reason: Option<string>, remote: bool, fails: Delivery -> bool)
      returns (trace: seq<Delivery>, escaped: bool)
      modifies this`open
      ensures !open
      ensures Fanout(trace, escaped) == Broadcast(client.eventListeners, CloseEvent(reason), fails)
    {
      open := false;
      trace, escaped := Deliver(GlobalCalls(client.eventListeners, CloseEvent(reason)), fails);
    }

    /** `onError`: the handle is no longer open and every global listener,
        in order, is handed the `error` event with the error's message. */
    method OnError(description: Option<string>, fails: Delivery -> bool)
      returns (trace: seq<Delivery>, escaped: bool)
      modifies this`open
      ensures !open
      ensures Fanout(trace, escaped) == Broadcast(client.eventListeners, ErrorEvent(description), fails)
    {
      open := false;
      trace, escaped := Deliver(GlobalCalls(client.eventListeners, ErrorEvent(description)), fails);
    }
  }

  /** `DClient`, restricted to its real-time event layer and its token. */
  class DClient {
    const baseUrl: string
    var authToken: Option<string>
    /** The one current socket handle, if any. */
    var webSocket: MessengerSocket?
    var messageListeners: Channels
    var eventListeners: seq<ListenerId>

    /** `new DClient(baseUrl)`: no token, no socket, no listeners. */
    constructor (url: string)
      ensures baseUrl == NormalizeBaseUrl(url)
      ensures authToken == None && webSocket == null
      ensures messageListeners == map[] && eventListeners == []
    {
      baseUrl := NormalizeBaseUrl(url);
      authToken := None;
      webSocket := null;
      messageListeners := map[];
      eventListeners := [];
    }

    /** `login` once the server's answer is decoded (`None`: the request or
        its decoding threw, and so does `login`). */
    method Login(response: Option<AuthResponse>) returns (r: Option<AuthResponse>)
      modifies this`authToken
      ensures r == response
      ensures authToken == TokenAfterLogin(old(authToken), response)
    {
      if response.Some? && response.value.success && response.value.token.Some? {
        authToken := response.value.token;
      }
      r := response;
    }

    method GetAuthToken() returns (token: Option<string>)
      ensures token == authToken
    {
      token := authToken;
    }

    method SetAuthToken(token: Option<string>)
      modifies this`authToken
      ensures authToken == token
    {
      authToken := token;
    }

    /** `connectWebSocket`: closes the current handle, if any, then builds
        the URL from the base URL and the token as they are now. `validUri`
        says whether `URI.create` accepts that text; when it does not, the
        method throws (`threw`) after the close, and the old handle, closed,
        stays current. Otherwise a new handle for that URL is stored and
        started. Listeners are kept either way. */
    method ConnectWebSocket(validUri: string -> bool) returns (threw: bool)
      modifies this`webSocket, webSocket
      ensures threw <==> !validUri(WsUrl(baseUrl, authToken))
      ensures old(webSocket) != null ==>
                old(webSocket).closeRequested && !old(webSocket).open
                && old(webSocket).started == old(webSocket.started)
      ensures threw ==> webSocket == old(webSocket)
      ensures !threw ==>
                webSocket != null && fresh(webSocket) && webSocket.client == this
                && webSocket.url == WsUrl(baseUrl, authToken)
                && webSocket.started && !webSocket.closeRequested && !webSocket.open
    {
      if webSocket != null {
        webSocket.Close();
      }
      var wsUrl := WsUrl(baseUrl, authToken);
      if !validUri(wsUrl) {
        // URI.create throws IllegalArgumentException
        return true;
      }
      webSocket := new MessengerSocket(wsUrl, this);
      webSocket.Connect();
      threw := false;
    }

    /** `disconnectWebSocket`: closes and forgets the current handle; with no
        handle it does nothing. */
    method DisconnectWebSocket()
      modifies this`webSocket, webSocket
      ensures webSocket == null
      ensures old(webSocket) != null ==> old(webSocket).closeRequested && !old(webSocket).open
      ensures old(webSocket) == null ==> unchanged(this)
    {
      if webSocket != null {
        webSocket.Close();
        webSocket := null;
      }
    }

    /** `isWebSocketConnected`: a handle exists and reports itself open. */
    method IsWebSocketConnected() returns (connected: bool)
      ensures connected <==> webSocket != null && webSocket.open
      ensures webSocket == null ==> !connected
    {
      connected := webSocket != null && webSocket.open;
    }

    /** `addMessageListener`: appends to the channel's list, creating it when
        absent. A null channel makes `computeIfAbsent` throw and nothing is
        registered (`ok` is false). */
    method AddMessageListener(channel: Option<string>, listener: ListenerId) returns (ok: bool)
      modifies this`messageListeners
      ensures ok <==> channel.Some?
      ensures ok ==> messageListeners == Subscribe(old(messageListeners), channel.value, listener)
      ensures !ok ==> messageListeners == old(messageListeners)
    {
      match channel {
        case Some(name) =>
          messageListeners := Subscribe(messageListeners, name, listener);
          ok := true;
        case None =>
          ok := false;
      }
    }

    /** `addEventListener`: appends to the global list. */
    method AddEventListener(listener: ListenerId)
      modifies this`eventListeners
      ensures eventListeners == old(eventListeners) + [listener]
    {
      eventListeners := eventListeners + [listener];
    }
  }

  /** Connecting twice to a URL `URI.create` accepts leaves exactly one
      current handle, the second; the first has been closed. */
  method ConnectTwice(c: DClient, validUri: string -> bool) returns (first: MessengerSocket, second: MessengerSocket)
    requires validUri(WsUrl(c.baseUrl, c.authToken))
    modifies c`webSocket, c.webSocket
    ensures c.webSocket == second && second.client == c && first != second
    ensures first.closeRequested && !first.open
    ensures second.started && !second.closeRequested && second.url == WsUrl(c.baseUrl, c.authToken)
  {
    var _ := c.ConnectWebSocket(validUri);
    first := c.webSocket;
    var _ := c.ConnectWebSocket(validUri);
    second := c.webSocket;
  }

  /** A reconnect to a URL `URI.create` rejects still closes the current
      handle and keeps it: the client then reports itself not connected. */
  method RejectedReconnect(c: DClient, validUri: string -> bool) returns (previous: MessengerSocket?, threw: bool, connected: bool)
    requires !validUri(WsUrl(c.baseUrl, c.authToken))
    modifies c`webSocket, c.webSocket
    ensures threw && c.webSocket == previous && !connected
  {
    previous := c.webSocket;
    threw := c.ConnectWebSocket(validUri);
    connected := c.IsWebSocketConnected();
  }

  /** A client built on `http://example.test/` whose token is set to
      `tok123` connects to `ws://example.test/api/events?token=tok123`; a
      later token change leaves that handle's URL as it was. The two
      literals are bound to parameters by the precondition: the verifier
      then reasons about the concatenation symbolically instead of
      evaluating the rewrite character by character on constants. */
  method ExampleSession(host: string, token: string, validUri: string -> bool) returns (c: DClient, url: string)
    requires host == "example.test/" && token == "tok123"
    requires validUri("ws://" + host + "api/events?token=" + token)
    ensures c.webSocket != null && url == c.webSocket.url
    ensures url == "ws://" + host + "api/events?token=" + token
    ensures c.authToken == Some("other")
  {
    c := new DClient("http://" + host);
    c.SetAuthToken(Some(token));
    WsUrlExample(host, token);
    var _ := c.ConnectWebSocket(validUri);
    url := c.webSocket.url;
    c.SetAuthToken(Some("other"));
  }

  /** `isWebSocketConnected` is false before any connect, false right after
      connecting, true once the handle's `onOpen` has run, and false again
      after its `onClose`; a disconnect with no handle is harmless. */
  method ConnectedLifecycle(url: string, validUri: string -> bool, fails: Delivery -> bool)
    returns (before: bool, connecting: bool, afterOpen: bool, closed: bool)
    requires validUri(WsUrl(NormalizeBaseUrl(url), None))
    ensures !before && !connecting && afterOpen && !closed
  {
    var c := new DClient(url);
    before := c.IsWebSocketConnected();
    c.DisconnectWebSocket();
    var _ := c.ConnectWebSocket(validUri);
    connecting := c.IsWebSocketConnected();
    var socket := c.webSocket;
    var _, _ := socket.OnOpen(fails);
    afterOpen := c.IsWebSocketConnected();
    var _, _ := socket.OnClose(1000, Some("bye"), true, fails);
    closed := c.IsWebSocketConnected();
  }
}
