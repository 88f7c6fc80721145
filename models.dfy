/** The wire shapes the event layer reads: the event envelope pushed by the
    server, the chat message nested in its payload, and the login response
    whose token the client keeps. Java references that may be null are
    `Option`s; the JSON codec itself is not modelled (it is a parameter of
    the dispatcher). */
module Models {

  datatype Option<+T> = None | Some(value: T)

  /** A decoded JSON value, as Jackson hands it over in a `Map<String, Object>`
      (numbers are kept as integers; nothing in the event layer reads them). */
  datatype JsonValue =
    | JNull
    | JBool(b: bool)
    | JNumber(n: int)
    | JString(s: string)
    | JArray(items: seq<JsonValue>)
    | JObject(fields: map<string, JsonValue>)

  type JsonObject = map<string, JsonValue>

  /** `WebSocketEvent`: the envelope of every real-time event.
      The Java field `type` is called `eventType` here (`type` is a keyword). */
  datatype WebSocketEvent = WebSocketEvent(
    eventType: Option<string>,
    action: Option<string>,
    clientId: Option<string>,
    message: Option<string>,
    data: Option<JsonObject>)

  /** The two-argument constructor the client uses for the events it makes up
      itself: only `type` and `message` are set, every other field stays null. */
  function SyntheticEvent(eventType: string, message: string): WebSocketEvent {
    WebSocketEvent(Some(eventType), None, None, Some(message), None)
  }

  datatype FileAttachment = FileAttachment(
    filename: Option<string>,
    originalName: Option<string>,
    mimetype: Option<string>,
    size: int,
    downloadUrl: Option<string>)

  datatype VoiceAttachment = VoiceAttachment(
    filename: Option<string>,
    duration: int,
    downloadUrl: Option<string>)

  /** `Message`: a chat message, the payload of a `message`/`new` event. */
  datatype Message = Message(
    id: Option<string>,
    from: Option<string>,
    channel: Option<string>,
    text: Option<string>,
    ts: int,
    replyTo: Option<string>,
    file: Option<FileAttachment>,
    voice: Option<VoiceAttachment>,
    encrypted: bool,
    replyToMessage: Option<Message>)

  /** `AuthResponse` with the fields it inherits from `BaseResponse`. */
  datatype AuthResponse = AuthResponse(
    success: bool,
    error: Option<string>,
    message: Option<string>,
    token: Option<string>,
    requires2FA: bool,
    sessionId: Option<string>,
    twoFactorEnabled: bool)
}
