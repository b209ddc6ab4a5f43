/** The relay function behind the HTTP gateway: it routes a request by path and method to one
    of three chat-provider operations (create or resume a connection, send a message, end the
    connection) and answers 200 with a cross-origin header, or 400 for anything else, including
    every error thrown on the way. The provider's SDK is a record of functions that may throw. */
module Relay {
  import opened JsValues

  const ConnectPath := "/connectChat"
  const SendPath := "/connectChat/send"
  const CorsHeaders: map<string, string> := map["Access-Control-Allow-Origin" := "*"]
  /** The two connection kinds requested for every participant connection. */
  const ConnectionTypes := ["WEBSOCKET", "CONNECTION_CREDENTIALS"]
  const PlainText := "text/plain"
  const Disconnected := "disconnected"
  const MessageSent := "message sent"

  /** What `JSON.parse(event.body)` gives the handler: an object whose string fields it reads,
      or something it cannot read a field of (a syntax error, or `null`), which throws. */
  datatype Body = Fields(fields: map<string, string>) | Unreadable

  /** `body.name`: the field, or undefined. */
  function Field(fields: map<string, string>, name: string): Option<string> {
    if name in fields then Some(fields[name]) else None
  }

  datatype HttpEvent = HttpEvent(path: string, httpMethod: string, body: Body)

  /** A provider call either resolves with a value or rejects with an error's detail. */
  datatype SdkOutcome<+T> = Done(value: T) | Threw(detail: string)

  /** `startChatContact`'s parameters that vary per call; the contact flow and instance come
      from the environment. */
  datatype ContactParams = ContactParams(displayName: Option<string>)
  datatype ConnectionParams = ConnectionParams(participantToken: string, connectionTypes: seq<string>)
  datatype ParticipantConnection = ParticipantConnection(websocketUrl: string, connectionExpiry: string, connectionToken: string)
  datatype MessageParams = MessageParams(contentType: string, content: Option<string>, connectionToken: Option<string>)

  /** The provider's SDK calls: start a chat contact (answering its participant token), create
      a participant connection, disconnect a participant, send a message. */
  datatype Provider = Provider(
    startChatContact: ContactParams -> SdkOutcome<string>,
    createParticipantConnection: ConnectionParams -> SdkOutcome<ParticipantConnection>,
    disconnectParticipant: Option<string> -> SdkOutcome<()>,
    sendMessage: MessageParams -> SdkOutcome<()>)

  /** The record `connect` returns, with exactly these four fields. */
  datatype ConnectResult = ConnectResult(participantToken: string, expiration: string, connectionToken: string, url: string)

  /** Everything the handler's `try` can catch. */
  datatype Failure =
    | ProviderError(detail: string)
    | MalformedBody
    | MethodNotSupported(httpMethod: string, path: string)
    | PathNotSupported(path: string)

  datatype Outcome<+T> = Ok(value: T) | Err(failure: Failure)

  /** `connect(displayName, token)`: a supplied participant token is used as it is; otherwise a
      chat contact is started for the display name to get one. Either way a participant
      connection is then created for that token, and its URL, expiry and connection token are
      returned beside the participant token. */
  function Connect(p: Provider, displayName: Option<string>, token: Option<string>): (r: Outcome<ConnectResult>)
    ensures Truthy(token) ==>
      (r.Ok? <==> p.createParticipantConnection(ConnectionParams(token.value, ConnectionTypes)).Done?)
    ensures Truthy(token) && r.Ok? ==> r.value.participantToken == token.value
    ensures !Truthy(token) && r.Ok? ==>
      p.startChatContact(ContactParams(displayName)) == Done(r.value.participantToken)
    ensures !Truthy(token) && p.startChatContact(ContactParams(displayName)).Threw? ==>
      r == Err(ProviderError(p.startChatContact(ContactParams(displayName)).detail))
    ensures !Truthy(token) && p.startChatContact(ContactParams(displayName)).Done? ==>
      (r.Ok? <==> p.createParticipantConnection(
         ConnectionParams(p.startChatContact(ContactParams(displayName)).value, ConnectionTypes)).Done?)
    ensures r.Ok? ==>
      p.createParticipantConnection(ConnectionParams(r.value.participantToken, ConnectionTypes))
      == Done(ParticipantConnection(r.value.url, r.value.expiration, r.value.connectionToken))
    ensures forall pt: string ::
      ChosenToken(p, displayName, token) == Done(pt)
      && p.createParticipantConnection(ConnectionParams(pt, ConnectionTypes)).Threw? ==>
      r == Err(ProviderError(p.createParticipantConnection(ConnectionParams(pt, ConnectionTypes)).detail))
    ensures r.Err? ==> r.failure.ProviderError?
  {
    match ChosenToken(p, displayName, token)
    case Threw(detail) => Err(ProviderError(detail))
    case Done(pt) =>
      match p.createParticipantConnection(ConnectionParams(pt, ConnectionTypes))
      case Threw(detail) => Err(ProviderError(detail))
      case Done(c) => Ok(ConnectResult(pt, c.connectionExpiry, c.connectionToken, c.websocketUrl))
  }

  /** The participant token `connect` goes on with: the supplied one, or the one a new chat
      contact answers. */
  function ChosenToken(p: Provider, displayName: Option<string>, token: Option<string>): SdkOutcome<string> {
    if Truthy(token) then Done(token.value) else p.startChatContact(ContactParams(displayName))
  }

  /** With a participant token supplied, `connect` does not depend on contact creation at all:
      swapping in any other `startChatContact` gives the same outcome. */
  lemma ConnectWithTokenCreatesNoContact(
    p: Provider, other: ContactParams -> SdkOutcome<string>, displayName: Option<string>, token: Option<string>)
    requires Truthy(token)
    ensures Connect(p.(startChatContact := other), displayName, token) == Connect(p, displayName, token)
  {
  }

  /** `disconnect(token)`: ends the participant's connection and answers "disconnected". */
  function Disconnect(p: Provider, token: Option<string>): (r: Outcome<string>)
    ensures r.Ok? <==> p.disconnectParticipant(token).Done?
    ensures r.Ok? ==> r.value == Disconnected
    ensures r.Err? ==> r == Err(ProviderError(p.disconnectParticipant(token).detail))
  {
    match p.disconnectParticipant(token)
    case Threw(detail) => Err(ProviderError(detail))
    case Done(_) => Ok(Disconnected)
  }

  /** `send(connectionToken, content)`: posts the content as plain text and answers "message sent". */
  function Send(p: Provider, connectionToken: Option<string>, content: Option<string>): (r: Outcome<string>)
    ensures r.Ok? <==> p.sendMessage(MessageParams(PlainText, content, connectionToken)).Done?
    ensures r.Ok? ==> r.value == MessageSent
    ensures r.Err? ==> r == Err(ProviderError(p.sendMessage(MessageParams(PlainText, content, connectionToken)).detail))
  {
    match p.sendMessage(MessageParams(PlainText, content, connectionToken))
    case Threw(detail) => Err(ProviderError(detail))
    case Done(_) => Ok(MessageSent)
  }

  /** The three operations the relay offers. */
  datatype Operation = CreateOrResume | EndSession | PostMessage

  /** The routing table: one operation per path and method. */
  datatype Route = Route(path: string, httpMethod: string, op: Operation)

  const Routes := [
    Route(ConnectPath, "POST", CreateOrResume),
    Route(ConnectPath, "DELETE", EndSession),
    Route(SendPath, "POST", PostMessage)]

  /** The operation a table assigns to a path and method, if any. */
  function Lookup(routes: seq<Route>, path: string, httpMethod: string): (r: Option<Operation>)
    ensures r.Some? ==> Route(path, httpMethod, r.value) in routes
    ensures r.None? ==> forall i :: 0 <= i < |routes| ==> routes[i].path != path || routes[i].httpMethod != httpMethod
  {
    if routes == [] then None
    else if routes[0].path == path && routes[0].httpMethod == httpMethod then Some(routes[0].op)
    else Lookup(routes[1..], path, httpMethod)
  }

  /** No path and method has two entries in the table, so no request can reach two operations:
      the cases of the handler's `switch` cannot overlap, and `Lookup`'s first match is its only
      match. */
  lemma RoutesAreDistinct()
    ensures forall i, j :: 0 <= i < j < |Routes| ==>
      Routes[i].path != Routes[j].path || Routes[i].httpMethod != Routes[j].httpMethod
  {
  }

  /** The response body: `JSON.stringify` of what the operation returned, or of the caught error. */
  datatype Payload = ConnectionJson(result: ConnectResult) | TextJson(text: string) | ErrorJson(failure: Failure)

  /** A response without headers has an empty header map. */
  datatype Response = Response(statusCode: int, headers: map<string, string>, body: Payload)

  /** Parse the body, read the operation's fields from it and run the operation. */
  function Perform(p: Provider, op: Operation, body: Body): (r: Outcome<Payload>)
    ensures body.Unreadable? ==> r == Err(MalformedBody)
    ensures body.Fields? && op == CreateOrResume ==>
      match Connect(p, Field(body.fields, "DisplayName"), Field(body.fields, "ParticipantToken"))
      case Ok(c) => r == Ok(ConnectionJson(c))
      case Err(f) => r == Err(f)
    ensures body.Fields? && op == EndSession ==>
      (r.Ok? <==> p.disconnectParticipant(Field(body.fields, "ConnectionToken")).Done?)
      && (r.Err? ==> r == Err(ProviderError(p.disconnectParticipant(Field(body.fields, "ConnectionToken")).detail)))
    ensures body.Fields? && op == PostMessage ==>
      (r.Ok? <==> p.sendMessage(MessageParams(PlainText, Field(body.fields, "Content"), Field(body.fields, "ConnectionToken"))).Done?)
      && (r.Err? ==> r == Err(ProviderError(
            p.sendMessage(MessageParams(PlainText, Field(body.fields, "Content"), Field(body.fields, "ConnectionToken"))).detail)))
    ensures r.Ok? && op == EndSession ==> r.value == TextJson(Disconnected)
    ensures r.Ok? && op == PostMessage ==> r.value == TextJson(MessageSent)
    ensures r.Err? ==> r.failure == MalformedBody || r.failure.ProviderError?
  {
    match body
    case Unreadable => Err(MalformedBody)
    case Fields(fields) =>
      match op
      case CreateOrResume =>
        (match Connect(p, Field(fields, "DisplayName"), Field(fields, "ParticipantToken"))
         case Ok(c) => Ok(ConnectionJson(c))
         case Err(f) => Err(f))
      case EndSession =>
        (match Disconnect(p, Field(fields, "ConnectionToken"))
         case Ok(s) => Ok(TextJson(s))
         case Err(f) => Err(f))
      case PostMessage =>
        (match Send(p, Field(fields, "ConnectionToken"), Field(fields, "Content"))
         case Ok(s) => Ok(TextJson(s))
         case Err(f) => Err(f))
  }

  /** The `return` of a case, or the `catch`: 200 with the cross-origin header, or 400 with the
      error and no headers. */
  function Respond(o: Outcome<Payload>): (r: Response)
    ensures o.Ok? ==> r.statusCode == 200 && r.headers == CorsHeaders && r.body == o.value
    ensures o.Err? ==> r.statusCode == 400 && r.headers == map[] && r.body == ErrorJson(o.failure)
  {
    match o
    case Ok(v) => Response(200, CorsHeaders, v)
    case Err(f) => Response(400, map[], ErrorJson(f))
  }

  /** `exports.handler`: every request gets a response. It is the table's operation, answered
      200 with the cross-origin header when it succeeds; every other request, and every failure
      of parsing or of the provider, is answered 400 without it. */
  function Handle(p: Provider, e: HttpEvent): (r: Response)
    ensures r.statusCode == 200 || r.statusCode == 400
    ensures r.statusCode == 200 ==> r.headers == CorsHeaders
    ensures r.statusCode == 400 ==> r.headers == map[] && r.body.ErrorJson?
    ensures Lookup(Routes, e.path, e.httpMethod).Some? ==>
      r == Respond(Perform(p, Lookup(Routes, e.path, e.httpMethod).value, e.body))
    ensures Lookup(Routes, e.path, e.httpMethod).None? ==>
      r.statusCode == 400
      && r.body.failure == (if e.path == ConnectPath || e.path == SendPath
                            then MethodNotSupported(e.httpMethod, e.path)
                            else PathNotSupported(e.path))
  {
    if e.path == ConnectPath then
      if e.httpMethod == "POST" then Respond(Perform(p, CreateOrResume, e.body))
      else if e.httpMethod == "DELETE" then
        assert Routes[1] == Route(e.path, e.httpMethod, EndSession);
        Respond(Perform(p, EndSession, e.body))
      else Respond(Err(MethodNotSupported(e.httpMethod, e.path)))
    else if e.path == SendPath then
      if e.httpMethod == "POST" then
        assert Routes[2] == Route(e.path, e.httpMethod, PostMessage);
        Respond(Perform(p, PostMessage, e.body))
      else Respond(Err(MethodNotSupported(e.httpMethod, e.path)))
    else Respond(Err(PathNotSupported(e.path)))
  }

  /** A reconnect that carries the participant token gets that same token back and never
      starts a new chat contact, whatever contact creation would have done. */
  lemma ResumeKeepsParticipant(p: Provider, displayName: string, token: string, other: ContactParams -> SdkOutcome<string>)
    requires token != ""
    ensures var e := HttpEvent(ConnectPath, "POST",
        Fields(map["DisplayName" := displayName, "ParticipantToken" := token]));
      var r := Handle(p, e);
      r == Handle(p.(startChatContact := other), e)
      && (r.statusCode == 200 ==> r.body.ConnectionJson? && r.body.result.participantToken == token)
  {
  }
}
