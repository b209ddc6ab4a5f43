/** The browser chat client's session as values: the six fields a `Chat` keeps, the page it
    drives (chat log, send button, which panel is shown, the phrase box) and the effects it has
    on the outside world (alerts, requests to the relay, timers, sockets). Each operation of the
    client is a function from the state before to the state after; the class in module
    ChatClient is proved to follow these functions. */
module ChatSession {
  import opened JsValues

  /** Topic and content type of the frames the client reads. */
  const ChatTopic := "aws/chat"
  const JsonContentType := "application/json"
  /** The role of the visitor's own messages, which come back over the socket. */
  const CustomerRole := "CUSTOMER"
  /** An event whose content type contains this word ends the conversation. */
  const EndedMarker := "ended"
  /** How long before the connection expires the refresh is scheduled. */
  const RefreshMarginMs := 5000
  const NameRequired := "Please enter a first and last name"

  /** The chat socket, known by the endpoint it was opened to. */
  datatype Socket = Socket(url: string)

  /** The six fields of a `Chat`. `refreshTimer` holds the delay the refresh was scheduled with. */
  datatype Session = Session(
    displayName: Option<string>,
    participantToken: Option<string>,
    refreshTimer: Option<int>,
    connectionToken: Option<string>,
    chatSocket: Option<Socket>,
    connected: bool)

  /** The three requests the client sends to the relay. */
  datatype Request =
    | PostConnect(displayName: Option<string>, participantToken: Option<string>)
    | PostSend(content: string, connectionToken: Option<string>)
    | DeleteConnection(endedToken: string)

  /** What the client does to the world outside its own fields and the page. */
  datatype Effect =
    | Alert(message: string)
    | Fetch(request: Request)
    | SetTimeout(delay: int)
    | ClearTimeout(delay: int)
    | OpenSocket(url: string)
    | CloseSocket(socket: Socket)

  /** The page: the chat log (append-only except when leaving), whether the send button is
      enabled, whether the chat panel (rather than the start form) is shown, the phrase box,
      and every effect issued so far. */
  datatype Page = Page(log: seq<string>, sendEnabled: bool, chatShown: bool, phrase: string, effects: seq<Effect>)

  datatype State = State(session: Session, page: Page)

  /** The relay's answer to a POST of the connect request; a network failure, a non-ok status or
      an error thrown before any field is stored is `ConnectFailed`. An ok reply is taken to carry
      a URL the socket accepts. `expiration` is in milliseconds. */
  datatype ConnectReply =
    | ConnectOk(participantToken: string, expiration: int, connectionToken: string, url: string)
    | ConnectFailed

  /** The relay's answer to a POST of a message. */
  datatype SendReply = SendOk | SendFailed

  /** An inbound socket frame, already parsed: the envelope's topic and content type, and the
      content's `Type` with the fields the client reads. `OtherContent` stands for any `Type`
      other than "MESSAGE" and "EVENT"; its `contentKind` is never one of those two. */
  datatype Content =
    | Message(participantRole: string, displayName: string, content: string)
    | Event(contentType: string)
    | OtherContent(contentKind: string)

  datatype Frame = Frame(topic: string, contentType: string, content: Content)

  /** The session of a new or reset `Chat`: every field null, not connected. */
  function Cleared(): Session {
    Session(None, None, None, None, None, false)
  }

  /** One line of the chat log: the sender label, a space, the text. */
  function DisplayLine(fromUser: string, text: string): string {
    fromUser + " " + text
  }

  const ConnectingLine := DisplayLine("System:", "Connecting...")

  function Emit(st: State, more: seq<Effect>): State {
    st.(page := st.page.(effects := st.page.effects + more))
  }

  function AppendLine(st: State, line: string): State {
    st.(page := st.page.(log := st.page.log + [line]))
  }

  /** The delay of the refresh timer: the distance between now and the expiry, less the margin. */
  function RefreshDelay(now: int, expiration: int): (d: int)
    ensures now <= expiration ==> now + d == expiration - RefreshMarginMs
    ensures expiration < now ==> d == (now - expiration) - RefreshMarginMs
    ensures d >= -RefreshMarginMs
  {
    (if now <= expiration then expiration - now else now - expiration) - RefreshMarginMs
  }

  /** `_connect`: post the display name and participant token; on success store the new
      participant and connection tokens, schedule the refresh and subscribe to the socket; on
      failure only the request has happened. Nothing is written to the log either way. */
  function Connect(st: State, reply: ConnectReply, now: int): (r: State)
    ensures r.page.log == st.page.log && r.page.sendEnabled == st.page.sendEnabled
    ensures r.page.chatShown == st.page.chatShown && r.page.phrase == st.page.phrase
    ensures |r.page.effects| > |st.page.effects|
    ensures r.page.effects[..|st.page.effects| + 1]
      == st.page.effects + [Fetch(PostConnect(st.session.displayName, st.session.participantToken))]
    ensures r.session.displayName == st.session.displayName && r.session.connected == st.session.connected
    ensures reply.ConnectFailed? ==> r.session == st.session
    ensures reply.ConnectFailed? ==>
      r.page.effects == st.page.effects + [Fetch(PostConnect(st.session.displayName, st.session.participantToken))]
    ensures reply.ConnectOk? ==>
      r.page.effects == st.page.effects
        + [Fetch(PostConnect(st.session.displayName, st.session.participantToken)),
           SetTimeout(RefreshDelay(now, reply.expiration)), OpenSocket(reply.url)]
    ensures reply.ConnectOk? ==>
      r.session.participantToken == Some(reply.participantToken)
      && r.session.connectionToken == Some(reply.connectionToken)
      && r.session.chatSocket == Some(Socket(reply.url))
      && r.session.refreshTimer == Some(RefreshDelay(now, reply.expiration))
  {
    var asked := Emit(st, [Fetch(PostConnect(st.session.displayName, st.session.participantToken))]);
    match reply
    case ConnectFailed => asked
    case ConnectOk(pt, expiration, ct, url) =>
      var delay := RefreshDelay(now, expiration);
      var stored := asked.(session := asked.session.(
        participantToken := Some(pt), refreshTimer := Some(delay), connectionToken := Some(ct),
        chatSocket := Some(Socket(url))));
      Emit(stored, [SetTimeout(delay), OpenSocket(url)])
  }

  /** `start(firstName, lastName)`: an empty name alerts and changes nothing else; otherwise the
      display name becomes "first last", the client connects, and "System: Connecting..." is
      logged whatever the connect's outcome. */
  function Start(st: State, firstName: string, lastName: string, reply: ConnectReply, now: int): (r: State)
    ensures firstName == "" || lastName == "" ==>
      r == Emit(st, [Alert(NameRequired)])
    ensures firstName != "" && lastName != "" ==>
      r.session.displayName == Some(firstName + " " + lastName)
      && r.page.log == st.page.log + [ConnectingLine]
      && |r.page.effects| > |st.page.effects|
      && r.page.effects[|st.page.effects|]
         == Fetch(PostConnect(Some(firstName + " " + lastName), st.session.participantToken))
    ensures firstName != "" && lastName != "" ==>
      r.page.effects == st.page.effects
        + [Fetch(PostConnect(Some(firstName + " " + lastName), st.session.participantToken))]
        + (if reply.ConnectOk? then [SetTimeout(RefreshDelay(now, reply.expiration)), OpenSocket(reply.url)] else [])
    ensures reply.ConnectFailed? ==>
      r.session.participantToken == st.session.participantToken
      && r.session.connectionToken == st.session.connectionToken
      && r.session.refreshTimer == st.session.refreshTimer
      && r.session.chatSocket == st.session.chatSocket
    ensures firstName != "" && lastName != "" && reply.ConnectOk? ==>
      r.session.participantToken == Some(reply.participantToken)
      && r.session.connectionToken == Some(reply.connectionToken)
      && r.session.refreshTimer == Some(RefreshDelay(now, reply.expiration))
      && r.session.chatSocket == Some(Socket(reply.url))
    ensures r.session.connected == st.session.connected
      && r.page.sendEnabled == st.page.sendEnabled
      && r.page.chatShown == st.page.chatShown
      && r.page.phrase == st.page.phrase
  {
    if firstName == "" || lastName == "" then
      Emit(st, [Alert(NameRequired)])
    else
      var named := st.(session := st.session.(displayName := Some(firstName + " " + lastName)));
      var connected := Connect(named, reply, now);
      assert connected.page.effects[|st.page.effects|]
        == (connected.page.effects[..|st.page.effects| + 1])[|st.page.effects|];
      AppendLine(connected, ConnectingLine)
  }

  /** `send()`: the phrase box is always cleared; a whitespace-only phrase sends nothing; any
      other phrase is posted trimmed with the current connection token, and logged under the
      display name only when the relay answers ok. The session itself never changes. */
  function Send(st: State, reply: SendReply): (r: State)
    ensures r.session == st.session && r.page.phrase == ""
    ensures r.page.sendEnabled == st.page.sendEnabled && r.page.chatShown == st.page.chatShown
    ensures AllWhitespace(st.page.phrase) ==>
      r.page.log == st.page.log && r.page.effects == st.page.effects
    ensures !AllWhitespace(st.page.phrase) ==>
      r.page.effects == st.page.effects + [Fetch(PostSend(Trim(st.page.phrase), st.session.connectionToken))]
    ensures !AllWhitespace(st.page.phrase) && reply.SendOk? ==>
      r.page.log == st.page.log + [DisplayLine(ToJsString(st.session.displayName) + ":", Trim(st.page.phrase))]
    ensures reply.SendFailed? ==> r.page.log == st.page.log
  {
    var content := Trim(st.page.phrase);
    var cleared := st.(page := st.page.(phrase := ""));
    if content == [] then cleared
    else
      var asked := Emit(cleared, [Fetch(PostSend(content, st.session.connectionToken))]);
      match reply
      case SendOk => AppendLine(asked, DisplayLine(ToJsString(st.session.displayName) + ":", content))
      case SendFailed => asked
  }

  /** The effects of tearing the session down: cancel the refresh, close the socket, and ask the
      relay to end the connection if a connection token is still known. */
  function TeardownEffects(s: Session): seq<Effect> {
    (if s.refreshTimer.Some? then [ClearTimeout(s.refreshTimer.value)] else [])
    + (if s.chatSocket.Some? then [CloseSocket(s.chatSocket.value)] else [])
    + (if Truthy(s.connectionToken) then [Fetch(DeleteConnection(s.connectionToken.value))] else [])
  }

  /** `disconnect()`: always ends in the cleared session, whatever the DELETE's outcome; the
      DELETE is issued exactly when a connection token is known; the page is untouched. */
  function Disconnect(st: State): (r: State)
    ensures r.session == Cleared()
    ensures r.page == st.page.(effects := r.page.effects)
    ensures r.page.effects == st.page.effects + TeardownEffects(st.session)
    ensures st.session.refreshTimer.Some? ==> ClearTimeout(st.session.refreshTimer.value) in r.page.effects[|st.page.effects|..]
    ensures st.session.chatSocket.Some? ==> CloseSocket(st.session.chatSocket.value) in r.page.effects[|st.page.effects|..]
    ensures Truthy(st.session.connectionToken) ==>
      Fetch(DeleteConnection(st.session.connectionToken.value)) in r.page.effects[|st.page.effects|..]
    ensures !Truthy(st.session.connectionToken) ==>
      forall e :: e in r.page.effects[|st.page.effects|..] ==> !e.Fetch?
  {
    var torn := Emit(st, TeardownEffects(st.session));
    assert torn.page.effects[|st.page.effects|..] == TeardownEffects(st.session);
    torn.(session := Cleared())
  }

  /** `leave()`: empty the chat log, show the start form again, then disconnect. */
  function Leave(st: State): (r: State)
    ensures r.session == Cleared() && r.page.log == [] && !r.page.chatShown
    ensures r.page.sendEnabled == st.page.sendEnabled && r.page.phrase == st.page.phrase
    ensures r.page.effects == st.page.effects + TeardownEffects(st.session)
  {
    Disconnect(st.(page := st.page.(log := [], chatShown := false)))
  }

  /** Frames the client looks into at all. */
  predicate Accepted(f: Frame) {
    f.topic == ChatTopic && f.contentType == JsonContentType
  }

  /** A chat message from anyone but the visitor. */
  predicate FromAgent(f: Frame) {
    Accepted(f) && f.content.Message? && f.content.participantRole != CustomerRole
  }

  predicate EndsChat(f: Frame) {
    Accepted(f) && f.content.Event? && Includes(f.content.contentType, EndedMarker)
  }

  /** The socket's `onmessage`: frames on other topics or content types, the visitor's own
      messages and other content kinds change nothing; the first agent message activates the
      session (connected, send enabled, chat panel shown) and every agent message is logged;
      an "ended" event disables sending and forgets the connection token. */
  function OnMessage(st: State, f: Frame): (r: State)
    ensures !FromAgent(f) && !EndsChat(f) ==> r == st
    ensures r.session.connected == (st.session.connected || FromAgent(f))
    ensures r.page.effects == st.page.effects && r.page.phrase == st.page.phrase
    ensures r.session.displayName == st.session.displayName
      && r.session.participantToken == st.session.participantToken
      && r.session.refreshTimer == st.session.refreshTimer
      && r.session.chatSocket == st.session.chatSocket
    ensures FromAgent(f) ==>
      r.session.connectionToken == st.session.connectionToken
      && r.page.log == st.page.log + [DisplayLine(f.content.displayName + ":", f.content.content)]
    ensures FromAgent(f) && !st.session.connected ==> r.page.sendEnabled && r.page.chatShown
    ensures FromAgent(f) && st.session.connected ==>
      r.page.sendEnabled == st.page.sendEnabled && r.page.chatShown == st.page.chatShown
    ensures EndsChat(f) ==>
      r.session == st.session.(connectionToken := None)
      && !r.page.sendEnabled && r.page.log == st.page.log && r.page.chatShown == st.page.chatShown
  {
    if !Accepted(f) then st
    else
      match f.content
      case Message(role, name, text) =>
        if role == CustomerRole then st
        else
          var active :=
            if st.session.connected then st
            else st.(session := st.session.(connected := true),
                     page := st.page.(sendEnabled := true, chatShown := true));
          AppendLine(active, DisplayLine(name + ":", text))
      case Event(contentType) =>
        if Includes(contentType, EndedMarker) then
          st.(session := st.session.(connectionToken := None), page := st.page.(sendEnabled := false))
        else st
      case OtherContent(_) => st
  }

  /** The frames of one socket, handled in order. */
  function Receive(st: State, frames: seq<Frame>): State
    decreases |frames|
  {
    if frames == [] then st else Receive(OnMessage(st, frames[0]), frames[1..])
  }

  /** How many of the frames switch the session from not connected to connected. */
  function Activations(st: State, frames: seq<Frame>): nat
    decreases |frames|
  {
    if frames == [] then 0
    else
      var next := OnMessage(st, frames[0]);
      (if !st.session.connected && next.session.connected then 1 else 0) + Activations(next, frames[1..])
  }

  /** Once connected, a session stays connected and nothing activates it again. */
  lemma {:induction false} StaysConnected(st: State, frames: seq<Frame>)
    requires st.session.connected
    ensures Receive(st, frames).session.connected
    ensures Activations(st, frames) == 0
    decreases |frames|
  {
    if frames != [] {
      StaysConnected(OnMessage(st, frames[0]), frames[1..]);
    }
  }

  /** Activation happens at most once, whatever frames arrive, and it has happened by the end
      exactly when some agent message arrived or the session was already connected. */
  lemma {:induction false} ActivatesAtMostOnce(st: State, frames: seq<Frame>)
    ensures Activations(st, frames) <= 1
    ensures Receive(st, frames).session.connected
      == (st.session.connected || exists i :: 0 <= i < |frames| && FromAgent(frames[i]))
    decreases |frames|
  {
    if frames != [] {
      var next := OnMessage(st, frames[0]);
      if next.session.connected {
        StaysConnected(next, frames[1..]);
        assert FromAgent(frames[0]) || st.session.connected;
      } else {
        ActivatesAtMostOnce(next, frames[1..]);
        forall i | 0 <= i < |frames| && FromAgent(frames[i])
          ensures exists j :: 0 <= j < |frames[1..]| && FromAgent(frames[1..][j])
        {
          assert i != 0;
          assert frames[1..][i - 1] == frames[i];
        }
        forall j | 0 <= j < |frames[1..]| && FromAgent(frames[1..][j])
          ensures exists i :: 0 <= i < |frames| && FromAgent(frames[i])
        {
          assert frames[j + 1] == frames[1..][j];
        }
      }
    }
  }

  /** Once the session is connected, no frame enables the send button: after an "ended" event
      has disabled it, later agent messages only add to the log. */
  lemma {:induction false} SendStaysDisabled(st: State, frames: seq<Frame>)
    requires st.session.connected && !st.page.sendEnabled
    ensures !Receive(st, frames).page.sendEnabled
    decreases |frames|
  {
    if frames != [] {
      SendStaysDisabled(OnMessage(st, frames[0]), frames[1..]);
    }
  }

  /** Frames that are filtered out, the visitor's own echoes and other content change nothing. */
  lemma {:induction false} IgnoredFramesChangeNothing(st: State, frames: seq<Frame>)
    requires forall i :: 0 <= i < |frames| ==> !FromAgent(frames[i]) && !EndsChat(frames[i])
    ensures Receive(st, frames) == st
    decreases |frames|
  {
    if frames != [] {
      assert !FromAgent(frames[0]) && !EndsChat(frames[0]);
      IgnoredFramesChangeNothing(st, frames[1..]);
    }
  }

  /** Inbound frames only ever add lines to the end of the chat log and never issue effects. */
  lemma {:induction false} ReceiveOnlyAppends(st: State, frames: seq<Frame>)
    ensures |st.page.log| <= |Receive(st, frames).page.log|
    ensures Receive(st, frames).page.log[..|st.page.log|] == st.page.log
    ensures Receive(st, frames).page.effects == st.page.effects
    decreases |frames|
  {
    if frames != [] {
      var next := OnMessage(st, frames[0]);
      ReceiveOnlyAppends(next, frames[1..]);
      assert next.page.log[..|st.page.log|] == st.page.log;
    }
  }

  /** Tearing down twice is tearing down once: the second call issues nothing and changes nothing. */
  lemma DisconnectIsIdempotent(st: State)
    ensures Disconnect(Disconnect(st)) == Disconnect(st)
  {
  }

  /** After `leave()` a valid `start()` connects afresh: the request carries no participant
      token from the old session, and the log holds only the connecting line. */
  lemma LeaveThenStartStartsFresh(st: State, firstName: string, lastName: string, reply: ConnectReply, now: int)
    requires firstName != "" && lastName != ""
    ensures var left := Leave(st);
      var r := Start(left, firstName, lastName, reply, now);
      r.page.effects[|left.page.effects|] == Fetch(PostConnect(Some(firstName + " " + lastName), None))
      && r.page.log == [ConnectingLine]
      && !r.session.connected
  {
  }

  /** The refresh timer's callback AS WRITTEN: `setTimeout(this._connect, ...)` passes the method
      without its object, so when the timer fires `this` is the page's global object, not the
      `Chat`. The POST it makes carries neither a display name nor a participant token, and
      whatever it stores lands on the global object: this session is unchanged. */
  function RefreshAsWritten(st: State): (r: State)
    ensures r.session == st.session && r.page.log == st.page.log
    ensures r.page.effects == st.page.effects + [Fetch(PostConnect(None, None))]
  {
    Emit(st, [Fetch(PostConnect(None, None))])
  }

  /** The discrepancy: a session that holds a participant token and a connection token due to
      expire is not refreshed; its connection token stays the old one and the request does not
      name the participant. */
  lemma RefreshAsWrittenLeavesTokenStale()
    ensures var st := State(
        Session(Some("Ann Lee"), Some("PT1"), Some(55000), Some("CT1"), Some(Socket("wss://x")), true),
        Page([], true, true, "", []));
      var r := RefreshAsWritten(st);
      r.session.connectionToken == Some("CT1")
      && r.page.effects[0] != Fetch(PostConnect(st.session.displayName, st.session.participantToken))
  {
  }

  /** The refresh as intended: `_connect` run on this `Chat`. It is `Connect` itself, kept under
      its own name as the corrected half of the refresh discrepancy, so that the lemma about
      it reads as a statement about what the timer should do. */
  function RefreshBound(st: State, reply: ConnectReply, now: int): (r: State)
    ensures |r.page.effects| > |st.page.effects| && r.page.effects[|st.page.effects|]
      == Fetch(PostConnect(st.session.displayName, st.session.participantToken))
    ensures reply.ConnectOk? ==>
      r.session.connectionToken == Some(reply.connectionToken)
      && r.session.refreshTimer == Some(RefreshDelay(now, reply.expiration))
    ensures r.session.connected == st.session.connected && r.page.log == st.page.log
  {
    var r := Connect(st, reply, now);
    assert r.page.effects[|st.page.effects|] == (r.page.effects[..|st.page.effects| + 1])[|st.page.effects|];
    r
  }

  /** A refresh that runs on the session rotates the connection token and reuses the
      participant token, so the next refresh is again due before the new expiry. */
  lemma RefreshBoundRotatesToken(st: State, pt: string, expiration: int, ct: string, url: string, now: int)
    requires now + RefreshMarginMs <= expiration
    ensures var r := RefreshBound(st, ConnectOk(pt, expiration, ct, url), now);
      r.session.connectionToken == Some(ct)
      && r.session.participantToken == Some(pt)
      && 0 <= r.session.refreshTimer.value
      && now + r.session.refreshTimer.value + RefreshMarginMs == expiration
  {
  }

  /** The scenario of a whole conversation: "Ann" "Lee" starts, the relay grants PT1/CT1,
      the agent Bob says "hi", then the conversation ends. */
  lemma {:induction false} ConversationScenario(now: int)
    ensures var st0 := State(Cleared(), Page([], false, false, "", []));
      var st1 := Start(st0, "Ann", "Lee", ConnectOk("PT1", now + 60000, "CT1", "wss://x"), now);
      var st2 := OnMessage(st1, Frame(ChatTopic, JsonContentType, Message("AGENT", "Bob", "hi")));
      var st3 := OnMessage(st2, Frame(ChatTopic, JsonContentType,
        Event("application/vnd.amazonaws.connect.event.chat.ended")));
      st1.session.connectionToken == Some("CT1") && st1.session.refreshTimer == Some(55000)
      && !st1.session.connected && !st1.page.sendEnabled
      && st2.session.connected && st2.page.sendEnabled && "Bob: hi" in st2.page.log
      && st3.session.connected && !st3.page.sendEnabled && st3.session.connectionToken == None
  {
    var st0 := State(Cleared(), Page([], false, false, "", []));
    var st1 := Start(st0, "Ann", "Lee", ConnectOk("PT1", now + 60000, "CT1", "wss://x"), now);
    assert st1.session.refreshTimer == Some(RefreshDelay(now, now + 60000));
    var st2 := OnMessage(st1, Frame(ChatTopic, JsonContentType, Message("AGENT", "Bob", "hi")));
    assert st2.page.log == st1.page.log + [DisplayLine("Bob" + ":", "hi")];
    assert DisplayLine("Bob" + ":", "hi") == "Bob: hi";
    var ended := "application/vnd.amazonaws.connect.event.chat.ended";
    IncludesAt(ended, EndedMarker, 45);
  }
}
