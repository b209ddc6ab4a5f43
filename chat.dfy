/** The browser chat client as objects: a `Chat` whose six fields its methods update in
    place, and the `Browser` it writes to (the page and the outside world). Each method that
    has a counterpart in module ChatSession is proved to take the pair to the state that
    function gives; `Reset` and `Subscribe` state their new fields directly. */
module ChatClient {
  import opened JsValues
  import S = ChatSession

  /** What the client touches outside itself: the chat log, the send button, which panel is
      shown, the phrase box, and the effects (alerts, requests, timers, sockets) it has issued. */
  class Browser {
    var log: seq<string>
    var sendEnabled: bool
    var chatShown: bool
    var phrase: string
    var effects: seq<S.Effect>

    function View(): S.Page
      reads this
    {
      S.Page(log, sendEnabled, chatShown, phrase, effects)
    }

    constructor (page: S.Page)
      ensures View() == page
    {
      log, sendEnabled, chatShown, phrase, effects := page.log, page.sendEnabled, page.chatShown, page.phrase, page.effects;
    }
  }

  class Chat {
    var displayName: Option<string>
    var participantToken: Option<string>
    var refreshTimer: Option<int>
    var connectionToken: Option<string>
    var chatSocket: Option<S.Socket>
    var connected: bool
    const browser: Browser

    function Session(): S.Session
      reads this
    {
      S.Session(displayName, participantToken, refreshTimer, connectionToken, chatSocket, connected)
    }

    function State(): S.State
      reads this, browser
    {
      S.State(Session(), browser.View())
    }

    /** A new client starts with the cleared session and leaves the page as it is. */
    constructor (browser: Browser)
      ensures this.browser == browser && Session() == S.Cleared()
      ensures browser.View() == old(browser.View())
    {
      this.browser := browser;
      new;
      Reset();
    }

    /** `_reset`: every field null, not connected. */
    method Reset()
      modifies this
      ensures Session() == S.Cleared()
    {
      displayName := None;
      participantToken := None;
      refreshTimer := None;
      connectionToken := None;
      chatSocket := None;
      connected := false;
    }

    /** `disconnect`: cancel the refresh, close the socket, DELETE the connection if a token is
        known (its failure is swallowed), then reset. */
    method Disconnect()
      modifies this, browser
      ensures State() == S.Disconnect(old(State()))
    {
      ghost var before := State();
      if refreshTimer.Some? {
        browser.effects := browser.effects + [S.ClearTimeout(refreshTimer.value)];
      }
      if chatSocket.Some? {
        browser.effects := browser.effects + [S.CloseSocket(chatSocket.value)];
      }
      if Truthy(connectionToken) {
        browser.effects := browser.effects + [S.Fetch(S.DeleteConnection(connectionToken.value))];
      }
      assert browser.effects == before.page.effects + S.TeardownEffects(before.session);
      Reset();
    }

    /** `leave`: empty the chat log, show the start form, then disconnect. */
    method Leave()
      modifies this, browser
      ensures State() == S.Leave(old(State()))
    {
      browser.log := [];
      browser.chatShown := false;
      Disconnect();
    }

    /** `send`: take the trimmed phrase and clear the box; post a non-empty phrase and log it
        only when the relay answers ok. */
    method Send(reply: S.SendReply)
      modifies browser
      ensures State() == S.Send(old(State()), reply)
    {
      ghost var before := State();
      var content := Trim(browser.phrase);
      browser.phrase := "";
      if content == "" {
        assert State() == before.(page := before.page.(phrase := ""));
        return;
      }
      browser.effects := browser.effects + [S.Fetch(S.PostSend(content, connectionToken))];
      if reply.SendOk? {
        browser.log := browser.log + [S.DisplayLine(ToJsString(displayName) + ":", content)];
      }
      assert State() == S.Send(before, reply);
    }

    /** `start`: an empty name only alerts; otherwise set the display name, connect, and log
        that the client is connecting. */
    method Start(firstName: string, lastName: string, reply: S.ConnectReply, now: int)
      modifies this, browser
      ensures State() == S.Start(old(State()), firstName, lastName, reply, now)
    {
      if firstName == "" || lastName == "" {
        browser.effects := browser.effects + [S.Alert(S.NameRequired)];
        return;
      }
      displayName := Some(firstName + " " + lastName);
      Connect(reply, now);
      browser.log := browser.log + [S.ConnectingLine];
    }

    /** `_connect`: post the name and participant token; on an ok reply store the tokens,
        schedule the refresh and subscribe to the new socket. A failed reply is only logged to
        the console. */
    method Connect(reply: S.ConnectReply, now: int)
      modifies this, browser
      ensures State() == S.Connect(old(State()), reply, now)
    {
      ghost var before := State();
      browser.effects := browser.effects + [S.Fetch(S.PostConnect(displayName, participantToken))];
      match reply {
        case ConnectFailed =>
        case ConnectOk(pt, expiration, ct, url) =>
          participantToken := Some(pt);
          var delay := S.RefreshDelay(now, expiration);
          refreshTimer := Some(delay);
          browser.effects := browser.effects + [S.SetTimeout(delay)];
          connectionToken := Some(ct);
          Subscribe(url);
          assert browser.effects == before.page.effects
            + [S.Fetch(S.PostConnect(before.session.displayName, before.session.participantToken))]
            + [S.SetTimeout(delay), S.OpenSocket(url)];
      }
    }

    /** `_subscribe`: open the socket to the given endpoint; its `onmessage` is `OnMessage`. */
    method Subscribe(url: string)
      modifies this, browser
      ensures Session() == old(Session()).(chatSocket := Some(S.Socket(url)))
      ensures browser.View() == old(browser.View()).(effects := old(browser.effects) + [S.OpenSocket(url)])
    {
      chatSocket := Some(S.Socket(url));
      browser.effects := browser.effects + [S.OpenSocket(url)];
    }

    /** The socket's `onmessage` for an already parsed frame. */
    method OnMessage(f: S.Frame)
      modifies this, browser
      ensures State() == S.OnMessage(old(State()), f)
    {
      if f.topic == S.ChatTopic && f.contentType == S.JsonContentType {
        match f.content {
          case Message(role, name, text) =>
            if role != S.CustomerRole {
              if !connected {
                browser.chatShown := true;
                browser.sendEnabled := true;
                connected := true;
              }
              browser.log := browser.log + [S.DisplayLine(name + ":", text)];
            }
          case Event(contentType) =>
            if Includes(contentType, S.EndedMarker) {
              browser.sendEnabled := false;
              connectionToken := None;
            }
          case OtherContent(_) =>
        }
      }
    }
  }

  /** Leaving and then, once `leave` has finished, unloading the page (whose handler disconnects
      again) tears the session down once: the second disconnect issues nothing. */
  method LeaveThenUnload(chat: Chat)
    modifies chat, chat.browser
    ensures chat.State() == S.Leave(old(chat.State()))
  {
    chat.Leave();
    chat.Disconnect();
    S.DisconnectIsIdempotent(old(chat.State()).(page := old(chat.State()).page.(log := [], chatShown := false)));
  }
}
