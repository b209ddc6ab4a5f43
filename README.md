# Chat client and relay for a managed contact-centre chat, modelled in Dafny

The system is a browser chat client (`chat.js`) and the serverless relay it talks to
(`index.js`). A visitor enters a first and last name and starts a chat. The client asks the relay
for a participant connection, opens the returned socket, and waits for an agent's first message
before it enables sending. It posts messages through the relay, and it tears the session down when
the visitor leaves. The relay routes three requests (create or resume a connection, send a
message, end the connection) to the chat provider's SDK. It answers 200 with a cross-origin header
on success and 400 otherwise.

The model has four modules:

- `JsValues` (`js_values.dfy`) holds the JavaScript behaviour both sides rely on. This covers
  truthiness of a string or `null`, string conversion of `null`, `String.prototype.trim` over the
  full ECMAScript whitespace set, and `String.prototype.includes`.
- `ChatSession` (`chat_session.dfy`) models the client as values. A `Session` holds the six fields
  of `Chat`. A `Page` holds the chat log, the send button, which panel is shown, the phrase box,
  and the append-only list of effects the client has issued: alerts, requests to the relay,
  timers and sockets. Each operation is a function from the state before to the state after. The
  lemmas state the client's promises over those functions.
- `ChatClient` (`chat.dfy`) holds the class `Chat`, whose methods update its fields in place, and a
  `Browser` object for the page. `Disconnect`, `Leave`, `Send`, `Start`, `Connect` and `OnMessage`
  are proved to take the pair to the state that the `ChatSession` function of the same name gives.
  `Reset` and `Subscribe` have no such function. Their contracts state the new fields directly.
- `Relay` (`relay.dfy`) models the handler, `connect`, `send` and `disconnect` as pure functions.
  The SDK is a `Provider` record of functions that either resolve or throw.

Network replies to the client are parameters: `ConnectReply` for the connect POST and `SendReply`
for the send POST. A thrown error before any field is stored, a network failure and a non-ok status all count as
the failed reply. The DELETE's outcome is swallowed by the code, so it is not a parameter. Time is an integer
number of milliseconds passed in as `now`. Inbound socket frames arrive already parsed as `Frame`.
"No request is made" means that no `Fetch` effect is added.

Facts about the code that shape the model:

- `Chat` keeps no status field. Whether the chat is active is the `connected` flag.
- `start` checks only that each name is non-empty. Names are not trimmed.
- `start` does not refuse a second session while one is open. Nothing here claims "at most one
  socket".
- The refresh timer does not replace the token on this `Chat` (see Findings).

## Model

| member | source | states |
|---|---|---|
| `JsValues.TrimStart` | chat.js:84 | what is removed from the front is all whitespace; what is kept is a suffix that does not start with whitespace |
| `JsValues.TrimEnd` | chat.js:84 | what is removed from the back is all whitespace; what is kept is a prefix that does not end with whitespace |
| `JsValues.ToJsString` | chat.js:107 | a present name prints as itself and a null name prints as "null" |
| `JsValues.Trim` | chat.js:84 | the trimmed phrase is the phrase with some all-whitespace front and some all-whitespace back removed; it neither starts nor ends with whitespace, so nothing more could be removed; it is empty exactly when the phrase is whitespace only |
| `ChatSession.RefreshDelay` | chat.js:144-145 | when the expiry is not in the past, the refresh is scheduled so that it falls exactly 5000 ms before the expiry; when it is already past, the delay is the time since expiry less 5000 ms (the code takes the absolute difference); the delay is never below -5000 |
| `ChatSession.Connect` | chat.js:127-156 | the POST carries the current display name and participant token; an ok reply stores the participant token, the connection token, a timer of the refresh delay and a socket to the returned URL, and issues exactly the POST, the timer and the socket; a failed reply changes no session field and issues only the POST; log, send button, panel and phrase are untouched |
| `ChatSession.Start` | chat.js:115-125 | an empty first or last name only raises the alert and makes no request; otherwise the display name is "first last", the connect request carries it, and "System: Connecting..." is logged whether or not the connect succeeded; the effects are the earlier ones followed by exactly that POST, and by the refresh timer and the socket only on an ok reply; a failed connect leaves the tokens, timer and socket as they were; an ok reply stores its tokens, the refresh timer and the socket; connected, the send button, the panel and the phrase never change |
| `ChatSession.Send` | chat.js:82-113 | the phrase box is always cleared and the session never changes; a whitespace-only phrase issues nothing and logs nothing; otherwise the trimmed phrase is posted with the connection token, and "name: text" is logged only on an ok reply |
| `ChatSession.Disconnect` | chat.js:44-72 | always ends in the cleared session with the page unchanged except for the teardown effects appended; these cancel a stored timer, close a stored socket, and issue the DELETE when a non-empty connection token is known, and no request at all otherwise |
| `ChatSession.Leave` | chat.js:74-80 | the log is emptied, the start form is shown again, the send button and phrase are kept, the teardown effects are issued, and the session is cleared |
| `ChatSession.OnMessage` | chat.js:175-200 | frames off the chat topic or not JSON, the visitor's own messages and other content kinds change nothing; the first agent message sets connected, enables sending and shows the chat panel; a later one only appends "name: text"; an "ended" event disables sending and clears the connection token and leaves connected as it was |
| `ChatSession.StaysConnected` | chat.js:180-191 | once connected, any run of frames leaves the session connected and activates nothing |
| `ChatSession.ActivatesAtMostOnce` | chat.js:180-191 | over any run of frames, at most one frame switches connected from false to true, and the session ends connected exactly when it was already connected or some agent message arrived |
| `ChatSession.SendStaysDisabled` | chat.js:180-197 | once connected with sending disabled (after an "ended" event), no later frame enables sending again |
| `ChatSession.IgnoredFramesChangeNothing` | chat.js:175-200 | a run of frames none of which is an agent message or an "ended" event leaves the state exactly as it was |
| `ChatSession.ReceiveOnlyAppends` | chat.js:175-200 | inbound frames only append to the chat log and issue no effects |
| `ChatSession.DisconnectIsIdempotent` | chat.js:44-72 | a second disconnect changes nothing and issues nothing |
| `ChatSession.LeaveThenStartStartsFresh` | chat.js:74-125 | after leaving, a valid start posts no participant token from the old session, the log holds only the connecting line, and the session is not connected |
| `ChatSession.RefreshAsWritten` | chat.js:145 | the refresh timer firing as written leaves this session and its log unchanged and posts a request without display name or participant token |
| `ChatSession.RefreshAsWrittenLeavesTokenStale` | chat.js:145 | for a session holding PT1 and CT1, the fired refresh keeps CT1 and its request does not name the participant |
| `ChatSession.RefreshBound` | chat.js:127-156 | a refresh run on this `Chat` posts its own display name and participant token, and an ok reply rotates the connection token and reschedules the timer |
| `ChatSession.RefreshBoundRotatesToken` | chat.js:141-148 | when the expiry is at least 5000 ms away, such a refresh stores the new tokens and schedules the next refresh exactly 5000 ms before the new expiry |
| `ChatSession.ConversationScenario` | chat.js:115-197 | start as "Ann" "Lee" with PT1/CT1 expiring in 60 s schedules the refresh at 55000 ms, stays inactive until "Bob: hi" arrives, then activates; an "ended" event disables sending and clears the token and leaves connected true |
| `ChatClient.Chat.constructor` | chat.js:40-42 | a new `Chat` has every field null and connected false, and the page is untouched |
| `ChatClient.Chat.Reset` | chat.js:158-165 | all six fields are null or false afterwards |
| `ChatClient.Chat.Disconnect` | chat.js:44-72 | the object and page end in the state `ChatSession.Disconnect` gives |
| `ChatClient.Chat.Leave` | chat.js:74-80 | the object and page end in the state `ChatSession.Leave` gives |
| `ChatClient.Chat.Send` | chat.js:82-113 | the page ends in the state `ChatSession.Send` gives, and the session is untouched |
| `ChatClient.Chat.Start` | chat.js:115-125 | the object and page end in the state `ChatSession.Start` gives |
| `ChatClient.Chat.Connect` | chat.js:127-156 | the object and page end in the state `ChatSession.Connect` gives |
| `ChatClient.Chat.Subscribe` | chat.js:167-168 | the socket field becomes a socket to the URL, an open-socket effect is issued, and nothing else changes |
| `ChatClient.Chat.OnMessage` | chat.js:175-200 | the object and page end in the state `ChatSession.OnMessage` gives |
| `ChatClient.LeaveThenUnload` | chat.js:227-231 | leaving and then, once leave has finished, the unload handler's disconnect end in the same state as leaving alone |
| `Relay.Connect` | index.js:10-45 | a supplied participant token is returned unchanged, and the outcome depends only on connection creation; without one, the token is the one contact creation answered, and a failure there is the outcome; on success the URL, expiry and connection token are the created connection's; without a token and with a contact created, the outcome is ok exactly when connection creation succeeds; a failure of connection creation is a provider error carrying its detail |
| `Relay.ConnectWithTokenCreatesNoContact` | index.js:13-25 | with a participant token supplied, replacing contact creation by anything else does not change `connect`'s outcome |
| `Relay.Disconnect` | index.js:47-52 | succeeds exactly when the provider's disconnect does, answering "disconnected"; otherwise the provider's error |
| `Relay.Send` | index.js:54-64 | succeeds exactly when the provider accepts the message sent with content type text/plain, answering "message sent"; otherwise the provider's error with its detail |
| `Relay.Lookup` | index.js:73-110 | an operation found is the table's entry for that path and method; none is found only when no entry matches |
| `Relay.RoutesAreDistinct` | index.js:73-110 | no path and method pair has two entries, so a request reaches at most one operation |
| `Relay.Perform` | index.js:74-104 | an unreadable body fails as such; otherwise each operation gets its fields from the body, connect's result is the response body, the delete answers "disconnected" and the send "message sent", and their failures carry the provider's detail |
| `Relay.Respond` | index.js:79-116 | a result becomes 200 with the cross-origin header and the result as body; a failure becomes 400 with no headers and the error as body |
| `Relay.Handle` | index.js:66-117 | every request gets 200 or 400; 200 always carries the cross-origin header and 400 never does; a routed request gets its operation's response; any other method on a known path fails as unsupported method, and any other path as unsupported path |
| `Relay.ResumeKeepsParticipant` | index.js:74-83 | a POST to /connectChat with a participant token answers the same whatever contact creation does, and a 200 carries that same token |

## Left out

- Page rendering: element lookup, showing and hiding, focus, scrolling and the start-up wiring
  (chat.js:6-37, chat.js:208-226). They are replaced by the log, the send-button flag and the
  `chatShown` flag. The unload handler is kept only as `LeaveThenUnload`.
- `fetch`, `WebSocket` and the provider SDK are not executed. Replies are parameters or
  `Provider` functions. `AWS.config`, the credentials and `process.env` (region, flow and instance
  ids) are left out. The chance that the config assignment itself throws (index.js:69-71) is not
  modelled.
- JSON parsing and serialising. Frames arrive parsed, and a frame whose JSON is malformed throws
  uncaught in the code; that case is not modelled. Frame and body fields are strings. A missing
  frame field is not modelled: a missing `DisplayName` or `Content` prints as "undefined"
  (chat.js:189), a message without `ParticipantRole` counts as an agent's (chat.js:181), an event
  without `ContentType` throws (chat.js:193), and a frame without `Type` matches no case
  (chat.js:179). Neither is a body that parses to a
  number or array (such a body has no fields). The 400 body is the caught error itself
  (`ErrorJson`).
- `Relay.Respond`: keeps the unsupported-method, unsupported-path and malformed-body failures
  apart, but `JSON.stringify` of a plain `Error` or `SyntaxError` is "{}". These three 400s are the
  same on the wire, and only the SDK's errors carry detail.
- Dates. The client gets the expiry as integer milliseconds. The relay passes the provider's expiry
  string through untouched.
- Timers and asynchronous interleaving. The timer is stored as the delay it was scheduled with. The
  send-versus-refresh race and frame order across reconnects are not modelled. `Chat` has no
  refresh method, because the timer's callback never reaches the instance (see Findings).
- Opening a new socket does not close the old one in the code, and the model does not claim it
  does. The `onopen` subscribe frame (chat.js:170-173) and the `onerror` handler (chat.js:202-204)
  are not modelled. `OpenSocket` stands for opening the socket.
- An ok connect reply is assumed to carry a URL the socket accepts. If opening the socket throws
  (chat.js:147), the code has already stored the participant token, the timer and the connection
  token (chat.js:143-146), leaving a session with new tokens and no socket. Neither
  `ConnectReply` case gives that state.
- `ChatClient.LeaveThenUnload`: holds only once `leave` has finished. `disconnect` resets the
  fields after the DELETE settles (chat.js:58-71), so an unload while that DELETE is pending sees
  the old session and tears it down a second time. This race is not modelled.
- Console logging is dropped. The alert is kept as an `Alert` effect.
- `ChatSession.Disconnect`: cancels the timer whenever a delay is stored. The code tests the timer
  id for truthiness, and browser timer ids are always positive.

## Findings

| source | as written | input that shows it | evidently intended | confidence | as-written member | corrected member |
|---|---|---|---|---|---|---|
| chat.js:145 | `setTimeout(this._connect, diff - 5000)` passes the method without its object. When the timer fires, `this` is the page's global object. The POST names no participant, and nothing is stored on the `Chat`. | a session holding participant token PT1 and connection token CT1 with its refresh due: after the timer fires the connection token is still CT1 and the request carries no participant token | run `_connect` on this `Chat` (a bound callback), so the connection token is rotated 5000 ms before it expires | medium, not executed | `ChatSession.RefreshAsWrittenLeavesTokenStale` | `ChatSession.RefreshBoundRotatesToken` |
