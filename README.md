# Device proxy connection core, modelled in Dafny

The device proxy links a point-of-sale station (card scanner, receipt printer)
to a control server over a Phoenix channel. This project models its core:

- **Card scanner framer** (`Scanner`, card_scanner.dfy): the HID `data` handler
  that drops NUL bytes, keeps printable ASCII in a persistent `cardBuffer`, and
  cuts a token at CR or LF; the two classifiers `extractCardId` and
  `detectCardFormat`; the `cardScanned` record.
- **Phoenix-channel client** (`Phoenix`, phoenix_client.dfy): the socket URL,
  the join / heartbeat / outbound envelopes, the join-reply rule, inbound
  dispatch, and the `socket` / `connected` / `heartbeatInterval` state moved by
  socket events, timers and calls.
- **Connection supervisor** (`Supervisor`, websocket_manager.dfy): `connect`,
  the five-attempt `connectWithRetry` with its backoff, the 30 s auto-reconnect
  interval, the `print_completed` acknowledgement of a print command,
  `sendCardScanned`, `disconnect` and `getStatus`.
- **Session holder** (`Auth`, auth_manager.dfy): credentials from the process
  environment, the authorization-code exchange, `disconnect`,
  `isAuthenticated` and `getAuthData`.
- **.env rewriter** (`EnvFile`, env_manager.dfy): the line parser, the update
  merge and the fixed ten-line layout written back.

`Strings` (strings.dfy) states the JavaScript string built-ins the code relies
on (`trim`, `split`/`join` on one character, `indexOf`, first-occurrence
`replace`); `Json` (json.dfy) the JSON values in payloads and property reads on
them; `Wrappers` (wrappers.dfy) `Option` and `Result`.

The classes keep the source's fields and are updated in place. Everything the
environment does is an input. Socket events, timer expiries and inbound data are
`ClientEvent` values delivered to the client. `connect` receives the script of
events its fresh client sees. The HTTP reply of the authentication request, the
printer's readiness and print outcome, and clock readings are parameters. The
file system is the `file` field of `EnvManager`.

Behaviour of the code that the model keeps, because the code does it:

- `extractCardId` tries the prefix rule first, but `detectCardFormat` tries it
  last. So `"ABC123"` gets id `"123"` and format `hex` (`Scanner.DisagreementExample`).
- A buffer of spaces is non-empty when the terminator arrives. It emits an empty
  token (`Scanner.SpacesOnlyBuffer`).
- A `phx_reply` for `join_ref_1` with a missing or null payload clears the join
  timer and then throws. The join then never settles (`Phoenix.ReplyWithoutPayloadThrows`,
  `Phoenix.PhoenixClient.Stalled`), so that `connect` attempt and the retry loop
  around it never end.
- A join that fails or times out leaves the socket open. `connect` replaces
  `phoenixClient` without tearing down the old client.
- A timer that fires after its promise settled changes nothing: rejecting a
  settled promise is a no-op (`Phoenix.StepView`).
- `disconnect` drops the socket but leaves its handlers attached. A message that
  still arrives on it reaches the join listener and the `print_html` dispatch
  (`Phoenix.PhoenixClient.OnMessage`).
- `disconnect` drops the client, but its socket's late `close` still reaches the
  manager's `disconnect` listener. That listener re-arms auto-reconnect
  (`Supervisor.WebSocketManager.OnDroppedClientEvent`).
- A `print_html` that reaches the print handler when `phoenixClient` is `null`
  (a dropped client whose socket is still open, after `disconnect`) raises a
  TypeError at `sendMessage`, and again in its `catch` after a failed print.
  The listener neither awaits nor catches it, so the rejection goes unhandled
  (`Supervisor.WebSocketManager.HandlePrintCommand`, `threw`).
- The authorization code is checked for length only. The length is counted in
  UTF-16 code units (`Auth.CodeCheckIsLengthOnly`).

## Model

| member | source | states |
|---|---|---|
| `Scanner.Step` | devices/card-scanner.js:57-74 | one byte never puts a non-printable character in the buffer |
| `Scanner.ZeroByteSkipped` | devices/card-scanner.js:60 | a NUL byte changes nothing and ends no token |
| `Scanner.TerminatorEndsToken` | devices/card-scanner.js:65-69 | CR or LF on a non-empty buffer emits its trimmed text and empties it; on an empty buffer it emits nothing |
| `Scanner.OtherByteAccumulates` | devices/card-scanner.js:70-73 | any other byte is appended if printable, dropped otherwise, and never ends a token |
| `Scanner.Feed` | devices/card-scanner.js:57-74 | a chunk completes at most one token per byte, and after any chunk a printable buffer holds only printable ASCII |
| `Scanner.Printables` | devices/card-scanner.js:70-73 | the printable bytes of a chunk, in order: printable text no longer than the chunk |
| `Scanner.FeedTokensTrimmed` | devices/card-scanner.js:66-67 | every token handed on is already trimmed, as `cardBuffer.trim()` makes it |
| `Scanner.FeedConcat` | devices/card-scanner.js:54-78 | two chunks in a row act as their concatenation, so a token split across chunks is emitted once and whole |
| `Scanner.FeedWithoutTerminator` | devices/card-scanner.js:57-74 | without a terminator a chunk only appends its printable bytes, in order |
| `Scanner.FeedLine` | devices/card-scanner.js:57-74 | a line emits at most one token, the trimmed printable text since the last terminator, and empties the buffer |
| `Scanner.ScanLine` | devices/card-scanner.js:57-74 | a printable text followed by CR yields exactly one token |
| `Scanner.SplitRead` | devices/card-scanner.js:54-78 | a read delivered in two chunks yields one token, the trimmed concatenation |
| `Scanner.SpacesOnlyBuffer` | devices/card-scanner.js:66-67 | a spaces-only buffer emits the empty token, with id `""` and format unknown |
| `Scanner.DigitGroup` | devices/card-scanner.js:109-111 | the captured group is a non-empty digit run ending the token after a non-empty upper-case run |
| `Scanner.PrefixedNumericSplit` | devices/card-scanner.js:109 | any upper-case run followed by a digit run matches the prefix pattern, and its group is the digit run |
| `Scanner.ClassifiersAgree` | devices/card-scanner.js:105-140 | per detected format, the id extracted: itself for numeric and unknown, the digit group for prefixed, and for hex the digit group or the lower-cased token |
| `Scanner.HexFormatWithPrefixedId` | devices/card-scanner.js:105-140 | format hex with a digit-group id happens exactly for an `A`..`F` run followed by digits |
| `Scanner.ExtractCardId` | devices/card-scanner.js:105-128 | the id is never longer than the token; a prefixed token's id is its digit group, an all-digit token is its own id, and a token that is neither prefixed nor hex is its own id |
| `Scanner.DetectCardFormat` | devices/card-scanner.js:130-140 | numeric exactly for all digits; hex exactly for hex digits that are not all digits; prefixed exactly for a prefixed token that is not hex; unknown exactly when neither hex nor prefixed |
| `Scanner.PrefixedExample` | devices/card-scanner.js:108-111 | `CARD123456` gives id `123456`, format prefixed_numeric |
| `Scanner.NumericExample` | devices/card-scanner.js:114-118 | every all-digit token (such as `4001234567`) is its own id, format numeric |
| `Scanner.HexExample` | devices/card-scanner.js:120-124 | `1A2B3C` gives id `1a2b3c`, format hex |
| `Scanner.DisagreementExample` | devices/card-scanner.js:105-140 | `ABC123` gives id `123` but format hex |
| `Scanner.CardRecord` | devices/card-scanner.js:91-96 | the record keeps the raw token and the timestamp; its id is no longer than the token, and an unknown-format token is its own id |
| `Scanner.Records` | devices/card-scanner.js:91-96 | one record per token, in order, each with raw text, id, format and timestamp |
| `Scanner.CardScanner.constructor` | devices/card-scanner.js:5-12 | the buffer starts empty |
| `Scanner.CardScanner.Consume` | devices/card-scanner.js:57-74 | one loop pass updates the buffer and emits records as `Step` says |
| `Scanner.CardScanner.OnData` | devices/card-scanner.js:54-78 | after a chunk the buffer and the emitted records are those of `Feed`; the buffer stays printable |
| `Strings.JoinSplit` | lib/auth/env_manager.js:23-25 | rejoining the pieces after the first `=` gives the text after it, `=` signs included |
| `Strings.SplitJoin` | lib/auth/env_manager.js:34-45 | splitting the joined layout at newlines gives back its lines |
| `Phoenix.SocketUrl` | lib/websocket/phoenix_client.js:17-19 | the socket URL always ends with `/socket/websocket` |
| `Phoenix.SocketUrlHttp` | lib/websocket/phoenix_client.js:17-19 | `http://rest` becomes `ws://rest/socket/websocket` |
| `Phoenix.SocketUrlHttps` | lib/websocket/phoenix_client.js:17-19 | `https://rest` becomes `wss://rest/socket/websocket` |
| `Phoenix.DeviceTopic` | lib/websocket/phoenix_client.js:86 | the topic is `device:` followed by the device id |
| `Phoenix.JoinEnvelope` | lib/websocket/phoenix_client.js:85-93 | a `phx_join` on the device topic whose payload is exactly the token; an `ok` reply carrying its ref is accepted |
| `Phoenix.HeartbeatEnvelope` | lib/websocket/phoenix_client.js:150-155 | a `heartbeat` on the `phoenix` topic with an empty payload and an `hb_` ref, never the join ref |
| `Phoenix.OutboundEnvelope` | lib/websocket/phoenix_client.js:137-142 | device topic, the given event and payload, and a ref starting with `event_` |
| `Phoenix.Verdict` | lib/websocket/phoenix_client.js:101-113 | reading the reply raises before the timer is cleared exactly on a `null` message, and after it only on a join reply with no payload |
| `Phoenix.VerdictRule` | lib/websocket/phoenix_client.js:101-113 | the join succeeds exactly on a `phx_reply` for `join_ref_1` with status `ok`, is refused on such a reply with another status, and is left pending by any other message |
| `Phoenix.ReplyWithoutPayloadThrows` | lib/websocket/phoenix_client.js:102-104 | a join reply without payload throws after the timer is cleared |
| `Phoenix.Route` | lib/websocket/phoenix_client.js:119-129 | only `print_html` is dispatched, with its payload |
| `Phoenix.RepliesAreSwallowed` | lib/websocket/phoenix_client.js:122-124 | a `phx_reply` dispatches nothing |
| `Phoenix.Listen` | lib/websocket/phoenix_client.js:101-115 | the listener is spent; the join resolves exactly on acceptance of a pending join; only acceptance or refusal moves a pending join; the join timer survives only a message that is ignored or throws before clearing it; `connected` is set exactly on acceptance; the socket and open timer are untouched |
| `Phoenix.StepView` | lib/websocket/phoenix_client.js:30-116 | an event that cannot happen changes nothing; only a pending connect changes phase, so a settled or stalled one stays so; an active phase never returns to idle; a dropped socket is never re-created; a close leaves the client unconnected with no heartbeat |
| `Phoenix.Run` | lib/websocket/phoenix_client.js:15-53 | a connect that has settled ignores the rest of the events; the phase never returns to idle; a stalled join stays stalled |
| `Phoenix.Expire` | lib/websocket/phoenix_client.js:30-33 | expiry never establishes nor undoes a connection; it only rejects with the open or join timeout |
| `Phoenix.JoiningRun` | lib/websocket/phoenix_client.js:96-116 | after the join is sent, the connect resolves exactly when the first JSON message is an accepted reply that comes before the join timer and before any close |
| `Phoenix.OpeningRun` | lib/websocket/phoenix_client.js:15-53 | from a new socket, the connect resolves exactly when the socket opens before its timer and before a close, and then the join is accepted in time |
| `Phoenix.ConnectsIff` | lib/websocket/phoenix_client.js:15-53 | `connect()` resolves, once the armed timer has expired, exactly when `OpensInTime` holds of its events |
| `Phoenix.TimesOutIff` | lib/websocket/phoenix_client.js:30-44 | `connect()` rejects with the connection timeout exactly when the socket does not open before the open timer or a close |
| `Phoenix.DoomedRun` | lib/websocket/phoenix_client.js:60-116 | a pending connect whose socket closed unopened, or whose join listener can no longer see a message, never resolves |
| `Phoenix.PhoenixClient.constructor` | lib/websocket/phoenix_client.js:5-13 | no socket, not connected, no heartbeat |
| `Phoenix.PhoenixClient.IsConnected` | lib/websocket/phoenix_client.js:181-183 | true exactly when the flag is set and the socket is open |
| `Phoenix.PhoenixClient.Connect` | lib/websocket/phoenix_client.js:15-33 | opens a socket on the derived URL and arms the 10 s open timer |
| `Phoenix.PhoenixClient.OnOpen` | lib/websocket/phoenix_client.js:35-47 | an open before the timeout sends the join envelope and arms the join timer; a late open only changes the ready state |
| `Phoenix.PhoenixClient.OnOpenTimeout` | lib/websocket/phoenix_client.js:31-33 | the connect fails with a timeout and the socket is left as it is |
| `Phoenix.PhoenixClient.OnJoinTimeout` | lib/websocket/phoenix_client.js:97-99 | the join fails with a timeout, the socket stays open and an unspent listener stays registered |
| `Phoenix.PhoenixClient.AwaitTimer` | lib/websocket/phoenix_client.js:30-33 | when nothing else happens the state becomes `Expire` of it: a pending connect ends settled or stalled, and nothing is sent |
| `Phoenix.PhoenixClient.OnCloseStarted` | lib/websocket/phoenix_client.js:149 | the socket's ready state becomes CLOSING; nothing else changes, so `isConnected()` turns false while the flag stays set |
| `Phoenix.PhoenixClient.JoinListen` | lib/websocket/phoenix_client.js:101-115 | the one-shot listener's effect is exactly `Listen` of the `Verdict` on the message; a reply without payload on a pending join stalls it |
| `Phoenix.PhoenixClient.OnMessage` | lib/websocket/phoenix_client.js:60-69 | non-JSON changes nothing; a JSON message changes the state exactly as `Listen` says when a join listener waits, and nothing otherwise; a throw there stops dispatch; otherwise `print_html` is emitted with its payload; a socket that `disconnect` dropped still delivers messages |
| `Phoenix.PhoenixClient.SendMessage` | lib/websocket/phoenix_client.js:131-145 | nothing is sent unless connected; otherwise exactly one envelope is sent |
| `Phoenix.PhoenixClient.OnHeartbeat` | lib/websocket/phoenix_client.js:147-161 | a tick sends one heartbeat on an open socket and stops the heartbeat otherwise |
| `Phoenix.PhoenixClient.StopHeartbeat` | lib/websocket/phoenix_client.js:163-168 | afterwards no heartbeat is armed; nothing else changes |
| `Phoenix.PhoenixClient.OnClose` | lib/websocket/phoenix_client.js:71-76 | not connected, no heartbeat, `disconnect` emitted |
| `Phoenix.PhoenixClient.Disconnect` | lib/websocket/phoenix_client.js:170-179 | no socket, not connected, no heartbeat; a live socket still delivers its close |
| `Phoenix.PhoenixClient.Emits` | lib/websocket/phoenix_client.js:60-76 | an event emits at most one thing: `disconnect` exactly on a close, and `print_html` only for an inbound message that routes to it |
| `Phoenix.PhoenixClient.Deliver` | lib/websocket/phoenix_client.js:55-82 | the new state is `StepView` of the event; the emits are `Emits` of the event; inbound data sends nothing; the sent envelopes only grow; a newly established connection is connected on an open socket unless its socket was already dropped |
| `Supervisor.BackoffDelay` | lib/websocket/websocket_manager.js:48 | no delay is shorter than the initial 2000 ms |
| `Supervisor.BackoffExact` | lib/websocket/websocket_manager.js:48 | for attempts 0..4, `2000·3^i/2^i` is exact and each delay is 1.5 times the previous one |
| `Supervisor.Waits` | lib/websocket/websocket_manager.js:46-54 | no sleep before the first attempt, `BackoffDelay(i)` before attempt `i` |
| `Supervisor.WaitSchedule` | lib/websocket/websocket_manager.js:46-54 | the sleeps are 3000, 4500, 6750 and 10125 ms |
| `Supervisor.PrintAck` | lib/websocket/websocket_manager.js:98-133 | no ack when the payload is missing or null; otherwise `success`, or `failed` with the print error or `Printer not ready`, with the command's `print_id` when defined and the timestamp |
| `Supervisor.AckEnvelopes` | lib/websocket/phoenix_client.js:131-145 | the `print_completed` call puts one envelope carrying the ack on the wire exactly when there is an ack and the client is connected |
| `Supervisor.WebSocketManager.constructor` | lib/websocket/websocket_manager.js:4-11 | no client and no reconnect timer |
| `Supervisor.WebSocketManager.IsConnected` | lib/websocket/websocket_manager.js:153-155 | the client exists and is connected on an open socket |
| `Supervisor.WebSocketManager.GetStatus` | lib/websocket/websocket_manager.js:157-162 | `connected` is `isConnected()`; auto-reconnect is active exactly while a reconnect timer is armed |
| `Supervisor.WebSocketManager.StartAutoReconnect` | lib/websocket/websocket_manager.js:68-89 | the previous interval is cleared, so exactly one reconnect timer is armed afterwards |
| `Supervisor.WebSocketManager.StopAutoReconnect` | lib/websocket/websocket_manager.js:91-96 | no reconnect timer is armed afterwards; a second call changes nothing |
| `Supervisor.WebSocketManager.HandlePrintCommand` | lib/websocket/websocket_manager.js:98-134 | `printHtml` runs exactly when the payload is readable and the printer ready; the current client gets the `print_completed` ack; the handler throws exactly when the payload is missing or there is no current client |
| `Supervisor.WebSocketManager.Notify` | lib/websocket/websocket_manager.js:24-34 | `print_html` sends the `print_completed` ack of its payload on the current client and throws as the print handler does; `disconnect` arms exactly one reconnect timer and sends nothing |
| `Supervisor.WebSocketManager.Connect` | lib/websocket/websocket_manager.js:13-43 | throws exactly when credentials are missing, changing nothing; otherwise the fresh client ends in `Awaited(script)`: the attempt resolves exactly when `OpensInTime(script)`, and rejects with the connection timeout exactly when the socket does not open first; a resolved connect leaves it connected, and a connect that never ends leaves the join stalled |
| `Supervisor.WebSocketManager.Settle` | lib/websocket/websocket_manager.js:36 | the client ends in `Expire(Run(start, script))`: events are applied in order until the connect settles, then the timer still armed expires; it ends settled, or stalled when no timer is left; an established connection is connected on an open socket |
| `Supervisor.WebSocketManager.ConnectWithRetry` | lib/websocket/websocket_manager.js:45-66 | one to five attempts, all failed but the last, stopping at the first success; each attempt past the credential check succeeds exactly when its own events open the socket and accept the join in time; sleeps per the schedule; after five failures, false with exactly one reconnect timer armed; a run that never ends has a stalled join |
| `Supervisor.WebSocketManager.RetryAttempt` | lib/websocket/websocket_manager.js:47-56 | the sleep is the backoff delay, none before the first attempt; the `connect` succeeds exactly when its events open the socket and accept the join in time; a success leaves the manager connected and a hang leaves the join stalled |
| `Supervisor.WebSocketManager.ReconnectTick` | lib/websocket/websocket_manager.js:74-88 | authenticated and not connected: one attempt, succeeding exactly when its events open the socket and accept the join in time, and the timer stops exactly on success; connected: the timer stops; otherwise nothing changes |
| `Supervisor.WebSocketManager.OnClientEvent` | lib/websocket/websocket_manager.js:24-34 | the current client moves as `StepView` of the event; a close of the current client arms exactly one reconnect timer; other events leave the timer as it was; a routed `print_html` sends its ack on the client, and throws exactly when the payload is missing |
| `Supervisor.WebSocketManager.OnDroppedClientEvent` | lib/websocket/websocket_manager.js:21-34 | the dropped client moves as `StepView` of the event; its close still arms a reconnect timer; its `print_html`, including one on a socket `disconnect` dropped, acks on the current client, and throws when there is none |
| `Supervisor.WebSocketManager.SendCardScanned` | lib/websocket/websocket_manager.js:136-142 | one `card_scanned` message when connected, nothing otherwise |
| `Supervisor.WebSocketManager.Disconnect` | lib/websocket/websocket_manager.js:144-151 | no client, no reconnect timer, status `{false, false}` |
| `Auth.Utf16Length` | lib/auth/auth_manager.js:14 | a string's JavaScript length is between its character count and twice that: the count exactly when no character is astral, twice it exactly when all are |
| `Auth.ValidCode` | lib/auth/auth_manager.js:14 | an accepted code is present and three to six characters long |
| `Auth.CodeCheckIsLengthOnly` | lib/auth/auth_manager.js:14-16 | six letters, or three astral characters, pass the code check; five digits, the empty code and no code fail |
| `Auth.Host` | lib/auth/auth_manager.js:18 | the given server host if non-empty, else the stored server URL |
| `Auth.FromEnv` | lib/auth/auth_manager.js:7-10 | a missing or empty variable reads as null |
| `Auth.CredentialsWritten` | lib/auth/auth_manager.js:38-43 | the file written after authenticating holds the new credentials and host, and keeps its port and server URL |
| `Auth.AuthManager.constructor` | lib/auth/auth_manager.js:5-11 | credentials from the environment, server URL defaulting to `http://localhost:4001` |
| `Auth.AuthManager.IsAuthenticated` | lib/auth/auth_manager.js:77-79 | true exactly when token and device id are both non-empty |
| `Auth.AuthManager.GetAuthData` | lib/auth/auth_manager.js:68-75 | the four current field values |
| `Auth.AuthManager.Authenticate` | lib/auth/auth_manager.js:13-58 | a bad code fails before any request with nothing changed; the request goes to the chosen host; a successful reply stores and returns its fields and rewrites `.env`; any other reply fails with nothing changed |
| `Auth.AuthManager.Disconnect` | lib/auth/auth_manager.js:60-66 | credentials null, server URL kept, no longer authenticated, `.env` cleared |
| `EnvFile.ParseLineAtFirstEquals` | lib/auth/env_manager.js:20-27 | key and value are the trimmed text either side of the first `=`; without `=` the value is empty |
| `EnvFile.ParseLine` | lib/auth/env_manager.js:20-27 | a line whose trimmed text starts with `=` defines nothing, and no defined key holds `=` |
| `EnvFile.ParseAssignment` | lib/auth/env_manager.js:23-25 | a written `KEY=value` line parses back to that pair |
| `EnvFile.CommentLine` | lib/auth/env_manager.js:21-22 | a line whose trimmed text starts with `#` defines nothing, whatever whitespace surrounds it |
| `EnvFile.FoldKeys` | lib/auth/env_manager.js:19-28 | a variable is defined exactly when some line defines it |
| `EnvFile.ParseLinesLastWins` | lib/auth/env_manager.js:24-25 | a variable's value comes from the last line defining it |
| `EnvFile.Parse` | lib/auth/env_manager.js:11-28 | an empty or missing file defines nothing, and every parsed variable holds a string |
| `EnvFile.ParseEnv` | lib/auth/env_manager.js:19-28 | the parse loop fills the dictionary `Parse` describes |
| `EnvFile.Apply` | lib/auth/env_manager.js:31 | updates override parsed values; other parsed values are kept |
| `EnvFile.ValueOr` | lib/auth/env_manager.js:36-43 | the variable's value exactly when it is present and non-empty, otherwise the fallback |
| `EnvFile.Values` | lib/auth/env_manager.js:34-45 | the port and server URL written are never empty |
| `EnvFile.Lines` | lib/auth/env_manager.js:34-44 | ten lines, the last one empty; none holds a line break when no value does |
| `EnvFile.Rebuild` | lib/auth/env_manager.js:34-45 | the text written always ends in a newline |
| `EnvFile.RebuildShape` | lib/auth/env_manager.js:34-45 | the file ends in a newline and splits back into the ten layout lines |
| `EnvFile.ReparseRebuild` | lib/auth/env_manager.js:20-45 | re-parsing a written file gives exactly its six variables, when no value holds a newline or surrounding whitespace |
| `EnvFile.RebuildFixedPoint` | lib/auth/env_manager.js:9-47 | rewriting a written file without updates writes the same text |
| `EnvFile.RebuildDropsOtherKeys` | lib/auth/env_manager.js:34-45 | variables outside the layout never reach the file |
| `EnvFile.ClearKeepsServerLines` | lib/auth/env_manager.js:58-64 | clearing empties the four auth values and keeps port and server URL |
| `EnvFile.EnvManager.constructor` | lib/auth/env_manager.js:5-7 | the manager starts on the given file |
| `EnvFile.EnvManager.Updated` | lib/auth/env_manager.js:9-45 | a missing file acts as an empty one, so the text is the rebuild of the updates alone; it always ends in a newline |
| `EnvFile.EnvManager.UpdateEnvFile` | lib/auth/env_manager.js:9-47 | the file becomes the rebuild of the parsed file merged with the updates |
| `EnvFile.EnvManager.ClearAuthFromEnv` | lib/auth/env_manager.js:58-65 | the file becomes the rebuild with the four auth values emptied |

## Left out

- Real I/O is not modelled: the `ws` socket, `node-hid` discovery, `axios` and `fs`. Their results are inputs. An `fs` error caught inside `updateEnvFile` is not modelled.
- `JSON.parse`/`JSON.stringify` are not modelled. Inbound data is a parsed `Json` value or `None` (not JSON), and envelopes are values.
- The `process.env` update inside `updateEnvFile` is not modelled. `hasAutoAuth` reads only the process environment.
- Timers and clocks are not real. Timer expiries are events, and `Date.now()` / `toISOString()` are opaque stamp parameters. One stamp serves every send of a run.
- The client's socket `error` event is left out. Its handler re-emits `error` on an emitter with no listener, which throws at process level.
- Supervisor.WebSocketManager.Connect: the await is run to completion at once. Another tick, connect or disconnect cannot interleave with a pending connect.
- Supervisor.WebSocketManager.HandlePrintCommand: the `printHtml` await is atomic. One printer outcome serves a whole run, and the printer's HTML output is not modelled.
- Supervisor.WebSocketManager.HandlePrintCommand: a rejection is reported as `threw` only. What Node does with an unhandled rejection (a warning, or ending the process) is not modelled.
- Supervisor.WebSocketManager.ConnectWithRetry: each backoff sleep and each attempt runs to completion at once. No reconnect tick, second `connectWithRetry`, `connect` or `disconnect` interleaves with a retry run. The code has no re-entrancy guard against them.
- Phoenix.PhoenixClient.Disconnect: a dropped socket may deliver messages whether it was open or still connecting. `ws` delivers none on a handshake that `close()` aborted.
- Supervisor.WebSocketManager.Settle: once the script is spent, the open or join timer still armed expires next. Events after that expiry belong to `OnClientEvent` or `OnDroppedClientEvent`.
- The `card_scanned` listener `connect` registers on the client is not modelled. The client never emits that event.
- Scanner HID set-up, `isReady`/`getStatus`/`disconnect`, the device `error` handler and the mock scanner are left out. They are device plumbing, timers and randomness.
- Auth.AuthManager.Authenticate: the reply fields are taken to be strings or absent, and `success` is read as a boolean. The authorization code is taken to be a string or absent.
- Strings.IsWhitespace: covers the characters `trim` removes in ECMAScript. A string is a sequence of Unicode scalar values, and only `Auth.Utf16Length` counts UTF-16 code units.
- Json.Json: numbers are integers only.
