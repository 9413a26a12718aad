# Click counter: client session and server bookkeeping

A Dafny model of the two stateful parts of a shared click counter web page.

- **The browser client** (`script.js`, class `WebSocketClickCounter`) is modelled as the class
  `ClickClient.ClickCounter`. It keeps the local click count, the connected flag, the reconnect
  attempt counter, the last total shown and the status text. Its methods are the socket's open,
  close and error handlers, the bounded reconnect with linear backoff (2000 ms per attempt, at
  most 5 attempts), the dispatch of inbound server messages, the guarded send, and the mouse
  handlers. The mouse handlers pick the goal images once the count reaches 1500.
- **The server** (`sever.py`) is modelled as the class `ClickServer.Server`. It holds the global
  `total_clicks`, the per-connection `client_clicks` map and the `connected_users` set. Its
  methods are the click handler, one pass of the receive loop, the init message, the safe send
  and broadcast, and the cleanup when a connection ends. Every method keeps one invariant: the
  sum of the per-client counts never exceeds the total. A consequence is stated on the replies:
  a `click_response` never reports more clicks for the client than the total it carries.

Transport effects are reduced to values:

- a scheduled reconnect is returned as its delay;
- the socket's `readyState` is a parameter;
- a client message handed to the socket is appended to `outbox`;
- on the server, a set `closed` names the connections on which a send raises `ConnectionClosed`.

Nothing resets `reconnectAttempts` when a connection opens (`script.js:46-51`), so the budget of
five reconnects covers the page's whole life rather than each outage.
`OnOpen` leaves the counter alone, so at most five reconnects are ever scheduled
(`AttemptsAfterCapped`, `SpentBudgetGivesUp`).

## Model

| member | source | states |
|---|---|---|
| ClickClient.PressedImage | script.js:129-134 | the pressed image is one of the two clicked images, and it is the goal variant exactly when the count is at least GOAL (1500) |
| ClickClient.ReleasedImage | script.js:141-146 | the released image is one of the two original images, and it is the goal variant exactly when the count is at least GOAL |
| ClickClient.CloseRunAt | script.js:114-125 | the i-th of n successive closes schedules one reconnect after 2000 * (attempts + i + 1) ms while the budget of 5 lasts, and gives up once it is spent |
| ClickClient.AttemptsAfterCapped | script.js:115-116 | after n closes the attempt counter is the start plus n, capped at 5; it never decreases and never exceeds the budget |
| ClickClient.SpentBudgetGivesUp | script.js:122-125 | once 5 attempts are spent, every later close gives up, so failure is terminal |
| ClickClient.OtherKindsKeepCount | script.js:90-103 | any run of global_update, pong, error and unknown messages leaves the click count unchanged |
| ClickClient.LastCountWins | script.js:73-88 | after a run of messages the click count is the value set by the last init (0) or click_response (client_clicks), whatever it was before |
| ClickClient.ReceiveIdempotent | script.js:70-104 | every message overwrites state, so receiving one twice has the same effect as receiving it once |
| ClickClient.ReceiveKeeps | script.js:90-103 | global_update keeps the count; pong, error and unknown kinds change nothing |
| ClickClient.ClickCounter.constructor | script.js:7-12 | a new client has count 0, is not connected and has made no reconnect attempt |
| ClickClient.ClickCounter.OnOpen | script.js:46-51 | opening sets the connected flag and the Connected status and keeps the attempt counter as it was |
| ClickClient.ClickCounter.OnError | script.js:64-67 | an error only sets the Error status |
| ClickClient.ClickCounter.AttemptReconnect | script.js:114-126 | below the budget the counter grows by exactly 1 and one reconnect is scheduled after 2000 times the new value; at the budget nothing is scheduled and the status becomes FailedToConnect; the counter never decreases and never passes 5 |
| ClickClient.ClickCounter.OnClose | script.js:57-62 | closing clears the connected flag and takes one reconnect decision; the status is Disconnected, or FailedToConnect when the budget is spent |
| ClickClient.ClickCounter.HandleServerMessage | script.js:70-104 | init sets the count to 0; click_response sets it to client_clicks; the other kinds keep it; the shown total changes only when the message carries total_clicks, and then to that value |
| ClickClient.ClickCounter.SendToServer | script.js:175-182 | a message reaches the socket exactly when the client is connected and the socket is open; otherwise nothing is sent and no state changes |
| ClickClient.ClickCounter.MouseDown | script.js:129-138 | a press shows the pressed image for the current count and sends one click through the guarded send |
| ClickClient.ClickCounter.MouseUp | script.js:141-149 | a release shows the released image, the goal variant exactly when the count is at least GOAL |
| ClickServer.SumBumped | sever.py:38-40 | one click adds exactly one to the sum of the per-client counts, whether or not the client had an entry |
| ClickServer.SumRemove | sever.py:70-72 | removing a client's entry takes exactly its count off the sum |
| ClickServer.EntryBound | sever.py:42-47 | no single client's count exceeds the sum of all counts |
| ClickServer.Server.constructor | sever.py:9-12 | the server starts with total 0, no counts and no users |
| ClickServer.Server.InitMessage | sever.py:28-33 | the init message reports the current total, which bounds the sum of the counts and every single count |
| ClickServer.Server.Connect | sever.py:56-59 | the connection joins the user set; it gets init with the current total unless its connection is closed, and then no cleanup runs |
| ClickServer.Server.SendSafe | sever.py:20-26 | a send that finds the connection closed removes the client from the user set and the count map; otherwise nothing changes |
| ClickServer.Server.BroadcastAll | sever.py:14-18 | every user connected at the start gets the message unless closed; closed users leave the user set and lose their count entry; the invariant is kept |
| ClickServer.Server.HandleClick | sever.py:35-54 | the total grows by exactly 1; the clicker's entry grows by 1 from 0 when absent and the other entries are unchanged; click_response carries the new count and total, never more count than total; global_update carries the same total; a closed clicker stops the handler before the broadcast |
| ClickServer.Server.Dispatch | sever.py:61-67 | a click message runs the click handler once; ping replies with one pong; any other type changes nothing; a frame that is not a JSON object (text `json.loads` rejects, or JSON without `get`) ends the loop with no change |
| ClickServer.Server.Disconnect | sever.py:70-72 | the client leaves the user set and its count entry is removed; the total is kept, so the invariant holds |

## Left out

- DOM, CSS and audio (`script.js:19-30`, `152-173`, `200-221`): element lookup, click effects, counter animation, status styling and `audio.play`/`pause` are presentation only. The status text is kept as the `status` field.
- Timers and the socket (`script.js:42-44`, `106-112`, `119-121`): `setTimeout`, `setInterval`, the `WebSocket` constructor and `JSON.parse`/`stringify` are not modelled. A scheduled reconnect is its returned delay, and the reconnect callback's new socket is not modelled.
- The heartbeat interval (`script.js:106-112`): it is started on every open and never cleared. Its tick only calls the guarded send, which `SendToServer` covers.
- The URL built from IP and PORT but not used (`script.js:43-44`): this is configuration.
- Timestamps and click positions (`script.js:186-188`, `sever.py:46`): opaque data with no logic. `Outbound.Click` carries no payload.
- ClickClient.ClickCounter.HandleServerMessage: a `click_response` without `client_clicks`, which would set the count to `undefined`, and a `total_clicks` of `null`, which the `!== undefined` test lets through, are not modelled. Counts are integers and totals are optional integers.
- The asyncio server, `main` and the interleaving of concurrent handlers and of the `asyncio.gather` sends (`sever.py:14-18`, `75-81`): each step is one atomic sequential update.
- The server's receive loop as a whole (`sever.py:61-73`): it is modelled as one `Dispatch` call per message, followed by `Disconnect` when the loop ends.
- `current_image_id` (`sever.py:11`, `36`): it is declared global but never read or changed.
- Connection identity: `connected_users` holds socket objects and `client_clicks` is keyed by `id(websocket)`. Both are modelled by one `ClientId`.
